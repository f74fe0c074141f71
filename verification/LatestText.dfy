// The streamed text of a runtime: a bounded tail for polling and the whole text for the result
// (`append_latest_text`, crates/zcode-agentd/src/lib.rs). Character boundaries are those of
// UTF-8 (section 3 of RFC 3629).
module LatestText {
  import opened Prelude
  import opened Json

  const MAX_LATEST_TEXT_BYTES: nat := 8192

  // The tail is kept as bytes, because it is cut at a byte position.
  datatype Latest = Latest(
    tail: seq<byte>,
    updatedAt: Option<int>,
    truncated: bool,
    terminalText: string,
    limit: nat,
    oversized: bool)

  datatype TerminalText = Visible(text: string) | Missing | Oversized

  function Fresh(limit: nat): Latest { Latest([], None, false, "", limit, false) }

  predicate Continuation(b: byte) { 0x80 <= b < 0xC0 }

  // `is_char_boundary`
  predicate IsBoundary(bytes: seq<byte>, i: nat) {
    i == 0 || i == |bytes| || (i < |bytes| && !Continuation(bytes[i]))
  }

  // The first boundary at or after i.
  function NextBoundary(bytes: seq<byte>, i: nat): (r: nat)
    requires i <= |bytes|
    ensures i <= r <= |bytes| && IsBoundary(bytes, r)
    ensures forall k :: i <= k < r ==> !IsBoundary(bytes, k)
    decreases |bytes| - i
  {
    if IsBoundary(bytes, i) then i else NextBoundary(bytes, i + 1)
  }

  function Trim(bytes: seq<byte>): seq<byte> {
    if |bytes| <= MAX_LATEST_TEXT_BYTES then bytes
    else bytes[NextBoundary(bytes, |bytes| - MAX_LATEST_TEXT_BYTES)..]
  }

  // The terminal text, until it passes its limit.
  function AppendText(l: Latest, delta: string): Latest {
    if l.oversized then l
    else if SaturatingAdd(|Utf8(l.terminalText)|, |Utf8(delta)|) <= l.limit then
      l.(terminalText := l.terminalText + delta)
    else l.(terminalText := "", oversized := true)
  }

  function AppendTail(l: Latest, bytes: seq<byte>, now: int): Latest {
    var tail := l.tail + bytes;
    l.(tail := Trim(tail), truncated := l.truncated || |tail| > MAX_LATEST_TEXT_BYTES, updatedAt := Some(now))
  }

  // `append_latest_text`
  function Append(l: Latest, delta: string, now: int): Latest {
    AppendTail(AppendText(l, delta), Utf8(delta), now)
  }

  // `take_terminal_text`
  function Take(l: Latest): (Latest, TerminalText) {
    if l.oversized then (l, Oversized)
    else (l.(terminalText := ""), if Blank(l.terminalText) then Missing else Visible(l.terminalText))
  }

  method FindSplit(bytes: seq<byte>) returns (split: nat)
    requires |bytes| > MAX_LATEST_TEXT_BYTES
    ensures split == NextBoundary(bytes, |bytes| - MAX_LATEST_TEXT_BYTES)
  {
    split := |bytes| - MAX_LATEST_TEXT_BYTES;
    while !IsBoundary(bytes, split)
      invariant split <= |bytes|
      invariant NextBoundary(bytes, split) == NextBoundary(bytes, |bytes| - MAX_LATEST_TEXT_BYTES)
      decreases |bytes| - split
    {
      split := split + 1;
    }
  }

  class LatestTextState {
    var tail: seq<byte>
    var updatedAt: Option<int>
    var truncated: bool
    var terminalText: string
    var limit: nat
    var oversized: bool

    function Snapshot(): Latest
      reads this
    {
      Latest(tail, updatedAt, truncated, terminalText, limit, oversized)
    }

    constructor (limit: nat)
      ensures Snapshot() == Fresh(limit)
    {
      tail, updatedAt, truncated := [], None, false;
      terminalText, this.limit, oversized := "", limit, false;
    }

    method AppendTerminalText(delta: string)
      modifies this`terminalText, this`oversized
      ensures Snapshot() == AppendText(old(Snapshot()), delta)
    {
      if !oversized {
        var nextLength := SaturatingAdd(|Utf8(terminalText)|, |Utf8(delta)|);
        if nextLength <= limit {
          terminalText := terminalText + delta;
        } else {
          terminalText := "";
          oversized := true;
        }
      }
    }

    method AppendBytes(bytes: seq<byte>, now: int)
      modifies this`tail, this`updatedAt, this`truncated
      ensures Snapshot() == AppendTail(old(Snapshot()), bytes, now)
    {
      tail := tail + bytes;
      if |tail| > MAX_LATEST_TEXT_BYTES {
        var split := FindSplit(tail);
        tail := tail[split..];
        truncated := true;
      }
      updatedAt := Some(now);
    }

    method AppendLatestText(delta: string, now: int)
      modifies this`tail, this`updatedAt, this`truncated, this`terminalText, this`oversized
      ensures Snapshot() == Append(old(Snapshot()), delta, now)
    {
      AppendTerminalText(delta);
      AppendBytes(Utf8(delta), now);
    }

    method TakeTerminalText() returns (text: TerminalText)
      modifies this`terminalText
      ensures (Snapshot(), text) == Take(old(Snapshot()))
    {
      if oversized {
        return Oversized;
      }
      if Blank(terminalText) {
        terminalText := "";
        return Missing;
      }
      text := Visible(terminalText);
      terminalText := "";
    }
  }

  // ----- The whole text -----

  datatype Delta = Delta(text: string, at: int)

  function AppendAll(l: Latest, deltas: seq<Delta>): Latest {
    if deltas == [] then l
    else
      var last := |deltas| - 1;
      Append(AppendAll(l, deltas[..last]), deltas[last].text, deltas[last].at)
  }

  function Whole(deltas: seq<Delta>): string {
    if deltas == [] then "" else Whole(deltas[..|deltas| - 1]) + deltas[|deltas| - 1].text
  }

  // The longest suffix of whole characters within the cap.
  function LongestTail(text: string): string {
    if |Utf8(text)| <= MAX_LATEST_TEXT_BYTES then text else LongestTail(text[1..])
  }

  /** It is a suffix within the cap, and every longer suffix exceeds the cap. */
  lemma {:induction false} LongestTailIsLongest(text: string)
    ensures |LongestTail(text)| <= |text| && LongestTail(text) == text[|text| - |LongestTail(text)|..]
    ensures |Utf8(LongestTail(text))| <= MAX_LATEST_TEXT_BYTES
    ensures forall m :: 0 <= m < |text| - |LongestTail(text)| ==> |Utf8(text[m..])| > MAX_LATEST_TEXT_BYTES
  {
    if |Utf8(text)| > MAX_LATEST_TEXT_BYTES {
      LongestTailIsLongest(text[1..]);
      assert text[0..] == text;
      forall m | 0 < m < |text| - |LongestTail(text)| ensures |Utf8(text[m..])| > MAX_LATEST_TEXT_BYTES {
        assert text[1..][m - 1..] == text[m..];
      }
    }
  }

  // Cutting after appending is cutting the whole.
  lemma {:induction false} TailOfTail(text: string, delta: string)
    ensures LongestTail(text + delta) == LongestTail(LongestTail(text) + delta)
  {
    if |Utf8(text)| > MAX_LATEST_TEXT_BYTES {
      Utf8Concat(text, delta);
      assert (text + delta)[1..] == text[1..] + delta;
      TailOfTail(text[1..], delta);
    }
  }

  lemma CharBytes(c: char)
    ensures 1 <= |Utf8Char(c)| <= 4 && !Continuation(Utf8Char(c)[0])
    ensures forall k :: 0 < k < |Utf8Char(c)| ==> Continuation(Utf8Char(c)[k])
  {
  }

  lemma StartsOnBoundary(text: string)
    requires text != ""
    ensures Utf8(text) != [] && !Continuation(Utf8(text)[0])
  {
    CharBytes(text[0]);
    assert Utf8(text) == Utf8Char(text[0]) + Utf8(text[1..]);
  }

  // Boundaries behind the first of two pieces, if the second starts on one.
  lemma JoinedBoundary(head: seq<byte>, rest: seq<byte>, k: nat)
    requires head != [] && |head| <= k <= |head| + |rest| && (rest != [] ==> !Continuation(rest[0]))
    ensures IsBoundary(head + rest, k) <==> IsBoundary(rest, k - |head|)
  {
    if k < |head| + |rest| {
      assert (head + rest)[k] == rest[k - |head|];
    }
  }

  // The boundaries of a text after its first character are those of the rest.
  lemma BoundaryShift(text: string, k: nat)
    requires text != "" && |Utf8Char(text[0])| <= k <= |Utf8(text)|
    ensures IsBoundary(Utf8(text), k) <==> IsBoundary(Utf8(text[1..]), k - |Utf8Char(text[0])|)
  {
    CharBytes(text[0]);
    if text[1..] != "" {
      StartsOnBoundary(text[1..]);
    }
    JoinedBoundary(Utf8Char(text[0]), Utf8(text[1..]), k);
  }

  lemma NextIs(bytes: seq<byte>, i: nat, r: nat)
    requires i <= r <= |bytes| && IsBoundary(bytes, r) && forall k :: i <= k < r ==> !IsBoundary(bytes, k)
    ensures NextBoundary(bytes, i) == r
  {
    assert IsBoundary(bytes, NextBoundary(bytes, i));
  }

  // A cut beyond the first character is a cut of the rest.
  lemma NextShift(text: string, cut: nat)
    requires text != "" && |Utf8Char(text[0])| <= cut <= |Utf8(text)|
    ensures NextBoundary(Utf8(text), cut) ==
            |Utf8Char(text[0])| + NextBoundary(Utf8(text[1..]), cut - |Utf8Char(text[0])|)
  {
    var bytes, n, rest := Utf8(text), |Utf8Char(text[0])|, Utf8(text[1..]);
    var r := NextBoundary(rest, cut - n);
    BoundaryShift(text, n + r);
    forall k | cut <= k < n + r ensures !IsBoundary(bytes, k) {
      BoundaryShift(text, k);
    }
    NextIs(bytes, cut, n + r);
  }

  // A cut inside the first character removes just that character.
  lemma NextWithin(text: string, cut: nat)
    requires text != "" && 0 < cut <= |Utf8Char(text[0])|
    ensures NextBoundary(Utf8(text), cut) == |Utf8Char(text[0])|
  {
    CharBytes(text[0]);
    BoundaryShift(text, |Utf8Char(text[0])|);
    NextIs(Utf8(text), cut, |Utf8Char(text[0])|);
  }

  // The first boundary after a cut is where the longest tail starts.
  lemma {:induction false} CutAtBoundary(text: string, cut: nat)
    requires 0 < cut <= |Utf8(text)| && cut == |Utf8(text)| - MAX_LATEST_TEXT_BYTES
    ensures Utf8(text)[NextBoundary(Utf8(text), cut)..] == Utf8(LongestTail(text))
    decreases |text|
  {
    var bytes, n, rest := Utf8(text), |Utf8Char(text[0])|, Utf8(text[1..]);
    assert bytes == Utf8Char(text[0]) + rest;
    if cut <= n {
      NextWithin(text, cut);
      assert LongestTail(text) == text[1..];
    } else {
      CutAtBoundary(text[1..], cut - n);
      NextShift(text, cut);
    }
  }

  lemma TrimIsLongestTail(text: string)
    ensures Trim(Utf8(text)) == Utf8(LongestTail(text))
  {
    if |Utf8(text)| > MAX_LATEST_TEXT_BYTES {
      CutAtBoundary(text, |Utf8(text)| - MAX_LATEST_TEXT_BYTES);
    }
  }

  // A text too long for the limit, as a saturating 64-bit length sees it.
  predicate TooLong(text: string, limit: nat) {
    SaturatingAdd(|Utf8(text)|, 0) > limit
  }

  // The state after all of `text` has been streamed.
  predicate Holds(l: Latest, text: string) {
    && l.tail == Utf8(LongestTail(text))
    && (l.truncated <==> |Utf8(text)| > MAX_LATEST_TEXT_BYTES)
    && (l.oversized <==> TooLong(text, l.limit))
    && l.terminalText == (if l.oversized then "" else text)
  }

  lemma TextHolds(l: Latest, text: string, delta: string)
    requires (l.oversized <==> TooLong(text, l.limit)) && l.terminalText == (if l.oversized then "" else text)
    requires l.limit <= U64_MAX
    ensures var l' := AppendText(l, delta);
            && (l'.oversized <==> TooLong(text + delta, l.limit))
            && l'.terminalText == (if l'.oversized then "" else text + delta)
  {
    Utf8Concat(text, delta);
  }

  lemma TailHolds(l: Latest, text: string, delta: string, now: int)
    requires l.tail == Utf8(LongestTail(text)) && (l.truncated <==> |Utf8(text)| > MAX_LATEST_TEXT_BYTES)
    ensures var l' := AppendTail(l, Utf8(delta), now);
            && l'.tail == Utf8(LongestTail(text + delta))
            && (l'.truncated <==> |Utf8(text + delta)| > MAX_LATEST_TEXT_BYTES)
  {
    var kept := LongestTail(text);
    LongestTailIsLongest(text);
    Utf8Concat(text, delta);
    Utf8Concat(kept, delta);
    TrimIsLongestTail(kept + delta);
    TailOfTail(text, delta);
  }

  lemma AppendHolds(l: Latest, text: string, delta: string, now: int)
    requires Holds(l, text) && l.limit <= U64_MAX
    ensures Holds(Append(l, delta, now), text + delta)
  {
    TextHolds(l, text, delta);
    TailHolds(AppendText(l, delta), text, delta, now);
  }

  /** Streaming any deltas gives what one cut of the whole text would: the tail is the longest
      suffix of whole characters within 8192 bytes, it is marked truncated if and only if the
      whole is longer than that, and the terminal text is the whole until it passes its limit and
      empty and oversized from then on. */
  lemma {:induction false} StreamingIsOneCut(limit: nat, deltas: seq<Delta>)
    requires limit <= U64_MAX
    ensures Holds(AppendAll(Fresh(limit), deltas), Whole(deltas)) && AppendAll(Fresh(limit), deltas).limit == limit
  {
    if deltas != [] {
      var last := |deltas| - 1;
      StreamingIsOneCut(limit, deltas[..last]);
      AppendHolds(AppendAll(Fresh(limit), deltas[..last]), Whole(deltas[..last]), deltas[last].text, deltas[last].at);
    }
  }

  /** So the first take gives the whole text, unless it is blank or too long. */
  lemma FirstTake(limit: nat, deltas: seq<Delta>)
    requires limit <= U64_MAX
    ensures Take(AppendAll(Fresh(limit), deltas)).1 ==
            if TooLong(Whole(deltas), limit) then Oversized
            else if Blank(Whole(deltas)) then Missing
            else Visible(Whole(deltas))
  {
    StreamingIsOneCut(limit, deltas);
  }
}
