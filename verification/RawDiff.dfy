// The parser of `git diff --raw -z` that looks for gitlinks
// (crates/zcode-agent-preparation/src/general.rs).
module RawDiff {
  import opened Prelude

  type Bytes = seq<byte>

  const NUL: byte := 0
  const SPACE: byte := 0x20
  const COLON: byte := 0x3A

  const GITLINK: Bytes := [0x31, 0x36, 0x30, 0x30, 0x30, 0x30]

  // `valid_raw_mode`: 000000, 100644, 100755, 120000 and 160000.
  predicate ValidMode(mode: Bytes) {
    || mode == [0x30, 0x30, 0x30, 0x30, 0x30, 0x30]
    || mode == [0x31, 0x30, 0x30, 0x36, 0x34, 0x34]
    || mode == [0x31, 0x30, 0x30, 0x37, 0x35, 0x35]
    || mode == [0x31, 0x32, 0x30, 0x30, 0x30, 0x30]
    || mode == GITLINK
  }

  predicate IsDigit(b: byte) { 0x30 <= b <= 0x39 }

  predicate AllDigits(bytes: Bytes) { forall i :: 0 <= i < |bytes| ==> IsDigit(bytes[i]) }

  // `valid_raw_object_id`
  predicate ValidObject(id: Bytes) {
    |id| in {40, 64} && forall i :: 0 <= i < |id| ==> IsDigit(id[i]) || 0x61 <= id[i] <= 0x66
  }

  function Score(digits: Bytes): nat
    requires AllDigits(digits)
  {
    if digits == [] then 0
    else
      var last := |digits| - 1;
      assert IsDigit(digits[last]);
      Score(digits[..last]) * 10 + (digits[last] as int - 0x30)
  }

  // `raw_status_path_count`: R and C with a score of one to three digits up to 100 have two
  // paths; A, D, M, T, U, X and B alone have one.
  function PathCount(status: Bytes): Option<nat> {
    if status == [] then None
    else
      var detail := status[1..];
      if status[0] == 0x52 || status[0] == 0x43 then
        if detail == [] || |detail| > 3 || !AllDigits(detail) then None
        else if Score(detail) > 100 then None
        else Some(2)
      else if status[0] in {0x41, 0x44, 0x4D, 0x54, 0x55, 0x58, 0x42} && detail == [] then Some(1)
      else None
  }

  // ----- Entries and their printed form -----

  datatype Header = Header(oldMode: Bytes, newMode: Bytes, oldObject: Bytes, newObject: Bytes, status: Bytes)

  datatype Entry = Entry(header: Header, paths: seq<Bytes>)

  predicate ValidHeader(h: Header) {
    && ValidMode(h.oldMode) && ValidMode(h.newMode) && ValidObject(h.oldObject) && ValidObject(h.newObject)
    && PathCount(h.status).Some?
  }

  predicate ValidPath(path: Bytes) { path != [] && NUL !in path }

  predicate ValidEntry(e: Entry) {
    && ValidHeader(e.header) && PathCount(e.header.status) == Some(|e.paths|)
    && forall i :: 0 <= i < |e.paths| ==> ValidPath(e.paths[i])
  }

  predicate AllValid(entries: seq<Entry>) { forall i :: 0 <= i < |entries| ==> ValidEntry(entries[i]) }

  predicate IsGitlink(e: Entry) { e.header.oldMode == GITLINK || e.header.newMode == GITLINK }

  predicate HasGitlink(entries: seq<Entry>) { exists i :: 0 <= i < |entries| && IsGitlink(entries[i]) }

  function Join(fields: seq<Bytes>): Bytes {
    if fields == [] then []
    else if |fields| == 1 then fields[0]
    else fields[0] + [SPACE] + Join(fields[1..])
  }

  function Fields(h: Header): seq<Bytes> {
    [[COLON] + h.oldMode, h.newMode, h.oldObject, h.newObject, h.status]
  }

  function PrintPaths(paths: seq<Bytes>): Bytes {
    if paths == [] then [] else paths[0] + [NUL] + PrintPaths(paths[1..])
  }

  function Print(e: Entry): Bytes { Join(Fields(e.header)) + [NUL] + PrintPaths(e.paths) }

  function PrintAll(entries: seq<Entry>): Bytes {
    if entries == [] then [] else Print(entries[0]) + PrintAll(entries[1..])
  }

  // ----- Parsing -----

  function Find(bytes: Bytes, b: byte): (r: Option<nat>)
    ensures r.None? <==> b !in bytes
    ensures r.Some? ==> r.value < |bytes| && bytes[r.value] == b && b !in bytes[..r.value]
  {
    if bytes == [] then None
    else if bytes[0] == b then Some(0)
    else
      match Find(bytes[1..], b)
      case None => None
      case Some(i) =>
        assert bytes[..i + 1] == [bytes[0]] + bytes[1..][..i];
        Some(i + 1)
  }

  function Split(bytes: Bytes, b: byte): (r: seq<Bytes>)
    ensures r != []
    decreases |bytes|
  {
    match Find(bytes, b)
    case None => [bytes]
    case Some(i) => [bytes[..i]] + Split(bytes[i + 1..], b)
  }

  // A record up to the next NUL, and what follows it.
  function TakeRecord(bytes: Bytes): Option<(Bytes, Bytes)> {
    match Find(bytes, NUL)
    case None => None
    case Some(i) => Some((bytes[..i], bytes[i + 1..]))
  }

  function ParseHeader(record: Bytes): Option<Header> {
    var fields := Split(record, SPACE);
    if |fields| != 5 || fields[0] == [] || fields[0][0] != COLON then None
    else
      var h := Header(fields[0][1..], fields[1], fields[2], fields[3], fields[4]);
      if ValidHeader(h) then Some(h) else None
  }

  function TakePaths(bytes: Bytes, n: nat): Option<(seq<Bytes>, Bytes)> {
    if n == 0 then Some(([], bytes))
    else
      match TakeRecord(bytes)
      case None => None
      case Some((path, rest)) =>
        if path == [] then None
        else
          match TakePaths(rest, n - 1)
          case None => None
          case Some((paths, left)) => Some(([path] + paths, left))
  }

  function TakeEntry(bytes: Bytes): (r: Option<(Entry, Bytes)>)
  {
    match TakeRecord(bytes)
    case None => None
    case Some((record, rest)) =>
      match ParseHeader(record)
      case None => None
      case Some(h) =>
        match TakePaths(rest, PathCount(h.status).GetOr(0))
        case None => None
        case Some((paths, left)) => Some((Entry(h, paths), left))
  }

  lemma {:induction false} PathsShrink(bytes: Bytes, n: nat)
    ensures TakePaths(bytes, n).Some? ==> |TakePaths(bytes, n).value.1| <= |bytes|
  {
    if n > 0 && TakeRecord(bytes).Some? {
      PathsShrink(TakeRecord(bytes).value.1, n - 1);
    }
  }

  lemma EntryShrinks(bytes: Bytes)
    ensures TakeEntry(bytes).Some? ==> |TakeEntry(bytes).value.1| < |bytes|
  {
    if TakeEntry(bytes).Some? {
      var (record, rest) := TakeRecord(bytes).value;
      PathsShrink(rest, PathCount(ParseHeader(record).value.status).GetOr(0));
    }
  }

  function ParseAll(bytes: Bytes): Option<seq<Entry>>
    decreases |bytes|
  {
    if bytes == [] then Some([])
    else
      EntryShrinks(bytes);
      match TakeEntry(bytes)
      case None => None
      case Some((entry, rest)) =>
        match ParseAll(rest)
        case None => None
        case Some(entries) => Some([entry] + entries)
  }

  // ----- Printing, then parsing -----

  lemma {:induction false} FindIs(bytes: Bytes, b: byte, i: nat)
    requires i < |bytes| && bytes[i] == b && b !in bytes[..i]
    ensures Find(bytes, b) == Some(i)
  {
    if i > 0 {
      assert bytes[..i] == [bytes[0]] + bytes[1..][..i - 1];
      FindIs(bytes[1..], b, i - 1);
    }
  }

  lemma FindAfter(prefix: Bytes, b: byte, rest: Bytes)
    requires b !in prefix
    ensures Find(prefix + [b] + rest, b) == Some(|prefix|)
  {
    var bytes := prefix + [b] + rest;
    assert bytes[..|prefix|] == prefix;
    FindIs(bytes, b, |prefix|);
  }

  lemma TakePrinted(record: Bytes, rest: Bytes)
    requires NUL !in record
    ensures TakeRecord(record + [NUL] + rest) == Some((record, rest))
  {
    FindAfter(record, NUL, rest);
    var bytes := record + [NUL] + rest;
    assert bytes[..|record|] == record && bytes[|record| + 1..] == rest;
  }

  lemma {:induction false} SplitJoined(fields: seq<Bytes>)
    requires fields != [] && forall i :: 0 <= i < |fields| ==> SPACE !in fields[i]
    ensures Split(Join(fields), SPACE) == fields
    decreases |fields|
  {
    if |fields| > 1 {
      var rest := Join(fields[1..]);
      SplitJoined(fields[1..]);
      FindAfter(fields[0], SPACE, rest);
      var bytes := fields[0] + [SPACE] + rest;
      assert bytes[..|fields[0]|] == fields[0] && bytes[|fields[0]| + 1..] == rest;
    }
  }

  predicate Clean(bytes: Bytes) { SPACE !in bytes && NUL !in bytes }

  lemma StatusClean(status: Bytes)
    requires PathCount(status).Some?
    ensures Clean(status)
  {
    assert status == [status[0]] + status[1..];
    if status[0] == 0x52 || status[0] == 0x43 {
      assert forall i :: 0 <= i < |status[1..]| ==> IsDigit(status[1..][i]);
    }
  }

  lemma FieldsClean(h: Header)
    requires ValidHeader(h)
    ensures forall i :: 0 <= i < |Fields(h)| ==> Clean(Fields(h)[i])
  {
    StatusClean(h.status);
  }

  lemma {:induction false} JoinClean(fields: seq<Bytes>)
    requires forall i :: 0 <= i < |fields| ==> NUL !in fields[i]
    ensures NUL !in Join(fields)
    decreases |fields|
  {
    if |fields| > 1 {
      JoinClean(fields[1..]);
    }
  }

  lemma HeaderParses(h: Header)
    requires ValidHeader(h)
    ensures ParseHeader(Join(Fields(h))) == Some(h)
  {
    FieldsClean(h);
    SplitJoined(Fields(h));
    assert Fields(h)[0][1..] == h.oldMode;
  }

  lemma PathFront(path: Bytes, more: Bytes, paths: seq<Bytes>, rest: Bytes)
    requires ValidPath(path) && TakePaths(more, |paths|) == Some((paths, rest))
    ensures TakePaths(path + [NUL] + more, |paths| + 1) == Some(([path] + paths, rest))
  {
    TakePrinted(path, more);
  }

  lemma {:induction false} PathsParse(paths: seq<Bytes>, rest: Bytes)
    requires forall i :: 0 <= i < |paths| ==> ValidPath(paths[i])
    ensures TakePaths(PrintPaths(paths) + rest, |paths|) == Some((paths, rest))
    decreases |paths|
  {
    if paths == [] {
      assert PrintPaths(paths) + rest == rest;
    } else {
      var path, others := paths[0], paths[1..];
      assert ValidPath(path) && paths == [path] + others;
      PathsParse(others, rest);
      PathFront(path, PrintPaths(others) + rest, others, rest);
      assert PrintPaths(paths) + rest == path + [NUL] + (PrintPaths(others) + rest);
    }
  }

  lemma EntryParses(e: Entry, rest: Bytes)
    requires ValidEntry(e)
    ensures TakeEntry(Print(e) + rest) == Some((e, rest))
  {
    var record := Join(Fields(e.header));
    FieldsClean(e.header);
    JoinClean(Fields(e.header));
    TakePrinted(record, PrintPaths(e.paths) + rest);
    assert Print(e) + rest == record + [NUL] + (PrintPaths(e.paths) + rest);
    HeaderParses(e.header);
    PathsParse(e.paths, rest);
  }

  lemma ParseFront(e: Entry, rest: Bytes, entries: seq<Entry>)
    requires ValidEntry(e) && ParseAll(rest) == Some(entries)
    ensures ParseAll(Print(e) + rest) == Some([e] + entries)
  {
    var bytes := Print(e) + rest;
    EntryParses(e, rest);
    EntryShrinks(bytes);
  }

  /** Printing valid entries and parsing the bytes gives the entries back. */
  lemma {:induction false} PrintedParses(entries: seq<Entry>)
    requires AllValid(entries)
    ensures ParseAll(PrintAll(entries)) == Some(entries)
    decreases |entries|
  {
    if entries != [] {
      var first, rest := entries[0], entries[1..];
      assert ValidEntry(first);
      PrintedParses(rest);
      ParseFront(first, PrintAll(rest), rest);
      assert entries == [first] + rest;
    }
  }

  // ----- Parsing, then printing -----

  lemma {:induction false} JoinSplit(bytes: Bytes)
    ensures Join(Split(bytes, SPACE)) == bytes
    decreases |bytes|
  {
    var found := Find(bytes, SPACE);
    if found.Some? {
      var i := found.value;
      JoinSplit(bytes[i + 1..]);
      assert Split(bytes, SPACE)[1..] == Split(bytes[i + 1..], SPACE);
      assert bytes == bytes[..i] + [SPACE] + bytes[i + 1..];
    }
  }

  lemma FieldsOfParts(fields: seq<Bytes>)
    requires |fields| == 5 && fields[0] != [] && fields[0][0] == COLON
    ensures Fields(Header(fields[0][1..], fields[1], fields[2], fields[3], fields[4])) == fields
  {
    assert fields[0] == [COLON] + fields[0][1..];
  }

  lemma ParsedHeader(record: Bytes)
    requires ParseHeader(record).Some?
    ensures ValidHeader(ParseHeader(record).value) && Join(Fields(ParseHeader(record).value)) == record
  {
    var fields := Split(record, SPACE);
    FieldsOfParts(fields);
    JoinSplit(record);
  }

  lemma TakenRecord(bytes: Bytes)
    requires TakeRecord(bytes).Some?
    ensures var (record, rest) := TakeRecord(bytes).value; NUL !in record && bytes == record + [NUL] + rest
  {
  }

  predicate ValidPaths(paths: seq<Bytes>) {
    forall i :: 0 <= i < |paths| ==> ValidPath(paths[i])
  }

  lemma PrintOnePath(path: Bytes, paths: seq<Bytes>, left: Bytes)
    requires path != [] && NUL !in path && ValidPaths(paths)
    ensures path + [NUL] + (PrintPaths(paths) + left) == PrintPaths([path] + paths) + left
    ensures ValidPaths([path] + paths)
  {
    assert ([path] + paths)[1..] == paths;
  }

  lemma {:induction false} TakenPaths(bytes: Bytes, n: nat)
    requires TakePaths(bytes, n).Some?
    ensures var (paths, rest) := TakePaths(bytes, n).value;
            |paths| == n && bytes == PrintPaths(paths) + rest && ValidPaths(paths)
  {
    if n > 0 {
      TakenRecord(bytes);
      var (path, rest) := TakeRecord(bytes).value;
      TakenPaths(rest, n - 1);
      var (paths, left) := TakePaths(rest, n - 1).value;
      PrintOnePath(path, paths, left);
    }
  }

  lemma TakenEntry(bytes: Bytes)
    requires TakeEntry(bytes).Some?
    ensures var (e, rest) := TakeEntry(bytes).value; ValidEntry(e) && bytes == Print(e) + rest
  {
    TakenRecord(bytes);
    var (record, rest) := TakeRecord(bytes).value;
    ParsedHeader(record);
    var h := ParseHeader(record).value;
    TakenPaths(rest, PathCount(h.status).GetOr(0));
    var (e, left) := TakeEntry(bytes).value;
    assert bytes == record + [NUL] + (PrintPaths(e.paths) + left);
  }

  /** Whatever parses consists of valid entries whose printed form is the input. */
  lemma {:induction false} ParsedPrints(bytes: Bytes)
    requires ParseAll(bytes).Some?
    ensures AllValid(ParseAll(bytes).value) && PrintAll(ParseAll(bytes).value) == bytes
    decreases |bytes|
  {
    if bytes != [] {
      TakenEntry(bytes);
      EntryShrinks(bytes);
      var (e, rest) := TakeEntry(bytes).value;
      ParsedPrints(rest);
      var entries := ParseAll(rest).value;
      assert ([e] + entries)[1..] == entries;
    }
  }

  // ----- The parser -----

  datatype Verdict = Ok(hasGitlink: bool) | Err

  function Expected(bytes: Bytes): Verdict {
    match ParseAll(bytes)
    case None => Err
    case Some(entries) => Ok(HasGitlink(entries))
  }

  // `take_nul_record`: the record at the cursor and the cursor behind it.
  method TakeNulRecord(raw: Bytes, cursor: nat) returns (record: Option<Bytes>, next: nat)
    requires cursor <= |raw|
    ensures record.None? ==> TakeRecord(raw[cursor..]).None? && next == cursor
    ensures record.Some? ==>
              cursor < next <= |raw| && TakeRecord(raw[cursor..]) == Some((record.value, raw[next..]))
  {
    var end := cursor;
    while end < |raw| && raw[end] != NUL
      invariant cursor <= end <= |raw|
      invariant NUL !in raw[cursor..end]
    {
      end := end + 1;
    }
    if end == |raw| {
      assert raw[cursor..] == raw[cursor..end];
      return None, cursor;
    }
    record, next := Some(raw[cursor..end]), end + 1;
    TakePrinted(raw[cursor..end], raw[next..]);
    assert raw[cursor..] == raw[cursor..end] + [NUL] + raw[next..];
  }

  // Paths taken before, in front of what is still to take.
  function PathsAfter(taken: seq<Bytes>, later: Option<(seq<Bytes>, Bytes)>): Option<(seq<Bytes>, Bytes)> {
    match later
    case None => None
    case Some((paths, left)) => Some((taken + paths, left))
  }

  lemma OnePathAfter(taken: seq<Bytes>, bytes: Bytes, path: Bytes, rest: Bytes, n: nat)
    requires n > 0 && TakeRecord(bytes) == Some((path, rest))
    ensures PathsAfter(taken, TakePaths(bytes, n)) ==
            if path == [] then None else PathsAfter(taken + [path], TakePaths(rest, n - 1))
  {
    if path != [] && TakePaths(rest, n - 1).Some? {
      var paths := TakePaths(rest, n - 1).value.0;
      assert taken + ([path] + paths) == taken + [path] + paths;
    }
  }

  lemma NothingTaken(later: Option<(seq<Bytes>, Bytes)>)
    ensures PathsAfter([], later) == later
  {
    if later.Some? {
      assert [] + later.value.0 == later.value.0;
    }
  }

  // The paths of one entry, of which only the number is of interest.
  method SkipPaths(raw: Bytes, cursor: nat, count: nat) returns (ok: bool, next: nat)
    requires cursor <= |raw|
    ensures !ok ==> TakePaths(raw[cursor..], count).None?
    ensures ok ==> cursor <= next <= |raw| && TakePaths(raw[cursor..], count).Some? &&
                   TakePaths(raw[cursor..], count).value.1 == raw[next..]
  {
    next := cursor;
    ghost var taken: seq<Bytes> := [];
    ghost var whole := TakePaths(raw[cursor..], count);
    NothingTaken(whole);
    for i := 0 to count
      invariant cursor <= next <= |raw|
      invariant whole == PathsAfter(taken, TakePaths(raw[next..], count - i))
    {
      var record, after := TakeNulRecord(raw, next);
      if record.None? {
        return false, next;
      }
      OnePathAfter(taken, raw[next..], record.value, raw[after..], count - i);
      if record.value == [] {
        return false, next;
      }
      taken := taken + [record.value];
      next := after;
    }
    return true, next;
  }

  function EntriesAfter(seen: seq<Entry>, later: Option<seq<Entry>>): Option<seq<Entry>> {
    match later
    case None => None
    case Some(entries) => Some(seen + entries)
  }

  lemma NothingSeen(later: Option<seq<Entry>>)
    ensures EntriesAfter([], later) == later
  {
    if later.Some? {
      assert [] + later.value == later.value;
    }
  }

  lemma OneEntryAfter(seen: seq<Entry>, bytes: Bytes)
    requires bytes != []
    ensures EntriesAfter(seen, ParseAll(bytes)) ==
            match TakeEntry(bytes)
            case None => None
            case Some((e, rest)) => EntriesAfter(seen + [e], ParseAll(rest))
  {
    EntryShrinks(bytes);
    match TakeEntry(bytes)
    case None =>
    case Some((e, rest)) =>
      if ParseAll(rest).Some? {
        assert seen + ([e] + ParseAll(rest).value) == seen + [e] + ParseAll(rest).value;
      }
  }

  // One turn of the loop: the entry at the cursor, as far as the verdict needs it.
  method NextEntry(raw: Bytes, cursor: nat) returns (header: Option<Header>, next: nat)
    requires cursor < |raw|
    ensures header.None? ==> TakeEntry(raw[cursor..]).None?
    ensures header.Some? ==>
              && cursor < next <= |raw| && TakeEntry(raw[cursor..]).Some?
              && TakeEntry(raw[cursor..]).value.0.header == header.value
              && TakeEntry(raw[cursor..]).value.1 == raw[next..]
  {
    var record, afterHeader := TakeNulRecord(raw, cursor);
    if record.None? {
      return None, cursor;
    }
    header := ParseHeader(record.value);
    if header.None? {
      return None, cursor;
    }
    var ok;
    ok, next := SkipPaths(raw, afterHeader, PathCount(header.value.status).GetOr(0));
    if !ok {
      return None, cursor;
    }
  }

  method RawDiffHasGitlink(raw: Bytes) returns (verdict: Verdict)
    ensures verdict == Expected(raw)
  {
    var cursor: nat := 0;
    var hasGitlink := false;
    ghost var seen: seq<Entry> := [];
    assert raw[0..] == raw;
    NothingSeen(ParseAll(raw));
    while cursor < |raw|
      invariant cursor <= |raw| && hasGitlink == HasGitlink(seen)
      invariant ParseAll(raw) == EntriesAfter(seen, ParseAll(raw[cursor..]))
      decreases |raw| - cursor
    {
      OneEntryAfter(seen, raw[cursor..]);
      var header, next := NextEntry(raw, cursor);
      if header.None? {
        return Err;
      }
      ghost var e := TakeEntry(raw[cursor..]).value.0;
      GitlinkSoFar(seen, e);
      hasGitlink := hasGitlink || header.value.oldMode == GITLINK || header.value.newMode == GITLINK;
      seen := seen + [e];
      cursor := next;
    }
    assert seen + [] == seen;
    return Ok(hasGitlink);
  }

  lemma GitlinkSoFar(seen: seq<Entry>, e: Entry)
    ensures HasGitlink(seen + [e]) <==> HasGitlink(seen) || IsGitlink(e)
  {
    var all := seen + [e];
    if HasGitlink(seen) {
      var i :| 0 <= i < |seen| && IsGitlink(seen[i]);
      assert IsGitlink(all[i]);
    } else if IsGitlink(e) {
      assert IsGitlink(all[|seen|]);
    }
  }

  /** The verdict is exact: Ok(b) if and only if the input is the printed form of valid entries of
      which b says whether one is a gitlink; every other input is an error. */
  lemma VerdictIsExact(raw: Bytes, b: bool)
    ensures Expected(raw) == Ok(b) <==>
            exists entries :: AllValid(entries) && PrintAll(entries) == raw && HasGitlink(entries) == b
  {
    if Expected(raw) == Ok(b) {
      ParsedPrints(raw);
    }
    forall entries | AllValid(entries) && PrintAll(entries) == raw && HasGitlink(entries) == b
      ensures Expected(raw) == Ok(b)
    {
      PrintedParses(entries);
    }
  }
}
