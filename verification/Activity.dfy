// What the runtime is seen doing: one sample per event identity, deduplicated between the session
// stream and its telemetry (`PassiveActivityTracker`, crates/zcode-agentd/src/lib.rs).
module Activity {
  import opened Prelude
  import opened LatestText

  datatype Source = Session | Telemetry | Runtime

  datatype ToolKind = ReadTool | BashTool | OtherTool

  datatype SampleKind =
    | ReasoningDelta(bytes: nat)
    | TextDelta(bytes: nat)
    | ToolStarted(kind: ToolKind)
    | ToolCompleted
    | ToolFailed

  datatype Sample = Sample(source: Source, at: int, kind: SampleKind)

  // The part of a parsed event that samples and text depend on.
  datatype Parsed = Parsed(
    source: Source,
    identity: Option<string>,
    sample: Option<SampleKind>,
    textDelta: Option<string>,
    telemetryKnown: bool)

  datatype State = State(
    revision: nat,
    lastEvent: Option<(int, int)>,
    lastModelDelta: Option<int>,
    samples: map<string, Sample>,
    order: seq<string>,
    degraded: bool,
    latest: Latest)

  const MAX_ACTIVITY_IDENTITIES: nat := 65_536
  const WINDOW_MS: nat := 60_000

  function Initial(limit: nat): State { State(0, None, None, map[], [], false, Fresh(limit)) }

  // Samples come from the session or its telemetry, text from session samples only.
  predicate WellParsed(e: Parsed) {
    && (e.sample.Some? ==> e.source != Runtime)
    && (e.textDelta.Some? ==> e.source == Session && e.sample.Some?)
  }

  predicate Sampled(e: Parsed) { e.identity.Some? && e.sample.Some? }

  // A session sample replaces a telemetry sample, and nothing else replaces anything.
  predicate Replaces(samples: map<string, Sample>, e: Parsed)
    requires Sampled(e)
  {
    e.identity.value in samples ==> samples[e.identity.value].source == Telemetry && e.source == Session
  }

  predicate Admits(samples: map<string, Sample>, e: Parsed) {
    Sampled(e) ==> Replaces(samples, e)
  }

  function Recorded(samples: map<string, Sample>, order: seq<string>, e: Parsed, now: int)
    : (map<string, Sample>, seq<string>)
  {
    if !Sampled(e) || !Replaces(samples, e) then (samples, order)
    else
      (samples[e.identity.value := Sample(e.source, now, e.sample.value)],
       if e.identity.value in samples then order else order + [e.identity.value])
  }

  // The oldest identities are dropped until the cap is met.
  function Evicted(samples: map<string, Sample>, order: seq<string>): (map<string, Sample>, seq<string>)
    decreases |order|
  {
    if |order| <= MAX_ACTIVITY_IDENTITIES then (samples, order)
    else Evicted(samples - {order[0]}, order[1..])
  }

  predicate IsModelDelta(e: Parsed) {
    e.sample.Some? && (e.sample.value.ReasoningDelta? || e.sample.value.TextDelta?)
  }

  // `observe_at`
  function Observe(s: State, e: Parsed, now: int, wall: int): State {
    var (recorded, appended) := Recorded(s.samples, s.order, e, now);
    var (samples, order) := Evicted(recorded, appended);
    State(
      SaturatingAdd(s.revision, 1),
      Some((now, wall)),
      if Admits(s.samples, e) && IsModelDelta(e) then Some(now) else s.lastModelDelta,
      samples,
      order,
      s.degraded || (e.source == Telemetry && !e.telemetryKnown),
      if Admits(s.samples, e) && e.textDelta.Some? then Append(s.latest, e.textDelta.value, wall) else s.latest)
  }

  class PassiveActivityTracker {
    var revision: nat
    var lastEvent: Option<(int, int)>
    var lastModelDelta: Option<int>
    var samples: map<string, Sample>
    var order: seq<string>
    var degraded: bool
    const text: LatestTextState

    function Snapshot(): State
      reads this, text
    {
      State(revision, lastEvent, lastModelDelta, samples, order, degraded, text.Snapshot())
    }

    constructor (limit: nat)
      ensures Snapshot() == Initial(limit) && fresh(text)
    {
      revision, lastEvent, lastModelDelta := 0, None, None;
      samples, order, degraded := map[], [], false;
      text := new LatestTextState(limit);
    }

    method RecordSample(e: Parsed, now: int) returns (admitted: bool)
      modifies this`samples, this`order
      ensures admitted == Admits(old(samples), e)
      ensures (samples, order) == Recorded(old(samples), old(order), e, now)
    {
      admitted := true;
      if e.identity.Some? && e.sample.Some? {
        var identity := e.identity.value;
        var replace := identity !in samples || (samples[identity].source == Telemetry && e.source == Session);
        if replace {
          if identity !in samples {
            order := order + [identity];
          }
          samples := samples[identity := Sample(e.source, now, e.sample.value)];
        } else {
          admitted := false;
        }
      }
    }

    method Evict()
      modifies this`samples, this`order
      ensures (samples, order) == Evicted(old(samples), old(order))
    {
      while |order| > MAX_ACTIVITY_IDENTITIES
        invariant Evicted(samples, order) == Evicted(old(samples), old(order))
        decreases |order|
      {
        samples := samples - {order[0]};
        order := order[1..];
      }
    }

    method ObserveAt(e: Parsed, now: int, wall: int)
      modifies this, text
      ensures Snapshot() == Observe(old(Snapshot()), e, now, wall)
    {
      revision := SaturatingAdd(revision, 1);
      lastEvent := Some((now, wall));
      if e.source == Telemetry && !e.telemetryKnown {
        degraded := true;
      }
      var admitted := RecordSample(e, now);
      Evict();
      if admitted && e.sample.Some? && (e.sample.value.ReasoningDelta? || e.sample.value.TextDelta?) {
        lastModelDelta := Some(now);
      }
      if admitted && e.textDelta.Some? {
        text.AppendLatestText(e.textDelta.value, wall);
      }
    }
  }

  // ----- The activity window -----

  datatype Window = Window(
    reasoningEvents: nat,
    reasoningBytes: nat,
    textEvents: nat,
    textBytes: nat,
    started: nat,
    completed: nat,
    failed: nat,
    readCalls: nat,
    bashCalls: nat,
    otherCalls: nat)

  const NO_ACTIVITY := Window(0, 0, 0, 0, 0, 0, 0, 0, 0, 0)

  // One more sample, in saturating counters.
  function Tallied(w: Window, kind: SampleKind): Window {
    match kind
    case ReasoningDelta(bytes) =>
      w.(reasoningEvents := SaturatingAdd(w.reasoningEvents, 1), reasoningBytes := SaturatingAdd(w.reasoningBytes, bytes))
    case TextDelta(bytes) =>
      w.(textEvents := SaturatingAdd(w.textEvents, 1), textBytes := SaturatingAdd(w.textBytes, bytes))
    case ToolStarted(tool) =>
      var w1 := w.(started := SaturatingAdd(w.started, 1));
      (match tool
       case ReadTool => w1.(readCalls := SaturatingAdd(w1.readCalls, 1))
       case BashTool => w1.(bashCalls := SaturatingAdd(w1.bashCalls, 1))
       case OtherTool => w1.(otherCalls := SaturatingAdd(w1.otherCalls, 1)))
    case ToolCompleted => w.(completed := SaturatingAdd(w.completed, 1))
    case ToolFailed => w.(failed := SaturatingAdd(w.failed, 1))
  }

  predicate Recent(sample: Sample, now: int) { now - sample.at <= WINDOW_MS }

  function RecentKeys(samples: map<string, Sample>, now: int): set<string> {
    set x | x in samples && Recent(samples[x], now)
  }

  // The window counters of `snapshot_at`; the map is visited in no particular order.
  method WindowAt(samples: map<string, Sample>, now: int) returns (w: Window)
    ensures Counts(w, samples, RecentKeys(samples, now))
  {
    w := NO_ACTIVITY;
    var left := samples.Keys;
    ghost var counted: set<string> := {};
    while left != {}
      invariant left <= samples.Keys
      invariant counted == set x | x in samples.Keys - left && Recent(samples[x], now)
      invariant Counts(w, samples, counted)
      decreases |left|
    {
      var x :| x in left;
      left := left - {x};
      if now - samples[x].at <= WINDOW_MS {
        TalliedCounts(w, samples, counted, x);
        w := Tallied(w, samples[x].kind);
        counted := counted + {x};
      }
    }
    assert counted == RecentKeys(samples, now);
  }

  // The sum over a set of samples of what each adds to a counter, without saturation.
  ghost function Total(samples: map<string, Sample>, keys: set<string>, counter: SampleKind -> nat): nat
    requires keys <= samples.Keys
  {
    if keys == {} then 0
    else
      var x :| x in keys;
      counter(samples[x].kind) + Total(samples, keys - {x}, counter)
  }

  lemma TotalSplits(samples: map<string, Sample>, keys: set<string>, counter: SampleKind -> nat, y: string)
    requires keys <= samples.Keys && y in keys
    ensures Total(samples, keys, counter) == counter(samples[y].kind) + Total(samples, keys - {y}, counter)
    decreases |keys|
  {
    var x :| x in keys && Total(samples, keys, counter) == counter(samples[x].kind) + Total(samples, keys - {x}, counter);
    if x != y {
      TotalSplits(samples, keys - {x}, counter, y);
      TotalSplits(samples, keys - {y}, counter, x);
      assert keys - {x} - {y} == keys - {y} - {x};
    }
  }

  function Capped(n: nat): nat { if n <= U64_MAX then n else U64_MAX }

  function IsReasoning(kind: SampleKind): nat { if kind.ReasoningDelta? then 1 else 0 }
  function ReasoningBytes(kind: SampleKind): nat { if kind.ReasoningDelta? then kind.bytes else 0 }
  function IsText(kind: SampleKind): nat { if kind.TextDelta? then 1 else 0 }
  function TextBytes(kind: SampleKind): nat { if kind.TextDelta? then kind.bytes else 0 }
  function IsStarted(kind: SampleKind): nat { if kind.ToolStarted? then 1 else 0 }
  function IsCompleted(kind: SampleKind): nat { if kind.ToolCompleted? then 1 else 0 }
  function IsFailed(kind: SampleKind): nat { if kind.ToolFailed? then 1 else 0 }
  function IsRead(kind: SampleKind): nat { if kind.ToolStarted? && kind.kind.ReadTool? then 1 else 0 }
  function IsBash(kind: SampleKind): nat { if kind.ToolStarted? && kind.kind.BashTool? then 1 else 0 }
  function IsOther(kind: SampleKind): nat { if kind.ToolStarted? && kind.kind.OtherTool? then 1 else 0 }

  // Each counter is the recount of the samples, as far as 64 bits go.
  ghost predicate Counts(w: Window, samples: map<string, Sample>, keys: set<string>)
    requires keys <= samples.Keys
  {
    && w.reasoningEvents == Capped(Total(samples, keys, IsReasoning))
    && w.reasoningBytes == Capped(Total(samples, keys, ReasoningBytes))
    && w.textEvents == Capped(Total(samples, keys, IsText))
    && w.textBytes == Capped(Total(samples, keys, TextBytes))
    && w.started == Capped(Total(samples, keys, IsStarted))
    && w.completed == Capped(Total(samples, keys, IsCompleted))
    && w.failed == Capped(Total(samples, keys, IsFailed))
    && w.readCalls == Capped(Total(samples, keys, IsRead))
    && w.bashCalls == Capped(Total(samples, keys, IsBash))
    && w.otherCalls == Capped(Total(samples, keys, IsOther))
  }

  lemma TotalGrows(samples: map<string, Sample>, keys: set<string>, counter: SampleKind -> nat, y: string)
    requires keys <= samples.Keys && y in samples && y !in keys
    ensures Capped(Total(samples, keys + {y}, counter)) ==
            SaturatingAdd(Capped(Total(samples, keys, counter)), counter(samples[y].kind))
  {
    TotalSplits(samples, keys + {y}, counter, y);
    assert keys + {y} - {y} == keys;
  }

  // Tallying adds to every counter what the sample is worth there.
  lemma TalliedEverywhere(w: Window, kind: SampleKind)
    requires w.reasoningEvents <= U64_MAX && w.reasoningBytes <= U64_MAX && w.textEvents <= U64_MAX
    requires w.textBytes <= U64_MAX && w.started <= U64_MAX && w.completed <= U64_MAX && w.failed <= U64_MAX
    requires w.readCalls <= U64_MAX && w.bashCalls <= U64_MAX && w.otherCalls <= U64_MAX
    ensures
      Tallied(w, kind) ==
      Window(
        SaturatingAdd(w.reasoningEvents, IsReasoning(kind)), SaturatingAdd(w.reasoningBytes, ReasoningBytes(kind)),
        SaturatingAdd(w.textEvents, IsText(kind)), SaturatingAdd(w.textBytes, TextBytes(kind)),
        SaturatingAdd(w.started, IsStarted(kind)), SaturatingAdd(w.completed, IsCompleted(kind)),
        SaturatingAdd(w.failed, IsFailed(kind)), SaturatingAdd(w.readCalls, IsRead(kind)),
        SaturatingAdd(w.bashCalls, IsBash(kind)), SaturatingAdd(w.otherCalls, IsOther(kind)))
  {
  }

  lemma TalliedCounts(w: Window, samples: map<string, Sample>, keys: set<string>, y: string)
    requires keys <= samples.Keys && y in samples && y !in keys && Counts(w, samples, keys)
    ensures Counts(Tallied(w, samples[y].kind), samples, keys + {y})
  {
    TalliedEverywhere(w, samples[y].kind);
    TotalGrows(samples, keys, IsReasoning, y);
    TotalGrows(samples, keys, ReasoningBytes, y);
    TotalGrows(samples, keys, IsText, y);
    TotalGrows(samples, keys, TextBytes, y);
    TotalGrows(samples, keys, IsStarted, y);
    TotalGrows(samples, keys, IsCompleted, y);
    TotalGrows(samples, keys, IsFailed, y);
    TotalGrows(samples, keys, IsRead, y);
    TotalGrows(samples, keys, IsBash, y);
    TotalGrows(samples, keys, IsOther, y);
  }

  lemma {:induction false} StartedByKind(samples: map<string, Sample>, keys: set<string>)
    requires keys <= samples.Keys
    ensures Total(samples, keys, IsStarted) ==
            Total(samples, keys, IsRead) + Total(samples, keys, IsBash) + Total(samples, keys, IsOther)
    ensures Total(samples, keys, IsStarted) <= |keys|
    decreases |keys|
  {
    if keys != {} {
      var x :| x in keys;
      TotalSplits(samples, keys, IsStarted, x);
      TotalSplits(samples, keys, IsRead, x);
      TotalSplits(samples, keys, IsBash, x);
      TotalSplits(samples, keys, IsOther, x);
      StartedByKind(samples, keys - {x});
      var kind := samples[x].kind;
      assert IsStarted(kind) == IsRead(kind) + IsBash(kind) + IsOther(kind) <= 1;
      assert |keys - {x}| == |keys| - 1;
    }
  }

  lemma KeysCard(samples: map<string, Sample>, keys: set<string>)
    requires keys <= samples.Keys
    ensures |keys| <= |samples.Keys|
  {
    assert samples.Keys == keys + (samples.Keys - keys);
  }

  /** As the samples stay within their cap, the tool calls started are exactly the read, bash and
      other calls together. */
  lemma StartedAddsUp(w: Window, limit: nat, log: seq<Logged>, now: int)
    requires var samples := ObserveAll(Initial(limit), log).samples; Counts(w, samples, RecentKeys(samples, now))
    ensures w.started == w.readCalls + w.bashCalls + w.otherCalls
  {
    var s := ObserveAll(Initial(limit), log);
    OrderListsSamples(limit, log);
    DistinctCard(s.order, s.samples.Keys);
    KeysCard(s.samples, RecentKeys(s.samples, now));
    StartedByKind(s.samples, RecentKeys(s.samples, now));
  }

  // ----- The log -----

  datatype Logged = Logged(event: Parsed, at: int, wall: int)

  function ObserveAll(s: State, log: seq<Logged>): State {
    if log == [] then s
    else
      var last := log[|log| - 1];
      Observe(ObserveAll(s, log[..|log| - 1]), last.event, last.at, last.wall)
  }

  predicate AllWellParsed(log: seq<Logged>) {
    forall i :: 0 <= i < |log| ==> WellParsed(log[i].event)
  }

  predicate Matches(e: Parsed, identity: string, source: Source) {
    e.identity == Some(identity) && e.sample.Some? && e.source == source
  }

  // The first sample of an identity from one source.
  function FirstFrom(log: seq<Logged>, identity: string, source: Source): Option<Sample> {
    if log == [] then None
    else
      var last := log[|log| - 1];
      var earlier := FirstFrom(log[..|log| - 1], identity, source);
      if earlier.Some? || !Matches(last.event, identity, source) then earlier
      else Some(Sample(source, last.at, last.event.sample.value))
  }

  // The sample an identity should have: its first from the session, or else from telemetry.
  function Reference(log: seq<Logged>, identity: string): Option<Sample> {
    if FirstFrom(log, identity, Session).Some? then FirstFrom(log, identity, Session)
    else FirstFrom(log, identity, Telemetry)
  }

  function Identities(log: seq<Logged>): set<string> {
    if log == [] then {}
    else
      var e := log[|log| - 1].event;
      Identities(log[..|log| - 1]) + (if Sampled(e) then {e.identity.value} else {})
  }

  // The text an ideal observer would append: of events without an identity, and of the first
  // session sample of each identity.
  function FirstTexts(log: seq<Logged>): seq<Delta> {
    if log == [] then []
    else
      var before, last := log[..|log| - 1], log[|log| - 1];
      FirstTexts(before) +
      (if TextCounts(before, last.event) then [Delta(last.event.textDelta.value, last.wall)] else [])
  }

  predicate TextCounts(before: seq<Logged>, e: Parsed) {
    e.textDelta.Some? && (e.identity.None? || FirstFrom(before, e.identity.value, Session).None?)
  }

  // ----- The order of samples -----

  // `sample_order` lists each key of `samples` exactly once.
  ghost predicate Listed(samples: map<string, Sample>, order: seq<string>) {
    Distinct(order) && forall x :: x in order <==> x in samples
  }

  lemma RecordedListed(samples: map<string, Sample>, order: seq<string>, e: Parsed, now: int)
    requires Listed(samples, order)
    ensures Listed(Recorded(samples, order, e, now).0, Recorded(samples, order, e, now).1)
  {
  }

  lemma {:induction false} EvictedListed(samples: map<string, Sample>, order: seq<string>)
    requires Listed(samples, order)
    ensures Listed(Evicted(samples, order).0, Evicted(samples, order).1)
    ensures |Evicted(samples, order).1| <= MAX_ACTIVITY_IDENTITIES
    decreases |order|
  {
    if |order| > MAX_ACTIVITY_IDENTITIES {
      forall x ensures x in order[1..] <==> x in samples - {order[0]} {
        assert x in order <==> x == order[0] || x in order[1..];
      }
      EvictedListed(samples - {order[0]}, order[1..]);
    }
  }

  /** After any events, the order lists each sample exactly once and is within the cap. */
  lemma {:induction false} OrderListsSamples(limit: nat, log: seq<Logged>)
    ensures var s := ObserveAll(Initial(limit), log);
            Listed(s.samples, s.order) && |s.order| <= MAX_ACTIVITY_IDENTITIES
  {
    if log != [] {
      var last := log[|log| - 1];
      OrderListsSamples(limit, log[..|log| - 1]);
      var s := ObserveAll(Initial(limit), log[..|log| - 1]);
      var (samples, order) := Recorded(s.samples, s.order, last.event, last.at);
      RecordedListed(s.samples, s.order, last.event, last.at);
      EvictedListed(samples, order);
    }
  }

  // ----- Deduplication refines the log -----

  // No identity was ever dropped: every sample is the reference sample of its identity.
  predicate Refines(samples: map<string, Sample>, log: seq<Logged>) {
    && samples.Keys == Identities(log)
    && forall x :: x in samples ==> Reference(log, x) == Some(samples[x])
  }

  lemma {:induction false} UnseenHasNoSample(log: seq<Logged>, identity: string, source: Source)
    requires identity !in Identities(log)
    ensures FirstFrom(log, identity, source) == None
  {
    if log != [] {
      UnseenHasNoSample(log[..|log| - 1], identity, source);
    }
  }

  lemma {:induction false} FirstFromSource(log: seq<Logged>, identity: string, source: Source)
    ensures FirstFrom(log, identity, source).Some? ==> FirstFrom(log, identity, source).value.source == source
  {
    if log != [] {
      FirstFromSource(log[..|log| - 1], identity, source);
    }
  }

  lemma RecordedRefines(samples: map<string, Sample>, order: seq<string>, before: seq<Logged>, last: Logged)
    requires Refines(samples, before) && WellParsed(last.event)
    ensures Refines(Recorded(samples, order, last.event, last.at).0, before + [last])
    ensures last.event.identity.Some? && last.event.source == Session && last.event.sample.Some? ==>
              (Admits(samples, last.event) <==> FirstFrom(before, last.event.identity.value, Session).None?)
  {
    var log := before + [last];
    assert log[..|log| - 1] == before;
    var samples' := Recorded(samples, order, last.event, last.at).0;
    forall x ensures Reference(log, x) == (if x in samples' then Some(samples'[x]) else None) {
      FirstFromSource(before, x, Session);
      FirstFromSource(before, x, Telemetry);
      if x !in samples {
        UnseenHasNoSample(before, x, Session);
        UnseenHasNoSample(before, x, Telemetry);
      }
    }
    if Sampled(last.event) {
      var x := last.event.identity.value;
      FirstFromSource(before, x, Session);
      FirstFromSource(before, x, Telemetry);
      if x !in samples {
        UnseenHasNoSample(before, x, Session);
      }
    }
  }

  lemma DistinctCard(order: seq<string>, keys: set<string>)
    requires Distinct(order) && forall x :: x in order <==> x in keys
    ensures |order| == |keys|
  {
    if order == [] {
      assert keys == {};
    } else {
      forall x ensures x in order[1..] <==> x in keys - {order[0]} {
        assert x in order <==> x == order[0] || x in order[1..];
      }
      DistinctCard(order[1..], keys - {order[0]});
    }
  }

  lemma FewerIdentities(before: seq<Logged>, last: Logged)
    ensures |Identities(before)| <= |Identities(before + [last])|
  {
    var log := before + [last];
    assert log[..|log| - 1] == before;
    if Sampled(last.event) && last.event.identity.value !in Identities(before) {
      assert |Identities(log)| == |Identities(before)| + 1;
    } else {
      assert Identities(log) == Identities(before);
    }
  }

  // What the tracker holds of a log within the cap.
  ghost predicate Follows(s: State, log: seq<Logged>, limit: nat) {
    && Listed(s.samples, s.order) && Refines(s.samples, log)
    && s.latest == AppendAll(Fresh(limit), FirstTexts(log))
  }

  lemma ObserveFollows(s: State, before: seq<Logged>, last: Logged, limit: nat)
    requires Follows(s, before, limit) && WellParsed(last.event)
    requires |Identities(before + [last])| <= MAX_ACTIVITY_IDENTITIES
    ensures Follows(Observe(s, last.event, last.at, last.wall), before + [last], limit)
  {
    var log := before + [last];
    assert log[..|log| - 1] == before;
    var (samples, order) := Recorded(s.samples, s.order, last.event, last.at);
    RecordedListed(s.samples, s.order, last.event, last.at);
    RecordedRefines(s.samples, s.order, before, last);
    DistinctCard(order, samples.Keys);
    assert Evicted(samples, order) == (samples, order);
    var texts := FirstTexts(before);
    if TextCounts(before, last.event) {
      var delta := Delta(last.event.textDelta.value, last.wall);
      assert FirstTexts(log) == texts + [delta] && (texts + [delta])[..|texts|] == texts;
    } else {
      assert FirstTexts(log) == texts;
    }
  }

  /** While at most 65,536 identities have been seen, the stored sample of every identity is its
      first session sample, or else its first telemetry sample, and the text is that of the events
      an ideal observer would count. */
  lemma {:induction false} DedupeRefinesLog(limit: nat, log: seq<Logged>)
    requires AllWellParsed(log) && |Identities(log)| <= MAX_ACTIVITY_IDENTITIES
    ensures Follows(ObserveAll(Initial(limit), log), log, limit)
  {
    if log != [] {
      var before, last := log[..|log| - 1], log[|log| - 1];
      assert log == before + [last];
      FewerIdentities(before, last);
      assert AllWellParsed(before);
      DedupeRefinesLog(limit, before);
      ObserveFollows(ObserveAll(Initial(limit), before), before, last, limit);
    }
  }

  lemma {:induction false} SeenFrom(log: seq<Logged>, i: nat, identity: string, source: Source)
    requires i < |log| && Matches(log[i].event, identity, source)
    ensures FirstFrom(log, identity, source).Some?
  {
    if i < |log| - 1 {
      SeenFrom(log[..|log| - 1], i, identity, source);
    }
  }

  /** The text of an identified session event counts at most once: of two events with the same
      identity the later one's text is not appended. */
  lemma TextCountsOnce(log: seq<Logged>, i: nat, j: nat)
    requires i < j < |log| && AllWellParsed(log)
    requires log[i].event.identity.Some? && log[j].event.identity == log[i].event.identity
    requires log[i].event.textDelta.Some?
    ensures !TextCounts(log[..j], log[j].event)
  {
    assert WellParsed(log[i].event);
    SeenFrom(log[..j], i, log[i].event.identity.value, Session);
  }

  lemma {:induction false} PrefixIdentities(log: seq<Logged>, n: nat)
    requires n <= |log|
    ensures |Identities(log[..n])| <= |Identities(log)|
    decreases |log| - n
  {
    if n < |log| {
      PrefixIdentities(log, n + 1);
      assert log[..n + 1] == log[..n] + [log[n]];
      FewerIdentities(log[..n], log[n]);
    } else {
      assert log[..n] == log;
    }
  }

  lemma NoTextAdded(log: seq<Logged>, j: nat)
    requires j < |log| && !TextCounts(log[..j], log[j].event)
    ensures FirstTexts(log[..j + 1]) == FirstTexts(log[..j])
  {
    assert log[..j + 1][..j] == log[..j];
  }

  lemma TextAt(limit: nat, log: seq<Logged>, n: nat)
    requires n <= |log| && AllWellParsed(log) && |Identities(log)| <= MAX_ACTIVITY_IDENTITIES
    ensures ObserveAll(Initial(limit), log[..n]).latest == AppendAll(Fresh(limit), FirstTexts(log[..n]))
  {
    PrefixIdentities(log, n);
    DedupeRefinesLog(limit, log[..n]);
  }

  /** So the tracker leaves its text alone at the later of two events with the same identity, as
      long as at most 65,536 identities have been seen. */
  lemma TrackerTakesTextOnce(limit: nat, log: seq<Logged>, i: nat, j: nat)
    requires i < j < |log| && AllWellParsed(log) && |Identities(log)| <= MAX_ACTIVITY_IDENTITIES
    requires log[i].event.identity.Some? && log[j].event.identity == log[i].event.identity
    requires log[i].event.textDelta.Some?
    ensures ObserveAll(Initial(limit), log[..j + 1]).latest == ObserveAll(Initial(limit), log[..j]).latest
  {
    TextAt(limit, log, j);
    TextAt(limit, log, j + 1);
    TextCountsOnce(log, i, j);
    NoTextAdded(log, j);
  }
}
