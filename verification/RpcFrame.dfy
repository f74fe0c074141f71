// The size of a task-result response on the private RPC socket (crates/zcode-agentd/src/rpc.rs).
module RpcFrame {
  import opened Prelude
  import opened TaskTypes
  import opened Json
  import opened ResultJson

  const RPC_VERSION: nat := 12
  const MAX_FRAME_BYTES: nat := 131_072
  const MAX_REQUEST_ID_BYTES: nat := 128

  datatype TaskView = TaskView(
    agentId: string,
    phase: string,
    outcome: Option<Outcome>,
    budget: Budget,
    stopRequested: bool,
    closeRequested: bool,
    closed: bool,
    reaped: bool)

  datatype ArtifactView = ArtifactView(artifactId: string, kind: string, sha256: string, sizeBytes: nat)

  function PhaseName(p: Phase): string {
    match p
    case Queued => "QUEUED"
    case Preparing => "PREPARING"
    case Running => "RUNNING"
    case WaitingInput => "WAITING_INPUT"
    case Cancelling => "CANCELLING"
    case Terminal => "TERMINAL"
  }

  function ViewOf(t: Task): TaskView {
    TaskView(t.spec.agentId.text, PhaseName(t.phase), t.outcome, t.budget, t.stopRequested, t.closeRequested,
             t.closedAt.Some?, t.reapedAt.Some?)
  }

  predicate ValidRequestId(id: string) {
    id != "" && |Utf8(id)| <= MAX_REQUEST_ID_BYTES && '\0' !in id
  }

  // ----- The document -----

  function BudgetJson(b: Budget): Json {
    JObj([Field("absolute_wall_time_ms", JNum(b.absoluteWallTimeMs)),
          Field("runtime_activity_idle_timeout_ms", JNum(b.runtimeActivityIdleTimeoutMs)),
          Field("model_stream_idle_timeout_ms", JNum(b.modelStreamIdleTimeoutMs)),
          Field("tool_call_timeout_ms", JNum(b.toolCallTimeoutMs)),
          Field("input_wait_timeout_ms", JNum(b.inputWaitTimeoutMs)),
          Field("max_turns", JNum(b.maxTurns)),
          Field("max_tool_calls", JNum(b.maxToolCalls)),
          Field("max_context_bytes", JNum(b.maxContextBytes)),
          Field("max_result_bytes", JNum(b.maxResultBytes)),
          Field("max_artifact_bytes", JNum(b.maxArtifactBytes))])
  }

  function OutcomeJson(outcome: Option<Outcome>): Json {
    match outcome
    case None => JNull
    case Some(o) => JStr(OutcomeName(o))
  }

  function TaskFields(v: TaskView): seq<Field> {
    [Field("agent_id", JStr(v.agentId)),
     Field("phase", JStr(v.phase)),
     Field("outcome", OutcomeJson(v.outcome)),
     Field("effective_budget", BudgetJson(v.budget)),
     Field("stop_requested", JBool(v.stopRequested)),
     Field("close_requested", JBool(v.closeRequested)),
     Field("closed", JBool(v.closed)),
     Field("reaped", JBool(v.reaped))]
  }

  function ResultFields(r: TaskResult, retained: bool, sha256: string): seq<Field> {
    OutcomeFields(r) + [Field("retained", JBool(retained))] + EvidenceFields(r) + [Field("result_sha256", JStr(sha256))]
  }

  function ArtifactViewJson(v: ArtifactView): Json {
    JObj([Field("artifact_id", JStr(v.artifactId)), Field("kind", JStr(v.kind)),
          Field("sha256", JStr(v.sha256)), Field("size_bytes", JNum(v.sizeBytes))])
  }

  function ArtifactViewsJson(views: seq<ArtifactView>): Json {
    JArr(seq(|views|, i requires 0 <= i < |views| => ArtifactViewJson(views[i])))
  }

  function SuccessFields(task: TaskView, result: seq<Field>, artifacts: seq<ArtifactView>): seq<Field> {
    [Field("kind", JStr("task_result")),
     Field("task", JObj(TaskFields(task))),
     Field("result", JObj(result)),
     Field("artifacts", ArtifactViewsJson(artifacts))]
  }

  function ResponseFields(id: string, success: seq<Field>): seq<Field> {
    [Field("version", JNum(RPC_VERSION)),
     Field("request_id", JStr(id)),
     Field("outcome", JStr("success")),
     Field("result", JObj(success))]
  }

  function Response(
    id: string, task: TaskView, r: TaskResult, retained: bool, sha256: string, artifacts: seq<ArtifactView>): Json
  {
    JObj(ResponseFields(id, SuccessFields(task, ResultFields(r, retained, sha256), artifacts)))
  }

  function Repeat(c: char, n: nat): string {
    if n == 0 then "" else [c] + Repeat(c, n - 1)
  }

  // `"\u{1}".repeat(MAX_REQUEST_ID_BYTES)`: every byte of it escapes to six.
  function WorstId(): string { Repeat(1 as char, MAX_REQUEST_ID_BYTES) }

  // `terminal_result_response_size`
  function TerminalSize(t: Task, r: TaskResult, artifacts: seq<ArtifactView>, id: string): nat {
    var view := ViewOf(t).(phase := "TERMINAL", outcome := Some(r.outcome));
    Size(Response(id, view, r, false, Repeat('0', 64), artifacts))
  }

  // `terminal_result_response_fits`: sized with the longest request id after escaping.
  predicate TerminalFits(t: Task, r: TaskResult, artifacts: seq<ArtifactView>) {
    TerminalSize(t, r, artifacts, WorstId()) <= MAX_FRAME_BYTES
  }

  function PatchView(patch: NewArtifact): ArtifactView {
    ArtifactView(patch.artifactId.text, "changes_patch", patch.sha256, patch.bytes)
  }

  function PatchViews(patch: Option<NewArtifact>): seq<ArtifactView> {
    if patch.None? then [] else [PatchView(patch.value)]
  }

  // `general_result_response_fits`: the row is sized as if it had not been reaped.
  predicate ResultResponseFits(t: Task, r: TaskResult, patch: Option<NewArtifact>) {
    TerminalFits(t.(reapedAt := None), r, PatchViews(patch))
  }

  // ----- Sizes -----

  lemma {:induction false} WorstIdSize(n: nat)
    ensures |EscapeBytes(Utf8(Repeat(1 as char, n)))| == 6 * n
  {
    if n > 0 {
      var s := Repeat(1 as char, n);
      WorstIdSize(n - 1);
      assert s[0] == 1 as char && s[1..] == Repeat(1 as char, n - 1);
      assert Utf8(s) == [1] + Utf8(s[1..]);
      assert Utf8(s)[1..] == Utf8(s[1..]);
    }
  }

  lemma {:induction false} WorstIdValid(n: nat)
    ensures |Utf8(Repeat(1 as char, n))| == n && '\0' !in Repeat(1 as char, n)
  {
    if n > 0 {
      WorstIdValid(n - 1);
      assert Repeat(1 as char, n)[1..] == Repeat(1 as char, n - 1);
    }
  }

  lemma {:induction false} RepeatPlain(n: nat)
    ensures PlainText(Repeat('0', n)) && |Repeat('0', n)| == n
    ensures forall i :: 0 <= i < n ==> Repeat('0', n)[i] == '0'
  {
    if n > 0 {
      RepeatPlain(n - 1);
    }
  }

  predicate HexText(s: string) {
    |s| == 64 && forall i :: 0 <= i < |s| ==> '0' <= s[i] <= '9' || 'a' <= s[i] <= 'f'
  }

  // The two views differ only in booleans that are true in `v` wherever they are in `w`.
  predicate Ahead(v: TaskView, w: TaskView) {
    && v == w.(stopRequested := v.stopRequested, closeRequested := v.closeRequested, closed := v.closed, reaped := v.reaped)
    && (w.stopRequested ==> v.stopRequested) && (w.closeRequested ==> v.closeRequested)
    && (w.closed ==> v.closed) && (w.reaped ==> v.reaped)
  }

  // ----- A view that is not the sized one -----

  // The view of the preflight.
  function SizedView(t: Task, r: TaskResult): TaskView {
    ViewOf(t).(phase := "TERMINAL", outcome := Some(r.outcome))
  }

  // Views of the same task.
  predicate SameTask(v: TaskView, w: TaskView) {
    v.agentId == w.agentId && v.budget == w.budget && PlainText(v.phase) && PlainText(w.phase)
  }

  function OutcomeSize(outcome: Option<Outcome>): nat {
    match outcome
    case None => 4
    case Some(o) => |OutcomeName(o)| + 2
  }

  function BoolSize(b: bool): nat { if b then 4 else 5 }

  // How much longer one view is than another of the same task.
  function Excess(v: TaskView, w: TaskView): int {
    |v.phase| - |w.phase| + OutcomeSize(v.outcome) - OutcomeSize(w.outcome)
    + BoolSize(v.stopRequested) - BoolSize(w.stopRequested) + BoolSize(v.closeRequested) - BoolSize(w.closeRequested)
    + BoolSize(v.closed) - BoolSize(w.closed) + BoolSize(v.reaped) - BoolSize(w.reaped)
  }

  // How much longer one list of artifacts is than another.
  function ShownExcess(shown: seq<ArtifactView>, sized: seq<ArtifactView>): int {
    Size(ArtifactViewsJson(shown)) - Size(ArtifactViewsJson(sized))
  }

  // The artifacts shown are those sized, or none.
  predicate Projects(shown: seq<ArtifactView>, sized: seq<ArtifactView>) {
    |sized| <= 1 && (shown == sized || shown == [])
  }

  lemma ProjectsNoLonger(shown: seq<ArtifactView>, sized: seq<ArtifactView>)
    requires Projects(shown, sized)
    ensures ShownExcess(shown, sized) <= 0
  {
    if shown != sized {
      NoArtifactsNoLonger(sized[0]);
      assert sized == [sized[0]];
    }
  }

  lemma NoArtifactsNoLonger(v: ArtifactView)
    ensures Size(ArtifactViewsJson([])) <= Size(ArtifactViewsJson([v]))
  {
  }

  lemma OutcomeJsonSize(outcome: Option<Outcome>)
    ensures Size(OutcomeJson(outcome)) == OutcomeSize(outcome)
  {
    if outcome.Some? {
      OutcomePlain(outcome.value);
      TextSize(OutcomeName(outcome.value));
    }
  }

  lemma OutcomePlain(o: Outcome)
    ensures PlainText(OutcomeName(o))
  {
  }

  lemma PhasePlain(p: Phase)
    ensures PlainText(PhaseName(p))
  {
  }

  lemma ViewsSize(v: TaskView, w: TaskView)
    requires SameTask(v, w)
    ensures Size(JObj(TaskFields(v))) == Size(JObj(TaskFields(w))) + Excess(v, w)
  {
    var w1 := w.(phase := v.phase);
    var w2 := w1.(outcome := v.outcome);
    PhaseSize(w, v.phase);
    OutcomeViewSize(w1, v.outcome);
    BooleansSize(w2, v);
  }

  lemma BooleansSize(w: TaskView, v: TaskView)
    requires v.agentId == w.agentId && v.budget == w.budget && v.phase == w.phase && v.outcome == w.outcome
    ensures Size(JObj(TaskFields(v))) == Size(JObj(TaskFields(w))) + Excess(v, w)
  {
    var w1 := w.(stopRequested := v.stopRequested);
    var w2 := w1.(closeRequested := v.closeRequested);
    var w3 := w2.(closed := v.closed);
    StopSize(w, v.stopRequested);
    CloseSize(w1, v.closeRequested);
    ClosedSize(w2, v.closed);
    ReapedSize(w3, v.reaped);
    assert w3.(reaped := v.reaped) == v;
  }

  lemma PhaseSize(w: TaskView, phase: string)
    requires PlainText(w.phase) && PlainText(phase)
    ensures Size(JObj(TaskFields(w.(phase := phase)))) == Size(JObj(TaskFields(w))) + |phase| - |w.phase|
  {
    TextSize(phase);
    TextSize(w.phase);
    PutSize(TaskFields(w), 1, Field("phase", JStr(phase)));
    assert TaskFields(w.(phase := phase)) == TaskFields(w)[1 := Field("phase", JStr(phase))];
  }

  lemma OutcomeViewSize(w: TaskView, outcome: Option<Outcome>)
    ensures Size(JObj(TaskFields(w.(outcome := outcome)))) ==
            Size(JObj(TaskFields(w))) + OutcomeSize(outcome) - OutcomeSize(w.outcome)
  {
    OutcomeJsonSize(outcome);
    OutcomeJsonSize(w.outcome);
    PutSize(TaskFields(w), 2, Field("outcome", OutcomeJson(outcome)));
    assert TaskFields(w.(outcome := outcome)) == TaskFields(w)[2 := Field("outcome", OutcomeJson(outcome))];
  }

  lemma StopSize(w: TaskView, b: bool)
    ensures Size(JObj(TaskFields(w.(stopRequested := b)))) ==
            Size(JObj(TaskFields(w))) + BoolSize(b) - BoolSize(w.stopRequested)
  {
    PutSize(TaskFields(w), 4, Field("stop_requested", JBool(b)));
    assert TaskFields(w.(stopRequested := b)) == TaskFields(w)[4 := Field("stop_requested", JBool(b))];
  }

  lemma CloseSize(w: TaskView, b: bool)
    ensures Size(JObj(TaskFields(w.(closeRequested := b)))) ==
            Size(JObj(TaskFields(w))) + BoolSize(b) - BoolSize(w.closeRequested)
  {
    PutSize(TaskFields(w), 5, Field("close_requested", JBool(b)));
    assert TaskFields(w.(closeRequested := b)) == TaskFields(w)[5 := Field("close_requested", JBool(b))];
  }

  lemma ClosedSize(w: TaskView, b: bool)
    ensures Size(JObj(TaskFields(w.(closed := b)))) == Size(JObj(TaskFields(w))) + BoolSize(b) - BoolSize(w.closed)
  {
    PutSize(TaskFields(w), 6, Field("closed", JBool(b)));
    assert TaskFields(w.(closed := b)) == TaskFields(w)[6 := Field("closed", JBool(b))];
  }

  lemma ReapedSize(w: TaskView, b: bool)
    ensures Size(JObj(TaskFields(w.(reaped := b)))) == Size(JObj(TaskFields(w))) + BoolSize(b) - BoolSize(w.reaped)
  {
    PutSize(TaskFields(w), 7, Field("reaped", JBool(b)));
    assert TaskFields(w.(reaped := b)) == TaskFields(w)[7 := Field("reaped", JBool(b))];
  }

  lemma ResponseSize(
    id: string, v: TaskView, w: TaskView, r: TaskResult, retained: bool, sha256: string, shown: seq<ArtifactView>)
    requires SameTask(v, w)
    ensures Size(Response(id, v, r, retained, sha256, shown)) ==
            Size(Response(id, w, r, retained, sha256, shown)) + Excess(v, w)
  {
    ViewsSize(v, w);
    EnvelopeSize(id, v, w, ResultFields(r, retained, sha256), shown);
  }

  lemma EnvelopeSize(id: string, v: TaskView, w: TaskView, result: seq<Field>, shown: seq<ArtifactView>)
    ensures Size(JObj(ResponseFields(id, SuccessFields(v, result, shown)))) - Size(JObj(TaskFields(v))) ==
            Size(JObj(ResponseFields(id, SuccessFields(w, result, shown)))) - Size(JObj(TaskFields(w)))
  {
    var task := Field("task", JObj(TaskFields(v)));
    var success := SuccessFields(w, result, shown);
    PutSize(success, 1, task);
    assert SuccessFields(v, result, shown) == success[1 := task];
    PutSize(ResponseFields(id, success), 3, Field("result", JObj(success[1 := task])));
    assert ResponseFields(id, success[1 := task]) ==
           ResponseFields(id, success)[3 := Field("result", JObj(success[1 := task]))];
  }

  lemma ShownSize(id: string, v: TaskView, result: seq<Field>, shown: seq<ArtifactView>, sized: seq<ArtifactView>)
    ensures Size(JObj(ResponseFields(id, SuccessFields(v, result, shown)))) ==
            Size(JObj(ResponseFields(id, SuccessFields(v, result, sized)))) + ShownExcess(shown, sized)
  {
    var f := Field("artifacts", ArtifactViewsJson(shown));
    var success := SuccessFields(v, result, sized);
    PutSize(success, 3, f);
    assert SuccessFields(v, result, shown) == success[3 := f];
    PutSize(ResponseFields(id, success), 3, Field("result", JObj(success[3 := f])));
    assert ResponseFields(id, success[3 := f]) == ResponseFields(id, success)[3 := Field("result", JObj(success[3 := f]))];
  }

  lemma ResultEnvelopeSize(
    id: string, v: TaskView, result: seq<Field>, result': seq<Field>, shown: seq<ArtifactView>)
    ensures Size(JObj(ResponseFields(id, SuccessFields(v, result', shown)))) - Size(JObj(result')) ==
            Size(JObj(ResponseFields(id, SuccessFields(v, result, shown)))) - Size(JObj(result))
  {
    var f := Field("result", JObj(result'));
    var success := SuccessFields(v, result, shown);
    PutSize(success, 2, f);
    assert SuccessFields(v, result', shown) == success[2 := f];
    PutSize(ResponseFields(id, success), 3, Field("result", JObj(success[2 := f])));
    assert ResponseFields(id, success[2 := f]) == ResponseFields(id, success)[3 := Field("result", JObj(success[2 := f]))];
  }

  lemma RetainedSize(r: TaskResult, retained: bool, sha256: string)
    ensures Size(JObj(ResultFields(r, retained, sha256))) ==
            Size(JObj(ResultFields(r, false, sha256))) - (if retained then 1 else 0)
  {
    var f := Field("retained", JBool(retained));
    var fields := ResultFields(r, false, sha256);
    PutSize(fields, 3, f);
    assert ResultFields(r, retained, sha256) == fields[3 := f];
  }

  lemma DigestSize(r: TaskResult, retained: bool, sha256: string, sha256': string)
    requires HexText(sha256) && HexText(sha256')
    ensures Size(JObj(ResultFields(r, retained, sha256))) == Size(JObj(ResultFields(r, retained, sha256')))
  {
    var f := Field("result_sha256", JStr(sha256));
    var fields := ResultFields(r, retained, sha256');
    TextSize(sha256);
    TextSize(sha256');
    PutSize(fields, |fields| - 1, f);
    assert ResultFields(r, retained, sha256) == fields[|fields| - 1 := f];
  }

  lemma IdSize(id: string, worst: string, success: seq<Field>)
    ensures Size(JObj(ResponseFields(id, success))) ==
            Size(JObj(ResponseFields(worst, success))) + |Quoted(id)| - |Quoted(worst)|
  {
    var f := Field("request_id", JStr(id));
    PutSize(ResponseFields(worst, success), 1, f);
    assert ResponseFields(id, success) == ResponseFields(worst, success)[1 := f];
  }

  // The longest response for this reading: with the longest request id.
  function LongestResponse(
    t: Task, r: TaskResult, sized: seq<ArtifactView>, view: TaskView, retained: bool, shown: seq<ArtifactView>): int
  {
    TerminalSize(t, r, sized, WorstId()) + Excess(view, SizedView(t, r)) + ShownExcess(shown, sized)
    - (if retained then 1 else 0)
  }

  lemma SizedResponse(
    t: Task, r: TaskResult, sized: seq<ArtifactView>, retained: bool, sha256: string, shown: seq<ArtifactView>)
    requires HexText(sha256)
    ensures Size(Response(WorstId(), SizedView(t, r), r, retained, sha256, shown)) ==
            TerminalSize(t, r, sized, WorstId()) + ShownExcess(shown, sized) - (if retained then 1 else 0)
  {
    var view, zeros := SizedView(t, r), Repeat('0', 64);
    RepeatPlain(64);
    ShownSize(WorstId(), view, ResultFields(r, retained, sha256), shown, sized);
    ResultEnvelopeSize(WorstId(), view, ResultFields(r, false, zeros), ResultFields(r, retained, sha256), sized);
    RetainedSize(r, retained, sha256);
    DigestSize(r, false, sha256, zeros);
  }

  /** The size of a response to the byte, for any view of the task the preflight sized, any digest,
      any artifacts and any request id. */
  lemma ResponseSizeExact(
    t: Task, r: TaskResult, sized: seq<ArtifactView>,
    id: string, view: TaskView, retained: bool, sha256: string, shown: seq<ArtifactView>)
    requires SameTask(view, SizedView(t, r)) && HexText(sha256)
    ensures Size(Response(id, view, r, retained, sha256, shown)) ==
            LongestResponse(t, r, sized, view, retained, shown) + |Quoted(id)| - |Quoted(WorstId())|
  {
    IdSize(id, WorstId(), SuccessFields(view, ResultFields(r, retained, sha256), shown));
    ResponseSize(WorstId(), view, SizedView(t, r), r, retained, sha256, shown);
    SizedResponse(t, r, sized, retained, sha256, shown);
  }

  lemma WorstIdIsWorst(id: string)
    requires ValidRequestId(id)
    ensures |Quoted(id)| <= |Quoted(WorstId())|
  {
    EscapeBound(Utf8(id));
    WorstIdSize(MAX_REQUEST_ID_BYTES);
  }

  // Whatever valid id the request carries and whatever the digest is, the response fits.
  ghost predicate AlwaysFits(view: TaskView, r: TaskResult, retained: bool, shown: seq<ArtifactView>) {
    forall id, sha256 :: ValidRequestId(id) && HexText(sha256) ==>
                           Size(Response(id, view, r, retained, sha256, shown)) <= MAX_FRAME_BYTES
  }

  /** Every response of a reading fits if and only if the longest does, which the preflight size
      determines. With the sized view itself, the preflight refuses no result without need. */
  lemma AlwaysFitsIff(
    t: Task, r: TaskResult, sized: seq<ArtifactView>, view: TaskView, retained: bool, shown: seq<ArtifactView>)
    requires SameTask(view, SizedView(t, r))
    ensures AlwaysFits(view, r, retained, shown) <==>
            LongestResponse(t, r, sized, view, retained, shown) <= MAX_FRAME_BYTES
  {
    var zeros := Repeat('0', 64);
    RepeatPlain(64);
    WorstIdValid(MAX_REQUEST_ID_BYTES);
    ResponseSizeExact(t, r, sized, WorstId(), view, retained, zeros, shown);
    assert ValidRequestId(WorstId()) && HexText(zeros);
    if LongestResponse(t, r, sized, view, retained, shown) <= MAX_FRAME_BYTES {
      forall id, sha256 | ValidRequestId(id) && HexText(sha256)
        ensures Size(Response(id, view, r, retained, sha256, shown)) <= MAX_FRAME_BYTES
      {
        ResponseSizeExact(t, r, sized, id, view, retained, sha256, shown);
        WorstIdIsWorst(id);
      }
    }
  }

  lemma AheadIsNoLonger(v: TaskView, w: TaskView)
    requires Ahead(v, w) && w.phase == PhaseName(Terminal)
    ensures SameTask(v, w) && Excess(v, w) <= 0
  {
    PhasePlain(Terminal);
  }

  /** So if the preflight accepts a result, every response with a later view of the ended task fits:
      for any valid request id, any digest, and any later values of the booleans. */
  lemma AcceptedResultsFit(
    t: Task, r: TaskResult, sized: seq<ArtifactView>, view: TaskView, retained: bool, shown: seq<ArtifactView>)
    requires TerminalFits(t, r, sized) && Projects(shown, sized) && Ahead(view, SizedView(t, r))
    ensures AlwaysFits(view, r, retained, shown)
  {
    AheadIsNoLonger(view, SizedView(t, r));
    ProjectsNoLonger(shown, sized);
    AlwaysFitsIff(t, r, sized, view, retained, shown);
  }

  /** A result can be padded to any size: each further plain character of text adds one byte. */
  lemma PaddedSize(t: Task, r: TaskResult, sized: seq<ArtifactView>, text: string)
    requires PlainText(r.finalText) && PlainText(text)
    ensures TerminalSize(t, r.(finalText := text), sized, WorstId()) ==
            TerminalSize(t, r, sized, WorstId()) + |text| - |r.finalText|
  {
    var zeros := Repeat('0', 64);
    var r' := r.(finalText := text);
    var f := Field("final_text", JStr(text));
    var fields := ResultFields(r, false, zeros);
    PlainSize(text);
    PlainSize(r.finalText);
    PaddedFields(r, text, zeros);
    PutSize(fields, 1, f);
    ResultEnvelopeSize(WorstId(), SizedView(t, r), fields, fields[1 := f], sized);
  }

  lemma PaddedFields(r: TaskResult, text: string, sha256: string)
    ensures ResultFields(r.(finalText := text), false, sha256) ==
            ResultFields(r, false, sha256)[1 := Field("final_text", JStr(text))]
    ensures |ResultFields(r, false, sha256)| > 1
    ensures ResultFields(r, false, sha256)[1] == Field("final_text", JStr(r.finalText))
  {
    assert EvidenceFields(r.(finalText := text)) == EvidenceFields(r);
    assert OutcomeFields(r.(finalText := text)) == OutcomeFields(r)[1 := Field("final_text", JStr(text))];
  }

  lemma DocumentWithin(r: TaskResult, retained: bool, sha256: string)
    ensures Size(ResultDocument(r)) <= Size(JObj(ResultFields(r, retained, sha256)))
  {
    var head, tail := OutcomeFields(r), EvidenceFields(r);
    var f, g := [Field("retained", JBool(retained))], [Field("result_sha256", JStr(sha256))];
    ObjExtent(head + tail);
    ObjExtent(head + f + tail + g);
    ExtentConcat(head, tail);
    ExtentConcat(head + f + tail, g);
    ExtentConcat(head + f, tail);
    ExtentConcat(head, f);
  }

  /** A result is never longer than the response the preflight sizes, so one that passes it fits a
      result budget of the frame size. */
  lemma CanonicalWithin(t: Task, r: TaskResult, artifacts: seq<ArtifactView>, id: string)
    ensures |CanonicalBytes(r)| <= TerminalSize(t, r, artifacts, id)
  {
    var result := ResultFields(r, false, Repeat('0', 64));
    var success := SuccessFields(SizedView(t, r), result, artifacts);
    DocumentWithin(r, false, Repeat('0', 64));
    ValueNoLonger(success, 2);
    ValueNoLonger(ResponseFields(id, success), 3);
  }

  lemma LongTextRefused(t: Task, r: TaskResult, sized: seq<ArtifactView>)
    requires PlainText(r.finalText) && |r.finalText| > MAX_FRAME_BYTES
    ensures !TerminalFits(t, r, sized)
  {
    PaddedSize(t, r.(finalText := ""), sized, r.finalText);
    assert r.(finalText := "").(finalText := r.finalText) == r;
  }
}
