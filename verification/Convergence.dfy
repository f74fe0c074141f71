// What the persistence of a completion (crates/zcode-agentd/src/lib.rs) comes to in the end: the
// task is TERMINAL with a stored result, and when the reply says so.
module Convergence {
  import opened Prelude
  import opened TaskTypes
  import opened Json
  import opened StoreSpec
  import ResultJson
  import opened StoreRuns
  import opened StoreInvariant
  import opened StoreHistory
  import opened StoreResults
  import opened RpcFrame
  import opened Fallbacks
  import opened Persistence

  // ----- Convergence -----

  // After the trace the task is TERMINAL with a stored result of the same outcome. One submission
  // in the trace stored it: with CANCELLED if a stop or close flag was set at that moment, and
  // otherwise a result in `rs`.
  ghost predicate Converged(s: State, trace: seq<Timed>, a: Id, rs: set<TaskResult>) {
    var s' := Run(s, trace);
    && Inv(s') && a in s'.results && a in s'.tasks
    && s'.tasks[a].phase == Terminal && s'.tasks[a].outcome == Some(s'.results[a].result.outcome)
    && exists k: nat :: CommittedAs(s, trace, k, a, s'.results[a].result, rs)
  }

  predicate CommittedAs(s: State, trace: seq<Timed>, k: nat, a: Id, r: TaskResult, rs: set<TaskResult>) {
    CommittedAt(s, trace, k, a, r) && (FlaggedIn(Run(s, trace[..k]), a) || r in rs)
  }

  lemma StoredConverges(s: State, trace: seq<Timed>, a: Id, rs: set<TaskResult>, cancelled: TaskResult)
    requires Along(s, trace, a, rs, cancelled) && Stored(s, trace, a) && a !in s.results
    ensures Converged(s, trace, a, rs)
  {
    var r := Run(s, trace).results[a].result;
    RunUnderway(s, trace, a, rs, cancelled);
    ResultOfTerminal(Run(s, trace), a);
    CommitPoint(s, trace, a);
    var k: nat :| CommittedAt(s, trace, k, a, r);
    assert Warranted(s, trace, k, a, rs, cancelled);
    assert CommittedAs(s, trace, k, a, r, rs);
  }

  lemma StartsAlong(s: State, a: Id, rs: set<TaskResult>, cancelled: TaskResult)
    requires Inv(s) && a in s.tasks && s.tasks[a].Owned()
    ensures Along(s, [], a, rs, cancelled) && a !in s.results
  {
    if a in s.results {
      ResultOfTerminal(s, a);
    }
  }

  // What a caller of the attempt is told.
  predicate Answered(s: State, done: Persisted, a: Id, reap: bool) {
    if done.reply.Ok? then done.reply == Ok(Terminal) && ReapedIf(Run(s, done.trace), a, reap)
    else done.reply == Err(Conflict(None))
  }

  lemma ConcludedConverges(
    s: State, done: Persisted, a: Id, reap: bool, rs: set<TaskResult>, cancelled: TaskResult)
    requires Concludes(s, done, a, reap, rs, cancelled) && a !in s.results
    ensures Converged(s, done.trace, a, rs) && Answered(s, done, a, reap)
  {
    StoredConverges(s, done.trace, a, rs, cancelled);
  }

  /** From any owned task, whatever runs between the store calls short of resuming the task or
      ending it without a result - stops, closes, messages, requests, and other finishers of the
      same task - persisting a completion leaves it TERMINAL with a stored result: CANCELLED if a
      flag was set when it was stored, and otherwise the requested one, RESULT_INVALID or one that
      another finisher submitted. The reply is TERMINAL, and a conflict exactly if the attempt found
      nothing stored and then another result was stored before its fallback. */
  lemma PersistenceConverges(
    s: State, a: Id, c: Completion, path: string, reap: bool, p: PersistPauses, cancelled: TaskResult,
    invalid: TaskResult, rs: set<TaskResult>)
    requires Inv(s) && a in s.tasks && s.tasks[a].Owned()
    requires PausesPermitted(p, a, rs) && TaskResultOf(c) in rs && invalid in rs
    requires Minimal(cancelled, Cancelled) && Minimal(invalid, ResultInvalid)
    ensures var first := PersistResult(s, [], a, c, path, cancelled, p);
            var done := PersistCompletion(s, [], a, c, path, cancelled, invalid, reap, p);
            && Converged(s, done.trace, a, rs) && Answered(s, done, a, reap)
            && (done.reply.Err? <==> Refused(s, first, a, cancelled, invalid, p))
  {
    StartsAlong(s, a, rs, cancelled);
    CompletionConcludes(s, [], a, c, path, reap, p, cancelled, invalid, rs);
    ConcludedConverges(s, PersistCompletion(s, [], a, c, path, cancelled, invalid, reap, p), a, reap, rs, cancelled);
  }

  // ----- Without another finisher -----

  // Nobody submits a result for the task.
  predicate Quiet(history: seq<Timed>, a: Id) {
    forall i :: 0 <= i < |history| ==> !Submits(history[i].op, a)
  }

  lemma {:induction false} QuietStoresNothing(s: State, history: seq<Timed>, a: Id)
    requires a !in s.results && Quiet(history, a)
    ensures a !in Run(s, history).results
  {
    if history != [] {
      var last := |history| - 1;
      QuietStoresNothing(s, history[..last], a);
      assert !Submits(history[last].op, a);
      if a in Run(s, history).results {
        StepCommits(Run(s, history[..last]), history[last].op, history[last].now, a);
      }
    }
  }

  lemma QuietPause(s: State, trace: seq<Timed>, history: seq<Timed>, a: Id)
    requires !Stored(s, trace, a) && Quiet(history, a)
    ensures !Stored(s, trace + history, a)
  {
    RunConcat(s, trace, history);
    QuietStoresNothing(Run(s, trace), history, a);
  }

  predicate RetryQuiet(p: RetryPauses, a: Id) {
    Quiet(p.beforeTask.history, a) && Quiet(p.beforeResult.history, a) && Quiet(p.beforeRetry.history, a)
  }

  // Nobody submits between the check that nothing is stored and the end of the fallback.
  predicate WindowQuiet(p: PersistPauses, a: Id) {
    Quiet(p.beforeInvalid.history, a) && RetryQuiet(p.retryInvalid, a)
  }

  /** A refusal takes another finisher's submission between the check that nothing is stored and the
      end of the fallback. */
  lemma QuietIsNotRefused(
    s: State, first: Saved, a: Id, cancelled: TaskResult, invalid: TaskResult, p: PersistPauses)
    requires WindowQuiet(p, a) && Minimal(invalid, ResultInvalid)
    ensures !Refused(s, first, a, cancelled, invalid, p)
  {
    var t1 := first.trace + p.beforeCheck.history;
    if !Stored(s, t1, a) {
      var t2 := t1 + p.beforeInvalid.history;
      QuietPause(s, t1, p.beforeInvalid.history, a);
      if FlaggedIn(Run(s, t2), a) {
        FlagRefusesInvalid(s, t2, a, invalid, p.beforeInvalid.at);
        QuietRetry(s, Submit(s, t2, a, invalid, None, p.beforeInvalid.at).trace, a, cancelled, p.retryInvalid);
      }
    }
  }

  lemma FlagRefusesInvalid(s: State, trace: seq<Timed>, a: Id, invalid: TaskResult, now: int)
    requires FlaggedIn(Run(s, trace), a) && !Stored(s, trace, a) && invalid.outcome == ResultInvalid
    ensures !Stored(s, Submit(s, trace, a, invalid, None, now).trace, a)
  {
    SubmitRuns(s, trace, a, invalid, None, now);
    FlagRefuses(Run(s, trace), a, invalid, ResultJson.CanonicalBytes(invalid), now);
  }

  lemma FlagRefuses(s: State, a: Id, r: TaskResult, canonical: seq<byte>, now: int)
    requires FlaggedIn(s, a) && a !in s.results && r.outcome != Cancelled
    ensures a !in StoreCanonical(s, a, r, None, canonical, now).0.results
  {
  }

  lemma QuietRetry(s: State, trace: seq<Timed>, a: Id, cancelled: TaskResult, p: RetryPauses)
    requires !Stored(s, trace, a) && RetryQuiet(p, a)
    ensures !CancelRefused(s, trace + p.beforeTask.history, a, cancelled, p)
  {
    var t1 := trace + p.beforeTask.history;
    QuietPause(s, trace, p.beforeTask.history, a);
    QuietPause(s, t1, p.beforeResult.history, a);
    QuietPause(s, t1 + p.beforeResult.history, p.beforeRetry.history, a);
  }

  lemma MorePermitted(history: seq<Timed>, a: Id, rs: set<TaskResult>)
    requires PermittedAll(history, a, {})
    ensures PermittedAll(history, a, rs) && Quiet(history, a)
  {
  }

  lemma MorePausesPermitted(p: PersistPauses, a: Id, rs: set<TaskResult>)
    requires PausesPermitted(p, a, {})
    ensures PausesPermitted(p, a, rs) && WindowQuiet(p, a)
  {
    MorePermitted(p.beforePreflight.history, a, rs);
    MorePermitted(p.beforeSubmit.history, a, rs);
    MorePermitted(p.retry.beforeTask.history, a, rs);
    MorePermitted(p.retry.beforeResult.history, a, rs);
    MorePermitted(p.retry.beforeRetry.history, a, rs);
    MorePermitted(p.beforeCheck.history, a, rs);
    MorePermitted(p.beforeInvalid.history, a, rs);
    MorePermitted(p.retryInvalid.beforeTask.history, a, rs);
    MorePermitted(p.retryInvalid.beforeResult.history, a, rs);
    MorePermitted(p.retryInvalid.beforeRetry.history, a, rs);
    MorePermitted(p.beforeReap.history, a, rs);
    MorePermitted(p.beforePhase.history, a, rs);
  }

  // TERMINAL with the requested outcome, RESULT_INVALID or, exactly over a flag at the moment the
  // result was stored, CANCELLED in their place.
  ghost predicate EndsAs(s: State, done: Persisted, a: Id, requested: Outcome) {
    var s' := Run(s, done.trace);
    && done.reply == Ok(Terminal) && a in s'.results && a in s'.tasks
    && s'.tasks[a].outcome == Some(s'.results[a].result.outcome)
    && exists k: nat :: EndsAt(s, done.trace, k, a, s'.results[a].result, requested)
  }

  predicate EndsAt(s: State, trace: seq<Timed>, k: nat, a: Id, r: TaskResult, requested: Outcome) {
    && CommittedAt(s, trace, k, a, r)
    && (if FlaggedIn(Run(s, trace[..k]), a) then r.outcome == Cancelled else r.outcome in {requested, ResultInvalid})
  }

  lemma ConvergedEnds(s: State, done: Persisted, a: Id, c: Completion, invalid: TaskResult)
    requires Converged(s, done.trace, a, {TaskResultOf(c), invalid}) && invalid.outcome == ResultInvalid
    requires done.reply == Ok(Terminal)
    ensures EndsAs(s, done, a, c.outcome)
  {
    var r := Run(s, done.trace).results[a].result;
    var k: nat :| CommittedAs(s, done.trace, k, a, r, {TaskResultOf(c), invalid});
    CommittedEnds(s, done.trace, k, a, r, c, invalid);
  }

  lemma CommittedEnds(
    s: State, trace: seq<Timed>, k: nat, a: Id, r: TaskResult, c: Completion, invalid: TaskResult)
    requires CommittedAs(s, trace, k, a, r, {TaskResultOf(c), invalid}) && invalid.outcome == ResultInvalid
    ensures EndsAt(s, trace, k, a, r, c.outcome)
  {
    assert TaskResultOf(c).outcome == c.outcome;
  }

  /** Without another finisher the reply is always TERMINAL and the outcome is the requested one,
      RESULT_INVALID or, over a flag, CANCELLED. */
  lemma PersistsAlone(
    s: State, a: Id, c: Completion, path: string, reap: bool, p: PersistPauses, cancelled: TaskResult,
    invalid: TaskResult)
    requires Inv(s) && a in s.tasks && s.tasks[a].Owned() && PausesPermitted(p, a, {})
    requires Minimal(cancelled, Cancelled) && Minimal(invalid, ResultInvalid)
    ensures EndsAs(s, PersistCompletion(s, [], a, c, path, cancelled, invalid, reap, p), a, c.outcome)
  {
    var rs := {TaskResultOf(c), invalid};
    MorePausesPermitted(p, a, rs);
    PersistenceConverges(s, a, c, path, reap, p, cancelled, invalid, rs);
    QuietIsNotRefused(s, PersistResult(s, [], a, c, path, cancelled, p), a, cancelled, invalid, p);
    ConvergedEnds(s, PersistCompletion(s, [], a, c, path, cancelled, invalid, reap, p), a, c, invalid);
  }

  /** So it is with the two fallbacks that the scheduler has. */
  lemma SchedulerPersistsAlone(s: State, a: Id, c: Completion, path: string, reap: bool, p: PersistPauses)
    requires Inv(s) && a in s.tasks && s.tasks[a].Owned() && PausesPermitted(p, a, {})
    ensures EndsAs(s, PersistCompletion(s, [], a, c, path, CANCELLED, RESULT_INVALID, reap, p), a, c.outcome)
  {
    FallbacksAreMinimal();
    PersistsAlone(s, a, c, path, reap, p, CANCELLED, RESULT_INVALID);
  }

  // ----- A run that ends in a conflict -----

  // Its final text alone is longer than the response frame.
  function LongCompletion(): Completion {
    Completion(Failed, None, Repeat('0', MAX_FRAME_BYTES + 1), [], [], None, false)
  }

  function Competing(a: Id, other: TaskResult, now: int): PersistPauses {
    var none := Pause([], now);
    var retry := RetryPauses(none, none, none);
    PersistPauses(none, none, retry, none, Pause([Timed(OpStoreResult(a, other, None), now)], now), retry, none, none)
  }

  lemma LongIsRefused(s: State, a: Id, path: string, cancelled: TaskResult, p: PersistPauses)
    requires a in s.tasks && p.beforePreflight.history == []
    ensures PersistResult(s, [], a, LongCompletion(), path, cancelled, p) == Saved([], Err(InvalidState))
  {
    var r := TaskResultOf(LongCompletion());
    RepeatPlain(MAX_FRAME_BYTES + 1);
    assert !IsWhitespace(LongCompletion().summary[0]);
    LongTextRefused(s.tasks[a].(reapedAt := None), r, []);
  }

  lemma OutcomeResizes(r: TaskResult, outcome: Outcome)
    ensures |ResultJson.CanonicalBytes(r.(outcome := outcome))| ==
            |ResultJson.CanonicalBytes(r)| + |ResultJson.OutcomeName(outcome)| - |ResultJson.OutcomeName(r.outcome)|
  {
    var f := Field("outcome", JStr(ResultJson.OutcomeName(outcome)));
    var head, tail := ResultJson.OutcomeFields(r), ResultJson.EvidenceFields(r);
    OutcomePlain(outcome);
    OutcomePlain(r.outcome);
    TextSize(ResultJson.OutcomeName(outcome));
    TextSize(ResultJson.OutcomeName(r.outcome));
    PutSize(head + tail, 0, f);
    assert ResultJson.OutcomeFields(r.(outcome := outcome)) == head[0 := f];
    assert head[0 := f] + tail == (head + tail)[0 := f];
  }

  // The FAILED result with the texts of the fallback has other bytes.
  lemma FailedDiffers(invalid: TaskResult)
    requires invalid.outcome == ResultInvalid
    ensures ResultJson.CanonicalBytes(invalid.(outcome := Failed)) != ResultJson.CanonicalBytes(invalid)
  {
    OutcomeResizes(invalid, Failed);
    assert |ResultJson.OutcomeName(Failed)| != |ResultJson.OutcomeName(ResultInvalid)|;
  }

  lemma FailedIsMinimal(invalid: TaskResult)
    requires Minimal(invalid, ResultInvalid)
    ensures Minimal(invalid.(outcome := Failed), Failed)
  {
  }

  lemma StoresDigest(s: State, a: Id, r: TaskResult, canonical: seq<byte>, now: int)
    requires StoreCanonical(s, a, r, None, canonical, now).1.Ok? && a !in s.results
    ensures var s' := StoreCanonical(s, a, r, None, canonical, now).0;
            a in s'.results && s'.results[a].digest == Sha256(canonical)
  {
  }

  lemma CompetitorWins(s: State, a: Id, invalid: TaskResult, now: int)
    requires Underway(s, a) && a !in s.results && !s.tasks[a].Flagged() && Minimal(invalid, ResultInvalid)
    ensures Beaten(s, [Timed(OpStoreResult(a, invalid.(outcome := Failed), None), now)], a, invalid)
  {
    var other := invalid.(outcome := Failed);
    FailedDiffers(invalid);
    FailedIsMinimal(invalid);
    MinimalAccepted(s, a, other, Failed, now);
    StoresDigest(s, a, other, ResultJson.CanonicalBytes(other), now);
    AloneRuns(s, a, other, now);
  }

  lemma AloneRuns(s: State, a: Id, r: TaskResult, now: int)
    ensures Run(s, [Timed(OpStoreResult(a, r, None), now)]) ==
            StoreCanonical(s, a, r, None, ResultJson.CanonicalBytes(r), now).0
  {
    SubmitRuns(s, [], a, r, None, now);
    assert [] + [Timed(OpStoreResult(a, r, None), now)] == [Timed(OpStoreResult(a, r, None), now)];
  }

  lemma CompetingPermitted(a: Id, other: TaskResult, now: int, rs: set<TaskResult>)
    requires other in rs
    ensures PausesPermitted(Competing(a, other, now), a, rs)
  {
  }

  /** The conflict happens from every owned task without a flag: the preflight refuses a long result,
      nothing is stored when that is checked, another finisher stores FAILED, and the RESULT_INVALID
      fallback is refused. The task is TERMINAL all the same. */
  lemma ConflictRunExists(
    s: State, a: Id, path: string, reap: bool, cancelled: TaskResult, invalid: TaskResult, now: int)
    requires Inv(s) && a in s.tasks && s.tasks[a].Owned() && !s.tasks[a].Flagged()
    requires Minimal(cancelled, Cancelled) && Minimal(invalid, ResultInvalid)
    ensures var (c, other) := (LongCompletion(), invalid.(outcome := Failed));
            var (p, rs) := (Competing(a, other, now), {TaskResultOf(c), other, invalid});
            var done := PersistCompletion(s, [], a, c, path, cancelled, invalid, reap, p);
            && PausesPermitted(p, a, rs) && Converged(s, done.trace, a, rs)
            && done.reply == Err(Conflict(None))
  {
    var c, other := LongCompletion(), invalid.(outcome := Failed);
    var p, rs := Competing(a, other, now), {TaskResultOf(c), other, invalid};
    CompetingPermitted(a, other, now, rs);
    PersistenceConverges(s, a, c, path, reap, p, cancelled, invalid, rs);
    LongIsRefused(s, a, path, cancelled, p);
    StartsAlong(s, a, rs, cancelled);
    CompetitorWins(s, a, invalid, now);
    CompetitionRefuses(s, a, cancelled, invalid, now);
  }

  lemma CompetitionRefuses(s: State, a: Id, cancelled: TaskResult, invalid: TaskResult, now: int)
    requires a !in s.results
    requires Beaten(s, [Timed(OpStoreResult(a, invalid.(outcome := Failed), None), now)], a, invalid)
    ensures Refused(s, Saved([], Err(InvalidState)), a, cancelled, invalid,
                    Competing(a, invalid.(outcome := Failed), now))
  {
    var submission := Timed(OpStoreResult(a, invalid.(outcome := Failed), None), now);
    assert [] + [] + [submission] == [submission];
  }

  // ----- The end of a runtime -----

  // The lifecycle sink: an earlier write failed, or a terminal was written through it.
  datatype Sink = Sink(failed: bool, written: bool)

  // `finish_general`, once it has the sink's lock: a failed sink refuses, a second finisher is
  // told the phase, and the first records the terminal event and persists the result.
  function FinishGeneral(
    s: State, trace: seq<Timed>, a: Id, sink: Sink, write: LifecycleWrite, c: Completion, path: string,
    cancelled: TaskResult, reap: bool, p: PersistPauses): Persisted
  {
    if sink.failed then Persisted(trace, Err(InvalidState))
    else if sink.written then Report(s, trace + p.beforePhase.history, a)
    else RecordAndSave(s, trace, a, write, c, path, cancelled, reap, p)
  }

  function RecordAndSave(
    s: State, trace: seq<Timed>, a: Id, write: LifecycleWrite, c: Completion, path: string, cancelled: TaskResult,
    reap: bool, p: PersistPauses): Persisted
  {
    var t1 := trace + p.beforeCheck.history;
    var t2 := t1 + [Timed(OpAppend(write), p.beforeCheck.at)];
    match Append(Run(s, t1), write, p.beforeCheck.at).1
    case Err(e) => Persisted(t2, Err(e))
    case Ok(_) => SaveAndReport(s, PersistResult(s, t2, a, c, path, cancelled, p), a, reap, p)
  }

  // The end of `finish_routed_terminal`: through the sink, and directly if that fails.
  function FinishRouted(
    s: State, a: Id, lock: Pause, sink: Sink, write: LifecycleWrite, c: Completion, path: string,
    cancelled: TaskResult, invalid: TaskResult, reap: bool, p: PersistPauses, q: PersistPauses): Persisted
  {
    OrDirectly(s, FinishGeneral(s, lock.history, a, sink, write, c, path, cancelled, reap, p), a, c, path,
               cancelled, invalid, reap, q)
  }

  function OrDirectly(
    s: State, first: Persisted, a: Id, c: Completion, path: string, cancelled: TaskResult, invalid: TaskResult,
    reap: bool, q: PersistPauses): Persisted
  {
    if first.reply.Ok? then first
    else PersistCompletion(s, first.trace, a, c, path, cancelled, invalid, reap, q)
  }

  // A sink through which a terminal was written belongs to a task with a stored result.
  predicate SinkHonest(s: State, trace: seq<Timed>, a: Id, sink: Sink) {
    sink.written ==> Stored(s, trace, a)
  }

  // Success means a stored result; otherwise the attempt goes on.
  ghost predicate Attempted(s: State, done: Persisted, a: Id, reap: bool, rs: set<TaskResult>, cancelled: TaskResult) {
    && Along(s, done.trace, a, rs, cancelled)
    && (done.reply.Ok? ==> Stored(s, done.trace, a) && done.reply == Ok(Terminal) && ReapedIf(Run(s, done.trace), a, reap))
  }

  lemma SavedAttempted(
    s: State, saved: Saved, a: Id, reap: bool, p: PersistPauses, rs: set<TaskResult>, cancelled: TaskResult)
    requires Along(s, saved.trace, a, rs, cancelled) && (saved.reply.Ok? ==> Stored(s, saved.trace, a))
    requires PausesPermitted(p, a, rs)
    ensures Attempted(s, SaveAndReport(s, saved, a, reap, p), a, reap, rs, cancelled)
  {
    match saved.reply
    case Ok(_) =>
      ReapAndReportConcludes(s, saved.trace, a, reap, p, rs, cancelled);
      assert SaveAndReport(s, saved, a, reap, p) == ReapAndReport(s, saved.trace, a, reap, p);
    case Err(e) =>
      assert SaveAndReport(s, saved, a, reap, p) == Persisted(saved.trace, Err(e));
  }

  lemma FinishSaves(
    s: State, trace: seq<Timed>, a: Id, c: Completion, path: string, cancelled: TaskResult, reap: bool,
    p: PersistPauses, rs: set<TaskResult>)
    requires Along(s, trace, a, rs, cancelled) && TaskResultOf(c) in rs && PausesPermitted(p, a, rs)
    requires Minimal(cancelled, Cancelled)
    ensures var done := SaveAndReport(s, PersistResult(s, trace, a, c, path, cancelled, p), a, reap, p);
            Attempted(s, done, a, reap, rs, cancelled)
  {
    PersistResultStores(s, trace, a, c, path, cancelled, p, rs);
    SavedAttempted(s, PersistResult(s, trace, a, c, path, cancelled, p), a, reap, p, rs, cancelled);
  }

  lemma RecordAttempts(
    s: State, trace: seq<Timed>, a: Id, write: LifecycleWrite, c: Completion, path: string, cancelled: TaskResult,
    reap: bool, p: PersistPauses, rs: set<TaskResult>)
    requires Along(s, trace, a, rs, cancelled) && TaskResultOf(c) in rs && PausesPermitted(p, a, rs)
    requires write.terminal.None? && Minimal(cancelled, Cancelled)
    ensures Attempted(s, RecordAndSave(s, trace, a, write, c, path, cancelled, reap, p), a, reap, rs, cancelled)
  {
    var t1 := trace + p.beforeCheck.history;
    var t2 := t1 + [Timed(OpAppend(write), p.beforeCheck.at)];
    AlongPause(s, trace, p.beforeCheck.history, a, rs, cancelled);
    AlongOp(s, t1, OpAppend(write), p.beforeCheck.at, a, rs, cancelled);
    FinishSaves(s, t2, a, c, path, cancelled, reap, p, rs);
    RecordCases(s, trace, a, write, c, path, cancelled, reap, p);
  }

  lemma RecordCases(
    s: State, trace: seq<Timed>, a: Id, write: LifecycleWrite, c: Completion, path: string, cancelled: TaskResult,
    reap: bool, p: PersistPauses)
    ensures var t2 := trace + p.beforeCheck.history + [Timed(OpAppend(write), p.beforeCheck.at)];
            var done := RecordAndSave(s, trace, a, write, c, path, cancelled, reap, p);
            || (done.trace == t2 && done.reply.Err?)
            || done == SaveAndReport(s, PersistResult(s, t2, a, c, path, cancelled, p), a, reap, p)
  {
  }

  /** The first finisher that goes through the sink with success has stored a result, so the sink
      that it marks as written is honest; a later one is told TERMINAL. */
  lemma FinishGeneralAttempts(
    s: State, trace: seq<Timed>, a: Id, sink: Sink, write: LifecycleWrite, c: Completion, path: string,
    cancelled: TaskResult, reap: bool, p: PersistPauses, rs: set<TaskResult>)
    requires Along(s, trace, a, rs, cancelled) && TaskResultOf(c) in rs && PausesPermitted(p, a, rs)
    requires write.terminal.None? && Minimal(cancelled, Cancelled) && SinkHonest(s, trace, a, sink)
    ensures var done := FinishGeneral(s, trace, a, sink, write, c, path, cancelled, reap, p);
            && Attempted(s, done, a, reap && !sink.written, rs, cancelled)
            && (sink == Sink(false, true) ==> done.reply == Ok(Terminal))
  {
    if !sink.failed && sink.written {
      AlongPause(s, trace, p.beforePhase.history, a, rs, cancelled);
      ReportsTerminal(s, trace + p.beforePhase.history, a, rs, cancelled);
    } else if !sink.failed {
      RecordAttempts(s, trace, a, write, c, path, cancelled, reap, p, rs);
    }
  }

  // The direct attempt follows a first one that failed, and is refused.
  predicate RoutedRefused(
    s: State, first: Persisted, a: Id, c: Completion, path: string, cancelled: TaskResult, invalid: TaskResult,
    q: PersistPauses)
  {
    first.reply.Err? &&
    Refused(s, PersistResult(s, first.trace, a, c, path, cancelled, q), a, cancelled, invalid, q)
  }

  lemma RoutedConverges(
    s: State, first: Persisted, a: Id, sink: Sink, c: Completion, path: string, reap: bool, q: PersistPauses,
    cancelled: TaskResult, invalid: TaskResult, rs: set<TaskResult>)
    requires Attempted(s, first, a, reap && !sink.written, rs, cancelled) && PausesPermitted(q, a, rs)
    requires TaskResultOf(c) in rs && invalid in rs && Minimal(cancelled, Cancelled) && Minimal(invalid, ResultInvalid)
    requires a !in s.results
    ensures var done := OrDirectly(s, first, a, c, path, cancelled, invalid, reap, q);
            && Converged(s, done.trace, a, rs) && Answered(s, done, a, reap && !sink.written)
            && (done.reply.Err? <==> RoutedRefused(s, first, a, c, path, cancelled, invalid, q))
  {
    if first.reply.Err? {
      CompletionConcludes(s, first.trace, a, c, path, reap, q, cancelled, invalid, rs);
    }
    ConcludedConverges(
      s, OrDirectly(s, first, a, c, path, cancelled, invalid, reap, q), a, reap && !sink.written, rs, cancelled);
  }

  /** The end of a runtime converges too, whoever finishes first: through an open sink, one that
      failed, or one that another finisher has already written its terminal to. The reply is a
      conflict exactly if the sink fails and the direct attempt is refused. */
  lemma RuntimeEndConverges(
    s: State, a: Id, lock: Pause, sink: Sink, write: LifecycleWrite, c: Completion, path: string, reap: bool,
    p: PersistPauses, q: PersistPauses, cancelled: TaskResult, invalid: TaskResult, rs: set<TaskResult>)
    requires Inv(s) && a in s.tasks && s.tasks[a].Owned() && SinkHonest(s, lock.history, a, sink)
    requires PermittedAll(lock.history, a, rs) && PausesPermitted(p, a, rs) && PausesPermitted(q, a, rs)
    requires TaskResultOf(c) in rs && invalid in rs && write.terminal.None?
    requires Minimal(cancelled, Cancelled) && Minimal(invalid, ResultInvalid)
    ensures var first := FinishGeneral(s, lock.history, a, sink, write, c, path, cancelled, reap, p);
            var done := FinishRouted(s, a, lock, sink, write, c, path, cancelled, invalid, reap, p, q);
            && Converged(s, done.trace, a, rs) && Answered(s, done, a, reap && !sink.written)
            && (done.reply.Err? <==> RoutedRefused(s, first, a, c, path, cancelled, invalid, q))
            && (WindowQuiet(q, a) ==> done.reply.Ok?)
  {
    StartsAlong(s, a, rs, cancelled);
    AlongLock(s, lock.history, a, rs, cancelled);
    FinishGeneralAttempts(s, lock.history, a, sink, write, c, path, cancelled, reap, p, rs);
    var first := FinishGeneral(s, lock.history, a, sink, write, c, path, cancelled, reap, p);
    RoutedConverges(s, first, a, sink, c, path, reap, q, cancelled, invalid, rs);
    if WindowQuiet(q, a) {
      QuietIsNotRefused(s, PersistResult(s, first.trace, a, c, path, cancelled, q), a, cancelled, invalid, q);
    }
  }

  lemma AlongLock(s: State, history: seq<Timed>, a: Id, rs: set<TaskResult>, cancelled: TaskResult)
    requires Along(s, [], a, rs, cancelled) && PermittedAll(history, a, rs)
    ensures Along(s, history, a, rs, cancelled)
  {
    AlongPause(s, [], history, a, rs, cancelled);
    assert [] + history == history;
  }
}
