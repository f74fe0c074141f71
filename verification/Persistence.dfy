// How the scheduler makes the end of a task durable (crates/zcode-agentd/src/lib.rs): the final
// result, or a bounded replacement, while other operations run between its store calls, a second
// finisher's among them.
module Persistence {
  import opened Prelude
  import opened TaskTypes
  import opened StoreSpec
  import ResultJson
  import opened StoreRuns
  import opened StoreInvariant
  import opened StoreTheorems
  import opened StoreHistory
  import opened StoreResults
  import opened RpcFrame
  import opened Fallbacks

  datatype PatchEvidence = PatchEvidence(
    artifactId: Id,
    baseSha: string,
    headCommit: Option<string>,
    changedPaths: seq<string>,
    diffStat: Option<string>,
    sha256: string,
    sizeBytes: nat)

  // `GeneralCompletion`
  datatype Completion = Completion(
    outcome: Outcome,
    reasonCode: Option<string>,
    summary: string,
    checks: seq<string>,
    residualGaps: seq<string>,
    patch: Option<PatchEvidence>,
    cleaned: bool)

  function DebugName(o: Outcome): string {
    match o
    case Completed => "Completed"
    case Failed => "Failed"
    case Cancelled => "Cancelled"
    case TimedOut => "TimedOut"
    case BudgetExhausted => "BudgetExhausted"
    case RuntimeLost => "RuntimeLost"
    case ResultInvalid => "ResultInvalid"
  }

  // `task_result`
  function TaskResultOf(c: Completion): TaskResult {
    var gaps := if c.reasonCode.Some? && c.reasonCode.value !in c.residualGaps
                then c.residualGaps + [c.reasonCode.value] else c.residualGaps;
    var text := if Blank(c.summary) then c.reasonCode.GetOr("general task ended with " + DebugName(c.outcome))
                else c.summary;
    match c.patch
    case None =>
      TaskResult(c.outcome, text, c.outcome != Completed, None, None, [], None, c.checks, gaps, [])
    case Some(p) =>
      TaskResult(c.outcome, text, c.outcome != Completed, Some(p.baseSha), p.headCommit, p.changedPaths, p.diffStat,
                 c.checks, gaps, [ResultArtifact(ChangesPatch, p.artifactId, p.sha256)])
  }

  function PatchOf(a: Id, c: Completion, path: string): Option<NewArtifact> {
    match c.patch
    case None => None
    case Some(p) => Some(NewArtifact(p.artifactId, a, "changes_patch", path, p.sha256, p.sizeBytes))
  }

  // What other threads do before the next store call, and when that call is made.
  datatype Pause = Pause(history: seq<Timed>, at: int)

  // An attempt is followed through its trace: every store operation since the tables `s` it began
  // with, its own and those of others, in the order in which they ran.
  datatype Saved = Saved(trace: seq<Timed>, reply: Reply<()>)

  function Submit(
    s: State, trace: seq<Timed>, a: Id, r: TaskResult, patch: Option<NewArtifact>, now: int): Saved
  {
    Saved(trace + [Timed(OpStoreResult(a, r, patch), now)], StoreResult(Run(s, trace), a, r, patch, now).1)
  }

  datatype RetryPauses = RetryPauses(beforeTask: Pause, beforeResult: Pause, beforeRetry: Pause)

  // The cancelled fallback in place of a refused result, if still nothing is stored.
  function CancelInstead(s: State, refused: Saved, a: Id, cancelled: TaskResult, p: RetryPauses): Saved {
    var t1 := refused.trace + p.beforeResult.history;
    if a in Run(s, t1).results then Saved(t1, refused.reply)
    else Submit(s, t1 + p.beforeRetry.history, a, cancelled, None, p.beforeRetry.at)
  }

  // A refused submission: the task is read again, and a flag explains the refusal.
  function AfterConflict(
    s: State, first: Saved, a: Id, outcome: Outcome, cancelled: TaskResult, p: RetryPauses): Saved
  {
    var t1 := first.trace + p.beforeTask.history;
    if a !in Run(s, t1).tasks then Saved(t1, Err(InvalidState))
    else if !Run(s, t1).tasks[a].Flagged() || outcome == Cancelled then Saved(t1, first.reply)
    else CancelInstead(s, Saved(t1, first.reply), a, cancelled, p)
  }

  // `store_result_with_cancel_precedence`
  function SubmitOrCancel(
    s: State, trace: seq<Timed>, a: Id, r: TaskResult, patch: Option<NewArtifact>, cancelled: TaskResult, now: int,
    p: RetryPauses): Saved
  {
    var first := Submit(s, trace, a, r, patch, now);
    if first.reply.Err? && first.reply.error.Conflict? then AfterConflict(s, first, a, r.outcome, cancelled, p)
    else first
  }

  datatype PersistPauses = PersistPauses(
    beforePreflight: Pause,
    beforeSubmit: Pause,
    retry: RetryPauses,
    beforeCheck: Pause,
    beforeInvalid: Pause,
    retryInvalid: RetryPauses,
    beforeReap: Pause,
    beforePhase: Pause)

  // `persist_general_result`
  function PersistResult(
    s: State, trace: seq<Timed>, a: Id, c: Completion, path: string, cancelled: TaskResult, p: PersistPauses): Saved
  {
    var t1 := trace + p.beforePreflight.history;
    if a !in Run(s, t1).tasks then Saved(t1, Err(InvalidState))
    else if !ResultResponseFits(Run(s, t1).tasks[a], TaskResultOf(c), PatchOf(a, c, path)) then Saved(t1, Err(InvalidState))
    else
      SubmitOrCancel(s, t1 + p.beforeSubmit.history, a, TaskResultOf(c), PatchOf(a, c, path), cancelled,
                     p.beforeSubmit.at, p.retry)
  }

  // RESULT_INVALID in place of a result that was not stored, if still nothing is.
  function InvalidInstead(
    s: State, first: Saved, a: Id, cancelled: TaskResult, invalid: TaskResult, p: PersistPauses): Saved
  {
    var t1 := first.trace + p.beforeCheck.history;
    if a in Run(s, t1).results then Saved(t1, Ok(()))
    else
      SubmitOrCancel(s, t1 + p.beforeInvalid.history, a, invalid, None, cancelled, p.beforeInvalid.at, p.retryInvalid)
  }

  function PersistSome(
    s: State, trace: seq<Timed>, a: Id, c: Completion, path: string, cancelled: TaskResult, invalid: TaskResult,
    p: PersistPauses): Saved
  {
    OrInvalid(s, PersistResult(s, trace, a, c, path, cancelled, p), a, cancelled, invalid, p)
  }

  function OrInvalid(
    s: State, first: Saved, a: Id, cancelled: TaskResult, invalid: TaskResult, p: PersistPauses): Saved
  {
    if first.reply.Ok? then first else InvalidInstead(s, first, a, cancelled, invalid, p)
  }

  datatype Persisted = Persisted(trace: seq<Timed>, reply: Reply<Phase>)

  function Report(s: State, trace: seq<Timed>, a: Id): Persisted {
    Persisted(trace, if a in Run(s, trace).tasks then Ok(Run(s, trace).tasks[a].phase) else Err(InvalidState))
  }

  // After the result is stored: reap the task if asked to, and report its phase.
  function ReapAndReport(s: State, trace: seq<Timed>, a: Id, reap: bool, p: PersistPauses): Persisted {
    if !reap then Report(s, trace + p.beforePhase.history, a)
    else
      var t1 := trace + p.beforeReap.history;
      var t2 := t1 + [Timed(OpReap(a), p.beforeReap.at)];
      match Reap(Run(s, t1), a, p.beforeReap.at).1
      case Err(e) => Persisted(t2, Err(e))
      case Ok(_) => Report(s, t2 + p.beforePhase.history, a)
  }

  function SaveAndReport(s: State, saved: Saved, a: Id, reap: bool, p: PersistPauses): Persisted {
    match saved.reply
    case Err(e) => Persisted(saved.trace, Err(e))
    case Ok(_) => ReapAndReport(s, saved.trace, a, reap, p)
  }

  // `persist_general_completion`
  function PersistCompletion(
    s: State, trace: seq<Timed>, a: Id, c: Completion, path: string, cancelled: TaskResult, invalid: TaskResult,
    reap: bool, p: PersistPauses): Persisted
  {
    SaveAndReport(s, PersistSome(s, trace, a, c, path, cancelled, invalid, p), a, reap, p)
  }

  // ----- What other threads may do -----

  // Everything but resuming the task and ending it without a result. The scheduler ends a task
  // without a result only where it fails a claim, before that claim has a finisher.
  predicate Permitted(op: Op, a: Id) {
    && !Resuming(op, a) && !(op.OpTransition? && op.agent == a) && !(op.OpFailClaim? && op.agent == a)
    && !(op.OpAppend? && op.write.agent == a && op.write.terminal.Some?)
  }

  // The results that other threads submit for the task are among `rs`.
  predicate PermittedAll(history: seq<Timed>, a: Id, rs: set<TaskResult>) {
    forall i :: 0 <= i < |history| ==>
                  Permitted(history[i].op, a) && (Submits(history[i].op, a) ==> history[i].op.result in rs)
  }

  predicate RetryPermitted(p: RetryPauses, a: Id, rs: set<TaskResult>) {
    && PermittedAll(p.beforeTask.history, a, rs) && PermittedAll(p.beforeResult.history, a, rs)
    && PermittedAll(p.beforeRetry.history, a, rs)
  }

  predicate PausesPermitted(p: PersistPauses, a: Id, rs: set<TaskResult>) {
    && PermittedAll(p.beforePreflight.history, a, rs) && PermittedAll(p.beforeSubmit.history, a, rs)
    && RetryPermitted(p.retry, a, rs) && PermittedAll(p.beforeCheck.history, a, rs)
    && PermittedAll(p.beforeInvalid.history, a, rs) && RetryPermitted(p.retryInvalid, a, rs)
    && PermittedAll(p.beforeReap.history, a, rs) && PermittedAll(p.beforePhase.history, a, rs)
  }

  // What a trace may contain: permitted operations, with submissions of results in `rs`, or of the
  // cancelled fallback at a moment when a flag is set.
  predicate Warranted(s: State, trace: seq<Timed>, i: nat, a: Id, rs: set<TaskResult>, cancelled: TaskResult)
    requires i < |trace|
  {
    && Permitted(trace[i].op, a)
    && (Submits(trace[i].op, a) ==>
          trace[i].op.result in rs || (trace[i].op.result == cancelled && FlaggedIn(Run(s, trace[..i]), a)))
  }

  ghost predicate Good(s: State, trace: seq<Timed>, a: Id, rs: set<TaskResult>, cancelled: TaskResult) {
    forall i: nat :: i < |trace| ==> Warranted(s, trace, i, a, rs, cancelled)
  }

  lemma GoodBefore(s: State, trace: seq<Timed>, n: nat, a: Id, rs: set<TaskResult>, cancelled: TaskResult)
    requires Good(s, trace, a, rs, cancelled) && n < |trace|
    ensures Good(s, trace[..n], a, rs, cancelled) && Permitted(trace[n].op, a)
  {
    assert Warranted(s, trace, n, a, rs, cancelled);
    forall i: nat | i < n ensures Warranted(s, trace[..n], i, a, rs, cancelled) {
      assert Warranted(s, trace, i, a, rs, cancelled) && trace[..n][..i] == trace[..i];
    }
  }

  lemma GoodPause(
    s: State, trace: seq<Timed>, history: seq<Timed>, a: Id, rs: set<TaskResult>, cancelled: TaskResult)
    requires Good(s, trace, a, rs, cancelled) && PermittedAll(history, a, rs)
    ensures Good(s, trace + history, a, rs, cancelled)
  {
    var all := trace + history;
    forall i: nat | i < |all| ensures Warranted(s, all, i, a, rs, cancelled) {
      if i < |trace| {
        assert Warranted(s, trace, i, a, rs, cancelled) && all[..i] == trace[..i];
      } else {
        assert all[i] == history[i - |trace|];
      }
    }
  }

  lemma GoodOp(s: State, trace: seq<Timed>, op: Op, now: int, a: Id, rs: set<TaskResult>, cancelled: TaskResult)
    requires Good(s, trace, a, rs, cancelled) && Permitted(op, a)
    requires Submits(op, a) ==> op.result in rs || (op.result == cancelled && FlaggedIn(Run(s, trace), a))
    ensures Good(s, trace + [Timed(op, now)], a, rs, cancelled)
  {
    var all := trace + [Timed(op, now)];
    forall i: nat | i < |all| ensures Warranted(s, all, i, a, rs, cancelled) {
      if i < |trace| {
        assert Warranted(s, trace, i, a, rs, cancelled) && all[..i] == trace[..i];
      } else {
        assert all[..i] == trace;
      }
    }
  }

  // The row stays owned: it neither ends nor goes back to QUEUED.
  predicate RowStaysOwned(s: State, s': State, a: Id) {
    a in s.tasks && s.tasks[a].Owned() ==> a in s'.tasks && s'.tasks[a].Owned()
  }

  lemma OtherRowEnds(s: State, b: Id, update: TerminalUpdate, now: int, a: Id)
    requires b in s.tasks && b != a
    ensures RowStaysOwned(s, ApplyTerminal(s, b, update, now), a)
  {
  }

  lemma EndingsStayOwned(s: State, b: Id, epoch: nat, update: TerminalUpdate, now: int, a: Id)
    requires b != a
    ensures RowStaysOwned(s, Transition(s, b, epoch, update, now).0, a)
  {
    if b in s.tasks {
      OtherRowEnds(s, b, update, now, a);
    }
  }

  lemma AppendStaysOwned(s: State, w: LifecycleWrite, now: int, a: Id)
    requires Permitted(OpAppend(w), a)
    ensures RowStaysOwned(s, Append(s, w, now).0, a)
  {
    var s' := Append(s, w, now).0;
    if s' != s {
      var s1 := Record(s, w, s.tasks[w.agent].lastEventSeq + 1, now);
      if w.terminal.Some? {
        OtherRowEnds(s1, w.agent, w.terminal.value, now, a);
        assert s' == ApplyTerminal(s1, w.agent, w.terminal.value, now);
      } else {
        assert s' == s1;
      }
    }
  }

  lemma ResultStaysOwned(s: State, b: Id, r: TaskResult, patch: Option<NewArtifact>, canonical: seq<byte>, now: int, a: Id)
    requires b != a
    ensures RowStaysOwned(s, StoreCanonical(s, b, r, patch, canonical, now).0, a)
  {
    if Unstored(s, b, r, patch, canonical).None? {
      var t := s.tasks[b];
      var stored := StoredResult(r, Sha256(canonical), RetainResult(t.spec.retainPartial, r));
      var s1 := s.(artifacts := WithArtifact(s.artifacts, patch, now), results := s.results[b := stored]);
      OtherRowEnds(s1, b, TerminalUpdate(r.outcome, ResultFailureCode(t, r), t.failureMessage), now, a);
    }
  }

  lemma EnqueueStaysOwned(s: State, spec: TaskSpec, request: BudgetRequest, now: int, a: Id)
    ensures RowStaysOwned(s, Enqueue(s, spec, request, now).0, a)
  {
  }

  lemma ClaimStaysOwned(s: State, owner: string, limit: nat, now: int, a: Id)
    ensures RowStaysOwned(s, ClaimNext(s, owner, limit, now).0, a)
  {
    var (s', r) := ClaimNext(s, owner, limit, now);
    if r.Ok? && r.value.Some? {
      assert s' == Claim(s, r.value.value, owner, now);
    } else {
      assert s' == s;
    }
  }

  lemma StopStaysOwned(s: State, b: Id, close: bool, intent: bool, now: int, a: Id)
    ensures RowStaysOwned(s, RequestStop(s, b, close, intent, now).0, a)
  {
  }

  lemma ResumeStaysOwned(s: State, b: Id, message: Id, content: string, now: int, a: Id)
    requires b != a
    ensures RowStaysOwned(s, Resume(s, b, message, content, now).0, a)
  {
    var (s', r) := Resume(s, b, message, content, now);
    if r.Ok? {
      assert s'.tasks == s.tasks[b := Resumed(s.tasks[b])];
    } else {
      assert s' == s;
    }
  }

  lemma TaskStepStaysOwned(s: State, op: Op, now: int, a: Id)
    requires !IsInput(op) && Permitted(op, a) && !Submits(op, a)
    ensures RowStaysOwned(s, TaskStep(s, op, now), a)
  {
    match op
    case OpEnqueue(spec, request) => EnqueueStaysOwned(s, spec, request, now, a);
    case OpClaimNext(owner, limit) => ClaimStaysOwned(s, owner, limit, now, a);
    case OpMarkRunning(b, epoch, runtime, identity, session, turn) =>
    case OpAppend(write) => AppendStaysOwned(s, write, now, a);
    case OpTransition(b, epoch, update) => EndingsStayOwned(s, b, epoch, update, now, a);
    case OpFailClaim(b, epoch, code, text) =>
      EndingsStayOwned(s, b, epoch, TerminalUpdate(RuntimeLost, Some(code), Some(text)), now, a);
    case OpStop(b, close, intent) => StopStaysOwned(s, b, close, intent, now, a);
    case OpResume(b, message, content) => ResumeStaysOwned(s, b, message, content, now, a);
    case OpReap(b) =>
    case OpStoreResult(b, result, patch) =>
      ResultStaysOwned(s, b, result, patch, ResultJson.CanonicalBytes(result), now, a);
  }

  lemma InsertRequestStaysOwned(
    s: State, r: Id, b: Id, correlation: string, kind: string, payload: string, now: int, a: Id)
    ensures RowStaysOwned(s, InsertRequest(s, r, b, correlation, kind, payload, now).0, a)
  {
  }

  lemma CompleteResponseStaysOwned(s: State, b: Id, r: Id, now: int, a: Id)
    ensures RowStaysOwned(s, CompleteResponse(s, b, r, now).0, a)
  {
  }

  lemma InputStepStaysOwned(s: State, op: Op, now: int, a: Id)
    requires IsInput(op)
    ensures RowStaysOwned(s, InputStep(s, op, now), a)
  {
    if op.OpInsertRequest? {
      InsertRequestStaysOwned(s, op.request_, op.agent, op.correlation, op.kind, op.payload, now, a);
    } else if op.OpCompleteResponse? {
      CompleteResponseStaysOwned(s, op.agent, op.request_, now, a);
    } else {
      assert InputStep(s, op, now).tasks == s.tasks;
    }
  }

  lemma StepStaysOwned(s: State, op: Op, now: int, a: Id)
    requires Permitted(op, a) && !Submits(op, a)
    ensures RowStaysOwned(s, Step(s, op, now), a)
  {
    if IsInput(op) {
      InputStepStaysOwned(s, op, now, a);
    } else {
      TaskStepStaysOwned(s, op, now, a);
    }
  }

  // ----- Along a trace -----

  // The task still has to be ended, or its result is stored.
  ghost predicate Underway(s: State, a: Id) {
    Inv(s) && a in s.tasks && (s.tasks[a].Owned() || a in s.results)
  }

  lemma SubmissionStaysUnderway(s: State, a: Id, r: TaskResult, patch: Option<NewArtifact>, now: int)
    requires a in s.tasks
    ensures var s' := StoreResult(s, a, r, patch, now).0; s' == s || (a in s'.tasks && a in s'.results)
  {
  }

  lemma StepUnderway(s: State, op: Op, now: int, a: Id)
    requires Underway(s, a) && Permitted(op, a)
    ensures Underway(Step(s, op, now), a)
  {
    StepKeeps(s, op, now);
    StepPersists(s, s, op, now, a);
    if s.tasks[a].Owned() {
      StepOwnedOrStored(s, op, now, a);
    }
  }

  lemma StepOwnedOrStored(s: State, op: Op, now: int, a: Id)
    requires a in s.tasks && s.tasks[a].Owned() && Permitted(op, a)
    ensures var s' := Step(s, op, now); a in s'.tasks && (s'.tasks[a].Owned() || a in s'.results)
  {
    if Submits(op, a) {
      SubmissionStaysUnderway(s, a, op.result, op.patch, now);
      assert Step(s, op, now) == StoreResult(s, a, op.result, op.patch, now).0;
    } else {
      StepStaysOwned(s, op, now, a);
    }
  }

  lemma {:induction false} RunUnderway(
    s: State, trace: seq<Timed>, a: Id, rs: set<TaskResult>, cancelled: TaskResult)
    requires Underway(s, a) && Good(s, trace, a, rs, cancelled)
    ensures Underway(Run(s, trace), a)
  {
    if trace != [] {
      var last := |trace| - 1;
      GoodBefore(s, trace, last, a, rs, cancelled);
      RunUnderway(s, trace[..last], a, rs, cancelled);
      StepUnderway(Run(s, trace[..last]), trace[last].op, trace[last].now, a);
    }
  }

  // ----- Along a trace of the attempt -----

  ghost predicate Along(s: State, trace: seq<Timed>, a: Id, rs: set<TaskResult>, cancelled: TaskResult) {
    Underway(s, a) && Good(s, trace, a, rs, cancelled) && Underway(Run(s, trace), a)
  }

  predicate Stored(s: State, trace: seq<Timed>, a: Id) { a in Run(s, trace).results }

  // What others do keeps the task, its flags and a result that is stored.
  lemma PausePersists(s: State, trace: seq<Timed>, history: seq<Timed>, a: Id, rs: set<TaskResult>)
    requires a in Run(s, trace).tasks && PermittedAll(history, a, rs)
    ensures Persists(Run(s, trace), Run(s, trace + history), a)
  {
    RunConcat(s, trace, history);
    forall i | 0 <= i < |history| ensures !Resuming(history[i].op, a) {
      assert Permitted(history[i].op, a);
    }
    RunPersists(Run(s, trace), history, a);
  }

  lemma AlongPause(
    s: State, trace: seq<Timed>, history: seq<Timed>, a: Id, rs: set<TaskResult>, cancelled: TaskResult)
    requires Along(s, trace, a, rs, cancelled) && PermittedAll(history, a, rs)
    ensures Along(s, trace + history, a, rs, cancelled)
    ensures Stored(s, trace, a) ==> Stored(s, trace + history, a)
    ensures FlaggedIn(Run(s, trace), a) ==> FlaggedIn(Run(s, trace + history), a)
  {
    GoodPause(s, trace, history, a, rs, cancelled);
    RunUnderway(s, trace + history, a, rs, cancelled);
    PausePersists(s, trace, history, a, rs);
  }

  lemma AlongOp(s: State, trace: seq<Timed>, op: Op, now: int, a: Id, rs: set<TaskResult>, cancelled: TaskResult)
    requires Along(s, trace, a, rs, cancelled) && Permitted(op, a)
    requires Submits(op, a) ==> op.result in rs || (op.result == cancelled && FlaggedIn(Run(s, trace), a))
    ensures Along(s, trace + [Timed(op, now)], a, rs, cancelled)
  {
    GoodOp(s, trace, op, now, a, rs, cancelled);
    RunUnderway(s, trace + [Timed(op, now)], a, rs, cancelled);
  }

  // A submission either leaves the tables alone or leaves a stored result; success means the latter.
  lemma SubmitStores(s: State, a: Id, r: TaskResult, patch: Option<NewArtifact>, now: int)
    requires a in s.tasks
    ensures StoreResult(s, a, r, patch, now).1.Ok? ==> a in StoreResult(s, a, r, patch, now).0.results
    ensures StoreResult(s, a, r, patch, now).1.Err? ==> StoreResult(s, a, r, patch, now).0 == s
    ensures a in s.results ==> a in StoreResult(s, a, r, patch, now).0.results
  {
  }

  lemma AlongSubmit(
    s: State, trace: seq<Timed>, a: Id, r: TaskResult, patch: Option<NewArtifact>, now: int, rs: set<TaskResult>,
    cancelled: TaskResult)
    requires Along(s, trace, a, rs, cancelled)
    requires r in rs || (r == cancelled && FlaggedIn(Run(s, trace), a))
    ensures var saved := Submit(s, trace, a, r, patch, now);
            && Along(s, saved.trace, a, rs, cancelled)
            && Run(s, saved.trace) == StoreResult(Run(s, trace), a, r, patch, now).0
            && (saved.reply.Ok? || Stored(s, trace, a) ==> Stored(s, saved.trace, a))
            && (saved.reply.Err? ==> Run(s, saved.trace) == Run(s, trace))
  {
    AlongOp(s, trace, OpStoreResult(a, r, patch), now, a, rs, cancelled);
    SubmitRuns(s, trace, a, r, patch, now);
    SubmitStores(Run(s, trace), a, r, patch, now);
  }

  lemma SubmitRuns(s: State, trace: seq<Timed>, a: Id, r: TaskResult, patch: Option<NewArtifact>, now: int)
    ensures Run(s, Submit(s, trace, a, r, patch, now).trace) == StoreResult(Run(s, trace), a, r, patch, now).0
  {
    var op := OpStoreResult(a, r, patch);
    RunOne(s, trace, op, now);
    assert Step(Run(s, trace), op, now) == StoreResult(Run(s, trace), a, r, patch, now).0;
  }

  /** A minimal result is accepted for any task that still has to be ended, unless it is asked to
      overrule a flag; then it is refused as a conflict. */
  lemma MinimalAccepted(s: State, a: Id, r: TaskResult, outcome: Outcome, now: int)
    requires Underway(s, a) && Minimal(r, outcome) && a !in s.results
    ensures StoreResult(s, a, r, None, now).1 ==
            if outcome != Cancelled && s.tasks[a].Flagged() then Err(Conflict(None)) else Ok(())
  {
    assert Sound(s.tasks[a]);
    MinimalFits(r, outcome);
  }

  // Submitted to a task that has a result, it succeeds exactly if it is that result.
  lemma MinimalAgain(s: State, a: Id, r: TaskResult, outcome: Outcome, now: int)
    requires a in s.tasks && a in s.results && Minimal(r, outcome)
    ensures StoreResult(s, a, r, None, now).1 == if SameResult(s, a, r) then Ok(()) else Err(Conflict(None))
  {
    MinimalFits(r, outcome);
  }

  // A minimal result cannot fail for any other reason either.
  lemma MinimalReply(s: State, a: Id, r: TaskResult, outcome: Outcome, now: int)
    requires Underway(s, a) && Minimal(r, outcome)
    ensures StoreResult(s, a, r, None, now).1 in {Ok(()), Err(Conflict(None))}
    ensures outcome == Cancelled || !s.tasks[a].Flagged() ==> a in StoreResult(s, a, r, None, now).0.results
  {
    SubmitStores(s, a, r, None, now);
    if a in s.results {
      MinimalAgain(s, a, r, outcome, now);
    } else {
      MinimalAccepted(s, a, r, outcome, now);
    }
  }

  // ----- When an attempt is refused -----

  // The stored result has the bytes of this one.
  predicate SameResult(s: State, a: Id, r: TaskResult) {
    a in s.results && s.results[a].digest == Sha256(ResultJson.CanonicalBytes(r))
  }

  // A minimal result whose submission comes too late: another one is stored.
  predicate Beaten(s: State, trace: seq<Timed>, a: Id, r: TaskResult) {
    Stored(s, trace, a) && !SameResult(Run(s, trace), a, r)
  }

  // The cancelled fallback is not submitted, or too late.
  predicate CancelRefused(s: State, trace: seq<Timed>, a: Id, cancelled: TaskResult, p: RetryPauses) {
    var t1 := trace + p.beforeResult.history;
    Stored(s, t1, a) || Beaten(s, t1 + p.beforeRetry.history, a, cancelled)
  }

  // The RESULT_INVALID fallback is submitted too late, or over a flag and the cancelled one too late.
  predicate FallbackRefused(
    s: State, trace: seq<Timed>, a: Id, invalid: TaskResult, cancelled: TaskResult, now: int, p: RetryPauses)
  {
    if Stored(s, trace, a) then Beaten(s, trace, a, invalid)
    else
      && FlaggedIn(Run(s, trace), a)
      && CancelRefused(s, Submit(s, trace, a, invalid, None, now).trace + p.beforeTask.history, a, cancelled, p)
  }

  // The first submission failed, nothing was stored when that was checked, and the fallback is
  // refused.
  predicate Refused(
    s: State, first: Saved, a: Id, cancelled: TaskResult, invalid: TaskResult, p: PersistPauses)
  {
    var t1 := first.trace + p.beforeCheck.history;
    && first.reply.Err? && !Stored(s, t1, a)
    && FallbackRefused(s, t1 + p.beforeInvalid.history, a, invalid, cancelled, p.beforeInvalid.at, p.retryInvalid)
  }

  // ----- Each stage of the attempt -----

  // Over a flag, something is stored: the cancelled fallback or what another thread submitted.
  lemma CancelInsteadStores(
    s: State, refused: Saved, a: Id, cancelled: TaskResult, p: RetryPauses, rs: set<TaskResult>)
    requires Along(s, refused.trace, a, rs, cancelled) && FlaggedIn(Run(s, refused.trace), a)
    requires RetryPermitted(p, a, rs) && Minimal(cancelled, Cancelled) && refused.reply == Err(Conflict(None))
    ensures var saved := CancelInstead(s, refused, a, cancelled, p);
            && Along(s, saved.trace, a, rs, cancelled) && Stored(s, saved.trace, a)
            && saved.reply in {Ok(()), Err(Conflict(None))}
            && (saved.reply.Err? <==> CancelRefused(s, refused.trace, a, cancelled, p))
  {
    var t1 := refused.trace + p.beforeResult.history;
    AlongPause(s, refused.trace, p.beforeResult.history, a, rs, cancelled);
    if !Stored(s, t1, a) {
      var t2 := t1 + p.beforeRetry.history;
      AlongPause(s, t1, p.beforeRetry.history, a, rs, cancelled);
      AlongSubmit(s, t2, a, cancelled, None, p.beforeRetry.at, rs, cancelled);
      MinimalReply(Run(s, t2), a, cancelled, Cancelled, p.beforeRetry.at);
      CancelReply(Run(s, t2), a, cancelled, p.beforeRetry.at);
    }
  }

  lemma CancelReply(s: State, a: Id, cancelled: TaskResult, now: int)
    requires Underway(s, a) && Minimal(cancelled, Cancelled)
    ensures StoreResult(s, a, cancelled, None, now).1.Err? <==> a in s.results && !SameResult(s, a, cancelled)
  {
    if a in s.results {
      MinimalAgain(s, a, cancelled, Cancelled, now);
    } else {
      MinimalAccepted(s, a, cancelled, Cancelled, now);
    }
  }

  // After a conflict: the attempt goes on, and over a flag something is stored.
  lemma AfterConflictStores(
    s: State, first: Saved, a: Id, outcome: Outcome, cancelled: TaskResult, p: RetryPauses, rs: set<TaskResult>)
    requires Along(s, first.trace, a, rs, cancelled) && first.reply == Err(Conflict(None))
    requires RetryPermitted(p, a, rs) && Minimal(cancelled, Cancelled)
    ensures var saved := AfterConflict(s, first, a, outcome, cancelled, p);
            && Along(s, saved.trace, a, rs, cancelled) && saved.reply in {Ok(()), Err(Conflict(None))}
            && (saved.reply.Ok? || Stored(s, first.trace, a) ==> Stored(s, saved.trace, a))
            && (FlaggedIn(Run(s, first.trace), a) && outcome != Cancelled ==>
                  && Stored(s, saved.trace, a)
                  && (saved.reply.Err? <==> CancelRefused(s, first.trace + p.beforeTask.history, a, cancelled, p)))
  {
    var t1 := first.trace + p.beforeTask.history;
    AlongPause(s, first.trace, p.beforeTask.history, a, rs, cancelled);
    if FlaggedIn(Run(s, t1), a) && outcome != Cancelled {
      CancelInsteadStores(s, Saved(t1, first.reply), a, cancelled, p, rs);
    }
  }

  lemma RefusedSubmission(
    s: State, trace: seq<Timed>, a: Id, r: TaskResult, patch: Option<NewArtifact>, cancelled: TaskResult, now: int,
    p: RetryPauses)
    requires Submit(s, trace, a, r, patch, now).reply == Err(Conflict(None))
    ensures SubmitOrCancel(s, trace, a, r, patch, cancelled, now, p) ==
            AfterConflict(s, Submit(s, trace, a, r, patch, now), a, r.outcome, cancelled, p)
  {
  }

  /** A submission with cancel precedence: success means that a result is stored. */
  lemma SubmitOrCancelStores(
    s: State, trace: seq<Timed>, a: Id, r: TaskResult, patch: Option<NewArtifact>, cancelled: TaskResult, now: int,
    p: RetryPauses, rs: set<TaskResult>)
    requires Along(s, trace, a, rs, cancelled) && r in rs
    requires RetryPermitted(p, a, rs) && Minimal(cancelled, Cancelled)
    ensures var saved := SubmitOrCancel(s, trace, a, r, patch, cancelled, now, p);
            && Along(s, saved.trace, a, rs, cancelled)
            && (saved.reply.Ok? || Stored(s, trace, a) ==> Stored(s, saved.trace, a))
  {
    var first := Submit(s, trace, a, r, patch, now);
    AlongSubmit(s, trace, a, r, patch, now, rs, cancelled);
    if first.reply.Err? && first.reply.error.Conflict? {
      ConflictIsPlain(Run(s, trace), a, r, patch, now);
      AfterConflictStores(s, first, a, r.outcome, cancelled, p, rs);
      RefusedSubmission(s, trace, a, r, patch, cancelled, now, p);
    } else {
      assert SubmitOrCancel(s, trace, a, r, patch, cancelled, now, p) == first;
    }
  }

  lemma ConflictIsPlain(s: State, a: Id, r: TaskResult, patch: Option<NewArtifact>, now: int)
    requires StoreResult(s, a, r, patch, now).1.Err? && StoreResult(s, a, r, patch, now).1.error.Conflict?
    ensures StoreResult(s, a, r, patch, now).1 == Err(Conflict(None))
  {
  }

  /** With the RESULT_INVALID fallback a result is stored in every case. The reply is a conflict
      exactly if another result gets in before it or, over a flag, before the cancelled one. */
  lemma InvalidAlwaysStores(
    s: State, trace: seq<Timed>, a: Id, invalid: TaskResult, cancelled: TaskResult, now: int, p: RetryPauses,
    rs: set<TaskResult>)
    requires Along(s, trace, a, rs, cancelled) && invalid in rs && RetryPermitted(p, a, rs)
    requires Minimal(cancelled, Cancelled) && Minimal(invalid, ResultInvalid)
    ensures var saved := SubmitOrCancel(s, trace, a, invalid, None, cancelled, now, p);
            && Along(s, saved.trace, a, rs, cancelled) && Stored(s, saved.trace, a)
            && saved.reply ==
               if FallbackRefused(s, trace, a, invalid, cancelled, now, p) then Err(Conflict(None)) else Ok(())
  {
    var first := Submit(s, trace, a, invalid, None, now);
    AlongSubmit(s, trace, a, invalid, None, now, rs, cancelled);
    if Stored(s, trace, a) {
      MinimalAgain(Run(s, trace), a, invalid, ResultInvalid, now);
    } else {
      MinimalAccepted(Run(s, trace), a, invalid, ResultInvalid, now);
    }
    if first.reply.Ok? {
      assert SubmitOrCancel(s, trace, a, invalid, None, cancelled, now, p) == first;
    } else {
      RefusedSubmission(s, trace, a, invalid, None, cancelled, now, p);
      if Stored(s, trace, a) {
        LateConflictStays(s, first, a, invalid.outcome, cancelled, p, rs);
      } else {
        AfterConflictStores(s, first, a, invalid.outcome, cancelled, p, rs);
      }
    }
  }

  // A conflict with a stored result stays one.
  lemma LateConflictStays(
    s: State, first: Saved, a: Id, outcome: Outcome, cancelled: TaskResult, p: RetryPauses, rs: set<TaskResult>)
    requires Along(s, first.trace, a, rs, cancelled) && Stored(s, first.trace, a) && RetryPermitted(p, a, rs)
    ensures var saved := AfterConflict(s, first, a, outcome, cancelled, p);
            Along(s, saved.trace, a, rs, cancelled) && Stored(s, saved.trace, a) && saved.reply == first.reply
  {
    var t1 := first.trace + p.beforeTask.history;
    AlongPause(s, first.trace, p.beforeTask.history, a, rs, cancelled);
    AlongPause(s, t1, p.beforeResult.history, a, rs, cancelled);
  }

  lemma PersistResultStores(
    s: State, trace: seq<Timed>, a: Id, c: Completion, path: string, cancelled: TaskResult, p: PersistPauses,
    rs: set<TaskResult>)
    requires Along(s, trace, a, rs, cancelled) && TaskResultOf(c) in rs
    requires PausesPermitted(p, a, rs) && Minimal(cancelled, Cancelled)
    ensures var saved := PersistResult(s, trace, a, c, path, cancelled, p);
            Along(s, saved.trace, a, rs, cancelled) && (saved.reply.Ok? ==> Stored(s, saved.trace, a))
  {
    var r, patch := TaskResultOf(c), PatchOf(a, c, path);
    var t1 := trace + p.beforePreflight.history;
    AlongPause(s, trace, p.beforePreflight.history, a, rs, cancelled);
    if ResultResponseFits(Run(s, t1).tasks[a], r, patch) {
      var t2 := t1 + p.beforeSubmit.history;
      AlongPause(s, t1, p.beforeSubmit.history, a, rs, cancelled);
      SubmitOrCancelStores(s, t2, a, r, patch, cancelled, p.beforeSubmit.at, p.retry, rs);
      assert PersistResult(s, trace, a, c, path, cancelled, p) ==
             SubmitOrCancel(s, t2, a, r, patch, cancelled, p.beforeSubmit.at, p.retry);
    } else {
      assert PersistResult(s, trace, a, c, path, cancelled, p) == Saved(t1, Err(InvalidState));
    }
  }

  // A result is stored, and the reply is a success or a conflict.
  ghost predicate Settles(
    s: State, saved: Saved, refused: bool, a: Id, rs: set<TaskResult>, cancelled: TaskResult)
  {
    && Along(s, saved.trace, a, rs, cancelled) && Stored(s, saved.trace, a)
    && saved.reply == if refused then Err(Conflict(None)) else Ok(())
  }

  lemma InvalidInsteadSettles(
    s: State, first: Saved, a: Id, cancelled: TaskResult, invalid: TaskResult, p: PersistPauses, rs: set<TaskResult>)
    requires Along(s, first.trace, a, rs, cancelled) && first.reply.Err?
    requires invalid in rs && PausesPermitted(p, a, rs)
    requires Minimal(cancelled, Cancelled) && Minimal(invalid, ResultInvalid)
    ensures Settles(s, InvalidInstead(s, first, a, cancelled, invalid, p),
                    Refused(s, first, a, cancelled, invalid, p), a, rs, cancelled)
  {
    var t1 := first.trace + p.beforeCheck.history;
    AlongPause(s, first.trace, p.beforeCheck.history, a, rs, cancelled);
    if Stored(s, t1, a) {
      assert InvalidInstead(s, first, a, cancelled, invalid, p) == Saved(t1, Ok(()));
    } else {
      var t2 := t1 + p.beforeInvalid.history;
      AlongPause(s, t1, p.beforeInvalid.history, a, rs, cancelled);
      InvalidAlwaysStores(s, t2, a, invalid, cancelled, p.beforeInvalid.at, p.retryInvalid, rs);
    }
  }

  lemma OrInvalidSettles(
    s: State, first: Saved, a: Id, cancelled: TaskResult, invalid: TaskResult, p: PersistPauses, rs: set<TaskResult>)
    requires Along(s, first.trace, a, rs, cancelled) && (first.reply.Ok? ==> Stored(s, first.trace, a))
    requires invalid in rs && PausesPermitted(p, a, rs)
    requires Minimal(cancelled, Cancelled) && Minimal(invalid, ResultInvalid)
    ensures Settles(s, OrInvalid(s, first, a, cancelled, invalid, p), Refused(s, first, a, cancelled, invalid, p),
                    a, rs, cancelled)
  {
    OrInvalidCases(s, first, a, cancelled, invalid, p);
    match first.reply
    case Ok(unit) => assert unit == ();
    case Err(_) => InvalidInsteadSettles(s, first, a, cancelled, invalid, p, rs);
  }

  lemma OrInvalidCases(s: State, first: Saved, a: Id, cancelled: TaskResult, invalid: TaskResult, p: PersistPauses)
    ensures first.reply.Ok? ==> OrInvalid(s, first, a, cancelled, invalid, p) == first
    ensures first.reply.Err? ==>
              OrInvalid(s, first, a, cancelled, invalid, p) == InvalidInstead(s, first, a, cancelled, invalid, p)
  {
  }

  lemma PersistSomeSettles(
    s: State, trace: seq<Timed>, a: Id, c: Completion, path: string, cancelled: TaskResult, invalid: TaskResult,
    p: PersistPauses, rs: set<TaskResult>)
    requires Along(s, trace, a, rs, cancelled) && TaskResultOf(c) in rs && invalid in rs && PausesPermitted(p, a, rs)
    requires Minimal(cancelled, Cancelled) && Minimal(invalid, ResultInvalid)
    ensures Settles(s, PersistSome(s, trace, a, c, path, cancelled, invalid, p),
                    Refused(s, PersistResult(s, trace, a, c, path, cancelled, p), a, cancelled, invalid, p),
                    a, rs, cancelled)
  {
    PersistResultStores(s, trace, a, c, path, cancelled, p, rs);
    OrInvalidSettles(s, PersistResult(s, trace, a, c, path, cancelled, p), a, cancelled, invalid, p, rs);
  }

  // ----- The end of the attempt -----

  predicate ReapedIf(s: State, a: Id, reap: bool) {
    reap ==> a in s.tasks && s.tasks[a].reapedAt.Some?
  }

  lemma ReportsTerminal(s: State, trace: seq<Timed>, a: Id, rs: set<TaskResult>, cancelled: TaskResult)
    requires Along(s, trace, a, rs, cancelled) && Stored(s, trace, a)
    ensures Report(s, trace, a) == Persisted(trace, Ok(Terminal))
  {
    ResultOfTerminal(Run(s, trace), a);
  }

  lemma ReapSucceeds(s: State, a: Id, now: int)
    requires Inv(s) && a in s.results
    ensures a in s.tasks && Reap(s, a, now).1.Ok? && Reap(s, a, now).0.results == s.results
    ensures ReapedIf(Reap(s, a, now).0, a, true)
  {
    ResultOfTerminal(s, a);
  }

  // The step of the attempt that reaps.
  lemma AlongReap(s: State, trace: seq<Timed>, a: Id, now: int, rs: set<TaskResult>, cancelled: TaskResult)
    requires Along(s, trace, a, rs, cancelled) && Stored(s, trace, a)
    ensures Reap(Run(s, trace), a, now).1.Ok?
    ensures var t1 := trace + [Timed(OpReap(a), now)];
            Along(s, t1, a, rs, cancelled) && Stored(s, t1, a) && ReapedIf(Run(s, t1), a, true)
  {
    AlongOp(s, trace, OpReap(a), now, a, rs, cancelled);
    ReapRuns(s, trace, a, now);
    ReapSucceeds(Run(s, trace), a, now);
  }

  lemma ReapRuns(s: State, trace: seq<Timed>, a: Id, now: int)
    ensures Run(s, trace + [Timed(OpReap(a), now)]) == Reap(Run(s, trace), a, now).0
  {
    RunOne(s, trace, OpReap(a), now);
    assert Step(Run(s, trace), OpReap(a), now) == Reap(Run(s, trace), a, now).0;
  }

  lemma ReapedStays(s: State, trace: seq<Timed>, history: seq<Timed>, a: Id, rs: set<TaskResult>)
    requires ReapedIf(Run(s, trace), a, true) && PermittedAll(history, a, rs)
    ensures ReapedIf(Run(s, trace + history), a, true)
  {
    PausePersists(s, trace, history, a, rs);
  }

  // The attempt ends with a stored result, and a success says TERMINAL.
  ghost predicate Concludes(
    s: State, done: Persisted, a: Id, reap: bool, rs: set<TaskResult>, cancelled: TaskResult)
  {
    && Along(s, done.trace, a, rs, cancelled) && Stored(s, done.trace, a)
    && (done.reply.Ok? ==> done.reply == Ok(Terminal) && ReapedIf(Run(s, done.trace), a, reap))
    && (done.reply.Err? ==> done.reply == Err(Conflict(None)))
  }

  lemma ReapAndReportConcludes(
    s: State, trace: seq<Timed>, a: Id, reap: bool, p: PersistPauses, rs: set<TaskResult>, cancelled: TaskResult)
    requires Along(s, trace, a, rs, cancelled) && Stored(s, trace, a) && PausesPermitted(p, a, rs)
    ensures var done := ReapAndReport(s, trace, a, reap, p);
            Concludes(s, done, a, reap, rs, cancelled) && done.reply.Ok?
  {
    if reap {
      var t1 := trace + p.beforeReap.history;
      var t2 := t1 + [Timed(OpReap(a), p.beforeReap.at)];
      AlongPause(s, trace, p.beforeReap.history, a, rs, cancelled);
      AlongReap(s, t1, a, p.beforeReap.at, rs, cancelled);
      AlongPause(s, t2, p.beforePhase.history, a, rs, cancelled);
      ReapedStays(s, t2, p.beforePhase.history, a, rs);
      ReportsTerminal(s, t2 + p.beforePhase.history, a, rs, cancelled);
    } else {
      AlongPause(s, trace, p.beforePhase.history, a, rs, cancelled);
      ReportsTerminal(s, trace + p.beforePhase.history, a, rs, cancelled);
    }
  }

  lemma SaveAndReportConcludes(
    s: State, saved: Saved, refused: bool, a: Id, reap: bool, p: PersistPauses, rs: set<TaskResult>,
    cancelled: TaskResult)
    requires Settles(s, saved, refused, a, rs, cancelled) && PausesPermitted(p, a, rs)
    ensures var done := SaveAndReport(s, saved, a, reap, p);
            Concludes(s, done, a, reap, rs, cancelled) && (done.reply.Err? <==> refused)
  {
    if saved.reply.Ok? {
      ReapAndReportConcludes(s, saved.trace, a, reap, p, rs, cancelled);
      assert SaveAndReport(s, saved, a, reap, p) == ReapAndReport(s, saved.trace, a, reap, p);
    } else {
      assert SaveAndReport(s, saved, a, reap, p) == Persisted(saved.trace, Err(Conflict(None)));
    }
  }

  // The attempt stores a result, and is refused exactly if the fallbacks come too late.
  lemma CompletionConcludes(
    s: State, trace: seq<Timed>, a: Id, c: Completion, path: string, reap: bool, p: PersistPauses,
    cancelled: TaskResult, invalid: TaskResult, rs: set<TaskResult>)
    requires Along(s, trace, a, rs, cancelled) && TaskResultOf(c) in rs && invalid in rs && PausesPermitted(p, a, rs)
    requires Minimal(cancelled, Cancelled) && Minimal(invalid, ResultInvalid)
    ensures var first := PersistResult(s, trace, a, c, path, cancelled, p);
            var done := PersistCompletion(s, trace, a, c, path, cancelled, invalid, reap, p);
            && Concludes(s, done, a, reap, rs, cancelled)
            && (done.reply.Err? <==> Refused(s, first, a, cancelled, invalid, p))
  {
    PersistSomeSettles(s, trace, a, c, path, cancelled, invalid, p, rs);
    var refused := Refused(s, PersistResult(s, trace, a, c, path, cancelled, p), a, cancelled, invalid, p);
    SaveAndReportConcludes(
      s, PersistSome(s, trace, a, c, path, cancelled, invalid, p), refused, a, reap, p, rs, cancelled);
  }
}
