// What holds in every state a history of store operations can reach.
module StoreTheorems {
  import opened Prelude
  import opened TaskTypes
  import opened StoreSpec
  import ResultJson
  import opened StoreRuns
  import opened StoreInvariant
  import opened StoreFrames

  lemma TaskStepKeeps(s: State, op: Op, now: int)
    requires Inv(s) && !IsInput(op)
    ensures Inv(TaskStep(s, op, now))
  {
    match op
    case OpEnqueue(spec, request) => EnqueueKeeps(s, spec, request, now);
    case OpClaimNext(owner, limit) => ClaimNextKeeps(s, owner, limit, now);
    case OpMarkRunning(a, epoch, runtime, identity, session, turn) =>
      MarkRunningKeeps(s, a, epoch, runtime, identity, session, turn, now);
    case OpAppend(write) => AppendKeeps(s, write, now);
    case OpTransition(a, epoch, update) => TransitionKeeps(s, a, epoch, update, now);
    case OpFailClaim(a, epoch, code, text) =>
      TransitionKeeps(s, a, epoch, TerminalUpdate(RuntimeLost, Some(code), Some(text)), now);
    case OpStop(a, close, intent) => RequestStopKeeps(s, a, close, intent, now);
    case OpResume(a, message, content) => ResumeKeeps(s, a, message, content, now);
    case OpReap(a) => ReapKeeps(s, a, now);
    case OpStoreResult(a, result, patch) =>
      StoreCanonicalKeeps(s, a, result, patch, ResultJson.CanonicalBytes(result), now);
  }

  lemma InputStepKeeps(s: State, op: Op, now: int)
    requires Inv(s) && IsInput(op)
    ensures Inv(InputStep(s, op, now))
  {
    match op
    case OpInsertMessage(m, a, mode, content) => InsertMessageKeeps(s, m, a, mode, content, now);
    case OpClaimMessage(a) => ClaimMessageKeeps(s, a);
    case OpCompleteMessage(m, turn) => CompleteMessageKeeps(s, m, turn, now);
    case OpFailMessage(m, code, text) => FailMessageKeeps(s, m, code, text);
    case OpInsertRequest(r, a, correlation, kind, payload) =>
      InsertRequestKeeps(s, r, a, correlation, kind, payload, now);
    case OpClaimResponse(a, r, decision, content) => ClaimResponseKeeps(s, a, r, decision, content);
    case OpCompleteResponse(a, r) => CompleteResponseKeeps(s, a, r, now);
    case OpReleaseResponse(a, r) => ReleaseResponseKeeps(s, a, r);
  }

  lemma StepKeeps(s: State, op: Op, now: int)
    requires Inv(s)
    ensures Inv(Step(s, op, now))
  {
    if IsInput(op) {
      InputStepKeeps(s, op, now);
    } else {
      TaskStepKeeps(s, op, now);
    }
  }

  lemma {:induction false} RunKeeps(s: State, history: seq<Timed>)
    requires Inv(s)
    ensures Inv(Run(s, history))
  {
    if history != [] {
      var last := |history| - 1;
      RunKeeps(s, history[..last]);
      StepKeeps(Run(s, history[..last]), history[last].op, history[last].now);
    }
  }

  function StepMark(s: State, op: Op, now: int): Mark {
    match op
    case OpClaimNext(owner, limit) => ClaimMark(ClaimNext(s, owner, limit, now).1)
    case OpResume(a, message, content) => ResumeMark(a, Resume(s, a, message, content, now).1)
    case OpAppend(write) => AppendMark(s, write, now)
    case _ => Plain
  }

  lemma ResultFollows(s: State, a: Id, r: TaskResult, patch: Option<NewArtifact>, now: int)
    ensures Follows(s, StoreResult(s, a, r, patch, now).0, Plain, now)
  {
    StoreCanonicalFollows(s, a, r, patch, ResultJson.CanonicalBytes(r), now);
  }

  lemma TaskStepFollows(s: State, op: Op, now: int)
    requires !IsInput(op)
    ensures Follows(s, TaskStep(s, op, now), StepMark(s, op, now), now)
  {
    match op
    case OpEnqueue(spec, request) => EnqueueFollows(s, spec, request, now);
    case OpClaimNext(owner, limit) => ClaimNextFollows(s, owner, limit, now);
    case OpMarkRunning(a, epoch, runtime, identity, session, turn) =>
      MarkRunningFollows(s, a, epoch, runtime, identity, session, turn, now);
    case OpAppend(write) =>
      AppendFollows(s, write, now);
      assert TaskStep(s, op, now) == Append(s, write, now).0;
    case OpTransition(a, epoch, update) =>
      TransitionFollows(s, a, epoch, update, now);
      assert TaskStep(s, op, now) == Transition(s, a, epoch, update, now).0;
    case OpFailClaim(a, epoch, code, text) =>
      var update := TerminalUpdate(RuntimeLost, Some(code), Some(text));
      TransitionFollows(s, a, epoch, update, now);
      assert TaskStep(s, op, now) == Transition(s, a, epoch, update, now).0;
    case OpStop(a, close, intent) =>
      RequestStopFollows(s, a, close, intent, now);
      assert TaskStep(s, op, now) == RequestStop(s, a, close, intent, now).0;
    case OpResume(a, message, content) =>
      ResumeFollows(s, a, message, content, now);
      assert TaskStep(s, op, now) == Resume(s, a, message, content, now).0;
    case OpReap(a) => ReapFollows(s, a, now);
    case OpStoreResult(a, result, patch) =>
      ResultFollows(s, a, result, patch, now);
      assert TaskStep(s, op, now) == StoreResult(s, a, result, patch, now).0;
  }

  lemma InputStepFollows(s: State, op: Op, now: int)
    requires IsInput(op)
    ensures Follows(s, InputStep(s, op, now), Plain, now)
  {
    match op
    case OpInsertMessage(m, a, mode, content) => InsertMessageFollows(s, m, a, mode, content, now);
    case OpClaimMessage(a) => ClaimMessageFollows(s, a, now);
    case OpCompleteMessage(m, turn) => CompleteMessageFollows(s, m, turn, now);
    case OpFailMessage(m, code, text) => FailMessageFollows(s, m, code, text, now);
    case OpInsertRequest(r, a, correlation, kind, payload) =>
      InsertRequestFollows(s, r, a, correlation, kind, payload, now);
    case OpClaimResponse(a, r, decision, content) => ClaimResponseFollows(s, a, r, decision, content, now);
    case OpCompleteResponse(a, r) => CompleteResponseFollows(s, a, r, now);
    case OpReleaseResponse(a, r) => ReleaseResponseFollows(s, a, r, now);
  }

  lemma StepFollows(s: State, op: Op, now: int)
    ensures Follows(s, Step(s, op, now), StepMark(s, op, now), now)
  {
    if IsInput(op) {
      InputStepFollows(s, op, now);
      assert StepMark(s, op, now) == Plain;
      assert Step(s, op, now) == InputStep(s, op, now);
    } else {
      TaskStepFollows(s, op, now);
      assert Step(s, op, now) == TaskStep(s, op, now);
    }
  }
}
