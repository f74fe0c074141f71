// Histories of store operations, each with the time at which it ran.
module StoreRuns {
  import opened Prelude
  import opened TaskTypes
  import opened StoreSpec

  datatype Op =
    | OpEnqueue(spec: TaskSpec, request: BudgetRequest)
    | OpClaimNext(owner: string, limit: nat)
    | OpMarkRunning(agent: Id, epoch: nat, runtime: string, identity: Option<ProcessIdentity>,
                    session: Option<string>, turn: Option<TurnState>)
    | OpAppend(write: LifecycleWrite)
    | OpTransition(agent: Id, epoch: nat, update: TerminalUpdate)
    | OpFailClaim(agent: Id, epoch: nat, code: string, text: string)
    | OpStop(agent: Id, close: bool, intent: bool)
    | OpResume(agent: Id, message: Id, content: string)
    | OpReap(agent: Id)
    | OpStoreResult(agent: Id, result: TaskResult, patch: Option<NewArtifact>)
    | OpInsertMessage(message: Id, agent: Id, mode: string, content: string)
    | OpClaimMessage(agent: Id)
    | OpCompleteMessage(message: Id, target: Option<string>)
    | OpFailMessage(message: Id, code: string, text: string)
    | OpInsertRequest(request_: Id, agent: Id, correlation: string, kind: string, payload: string)
    | OpClaimResponse(agent: Id, request_: Id, decision: string, answer: Option<string>)
    | OpCompleteResponse(agent: Id, request_: Id)
    | OpReleaseResponse(agent: Id, request_: Id)

  // Messages and pending requests.
  predicate IsInput(op: Op) {
    || op.OpInsertMessage? || op.OpClaimMessage? || op.OpCompleteMessage? || op.OpFailMessage?
    || op.OpInsertRequest? || op.OpClaimResponse? || op.OpCompleteResponse? || op.OpReleaseResponse?
  }

  function InputStep(s: State, op: Op, now: int): State
    requires IsInput(op)
  {
    match op
    case OpInsertMessage(m, a, mode, content) => InsertMessage(s, m, a, mode, content, now).0
    case OpClaimMessage(a) => ClaimMessage(s, a).0
    case OpCompleteMessage(m, turn) => CompleteMessage(s, m, turn, now).0
    case OpFailMessage(m, code, text) => FailMessage(s, m, code, text).0
    case OpInsertRequest(r, a, correlation, kind, payload) =>
      InsertRequest(s, r, a, correlation, kind, payload, now).0
    case OpClaimResponse(a, r, decision, content) => ClaimResponse(s, a, r, decision, content).0
    case OpCompleteResponse(a, r) => CompleteResponse(s, a, r, now).0
    case OpReleaseResponse(a, r) => ReleaseResponse(s, a, r).0
  }

  function TaskStep(s: State, op: Op, now: int): State
    requires !IsInput(op)
  {
    match op
    case OpEnqueue(spec, request) => Enqueue(s, spec, request, now).0
    case OpClaimNext(owner, limit) => ClaimNext(s, owner, limit, now).0
    case OpMarkRunning(a, epoch, runtime, identity, session, turn) =>
      MarkRunning(s, a, epoch, runtime, identity, session, turn, now).0
    case OpAppend(write) => Append(s, write, now).0
    case OpTransition(a, epoch, update) => Transition(s, a, epoch, update, now).0
    case OpFailClaim(a, epoch, code, text) => FailClaim(s, a, epoch, code, text, now).0
    case OpStop(a, close, intent) => RequestStop(s, a, close, intent, now).0
    case OpResume(a, message, content) => Resume(s, a, message, content, now).0
    case OpReap(a) => Reap(s, a, now).0
    case OpStoreResult(a, result, patch) => StoreResult(s, a, result, patch, now).0
  }

  function Step(s: State, op: Op, now: int): State {
    if IsInput(op) then InputStep(s, op, now) else TaskStep(s, op, now)
  }

  datatype Timed = Timed(op: Op, now: int)

  function Run(s: State, history: seq<Timed>): State {
    if history == [] then s
    else
      var last := |history| - 1;
      Step(Run(s, history[..last]), history[last].op, history[last].now)
  }

  lemma {:induction false} RunConcat(s: State, first: seq<Timed>, second: seq<Timed>)
    ensures Run(s, first + second) == Run(Run(s, first), second)
  {
    if second == [] {
      assert first + second == first;
    } else {
      var last := |second| - 1;
      RunConcat(s, first, second[..last]);
      assert (first + second)[..|first| + last] == first + second[..last];
    }
  }

  lemma RunOne(s: State, trace: seq<Timed>, op: Op, now: int)
    ensures Run(s, trace + [Timed(op, now)]) == Step(Run(s, trace), op, now)
  {
    assert (trace + [Timed(op, now)])[..|trace|] == trace;
  }

  ghost predicate Reachable(s: State) {
    exists history :: Run(EMPTY, history) == s
  }
}
