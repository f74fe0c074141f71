// Natural completion against late input, for one runtime of one task. The monitor, the event
// pump, `queue_message` callers, stop and close requests and every other user of the store
// interleave; the per-task `operation` lock and the lifecycle mutex are all that orders them
// (crates/zcode-agentd/src/lib.rs).
module Fence {
  import opened Prelude
  import opened TaskTypes
  import opened StoreSpec
  import ResultJson
  import opened StoreRuns
  import opened RuntimeLifecycle
  import opened StoreHistory

  datatype Operation = OpFree | HeldByMonitor | HeldByCaller(caller: nat)

  datatype LifeLock = LifeFree | HeldInCompletion | HeldInEmit

  // `begin_natural_completion` takes the lifecycle mutex, asks the store for blockers, and
  // decides, unless the query fails; the monitor holds the operation lock throughout.
  datatype Monitor =
    | Watching | Locked | Entered | Blockers(pending: bool, queued: bool) | Decided(admission: Admission)

  // `emit` holds the lifecycle mutex from admission to its last write.
  datatype Pump = Pumping | Admitted | Requested

  // A `queue_message` caller: with a session it locks the operation and then checks ingress;
  // without one it only looks at the task row.
  datatype Caller = Holding | Allowed | Lone

  datatype World = World(
    store: State,
    life: Life,
    operation: Operation,
    lifeLock: LifeLock,
    monitor: Monitor,
    pump: Pump,
    callers: map<nat, Caller>,
    ready: bool)

  datatype Move =
    | MonitorLock
    | MonitorEnter
    | MonitorAsk
    | MonitorAskFails
    | MonitorDecide
    | MonitorUnlock
    | PumpAdmit
    | PumpRequest(request: Id, correlation: string, kind: string, payload: string, at: int)
    | PumpAppend(write: LifecycleWrite, at: int)
    | PumpDrop
    | CallerLock(caller: nat)
    | CallerCheck(caller: nat)
    | CallerInsert(caller: nat, message: Id, mode: string, content: string, at: int)
    | CallerUnlock(caller: nat)
    | LoneCheck(caller: nat)
    | LoneInsert(caller: nat, message: Id, mode: string, content: string, at: int)
    | Control(call: Call)
    | Other(op: Op, at: int)

  // The store operations that can give the task open input.
  predicate Opens(op: Op, a: Id) {
    || (op.OpInsertMessage? && op.agent == a)
    || (op.OpInsertRequest? && op.agent == a)
    || Resuming(op, a)
  }

  // A move that its guard does not allow changes nothing.
  function Moved(a: Id, w: World, move: Move): World {
    match move
    case MonitorLock =>
      if w.monitor == Watching && w.operation == OpFree
      then w.(monitor := Locked, operation := HeldByMonitor) else w
    case MonitorEnter =>
      if w.monitor != Locked || w.lifeLock != LifeFree then w
      else if w.life.phase == Live then w.(monitor := Entered, lifeLock := HeldInCompletion)
      else w.(monitor := Decided(Bypass))
    case MonitorAsk =>
      if w.monitor != Entered then w
      else w.(monitor := Blockers(HasOpenRequest(w.store.requests, a), HasOpenMessage(w.store.messages, a)))
    case MonitorAskFails =>
      if w.monitor != Entered then w else w.(monitor := Locked, lifeLock := LifeFree)
    case MonitorDecide =>
      if !w.monitor.Blockers? then w
      else
        var (life', admission) := Complete(w.life, w.monitor.pending, w.monitor.queued);
        w.(life := life', lifeLock := LifeFree, monitor := Decided(admission), ready := w.ready || admission == Ready)
    case MonitorUnlock =>
      if w.monitor == Locked || w.monitor.Decided? then w.(monitor := Watching, operation := OpFree) else w
    case PumpAdmit =>
      if w.pump != Pumping || w.lifeLock != LifeFree then w
      else if w.life.phase == Live then w.(pump := Admitted, lifeLock := HeldInEmit)
      else w.(life := Refuse(w.life))
    case PumpRequest(request, correlation, kind, payload, at) =>
      if w.pump != Admitted then w
      else w.(store := Step(w.store, OpInsertRequest(request, a, correlation, kind, payload), at), pump := Requested)
    case PumpAppend(write, at) =>
      if w.pump == Pumping then w
      else w.(store := Step(w.store, OpAppend(write), at), pump := Pumping, lifeLock := LifeFree)
    case PumpDrop =>
      if w.pump == Pumping then w else w.(pump := Pumping, lifeLock := LifeFree)
    case CallerLock(c) =>
      if c !in w.callers && w.operation == OpFree
      then w.(operation := HeldByCaller(c), callers := w.callers[c := Holding]) else w
    case CallerCheck(c) =>
      if c in w.callers && w.callers[c] == Holding && w.lifeLock == LifeFree && Ingress(w.life).None?
      then w.(callers := w.callers[c := Allowed]) else w
    case CallerInsert(c, message, mode, content, at) =>
      if c in w.callers && w.callers[c] == Allowed
      then w.(store := Step(w.store, OpInsertMessage(message, a, mode, content), at), callers := w.callers[c := Holding])
      else w
    case CallerUnlock(c) =>
      if c in w.callers && w.callers[c] != Lone then w.(operation := OpFree, callers := w.callers - {c}) else w
    case LoneCheck(c) =>
      if c !in w.callers && a in w.store.tasks && w.store.tasks[a].phase == Running && !w.store.tasks[a].Flagged()
      then w.(callers := w.callers[c := Lone]) else w
    case LoneInsert(c, message, mode, content, at) =>
      if c in w.callers && w.callers[c] == Lone
      then w.(store := Step(w.store, OpInsertMessage(message, a, mode, content), at), callers := w.callers - {c})
      else w
    case Control(call) =>
      if w.lifeLock != LifeFree || call.CallComplete? || call.CallAdmit? then w else w.(life := After(w.life, call))
    case Other(op, at) =>
      if Opens(op, a) then w else w.(store := Step(w.store, op, at))
  }

  function MovedAll(a: Id, w: World, moves: seq<Move>): World {
    if moves == [] then w else Moved(a, MovedAll(a, w, moves[..|moves| - 1]), moves[|moves| - 1])
  }

  // A caller without a session inserts a new message after the monitor has found no blockers.
  predicate Stray(a: Id, w: World, move: Move) {
    && move.LoneInsert? && (w.ready || w.monitor == Blockers(false, false))
    && move.caller in w.callers && w.callers[move.caller] == Lone
    && InsertMessage(w.store, move.message, a, move.mode, move.content, move.at).1 == Ok(true)
  }

  predicate NoStray(a: Id, w: World, moves: seq<Move>) {
    moves != [] ==>
      && NoStray(a, w, moves[..|moves| - 1])
      && !Stray(a, MovedAll(a, w, moves[..|moves| - 1]), moves[|moves| - 1])
  }

  predicate NoOpenInput(s: State, a: Id) {
    !HasOpenRequest(s.requests, a) && !HasOpenMessage(s.messages, a)
  }

  predicate Starting(w: World) {
    && w.life.phase == Live && w.operation == OpFree && w.lifeLock == LifeFree
    && w.monitor == Watching && w.pump == Pumping && w.callers == map[] && !w.ready
  }

  // Who holds which lock, and what the monitor's knowledge and its verdict rest on.
  predicate Fenced(a: Id, w: World) {
    && (w.lifeLock == HeldInCompletion <==> w.monitor == Entered || w.monitor.Blockers?)
    && (w.lifeLock == HeldInEmit <==> w.pump != Pumping)
    && (w.operation == HeldByMonitor <==> w.monitor != Watching)
    && (forall c :: c in w.callers && w.callers[c] != Lone ==> w.operation == HeldByCaller(c))
    && (w.lifeLock == HeldInCompletion ==> w.life.phase == Live)
    && (w.monitor == Blockers(false, false) ==> NoOpenInput(w.store, a))
    && (w.ready ==> w.life.phase == Ended && w.pump == Pumping && NoOpenInput(w.store, a))
    && (w.ready ==> forall c :: c in w.callers ==> w.callers[c] != Allowed)
  }

  // ----- Store operations that give the task no input -----

  predicate NoNewMessage(s: State, s': State, a: Id) {
    forall m :: m in s'.messages && s'.messages[m].agent == a && s'.messages[m].Open() ==>
                  m in s.messages && s.messages[m].agent == a && s.messages[m].Open()
  }

  predicate NoNewRequest(s: State, s': State, a: Id) {
    forall r :: r in s'.requests && s'.requests[r].agent == a && s'.requests[r].Open() ==>
                  r in s.requests && s.requests[r].agent == a && s.requests[r].Open()
  }

  predicate NoNewInput(s: State, s': State, a: Id) { NoNewMessage(s, s', a) && NoNewRequest(s, s', a) }

  lemma SettleNoNew(s: State, b: Id, reason: string, a: Id)
    ensures NoNewInput(s, Settle(s, b, reason), a)
  {
  }

  lemma ApplyNoNew(s: State, b: Id, update: TerminalUpdate, now: int, a: Id)
    requires b in s.tasks
    ensures NoNewInput(s, ApplyTerminal(s, b, update, now), a)
  {
    SettleNoNew(s, b, update.failureCode.GetOr("TASK_TERMINATED"), a);
  }

  lemma TransitionNoNew(s: State, b: Id, epoch: nat, update: TerminalUpdate, now: int, a: Id)
    ensures NoNewInput(s, Transition(s, b, epoch, update, now).0, a)
  {
    if b in s.tasks {
      ApplyNoNew(s, b, update, now, a);
    }
  }

  lemma AppendNoNew(s: State, w: LifecycleWrite, now: int, a: Id)
    ensures NoNewInput(s, Append(s, w, now).0, a)
  {
    var s' := Append(s, w, now).0;
    if s' != s {
      var s1 := Record(s, w, s.tasks[w.agent].lastEventSeq + 1, now);
      if w.terminal.Some? {
        ApplyNoNew(s1, w.agent, w.terminal.value, now, a);
        assert s' == ApplyTerminal(s1, w.agent, w.terminal.value, now);
      } else {
        assert s' == s1;
      }
    }
  }

  lemma StoreResultNoNew(s: State, b: Id, r: TaskResult, patch: Option<NewArtifact>, canonical: seq<byte>, now: int, a: Id)
    ensures NoNewInput(s, StoreCanonical(s, b, r, patch, canonical, now).0, a)
  {
    if Unstored(s, b, r, patch, canonical).None? {
      var t := s.tasks[b];
      var stored := StoredResult(r, Sha256(canonical), RetainResult(t.spec.retainPartial, r));
      var s1 := s.(artifacts := WithArtifact(s.artifacts, patch, now), results := s.results[b := stored]);
      ApplyNoNew(s1, b, TerminalUpdate(r.outcome, ResultFailureCode(t, r), t.failureMessage), now, a);
    }
  }

  lemma StopNoNew(s: State, b: Id, close: bool, intent: bool, now: int, a: Id)
    ensures NoNewInput(s, RequestStop(s, b, close, intent, now).0, a)
  {
    if b in s.tasks {
      SettleNoNew(s.(tasks := s.tasks[b := Stopping(s.tasks[b], close, intent, now)]), b, "STOP_REQUESTED", a);
    }
  }

  lemma AdmissionNoNew(s: State, op: Op, now: int, a: Id)
    requires op.OpEnqueue? || op.OpClaimNext? || op.OpMarkRunning? || op.OpReap?
    ensures NoNewInput(s, TaskStep(s, op, now), a)
  {
    if op.OpEnqueue? {
      EnqueueInput(s, op.spec, op.request, now);
    } else if op.OpClaimNext? {
      ClaimNextInput(s, op.owner, op.limit, now);
    } else {
      var s' := TaskStep(s, op, now);
      assert s'.messages == s.messages && s'.requests == s.requests;
    }
  }

  lemma EnqueueInput(s: State, spec: TaskSpec, request: BudgetRequest, now: int)
    ensures var s' := Enqueue(s, spec, request, now).0; s'.messages == s.messages && s'.requests == s.requests
  {
  }

  lemma ClaimNextInput(s: State, owner: string, limit: nat, now: int)
    ensures var s' := ClaimNext(s, owner, limit, now).0; s'.messages == s.messages && s'.requests == s.requests
  {
  }

  lemma ResumeNoNew(s: State, b: Id, message: Id, content: string, now: int, a: Id)
    requires b != a
    ensures NoNewInput(s, Resume(s, b, message, content, now).0, a)
  {
    var (s', r) := Resume(s, b, message, content, now);
    if r.Ok? {
      var m := s'.messages[message];
      assert s'.messages == s.messages[message := m] && m.agent == b;
      assert s'.requests == s.requests;
    } else {
      assert s' == s;
    }
  }

  lemma TaskStepNoNew(s: State, op: Op, now: int, a: Id)
    requires !IsInput(op) && !Resuming(op, a)
    ensures NoNewInput(s, TaskStep(s, op, now), a)
  {
    match op
    case OpAppend(write) => AppendNoNew(s, write, now, a);
    case OpTransition(b, epoch, update) => TransitionNoNew(s, b, epoch, update, now, a);
    case OpFailClaim(b, epoch, code, text) =>
      TransitionNoNew(s, b, epoch, TerminalUpdate(RuntimeLost, Some(code), Some(text)), now, a);
    case OpStop(b, close, intent) => StopNoNew(s, b, close, intent, now, a);
    case OpResume(b, message, content) => ResumeNoNew(s, b, message, content, now, a);
    case OpStoreResult(b, result, patch) =>
      StoreResultNoNew(s, b, result, patch, ResultJson.CanonicalBytes(result), now, a);
    case _ => AdmissionNoNew(s, op, now, a);
  }

  lemma InsertMessageNoNew(s: State, m: Id, b: Id, mode: string, content: string, now: int, a: Id)
    requires b != a
    ensures NoNewInput(s, InsertMessage(s, m, b, mode, content, now).0, a)
  {
  }

  lemma PutMessageNoNew(s: State, m: Id, to: Message, a: Id)
    requires m in s.messages && to.agent == s.messages[m].agent && (to.Open() ==> s.messages[m].Open())
    ensures NoNewInput(s, s.(messages := s.messages[m := to]), a)
  {
  }

  lemma ClaimMessageNoNew(s: State, b: Id, a: Id)
    ensures NoNewInput(s, ClaimMessage(s, b).0, a)
  {
    var (s', r) := ClaimMessage(s, b);
    if r.Ok? && r.value.Some? {
      var m := r.value.value;
      assert m in QueuedFor(s, b);
      PutMessageNoNew(s, m, s.messages[m].(state := MsgSending), a);
    } else {
      assert s' == s;
    }
  }

  lemma MessageNoNew(s: State, op: Op, now: int, a: Id)
    requires op.OpCompleteMessage? || op.OpFailMessage?
    ensures NoNewInput(s, InputStep(s, op, now), a)
  {
    var s' := InputStep(s, op, now);
    if s' != s {
      var m := op.message;
      assert s' == s.(messages := s.messages[m := s'.messages[m]]);
      PutMessageNoNew(s, m, s'.messages[m], a);
    }
  }

  // One request is added or changed, an open request of the task only if it was one before.
  lemma PutRequestNoNew(s: State, s': State, r: Id, a: Id)
    requires s'.messages == s.messages && r in s'.requests && s'.requests == s.requests[r := s'.requests[r]]
    requires s'.requests[r].agent == a && s'.requests[r].Open() ==>
               r in s.requests && s.requests[r].agent == a && s.requests[r].Open()
    ensures NoNewInput(s, s', a)
  {
  }

  lemma InsertRequestNoNew(s: State, r: Id, b: Id, correlation: string, kind: string, payload: string, now: int, a: Id)
    requires b != a
    ensures NoNewInput(s, InsertRequest(s, r, b, correlation, kind, payload, now).0, a)
  {
    var s' := InsertRequest(s, r, b, correlation, kind, payload, now).0;
    assert s'.messages == s.messages;
    if s' != s {
      assert s'.requests == s.requests[r := Request(b, correlation, kind, payload, ReqPending, now, None, None, None)];
      PutRequestNoNew(s, s', r, a);
    }
  }

  lemma ResponseNoNew(s: State, op: Op, now: int, a: Id)
    requires op.OpClaimResponse? || op.OpCompleteResponse? || op.OpReleaseResponse?
    ensures NoNewInput(s, InputStep(s, op, now), a)
  {
    match op
    case OpClaimResponse(b, r, decision, answer) => ClaimResponseNoNew(s, b, r, decision, answer, a);
    case OpCompleteResponse(b, r) => CompleteResponseNoNew(s, b, r, now, a);
    case OpReleaseResponse(b, r) => ReleaseResponseNoNew(s, b, r, a);
  }

  lemma ClaimResponseNoNew(s: State, b: Id, r: Id, decision: string, answer: Option<string>, a: Id)
    ensures NoNewInput(s, ClaimResponse(s, b, r, decision, answer).0, a)
  {
  }

  lemma CompleteResponseNoNew(s: State, b: Id, r: Id, now: int, a: Id)
    ensures NoNewInput(s, CompleteResponse(s, b, r, now).0, a)
  {
    var s' := CompleteResponse(s, b, r, now).0;
    assert s'.messages == s.messages;
    if s' != s {
      assert s'.requests == s.requests[r := s.requests[r].(state := ReqResponded, respondedAt := Some(now))];
      PutRequestNoNew(s, s', r, a);
    }
  }

  lemma ReleaseResponseNoNew(s: State, b: Id, r: Id, a: Id)
    ensures NoNewInput(s, ReleaseResponse(s, b, r).0, a)
  {
  }

  lemma InputStepNoNew(s: State, op: Op, now: int, a: Id)
    requires IsInput(op) && !Opens(op, a)
    ensures NoNewInput(s, InputStep(s, op, now), a)
  {
    match op
    case OpInsertMessage(m, b, mode, content) => InsertMessageNoNew(s, m, b, mode, content, now, a);
    case OpInsertRequest(r, b, correlation, kind, payload) =>
      InsertRequestNoNew(s, r, b, correlation, kind, payload, now, a);
    case OpClaimResponse(b, r, decision, answer) => ResponseNoNew(s, op, now, a);
    case OpCompleteResponse(b, r) => ResponseNoNew(s, op, now, a);
    case OpReleaseResponse(b, r) => ResponseNoNew(s, op, now, a);
    case OpClaimMessage(b) => ClaimMessageNoNew(s, b, a);
    case _ => MessageNoNew(s, op, now, a);
  }

  lemma StaysClosed(s: State, op: Op, now: int, a: Id)
    requires NoOpenInput(s, a) && !Opens(op, a)
    ensures NoOpenInput(Step(s, op, now), a)
  {
    if IsInput(op) {
      InputStepNoNew(s, op, now, a);
    } else {
      TaskStepNoNew(s, op, now, a);
    }
  }

  // ----- The invariant -----

  lemma MonitorKeeps(a: Id, w: World, move: Move)
    requires Fenced(a, w)
    requires || move.MonitorLock? || move.MonitorEnter? || move.MonitorAsk? || move.MonitorAskFails? || move.MonitorDecide?
             || move.MonitorUnlock?
    ensures Fenced(a, Moved(a, w, move))
  {
  }

  lemma PumpKeeps(a: Id, w: World, move: Move)
    requires Fenced(a, w)
    requires move.PumpAdmit? || move.PumpRequest? || move.PumpAppend? || move.PumpDrop?
    ensures Fenced(a, Moved(a, w, move))
  {
    if move.PumpAppend? && NoOpenInput(w.store, a) {
      StaysClosed(w.store, OpAppend(move.write), move.at, a);
    }
  }

  lemma CallerKeeps(a: Id, w: World, move: Move)
    requires Fenced(a, w) && !Stray(a, w, move)
    requires move.CallerLock? || move.CallerCheck? || move.CallerInsert? || move.CallerUnlock?
             || move.LoneCheck?
    ensures Fenced(a, Moved(a, w, move))
  {
  }

  lemma LoneKeeps(a: Id, w: World, move: Move)
    requires Fenced(a, w) && !Stray(a, w, move) && move.LoneInsert?
    ensures Fenced(a, Moved(a, w, move))
  {
    var (store', r) := InsertMessage(w.store, move.message, a, move.mode, move.content, move.at);
    if r != Ok(true) {
      assert store' == w.store;
    }
  }

  lemma MoveKeeps(a: Id, w: World, move: Move)
    requires Fenced(a, w) && !Stray(a, w, move)
    ensures Fenced(a, Moved(a, w, move))
  {
    match move
    case Other(op, at) =>
      if NoOpenInput(w.store, a) && !Opens(op, a) {
        StaysClosed(w.store, op, at, a);
      }
    case Control(call) =>
      PhaseOnlyAdvances(w.life, [call]);
      assert [call][..0] == [];
    case MonitorLock => MonitorKeeps(a, w, move);
    case MonitorEnter => MonitorKeeps(a, w, move);
    case MonitorAsk => MonitorKeeps(a, w, move);
    case MonitorAskFails => MonitorKeeps(a, w, move);
    case MonitorDecide => MonitorKeeps(a, w, move);
    case MonitorUnlock => MonitorKeeps(a, w, move);
    case PumpAdmit => PumpKeeps(a, w, move);
    case PumpRequest(_, _, _, _, _) => PumpKeeps(a, w, move);
    case PumpAppend(_, _) => PumpKeeps(a, w, move);
    case PumpDrop => PumpKeeps(a, w, move);
    case LoneInsert(_, _, _, _, _) => LoneKeeps(a, w, move);
    case _ => CallerKeeps(a, w, move);
  }

  /** In every interleaving without stray insertions, once natural completion was admitted the task
      has no open message and no open request, whatever runs afterwards. */
  lemma {:induction false} ReadyFencesInput(a: Id, w: World, moves: seq<Move>)
    requires Starting(w) && NoStray(a, w, moves)
    ensures Fenced(a, MovedAll(a, w, moves))
    ensures MovedAll(a, w, moves).ready ==> NoOpenInput(MovedAll(a, w, moves).store, a)
  {
    if moves != [] {
      ReadyFencesInput(a, w, moves[..|moves| - 1]);
      MoveKeeps(a, MovedAll(a, w, moves[..|moves| - 1]), moves[|moves| - 1]);
    }
  }

  /** So open input cannot refuse the COMPLETED result: it is stored whenever the task is still
      owned and unflagged and the submission itself is acceptable. */
  lemma CompletionIsNotBlocked(
    a: Id, w: World, moves: seq<Move>, r: TaskResult, patch: Option<NewArtifact>, canonical: seq<byte>, now: int)
    requires Starting(w) && NoStray(a, w, moves) && MovedAll(a, w, moves).ready
    requires var s := MovedAll(a, w, moves).store;
             a in s.tasks && s.tasks[a].Owned() && !s.tasks[a].Flagged() && a !in s.results
    requires r.outcome == Completed && ValidResult(r) && ValidPatch(a, r, patch)
    ensures var s := MovedAll(a, w, moves).store;
            StoreCanonical(s, a, r, patch, canonical, now).1.Ok? <==>
            && |canonical| <= s.tasks[a].budget.maxResultBytes
            && (patch.Some? ==> ArtifactRefusal(s.artifacts, patch.value).None?)
  {
    ReadyFencesInput(a, w, moves);
  }

  lemma NewMessageIsOpen(s: State, message: Id, a: Id, mode: string, content: string, now: int)
    requires InsertMessage(s, message, a, mode, content, now).1 == Ok(true)
    ensures HasOpenMessage(InsertMessage(s, message, a, mode, content, now).0.messages, a)
  {
    var s' := InsertMessage(s, message, a, mode, content, now).0;
    assert message in s'.messages && s'.messages[message].Open();
  }

  /** The condition is exact: of all moves in a fenced world, the stray insertions and no others
      break the fence. */
  lemma OnlyStraysBreakFence(a: Id, w: World, move: Move)
    requires Fenced(a, w)
    ensures Fenced(a, Moved(a, w, move)) <==> !Stray(a, w, move)
  {
    if Stray(a, w, move) {
      NewMessageIsOpen(w.store, move.message, a, move.mode, move.content, move.at);
      assert Moved(a, w, move).store == InsertMessage(w.store, move.message, a, move.mode, move.content, move.at).0;
    } else {
      MoveKeeps(a, w, move);
    }
  }

  /** Each of them leaves an admitted completion with an open message, if not at once then with the
      monitor's verdict. */
  lemma StrayInsertionStrands(a: Id, w: World, move: Move)
    requires Fenced(a, w) && Stray(a, w, move)
    ensures var w1 := Moved(a, w, move);
            var w2 := if w.ready then w1 else Moved(a, w1, MonitorDecide);
            w2.ready && HasOpenMessage(w2.store.messages, a)
  {
    NewMessageIsOpen(w.store, move.message, a, move.mode, move.content, move.at);
    assert Moved(a, w, move).store == InsertMessage(w.store, move.message, a, move.mode, move.content, move.at).0;
  }

  lemma OneMore(a: Id, w: World, moves: seq<Move>, move: Move, w': World)
    requires Moved(a, MovedAll(a, w, moves), move) == w'
    ensures MovedAll(a, w, moves + [move]) == w'
  {
    assert (moves + [move])[..|moves|] == moves;
  }

  const ENTERING := [LoneCheck(0), MonitorLock, MonitorEnter]
  const COMPLETING := ENTERING + [MonitorAsk] + [MonitorDecide]

  function WithEntered(w: World): World {
    w.(callers := map[0 := Lone], monitor := Entered, operation := HeldByMonitor, lifeLock := HeldInCompletion)
  }

  lemma EnteringRun(a: Id, w: World)
    requires Starting(w)
    requires a in w.store.tasks && w.store.tasks[a].phase == Running && !w.store.tasks[a].Flagged()
    ensures MovedAll(a, w, ENTERING) == WithEntered(w)
  {
    var w1 := w.(callers := map[0 := Lone]);
    var w2 := w1.(monitor := Locked, operation := HeldByMonitor);
    OneMore(a, w, [], LoneCheck(0), w1);
    OneMore(a, w, [LoneCheck(0)], MonitorLock, w2);
    OneMore(a, w, [LoneCheck(0), MonitorLock], MonitorEnter, WithEntered(w));
    assert ENTERING == [LoneCheck(0), MonitorLock] + [MonitorEnter];
  }

  lemma CompletingRun(a: Id, w: World)
    requires Starting(w) && NoOpenInput(w.store, a)
    requires a in w.store.tasks && w.store.tasks[a].phase == Running && !w.store.tasks[a].Flagged()
    ensures MovedAll(a, w, COMPLETING) ==
            WithEntered(w).(life := Terminalize(w.life), lifeLock := LifeFree, monitor := Decided(Ready), ready := true)
  {
    EnteringRun(a, w);
    var w4 := WithEntered(w).(monitor := Blockers(false, false));
    OneMore(a, w, ENTERING, MonitorAsk, w4);
    OneMore(a, w, ENTERING + [MonitorAsk], MonitorDecide, Moved(a, w4, MonitorDecide));
  }

  /** And such a run exists from every start in which the task runs without open input: the caller
      sees a RUNNING row and no session, the monitor completes, the caller inserts. */
  lemma StrayRunExists(a: Id, w: World, message: Id, content: string, now: int)
    requires Starting(w) && NoOpenInput(w.store, a) && message !in w.store.messages
    requires a in w.store.tasks && w.store.tasks[a].phase == Running && !w.store.tasks[a].Flagged()
    ensures var w' := MovedAll(a, w, COMPLETING + [LoneInsert(0, message, "queue", content, now)]);
            w'.ready && HasOpenMessage(w'.store.messages, a)
  {
    CompletingRun(a, w);
    var w5 := MovedAll(a, w, COMPLETING);
    var insert := LoneInsert(0, message, "queue", content, now);
    LateInsertion(a, w5, message, content, now);
    OneMore(a, w, COMPLETING, insert, Moved(a, w5, insert));
  }

  lemma LateInsertion(a: Id, w: World, message: Id, content: string, now: int)
    requires w.ready && w.callers == map[0 := Lone] && message !in w.store.messages
    requires a in w.store.tasks && w.store.tasks[a].phase == Running && !w.store.tasks[a].Flagged()
    ensures var w' := Moved(a, w, LoneInsert(0, message, "queue", content, now));
            w'.ready && HasOpenMessage(w'.store.messages, a)
  {
    NewMessageIsOpen(w.store, message, a, "queue", content, now);
    assert Moved(a, w, LoneInsert(0, message, "queue", content, now)).store ==
           InsertMessage(w.store, message, a, "queue", content, now).0;
  }
}
