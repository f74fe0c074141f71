// How rows evolve from one state to the next: what no operation undoes.
module StoreFrames {
  import opened Prelude
  import opened TaskTypes
  import opened StoreSpec
  import opened StoreInvariant

  // The operations that do to one task what no other does.
  datatype Mark = Plain | Claims(agent: Id) | Resumes(agent: Id) | Writes(event: Event)
  {
    predicate MayTouch(a: Id) {
      match this
      case Plain => true
      case Claims(b) => a == b
      case Resumes(b) => a == b
      case Writes(e) => a == e.agent
    }

    function Rows(): seq<Event> {
      if Writes? then [event] else []
    }
  }

  // An admitted task: it holds one of its repository's slots.
  predicate Busy(t: Task) { t.phase in {Preparing, Running, WaitingInput} }

  // What holds of a row and its successor unless the task is resumed.
  predicate Onward(t: Task, t': Task) {
    && (t.stopRequested ==> t'.stopRequested) && (t.closeRequested ==> t'.closeRequested)
    && (t.reapedAt.Some? ==> t'.reapedAt.Some?) && (t.closedAt.Some? ==> t'.closedAt.Some?)
    && (t'.closedAt.Some? ==> t.closedAt.Some? || t'.closeRequested)
    && (t.phase == Terminal ==> t'.phase == Terminal && t'.outcome == t.outcome)
    && (t.phase != Terminal && t'.phase == Terminal && t.Flagged() ==> t'.outcome == Some(Cancelled))
    && (t.phase == Cancelling ==> t'.phase in {Cancelling, Terminal})
  }

  predicate WritesFor(mark: Mark, a: Id) { mark.Writes? && mark.event.agent == a }

  predicate RowStep(a: Id, t: Task, t': Task, mark: Mark) {
    && SameRow(t, t') && t'.createdAt == t.createdAt
    && t'.ownerEpoch == (if mark == Claims(a) then t.ownerEpoch + 1 else t.ownerEpoch)
    && (mark == Claims(a) ==> t.phase == Queued && t'.phase == Preparing)
    && (Busy(t') ==> Busy(t) || mark == Claims(a))
    && t'.lastEventSeq == (if mark == Resumes(a) then 0 else t.lastEventSeq + (if WritesFor(mark, a) then 1 else 0))
    && (WritesFor(mark, a) ==> mark.event.seqNo == t'.lastEventSeq)
    && (mark == Resumes(a) || Onward(t, t'))
  }

  ghost predicate TasksStep(tasks: map<Id, Task>, tasks': map<Id, Task>, mark: Mark) {
    && (forall a :: a in tasks ==> a in tasks' && RowStep(a, tasks[a], tasks'[a], mark))
    && (forall a :: a in tasks' && a !in tasks ==>
                      tasks'[a].phase == Queued && tasks'[a].ownerEpoch == 0 && tasks'[a].lastEventSeq == 0)
  }

  predicate MessageMoves(m: MessageState, m': MessageState) {
    match m
    case MsgQueued => true
    case MsgSending => m' != MsgQueued
    case MsgDelivered => m' == MsgDelivered
    case MsgFailed => m' == MsgFailed
  }

  predicate MessageStep(m: Message, m': Message) {
    m'.rowid == m.rowid && m'.agent == m.agent && m'.createdAt == m.createdAt && m'.content == m.content &&
    MessageMoves(m.state, m'.state)
  }

  // Existing messages move forward; new ones are queued and dated now.
  ghost predicate MessagesStep(messages: map<Id, Message>, messages': map<Id, Message>, now: int) {
    && (forall m :: m in messages ==> m in messages' && MessageStep(messages[m], messages'[m]))
    && (forall m :: m in messages' && m !in messages ==> messages'[m].createdAt == now)
  }

  ghost predicate ResultsStep(results: map<Id, StoredResult>, results': map<Id, StoredResult>, mark: Mark) {
    forall a :: a in results && mark != Resumes(a) ==> a in results' && results'[a] == results[a]
  }

  // Append-only tables.
  ghost predicate LogsGrow(s: State, s': State, mark: Mark) {
    && s.order <= s'.order && s.messageOrder <= s'.messageOrder
    && s.ledger <= s'.ledger && |s'.ledger| <= |s.ledger| + 1
    && s'.events == s.events + mark.Rows()
    && (forall x :: x in s.artifacts ==> x in s'.artifacts && s'.artifacts[x] == s.artifacts[x])
  }

  ghost predicate Follows(s: State, s': State, mark: Mark, now: int) {
    TasksStep(s.tasks, s'.tasks, mark) && MessagesStep(s.messages, s'.messages, now) &&
    ResultsStep(s.results, s'.results, mark) && LogsGrow(s, s', mark)
  }

  lemma PutStep(tasks: map<Id, Task>, a: Id, t': Task, mark: Mark)
    requires a in tasks && RowStep(a, tasks[a], t', mark)
    requires mark.MayTouch(a)
    ensures TasksStep(tasks, tasks[a := t'], mark)
  {
  }

  lemma FailStep(messages: map<Id, Message>, a: Id, reason: string, now: int)
    ensures MessagesStep(messages, FailOpen(messages, a, reason), now)
  {
  }

  // ----- The shapes a step can have -----

  lemma StayFollows(s: State, requests: map<Id, Request>, now: int)
    ensures Follows(s, s.(requests := requests), Plain, now)
  {
  }

  lemma PutMessageFollows(s: State, id: Id, m': Message, now: int)
    requires id in s.messages && MessageStep(s.messages[id], m')
    ensures Follows(s, s.(messages := s.messages[id := m']), Plain, now)
  {
  }

  lemma AddMessageFollows(s: State, id: Id, m: Message, now: int)
    requires id !in s.messages && m.createdAt == now
    ensures Follows(s, WithMessage(s, id, m), Plain, now)
  {
  }

  lemma PutFollows(
    s: State, a: Id, t': Task, requests: map<Id, Request>, log: seq<LedgerRow>, mark: Mark, now: int)
    requires a in s.tasks && RowStep(a, s.tasks[a], t', mark) && mark.MayTouch(a) && |log| <= 1
    ensures var (events, ledger) := (s.events + mark.Rows(), s.ledger + log);
            Follows(s, s.(tasks := s.tasks[a := t'], events := events, requests := requests, ledger := ledger), mark, now)
  {
    PutStep(s.tasks, a, t', mark);
  }

  lemma MoveFollows(s: State, a: Id, t': Task, requests: map<Id, Request>, log: seq<LedgerRow>, mark: Mark, now: int)
    requires a in s.tasks && RowStep(a, s.tasks[a], t', mark) && mark.MayTouch(a) && |log| <= 1 && !mark.Writes?
    ensures Follows(s, s.(tasks := s.tasks[a := t'], requests := requests, ledger := s.ledger + log), mark, now)
  {
    PutFollows(s, a, t', requests, log, mark, now);
    assert s.events + mark.Rows() == s.events;
  }

  // A task row changes and its open input is settled; a first result may be added.
  lemma SettleFollows(
    s: State, a: Id, t': Task, results: map<Id, StoredResult>, log: seq<LedgerRow>, reason: string, mark: Mark, now: int)
    requires a in s.tasks && RowStep(a, s.tasks[a], t', mark) && mark.MayTouch(a) && |log| <= 1
    requires ResultsStep(s.results, results, mark)
    ensures Follows(
              s,
              Settle(s.(tasks := s.tasks[a := t'], events := s.events + mark.Rows(), results := results), a, reason)
              .(ledger := s.ledger + log),
              mark, now)
  {
    PutStep(s.tasks, a, t', mark);
    FailStep(s.messages, a, reason, now);
  }

  lemma StopFollows(
    s: State, a: Id, t': Task, results: map<Id, StoredResult>, log: seq<LedgerRow>, reason: string, now: int)
    requires a in s.tasks && RowStep(a, s.tasks[a], t', Plain) && |log| <= 1
    requires ResultsStep(s.results, results, Plain)
    ensures Follows(
              s, Settle(s.(tasks := s.tasks[a := t'], results := results), a, reason).(ledger := s.ledger + log), Plain, now)
  {
    SettleFollows(s, a, t', results, log, reason, Plain, now);
    assert s.events + Plain.Rows() == s.events;
  }

  // ----- Operation by operation -----

  lemma InsertFollows(s: State, spec: TaskSpec, budget: Budget, now: int)
    requires spec.agentId !in s.tasks
    ensures Follows(s, Insert(s, spec, budget, now), Plain, now)
  {
  }

  lemma EnqueueFollows(s: State, spec: TaskSpec, request: BudgetRequest, now: int)
    ensures Follows(s, Enqueue(s, spec, request, now).0, Plain, now)
  {
    var (s', r) := Enqueue(s, spec, request, now);
    if r == Ok(Created) {
      InsertFollows(s, spec, ResolveBudget(request).value, now);
      assert s' == Insert(s, spec, ResolveBudget(request).value, now);
    } else {
      StayFollows(s, s.requests, now);
      assert s' == s.(requests := s.requests);
    }
  }

  function ClaimMark(r: Reply<Option<Id>>): Mark {
    if r.Ok? && r.value.Some? then Claims(r.value.value) else Plain
  }

  lemma ClaimFollows(s: State, a: Id, owner: string, now: int)
    requires a in s.tasks && s.tasks[a].phase == Queued
    ensures Follows(s, Claim(s, a, owner, now), Claims(a), now)
  {
    var t' := ClaimedBy(s.tasks[a], owner, now);
    MoveFollows(s, a, t', s.requests,
                [LedgerRow(a, t'.ownerEpoch, Some(Queued), Preparing, None, Some("CLAIMED"), now)], Claims(a), now);
  }

  lemma ClaimNextFollows(s: State, owner: string, limit: nat, now: int)
    ensures Follows(s, ClaimNext(s, owner, limit, now).0, ClaimMark(ClaimNext(s, owner, limit, now).1), now)
  {
    var (s', r) := ClaimNext(s, owner, limit, now);
    if r.Ok? && r.value.Some? {
      var a := r.value.value;
      assert a in Claimable(s, limit);
      ClaimFollows(s, a, owner, now);
      assert s' == Claim(s, a, owner, now);
    } else {
      StayFollows(s, s.requests, now);
      assert s' == s.(requests := s.requests);
    }
  }

  lemma MarkRunningFollows(
    s: State, a: Id, epoch: nat, runtime: string, identity: Option<ProcessIdentity>,
    session: Option<string>, turn: Option<TurnState>, now: int)
    ensures Follows(s, MarkRunning(s, a, epoch, runtime, identity, session, turn, now).0, Plain, now)
  {
    var (s', r) := MarkRunning(s, a, epoch, runtime, identity, session, turn, now);
    if r == Ok(true) {
      var t' := RunningAs(s.tasks[a], runtime, identity, session, turn, now);
      var log := [LedgerRow(a, epoch, Some(Preparing), Running, None, Some("RUNTIME_STARTED"), now)];
      MoveFollows(s, a, t', s.requests, log, Plain, now);
      assert s' == s.(tasks := s.tasks[a := t'], requests := s.requests, ledger := s.ledger + log);
    } else {
      StayFollows(s, s.requests, now);
      assert s' == s.(requests := s.requests);
    }
  }

  lemma TransitionFollows(s: State, a: Id, epoch: nat, update: TerminalUpdate, now: int)
    ensures Follows(s, Transition(s, a, epoch, update, now).0, Plain, now)
  {
    var s' := Transition(s, a, epoch, update, now).0;
    if a in s.tasks && s.tasks[a].phase != Terminal && s.tasks[a].ownerEpoch == epoch {
      StopFollows(s, a, Ended(s.tasks[a], update, now), s.results, [EndRow(a, s.tasks[a], update, now)],
                  update.failureCode.GetOr("TASK_TERMINATED"), now);
      assert s' == ApplyTerminal(s, a, update, now);
    } else {
      StayFollows(s, s.requests, now);
      assert s' == s.(requests := s.requests);
    }
  }

  function AppendMark(s: State, w: LifecycleWrite, now: int): Mark {
    if w.sourceSeq <= I64_MAX && FindSource(s.events, w).None? && AppendRefusal(s, w).None?
    then Writes(NewEvent(w, s.tasks[w.agent].lastEventSeq + 1, now)) else Plain
  }

  lemma AdmitOpenFollows(s: State, w: LifecycleWrite, n: nat, now: int)
    requires w.agent in s.tasks && w.terminal.None? && n == s.tasks[w.agent].lastEventSeq + 1
    ensures Follows(s, Admit(s, w, n, now), Writes(NewEvent(w, n, now)), now)
  {
    var s1 := Record(s, w, n, now);
    PutFollows(s, w.agent, s1.tasks[w.agent], s.requests, [], Writes(NewEvent(w, n, now)), now);
    assert s1 == s.(tasks := s.tasks[w.agent := s1.tasks[w.agent]], events := s.events + [NewEvent(w, n, now)],
                 requests := s.requests, ledger := s.ledger + []);
  }

  lemma AdmitEndShape(s: State, w: LifecycleWrite, n: nat, now: int, t1: Task)
    requires w.agent in s.tasks && w.terminal.Some? && t1 == Record(s, w, n, now).tasks[w.agent]
    ensures Admit(s, w, n, now) ==
            Settle(s.(tasks := s.tasks[w.agent := Ended(t1, w.terminal.value, now)],
                   events := s.events + [NewEvent(w, n, now)], results := s.results),
                   w.agent, w.terminal.value.failureCode.GetOr("TASK_TERMINATED"))
            .(ledger := s.ledger + [EndRow(w.agent, t1, w.terminal.value, now)])
  {
    var t' := Ended(t1, w.terminal.value, now);
    assert Record(s, w, n, now).tasks[w.agent := t'] == s.tasks[w.agent := t'];
  }

  lemma AdmitEndFollows(s: State, w: LifecycleWrite, n: nat, now: int)
    requires w.agent in s.tasks && s.tasks[w.agent].phase != Terminal && w.terminal.Some?
    requires n == s.tasks[w.agent].lastEventSeq + 1
    ensures Follows(s, Admit(s, w, n, now), Writes(NewEvent(w, n, now)), now)
  {
    var a, update, t1 := w.agent, w.terminal.value, Record(s, w, n, now).tasks[w.agent];
    AdmitEndShape(s, w, n, now, t1);
    SettleFollows(s, a, Ended(t1, update, now), s.results, [EndRow(a, t1, update, now)],
                  update.failureCode.GetOr("TASK_TERMINATED"), Writes(NewEvent(w, n, now)), now);
  }

  lemma AdmitFollows(s: State, w: LifecycleWrite, n: nat, now: int)
    requires w.agent in s.tasks && s.tasks[w.agent].phase != Terminal && n == s.tasks[w.agent].lastEventSeq + 1
    ensures Follows(s, Admit(s, w, n, now), Writes(NewEvent(w, n, now)), now)
  {
    if w.terminal.None? {
      AdmitOpenFollows(s, w, n, now);
    } else {
      AdmitEndFollows(s, w, n, now);
    }
  }

  lemma AppendFollows(s: State, w: LifecycleWrite, now: int)
    ensures Follows(s, Append(s, w, now).0, AppendMark(s, w, now), now)
  {
    AppendCases(s, w, now);
    if AppendMark(s, w, now).Writes? {
      AdmitFollows(s, w, s.tasks[w.agent].lastEventSeq + 1, now);
    } else {
      StayFollows(s, s.requests, now);
    }
  }

  // A write is admitted with the next number, or changes nothing.
  lemma AppendCases(s: State, w: LifecycleWrite, now: int)
    ensures var (s', mark) := (Append(s, w, now).0, AppendMark(s, w, now));
            if mark.Writes? then
              && AppendRefusal(s, w).None? && FindSource(s.events, w).None?
              && var n := s.tasks[w.agent].lastEventSeq + 1;
              mark == Writes(NewEvent(w, n, now)) && s' == Admit(s, w, n, now)
            else mark == Plain && s' == s.(requests := s.requests)
  {
  }

  lemma RequestStopFollows(s: State, a: Id, close: bool, intent: bool, now: int)
    ensures Follows(s, RequestStop(s, a, close, intent, now).0, Plain, now)
  {
    var s' := RequestStop(s, a, close, intent, now).0;
    if a in s.tasks {
      var t' := Stopping(s.tasks[a], close, intent, now);
      var log := StopRow(a, s.tasks[a], close, now);
      if s.tasks[a].phase == Terminal {
        MoveFollows(s, a, t', s.requests, log, Plain, now);
        assert s' == s.(tasks := s.tasks[a := t'], requests := s.requests, ledger := s.ledger + log);
      } else {
        StopFollows(s, a, t', s.results, log, "STOP_REQUESTED", now);
        assert s' == Settle(s.(tasks := s.tasks[a := t'], results := s.results), a, "STOP_REQUESTED")
                     .(ledger := s.ledger + log);
      }
    } else {
      StayFollows(s, s.requests, now);
      assert s' == s.(requests := s.requests);
    }
  }

  function ResumeMark(a: Id, r: Reply<()>): Mark {
    if r.Ok? then Resumes(a) else Plain
  }

  lemma RequeueFollows(s: State, a: Id, message: Id, content: string, now: int)
    requires a in s.tasks && message !in s.messages
    ensures Follows(s, Requeue(s, a, message, content, now), Resumes(a), now)
  {
    PutStep(s.tasks, a, Resumed(s.tasks[a]), Resumes(a));
  }

  lemma ResumeFollows(s: State, a: Id, message: Id, content: string, now: int)
    ensures Follows(s, Resume(s, a, message, content, now).0, ResumeMark(a, Resume(s, a, message, content, now).1), now)
  {
    var (s', r) := Resume(s, a, message, content, now);
    if r.Ok? {
      RequeueFollows(s, a, message, content, now);
      assert s' == Requeue(s, a, message, content, now);
    } else {
      StayFollows(s, s.requests, now);
      assert s' == s.(requests := s.requests);
    }
  }

  lemma ReapFollows(s: State, a: Id, now: int)
    ensures Follows(s, Reap(s, a, now).0, Plain, now)
  {
    var (s', r) := Reap(s, a, now);
    if r.Ok? {
      MoveFollows(s, a, s'.tasks[a], s.requests, [], Plain, now);
      assert s' == s.(tasks := s.tasks[a := s'.tasks[a]], requests := s.requests, ledger := s.ledger + []);
    } else {
      StayFollows(s, s.requests, now);
      assert s' == s.(requests := s.requests);
    }
  }

  lemma ConcludeFollows(s: State, artifacts: map<Id, Artifact>, a: Id, r: TaskResult, digest: Digest, now: int)
    requires a in s.tasks && s.tasks[a].phase != Terminal && a !in s.results
    requires forall x :: x in s.artifacts ==> x in artifacts && artifacts[x] == s.artifacts[x]
    ensures Follows(s, Conclude(s.(artifacts := artifacts), a, r, digest, now), Plain, now)
  {
    var t := s.tasks[a];
    var results := s.results[a := StoredResult(r, digest, RetainResult(t.spec.retainPartial, r))];
    var update := TerminalUpdate(r.outcome, ResultFailureCode(t, r), t.failureMessage);
    StopFollows(s, a, Ended(t, update, now), results, [EndRow(a, t, update, now)],
                update.failureCode.GetOr("TASK_TERMINATED"), now);
  }

  lemma StoreCanonicalFollows(
    s: State, a: Id, r: TaskResult, patch: Option<NewArtifact>, canonical: seq<byte>, now: int)
    ensures Follows(s, StoreCanonical(s, a, r, patch, canonical, now).0, Plain, now)
  {
    var s' := StoreCanonical(s, a, r, patch, canonical, now).0;
    if Unstored(s, a, r, patch, canonical).None? {
      var artifacts := WithArtifact(s.artifacts, patch, now);
      ConcludeFollows(s, artifacts, a, r, Sha256(canonical), now);
      assert s' == Conclude(s.(artifacts := artifacts), a, r, Sha256(canonical), now);
    } else {
      StayFollows(s, s.requests, now);
      assert s' == s.(requests := s.requests);
    }
  }

  lemma InsertMessageFollows(s: State, id: Id, a: Id, mode: string, content: string, now: int)
    ensures Follows(s, InsertMessage(s, id, a, mode, content, now).0, Plain, now)
  {
    var (s', r) := InsertMessage(s, id, a, mode, content, now);
    if r == Ok(true) {
      AddMessageFollows(s, id, NewMessage(s, a, content, now), now);
      assert s' == WithMessage(s, id, NewMessage(s, a, content, now));
    } else {
      StayFollows(s, s.requests, now);
      assert s' == s.(requests := s.requests);
    }
  }

  lemma ClaimMessageFollows(s: State, a: Id, now: int)
    ensures Follows(s, ClaimMessage(s, a).0, Plain, now)
  {
    var (s', r) := ClaimMessage(s, a);
    if r.Ok? && r.value.Some? {
      var id := r.value.value;
      assert id in QueuedFor(s, a);
      PutMessageFollows(s, id, s.messages[id].(state := MsgSending), now);
      assert s' == s.(messages := s.messages[id := s.messages[id].(state := MsgSending)]);
    } else {
      StayFollows(s, s.requests, now);
      assert s' == s.(requests := s.requests);
    }
  }

  lemma CompleteMessageFollows(s: State, id: Id, turn: Option<string>, now: int)
    ensures Follows(s, CompleteMessage(s, id, turn, now).0, Plain, now)
  {
    var (s', r) := CompleteMessage(s, id, turn, now);
    if r == Ok(true) {
      PutMessageFollows(s, id, s'.messages[id], now);
      assert s' == s.(messages := s.messages[id := s'.messages[id]]);
    } else {
      StayFollows(s, s.requests, now);
      assert s' == s.(requests := s.requests);
    }
  }

  lemma FailMessageFollows(s: State, id: Id, code: string, text: string, now: int)
    ensures Follows(s, FailMessage(s, id, code, text).0, Plain, now)
  {
    var (s', r) := FailMessage(s, id, code, text);
    if r == Ok(true) {
      PutMessageFollows(s, id, s'.messages[id], now);
      assert s' == s.(messages := s.messages[id := s'.messages[id]]);
    } else {
      StayFollows(s, s.requests, now);
      assert s' == s.(requests := s.requests);
    }
  }

  lemma InsertRequestFollows(
    s: State, id: Id, a: Id, correlation: string, kind: string, payload: string, now: int)
    ensures Follows(s, InsertRequest(s, id, a, correlation, kind, payload, now).0, Plain, now)
  {
    var (s', r) := InsertRequest(s, id, a, correlation, kind, payload, now);
    if r == Ok(true) && s.tasks[a].phase == Running {
      var t' := s.tasks[a].(phase := WaitingInput);
      var log := [LedgerRow(a, t'.ownerEpoch, Some(Running), WaitingInput, None, Some("INPUT_REQUESTED"), now)];
      MoveFollows(s, a, t', s'.requests, log, Plain, now);
      assert s' == s.(tasks := s.tasks[a := t'], requests := s'.requests, ledger := s.ledger + log);
    } else {
      StayFollows(s, s'.requests, now);
      assert s' == s.(requests := s'.requests);
    }
  }

  lemma ClaimResponseFollows(s: State, a: Id, id: Id, decision: string, content: Option<string>, now: int)
    ensures Follows(s, ClaimResponse(s, a, id, decision, content).0, Plain, now)
  {
    var s' := ClaimResponse(s, a, id, decision, content).0;
    StayFollows(s, s'.requests, now);
    assert s' == s.(requests := s'.requests);
  }

  lemma CompleteResponseFollows(s: State, a: Id, id: Id, now: int)
    ensures Follows(s, CompleteResponse(s, a, id, now).0, Plain, now)
  {
    var (s', r) := CompleteResponse(s, a, id, now);
    if r == Ok(true) && s'.tasks != s.tasks {
      var t' := s.tasks[a].(phase := Running);
      var log := [LedgerRow(a, t'.ownerEpoch, Some(WaitingInput), Running, None, Some("INPUT_RESOLVED"), now)];
      MoveFollows(s, a, t', s'.requests, log, Plain, now);
      assert s' == s.(tasks := s.tasks[a := t'], requests := s'.requests, ledger := s.ledger + log);
    } else {
      StayFollows(s, s'.requests, now);
      assert s' == s.(requests := s'.requests);
    }
  }

  lemma ReleaseResponseFollows(s: State, a: Id, id: Id, now: int)
    ensures Follows(s, ReleaseResponse(s, a, id).0, Plain, now)
  {
    var s' := ReleaseResponse(s, a, id).0;
    StayFollows(s, s'.requests, now);
    assert s' == s.(requests := s'.requests);
  }
}
