// What every operation of the store keeps, across its tables. The parts of the invariant are
// predicates on the tables they relate. Every operation rewrites at most one task row, so for
// each part there is a lemma about `tasks[a := t']` that asks only how the row may change.
module StoreInvariant {
  import opened Prelude
  import opened TaskTypes
  import opened StoreSpec
  import opened Ledger

  // ----- The parts -----

  // Rowids number the rows of a table from 1 in insertion order.
  predicate TaskAt(order: seq<Id>, tasks: map<Id, Task>, i: nat) {
    i < |order| ==> order[i] in tasks && tasks[order[i]].rowid == i + 1
  }

  predicate TaskRow(order: seq<Id>, a: Id, t: Task) {
    1 <= t.rowid <= |order| && order[t.rowid - 1] == a && t.spec.agentId == a
  }

  ghost predicate TaskRows(order: seq<Id>, tasks: map<Id, Task>) {
    && (forall i: nat :: TaskAt(order, tasks, i))
    && (forall a :: a in tasks ==> TaskRow(order, a, tasks[a]))
  }

  predicate MessageAt(order: seq<Id>, messages: map<Id, Message>, i: nat) {
    i < |order| ==> order[i] in messages && messages[order[i]].rowid == i + 1
  }

  predicate MessageRow(order: seq<Id>, id: Id, m: Message) {
    1 <= m.rowid <= |order| && order[m.rowid - 1] == id
  }

  ghost predicate MessageRows(order: seq<Id>, messages: map<Id, Message>) {
    && (forall i: nat :: MessageAt(order, messages, i))
    && (forall m :: m in messages ==> MessageRow(order, m, messages[m]))
  }

  predicate SameKey(t: Task, u: Task) { t.spec.idempotencyKey == u.spec.idempotencyKey }

  ghost predicate UniqueKeys(tasks: map<Id, Task>) {
    forall a, b :: a in tasks && b in tasks && SameKey(tasks[a], tasks[b]) ==> a == b
  }

  ghost predicate Refs(tasks: map<Id, Task>, messages: map<Id, Message>, requests: map<Id, Request>) {
    && (forall m :: m in messages ==> messages[m].agent in tasks)
    && (forall r :: r in requests ==> requests[r].agent in tasks)
  }

  // The CHECK constraint of the tasks table, the floor every accepted budget has, and where a
  // stop or close flag can be found.
  predicate Sound(t: Task) {
    && (t.phase == Terminal <==> t.outcome.Some?)
    && MIN_RESULT_BYTES <= t.budget.maxResultBytes
    && (t.Flagged() ==> t.phase == Cancelling || t.phase == Terminal)
  }

  ghost predicate AllSound(tasks: map<Id, Task>) {
    forall a :: a in tasks ==> Sound(tasks[a])
  }

  predicate Waiting(tasks: map<Id, Task>, a: Id) {
    a in tasks && tasks[a].phase == WaitingInput
  }

  // A task has an open request if and only if it is in WAITING_INPUT.
  ghost predicate RequestsWait(tasks: map<Id, Task>, requests: map<Id, Request>) {
    && (forall r :: r in requests && requests[r].Open() ==> Waiting(tasks, requests[r].agent))
    && (forall a :: Waiting(tasks, a) ==> HasOpenRequest(requests, a))
  }

  predicate Accepting(t: Task) { t.phase != Terminal && !t.Flagged() }

  predicate AcceptsMessages(tasks: map<Id, Task>, a: Id) { a in tasks && Accepting(tasks[a]) }

  // Neither a terminal task nor one with a stop or close flag has an open message.
  ghost predicate MessagesLive(tasks: map<Id, Task>, messages: map<Id, Message>) {
    forall m :: m in messages && messages[m].Open() ==> AcceptsMessages(tasks, messages[m].agent)
  }

  predicate Tracks(track: Track, t: Task) {
    track.Live? && track.phase == t.phase && track.epoch == t.ownerEpoch && track.outcome == t.outcome
  }

  // Replaying the ledger gives the phase, epoch and outcome of every task row.
  ghost predicate Replays(tasks: map<Id, Task>, ledger: seq<LedgerRow>) {
    && (forall a :: a in tasks ==> Tracks(Replay(ledger, a), tasks[a]))
    && (forall a :: a !in tasks ==> Replay(ledger, a) == Absent)
  }

  // A stored result belongs to a TERMINAL task with the same outcome, and its canonical bytes
  // are within the task's budget.
  predicate ResultFits(stored: StoredResult, t: Task) {
    t.outcome == Some(stored.result.outcome) && |stored.digest.canonical| <= t.budget.maxResultBytes
  }

  ghost predicate ResultsFit(tasks: map<Id, Task>, results: map<Id, StoredResult>) {
    forall a :: a in results ==> a in tasks && ResultFits(results[a], tasks[a])
  }

  predicate ActiveDirect(tasks: map<Id, Task>, a: Id) {
    a in tasks && tasks[a].spec.Direct() && tasks[a].phase != Terminal
  }

  ghost predicate DirectAlone(tasks: map<Id, Task>) {
    forall a, b :: ActiveDirect(tasks, a) && ActiveDirect(tasks, b) && a != b ==>
                     tasks[a].spec.workspacePath != tasks[b].spec.workspacePath
  }

  ghost predicate TaskTable(order: seq<Id>, tasks: map<Id, Task>) {
    TaskRows(order, tasks) && UniqueKeys(tasks) && AllSound(tasks)
  }

  ghost predicate Inv(s: State) {
    && TaskTable(s.order, s.tasks) && MessageRows(s.messageOrder, s.messages)
    && Refs(s.tasks, s.messages, s.requests)
    && RequestsWait(s.tasks, s.requests) && MessagesLive(s.tasks, s.messages)
    && Replays(s.tasks, s.ledger) && ResultsFit(s.tasks, s.results) && DirectAlone(s.tasks)
  }

  // ----- One task row changes -----

  predicate SameRow(t: Task, t': Task) {
    t'.rowid == t.rowid && t'.spec == t.spec && t'.budget == t.budget
  }

  lemma PutTask(order: seq<Id>, tasks: map<Id, Task>, a: Id, t': Task)
    requires TaskTable(order, tasks) && a in tasks
    requires SameRow(tasks[a], t') && Sound(t')
    ensures TaskTable(order, tasks[a := t'])
  {
    var tasks' := tasks[a := t'];
    forall i: nat ensures TaskAt(order, tasks', i) {
      assert TaskAt(order, tasks, i);
    }
    forall b, c | b in tasks' && c in tasks' && SameKey(tasks'[b], tasks'[c]) ensures b == c {
      assert SameKey(tasks[b], tasks[c]);
    }
  }

  lemma PutRequests(tasks: map<Id, Task>, requests: map<Id, Request>, a: Id, t': Task)
    requires RequestsWait(tasks, requests) && a in tasks
    requires t'.phase == WaitingInput <==> tasks[a].phase == WaitingInput
    ensures RequestsWait(tasks[a := t'], requests)
  {
    assert forall b :: Waiting(tasks[a := t'], b) <==> Waiting(tasks, b);
  }

  lemma PutMessages(tasks: map<Id, Task>, messages: map<Id, Message>, a: Id, t': Task)
    requires MessagesLive(tasks, messages) && a in tasks
    requires Accepting(tasks[a]) ==> Accepting(t')
    ensures MessagesLive(tasks[a := t'], messages)
  {
    assert forall b :: AcceptsMessages(tasks, b) ==> AcceptsMessages(tasks[a := t'], b);
  }

  lemma PutQuietly(tasks: map<Id, Task>, ledger: seq<LedgerRow>, a: Id, t': Task)
    requires Replays(tasks, ledger) && a in tasks
    requires t'.phase == tasks[a].phase && t'.outcome == tasks[a].outcome && t'.ownerEpoch == tasks[a].ownerEpoch
    ensures Replays(tasks[a := t'], ledger)
  {
  }

  lemma PutLogged(tasks: map<Id, Task>, ledger: seq<LedgerRow>, a: Id, t': Task, row: LedgerRow)
    requires Replays(tasks, ledger) && row.agent == a
    requires Tracks(Advance(Replay(ledger, a), row), t')
    ensures Replays(tasks[a := t'], ledger + [row])
  {
    ReplayAppend(ledger, row);
  }

  lemma PutResults(tasks: map<Id, Task>, results: map<Id, StoredResult>, a: Id, t': Task)
    requires ResultsFit(tasks, results) && a in tasks
    requires t'.budget == tasks[a].budget
    requires a in results ==> t'.outcome == tasks[a].outcome
    ensures ResultsFit(tasks[a := t'], results)
  {
  }

  // A direct task stays alone in its workspace as long as no terminal task is revived.
  lemma PutDirect(tasks: map<Id, Task>, a: Id, t': Task)
    requires DirectAlone(tasks) && a in tasks
    requires t'.spec == tasks[a].spec && (tasks[a].phase == Terminal ==> t'.phase == Terminal)
    ensures DirectAlone(tasks[a := t'])
  {
    var tasks' := tasks[a := t'];
    forall b, c | ActiveDirect(tasks', b) && ActiveDirect(tasks', c) && b != c
      ensures tasks'[b].spec.workspacePath != tasks'[c].spec.workspacePath
    {
      assert ActiveDirect(tasks, b) && ActiveDirect(tasks, c);
    }
  }

  // ----- Open input is settled -----

  lemma DropRequests(tasks: map<Id, Task>, requests: map<Id, Request>, a: Id, t': Task)
    requires RequestsWait(tasks, requests) && a in tasks && t'.phase != WaitingInput
    ensures RequestsWait(tasks[a := t'], DropOpen(requests, a))
  {
    var requests' := DropOpen(requests, a);
    var tasks' := tasks[a := t'];
    forall b | Waiting(tasks', b) ensures HasOpenRequest(requests', b) {
      assert Waiting(tasks, b);
      var r :| r in requests && requests[r].agent == b && requests[r].Open();
      assert r in requests';
    }
    forall r | r in requests' && requests'[r].Open() ensures Waiting(tasks', requests'[r].agent) {
      assert Waiting(tasks, requests[r].agent);
    }
  }

  lemma FailMessages(tasks: map<Id, Task>, messages: map<Id, Message>, a: Id, t': Task, reason: string)
    requires MessagesLive(tasks, messages) && a in tasks
    ensures MessagesLive(tasks[a := t'], FailOpen(messages, a, reason))
  {
    var messages' := FailOpen(messages, a, reason);
    forall m | m in messages' && messages'[m].Open() ensures AcceptsMessages(tasks[a := t'], messages'[m].agent) {
      assert AcceptsMessages(tasks, messages[m].agent);
    }
  }

  lemma FailRows(order: seq<Id>, messages: map<Id, Message>, a: Id, reason: string)
    requires MessageRows(order, messages)
    ensures MessageRows(order, FailOpen(messages, a, reason))
  {
    var messages' := FailOpen(messages, a, reason);
    forall i: nat ensures MessageAt(order, messages', i) {
      assert MessageAt(order, messages, i);
    }
  }

  // The conditions on messages and requests, when a task that stops or ends settles its input.
  lemma SettleInput(s: State, a: Id, t': Task, reason: string)
    requires Inv(s) && a in s.tasks && t'.phase != WaitingInput
    ensures var (messages', requests') := (FailOpen(s.messages, a, reason), DropOpen(s.requests, a));
            && MessageRows(s.messageOrder, messages') && Refs(s.tasks[a := t'], messages', requests')
            && RequestsWait(s.tasks[a := t'], requests') && MessagesLive(s.tasks[a := t'], messages')
  {
    DropRequests(s.tasks, s.requests, a, t');
    FailMessages(s.tasks, s.messages, a, t', reason);
    FailRows(s.messageOrder, s.messages, a, reason);
  }

  // ----- Operations -----

  // Only bookkeeping columns of one row change.
  lemma QuietKeeps(s: State, a: Id, t': Task, events: seq<Event>)
    requires Inv(s) && a in s.tasks
    requires SameRow(s.tasks[a], t') && t'.phase == s.tasks[a].phase && t'.outcome == s.tasks[a].outcome
    requires t'.ownerEpoch == s.tasks[a].ownerEpoch
    requires t'.stopRequested == s.tasks[a].stopRequested && t'.closeRequested == s.tasks[a].closeRequested
    ensures Inv(s.(tasks := s.tasks[a := t'], events := events))
  {
    PutTask(s.order, s.tasks, a, t');
    PutRequests(s.tasks, s.requests, a, t');
    PutMessages(s.tasks, s.messages, a, t');
    PutQuietly(s.tasks, s.ledger, a, t');
    PutResults(s.tasks, s.results, a, t');
    PutDirect(s.tasks, a, t');
  }

  // One task moves along an edge and the ledger gets the row for it; open input is untouched.
  lemma MoveKeeps(s: State, a: Id, t': Task, row: LedgerRow)
    requires Inv(s) && a in s.tasks && s.tasks[a].phase != Terminal && t'.phase != Terminal
    requires SameRow(s.tasks[a], t') && Sound(t') && row.agent == a
    requires t'.phase == WaitingInput <==> s.tasks[a].phase == WaitingInput
    requires Accepting(s.tasks[a]) ==> Accepting(t')
    requires Tracks(Advance(Replay(s.ledger, a), row), t')
    ensures Inv(s.(tasks := s.tasks[a := t'], ledger := s.ledger + [row]))
  {
    PutTask(s.order, s.tasks, a, t');
    PutRequests(s.tasks, s.requests, a, t');
    PutMessages(s.tasks, s.messages, a, t');
    PutLogged(s.tasks, s.ledger, a, t', row);
    PutResults(s.tasks, s.results, a, t');
    PutDirect(s.tasks, a, t');
  }

  // The same for a task that stops or ends: its open input is settled. `log` is empty when a
  // task already in CANCELLING is asked to stop again.
  lemma SettleKeeps(s: State, a: Id, t': Task, results: map<Id, StoredResult>, log: seq<LedgerRow>, reason: string)
    requires Inv(s) && a in s.tasks && s.tasks[a].phase != Terminal
    requires SameRow(s.tasks[a], t') && Sound(t') && t'.phase in {Cancelling, Terminal}
    requires Replays(s.tasks[a := t'], s.ledger + log)
    requires ResultsFit(s.tasks[a := t'], results)
    ensures Inv(Settle(s.(tasks := s.tasks[a := t'], results := results), a, reason).(ledger := s.ledger + log))
  {
    PutTask(s.order, s.tasks, a, t');
    PutDirect(s.tasks, a, t');
    SettleInput(s, a, t', reason);
  }

  lemma ClaimKeeps(s: State, a: Id, owner: string, now: int)
    requires Inv(s) && a in s.tasks && s.tasks[a].phase == Queued
    ensures Inv(Claim(s, a, owner, now))
  {
    var s' := Claim(s, a, owner, now);
    MoveKeeps(s, a, s'.tasks[a], LedgerRow(a, s'.tasks[a].ownerEpoch, Some(Queued), Preparing, None, Some("CLAIMED"), now));
  }

  lemma ClaimNextKeeps(s: State, owner: string, limit: nat, now: int)
    requires Inv(s)
    ensures Inv(ClaimNext(s, owner, limit, now).0)
  {
    if 0 < limit <= I64_MAX {
      var first := FirstRow(s.order, TaskTimes(s), Claimable(s, limit));
      if first.Some? {
        assert s.order[first.value] in Claimable(s, limit);
        ClaimKeeps(s, s.order[first.value], owner, now);
      }
    }
  }

  lemma MarkRunningKeeps(
    s: State, a: Id, epoch: nat, runtime: string, identity: Option<ProcessIdentity>,
    session: Option<string>, turn: Option<TurnState>, now: int)
    requires Inv(s)
    ensures Inv(MarkRunning(s, a, epoch, runtime, identity, session, turn, now).0)
  {
    if a in s.tasks && s.tasks[a].ownerEpoch == epoch && s.tasks[a].phase == Preparing && epoch <= I64_MAX {
      var t' := RunningAs(s.tasks[a], runtime, identity, session, turn, now);
      MoveKeeps(s, a, t', LedgerRow(a, epoch, Some(Preparing), Running, None, Some("RUNTIME_STARTED"), now));
    }
  }

  lemma EndTracks(track: Track, a: Id, t: Task, update: TerminalUpdate, now: int)
    requires Tracks(track, t) && t.phase != Terminal
    ensures Tracks(Advance(track, EndRow(a, t, update, now)), Ended(t, update, now))
  {
  }

  // `apply_terminal`, with the results table it leaves.
  lemma EndKeeps(s: State, a: Id, results: map<Id, StoredResult>, update: TerminalUpdate, now: int)
    requires Inv(s) && a in s.tasks && s.tasks[a].phase != Terminal
    requires ResultsFit(s.tasks[a := Ended(s.tasks[a], update, now)], results)
    ensures Inv(ApplyTerminal(s.(results := results), a, update, now))
  {
    var t := s.tasks[a];
    var row := EndRow(a, t, update, now);
    EndTracks(Replay(s.ledger, a), a, t, update, now);
    PutLogged(s.tasks, s.ledger, a, Ended(t, update, now), row);
    SettleKeeps(s, a, Ended(t, update, now), results, [row], update.failureCode.GetOr("TASK_TERMINATED"));
  }

  lemma TransitionKeeps(s: State, a: Id, epoch: nat, update: TerminalUpdate, now: int)
    requires Inv(s)
    ensures Inv(Transition(s, a, epoch, update, now).0)
  {
    if a in s.tasks && s.tasks[a].phase != Terminal && s.tasks[a].ownerEpoch == epoch {
      PutResults(s.tasks, s.results, a, Ended(s.tasks[a], update, now));
      EndKeeps(s, a, s.results, update, now);
    }
  }

  lemma RecordKeeps(s: State, w: LifecycleWrite, n: nat, now: int)
    requires Inv(s) && w.agent in s.tasks
    ensures Inv(Record(s, w, n, now))
  {
    var s' := Record(s, w, n, now);
    QuietKeeps(s, w.agent, s'.tasks[w.agent], s'.events);
  }

  lemma AdmitKeeps(s: State, w: LifecycleWrite, n: nat, now: int)
    requires Inv(s) && w.agent in s.tasks && s.tasks[w.agent].phase != Terminal
    ensures Inv(Admit(s, w, n, now))
  {
    RecordKeeps(s, w, n, now);
    if w.terminal.Some? {
      var s1 := Record(s, w, n, now);
      PutResults(s1.tasks, s1.results, w.agent, Ended(s1.tasks[w.agent], w.terminal.value, now));
      EndKeeps(s1, w.agent, s1.results, w.terminal.value, now);
    }
  }

  lemma AppendCases(s: State, w: LifecycleWrite, now: int)
    ensures var s' := Append(s, w, now).0;
            || s' == s
            || (&& w.agent in s.tasks && s.tasks[w.agent].phase != Terminal
                && s' == Admit(s, w, s.tasks[w.agent].lastEventSeq + 1, now))
  {
  }

  lemma AppendKeeps(s: State, w: LifecycleWrite, now: int)
    requires Inv(s)
    ensures Inv(Append(s, w, now).0)
  {
    AppendCases(s, w, now);
    if Append(s, w, now).0 != s {
      AdmitKeeps(s, w, s.tasks[w.agent].lastEventSeq + 1, now);
    }
  }

  lemma StopTracks(track: Track, a: Id, t: Task, close: bool, intent: bool, now: int)
    requires Tracks(track, t) && t.phase != Terminal && Sound(t)
    ensures StopRow(a, t, close, now) == [] ==> Tracks(track, Stopping(t, close, intent, now))
    ensures StopRow(a, t, close, now) != [] ==>
              Tracks(Advance(track, StopRow(a, t, close, now)[0]), Stopping(t, close, intent, now))
  {
  }

  lemma RequestStopKeeps(s: State, a: Id, close: bool, intent: bool, now: int)
    requires Inv(s)
    ensures Inv(RequestStop(s, a, close, intent, now).0)
  {
    if a in s.tasks {
      var t, t' := s.tasks[a], Stopping(s.tasks[a], close, intent, now);
      if t.phase == Terminal {
        StopFlagsKeep(s, a, t');
      } else {
        var log := StopRow(a, t, close, now);
        StopTracks(Replay(s.ledger, a), a, t, close, intent, now);
        if log == [] {
          PutQuietly(s.tasks, s.ledger, a, t');
          assert s.ledger + log == s.ledger;
        } else {
          PutLogged(s.tasks, s.ledger, a, t', log[0]);
        }
        PutResults(s.tasks, s.results, a, t');
        SettleKeeps(s, a, t', s.results, log, "STOP_REQUESTED");
      }
    }
  }

  // A terminal task only takes note of the flags.
  lemma StopFlagsKeep(s: State, a: Id, t': Task)
    requires Inv(s) && a in s.tasks && s.tasks[a].phase == Terminal
    requires t' ==
             s.tasks[a].(closeRequested := t'.closeRequested, stopRequested := t'.stopRequested, closedAt := t'.closedAt)
    ensures Inv(s.(tasks := s.tasks[a := t'], ledger := s.ledger + []))
  {
    PutTask(s.order, s.tasks, a, t');
    PutRequests(s.tasks, s.requests, a, t');
    PutMessages(s.tasks, s.messages, a, t');
    PutQuietly(s.tasks, s.ledger, a, t');
    PutResults(s.tasks, s.results, a, t');
    PutDirect(s.tasks, a, t');
    assert s.ledger + [] == s.ledger;
  }

  lemma ReapKeeps(s: State, a: Id, now: int)
    requires Inv(s)
    ensures Inv(Reap(s, a, now).0)
  {
    if a in s.tasks && s.tasks[a].phase == Terminal && s.tasks[a].outcome.Some? {
      QuietKeeps(s, a, Reap(s, a, now).0.tasks[a], s.events);
    }
  }

  // ----- New rows -----

  lemma InsertKeepsRows(order: seq<Id>, tasks: map<Id, Task>, spec: TaskSpec, budget: Budget, now: int)
    requires TaskTable(order, tasks) && spec.agentId !in tasks
    requires forall a :: a in tasks ==> tasks[a].spec.idempotencyKey != spec.idempotencyKey
    requires MIN_RESULT_BYTES <= budget.maxResultBytes
    ensures TaskTable(order + [spec.agentId], tasks[spec.agentId := FreshTask(|order| + 1, spec, budget, now)])
  {
    var order', tasks' := order + [spec.agentId], tasks[spec.agentId := FreshTask(|order| + 1, spec, budget, now)];
    forall i: nat ensures TaskAt(order', tasks', i) {
      assert TaskAt(order, tasks, i);
    }
    forall a | a in tasks' ensures TaskRow(order', a, tasks'[a]) {
      assert a in tasks ==> TaskRow(order, a, tasks[a]);
    }
  }

  // What an operation that adds a row keeps because no open input changes hands.
  lemma InsertKeepsInput(s: State, a: Id, t: Task)
    requires a !in s.tasks && t.phase == Queued
    requires Refs(s.tasks, s.messages, s.requests)
    requires RequestsWait(s.tasks, s.requests) && MessagesLive(s.tasks, s.messages) && ResultsFit(s.tasks, s.results)
    ensures Refs(s.tasks[a := t], s.messages, s.requests)
    ensures RequestsWait(s.tasks[a := t], s.requests) && MessagesLive(s.tasks[a := t], s.messages)
    ensures ResultsFit(s.tasks[a := t], s.results)
  {
    forall b ensures Waiting(s.tasks[a := t], b) <==> Waiting(s.tasks, b) {}
    forall b ensures AcceptsMessages(s.tasks, b) ==> AcceptsMessages(s.tasks[a := t], b) {}
  }

  lemma InsertKeepsDirect(s: State, spec: TaskSpec, t: Task)
    requires TaskRows(s.order, s.tasks) && DirectAlone(s.tasks) && t.spec == spec
    requires spec.Direct() ==> BusyWith(s, BusyIn(s, spec.workspacePath, Some(spec.repository), None)).None?
    ensures DirectAlone(s.tasks[spec.agentId := t])
  {
    var tasks' := s.tasks[spec.agentId := t];
    forall b, c | ActiveDirect(tasks', b) && ActiveDirect(tasks', c) && b != c
      ensures tasks'[b].spec.workspacePath != tasks'[c].spec.workspacePath
    {
      assert b != spec.agentId && c != spec.agentId ==> ActiveDirect(s.tasks, b) && ActiveDirect(s.tasks, c);
      if spec.Direct() {
        NotBusy(s, spec.workspacePath, Some(spec.repository), None);
      }
    }
  }

  // The workspace query finds nothing exactly when no task is in the way.
  lemma NotBusy(s: State, workspace: string, repository: Option<string>, except: Option<Id>)
    requires TaskRows(s.order, s.tasks)
    requires BusyWith(s, BusyIn(s, workspace, repository, except)).None?
    ensures BusyIn(s, workspace, repository, except) == {}
  {
    var busy := BusyIn(s, workspace, repository, except);
    forall a | a in s.tasks ensures a !in busy {
      assert TaskRow(s.order, a, s.tasks[a]);
    }
  }

  lemma InsertKeeps(s: State, spec: TaskSpec, budget: Budget, now: int)
    requires Inv(s) && spec.agentId !in s.tasks && MIN_RESULT_BYTES <= budget.maxResultBytes
    requires forall a :: a in s.tasks ==> s.tasks[a].spec.idempotencyKey != spec.idempotencyKey
    requires spec.Direct() ==> BusyWith(s, BusyIn(s, spec.workspacePath, Some(spec.repository), None)).None?
    ensures Inv(Insert(s, spec, budget, now))
  {
    var t := FreshTask(|s.order| + 1, spec, budget, now);
    InsertKeepsRows(s.order, s.tasks, spec, budget, now);
    InsertKeepsInput(s, spec.agentId, t);
    InsertKeepsDirect(s, spec, t);
    PutLogged(s.tasks, s.ledger, spec.agentId, t, LedgerRow(spec.agentId, 0, None, Queued, None, None, now));
  }

  lemma EnqueueKeeps(s: State, spec: TaskSpec, request: BudgetRequest, now: int)
    requires Inv(s)
    ensures Inv(Enqueue(s, spec, request, now).0)
  {
    var s' := Enqueue(s, spec, request, now).0;
    if Enqueue(s, spec, request, now).1 == Ok(Created) {
      InsertKeeps(s, spec, ResolveBudget(request).value, now);
      assert s' == Insert(s, spec, ResolveBudget(request).value, now);
    } else {
      assert s' == s;
    }
  }

  lemma AddMessageKeepsRows(s: State, id: Id, m: Message)
    requires MessageRows(s.messageOrder, s.messages) && id !in s.messages && m.rowid == |s.messageOrder| + 1
    ensures MessageRows(s.messageOrder + [id], s.messages[id := m])
  {
    var order', messages' := s.messageOrder + [id], s.messages[id := m];
    forall i: nat ensures MessageAt(order', messages', i) {
      assert MessageAt(s.messageOrder, s.messages, i);
    }
    forall k | k in messages' ensures MessageRow(order', k, messages'[k]) {
      assert k in s.messages ==> MessageRow(s.messageOrder, k, s.messages[k]);
    }
  }

  lemma AddMessageKeeps(s: State, id: Id, m: Message)
    requires Inv(s) && id !in s.messages && m.rowid == |s.messageOrder| + 1
    requires AcceptsMessages(s.tasks, m.agent)
    ensures Inv(WithMessage(s, id, m))
  {
    AddMessageKeepsRows(s, id, m);
  }

  lemma InsertMessageKeeps(s: State, id: Id, a: Id, mode: string, content: string, now: int)
    requires Inv(s)
    ensures Inv(InsertMessage(s, id, a, mode, content, now).0)
  {
    var s' := InsertMessage(s, id, a, mode, content, now).0;
    if InsertMessage(s, id, a, mode, content, now).1 == Ok(true) {
      AddMessageKeeps(s, id, NewMessage(s, a, content, now));
      assert s' == WithMessage(s, id, NewMessage(s, a, content, now));
    } else {
      assert s' == s;
    }
  }

  lemma PutMessageRows(order: seq<Id>, messages: map<Id, Message>, id: Id, m': Message)
    requires MessageRows(order, messages) && id in messages && m'.rowid == messages[id].rowid
    ensures MessageRows(order, messages[id := m'])
  {
    var messages' := messages[id := m'];
    forall i: nat ensures MessageAt(order, messages', i) {
      assert MessageAt(order, messages, i);
    }
  }

  // A message changes state and is open only if it was.
  lemma PutMessageKeeps(s: State, id: Id, m': Message)
    requires Inv(s) && id in s.messages
    requires m'.rowid == s.messages[id].rowid && m'.agent == s.messages[id].agent
    requires m'.Open() ==> s.messages[id].Open()
    ensures Inv(s.(messages := s.messages[id := m']))
  {
    PutMessageRows(s.messageOrder, s.messages, id, m');
    assert MessagesLive(s.tasks, s.messages[id := m']);
  }

  lemma ClaimMessageKeeps(s: State, a: Id)
    requires Inv(s)
    ensures Inv(ClaimMessage(s, a).0)
  {
    var (s', r) := ClaimMessage(s, a);
    if r.Ok? && r.value.Some? {
      var id := r.value.value;
      PutMessageKeeps(s, id, s.messages[id].(state := MsgSending));
      assert s' == s.(messages := s.messages[id := s.messages[id].(state := MsgSending)]);
    } else {
      assert s' == s;
    }
  }

  lemma CompleteMessageKeeps(s: State, id: Id, turn: Option<string>, now: int)
    requires Inv(s)
    ensures Inv(CompleteMessage(s, id, turn, now).0)
  {
    var (s', r) := CompleteMessage(s, id, turn, now);
    if r == Ok(true) {
      PutMessageKeeps(s, id, s'.messages[id]);
    }
  }

  lemma FailMessageKeeps(s: State, id: Id, code: string, text: string)
    requires Inv(s)
    ensures Inv(FailMessage(s, id, code, text).0)
  {
    var (s', r) := FailMessage(s, id, code, text);
    if r == Ok(true) {
      PutMessageKeeps(s, id, s'.messages[id]);
    }
  }

  // ----- Pending requests -----

  // One request changes state but not its owner; the phase still tells whether one is open.
  lemma PutRequestKeeps(s: State, id: Id, r': Request)
    requires Inv(s) && r'.agent in s.tasks && (id in s.requests ==> r'.agent == s.requests[id].agent)
    requires RequestsWait(s.tasks, s.requests[id := r'])
    ensures Inv(s.(requests := s.requests[id := r']))
  {
  }

  // An open request takes the place of an open one, or joins a task already waiting.
  lemma OpenStaysOpen(tasks: map<Id, Task>, requests: map<Id, Request>, id: Id, r': Request)
    requires RequestsWait(tasks, requests) && r'.Open() && Waiting(tasks, r'.agent)
    requires id in requests ==> r'.agent == requests[id].agent
    ensures RequestsWait(tasks, requests[id := r'])
  {
    var requests' := requests[id := r'];
    forall a | Waiting(tasks, a) ensures HasOpenRequest(requests', a) {
      var r :| r in requests && requests[r].agent == a && requests[r].Open();
      assert r in requests' && (r == id ==> requests'[r].agent == a);
    }
  }

  lemma ClaimResponseKeeps(s: State, a: Id, id: Id, decision: string, content: Option<string>)
    requires Inv(s)
    ensures Inv(ClaimResponse(s, a, id, decision, content).0)
  {
    var (s', r) := ClaimResponse(s, a, id, decision, content);
    if r == Ok(ClaimDisposition.Claimed) {
      assert s.requests[id].Open();
      OpenStaysOpen(s.tasks, s.requests, id, s'.requests[id]);
      PutRequestKeeps(s, id, s'.requests[id]);
    }
  }

  lemma ReleaseResponseKeeps(s: State, a: Id, id: Id)
    requires Inv(s)
    ensures Inv(ReleaseResponse(s, a, id).0)
  {
    var (s', r) := ReleaseResponse(s, a, id);
    if r == Ok(true) {
      assert s.requests[id].Open();
      OpenStaysOpen(s.tasks, s.requests, id, s'.requests[id]);
      PutRequestKeeps(s, id, s'.requests[id]);
    }
  }

  // A task moves between RUNNING and WAITING_INPUT together with its requests.
  lemma MoveWithRequestsKeeps(s: State, a: Id, t': Task, requests': map<Id, Request>, row: LedgerRow)
    requires Inv(s) && a in s.tasks && row.agent == a
    requires s.tasks[a].phase in {Running, WaitingInput} && t'.phase in {Running, WaitingInput}
    requires t' == s.tasks[a].(phase := t'.phase)
    requires forall r :: r in requests' ==> requests'[r].agent in s.tasks
    requires RequestsWait(s.tasks[a := t'], requests')
    requires Tracks(Advance(Replay(s.ledger, a), row), t')
    ensures Inv(s.(tasks := s.tasks[a := t'], requests := requests', ledger := s.ledger + [row]))
  {
    PutTask(s.order, s.tasks, a, t');
    PutMessages(s.tasks, s.messages, a, t');
    PutLogged(s.tasks, s.ledger, a, t', row);
    PutResults(s.tasks, s.results, a, t');
    PutDirect(s.tasks, a, t');
  }

  lemma FirstRequestWaits(tasks: map<Id, Task>, requests: map<Id, Request>, id: Id, r: Request, t': Task)
    requires RequestsWait(tasks, requests) && id !in requests && r.Open()
    requires r.agent in tasks && t'.phase == WaitingInput
    ensures RequestsWait(tasks[r.agent := t'], requests[id := r])
  {
    var tasks', requests' := tasks[r.agent := t'], requests[id := r];
    forall a | Waiting(tasks', a) ensures HasOpenRequest(requests', a) {
      if a == r.agent {
        assert requests'[id].Open();
      } else {
        assert Waiting(tasks, a);
        var k :| k in requests && requests[k].agent == a && requests[k].Open();
        assert k in requests' && requests'[k] == requests[k];
      }
    }
    forall k | k in requests' && requests'[k].Open() ensures Waiting(tasks', requests'[k].agent) {
      assert k != id ==> Waiting(tasks, requests[k].agent);
    }
  }

  lemma RunningWaits(ledger: seq<LedgerRow>, t: Task, row: LedgerRow)
    requires t.phase == Running && Tracks(Replay(ledger, row.agent), t) && Sound(t)
    requires row ==
             LedgerRow(row.agent, t.ownerEpoch, Some(Running), WaitingInput, None, Some("INPUT_REQUESTED"), row.recordedAt)
    ensures Tracks(Advance(Replay(ledger, row.agent), row), t.(phase := WaitingInput))
  {
  }

  lemma FirstRequestKeeps(s: State, id: Id, r: Request, row: LedgerRow)
    requires Inv(s) && r.agent in s.tasks && s.tasks[r.agent].phase == Running && id !in s.requests && r.Open()
    requires row.agent == r.agent
    requires Tracks(Advance(Replay(s.ledger, r.agent), row), s.tasks[r.agent].(phase := WaitingInput))
    ensures Inv(s.(tasks := s.tasks[r.agent := s.tasks[r.agent].(phase := WaitingInput)],
                requests := s.requests[id := r], ledger := s.ledger + [row]))
  {
    var t' := s.tasks[r.agent].(phase := WaitingInput);
    FirstRequestWaits(s.tasks, s.requests, id, r, t');
    MoveWithRequestsKeeps(s, r.agent, t', s.requests[id := r], row);
  }

  lemma FurtherRequestKeeps(s: State, id: Id, r: Request)
    requires Inv(s) && r.agent in s.tasks && s.tasks[r.agent].phase == WaitingInput && id !in s.requests && r.Open()
    ensures Inv(s.(requests := s.requests[id := r]))
  {
    OpenStaysOpen(s.tasks, s.requests, id, r);
    PutRequestKeeps(s, id, r);
  }

  lemma InsertRequestKeeps(
    s: State, id: Id, a: Id, correlation: string, kind: string, payload: string, now: int)
    requires Inv(s)
    ensures Inv(InsertRequest(s, id, a, correlation, kind, payload, now).0)
  {
    var (s', reply) := InsertRequest(s, id, a, correlation, kind, payload, now);
    if reply == Ok(true) {
      var t := s.tasks[a];
      var r := Request(a, correlation, kind, payload, ReqPending, now, None, None, None);
      if t.phase == WaitingInput {
        FurtherRequestKeeps(s, id, r);
        assert s' == s.(requests := s.requests[id := r]);
      } else {
        var t' := t.(phase := WaitingInput);
        var row := LedgerRow(a, t.ownerEpoch, Some(Running), WaitingInput, None, Some("INPUT_REQUESTED"), now);
        RunningWaits(s.ledger, t, row);
        FirstRequestKeeps(s, id, r, row);
        assert s' == s.(tasks := s.tasks[a := t'], requests := s.requests[id := r], ledger := s.ledger + [row]);
      }
    } else {
      assert s' == s;
    }
  }

  lemma LastRequestRuns(tasks: map<Id, Task>, requests: map<Id, Request>, id: Id, r: Request, t': Task)
    requires RequestsWait(tasks, requests) && id in requests && requests[id].agent == r.agent && !r.Open()
    requires r.agent in tasks
    requires t'.phase == WaitingInput <==> HasOpenRequest(requests[id := r], r.agent)
    ensures RequestsWait(tasks[r.agent := t'], requests[id := r])
  {
    var tasks', requests' := tasks[r.agent := t'], requests[id := r];
    forall a | Waiting(tasks', a) ensures HasOpenRequest(requests', a) {
      if a != r.agent {
        assert Waiting(tasks, a);
        var k :| k in requests && requests[k].agent == a && requests[k].Open();
        assert k in requests' && requests'[k] == requests[k];
      }
    }
    forall k | k in requests' && requests'[k].Open() ensures Waiting(tasks', requests'[k].agent) {
      assert requests'[k] == requests[k];
      assert Waiting(tasks, requests[k].agent);
    }
  }

  // The last open request of a waiting task is answered: the task runs again.
  lemma ResolveKeeps(s: State, id: Id, r: Request, now: int)
    requires Inv(s) && id in s.requests && s.requests[id].Open() && !r.Open() && r.agent == s.requests[id].agent
    requires r.agent in s.tasks && !HasOpenRequest(s.requests[id := r], r.agent)
    ensures s.tasks[r.agent].phase == WaitingInput
    ensures var t := s.tasks[r.agent];
            var row := LedgerRow(r.agent, t.ownerEpoch, Some(WaitingInput), Running, None, Some("INPUT_RESOLVED"), now);
            Inv(s.(tasks := s.tasks[r.agent := t.(phase := Running)], requests := s.requests[id := r],
                ledger := s.ledger + [row]))
  {
    var t := s.tasks[r.agent];
    assert Waiting(s.tasks, r.agent);
    LastRequestRuns(s.tasks, s.requests, id, r, t.(phase := Running));
    MoveWithRequestsKeeps(s, r.agent, t.(phase := Running), s.requests[id := r],
                          LedgerRow(r.agent, t.ownerEpoch, Some(WaitingInput), Running, None, Some("INPUT_RESOLVED"), now));
  }

  // Another request of the task is still open.
  lemma AnswerKeeps(s: State, id: Id, r: Request)
    requires Inv(s) && id in s.requests && s.requests[id].Open() && !r.Open() && r.agent == s.requests[id].agent
    requires HasOpenRequest(s.requests[id := r], r.agent)
    ensures Inv(s.(requests := s.requests[id := r]))
  {
    var t := s.tasks[r.agent];
    assert Waiting(s.tasks, r.agent);
    LastRequestRuns(s.tasks, s.requests, id, r, t);
    assert s.tasks[r.agent := t] == s.tasks;
    PutRequestKeeps(s, id, r);
  }

  lemma CompleteResponseKeeps(s: State, a: Id, id: Id, now: int)
    requires Inv(s)
    ensures Inv(CompleteResponse(s, a, id, now).0)
  {
    var (s', reply) := CompleteResponse(s, a, id, now);
    if reply == Ok(true) {
      var r := s.requests[id].(state := ReqResponded, respondedAt := Some(now));
      if HasOpenRequest(s.requests[id := r], a) {
        AnswerKeeps(s, id, r);
        assert s' == s.(requests := s.requests[id := r]);
      } else {
        ResolveKeeps(s, id, r, now);
        assert Sound(s.tasks[a]);
        assert s' == s.(tasks := s.tasks[a := s.tasks[a].(phase := Running)], requests := s.requests[id := r],
                     ledger := s'.ledger);
      }
    } else {
      assert s' == s;
    }
  }

  // ----- Results and resume -----

  lemma ConcludeKeeps(s: State, a: Id, r: TaskResult, digest: Digest, now: int)
    requires Inv(s) && a in s.tasks && s.tasks[a].phase != Terminal
    requires |digest.canonical| <= s.tasks[a].budget.maxResultBytes
    requires s.tasks[a].Flagged() ==> r.outcome == Cancelled
    ensures Inv(Conclude(s, a, r, digest, now))
  {
    var t := s.tasks[a];
    var update := TerminalUpdate(r.outcome, ResultFailureCode(t, r), t.failureMessage);
    var results := s.results[a := StoredResult(r, digest, RetainResult(t.spec.retainPartial, r))];
    PutResults(s.tasks, s.results - {a}, a, Ended(t, update, now));
    EndKeeps(s, a, results, update, now);
  }

  lemma ArtifactsKeep(s: State, artifacts: map<Id, Artifact>)
    requires Inv(s)
    ensures Inv(s.(artifacts := artifacts))
  {
  }

  lemma StoreCanonicalKeeps(
    s: State, a: Id, r: TaskResult, patch: Option<NewArtifact>, canonical: seq<byte>, now: int)
    requires Inv(s)
    ensures Inv(StoreCanonical(s, a, r, patch, canonical, now).0)
  {
    var s' := StoreCanonical(s, a, r, patch, canonical, now).0;
    if Unstored(s, a, r, patch, canonical).None? {
      var artifacts := WithArtifact(s.artifacts, patch, now);
      ArtifactsKeep(s, artifacts);
      ConcludeKeeps(s.(artifacts := artifacts), a, r, Sha256(canonical), now);
      assert s' == Conclude(s.(artifacts := artifacts), a, r, Sha256(canonical), now);
    } else {
      assert s' == s;
    }
  }

  lemma ReviveKeepsDirect(s: State, a: Id, t': Task)
    requires TaskRows(s.order, s.tasks) && DirectAlone(s.tasks) && a in s.tasks && t'.spec == s.tasks[a].spec
    requires BusyWith(s, BusyIn(s, t'.spec.workspacePath, None, Some(a))).None?
    ensures DirectAlone(s.tasks[a := t'])
  {
    NotBusy(s, t'.spec.workspacePath, None, Some(a));
    var tasks' := s.tasks[a := t'];
    var busy := BusyIn(s, t'.spec.workspacePath, None, Some(a));
    forall b, c | ActiveDirect(tasks', b) && ActiveDirect(tasks', c) && b != c
      ensures tasks'[b].spec.workspacePath != tasks'[c].spec.workspacePath
    {
      assert b != a ==> ActiveDirect(s.tasks, b) && b !in busy;
      assert c != a ==> ActiveDirect(s.tasks, c) && c !in busy;
    }
  }

  lemma ReviveKeeps(s: State, a: Id, row: LedgerRow)
    requires Inv(s) && a in s.tasks && s.tasks[a].phase == Terminal && row.agent == a
    requires BusyWith(s, BusyIn(s, s.tasks[a].spec.workspacePath, None, Some(a))).None?
    requires Tracks(Advance(Replay(s.ledger, a), row), Resumed(s.tasks[a]))
    ensures Inv(s.(results := s.results - {a}, tasks := s.tasks[a := Resumed(s.tasks[a])], ledger := s.ledger + [row]))
  {
    var t' := Resumed(s.tasks[a]);
    PutTask(s.order, s.tasks, a, t');
    PutRequests(s.tasks, s.requests, a, t');
    PutMessages(s.tasks, s.messages, a, t');
    PutLogged(s.tasks, s.ledger, a, t', row);
    PutResults(s.tasks, s.results - {a}, a, t');
    ReviveKeepsDirect(s, a, t');
  }

  lemma ResumeLogged(ledger: seq<LedgerRow>, t: Task, row: LedgerRow)
    requires t.phase == Terminal && Tracks(Replay(ledger, row.agent), t) && Sound(t)
    requires row ==
             LedgerRow(row.agent, t.ownerEpoch, Some(Terminal), Queued, None, Some("RESUME_REQUESTED"), row.recordedAt)
    ensures Tracks(Advance(Replay(ledger, row.agent), row), Resumed(t))
  {
  }

  lemma RequeueKeeps(s: State, a: Id, message: Id, content: string, now: int)
    requires Inv(s) && a in s.tasks && s.tasks[a].phase == Terminal && message !in s.messages
    requires BusyWith(s, BusyIn(s, s.tasks[a].spec.workspacePath, None, Some(a))).None?
    ensures Inv(Requeue(s, a, message, content, now))
  {
    var t := s.tasks[a];
    var row := LedgerRow(a, t.ownerEpoch, Some(Terminal), Queued, None, Some("RESUME_REQUESTED"), now);
    var s1 := s.(results := s.results - {a}, tasks := s.tasks[a := Resumed(t)], ledger := s.ledger + [row]);
    ResumeLogged(s.ledger, t, row);
    ReviveKeeps(s, a, row);
    AddMessageKeeps(s1, message, NewMessage(s1, a, content, now));
    assert Requeue(s, a, message, content, now) == WithMessage(s1, message, NewMessage(s1, a, content, now));
  }

  lemma ResumeKeeps(s: State, a: Id, message: Id, content: string, now: int)
    requires Inv(s)
    ensures Inv(Resume(s, a, message, content, now).0)
  {
    var (s', reply) := Resume(s, a, message, content, now);
    if reply.Ok? {
      RequeueKeeps(s, a, message, content, now);
      assert s' == Requeue(s, a, message, content, now);
    } else {
      assert s' == s;
    }
  }
}
