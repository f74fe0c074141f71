// The task store itself: tables behind one connection lock. Each public method is one
// transaction; one SQL statement is one assignment (crates/zcode-agent-store/src/lib.rs).
module TaskStore {
  import opened Prelude
  import opened TaskTypes
  import opened StoreSpec
  import ResultJson
  import opened StoreRuns
  import opened StoreInvariant
  import opened StoreTheorems
  import P = Paging

  // `ORDER BY created_at,rowid LIMIT 1`
  method FindFirstRow(order: seq<Id>, created: map<Id, int>, ids: set<Id>) returns (best: Option<nat>)
    requires forall a :: a in ids ==> a in created
    ensures best == FirstRow(order, created, ids)
  {
    best := None;
    var i := 0;
    while i < |order|
      invariant i <= |order|
      invariant best == FirstRow(order[..i], created, ids)
    {
      var a := order[i];
      assert order[..i + 1][..i] == order[..i];
      if a in ids {
        if best.None? || created[a] < created[order[best.value]] {
          best := Some(i);
        }
      }
      i := i + 1;
    }
    assert order[..i] == order;
  }

  // The query for an event already recorded under the write's source sequence.
  method FindRecorded(events: seq<Event>, w: LifecycleWrite) returns (found: Option<nat>)
    ensures found == FindSource(events, w)
  {
    var i := 0;
    while i < |events|
      invariant i <= |events|
      invariant FindSource(events[..i], w) == None
    {
      assert events[..i + 1][..i] == events[..i];
      if events[i].agent == w.agent && events[i].runtime == w.runtime && events[i].sourceSeq == w.sourceSeq {
        FoundFirst(events, w, i);
        return Some(i);
      }
      i := i + 1;
    }
    assert events[..i] == events;
    return None;
  }

  lemma FoundFirst(events: seq<Event>, w: LifecycleWrite, i: nat)
    requires i < |events| && SameSource(events[i], w) && FindSource(events[..i], w) == None
    ensures FindSource(events, w) == Some(i)
  {
    assert forall j :: 0 <= j < i ==> events[..i][j] == events[j];
  }

  class Store {
    var order: seq<Id>
    var tasks: map<Id, Task>
    var events: seq<Event>
    var messageOrder: seq<Id>
    var messages: map<Id, Message>
    var requests: map<Id, Request>
    var results: map<Id, StoredResult>
    var artifacts: map<Id, Artifact>
    var ledger: seq<LedgerRow>

    function Snapshot(): State
      reads this
    {
      State(order, tasks, events, messageOrder, messages, requests, results, artifacts, ledger)
    }

    ghost predicate Valid()
      reads this
    {
      Inv(Snapshot())
    }

    constructor ()
      ensures Valid() && Snapshot() == EMPTY
    {
      order, tasks, events := [], map[], [];
      messageOrder, messages, requests := [], map[], map[];
      results, artifacts, ledger := map[], map[], [];
    }

    // ----- Parts of transactions -----

    method InsertLedger(row: LedgerRow)
      modifies this`ledger
      ensures ledger == old(ledger) + [row]
    {
      ledger := ledger + [row];
    }

    method SettleTerminalCommands(a: Id, reason: string)
      modifies this`messages, this`requests
      ensures messages == FailOpen(old(messages), a, reason)
      ensures requests == DropOpen(old(requests), a)
    {
      messages := map m | m in messages ::
        if messages[m].agent == a && (messages[m].state == MsgQueued || messages[m].state == MsgSending) then
          messages[m].(state := MsgFailed, failureCode := Some(reason),
          failureMessage := Some("runtime is no longer available"))
        else messages[m];
      requests := map r |
        r in requests && !(requests[r].agent == a && requests[r].state in {ReqPending, ReqSending}) :: requests[r];
    }

    method EndTask(a: Id, update: TerminalUpdate, now: int)
      requires a in tasks
      modifies this`tasks, this`messages, this`requests, this`ledger
      ensures Snapshot() == ApplyTerminal(old(Snapshot()), a, update, now)
    {
      var t := tasks[a];
      var outcome := if t.closeRequested || t.stopRequested then Cancelled else update.outcome;
      var turn := if outcome in {Failed, RuntimeLost, ResultInvalid} then TurnFailed else Idle;
      tasks := tasks[a := t.(
      phase := Terminal, outcome := Some(outcome), completedAt := Coalesce(t.completedAt, now),
      failureCode := update.failureCode, failureMessage := update.failureMessage, turnState := turn,
      closedAt := if t.closeRequested then Coalesce(t.closedAt, now) else t.closedAt)];
      SettleTerminalCommands(a, update.failureCode.GetOr("TASK_TERMINATED"));
      InsertLedger(LedgerRow(a, t.ownerEpoch, Some(t.phase), Terminal, Some(outcome), update.failureCode, now));
    }

    method ActiveIn(workspace: string, repository: Option<string>, except: Option<Id>) returns (busyWith: Option<Id>)
      ensures busyWith == BusyWith(Snapshot(), BusyIn(Snapshot(), workspace, repository, except))
    {
      var busy := set a | a in tasks && Some(a) != except && tasks[a].spec.workspacePath == workspace &&
                          (repository.None? || tasks[a].spec.repository == repository.value) &&
                          tasks[a].phase != Terminal;
      assert busy == BusyIn(Snapshot(), workspace, repository, except);
      var created := map a | a in tasks :: tasks[a].createdAt;
      var first := FindFirstRow(order, created, busy);
      assert created == TaskTimes(Snapshot());
      return if first.None? then None else Some(order[first.value]);
    }

    // ----- Admission -----

    method WriteTask(spec: TaskSpec, budget: Budget, now: int)
      modifies this`order, this`tasks, this`ledger
      ensures Snapshot() == Insert(old(Snapshot()), spec, budget, now)
    {
      order := order + [spec.agentId];
      tasks := tasks[spec.agentId := FreshTask(|order|, spec, budget, now)];
      InsertLedger(LedgerRow(spec.agentId, 0, None, Queued, None, None, now));
    }

    method EnqueueTask(spec: TaskSpec, request: BudgetRequest, now: int) returns (r: Reply<Disposition>)
      modifies this`order, this`tasks, this`ledger
      ensures (Snapshot(), r) == Enqueue(old(Snapshot()), spec, request, now)
    {
      ghost var s := Snapshot();
      if !ValidSpec(spec) {
        return Err(InvalidState);
      }
      var resolved := ResolveBudget(request);
      if resolved.Err? {
        return Err(InvalidState);
      }
      if exists a :: a in tasks && tasks[a].spec.idempotencyKey == spec.idempotencyKey {
        if spec.agentId in tasks {
          var t := tasks[spec.agentId];
          if t.spec == spec && t.budget == resolved.value {
            return Ok(Existing);
          }
        }
        return Err(Conflict(None));
      }
      if spec.agentId in tasks {
        return Err(Conflict(None));
      }
      if spec.Direct() {
        var busyWith := ActiveIn(spec.workspacePath, Some(spec.repository), None);
        if busyWith.Some? {
          return Err(Conflict(busyWith));
        }
      }
      WriteTask(spec, resolved.value, now);
      return Ok(Created);
    }

    method OldestClaimable(limit: nat) returns (first: Option<nat>)
      ensures first == FirstRow(order, TaskTimes(Snapshot()), Claimable(Snapshot(), limit))
      ensures first.Some? ==> first.value < |order| && order[first.value] in tasks
    {
      var created := map a | a in tasks :: tasks[a].createdAt;
      var eligible := set a | a in tasks && tasks[a].phase == Queued && !tasks[a].closeRequested &&
                              |OwnedIn(Snapshot(), tasks[a].spec.repository)| < limit;
      assert eligible == Claimable(Snapshot(), limit) && created == TaskTimes(Snapshot());
      first := FindFirstRow(order, created, eligible);
    }

    method WriteClaim(a: Id, owner: string, now: int)
      requires a in tasks
      modifies this`tasks, this`ledger
      ensures Snapshot() == Claim(old(Snapshot()), a, owner, now)
    {
      var t := tasks[a];
      tasks := tasks[a := t.(
      phase := Preparing, ownerId := Some(owner), ownerEpoch := t.ownerEpoch + 1,
      startedAt := Coalesce(t.startedAt, now), heartbeatAt := Some(now))];
      InsertLedger(LedgerRow(a, t.ownerEpoch + 1, Some(Queued), Preparing, None, Some("CLAIMED"), now));
    }

    method ClaimNextTask(owner: string, limit: nat, now: int) returns (r: Reply<Option<Id>>)
      modifies this`tasks, this`ledger
      ensures (Snapshot(), r) == ClaimNext(old(Snapshot()), owner, limit, now)
    {
      if limit == 0 {
        return Ok(None);
      }
      if limit > I64_MAX {
        return Err(InvalidState);
      }
      var first := OldestClaimable(limit);
      if first.None? {
        return Ok(None);
      }
      WriteClaim(order[first.value], owner, now);
      return Ok(Some(order[first.value]));
    }

    method MarkSessionRunning(
      a: Id, epoch: nat, runtime: string, identity: Option<ProcessIdentity>, session: Option<string>,
      turn: Option<TurnState>, now: int) returns (r: Reply<bool>)
      modifies this`tasks, this`ledger
      ensures (Snapshot(), r) == MarkRunning(old(Snapshot()), a, epoch, runtime, identity, session, turn, now)
    {
      if epoch > I64_MAX {
        return Err(InvalidState);
      }
      if a !in tasks || tasks[a].ownerEpoch != epoch || tasks[a].phase != Preparing {
        return Ok(false);
      }
      var t := tasks[a];
      tasks := tasks[a := t.(
      phase := Running, runtimeAgentId := Some(runtime), identity := identity, heartbeatAt := Some(now),
      sessionId := if session.Some? then session else t.sessionId, turnState := turn.GetOr(t.turnState))];
      InsertLedger(LedgerRow(a, epoch, Some(Preparing), Running, None, Some("RUNTIME_STARTED"), now));
      return Ok(true);
    }

    // ----- Events and ends -----

    method AppendLifecycle(w: LifecycleWrite, now: int) returns (r: Reply<nat>)
      modifies this`tasks, this`events, this`messages, this`requests, this`ledger
      ensures (Snapshot(), r) == Append(old(Snapshot()), w, now)
    {
      ghost var s := Snapshot();
      if w.sourceSeq > I64_MAX {
        return Err(InvalidState);
      }
      var recorded := FindRecorded(events, w);
      if recorded.Some? {
        return Ok(events[recorded.value].seqNo);
      }
      if w.agent !in tasks {
        return Err(InvalidState);
      }
      var t := tasks[w.agent];
      if t.phase == Terminal || t.ownerEpoch != w.epoch {
        return Err(Conflict(None));
      }
      if t.lastEventSeq >= I64_MAX {
        return Err(InvalidState);
      }
      var n := t.lastEventSeq + 1;
      if SeqTaken(events, w.agent, w.runtime, n) {
        return Err(SqliteError);
      }
      events := events + [NewEvent(w, n, now)];
      var turnState := w.turnState.GetOr(t.turnState);
      tasks := tasks[w.agent := t.(lastEventSeq := n, heartbeatAt := Some(now), turnState := turnState)];
      assert Snapshot() == Record(s, w, n, now);
      if w.terminal.Some? {
        EndTask(w.agent, w.terminal.value, now);
      }
      return Ok(n);
    }

    method TransitionTerminal(a: Id, epoch: nat, update: TerminalUpdate, now: int) returns (r: Reply<Outcome>)
      modifies this`tasks, this`messages, this`requests, this`ledger
      ensures (Snapshot(), r) == Transition(old(Snapshot()), a, epoch, update, now)
    {
      if a !in tasks {
        return Err(InvalidState);
      }
      var t := tasks[a];
      if t.phase == Terminal {
        return if t.outcome.Some? then Ok(t.outcome.value) else Err(InvalidState);
      }
      if t.ownerEpoch != epoch {
        return Err(Conflict(None));
      }
      EndTask(a, update, now);
      return Ok(tasks[a].outcome.value);
    }

    method FailClaimed(a: Id, epoch: nat, code: string, text: string, now: int) returns (r: Reply<Outcome>)
      modifies this`tasks, this`messages, this`requests, this`ledger
      ensures (Snapshot(), r) == FailClaim(old(Snapshot()), a, epoch, code, text, now)
    {
      r := TransitionTerminal(a, epoch, TerminalUpdate(RuntimeLost, Some(code), Some(text)), now);
    }

    method WriteStop(a: Id, close: bool, intent: bool, now: int)
      requires a in tasks
      modifies this`tasks
      ensures tasks == old(tasks)[a := Stopping(old(tasks)[a], close, intent, now)]
    {
      var t := tasks[a];
      var closed := if close then Coalesce(t.closedAt, now) else t.closedAt;
      var next := if t.phase == Terminal then Terminal else Cancelling;
      var flagged := t.(closeRequested := close || t.closeRequested, stopRequested := intent || t.stopRequested);
      tasks := tasks[a := flagged.(phase := next, closedAt := closed)];
    }

    method LogStop(a: Id, t: Task, close: bool, now: int)
      modifies this`ledger
      ensures ledger == old(ledger) + StopRow(a, t, close, now)
    {
      if t.phase != Terminal && t.phase != Cancelling {
        var reason := if close then "CLOSE_REQUESTED" else "STOP_REQUESTED";
        InsertLedger(LedgerRow(a, t.ownerEpoch, Some(t.phase), Cancelling, None, Some(reason), now));
      }
    }

    // `request_stop_internal`
    method RequestStopInternal(a: Id, close: bool, intent: bool, now: int) returns (r: Reply<ControlDecision>)
      modifies this`tasks, this`messages, this`requests, this`ledger
      ensures (Snapshot(), r) == RequestStop(old(Snapshot()), a, close, intent, now)
    {
      if a !in tasks {
        return Err(InvalidState);
      }
      var t := tasks[a];
      WriteStop(a, close, intent, now);
      if t.phase != Terminal {
        SettleTerminalCommands(a, "STOP_REQUESTED");
      }
      LogStop(a, t, close, now);
      return Ok(ControlDecision(tasks[a].phase, t.outcome, t.ownerEpoch,
                                t.phase in {Preparing, Running, WaitingInput, Cancelling},
                                t.stopRequested || t.closeRequested));
    }

    method ReapTask(a: Id, now: int) returns (r: Reply<Outcome>)
      modifies this`tasks
      ensures (Snapshot(), r) == Reap(old(Snapshot()), a, now)
    {
      if a !in tasks || tasks[a].phase != Terminal || tasks[a].outcome.None? {
        return Err(InvalidState);
      }
      var t := tasks[a];
      tasks := tasks[a := t.(ownerId := None, reapedAt := Coalesce(t.reapedAt, now))];
      return Ok(t.outcome.value);
    }

    // ----- Messages -----

    method AddMessage(id: Id, m: Message)
      modifies this`messageOrder, this`messages
      ensures messageOrder == old(messageOrder) + [id] && messages == old(messages)[id := m]
    {
      messageOrder := messageOrder + [id];
      messages := messages[id := m];
    }

    // `requeue_task_for_resume_with_message`
    method RequeueForResume(a: Id, message: Id, content: string, now: int) returns (r: Reply<()>)
      modifies this`tasks, this`results, this`ledger, this`messageOrder, this`messages
      ensures (Snapshot(), r) == Resume(old(Snapshot()), a, message, content, now)
    {
      ghost var s := Snapshot();
      if a !in tasks {
        return Err(SqliteError);
      }
      var t := tasks[a];
      if t.phase != Terminal {
        return Err(Conflict(None));
      }
      if t.sessionId.None? {
        return Err(InvalidState);
      }
      var busyWith := ActiveIn(t.spec.workspacePath, None, Some(a));
      if busyWith.Some? {
        return Err(Conflict(busyWith));
      }
      if message in messages {
        return Err(Conflict(None));
      }
      results := results - {a};
      tasks := tasks[a := Resumed(t)];
      InsertLedger(LedgerRow(a, t.ownerEpoch, Some(Terminal), Queued, None, Some("RESUME_REQUESTED"), now));
      AddMessage(message, NewMessage(Snapshot(), a, content, now));
      assert Snapshot() == Requeue(s, a, message, content, now);
      return Ok(());
    }

    method QueueMessage(id: Id, a: Id, mode: string, content: string, now: int) returns (r: Reply<bool>)
      modifies this`messageOrder, this`messages
      ensures (Snapshot(), r) == InsertMessage(old(Snapshot()), id, a, mode, content, now)
    {
      if mode != "queue" || a !in tasks {
        return Err(InvalidState);
      }
      if tasks[a].phase == Terminal || tasks[a].closeRequested || tasks[a].stopRequested {
        return Err(Conflict(None));
      }
      if id in messages {
        var m := messages[id];
        if m.agent == a && m.mode == mode && m.content == content {
          return Ok(false);
        }
        return Err(Conflict(None));
      }
      AddMessage(id, NewMessage(Snapshot(), a, content, now));
      return Ok(true);
    }

    method ClaimNextMessage(a: Id) returns (r: Reply<Option<Id>>)
      modifies this`messages
      ensures (Snapshot(), r) == ClaimMessage(old(Snapshot()), a)
    {
      ghost var s := Snapshot();
      if a !in tasks {
        return Err(InvalidState);
      }
      if tasks[a].phase != Running || tasks[a].closeRequested || tasks[a].stopRequested {
        return Ok(None);
      }
      var queued := set m | m in messages && messages[m].agent == a && messages[m].state == MsgQueued;
      var created := map m | m in messages :: messages[m].createdAt;
      var first := FindFirstRow(messageOrder, created, queued);
      assert queued == QueuedFor(s, a) && created == MessageTimes(s);
      if first.None? {
        return Ok(None);
      }
      var id := messageOrder[first.value];
      messages := messages[id := messages[id].(state := MsgSending)];
      return Ok(Some(id));
    }

    method CompleteDelivery(id: Id, turn: Option<string>, now: int) returns (r: Reply<bool>)
      modifies this`messages
      ensures (Snapshot(), r) == CompleteMessage(old(Snapshot()), id, turn, now)
    {
      if id !in messages || messages[id].state != MsgSending {
        return Ok(false);
      }
      messages := messages[id := messages[id].(state := MsgDelivered, deliveredAt := Some(now), targetTurn := turn)];
      return Ok(true);
    }

    method FailDelivery(id: Id, code: string, text: string) returns (r: Reply<bool>)
      modifies this`messages
      ensures (Snapshot(), r) == FailMessage(old(Snapshot()), id, code, text)
    {
      if id !in messages || (messages[id].state != MsgQueued && messages[id].state != MsgSending) {
        return Ok(false);
      }
      var failed := messages[id].(state := MsgFailed, failureCode := Some(code), failureMessage := Some(text));
      messages := messages[id := failed];
      return Ok(true);
    }

    // ----- Pending requests -----

    method InsertPendingRequest(id: Id, a: Id, correlation: string, kind: string, payload: string, now: int)
      returns (r: Reply<bool>)
      modifies this`requests, this`tasks, this`ledger
      ensures (Snapshot(), r) == InsertRequest(old(Snapshot()), id, a, correlation, kind, payload, now)
    {
      ghost var s := Snapshot();
      if a !in tasks {
        return Err(InvalidState);
      }
      var t := tasks[a];
      if (t.phase != Running && t.phase != WaitingInput) || t.closeRequested || t.stopRequested {
        return Err(Conflict(None));
      }
      if id in requests {
        var q := requests[id];
        if q.agent == a && q.correlation == correlation && q.kind == kind && q.payload == payload {
          return Ok(false);
        }
        return Err(Conflict(None));
      }
      if exists q :: q in requests && requests[q].agent == a && requests[q].correlation == correlation {
        return Err(InvalidState);
      }
      requests := requests[id := Request(a, correlation, kind, payload, ReqPending, now, None, None, None)];
      if t.phase != WaitingInput {
        tasks := tasks[a := t.(phase := WaitingInput)];
        InsertLedger(LedgerRow(a, t.ownerEpoch, Some(Running), WaitingInput, None, Some("INPUT_REQUESTED"), now));
      }
      return Ok(true);
    }

    method ClaimPendingResponse(a: Id, id: Id, decision: string, content: Option<string>)
      returns (r: Reply<ClaimDisposition>)
      modifies this`requests
      ensures (Snapshot(), r) == ClaimResponse(old(Snapshot()), a, id, decision, content)
    {
      if id !in requests || requests[id].agent != a {
        return Ok(NotFound);
      }
      if requests[id].state != ReqPending {
        return Ok(NotPending(requests[id].state));
      }
      if a !in tasks {
        return Err(InvalidState);
      }
      var t := tasks[a];
      if (t.phase != Running && t.phase != WaitingInput) || t.closeRequested || t.stopRequested {
        return Ok(TaskStopping);
      }
      requests := requests[id := requests[id].(state := ReqSending, decision := Some(decision), content := content)];
      return Ok(ClaimDisposition.Claimed);
    }

    method CompletePendingResponse(a: Id, id: Id, now: int) returns (r: Reply<bool>)
      modifies this`requests, this`tasks, this`ledger
      ensures (Snapshot(), r) == CompleteResponse(old(Snapshot()), a, id, now)
    {
      if id !in requests || requests[id].agent != a || requests[id].state != ReqSending {
        return Ok(false);
      }
      if a !in tasks {
        return Err(InvalidState);
      }
      requests := requests[id := requests[id].(state := ReqResponded, respondedAt := Some(now))];
      var open := HasOpenRequest(requests, a);
      var t := tasks[a];
      if !open && t.phase == WaitingInput && !t.closeRequested && !t.stopRequested {
        tasks := tasks[a := t.(phase := Running)];
        InsertLedger(LedgerRow(a, t.ownerEpoch, Some(WaitingInput), Running, None, Some("INPUT_RESOLVED"), now));
      }
      return Ok(true);
    }

    method ReleasePendingResponse(a: Id, id: Id) returns (r: Reply<bool>)
      modifies this`requests
      ensures (Snapshot(), r) == ReleaseResponse(old(Snapshot()), a, id)
    {
      if id !in requests || requests[id].agent != a || requests[id].state != ReqSending {
        return Ok(false);
      }
      requests := requests[id := requests[id].(state := ReqPending, decision := None, content := None)];
      return Ok(true);
    }

    method CompletionBlockers(a: Id) returns (pending: bool, queued: bool)
      ensures pending == HasOpenRequest(requests, a) && queued == HasOpenMessage(messages, a)
    {
      pending := exists r :: r in requests && requests[r].agent == a && requests[r].state in {ReqPending, ReqSending};
      queued := exists m :: m in messages && messages[m].agent == a && messages[m].state in {MsgQueued, MsgSending};
    }

    // ----- Results -----

    // The checks of a submission: a reply if it ends the transaction without a change.
    method CheckSubmission(a: Id, result: TaskResult, patch: Option<NewArtifact>, canonical: seq<byte>)
      returns (reply: Option<Reply<()>>)
      ensures reply == Unstored(Snapshot(), a, result, patch, canonical)
    {
      if !ValidResult(result) || !ValidPatch(a, result, patch) || a !in tasks {
        return Some(Err(InvalidState));
      }
      if a in results {
        return Some(if results[a].digest == Sha256(canonical) then Ok(()) else Err(Conflict(None)));
      }
      var t := tasks[a];
      if t.phase !in {Preparing, Running, WaitingInput, Cancelling} {
        return Some(Err(Conflict(None)));
      }
      if |canonical| > t.budget.maxResultBytes {
        return Some(Err(InvalidState));
      }
      if result.outcome == Completed {
        var pending, queued := CompletionBlockers(a);
        if pending || queued {
          return Some(Err(Conflict(None)));
        }
      }
      if (t.closeRequested || t.stopRequested) && result.outcome != Cancelled {
        return Some(Err(Conflict(None)));
      }
      if patch.Some? {
        var refusal := ArtifactRefusal(artifacts, patch.value);
        if refusal.Some? {
          return Some(Err(refusal.value));
        }
      }
      return None;
    }

    // `store_task_result_with_patch`
    method StoreTaskResult(a: Id, result: TaskResult, patch: Option<NewArtifact>, canonical: seq<byte>, now: int)
      returns (r: Reply<()>)
      modifies this`tasks, this`messages, this`requests, this`results, this`artifacts, this`ledger
      ensures (Snapshot(), r) == StoreCanonical(old(Snapshot()), a, result, patch, canonical, now)
    {
      var unstored := CheckSubmission(a, result, patch, canonical);
      if unstored.Some? {
        return unstored.value;
      }
      var t := tasks[a];
      if patch.Some? && patch.value.artifactId !in artifacts {
        artifacts := artifacts[patch.value.artifactId := Artifact(patch.value, now)];
      }
      results := results[a := StoredResult(result, Sha256(canonical), RetainResult(t.spec.retainPartial, result))];
      EndTask(a, TerminalUpdate(result.outcome, ResultFailureCode(t, result), t.failureMessage), now);
      return Ok(());
    }

    // `restore_terminal_after_resume_failure`
    method RestoreTerminal(original: Task, result: Option<TaskResult>) returns (r: Reply<()>)
      modifies this`tasks, this`results
      ensures (Snapshot(), r) == Restore(old(Snapshot()), original, result)
    {
      var a := original.spec.agentId;
      if a !in tasks {
        return if result.None? then Ok(()) else Err(SqliteError);
      }
      if original.outcome.None? {
        return Err(SqliteError);
      }
      tasks := tasks[a := Restored(tasks[a], original)];
      if result.Some? {
        results := results[a := StoredResult(
          result.value, Sha256(ResultJson.CanonicalBytes(result.value)),
          RetainResult(original.spec.retainPartial, result.value))];
      }
      return Ok(());
    }

    // ----- Listing -----

    method ListTaskPage(scope: P.Scope, filter: P.Filter, cursor: Option<nat>, limit: nat) returns (r: Reply<P.Page>)
      ensures r == P.ListPage(Snapshot(), scope, filter, cursor, limit)
    {
      if scope == P.Scope(None, None) || limit == 0 {
        return Err(InvalidState);
      }
      if (cursor.Some? && cursor.value > I64_MAX) || SaturatingAdd(limit, 1) > I64_MAX {
        return Err(InvalidState);
      }
      var rows := CollectRows(scope, filter, P.Below(cursor, |order|), limit);
      ghost var all := P.Descending(order, tasks, scope, filter, P.Below(cursor, |order|));
      if |rows| > limit {
        assert rows[..limit] == all[..limit];
        return Ok(P.Page(rows[..limit], Some(rows[limit - 1])));
      }
      return Ok(P.Page(rows, None));
    }

    // `ORDER BY rowid DESC LIMIT limit + 1`
    method CollectRows(scope: P.Scope, filter: P.Filter, from: nat, limit: nat) returns (rows: seq<nat>)
      requires from <= |order|
      ensures rows == P.First(P.Descending(order, tasks, scope, filter, from), limit + 1)
    {
      var n: nat := from;
      ghost var all := P.Descending(order, tasks, scope, filter, n);
      rows := [];
      while n > 0 && |rows| <= limit
        invariant n <= |order| && |rows| <= limit + 1
        invariant all == rows + P.Descending(order, tasks, scope, filter, n)
      {
        if P.ListedAt(order, tasks, scope, filter, n) {
          rows := rows + [n];
        }
        n := n - 1;
      }
      assert |rows| == limit + 1 ==> rows == all[..limit + 1];
    }

    // ----- Any operation -----

    method PerformInput(op: Op, now: int)
      requires IsInput(op)
      modifies this
      ensures Snapshot() == InputStep(old(Snapshot()), op, now)
    {
      match op
      case OpInsertMessage(m, a, mode, content) => var _ := QueueMessage(m, a, mode, content, now);
      case OpClaimMessage(a) => var _ := ClaimNextMessage(a);
      case OpCompleteMessage(m, turn) => var _ := CompleteDelivery(m, turn, now);
      case OpFailMessage(m, code, text) => var _ := FailDelivery(m, code, text);
      case OpInsertRequest(q, a, correlation, kind, payload) =>
        var _ := InsertPendingRequest(q, a, correlation, kind, payload, now);
      case OpClaimResponse(a, q, decision, content) => var _ := ClaimPendingResponse(a, q, decision, content);
      case OpCompleteResponse(a, q) => var _ := CompletePendingResponse(a, q, now);
      case OpReleaseResponse(a, q) => var _ := ReleasePendingResponse(a, q);
    }

    method PerformTask(op: Op, now: int)
      requires !IsInput(op)
      modifies this
      ensures Snapshot() == TaskStep(old(Snapshot()), op, now)
    {
      match op
      case OpEnqueue(spec, request) => var _ := EnqueueTask(spec, request, now);
      case OpClaimNext(owner, limit) => var _ := ClaimNextTask(owner, limit, now);
      case OpMarkRunning(a, epoch, runtime, identity, session, turn) =>
        var _ := MarkSessionRunning(a, epoch, runtime, identity, session, turn, now);
      case OpAppend(write) => var _ := AppendLifecycle(write, now);
      case OpTransition(a, epoch, update) => var _ := TransitionTerminal(a, epoch, update, now);
      case OpFailClaim(a, epoch, code, text) => var _ := FailClaimed(a, epoch, code, text, now);
      case OpStop(a, close, intent) => var _ := RequestStopInternal(a, close, intent, now);
      case OpResume(a, message, content) => var _ := RequeueForResume(a, message, content, now);
      case OpReap(a) => var _ := ReapTask(a, now);
      case OpStoreResult(a, result, patch) =>
        var _ := StoreTaskResult(a, result, patch, ResultJson.CanonicalBytes(result), now);
    }

    /** Every operation takes the store one step and keeps its invariant. */
    method Perform(op: Op, now: int)
      requires Valid()
      modifies this
      ensures Valid() && Snapshot() == Step(old(Snapshot()), op, now)
    {
      StepKeeps(Snapshot(), op, now);
      if IsInput(op) {
        PerformInput(op, now);
      } else {
        PerformTask(op, now);
      }
    }
  }
}
