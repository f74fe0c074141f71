// Each public operation of the store as a function from the tables to a reply and the
// new tables. An error reply always comes with the old tables: the transaction rolls back.
module StoreSpec {
  import opened Prelude
  import opened TaskTypes
  import opened ResultJson

  const MIN_RESULT_BYTES: nat := 512

  const DEFAULT_BUDGET := Budget(
                            3_600_000, 90_000, 90_000, 300_000, 300_000, 32, 128, 1_048_576, 1_048_576, 16_777_216)

  const MAX_BUDGET := Budget(
                        86_400_000, 86_400_000, 86_400_000, 86_400_000, 86_400_000, 1024, 4096, 16_777_216, 16_777_216,
                        268_435_456)

  // ----- Admission -----

  predicate WithinCap(value: nat, cap: nat) { 0 < value <= cap }

  function ResolveBudget(request: BudgetRequest): (r: Reply<Budget>)
    ensures r.Ok? ==> MIN_RESULT_BYTES <= r.value.maxResultBytes <= MAX_BUDGET.maxResultBytes
  {
    if request.Null? then Err(InvalidState)
    else
      var v := if request.Omitted? then DEFAULT_BUDGET else request.limits;
      if && WithinCap(v.absoluteWallTimeMs, MAX_BUDGET.absoluteWallTimeMs)
         && WithinCap(v.runtimeActivityIdleTimeoutMs, MAX_BUDGET.runtimeActivityIdleTimeoutMs)
         && WithinCap(v.modelStreamIdleTimeoutMs, MAX_BUDGET.modelStreamIdleTimeoutMs)
         && WithinCap(v.toolCallTimeoutMs, MAX_BUDGET.toolCallTimeoutMs)
         && WithinCap(v.inputWaitTimeoutMs, MAX_BUDGET.inputWaitTimeoutMs)
         && WithinCap(v.maxTurns, MAX_BUDGET.maxTurns)
         && WithinCap(v.maxToolCalls, MAX_BUDGET.maxToolCalls)
         && WithinCap(v.maxContextBytes, MAX_BUDGET.maxContextBytes)
         && WithinCap(v.maxResultBytes, MAX_BUDGET.maxResultBytes)
         && WithinCap(v.maxArtifactBytes, MAX_BUDGET.maxArtifactBytes)
         && MIN_RESULT_BYTES <= v.maxResultBytes
      then Ok(v) else Err(InvalidState)
  }

  predicate ValidText(s: string) { !Blank(s) && '\0' !in s }

  predicate ValidSpec(t: TaskSpec) {
    && ValidText(t.agentId.text) && ValidText(t.idempotencyKey) && ValidText(t.repository)
    && ValidText(t.workspacePath) && ValidText(t.launchJson) && ValidText(t.launchSha256)
    && ValidText(t.initialPrompt)
    && (t.groupId.Some? ==> !Blank(t.groupId.value))
  }

  // `ORDER BY created_at,rowid LIMIT 1` over the rows whose key is in `ids`: the index of the
  // row found.
  function FirstRow(order: seq<Id>, created: map<Id, int>, ids: set<Id>): (r: Option<nat>)
    requires forall a :: a in ids ==> a in created
    ensures r.None? <==> forall i :: 0 <= i < |order| ==> order[i] !in ids
    ensures r.Some? ==>
              && r.value < |order| && order[r.value] in ids
              && forall j :: 0 <= j < |order| && order[j] in ids && j != r.value ==>
                               || created[order[r.value]] < created[order[j]]
                               || (created[order[r.value]] == created[order[j]] && r.value < j)
  {
    if order == [] then None
    else
      var last := |order| - 1;
      var best := FirstRow(order[..last], created, ids);
      if order[last] in ids && (best.None? || created[order[last]] < created[order[best.value]])
      then Some(last) else best
  }

  function TaskTimes(s: State): map<Id, int> {
    map a | a in s.tasks :: s.tasks[a].createdAt
  }

  function MessageTimes(s: State): map<Id, int> {
    map m | m in s.messages :: s.messages[m].createdAt
  }

  // The nonterminal tasks of a workspace, restricted to one repository where the query is.
  function BusyIn(s: State, workspace: string, repository: Option<string>, except: Option<Id>): set<Id> {
    set a | && a in s.tasks && Some(a) != except
            && s.tasks[a].spec.workspacePath == workspace
            && (repository.Some? ==> s.tasks[a].spec.repository == repository.value)
            && s.tasks[a].phase != Terminal
  }

  function BusyWith(s: State, busy: set<Id>): Option<Id>
    requires forall a :: a in busy ==> a in s.tasks
  {
    match FirstRow(s.order, TaskTimes(s), busy)
    case None => None
    case Some(i) => Some(s.order[i])
  }

  function Logged(s: State, row: LedgerRow): State {
    s.(ledger := s.ledger + [row])
  }

  function FreshTask(rowid: nat, spec: TaskSpec, budget: Budget, now: int): Task {
    Task(rowid, spec, budget, Queued, None, None, 0, false, false, None, Idle, None, None,
         now, None, None, None, 0, None, None, None, None)
  }

  function Insert(s: State, spec: TaskSpec, budget: Budget, now: int): State {
    var a := spec.agentId;
    Logged(s.(order := s.order + [a], tasks := s.tasks[a := FreshTask(|s.order| + 1, spec, budget, now)]),
           LedgerRow(a, 0, None, Queued, None, None, now))
  }

  function Enqueue(s: State, spec: TaskSpec, request: BudgetRequest, now: int): (State, Reply<Disposition>) {
    if !ValidSpec(spec) then (s, Err(InvalidState))
    else if ResolveBudget(request).Err? then (s, Err(InvalidState))
    else
      var budget := ResolveBudget(request).value;
      if exists a :: a in s.tasks && s.tasks[a].spec.idempotencyKey == spec.idempotencyKey then
        if && spec.agentId in s.tasks
           && s.tasks[spec.agentId].spec == spec && s.tasks[spec.agentId].budget == budget
        then (s, Ok(Existing))
        else (s, Err(Conflict(None)))
      else if spec.agentId in s.tasks then (s, Err(Conflict(None)))
      else
        var busy := BusyIn(s, spec.workspacePath, Some(spec.repository), None);
        if spec.Direct() && BusyWith(s, busy).Some? then (s, Err(Conflict(BusyWith(s, busy))))
        else (Insert(s, spec, budget, now), Ok(Created))
  }

  // ----- Claiming and running -----

  function OwnedIn(s: State, repository: string): set<Id> {
    set a | a in s.tasks && s.tasks[a].spec.repository == repository && s.tasks[a].Owned()
  }

  function Claimable(s: State, limit: nat): set<Id> {
    set a | && a in s.tasks && s.tasks[a].phase == Queued && !s.tasks[a].closeRequested
            && |OwnedIn(s, s.tasks[a].spec.repository)| < limit
  }

  function Coalesce<T>(old_: Option<T>, new_: T): Option<T> {
    if old_.Some? then old_ else Some(new_)
  }

  function ClaimedBy(t: Task, owner: string, now: int): Task {
    t.(phase := Preparing, ownerId := Some(owner), ownerEpoch := t.ownerEpoch + 1,
    startedAt := Coalesce(t.startedAt, now), heartbeatAt := Some(now))
  }

  function Claim(s: State, a: Id, owner: string, now: int): State
    requires a in s.tasks
  {
    var t' := ClaimedBy(s.tasks[a], owner, now);
    Logged(s.(tasks := s.tasks[a := t']),
           LedgerRow(a, t'.ownerEpoch, Some(Queued), Preparing, None, Some("CLAIMED"), now))
  }

  function ClaimNext(s: State, owner: string, limit: nat, now: int): (State, Reply<Option<Id>>) {
    if limit == 0 then (s, Ok(None))
    else if limit > I64_MAX then (s, Err(InvalidState))
    else
      match FirstRow(s.order, TaskTimes(s), Claimable(s, limit))
      case None => (s, Ok(None))
      case Some(i) => (Claim(s, s.order[i], owner, now), Ok(Some(s.order[i])))
  }

  function RunningAs(
    t: Task, runtime: string, identity: Option<ProcessIdentity>, session: Option<string>,
    turn: Option<TurnState>, now: int): Task
  {
    t.(phase := Running, runtimeAgentId := Some(runtime), identity := identity, heartbeatAt := Some(now),
    sessionId := if session.Some? then session else t.sessionId, turnState := turn.GetOr(t.turnState))
  }

  function MarkRunning(
    s: State, a: Id, epoch: nat, runtime: string, identity: Option<ProcessIdentity>,
    session: Option<string>, turn: Option<TurnState>, now: int): (State, Reply<bool>)
  {
    if epoch > I64_MAX then (s, Err(InvalidState))
    else if a !in s.tasks || s.tasks[a].ownerEpoch != epoch || s.tasks[a].phase != Preparing then (s, Ok(false))
    else
      (Logged(s.(tasks := s.tasks[a := RunningAs(s.tasks[a], runtime, identity, session, turn, now)]),
       LedgerRow(a, epoch, Some(Preparing), Running, None, Some("RUNTIME_STARTED"), now)),
       Ok(true))
  }

  // ----- Terminal transitions -----

  function FailOpen(messages: map<Id, Message>, a: Id, reason: string): map<Id, Message> {
    map m | m in messages ::
      if messages[m].agent == a && messages[m].Open() then
        messages[m].(state := MsgFailed, failureCode := Some(reason),
        failureMessage := Some("runtime is no longer available"))
      else messages[m]
  }

  function DropOpen(requests: map<Id, Request>, a: Id): map<Id, Request> {
    map r | r in requests && !(requests[r].agent == a && requests[r].Open()) :: requests[r]
  }

  // `settle_terminal_commands`: open messages fail, open requests are deleted.
  function Settle(s: State, a: Id, reason: string): State {
    s.(messages := FailOpen(s.messages, a, reason), requests := DropOpen(s.requests, a))
  }

  // Cancellation intent overrides the outcome that was asked for.
  function EffectiveOutcome(t: Task, asked: Outcome): Outcome {
    if t.Flagged() then Cancelled else asked
  }

  function Ended(t: Task, update: TerminalUpdate, now: int): Task {
    var outcome := EffectiveOutcome(t, update.outcome);
    t.(phase := Terminal, outcome := Some(outcome),
    completedAt := Coalesce(t.completedAt, now),
    failureCode := update.failureCode, failureMessage := update.failureMessage,
    turnState := if outcome in {Failed, RuntimeLost, ResultInvalid} then TurnFailed else Idle,
    closedAt := if t.closeRequested then Coalesce(t.closedAt, now) else t.closedAt)
  }

  function EndRow(a: Id, t: Task, update: TerminalUpdate, now: int): LedgerRow {
    LedgerRow(a, t.ownerEpoch, Some(t.phase), Terminal, Some(EffectiveOutcome(t, update.outcome)),
              update.failureCode, now)
  }

  // `apply_terminal`, for a task that is not TERMINAL.
  function ApplyTerminal(s: State, a: Id, update: TerminalUpdate, now: int): State
    requires a in s.tasks
  {
    var t := s.tasks[a];
    var s1 := s.(tasks := s.tasks[a := Ended(t, update, now)]);
    Logged(Settle(s1, a, update.failureCode.GetOr("TASK_TERMINATED")), EndRow(a, t, update, now))
  }

  predicate SameSource(e: Event, w: LifecycleWrite) {
    e.agent == w.agent && e.runtime == w.runtime && e.sourceSeq == w.sourceSeq
  }

  // The index of the first row that carries the write's (agent, runtime, source_seq).
  function FindSource(events: seq<Event>, w: LifecycleWrite): (r: Option<nat>)
    ensures r.None? <==> forall i :: 0 <= i < |events| ==> !SameSource(events[i], w)
    ensures r.Some? ==> r.value < |events| && SameSource(events[r.value], w)
    ensures r.Some? ==> forall i :: 0 <= i < r.value ==> !SameSource(events[i], w)
  {
    if events == [] then None
    else
      var last := |events| - 1;
      var earlier := FindSource(events[..last], w);
      if earlier.Some? then earlier
      else if SameSource(events[last], w) then Some(last) else None
  }

  // The primary key (agent, runtime, seq) of the events table.
  predicate SeqTaken(events: seq<Event>, a: Id, runtime: string, n: nat) {
    exists i :: 0 <= i < |events| && events[i].agent == a && events[i].runtime == runtime && events[i].seqNo == n
  }

  function NewEvent(w: LifecycleWrite, n: nat, now: int): Event {
    Event(w.agent, w.runtime, n, w.sourceSeq, now, w.kind, w.turnId, w.payload, w.redaction)
  }

  function Record(s: State, w: LifecycleWrite, n: nat, now: int): State
    requires w.agent in s.tasks
  {
    var t := s.tasks[w.agent];
    s.(events := s.events + [NewEvent(w, n, now)],
    tasks := s.tasks[w.agent := t.(lastEventSeq := n, heartbeatAt := Some(now),
    turnState := w.turnState.GetOr(t.turnState))])
  }

  // The event row, and the end of the task when the write carries one.
  function Admit(s: State, w: LifecycleWrite, n: nat, now: int): State
    requires w.agent in s.tasks
  {
    var s1 := Record(s, w, n, now);
    if w.terminal.Some? then ApplyTerminal(s1, w.agent, w.terminal.value, now) else s1
  }

  // Why a write that is not a repetition is refused, if it is.
  function AppendRefusal(s: State, w: LifecycleWrite): Option<StoreError> {
    if w.agent !in s.tasks then Some(InvalidState)
    else
      var t := s.tasks[w.agent];
      if t.phase == Terminal || t.ownerEpoch != w.epoch then Some(Conflict(None))
      else if t.lastEventSeq >= I64_MAX then Some(InvalidState)
      else if SeqTaken(s.events, w.agent, w.runtime, t.lastEventSeq + 1) then Some(SqliteError)
      else None
  }

  function Append(s: State, w: LifecycleWrite, now: int): (State, Reply<nat>) {
    if w.sourceSeq > I64_MAX then (s, Err(InvalidState))
    else if FindSource(s.events, w).Some? then (s, Ok(s.events[FindSource(s.events, w).value].seqNo))
    else if AppendRefusal(s, w).Some? then (s, Err(AppendRefusal(s, w).value))
    else
      var n := s.tasks[w.agent].lastEventSeq + 1;
      (Admit(s, w, n, now), Ok(n))
  }

  function Transition(s: State, a: Id, epoch: nat, update: TerminalUpdate, now: int): (State, Reply<Outcome>) {
    if a !in s.tasks then (s, Err(InvalidState))
    else
      var t := s.tasks[a];
      if t.phase == Terminal then
        (s, if t.outcome.Some? then Ok(t.outcome.value) else Err(InvalidState))
      else if t.ownerEpoch != epoch then (s, Err(Conflict(None)))
      else (ApplyTerminal(s, a, update, now), Ok(EffectiveOutcome(t, update.outcome)))
  }

  // `fail_claim`
  function FailClaim(s: State, a: Id, epoch: nat, code: string, message: string, now: int): (State, Reply<Outcome>) {
    Transition(s, a, epoch, TerminalUpdate(RuntimeLost, Some(code), Some(message)), now)
  }

  // ----- Stop, close, resume, reap -----

  function Stopping(t: Task, close: bool, intent: bool, now: int): Task {
    var flagged := t.(closeRequested := close || t.closeRequested, stopRequested := intent || t.stopRequested);
    var closedAt := if close then Coalesce(t.closedAt, now) else t.closedAt;
    flagged.(phase := if t.phase == Terminal then Terminal else Cancelling, closedAt := closedAt)
  }

  // The ledger row of a stop, when the phase changes.
  function StopRow(a: Id, t: Task, close: bool, now: int): seq<LedgerRow> {
    if t.phase == Terminal || t.phase == Cancelling then []
    else [LedgerRow(a, t.ownerEpoch, Some(t.phase), Cancelling, None,
                    Some(if close then "CLOSE_REQUESTED" else "STOP_REQUESTED"), now)]
  }

  function RequestStop(s: State, a: Id, close: bool, intent: bool, now: int): (State, Reply<ControlDecision>) {
    if a !in s.tasks then (s, Err(InvalidState))
    else
      var t := s.tasks[a];
      var t' := Stopping(t, close, intent, now);
      var s1 := s.(tasks := s.tasks[a := t']);
      var s2 := if t.phase == Terminal then s1 else Settle(s1, a, "STOP_REQUESTED");
      (s2.(ledger := s.ledger + StopRow(a, t, close, now)),
       Ok(ControlDecision(t'.phase, t.outcome, t.ownerEpoch, t.Owned(), t.Flagged())))
  }

  function NewMessage(s: State, a: Id, content: string, now: int): Message {
    Message(|s.messageOrder| + 1, a, "queue", content, MsgQueued, now, None, None, None, None)
  }

  function WithMessage(s: State, id: Id, m: Message): State {
    s.(messageOrder := s.messageOrder + [id], messages := s.messages[id := m])
  }

  function Resumed(t: Task): Task {
    t.(phase := Queued, outcome := None, ownerId := None, closeRequested := false, stopRequested := false,
    failureCode := None, failureMessage := None, closedAt := None, reapedAt := None,
    completedAt := None, lastEventSeq := 0, turnState := Idle, identity := None, runtimeAgentId := None)
  }

  // The new state of a resume that is accepted.
  function Requeue(s: State, a: Id, message: Id, content: string, now: int): State
    requires a in s.tasks
  {
    var t := s.tasks[a];
    var s1 := s.(results := s.results - {a}, tasks := s.tasks[a := Resumed(t)]);
    var s2 := Logged(s1, LedgerRow(a, t.ownerEpoch, Some(Terminal), Queued, None, Some("RESUME_REQUESTED"), now));
    WithMessage(s2, message, NewMessage(s2, a, content, now))
  }

  function Resume(s: State, a: Id, message: Id, content: string, now: int): (State, Reply<()>) {
    if a !in s.tasks then (s, Err(SqliteError))
    else
      var t := s.tasks[a];
      var busy := BusyIn(s, t.spec.workspacePath, None, Some(a));
      if t.phase != Terminal then (s, Err(Conflict(None)))
      else if t.sessionId.None? then (s, Err(InvalidState))
      else if BusyWith(s, busy).Some? then (s, Err(Conflict(BusyWith(s, busy))))
      else if message in s.messages then (s, Err(Conflict(None)))
      else (Requeue(s, a, message, content, now), Ok(()))
  }

  function Reap(s: State, a: Id, now: int): (State, Reply<Outcome>) {
    if a !in s.tasks || s.tasks[a].phase != Terminal || s.tasks[a].outcome.None? then (s, Err(InvalidState))
    else
      var t := s.tasks[a];
      (s.(tasks := s.tasks[a := t.(ownerId := None, reapedAt := Coalesce(t.reapedAt, now))]), Ok(t.outcome.value))
  }

  // ----- Results -----

  predicate ValidResult(r: TaskResult) {
    !Blank(r.finalText) && !(r.partial && r.outcome == Completed)
  }

  predicate ValidPatch(a: Id, r: TaskResult, patch: Option<NewArtifact>) {
    if r.artifacts == [] then patch.None?
    else
      && |r.artifacts| == 1 && patch.Some?
      && r.artifacts[0].artifactId == patch.value.artifactId
      && r.artifacts[0].sha256 == patch.value.sha256
      && patch.value.agent == a && patch.value.kind == "changes_patch"
  }

  function RetainResult(retainPartial: bool, r: TaskResult): bool {
    !r.partial || r.outcome == Completed ||
    (retainPartial && r.outcome != RuntimeLost && r.outcome != ResultInvalid)
  }

  predicate HasOpenRequest(requests: map<Id, Request>, a: Id) {
    exists r :: r in requests && requests[r].agent == a && requests[r].Open()
  }

  predicate HasOpenMessage(messages: map<Id, Message>, a: Id) {
    exists m :: m in messages && messages[m].agent == a && messages[m].Open()
  }

  // `insert_artifact_tx`: an identical row is accepted again, a different one refused.
  function ArtifactRefusal(artifacts: map<Id, Artifact>, patch: NewArtifact): Option<StoreError> {
    if patch.kind != "changes_patch" || patch.bytes > I64_MAX then Some(InvalidState)
    else if patch.artifactId in artifacts && artifacts[patch.artifactId].row != patch then Some(Conflict(None))
    else None
  }

  function WithArtifact(artifacts: map<Id, Artifact>, patch: Option<NewArtifact>, now: int): (r: map<Id, Artifact>)
    ensures forall x :: x in artifacts ==> x in r && r[x] == artifacts[x]
  {
    if patch.None? || patch.value.artifactId in artifacts then artifacts
    else artifacts[patch.value.artifactId := Artifact(patch.value, now)]
  }

  function ResultFailureCode(t: Task, r: TaskResult): Option<string> {
    if t.failureCode.Some? then t.failureCode
    else if r.outcome != Completed && r.residualGaps != [] then Some(r.residualGaps[|r.residualGaps| - 1])
    else None
  }

  // Why a first result for a task in an owned phase is refused, if it is.
  function ResultRefusal(s: State, a: Id, r: TaskResult, size: nat): Option<StoreError>
    requires a in s.tasks
  {
    var t := s.tasks[a];
    if size > t.budget.maxResultBytes then Some(InvalidState)
    else if r.outcome == Completed && (HasOpenRequest(s.requests, a) || HasOpenMessage(s.messages, a)) then
      Some(Conflict(None))
    else if t.Flagged() && r.outcome != Cancelled then Some(Conflict(None))
    else None
  }

  function Conclude(s: State, a: Id, r: TaskResult, digest: Digest, now: int): State
    requires a in s.tasks
  {
    var t := s.tasks[a];
    var stored := StoredResult(r, digest, RetainResult(t.spec.retainPartial, r));
    ApplyTerminal(s.(results := s.results[a := stored]), a,
                  TerminalUpdate(r.outcome, ResultFailureCode(t, r), t.failureMessage), now)
  }

  // The reply when a submission stores nothing: an error, or success for an identical result.
  function Unstored(s: State, a: Id, r: TaskResult, patch: Option<NewArtifact>, canonical: seq<byte>): Option<Reply<()>> {
    if !ValidResult(r) || !ValidPatch(a, r, patch) then Some(Err(InvalidState))
    else if a !in s.tasks then Some(Err(InvalidState))
    else if a in s.results then
      Some(if s.results[a].digest == Sha256(canonical) then Ok(()) else Err(Conflict(None)))
    else if !s.tasks[a].Owned() then Some(Err(Conflict(None)))
    else if ResultRefusal(s, a, r, |canonical|).Some? then Some(Err(ResultRefusal(s, a, r, |canonical|).value))
    else if patch.Some? && ArtifactRefusal(s.artifacts, patch.value).Some?
    then Some(Err(ArtifactRefusal(s.artifacts, patch.value).value))
    else None
  }

  // `store_task_result_with_patch`, given the canonical bytes of the result.
  function StoreCanonical(
    s: State, a: Id, r: TaskResult, patch: Option<NewArtifact>, canonical: seq<byte>, now: int): (State, Reply<()>)
  {
    match Unstored(s, a, r, patch, canonical)
    case Some(reply) => (s, reply)
    case None =>
      (Conclude(s.(artifacts := WithArtifact(s.artifacts, patch, now)), a, r, Sha256(canonical), now), Ok(()))
  }

  function StoreResult(s: State, a: Id, r: TaskResult, patch: Option<NewArtifact>, now: int): (State, Reply<()>) {
    StoreCanonical(s, a, r, patch, CanonicalBytes(r), now)
  }

  // ----- Messages -----

  function InsertMessage(s: State, id: Id, a: Id, mode: string, content: string, now: int): (State, Reply<bool>) {
    if mode != "queue" then (s, Err(InvalidState))
    else if a !in s.tasks then (s, Err(InvalidState))
    else if s.tasks[a].phase == Terminal || s.tasks[a].Flagged() then (s, Err(Conflict(None)))
    else if id in s.messages then
      var m := s.messages[id];
      if m.agent == a && m.mode == mode && m.content == content then (s, Ok(false)) else (s, Err(Conflict(None)))
    else (WithMessage(s, id, NewMessage(s, a, content, now)), Ok(true))
  }

  function QueuedFor(s: State, a: Id): set<Id> {
    set m | m in s.messages && s.messages[m].agent == a && s.messages[m].state == MsgQueued
  }

  function ClaimMessage(s: State, a: Id): (State, Reply<Option<Id>>) {
    if a !in s.tasks then (s, Err(InvalidState))
    else if s.tasks[a].phase != Running || s.tasks[a].Flagged() then (s, Ok(None))
    else
      match FirstRow(s.messageOrder, MessageTimes(s), QueuedFor(s, a))
      case None => (s, Ok(None))
      case Some(i) =>
        var id := s.messageOrder[i];
        (s.(messages := s.messages[id := s.messages[id].(state := MsgSending)]), Ok(Some(id)))
  }

  function CompleteMessage(s: State, id: Id, turn: Option<string>, now: int): (State, Reply<bool>) {
    if id !in s.messages || s.messages[id].state != MsgSending then (s, Ok(false))
    else
      var m := s.messages[id].(state := MsgDelivered, deliveredAt := Some(now), targetTurn := turn);
      (s.(messages := s.messages[id := m]), Ok(true))
  }

  function FailMessage(s: State, id: Id, code: string, text: string): (State, Reply<bool>) {
    if id !in s.messages || !s.messages[id].Open() then (s, Ok(false))
    else
      var m := s.messages[id].(state := MsgFailed, failureCode := Some(code), failureMessage := Some(text));
      (s.(messages := s.messages[id := m]), Ok(true))
  }

  // ----- Pending requests -----

  // `UNIQUE (agent_id, correlation_id)`
  predicate CorrelationTaken(s: State, a: Id, correlation: string) {
    exists r :: r in s.requests && s.requests[r].agent == a && s.requests[r].correlation == correlation
  }

  function InsertRequest(
    s: State, id: Id, a: Id, correlation: string, kind: string, payload: string, now: int): (State, Reply<bool>)
  {
    if a !in s.tasks then (s, Err(InvalidState))
    else
      var t := s.tasks[a];
      if (t.phase != Running && t.phase != WaitingInput) || t.Flagged() then (s, Err(Conflict(None)))
      else if id in s.requests then
        var r := s.requests[id];
        if r.agent == a && r.correlation == correlation && r.kind == kind && r.payload == payload
        then (s, Ok(false)) else (s, Err(Conflict(None)))
      else if CorrelationTaken(s, a, correlation) then (s, Err(InvalidState))
      else
        var r := Request(a, correlation, kind, payload, ReqPending, now, None, None, None);
        var s1 := s.(requests := s.requests[id := r]);
        if t.phase == WaitingInput then (s1, Ok(true))
        else
          (Logged(s1.(tasks := s.tasks[a := t.(phase := WaitingInput)]),
           LedgerRow(a, t.ownerEpoch, Some(Running), WaitingInput, None, Some("INPUT_REQUESTED"), now)),
           Ok(true))
  }

  function ClaimResponse(
    s: State, a: Id, id: Id, decision: string, content: Option<string>): (State, Reply<ClaimDisposition>)
  {
    if id !in s.requests || s.requests[id].agent != a then (s, Ok(NotFound))
    else if s.requests[id].state != ReqPending then (s, Ok(NotPending(s.requests[id].state)))
    else if a !in s.tasks then (s, Err(InvalidState))
    else if (s.tasks[a].phase != Running && s.tasks[a].phase != WaitingInput) || s.tasks[a].Flagged()
    then (s, Ok(TaskStopping))
    else
      var r := s.requests[id].(state := ReqSending, decision := Some(decision), content := content);
      (s.(requests := s.requests[id := r]), Ok(Claimed))
  }

  function CompleteResponse(s: State, a: Id, id: Id, now: int): (State, Reply<bool>) {
    if id !in s.requests || s.requests[id].agent != a || s.requests[id].state != ReqSending then (s, Ok(false))
    else if a !in s.tasks then (s, Err(InvalidState))
    else
      var r := s.requests[id].(state := ReqResponded, respondedAt := Some(now));
      var s1 := s.(requests := s.requests[id := r]);
      var t := s.tasks[a];
      if HasOpenRequest(s1.requests, a) || t.phase != WaitingInput || t.Flagged() then (s1, Ok(true))
      else
        (Logged(s1.(tasks := s.tasks[a := t.(phase := Running)]),
         LedgerRow(a, t.ownerEpoch, Some(WaitingInput), Running, None, Some("INPUT_RESOLVED"), now)),
         Ok(true))
  }

  function ReleaseResponse(s: State, a: Id, id: Id): (State, Reply<bool>) {
    if id !in s.requests || s.requests[id].agent != a || s.requests[id].state != ReqSending then (s, Ok(false))
    else
      var r := s.requests[id].(state := ReqPending, decision := None, content := None);
      (s.(requests := s.requests[id := r]), Ok(true))
  }

  // ----- Resume rollback -----

  // `restore_terminal_after_resume_failure`: rewrites the task row from a copy taken earlier,
  // whatever the row's phase is now, and puts the result back when one is given.
  function Restored(t: Task, original: Task): Task {
    t.(phase := Terminal, outcome := original.outcome, ownerId := original.ownerId,
    closeRequested := original.closeRequested, stopRequested := original.stopRequested,
    failureCode := original.failureCode, failureMessage := original.failureMessage,
    runtimeAgentId := original.runtimeAgentId, sessionId := original.sessionId,
    turnState := original.turnState, identity := original.identity,
    closedAt := original.closedAt, reapedAt := original.reapedAt, lastEventSeq := original.lastEventSeq)
  }

  function Restore(s: State, original: Task, result: Option<TaskResult>): (State, Reply<()>) {
    var a := original.spec.agentId;
    if a !in s.tasks then (s, if result.None? then Ok(()) else Err(SqliteError))
    else if original.outcome.None? then (s, Err(SqliteError))
    else
      var s1 := s.(tasks := s.tasks[a := Restored(s.tasks[a], original)]);
      if result.None? then (s1, Ok(()))
      else
        var stored := StoredResult(result.value, Sha256(CanonicalBytes(result.value)),
                                   RetainResult(original.spec.retainPartial, result.value));
        (s1.(results := s.results[a := stored]), Ok(()))
  }
}
