// The rows of the durable task store (crates/zcode-agent-store/src/lib.rs).
module TaskTypes {
  import opened Prelude

  // Agent, message, request and artifact identifiers.
  datatype Id = Id(text: string)

  datatype Phase = Queued | Preparing | Running | WaitingInput | Cancelling | Terminal

  datatype Outcome =
    | Completed | Failed | Cancelled | TimedOut | BudgetExhausted | RuntimeLost | ResultInvalid

  datatype TurnState = Idle | Active | TurnFailed

  datatype Budget = Budget(
    absoluteWallTimeMs: nat,
    runtimeActivityIdleTimeoutMs: nat,
    modelStreamIdleTimeoutMs: nat,
    toolCallTimeoutMs: nat,
    inputWaitTimeoutMs: nat,
    maxTurns: nat,
    maxToolCalls: nat,
    maxContextBytes: nat,
    maxResultBytes: nat,
    maxArtifactBytes: nat)

  datatype BudgetRequest = Omitted | Null | Limits(limits: Budget)

  // What a caller submits. `directFlag` is the boolean `direct_workspace` of the
  // prepared-launch document, whose JSON is not decoded here.
  datatype TaskSpec = TaskSpec(
    agentId: Id,
    idempotencyKey: string,
    repository: string,
    groupId: Option<string>,
    workspacePath: string,
    runtimeHash: Option<string>,
    launchJson: string,
    launchSha256: string,
    directFlag: bool,
    initialPrompt: string,
    retainPartial: bool)
  {
    // The task runs in the repository itself, not in a worktree of its own.
    predicate Direct() { workspacePath == repository && directFlag }
  }

  datatype ProcessIdentity = ProcessIdentity(pid: nat, groupId: int, uid: nat, startToken: string)

  datatype Task = Task(
    rowid: nat,
    spec: TaskSpec,
    budget: Budget,
    phase: Phase,
    outcome: Option<Outcome>,
    ownerId: Option<string>,
    ownerEpoch: nat,
    closeRequested: bool,
    stopRequested: bool,
    sessionId: Option<string>,
    turnState: TurnState,
    runtimeAgentId: Option<string>,
    identity: Option<ProcessIdentity>,
    createdAt: int,
    startedAt: Option<int>,
    completedAt: Option<int>,
    heartbeatAt: Option<int>,
    lastEventSeq: nat,
    failureCode: Option<string>,
    failureMessage: Option<string>,
    closedAt: Option<int>,
    reapedAt: Option<int>)
  {
    predicate Flagged() { stopRequested || closeRequested }

    predicate Owned() { phase in {Preparing, Running, WaitingInput, Cancelling} }
  }

  datatype Event = Event(
    agent: Id,
    runtime: string,
    seqNo: nat,
    sourceSeq: nat,
    timestamp: int,
    kind: string,
    turnId: Option<string>,
    payload: string,
    redaction: string)

  datatype MessageState = MsgQueued | MsgSending | MsgDelivered | MsgFailed

  datatype Message = Message(
    rowid: nat,
    agent: Id,
    mode: string,
    content: string,
    state: MessageState,
    createdAt: int,
    deliveredAt: Option<int>,
    targetTurn: Option<string>,
    failureCode: Option<string>,
    failureMessage: Option<string>)
  {
    predicate Open() { state == MsgQueued || state == MsgSending }
  }

  datatype RequestState = ReqPending | ReqSending | ReqResponded

  datatype Request = Request(
    agent: Id,
    correlation: string,
    kind: string,
    payload: string,
    state: RequestState,
    createdAt: int,
    respondedAt: Option<int>,
    decision: Option<string>,
    content: Option<string>)
  {
    predicate Open() { state == ReqPending || state == ReqSending }
  }

  datatype ArtifactKind = ChangesPatch

  datatype ResultArtifact = ResultArtifact(kind: ArtifactKind, artifactId: Id, sha256: string)

  datatype TaskResult = TaskResult(
    outcome: Outcome,
    finalText: string,
    partial: bool,
    baseCommit: Option<string>,
    headCommit: Option<string>,
    changedFiles: seq<string>,
    diffStat: Option<string>,
    checks: seq<string>,
    residualGaps: seq<string>,
    artifacts: seq<ResultArtifact>)

  // SHA-256 of the canonical bytes, idealised as injective.
  datatype Digest = Sha256(canonical: seq<byte>)

  datatype StoredResult = StoredResult(result: TaskResult, digest: Digest, retained: bool)

  datatype NewArtifact = NewArtifact(
    artifactId: Id,
    agent: Id,
    kind: string,
    path: string,
    sha256: string,
    bytes: nat)

  datatype Artifact = Artifact(row: NewArtifact, createdAt: int)

  datatype LedgerRow = LedgerRow(
    agent: Id,
    epoch: nat,
    from: Option<Phase>,
    to: Phase,
    outcome: Option<Outcome>,
    reason: Option<string>,
    recordedAt: int)

  // The tables. `order` and `messageOrder` list primary keys by rowid: rows of these two
  // tables are never deleted, so rowid n is at index n - 1.
  datatype State = State(
    order: seq<Id>,
    tasks: map<Id, Task>,
    events: seq<Event>,
    messageOrder: seq<Id>,
    messages: map<Id, Message>,
    requests: map<Id, Request>,
    results: map<Id, StoredResult>,
    artifacts: map<Id, Artifact>,
    ledger: seq<LedgerRow>)

  const EMPTY := State([], map[], [], [], map[], map[], map[], map[], [])

  // `Conflict` carries the active agent of a WORKSPACE_BUSY refusal.
  datatype StoreError = SqliteError | InvalidState | Conflict(busyWith: Option<Id>)

  datatype Reply<+T> = Ok(value: T) | Err(error: StoreError)

  datatype Disposition = Created | Existing

  datatype ControlDecision = ControlDecision(
    phase: Phase,
    outcome: Option<Outcome>,
    ownerEpoch: nat,
    needsRuntimeStop: bool,
    priorStopOrClose: bool)

  datatype TerminalUpdate = TerminalUpdate(
    outcome: Outcome,
    failureCode: Option<string>,
    failureMessage: Option<string>)

  datatype LifecycleWrite = LifecycleWrite(
    agent: Id,
    runtime: string,
    epoch: nat,
    sourceSeq: nat,
    kind: string,
    turnId: Option<string>,
    payload: string,
    redaction: string,
    terminal: Option<TerminalUpdate>,
    turnState: Option<TurnState>)

  datatype ClaimDisposition = Claimed | TaskStopping | NotPending(state: RequestState) | NotFound
}
