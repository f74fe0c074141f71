// The event publisher of one runtime: `Publisher` (crates/zcode-agentd/src/lib.rs). Its state is
// behind a mutex, and the record sink is called with the mutex held.
module Publisher {
  import opened Prelude
  import RuntimeLifecycle

  datatype ProcessOutcome = ProcessOutcome(exitCode: Option<int>, groupReaped: bool)

  datatype RuntimeLoss = EventStreamLost | StopFailed(message: string)

  datatype RuntimeTerminal =
    | Completed(process: ProcessOutcome)
    | FailedTurn(process: ProcessOutcome)
    | Stopped(process: ProcessOutcome)
    | Exited(code: Option<int>)
    | Orphaned(loss: RuntimeLoss)
    | FailedRuntimeLost(loss: RuntimeLoss)

  datatype Inbound = ChildExited(code: Option<int>) | OtherInbound(text: string)

  datatype RuntimeEvent = Driver(inbound: Inbound) | Terminal(terminal: RuntimeTerminal)

  datatype Record = Record(sequence: nat, event: RuntimeEvent)

  // What stopping the child process reported.
  datatype StopReport = StopDone(process: ProcessOutcome) | StopError(message: string)

  datatype Owner = Running | Stopping | Finished(terminal: RuntimeTerminal)

  // `records` is everything the sink was given.
  datatype State = State(nextSequence: nat, owner: Owner, exitDelivered: bool, records: seq<Record>)

  const FRESH := State(1, Running, false, [])

  // ----- The critical sections as functions -----

  function Emit(s: State, event: RuntimeEvent): State {
    s.(records := s.records + [Record(s.nextSequence, event)], nextSequence := SaturatingAdd(s.nextSequence, 1))
  }

  function Publish(s: State, terminal: RuntimeTerminal): State {
    Emit(s.(owner := Finished(terminal)), Terminal(terminal))
  }

  function EmitDriver(s: State, event: Inbound, exitTerminal: Option<RuntimeTerminal>): State {
    if s.owner.Finished? then s
    else
      var s1 := Emit(s, Driver(event));
      var s2 := if event.ChildExited? then s1.(exitDelivered := true) else s1;
      if exitTerminal.Some? && s.owner == Running then Publish(s2, exitTerminal.value) else s2
  }

  function BeginStopping(s: State): (State, Option<RuntimeTerminal>) {
    match s.owner
    case Finished(terminal) => (s, Some(terminal))
    case Running => (s.(owner := Stopping), None)
    case Stopping => (s, None)
  }

  function PublishTerminal(s: State, terminal: RuntimeTerminal): (State, RuntimeTerminal) {
    if s.owner.Finished? then (s, s.owner.terminal) else (Publish(s, terminal), terminal)
  }

  // What `finish_process` publishes: the stop of the process reports an outcome or fails, and
  // the wait for the exit boundary ends with it, with another caller's terminal or too late.
  function FinishChoice(
    s: State, report: StopReport, boundary: Option<RuntimeLifecycle.TurnBoundary>): RuntimeTerminal
  {
    match report
    case StopError(message) => FailedRuntimeLost(StopFailed(message))
    case StopDone(outcome) =>
      if s.exitDelivered then
        match boundary
        case Some(TurnCompleted) => Completed(outcome)
        case Some(TurnFailed) => FailedTurn(outcome)
        case None => Stopped(outcome)
      else if s.owner.Finished? then s.owner.terminal
      else FailedRuntimeLost(EventStreamLost)
  }

  class Publisher {
    var nextSequence: nat
    var owner: Owner
    var exitDelivered: bool
    var records: seq<Record>

    function Snapshot(): State
      reads this
    {
      State(nextSequence, owner, exitDelivered, records)
    }

    constructor ()
      ensures Snapshot() == FRESH
    {
      nextSequence := 1;
      owner := Running;
      exitDelivered := false;
      records := [];
    }

    method EmitLocked(event: RuntimeEvent)
      modifies this`nextSequence, this`records
      ensures Snapshot() == Emit(old(Snapshot()), event)
    {
      var record := Record(nextSequence, event);
      nextSequence := SaturatingAdd(nextSequence, 1);
      records := records + [record];
    }

    method PublishLocked(terminal: RuntimeTerminal)
      modifies this
      ensures Snapshot() == Publish(old(Snapshot()), terminal)
    {
      owner := Finished(terminal);
      EmitLocked(Terminal(terminal));
    }

    method EmitInbound(event: Inbound, exitTerminal: Option<RuntimeTerminal>)
      modifies this
      ensures Snapshot() == EmitDriver(old(Snapshot()), event, exitTerminal)
    {
      if owner.Finished? {
        return;
      }
      EmitLocked(Driver(event));
      if event.ChildExited? {
        exitDelivered := true;
      }
      if exitTerminal.Some? && owner == Running {
        PublishLocked(exitTerminal.value);
      }
    }

    method BeginStop() returns (existing: Option<RuntimeTerminal>)
      modifies this`owner
      ensures (Snapshot(), existing) == BeginStopping(old(Snapshot()))
    {
      match owner {
        case Finished(terminal) =>
          existing := Some(terminal);
        case Running =>
          owner := Stopping;
          existing := None;
        case Stopping =>
          existing := None;
      }
    }

    method PublishOnce(terminal: RuntimeTerminal) returns (agreed: RuntimeTerminal)
      modifies this
      ensures (Snapshot(), agreed) == PublishTerminal(old(Snapshot()), terminal)
    {
      if owner.Finished? {
        return owner.terminal;
      }
      PublishLocked(terminal);
      return terminal;
    }
  }

  // ----- Every interleaving of the pump and any number of finishing callers -----

  datatype Caller = Started | Reaped(choice: RuntimeTerminal) | Returned(terminal: RuntimeTerminal)

  datatype World = World(publisher: State, callers: map<nat, Caller>)

  datatype Move =
    | Pump(event: Inbound, exitTerminal: Option<RuntimeTerminal>)
    | Begin(caller: nat)
    | Reap(caller: nat, report: StopReport, boundary: Option<RuntimeLifecycle.TurnBoundary>)
    | Finish(caller: nat)
    | Wait(caller: nat)

  // A move that is not possible in this world changes nothing.
  function Moved(w: World, move: Move): World {
    match move
    case Pump(event, exitTerminal) => w.(publisher := EmitDriver(w.publisher, event, exitTerminal))
    case Begin(c) =>
      if c in w.callers then w
      else
        var (p, existing) := BeginStopping(w.publisher);
        World(p, w.callers[c := if existing.Some? then Returned(existing.value) else Started])
    case Reap(c, report, boundary) =>
      if c in w.callers && w.callers[c] == Started
      then w.(callers := w.callers[c := Reaped(FinishChoice(w.publisher, report, boundary))])
      else w
    case Finish(c) =>
      if c in w.callers && w.callers[c].Reaped? then
        var (p, agreed) := PublishTerminal(w.publisher, w.callers[c].choice);
        World(p, w.callers[c := Returned(agreed)])
      else w
    case Wait(c) =>
      // `wait_terminal`: a waiter that sees a terminal returns it.
      if c !in w.callers && w.publisher.owner.Finished?
      then w.(callers := w.callers[c := Returned(w.publisher.owner.terminal)])
      else w
  }

  function MovedAll(w: World, moves: seq<Move>): World {
    if moves == [] then w else Moved(MovedAll(w, moves[..|moves| - 1]), moves[|moves| - 1])
  }

  predicate Numbered(records: seq<Record>) {
    forall k :: 0 <= k < |records| ==>
                  records[k].sequence == if k + 1 <= U64_MAX then k + 1 else U64_MAX
  }

  predicate NoTerminalBefore(records: seq<Record>, n: nat) {
    forall k :: 0 <= k < n && k < |records| ==> records[k].event.Driver?
  }

  // Sequence numbers count the records; a terminal record exists exactly when the publisher is
  // finished, it is the last record, and it carries the owner's terminal.
  predicate WellFormed(p: State) {
    && Numbered(p.records)
    && p.nextSequence == (if |p.records| < U64_MAX then |p.records| + 1 else U64_MAX)
    && match p.owner
       case Finished(terminal) =>
         && p.records != [] && p.records[|p.records| - 1].event == Terminal(terminal)
         && NoTerminalBefore(p.records, |p.records| - 1)
       case _ => NoTerminalBefore(p.records, |p.records|)
  }

  predicate Agreed(w: World) {
    forall c :: c in w.callers && w.callers[c].Returned? ==> w.publisher.owner == Finished(w.callers[c].terminal)
  }

  lemma EmitNumbered(p: State, event: RuntimeEvent)
    requires Numbered(p.records) && p.nextSequence == (if |p.records| < U64_MAX then |p.records| + 1 else U64_MAX)
    ensures Numbered(Emit(p, event).records)
    ensures Emit(p, event).nextSequence ==
            (if |p.records| + 1 < U64_MAX then |p.records| + 2 else U64_MAX)
  {
  }

  lemma EmitDriverWellFormed(p: State, event: Inbound, exitTerminal: Option<RuntimeTerminal>)
    requires WellFormed(p)
    ensures WellFormed(EmitDriver(p, event, exitTerminal))
  {
    if !p.owner.Finished? {
      EmitNumbered(p, Driver(event));
      var p1 := Emit(p, Driver(event));
      if exitTerminal.Some? && p.owner == Running {
        EmitNumbered(p1, Terminal(exitTerminal.value));
      }
    }
  }

  lemma PublishWellFormed(p: State, terminal: RuntimeTerminal)
    requires WellFormed(p)
    ensures WellFormed(PublishTerminal(p, terminal).0)
  {
    if !p.owner.Finished? {
      EmitNumbered(p, Terminal(terminal));
    }
  }

  lemma MoveKeeps(w: World, move: Move)
    requires WellFormed(w.publisher) && Agreed(w)
    ensures WellFormed(Moved(w, move).publisher) && Agreed(Moved(w, move))
  {
    match move
    case Pump(event, exitTerminal) => EmitDriverWellFormed(w.publisher, event, exitTerminal);
    case Begin(c) =>
    case Reap(c, report, boundary) =>
    case Finish(c) =>
      if c in w.callers && w.callers[c].Reaped? {
        PublishWellFormed(w.publisher, w.callers[c].choice);
      }
    case Wait(c) =>
  }

  /** Whatever the interleaving: records are numbered 1, 2, 3 and so on up to saturation, there is
      at most one terminal record with nothing after it, and everyone who is given a terminal is
      given that one. */
  lemma {:induction false} OneAgreedTerminal(moves: seq<Move>)
    ensures var w := MovedAll(World(FRESH, map[]), moves);
            WellFormed(w.publisher) && Agreed(w)
  {
    if moves != [] {
      OneAgreedTerminal(moves[..|moves| - 1]);
      MoveKeeps(MovedAll(World(FRESH, map[]), moves[..|moves| - 1]), moves[|moves| - 1]);
    }
  }

  /** Once a terminal record is out the log never changes again. */
  lemma {:induction false} TerminalIsFinal(w: World, moves: seq<Move>)
    requires w.publisher.owner.Finished?
    ensures MovedAll(w, moves).publisher.owner == w.publisher.owner
    ensures MovedAll(w, moves).publisher.records == w.publisher.records
  {
    if moves != [] {
      TerminalIsFinal(w, moves[..|moves| - 1]);
    }
  }

  /** A stop that began before the child's exit was reported leaves the terminal to the stopping
      caller: no pump event publishes one any more. */
  lemma {:induction false} StoppingKeepsThePumpOut(s: State, events: seq<(Inbound, Option<RuntimeTerminal>)>)
    requires s.owner == Stopping
    ensures PumpAll(s, events).owner == Stopping
    ensures |PumpAll(s, events).records| == |s.records| + |events|
  {
    if events != [] {
      StoppingKeepsThePumpOut(s, events[..|events| - 1]);
    }
  }

  function PumpAll(s: State, events: seq<(Inbound, Option<RuntimeTerminal>)>): State {
    if events == [] then s
    else
      var last := events[|events| - 1];
      EmitDriver(PumpAll(s, events[..|events| - 1]), last.0, last.1)
  }
}
