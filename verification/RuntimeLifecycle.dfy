// The stop lifecycle of one runtime: `RuntimeLifecycle` (crates/zcode-agentd/src/lib.rs), a
// record behind a mutex. Each method is one critical section.
module RuntimeLifecycle {
  import opened Prelude

  datatype LifePhase = Live | StopRequested | StopAcknowledged | ForceTerminating | Ended

  datatype TurnBoundary = TurnCompleted | TurnFailed

  datatype TurnSnapshot = TurnSnapshot(generation: nat, active: bool, boundary: Option<TurnBoundary>)

  datatype Life = Life(
    phase: LifePhase,
    turnGeneration: nat,
    stopRequestedAt: Option<int>,
    observedBoundary: Option<TurnBoundary>,
    forceTerminations: nat,
    lateEvents: nat)

  datatype Admission = Ready | Bypass | Deferred(pending: bool, queued: bool)

  datatype IngressReason = TaskStopping | LateAfterStop

  const MAX_LATE_EVENTS: nat := 64

  const FRESH := Life(Live, 0, None, None, 0, 0)

  // ----- The critical sections as functions -----

  function Stop(l: Life, turn: TurnSnapshot, now: int): Life {
    if l.phase == Live then
      l.(phase := StopRequested, turnGeneration := turn.generation, stopRequestedAt := Some(now))
    else l
  }

  predicate Acknowledges(l: Life, turn: TurnSnapshot) {
    && l.phase in {StopRequested, StopAcknowledged}
    && turn.generation == l.turnGeneration && !turn.active && turn.boundary.Some?
  }

  function Acknowledge(l: Life, turn: TurnSnapshot): Life {
    if Acknowledges(l, turn) then l.(phase := StopAcknowledged, observedBoundary := turn.boundary) else l
  }

  function Force(l: Life): Life {
    if l.phase in {ForceTerminating, Ended} then l
    else l.(phase := ForceTerminating, forceTerminations := SaturatingAdd(l.forceTerminations, 1))
  }

  function Terminalize(l: Life): Life { l.(phase := Ended) }

  function Ingress(l: Life): Option<IngressReason> {
    match l.phase
    case Live => None
    case Ended => Some(LateAfterStop)
    case _ => Some(TaskStopping)
  }

  function Min(x: nat, y: nat): nat { if x < y then x else y }

  function Refuse(l: Life): Life {
    if l.phase == Live then l else l.(lateEvents := Min(SaturatingAdd(l.lateEvents, 1), MAX_LATE_EVENTS))
  }

  // `begin_natural_completion`, given what the store says blocks completion.
  function Complete(l: Life, pending: bool, queued: bool): (Life, Admission) {
    if l.phase != Live then (l, Bypass)
    else if pending || queued then (l, Deferred(pending, queued))
    else (Terminalize(l), Ready)
  }

  class Lifecycle {
    var phase: LifePhase
    var turnGeneration: nat
    var stopRequestedAt: Option<int>
    var observedBoundary: Option<TurnBoundary>
    var forceTerminations: nat
    var lateEvents: nat

    function Snapshot(): Life
      reads this
    {
      Life(phase, turnGeneration, stopRequestedAt, observedBoundary, forceTerminations, lateEvents)
    }

    constructor ()
      ensures Snapshot() == FRESH
    {
      phase := Live;
      turnGeneration := 0;
      stopRequestedAt := None;
      observedBoundary := None;
      forceTerminations := 0;
      lateEvents := 0;
    }

    method RequestStop(turn: TurnSnapshot, now: int)
      modifies this
      ensures Snapshot() == Stop(old(Snapshot()), turn, now)
    {
      if phase == Live {
        phase := StopRequested;
        turnGeneration := turn.generation;
        stopRequestedAt := Some(now);
      }
    }

    method AcknowledgeBoundary(turn: TurnSnapshot) returns (acknowledged: bool)
      modifies this
      ensures acknowledged == Acknowledges(old(Snapshot()), turn)
      ensures Snapshot() == Acknowledge(old(Snapshot()), turn)
    {
      acknowledged := false;
      if phase == StopRequested || phase == StopAcknowledged {
        if turn.generation == turnGeneration && !turn.active && turn.boundary.Some? {
          phase := StopAcknowledged;
          observedBoundary := turn.boundary;
          acknowledged := true;
        }
      }
    }

    method ForceTerminate()
      modifies this
      ensures Snapshot() == Force(old(Snapshot()))
    {
      if phase != ForceTerminating && phase != Ended {
        phase := ForceTerminating;
        forceTerminations := SaturatingAdd(forceTerminations, 1);
      }
    }

    method End()
      modifies this`phase
      ensures Snapshot() == Terminalize(old(Snapshot()))
    {
      phase := Ended;
    }

    // True when the caller keeps the mutex and may record the event.
    method AdmitEvent() returns (admitted: bool)
      modifies this`lateEvents
      ensures admitted == (phase == Live)
      ensures Snapshot() == Refuse(old(Snapshot()))
    {
      if phase == Live {
        return true;
      }
      lateEvents := SaturatingAdd(lateEvents, 1);
      if lateEvents > MAX_LATE_EVENTS {
        lateEvents := MAX_LATE_EVENTS;
      }
      return false;
    }

    method BeginNaturalCompletion(pending: bool, queued: bool) returns (admission: Admission)
      modifies this`phase
      ensures (Snapshot(), admission) == Complete(old(Snapshot()), pending, queued)
    {
      if phase != Live {
        return Bypass;
      }
      if pending || queued {
        return Deferred(pending, queued);
      }
      phase := Ended;
      return Ready;
    }
  }

  // ----- Every sequence of calls -----

  datatype Call =
    | CallStop(turn: TurnSnapshot, now: int)
    | CallAcknowledge(turn: TurnSnapshot)
    | CallForce
    | CallTerminalize
    | CallAdmit
    | CallComplete(pending: bool, queued: bool)

  function After(l: Life, call: Call): Life {
    match call
    case CallStop(turn, now) => Stop(l, turn, now)
    case CallAcknowledge(turn) => Acknowledge(l, turn)
    case CallForce => Force(l)
    case CallTerminalize => Terminalize(l)
    case CallAdmit => Refuse(l)
    case CallComplete(pending, queued) => Complete(l, pending, queued).0
  }

  function AfterAll(l: Life, calls: seq<Call>): Life {
    if calls == [] then l else After(AfterAll(l, calls[..|calls| - 1]), calls[|calls| - 1])
  }

  function Rank(phase: LifePhase): nat {
    match phase
    case Live => 0
    case StopRequested => 1
    case StopAcknowledged => 2
    case ForceTerminating => 3
    case Ended => 4
  }

  // How many admissions were refused along the way.
  function Refusals(l: Life, calls: seq<Call>): nat {
    if calls == [] then 0
    else
      var before := AfterAll(l, calls[..|calls| - 1]);
      Refusals(l, calls[..|calls| - 1]) + (if calls[|calls| - 1].CallAdmit? && before.phase != Live then 1 else 0)
  }

  /** The phase never moves backwards, so ingress that was closed stays closed and an ended
      runtime never admits another event. */
  lemma {:induction false} PhaseOnlyAdvances(l: Life, calls: seq<Call>)
    ensures Rank(l.phase) <= Rank(AfterAll(l, calls).phase)
    ensures Ingress(l).Some? ==> Ingress(AfterAll(l, calls)).Some?
    ensures l.phase == Ended ==> Ingress(AfterAll(l, calls)) == Some(LateAfterStop)
  {
    if calls != [] {
      PhaseOnlyAdvances(l, calls[..|calls| - 1]);
    }
  }

  /** A runtime is force-terminated at most once, and only on the way to its end. */
  lemma {:induction false} ForcedAtMostOnce(calls: seq<Call>)
    ensures var l := AfterAll(FRESH, calls);
            && l.forceTerminations <= 1
            && (l.phase == ForceTerminating ==> l.forceTerminations == 1)
            && (l.forceTerminations == 1 ==> l.phase in {ForceTerminating, Ended})
  {
    if calls != [] {
      ForcedAtMostOnce(calls[..|calls| - 1]);
    }
  }

  /** The late-event diagnostic counts the refused admissions up to its cap. */
  lemma {:induction false} LateEventsCounted(calls: seq<Call>)
    ensures AfterAll(FRESH, calls).lateEvents == Min(Refusals(FRESH, calls), MAX_LATE_EVENTS)
  {
    if calls != [] {
      LateEventsCounted(calls[..|calls| - 1]);
    }
  }

  /** A boundary is recorded exactly when a stop was acknowledged; an acknowledged stop names the
      boundary of the very turn that was running when the stop was requested. */
  lemma {:induction false} BoundaryBelongsToStoppedTurn(calls: seq<Call>)
    ensures var l := AfterAll(FRESH, calls);
            && (l.phase == StopAcknowledged ==> l.observedBoundary.Some?)
            && (l.observedBoundary.Some? ==>
                  exists i :: && 0 <= i < |calls| && calls[i].CallAcknowledge?
                              && calls[i].turn == TurnSnapshot(l.turnGeneration, false, l.observedBoundary))
            && (l.phase in {StopRequested, StopAcknowledged} ==> l.stopRequestedAt.Some?)
  {
    if calls != [] {
      var last := |calls| - 1;
      BoundaryBelongsToStoppedTurn(calls[..last]);
      var before := AfterAll(FRESH, calls[..last]);
      if before.observedBoundary.Some? && calls[last].CallStop? && before.phase == Live {
        FreshUntilStopped(calls[..last]);
      }
      var l := AfterAll(FRESH, calls);
      if calls[last].CallAcknowledge? && Acknowledges(before, calls[last].turn) {
        assert calls[last].turn == TurnSnapshot(l.turnGeneration, false, l.observedBoundary);
      } else if l.observedBoundary.Some? {
        var i :| && 0 <= i < last && calls[..last][i].CallAcknowledge?
                 && calls[..last][i].turn == TurnSnapshot(before.turnGeneration, false, before.observedBoundary);
        assert calls[i] == calls[..last][i];
      }
    }
  }

  lemma {:induction false} FreshUntilStopped(calls: seq<Call>)
    requires AfterAll(FRESH, calls).phase == Live
    ensures AfterAll(FRESH, calls) == FRESH
  {
    if calls != [] {
      PhaseOnlyAdvances(AfterAll(FRESH, calls[..|calls| - 1]), [calls[|calls| - 1]]);
      assert [calls[|calls| - 1]][..0] == [];
      FreshUntilStopped(calls[..|calls| - 1]);
    }
  }
}
