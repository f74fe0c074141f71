// The lifecycle ledger read as an event log: replaying a task's rows rebuilds its phase,
// epoch and outcome.
module Ledger {
  import opened Prelude
  import opened TaskTypes

  // `stale` says that the task was resumed and has not been claimed since, so the epoch on
  // its row is still the one of the previous runtime.
  datatype Track =
    | Absent
    | Broken
    | Live(phase: Phase, epoch: nat, outcome: Option<Outcome>, stale: bool)

  // The phase changes some operation of the store makes.
  predicate Edge(from: Phase, to: Phase) {
    match from
    case Queued => to in {Preparing, Cancelling, Terminal}
    case Preparing => to in {Running, Cancelling, Terminal}
    case Running => to in {WaitingInput, Cancelling, Terminal}
    case WaitingInput => to in {Running, Cancelling, Terminal}
    case Cancelling => to == Terminal
    case Terminal => to == Queued
  }

  predicate IsClaim(row: LedgerRow) {
    row.from == Some(Queued) && row.to == Preparing
  }

  predicate SaysClaimed(row: LedgerRow) { row.reason == Some("CLAIMED") }

  function Advance(t: Track, row: LedgerRow): Track {
    match t
    case Absent =>
      if row.from.None? && row.to == Queued && row.epoch == 0 && row.outcome.None? && row.reason.None?
      then Live(Queued, 0, None, false) else Broken
    case Live(phase, epoch, _, stale) =>
      if && row.from == Some(phase) && Edge(phase, row.to)
         && row.epoch == (if IsClaim(row) then epoch + 1 else epoch)
         && (row.outcome.Some? <==> row.to == Terminal)
         && (row.to != Terminal ==> (IsClaim(row) <==> SaysClaimed(row)))
      then Live(row.to, row.epoch, row.outcome,
                if IsClaim(row) then false else stale || row.to == Queued)
      else Broken
    case Broken => Broken
  }

  function Replay(ledger: seq<LedgerRow>, a: Id): Track {
    if ledger == [] then Absent
    else
      var last := |ledger| - 1;
      var before := Replay(ledger[..last], a);
      if ledger[last].agent == a then Advance(before, ledger[last]) else before
  }

  lemma ReplayAppend(ledger: seq<LedgerRow>, row: LedgerRow)
    ensures forall a ::
              Replay(ledger + [row], a) ==
              if row.agent == a then Advance(Replay(ledger, a), row) else Replay(ledger, a)
  {
    assert (ledger + [row])[..|ledger|] == ledger;
  }
}
