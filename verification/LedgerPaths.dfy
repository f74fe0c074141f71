// A ledger that replays without breaking, seen as the path of phases each task has taken.
module LedgerPaths {
  import opened Prelude
  import opened TaskTypes
  import opened Ledger
  import opened StoreSpec
  import opened StoreRuns
  import opened StoreInvariant
  import opened StoreHistory

  function RowsOf(ledger: seq<LedgerRow>, a: Id): seq<LedgerRow> {
    if ledger == [] then []
    else
      var last := |ledger| - 1;
      RowsOf(ledger[..last], a) + (if ledger[last].agent == a then [ledger[last]] else [])
  }

  predicate Linked(row: LedgerRow, next: LedgerRow) {
    next.from == Some(row.to) && Edge(row.to, next.to) && row.epoch <= next.epoch
  }

  predicate Path(rows: seq<LedgerRow>) {
    && (rows != [] ==> rows[0].from.None? && rows[0].to == Queued && rows[0].epoch == 0)
    && (forall i :: 0 < i < |rows| ==> Linked(rows[i - 1], rows[i]))
  }

  function Count(rows: seq<LedgerRow>, p: LedgerRow -> bool): nat {
    if rows == [] then 0
    else
      var last := |rows| - 1;
      Count(rows[..last], p) + (if p(rows[last]) then 1 else 0)
  }

  lemma CountAppend(rows: seq<LedgerRow>, row: LedgerRow, p: LedgerRow -> bool)
    ensures Count(rows + [row], p) == Count(rows, p) + (if p(row) then 1 else 0)
  {
    assert (rows + [row])[..|rows|] == rows;
  }

  predicate EndsClaimed(row: LedgerRow) { row.to == Terminal && SaysClaimed(row) }

  // A track that ends at the rows' last entry, with the epoch counting the claims.
  predicate Summarizes(track: Track, rows: seq<LedgerRow>) {
    match track
    case Absent => rows == []
    case Broken => false
    case Live(phase, epoch, outcome, _) =>
      && rows != [] && rows[|rows| - 1].to == phase && rows[|rows| - 1].epoch == epoch
      && rows[|rows| - 1].outcome == outcome
      && Count(rows, IsClaim) == epoch
      && Count(rows, SaysClaimed) == epoch + Count(rows, EndsClaimed)
  }

  lemma AdvanceSummarizes(track: Track, rows: seq<LedgerRow>, row: LedgerRow)
    requires Summarizes(track, rows) && Path(rows) && !Advance(track, row).Broken?
    ensures Summarizes(Advance(track, row), rows + [row]) && Path(rows + [row])
  {
    CountAppend(rows, row, IsClaim);
    CountAppend(rows, row, SaysClaimed);
    CountAppend(rows, row, EndsClaimed);
    var rows' := rows + [row];
    forall i | 0 < i < |rows'| ensures Linked(rows'[i - 1], rows'[i]) {
      assert i < |rows| ==> Linked(rows[i - 1], rows[i]);
    }
  }

  lemma {:induction false} ReplayIsPath(ledger: seq<LedgerRow>, a: Id)
    requires !Replay(ledger, a).Broken?
    ensures Path(RowsOf(ledger, a)) && Summarizes(Replay(ledger, a), RowsOf(ledger, a))
  {
    if ledger != [] {
      var last := |ledger| - 1;
      ReplayIsPath(ledger[..last], a);
      if ledger[last].agent == a {
        AdvanceSummarizes(Replay(ledger[..last], a), RowsOf(ledger[..last], a), ledger[last]);
      } else {
        assert RowsOf(ledger, a) == RowsOf(ledger[..last], a);
      }
    }
  }

  /** In every reachable state the ledger rows of a task form a path from its creation to its
      current phase and outcome, epochs never decrease along it, and the epoch on the task row
      is the number of claims. The rows whose reason code reads CLAIMED are the claims plus the
      rows of ends whose failure code is that word. */
  lemma LedgerReplays(s: State, a: Id)
    requires Reachable(s) && a in s.tasks
    ensures var rows := RowsOf(s.ledger, a);
            && Path(rows) && rows != [] && rows[|rows| - 1].to == s.tasks[a].phase
            && rows[|rows| - 1].outcome == s.tasks[a].outcome
            && rows[|rows| - 1].epoch == s.tasks[a].ownerEpoch == Count(rows, IsClaim)
            && Count(rows, SaysClaimed) == s.tasks[a].ownerEpoch + Count(rows, EndsClaimed)
  {
    ReachableInv(s);
    assert Tracks(Replay(s.ledger, a), s.tasks[a]);
    ReplayIsPath(s.ledger, a);
  }

  /** So counting the word alone miscounts the claims: ending a task with CLAIMED as its failure
      code adds a row that reads like a claim while the epoch stays. */
  lemma FailureCodeReadsLikeClaim(s: State, a: Id, now: int)
    requires a in s.tasks && s.tasks[a].phase != Terminal
    ensures var update := TerminalUpdate(Failed, Some("CLAIMED"), None);
            var s' := Transition(s, a, s.tasks[a].ownerEpoch, update, now).0;
            && a in s'.tasks && s'.tasks[a].ownerEpoch == s.tasks[a].ownerEpoch
            && Count(RowsOf(s'.ledger, a), SaysClaimed) == Count(RowsOf(s.ledger, a), SaysClaimed) + 1
            && Count(RowsOf(s'.ledger, a), IsClaim) == Count(RowsOf(s.ledger, a), IsClaim)
  {
    var update := TerminalUpdate(Failed, Some("CLAIMED"), None);
    var s' := ApplyTerminal(s, a, update, now);
    var row := EndRow(a, s.tasks[a], update, now);
    assert s'.ledger == s.ledger + [row];
    assert s'.ledger[..|s.ledger|] == s.ledger;
    CountAppend(RowsOf(s.ledger, a), row, SaysClaimed);
    CountAppend(RowsOf(s.ledger, a), row, IsClaim);
  }
}
