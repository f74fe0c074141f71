// The event log of a task: idempotent appends, numbering and epoch fencing.
module EventLog {
  import opened Prelude
  import opened Numerals
  import opened TaskTypes
  import opened StoreSpec
  import opened StoreRuns
  import opened Ledger
  import opened StoreInvariant
  import opened StoreFrames
  import opened StoreTheorems

  // `format!("{}:{}", agent_id, owner_epoch)`, the runtime name the scheduler gives each claim.
  function RuntimeName(a: Id, epoch: nat): string {
    a.text + ":" + Decimal(epoch)
  }

  lemma RuntimeNameInjective(a: Id, m: nat, n: nat)
    requires RuntimeName(a, m) == RuntimeName(a, n)
    ensures m == n
  {
    assert RuntimeName(a, m)[|a.text| + 1..] == Decimal(m);
    assert RuntimeName(a, n)[|a.text| + 1..] == Decimal(n);
    DecimalInjective(m, n);
  }

  predicate WellNamed(op: Op) {
    op.OpAppend? ==> op.write.runtime == RuntimeName(op.write.agent, op.write.epoch)
  }

  predicate AllWellNamed(history: seq<Timed>) {
    forall i :: 0 <= i < |history| ==> WellNamed(history[i].op)
  }

  function EventsOf(events: seq<Event>, a: Id): seq<Event> {
    if events == [] then []
    else
      var last := |events| - 1;
      EventsOf(events[..last], a) + (if events[last].agent == a then [events[last]] else [])
  }

  lemma EventsOfAppend(events: seq<Event>, e: Event, a: Id)
    ensures EventsOf(events + [e], a) == EventsOf(events, a) + (if e.agent == a then [e] else [])
  {
    assert (events + [e])[..|events|] == events;
  }

  lemma {:induction false} EventsOfContains(events: seq<Event>, a: Id, i: nat)
    requires i < |events| && events[i].agent == a
    ensures events[i] in EventsOf(events, a)
  {
    var last := |events| - 1;
    if i < last {
      EventsOfContains(events[..last], a, i);
    }
  }

  // The task was resumed and has not been claimed since.
  function Stale(s: State, a: Id): bool {
    Replay(s.ledger, a).Live? && Replay(s.ledger, a).stale
  }

  // The last k rows are numbered 1 to k.
  predicate Dense(rows: seq<Event>, k: nat) {
    k <= |rows| && forall i :: |rows| - k <= i < |rows| ==> rows[i].seqNo == i - (|rows| - k) + 1
  }

  predicate Unnamed(rows: seq<Event>, n: nat, name: string) {
    forall i :: 0 <= i < n && i < |rows| ==> rows[i].runtime != name
  }

  // What a task's rows look like, given its `last_event_seq` k and epoch: the last k are
  // numbered densely; no row is by a runtime of a later epoch; and once the epoch is fresh, its
  // runtime's rows are among those last k.
  ghost predicate LogShape(rows: seq<Event>, k: nat, a: Id, epoch: nat, stale: bool) {
    && Dense(rows, k)
    && (forall later: nat :: later > epoch ==> Unnamed(rows, |rows|, RuntimeName(a, later)))
    && (!stale ==> Unnamed(rows, |rows| - k, RuntimeName(a, epoch)))
  }

  ghost predicate EventsGood(s: State, a: Id) {
    if a in s.tasks then
      LogShape(EventsOf(s.events, a), s.tasks[a].lastEventSeq, a, s.tasks[a].ownerEpoch, Stale(s, a))
    else EventsOf(s.events, a) == []
  }

  lemma OneMore(ledger: seq<LedgerRow>, ledger': seq<LedgerRow>)
    requires ledger <= ledger' && |ledger'| <= |ledger| + 1
    ensures ledger' == ledger || (|ledger'| == |ledger| + 1 && ledger' == ledger + [ledger'[|ledger|]])
  {
  }

  // Resuming makes a task stale, claiming it ends that, nothing else changes it.
  lemma StaleStep(s: State, s': State, a: Id, mark: Mark)
    requires a in s.tasks && a in s'.tasks && RowStep(a, s.tasks[a], s'.tasks[a], mark)
    requires Tracks(Replay(s.ledger, a), s.tasks[a]) && Tracks(Replay(s'.ledger, a), s'.tasks[a])
    requires s.ledger <= s'.ledger && |s'.ledger| <= |s.ledger| + 1
    ensures mark != Claims(a) && mark != Resumes(a) ==> Stale(s', a) == Stale(s, a)
    ensures mark == Claims(a) ==> !Stale(s', a)
  {
    OneMore(s.ledger, s'.ledger);
    if s'.ledger != s.ledger {
      ReplayAppend(s.ledger, s'.ledger[|s.ledger|]);
    }
  }

  lemma NewTaskIsFresh(s: State, s': State, a: Id)
    requires Replay(s.ledger, a) == Absent && a in s'.tasks && Tracks(Replay(s'.ledger, a), s'.tasks[a])
    requires s.ledger <= s'.ledger && |s'.ledger| <= |s.ledger| + 1
    ensures !Stale(s', a)
  {
    OneMore(s.ledger, s'.ledger);
    if s'.ledger != s.ledger {
      ReplayAppend(s.ledger, s'.ledger[|s.ledger|]);
    }
  }

  lemma ShapeAfterWrite(rows: seq<Event>, k: nat, a: Id, epoch: nat, stale: bool, e: Event)
    requires LogShape(rows, k, a, epoch, stale)
    requires e.seqNo == k + 1 && e.runtime == RuntimeName(a, epoch)
    ensures LogShape(rows + [e], k + 1, a, epoch, stale)
  {
    var rows' := rows + [e];
    forall later: nat | later > epoch ensures Unnamed(rows', |rows'|, RuntimeName(a, later)) {
      assert Unnamed(rows, |rows|, RuntimeName(a, later));
      if e.runtime == RuntimeName(a, later) {
        RuntimeNameInjective(a, epoch, later);
      }
    }
  }

  lemma ShapeAfterClaim(rows: seq<Event>, k: nat, a: Id, epoch: nat, stale: bool)
    requires LogShape(rows, k, a, epoch, stale)
    ensures LogShape(rows, k, a, epoch + 1, false)
  {
    assert Unnamed(rows, |rows|, RuntimeName(a, epoch + 1));
  }

  // One task's rows across a step that touches or spares it.
  lemma ShapeStep(s: State, s': State, a: Id, mark: Mark)
    requires a in s.tasks && a in s'.tasks && RowStep(a, s.tasks[a], s'.tasks[a], mark)
    requires s'.events == s.events + mark.Rows() && EventsGood(s, a)
    requires mark != Claims(a) && mark != Resumes(a) ==> Stale(s', a) == Stale(s, a)
    requires mark == Claims(a) ==> !Stale(s', a)
    requires WritesFor(mark, a) ==> mark.event.runtime == RuntimeName(a, s.tasks[a].ownerEpoch)
    requires mark == Resumes(a) ==> Stale(s', a)
    ensures EventsGood(s', a)
  {
    var rows, k, epoch := EventsOf(s.events, a), s.tasks[a].lastEventSeq, s.tasks[a].ownerEpoch;
    if mark.Writes? {
      EventsOfAppend(s.events, mark.event, a);
      if WritesFor(mark, a) {
        ShapeAfterWrite(rows, k, a, epoch, Stale(s, a), mark.event);
      }
    } else {
      assert s'.events == s.events;
      if mark == Claims(a) {
        ShapeAfterClaim(rows, k, a, epoch, Stale(s, a));
      }
    }
  }

  lemma NoRowsStep(s: State, s': State, a: Id, mark: Mark)
    requires a !in s.tasks && s'.events == s.events + mark.Rows() && EventsGood(s, a)
    requires !WritesFor(mark, a)
    requires a in s'.tasks ==> s'.tasks[a].lastEventSeq == 0 && !Stale(s', a)
    ensures EventsGood(s', a)
  {
    if mark.Writes? {
      EventsOfAppend(s.events, mark.event, a);
    } else {
      assert s'.events == s.events;
    }
  }

  lemma EventsGoodStep(s: State, s': State, mark: Mark, now: int, a: Id)
    requires Replays(s.tasks, s.ledger) && Replays(s'.tasks, s'.ledger)
    requires Follows(s, s', mark, now) && EventsGood(s, a)
    requires WritesFor(mark, a) ==> a in s.tasks && mark.event.runtime == RuntimeName(a, s.tasks[a].ownerEpoch)
    requires mark == Resumes(a) ==> a in s.tasks && Stale(s', a)
    ensures EventsGood(s', a)
  {
    if a in s.tasks {
      assert RowStep(a, s.tasks[a], s'.tasks[a], mark);
      StaleStep(s, s', a, mark);
      ShapeStep(s, s', a, mark);
    } else {
      if a in s'.tasks {
        NewTaskIsFresh(s, s', a);
      }
      NoRowsStep(s, s', a, mark);
    }
  }

  lemma ResumeIsStale(s: State, a: Id, message: Id, content: string, now: int)
    requires Replays(s.tasks, s.ledger) && Resume(s, a, message, content, now).1.Ok?
    ensures a in s.tasks && Stale(Resume(s, a, message, content, now).0, a)
  {
    var s' := Resume(s, a, message, content, now).0;
    var row := LedgerRow(a, s.tasks[a].ownerEpoch, Some(Terminal), Queued, None, Some("RESUME_REQUESTED"), now);
    assert Tracks(Replay(s.ledger, a), s.tasks[a]);
    assert s'.ledger == s.ledger + [row];
    ReplayAppend(s.ledger, row);
  }

  // An accepted write is by the runtime of the current epoch.
  lemma AcceptedIsCurrent(s: State, op: Op, now: int, a: Id)
    requires WellNamed(op) && WritesFor(StepMark(s, op, now), a)
    ensures a in s.tasks && StepMark(s, op, now).event.runtime == RuntimeName(a, s.tasks[a].ownerEpoch)
  {
    assert op.OpAppend? && AppendMark(s, op.write, now).Writes?;
  }

  lemma StepResumes(s: State, op: Op, now: int, a: Id)
    requires Replays(s.tasks, s.ledger) && StepMark(s, op, now) == Resumes(a)
    ensures a in s.tasks && Stale(Step(s, op, now), a)
  {
    ResumeIsStale(s, a, op.message, op.content, now);
    assert Step(s, op, now) == Resume(s, a, op.message, op.content, now).0;
  }

  lemma StepEventsGood(s: State, op: Op, now: int, a: Id)
    requires Inv(s) && EventsGood(s, a) && WellNamed(op)
    ensures EventsGood(Step(s, op, now), a)
  {
    StepKeeps(s, op, now);
    StepFollows(s, op, now);
    if StepMark(s, op, now) == Resumes(a) {
      StepResumes(s, op, now, a);
    } else if WritesFor(StepMark(s, op, now), a) {
      AcceptedIsCurrent(s, op, now, a);
    }
    EventsGoodStep(s, Step(s, op, now), StepMark(s, op, now), now, a);
  }

  /** After any history of well-named writes a task's last `last_event_seq` rows are numbered 1, 2, 3
      and so on, no row is by a runtime yet to come, and unless a resume waits for its claim all
      rows of the current runtime are among those. */
  lemma {:induction false} NumberedDensely(history: seq<Timed>, a: Id)
    requires AllWellNamed(history)
    ensures EventsGood(Run(EMPTY, history), a)
  {
    if history != [] {
      var last := |history| - 1;
      NumberedDensely(history[..last], a);
      RunKeeps(EMPTY, history[..last]);
      assert WellNamed(history[last].op);
      StepEventsGood(Run(EMPTY, history[..last]), history[last].op, history[last].now, a);
    }
  }

  function WrittenAfter(written: seq<Event>, mark: Mark, a: Id): seq<Event> {
    if mark == Resumes(a) then [] else if WritesFor(mark, a) then written + [mark.event] else written
  }

  // The rows a task's accepted writes have added since it was created or last resumed.
  function WrittenSince(history: seq<Timed>, a: Id): seq<Event> {
    if history == [] then []
    else
      var last := |history| - 1;
      var mark := StepMark(Run(EMPTY, history[..last]), history[last].op, history[last].now);
      WrittenAfter(WrittenSince(history[..last], a), mark, a)
  }

  // They are the task's last rows, and `last_event_seq` is their number.
  ghost predicate LastRows(s: State, a: Id, written: seq<Event>) {
    if a in s.tasks then
      var rows := EventsOf(s.events, a);
      |written| == s.tasks[a].lastEventSeq <= |rows| && rows[|rows| - |written|..] == written
    else written == []
  }

  lemma LastRowsStep(s: State, s': State, mark: Mark, now: int, a: Id, written: seq<Event>)
    requires LastRows(s, a, written) && Follows(s, s', mark, now) && (mark == Resumes(a) ==> a in s.tasks)
    requires WritesFor(mark, a) ==> a in s.tasks
    ensures LastRows(s', a, WrittenAfter(written, mark, a))
  {
    RowsAfter(s, s', mark, a);
    if a in s.tasks {
      assert RowStep(a, s.tasks[a], s'.tasks[a], mark);
      if WritesFor(mark, a) {
        LastRowsGrow(EventsOf(s.events, a), written, mark.event);
      }
    }
  }

  lemma LastRowsGrow(rows: seq<Event>, written: seq<Event>, e: Event)
    requires |written| <= |rows| && rows[|rows| - |written|..] == written
    ensures (rows + [e])[|rows| - |written|..] == written + [e]
  {
  }

  lemma RowsAfter(s: State, s': State, mark: Mark, a: Id)
    requires s'.events == s.events + mark.Rows()
    ensures EventsOf(s'.events, a) == EventsOf(s.events, a) + (if WritesFor(mark, a) then [mark.event] else [])
  {
    if mark.Writes? {
      EventsOfAppend(s.events, mark.event, a);
    } else {
      assert s'.events == s.events;
    }
  }

  lemma MarkedTaskExists(s: State, op: Op, now: int, a: Id)
    requires StepMark(s, op, now) == Resumes(a) || WritesFor(StepMark(s, op, now), a)
    ensures a in s.tasks
  {
  }

  /** After any history the rows of a task's writes since it was created or last resumed are its
      last `last_event_seq` rows. */
  lemma {:induction false} LastRowsAreWritten(history: seq<Timed>, a: Id)
    ensures LastRows(Run(EMPTY, history), a, WrittenSince(history, a))
  {
    if history != [] {
      var last := |history| - 1;
      var s, op, now := Run(EMPTY, history[..last]), history[last].op, history[last].now;
      LastRowsAreWritten(history[..last], a);
      StepFollows(s, op, now);
      if StepMark(s, op, now) == Resumes(a) || WritesFor(StepMark(s, op, now), a) {
        MarkedTaskExists(s, op, now, a);
      }
      LastRowsStep(s, Step(s, op, now), StepMark(s, op, now), now, a, WrittenSince(history[..last], a));
    }
  }

  /** So the writes since the last reset are numbered 1, 2, 3 and so on. */
  lemma WritesAreNumbered(history: seq<Timed>, a: Id)
    requires AllWellNamed(history)
    ensures var written := WrittenSince(history, a);
            forall i :: 0 <= i < |written| ==> written[i].seqNo == i + 1
  {
    LastRowsAreWritten(history, a);
    NumberedDensely(history, a);
  }

  lemma NextNumberIsFree(s: State, w: LifecycleWrite, now: int)
    requires w.agent in s.tasks && EventsGood(s, w.agent) && !Stale(s, w.agent)
    requires w.runtime == RuntimeName(w.agent, w.epoch) && w.epoch == s.tasks[w.agent].ownerEpoch
    requires s.tasks[w.agent].phase != Terminal && s.tasks[w.agent].lastEventSeq < I64_MAX
    requires w.sourceSeq <= I64_MAX && FindSource(s.events, w).None?
    ensures Append(s, w, now).1 == Ok(s.tasks[w.agent].lastEventSeq + 1)
  {
    var a, k := w.agent, s.tasks[w.agent].lastEventSeq;
    if SeqTaken(s.events, a, w.runtime, k + 1) {
      var i :| 0 <= i < |s.events| && s.events[i].agent == a && s.events[i].runtime == w.runtime &&
               s.events[i].seqNo == k + 1;
      EventsOfContains(s.events, a, i);
    }
  }

  /** After any history of well-named writes, while no resume is waiting for its claim, a write by
      the current runtime of a nonterminal task never collides: unless it repeats an earlier one
      it gets the next number. */
  lemma FreshWriteNeverCollides(history: seq<Timed>, s: State, w: LifecycleWrite, now: int)
    requires AllWellNamed(history) && s == Run(EMPTY, history)
    requires w.agent in s.tasks && !Stale(s, w.agent)
    requires w.runtime == RuntimeName(w.agent, w.epoch) && w.epoch == s.tasks[w.agent].ownerEpoch
    requires s.tasks[w.agent].phase != Terminal && s.tasks[w.agent].lastEventSeq < I64_MAX
    requires w.sourceSeq <= I64_MAX && FindSource(s.events, w).None?
    ensures Append(s, w, now).1 == Ok(s.tasks[w.agent].lastEventSeq + 1)
  {
    NumberedDensely(history, w.agent);
    NextNumberIsFree(s, w, now);
  }

  // A row from before the last reset, by this runtime and with the next number.
  predicate OldRowTakes(s: State, a: Id, runtime: string, k: nat) {
    var rows := EventsOf(s.events, a);
    exists i :: 0 <= i < |rows| - k && rows[i].runtime == runtime && rows[i].seqNo == k + 1
  }

  lemma TakenIsOld(s: State, a: Id, runtime: string)
    requires a in s.tasks && Dense(EventsOf(s.events, a), s.tasks[a].lastEventSeq)
    ensures var k := s.tasks[a].lastEventSeq;
            SeqTaken(s.events, a, runtime, k + 1) <==> OldRowTakes(s, a, runtime, k)
  {
    var rows, k := EventsOf(s.events, a), s.tasks[a].lastEventSeq;
    if SeqTaken(s.events, a, runtime, k + 1) {
      var i :| && 0 <= i < |s.events| && s.events[i].agent == a && s.events[i].runtime == runtime
               && s.events[i].seqNo == k + 1;
      EventsOfContains(s.events, a, i);
      var j :| 0 <= j < |rows| && rows[j] == s.events[i];
      assert j < |rows| - k;
    }
    if OldRowTakes(s, a, runtime, k) {
      var i :| 0 <= i < |rows| - k && rows[i].runtime == runtime && rows[i].seqNo == k + 1;
      EventsOfComesFrom(s.events, a, i);
    }
  }

  lemma {:induction false} EventsOfComesFrom(events: seq<Event>, a: Id, i: nat)
    requires i < |EventsOf(events, a)|
    ensures EventsOf(events, a)[i] in events && EventsOf(events, a)[i].agent == a
  {
    var last := |events| - 1;
    if i < |EventsOf(events[..last], a)| {
      EventsOfComesFrom(events[..last], a, i);
    }
  }

  /** Exactly when a write of the current epoch collides: after any history of well-named writes, a
      new write to a nonterminal task fails on the primary key if and only if its runtime has a row
      from before the last reset with the next number, and gets that number otherwise. While no
      resume is waiting for its claim there is no such row for the current runtime. */
  lemma CollidesIffOldRow(history: seq<Timed>, s: State, w: LifecycleWrite, now: int)
    requires AllWellNamed(history) && s == Run(EMPTY, history)
    requires w.agent in s.tasks && w.epoch == s.tasks[w.agent].ownerEpoch
    requires s.tasks[w.agent].phase != Terminal && s.tasks[w.agent].lastEventSeq < I64_MAX
    requires w.sourceSeq <= I64_MAX && FindSource(s.events, w).None?
    ensures var k := s.tasks[w.agent].lastEventSeq;
            Append(s, w, now).1 == if OldRowTakes(s, w.agent, w.runtime, k) then Err(SqliteError) else Ok(k + 1)
    ensures !Stale(s, w.agent) && w.runtime == RuntimeName(w.agent, w.epoch) ==>
              !OldRowTakes(s, w.agent, w.runtime, s.tasks[w.agent].lastEventSeq)
  {
    NumberedDensely(history, w.agent);
    TakenIsOld(s, w.agent, w.runtime);
    NewWriteReply(s, w, now);
    FreshHasNoOldRow(EventsOf(s.events, w.agent), s.tasks[w.agent].lastEventSeq, w.runtime);
  }

  lemma NewWriteReply(s: State, w: LifecycleWrite, now: int)
    requires w.agent in s.tasks && w.epoch == s.tasks[w.agent].ownerEpoch
    requires s.tasks[w.agent].phase != Terminal && s.tasks[w.agent].lastEventSeq < I64_MAX
    requires w.sourceSeq <= I64_MAX && FindSource(s.events, w).None?
    ensures var k := s.tasks[w.agent].lastEventSeq;
            Append(s, w, now).1 == if SeqTaken(s.events, w.agent, w.runtime, k + 1) then Err(SqliteError) else Ok(k + 1)
  {
  }

  lemma FreshHasNoOldRow(rows: seq<Event>, k: nat, runtime: string)
    requires k <= |rows|
    ensures Unnamed(rows, |rows| - k, runtime) ==>
              !exists i :: 0 <= i < |rows| - k && rows[i].runtime == runtime && rows[i].seqNo == k + 1
  {
  }

  /** The window the fence leaves open: after a resume and until the next claim the epoch is still
      the old runtime's, numbering restarts at 1, and a new write of a runtime that has a row
      numbered 1 fails on the primary key. */
  lemma LateWriteCollides(s: State, a: Id, message: Id, content: string, w: LifecycleWrite, now: int)
    requires Resume(s, a, message, content, now).1.Ok?
    requires w.agent == a && w.epoch == s.tasks[a].ownerEpoch && w.sourceSeq <= I64_MAX
    requires FindSource(s.events, w).None? && SeqTaken(s.events, a, w.runtime, 1)
    ensures Append(Resume(s, a, message, content, now).0, w, now).1 == Err(SqliteError)
  {
  }

  lemma {:induction false} FindSourcePrefix(events: seq<Event>, events': seq<Event>, w: LifecycleWrite)
    requires events <= events' && FindSource(events, w).Some?
    ensures FindSource(events', w) == FindSource(events, w)
  {
    var i := FindSource(events, w).value;
    assert SameSource(events'[i], w);
    assert forall j :: 0 <= j < i ==> events'[j] == events[j];
  }

  lemma {:induction false} LogOnlyGrows(s: State, history: seq<Timed>)
    ensures s.events <= Run(s, history).events
    ensures forall a :: a in s.tasks ==>
                          a in Run(s, history).tasks && s.tasks[a].ownerEpoch <= Run(s, history).tasks[a].ownerEpoch
  {
    if history != [] {
      var last := |history| - 1;
      var s1 := Run(s, history[..last]);
      LogOnlyGrows(s, history[..last]);
      StepFollows(s1, history[last].op, history[last].now);
      forall a | a in s.tasks
        ensures a in Run(s, history).tasks && s.tasks[a].ownerEpoch <= Run(s, history).tasks[a].ownerEpoch
      {
        assert RowStep(a, s1.tasks[a], Step(s1, history[last].op, history[last].now).tasks[a],
                       StepMark(s1, history[last].op, history[last].now));
      }
    }
  }

  /** A write that was accepted once is answered with the same number ever after, whatever
      happened in between, and changes nothing. */
  lemma AppendIsIdempotent(s: State, w: LifecycleWrite, now: int, history: seq<Timed>, again: LifecycleWrite, later: int)
    requires Append(s, w, now).1.Ok?
    requires again.agent == w.agent && again.runtime == w.runtime && again.sourceSeq == w.sourceSeq
    ensures var s' := Run(Append(s, w, now).0, history);
            Append(s', again, later) == (s', Append(s, w, now).1)
  {
    var s1 := Append(s, w, now).0;
    var s' := Run(s1, history);
    LogOnlyGrows(s1, history);
    SourceRecorded(s, w, now);
    assert forall e :: SameSource(e, again) == SameSource(e, w);
    SameFind(s1.events, w, again);
    FindSourcePrefix(s1.events, s'.events, again);
  }

  lemma SourceRecorded(s: State, w: LifecycleWrite, now: int)
    requires Append(s, w, now).1.Ok?
    ensures w.sourceSeq <= I64_MAX
    ensures FindSource(Append(s, w, now).0.events, w).Some?
    ensures var (s', r) := Append(s, w, now);
            s'.events[FindSource(s'.events, w).value].seqNo == r.value
  {
    if FindSource(s.events, w).None? {
      var n := s.tasks[w.agent].lastEventSeq + 1;
      assert Append(s, w, now).0.events == s.events + [NewEvent(w, n, now)];
      NewRowIsFound(s.events, NewEvent(w, n, now), w);
    }
  }

  lemma NewRowIsFound(events: seq<Event>, e: Event, w: LifecycleWrite)
    requires FindSource(events, w).None? && SameSource(e, w)
    ensures FindSource(events + [e], w) == Some(|events|)
  {
    assert (events + [e])[..|events|] == events;
  }

  lemma {:induction false} SameFind(events: seq<Event>, w: LifecycleWrite, again: LifecycleWrite)
    requires forall e :: SameSource(e, again) == SameSource(e, w)
    ensures FindSource(events, again) == FindSource(events, w)
  {
    if events != [] {
      SameFind(events[..|events| - 1], w, again);
    }
  }

  /** Once a task has been claimed in a newer epoch, whatever happens later, a write of an older
      epoch that is not a repetition is refused and changes nothing. */
  lemma OldEpochsAreFenced(s: State, history: seq<Timed>, w: LifecycleWrite, now: int)
    requires w.agent in s.tasks && w.epoch < s.tasks[w.agent].ownerEpoch
    requires FindSource(Run(s, history).events, w).None?
    ensures Append(Run(s, history), w, now).1.Err?
    ensures Append(Run(s, history), w, now).0 == Run(s, history)
  {
    LogOnlyGrows(s, history);
  }
}
