// At-most-once, first-in first-out delivery of an agent's messages.
module Delivery {
  import opened Prelude
  import opened TaskTypes
  import opened StoreSpec
  import opened StoreRuns
  import opened StoreInvariant
  import opened StoreFrames
  import opened StoreTheorems

  // The message that one step hands to the runtime of `a`, if any.
  function Handed(s: State, op: Op, a: Id): seq<Id> {
    if op == OpClaimMessage(a) && ClaimMessage(s, a).1.Ok? && ClaimMessage(s, a).1.value.Some?
    then [ClaimMessage(s, a).1.value.value] else []
  }

  // The messages claimed for `a` over a history, in order.
  function Deliveries(history: seq<Timed>, a: Id): seq<Id> {
    if history == [] then []
    else
      var last := |history| - 1;
      Deliveries(history[..last], a) + Handed(Run(EMPTY, history[..last]), history[last].op, a)
  }

  predicate Earlier(m: Message, n: Message) {
    m.createdAt < n.createdAt || (m.createdAt == n.createdAt && m.rowid < n.rowid)
  }

  predicate ClockMonotone(history: seq<Timed>) {
    forall i, j :: 0 <= i < j < |history| ==> history[i].now <= history[j].now
  }

  ghost predicate Taken(messages: map<Id, Message>, ids: seq<Id>, a: Id) {
    forall i :: 0 <= i < |ids| ==>
                  ids[i] in messages && messages[ids[i]].state != MsgQueued && messages[ids[i]].agent == a
  }

  lemma HandedIsQueued(s: State, op: Op, a: Id)
    requires Handed(s, op, a) != []
    ensures Handed(s, op, a)[0] in QueuedFor(s, a)
    ensures Handed(s, op, a) == [Handed(s, op, a)[0]]
  {
    var i := FirstRow(s.messageOrder, MessageTimes(s), QueuedFor(s, a)).value;
    assert Handed(s, op, a)[0] == s.messageOrder[i];
  }

  lemma HandedIsTaken(s: State, op: Op, now: int, a: Id)
    requires Handed(s, op, a) != []
    ensures Taken(Step(s, op, now).messages, Handed(s, op, a), a)
  {
    HandedIsQueued(s, op, a);
    assert Step(s, op, now) == ClaimMessage(s, a).0;
  }

  lemma StillTaken(messages: map<Id, Message>, messages': map<Id, Message>, now: int, ids: seq<Id>, a: Id)
    requires Taken(messages, ids, a) && MessagesStep(messages, messages', now)
    ensures Taken(messages', ids, a)
  {
    forall i | 0 <= i < |ids|
      ensures ids[i] in messages' && messages'[ids[i]].state != MsgQueued && messages'[ids[i]].agent == a
    {
      assert MessageStep(messages[ids[i]], messages'[ids[i]]);
    }
  }

  lemma TakenFurther(s: State, op: Op, now: int, ids: seq<Id>, a: Id)
    requires Taken(s.messages, ids, a)
    ensures Taken(Step(s, op, now).messages, ids + Handed(s, op, a), a)
  {
    StepFollows(s, op, now);
    StillTaken(s.messages, Step(s, op, now).messages, now, ids, a);
    if Handed(s, op, a) != [] {
      HandedIsTaken(s, op, now, a);
    }
  }

  /** Over any history each message is claimed at most once, and only for its own agent. */
  lemma {:induction false} AtMostOnce(history: seq<Timed>, a: Id)
    ensures Taken(Run(EMPTY, history).messages, Deliveries(history, a), a)
    ensures Distinct(Deliveries(history, a))
  {
    if history != [] {
      var last := |history| - 1;
      var s := Run(EMPTY, history[..last]);
      AtMostOnce(history[..last], a);
      TakenFurther(s, history[last].op, history[last].now, Deliveries(history[..last], a), a);
      if Handed(s, history[last].op, a) != [] {
        HandedIsQueued(s, history[last].op, a);
      }
    }
  }

  predicate QueuedAt(messages: map<Id, Message>, m: Id, a: Id) {
    m in messages && messages[m].agent == a && messages[m].state == MsgQueued
  }

  // Everything claimed so far is older than everything still queued.
  ghost predicate Ahead(messages: map<Id, Message>, ids: seq<Id>, a: Id) {
    forall i, m :: 0 <= i < |ids| && ids[i] in messages && QueuedAt(messages, m, a) ==>
                     Earlier(messages[ids[i]], messages[m])
  }

  predicate InOrder(messages: map<Id, Message>, ids: seq<Id>) {
    forall i, j :: 0 <= i < j < |ids| && ids[i] in messages && ids[j] in messages ==>
                     Earlier(messages[ids[i]], messages[ids[j]])
  }

  ghost predicate DatedBy(messages: map<Id, Message>, now: int) {
    forall m :: m in messages ==> messages[m].createdAt <= now
  }

  lemma NewRowsAreLater(s: State, s': State, mark: Mark, now: int, m: Id, n: Id)
    requires MessageRows(s.messageOrder, s.messages) && MessageRows(s'.messageOrder, s'.messages)
    requires Follows(s, s', mark, now) && DatedBy(s.messages, now)
    requires m in s.messages && n in s'.messages && n !in s.messages
    ensures Earlier(s'.messages[m], s'.messages[n])
  {
    assert MessageStep(s.messages[m], s'.messages[m]);
    assert MessageRow(s.messageOrder, m, s.messages[m]);
    assert MessageRow(s'.messageOrder, n, s'.messages[n]);
    var k := s'.messages[n].rowid - 1;
    if k < |s.messageOrder| {
      assert s.messageOrder[k] == s'.messageOrder[k] == n;
      assert MessageAt(s.messageOrder, s.messages, k);
    }
  }

  lemma ClaimIsFirst(s: State, a: Id, id: Id, m: Id)
    requires MessageRows(s.messageOrder, s.messages)
    requires ClaimMessage(s, a).1 == Ok(Some(id))
    requires m in QueuedFor(s, a) && m != id
    ensures id in s.messages && Earlier(s.messages[id], s.messages[m])
  {
    var i := FirstRow(s.messageOrder, MessageTimes(s), QueuedFor(s, a)).value;
    assert MessageRow(s.messageOrder, m, s.messages[m]) && MessageAt(s.messageOrder, s.messages, i);
    var j := s.messages[m].rowid - 1;
    assert s.messageOrder[j] == m && j != i;
  }

  lemma DatedFurther(s: State, op: Op, now: int)
    requires DatedBy(s.messages, now)
    ensures DatedBy(Step(s, op, now).messages, now)
  {
    var s' := Step(s, op, now);
    StepFollows(s, op, now);
    forall m | m in s'.messages ensures s'.messages[m].createdAt <= now {
      if m in s.messages {
        assert MessageStep(s.messages[m], s'.messages[m]);
      }
    }
  }

  // Old claims stay ahead of what is queued, new messages included.
  lemma StillAhead(s: State, s': State, mark: Mark, now: int, ids: seq<Id>, a: Id)
    requires MessageRows(s.messageOrder, s.messages) && MessageRows(s'.messageOrder, s'.messages)
    requires Follows(s, s', mark, now) && DatedBy(s.messages, now)
    requires Taken(s.messages, ids, a) && Ahead(s.messages, ids, a)
    ensures Ahead(s'.messages, ids, a)
  {
    forall i, m | 0 <= i < |ids| && ids[i] in s'.messages && QueuedAt(s'.messages, m, a)
      ensures Earlier(s'.messages[ids[i]], s'.messages[m])
    {
      assert ids[i] in s.messages && MessageStep(s.messages[ids[i]], s'.messages[ids[i]]);
      if m in s.messages {
        assert MessageStep(s.messages[m], s'.messages[m]);
        assert QueuedAt(s.messages, m, a);
      } else {
        NewRowsAreLater(s, s', mark, now, ids[i], m);
      }
    }
  }

  lemma StillInOrder(messages: map<Id, Message>, messages': map<Id, Message>, now: int, ids: seq<Id>, a: Id)
    requires MessagesStep(messages, messages', now) && Taken(messages, ids, a) && InOrder(messages, ids)
    ensures InOrder(messages', ids)
  {
    forall i, j | 0 <= i < j < |ids| && ids[i] in messages' && ids[j] in messages'
      ensures Earlier(messages'[ids[i]], messages'[ids[j]])
    {
      assert MessageStep(messages[ids[i]], messages'[ids[i]]) && MessageStep(messages[ids[j]], messages'[ids[j]]);
      assert Earlier(messages[ids[i]], messages[ids[j]]);
    }
  }

  // The message handed over comes after all earlier claims and before all it leaves queued.
  lemma HandedGoesLast(messages: map<Id, Message>, ids: seq<Id>, a: Id, id: Id)
    requires Taken(messages, ids, a) && Ahead(messages, ids, a) && InOrder(messages, ids)
    requires QueuedAt(messages, id, a)
    requires forall m :: QueuedAt(messages, m, a) && m != id ==> Earlier(messages[id], messages[m])
    ensures Ahead(messages[id := messages[id].(state := MsgSending)], ids + [id], a)
    ensures InOrder(messages[id := messages[id].(state := MsgSending)], ids + [id])
  {
    var messages' := messages[id := messages[id].(state := MsgSending)];
    forall m | QueuedAt(messages', m, a) ensures QueuedAt(messages, m, a) && m != id {}
    forall i | 0 <= i < |ids| ensures ids[i] != id && Earlier(messages[ids[i]], messages[id]) {}
  }

  lemma HandOver(s: State, ids: seq<Id>, a: Id, id: Id)
    requires MessageRows(s.messageOrder, s.messages)
    requires ClaimMessage(s, a).1 == Ok(Some(id)) && id in QueuedFor(s, a)
    requires Taken(s.messages, ids, a) && Ahead(s.messages, ids, a) && InOrder(s.messages, ids)
    ensures Ahead(ClaimMessage(s, a).0.messages, ids + [id], a)
    ensures InOrder(ClaimMessage(s, a).0.messages, ids + [id])
  {
    forall m | QueuedAt(s.messages, m, a) && m != id ensures Earlier(s.messages[id], s.messages[m]) {
      ClaimIsFirst(s, a, id, m);
    }
    HandedGoesLast(s.messages, ids, a, id);
    assert ClaimMessage(s, a).0.messages == s.messages[id := s.messages[id].(state := MsgSending)];
  }

  lemma AheadFurther(s: State, op: Op, now: int, ids: seq<Id>, a: Id)
    requires Inv(s) && DatedBy(s.messages, now)
    requires Taken(s.messages, ids, a) && Ahead(s.messages, ids, a) && InOrder(s.messages, ids)
    ensures Ahead(Step(s, op, now).messages, ids + Handed(s, op, a), a)
    ensures InOrder(Step(s, op, now).messages, ids + Handed(s, op, a))
  {
    if Handed(s, op, a) != [] {
      HandedIsQueued(s, op, a);
      HandOver(s, ids, a, Handed(s, op, a)[0]);
      assert Step(s, op, now) == ClaimMessage(s, a).0;
    } else {
      var s' := Step(s, op, now);
      StepKeeps(s, op, now);
      StepFollows(s, op, now);
      StillAhead(s, s', StepMark(s, op, now), now, ids, a);
      StillInOrder(s.messages, s'.messages, now, ids, a);
      assert ids + Handed(s, op, a) == ids;
    }
  }

  /** When the clock does not run backwards, the messages claimed for an agent come in strictly
      increasing order of creation time and rowid. */
  lemma {:induction false} FirstInFirstOut(history: seq<Timed>, a: Id)
    requires ClockMonotone(history)
    ensures Taken(Run(EMPTY, history).messages, Deliveries(history, a), a)
    ensures InOrder(Run(EMPTY, history).messages, Deliveries(history, a))
    ensures Ahead(Run(EMPTY, history).messages, Deliveries(history, a), a)
    ensures history != [] ==> DatedBy(Run(EMPTY, history).messages, history[|history| - 1].now)
  {
    if history != [] {
      var last := |history| - 1;
      var before, op, now := history[..last], history[last].op, history[last].now;
      var s := Run(EMPTY, before);
      FirstInFirstOut(before, a);
      TakenFurther(s, op, now, Deliveries(before, a), a);
      RunKeeps(EMPTY, before);
      assert DatedBy(s.messages, now);
      AheadFurther(s, op, now, Deliveries(before, a), a);
      DatedFurther(s, op, now);
    }
  }

  /** DELIVERED and FAILED are final. */
  lemma {:induction false} FinalMessages(s: State, history: seq<Timed>, m: Id)
    requires m in s.messages
    ensures m in Run(s, history).messages
    ensures MessageStep(s.messages[m], Run(s, history).messages[m])
    ensures s.messages[m].state in {MsgDelivered, MsgFailed} ==>
              Run(s, history).messages[m].state == s.messages[m].state
  {
    if history != [] {
      var last := |history| - 1;
      FinalMessages(s, history[..last], m);
      StepFollows(Run(s, history[..last]), history[last].op, history[last].now);
    }
  }
}
