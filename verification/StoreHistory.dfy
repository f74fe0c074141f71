// Properties of whole histories of store operations.
module StoreHistory {
  import opened Prelude
  import opened TaskTypes
  import opened StoreSpec
  import opened StoreRuns
  import opened StoreInvariant
  import opened StoreFrames
  import opened StoreTheorems

  predicate Resuming(op: Op, a: Id) { op.OpResume? && op.agent == a }

  predicate NoResume(history: seq<Timed>, a: Id) {
    forall i :: 0 <= i < |history| ==> !Resuming(history[i].op, a)
  }

  lemma ReachableInv(s: State)
    requires Reachable(s)
    ensures Inv(s)
  {
    var history :| Run(EMPTY, history) == s;
    RunKeeps(EMPTY, history);
  }

  // What a task keeps as long as it is not resumed, its result included.
  ghost predicate Persists(s: State, s': State, a: Id) {
    && a in s.tasks && a in s'.tasks
    && SameRow(s.tasks[a], s'.tasks[a]) && Onward(s.tasks[a], s'.tasks[a])
    && (a in s.results ==> a in s'.results && s'.results[a] == s.results[a])
  }

  lemma PersistsFurther(s: State, s1: State, s2: State, a: Id, mark: Mark, now: int)
    requires Persists(s, s1, a) && Follows(s1, s2, mark, now) && mark != Resumes(a)
    ensures Persists(s, s2, a)
  {
    assert RowStep(a, s1.tasks[a], s2.tasks[a], mark);
  }

  lemma NotResumed(s: State, op: Op, now: int, a: Id)
    requires !Resuming(op, a)
    ensures StepMark(s, op, now) != Resumes(a)
  {
  }

  lemma StepPersists(s: State, s1: State, op: Op, now: int, a: Id)
    requires Persists(s, s1, a) && !Resuming(op, a)
    ensures Persists(s, Step(s1, op, now), a)
  {
    StepFollows(s1, op, now);
    NotResumed(s1, op, now, a);
    PersistsFurther(s, s1, Step(s1, op, now), a, StepMark(s1, op, now), now);
  }

  lemma {:induction false} RunPersists(s: State, history: seq<Timed>, a: Id)
    requires a in s.tasks && NoResume(history, a)
    ensures Persists(s, Run(s, history), a)
  {
    if history != [] {
      var last := |history| - 1;
      RunPersists(s, history[..last], a);
      assert !Resuming(history[last].op, a);
      StepPersists(s, Run(s, history[..last]), history[last].op, history[last].now, a);
    }
  }

  // ----- Cancellation wins -----

  /** Once a stop or close flag is on a nonterminal task, every way of ending it before the next
      resume ends it as CANCELLED. */
  lemma CancellationWins(s: State, history: seq<Timed>, a: Id)
    requires a in s.tasks && s.tasks[a].Flagged() && s.tasks[a].phase != Terminal
    requires NoResume(history, a)
    ensures a in Run(s, history).tasks
    ensures Run(s, history).tasks[a].Flagged()
    ensures Run(s, history).tasks[a].phase == Terminal ==> Run(s, history).tasks[a].outcome == Some(Cancelled)
  {
    RunPersists(s, history, a);
  }

  /** The flag of a stop request that names an intent is there from the moment of the request. */
  lemma StopThenCancelled(s: State, a: Id, close: bool, intent: bool, now: int, history: seq<Timed>)
    requires a in s.tasks && s.tasks[a].phase != Terminal && NoResume(history, a)
    ensures var s' := Run(RequestStop(s, a, close, intent, now).0, history);
            && a in s'.tasks
            && (close || intent || s.tasks[a].Flagged() ==>
                  s'.tasks[a].phase == Terminal ==> s'.tasks[a].outcome == Some(Cancelled))
  {
    var s1 := RequestStop(s, a, close, intent, now).0;
    assert s1.tasks[a] == Stopping(s.tasks[a], close, intent, now);
    RunPersists(s1, history, a);
  }

  // ----- Results -----

  lemma ResultOfTerminal(s: State, a: Id)
    requires Inv(s) && a in s.results
    ensures a in s.tasks && s.tasks[a].phase == Terminal && s.tasks[a].outcome == Some(s.results[a].result.outcome)
  {
    assert ResultFits(s.results[a], s.tasks[a]) && Sound(s.tasks[a]);
  }

  // Stored rows of the artifacts table never change.
  lemma {:induction false} ArtifactsStay(s: State, history: seq<Timed>, x: Id)
    requires x in s.artifacts
    ensures x in Run(s, history).artifacts && Run(s, history).artifacts[x] == s.artifacts[x]
  {
    if history != [] {
      var last := |history| - 1;
      ArtifactsStay(s, history[..last], x);
      StepFollows(Run(s, history[..last]), history[last].op, history[last].now);
    }
  }

  /** A stored result, and the outcome that goes with it, stay until the task is resumed. */
  lemma ResultStays(s: State, history: seq<Timed>, a: Id)
    requires Inv(s) && a in s.results && NoResume(history, a)
    ensures var s' := Run(s, history);
            && a in s'.results && s'.results[a] == s.results[a]
            && a in s'.tasks && s'.tasks[a].phase == Terminal
            && s'.tasks[a].outcome == Some(s.results[a].result.outcome)
            && |s'.results[a].digest.canonical| <= s'.tasks[a].budget.maxResultBytes
  {
    RunPersists(s, history, a);
    assert Sound(s.tasks[a]) && ResultFits(s.results[a], s.tasks[a]);
  }

  /** Submitting again changes nothing; it succeeds exactly for a valid submission with the
      stored canonical bytes. */
  lemma Resubmission(s: State, a: Id, r: TaskResult, patch: Option<NewArtifact>, canonical: seq<byte>, now: int)
    requires Inv(s) && a in s.results
    ensures StoreCanonical(s, a, r, patch, canonical, now).0 == s
    ensures StoreCanonical(s, a, r, patch, canonical, now).1.Ok? <==>
            ValidResult(r) && ValidPatch(a, r, patch) && s.results[a].digest == Sha256(canonical)
  {
    assert a in s.tasks;
  }

  // ----- Settlement -----

  /** In every reachable state: a task has an open request if and only if it waits for input, a
      stop or close flag puts it in CANCELLING or TERMINAL, and neither a flagged nor a terminal
      task has an open message. */
  lemma CommandsSettled(s: State, a: Id)
    requires Reachable(s) && a in s.tasks
    ensures HasOpenRequest(s.requests, a) <==> s.tasks[a].phase == WaitingInput
    ensures s.tasks[a].Flagged() ==> s.tasks[a].phase == Cancelling || s.tasks[a].phase == Terminal
    ensures s.tasks[a].Flagged() || s.tasks[a].phase == Terminal ==> !HasOpenMessage(s.messages, a)
  {
    ReachableInv(s);
    assert Sound(s.tasks[a]);
    assert Waiting(s.tasks, a) <==> s.tasks[a].phase == WaitingInput;
  }

  // ----- Admission -----

  function Held(tasks: map<Id, Task>, repository: string): set<Id> {
    set a | a in tasks && tasks[a].spec.repository == repository && Busy(tasks[a])
  }

  predicate LimitedTo(op: Op, limit: nat) { op.OpClaimNext? ==> op.limit <= limit }

  lemma SubsetCard<T>(a: set<T>, b: set<T>)
    requires a <= b
    ensures |a| <= |b|
  {
    if a != {} {
      var x :| x in a;
      SubsetCard(a - {x}, b - {x});
    }
  }

  lemma HeldStep(tasks: map<Id, Task>, tasks': map<Id, Task>, mark: Mark, repository: string)
    requires TasksStep(tasks, tasks', mark)
    ensures !mark.Claims? ==> |Held(tasks', repository)| <= |Held(tasks, repository)|
    ensures mark.Claims? && mark.agent in tasks && tasks[mark.agent].spec.repository != repository ==>
              |Held(tasks', repository)| <= |Held(tasks, repository)|
    ensures mark.Claims? ==> |Held(tasks', repository)| <= |Held(tasks, repository)| + 1
  {
    var extra := if mark.Claims? && mark.agent in tasks && tasks[mark.agent].spec.repository == repository
    then {mark.agent} else {};
    forall a | a in Held(tasks', repository) ensures a in Held(tasks, repository) + extra {
      if a in tasks {
        assert RowStep(a, tasks[a], tasks'[a], mark);
      }
    }
    SubsetCard(Held(tasks', repository), Held(tasks, repository) + extra);
  }

  lemma ClaimFindsRoom(s: State, owner: string, limit: nat, now: int)
    requires ClaimMark(ClaimNext(s, owner, limit, now).1).Claims?
    ensures var a := ClaimMark(ClaimNext(s, owner, limit, now).1).agent;
            a in s.tasks && |Held(s.tasks, s.tasks[a].spec.repository)| < limit
  {
    var a := ClaimMark(ClaimNext(s, owner, limit, now).1).agent;
    assert a in Claimable(s, limit);
    SubsetCard(Held(s.tasks, s.tasks[a].spec.repository), OwnedIn(s, s.tasks[a].spec.repository));
  }

  lemma OnlyClaimsClaim(s: State, op: Op, now: int)
    ensures StepMark(s, op, now).Claims? ==>
              op.OpClaimNext? && StepMark(s, op, now) == ClaimMark(ClaimNext(s, op.owner, op.limit, now).1)
  {
  }

  lemma StepWithinLimit(s: State, op: Op, now: int, limit: nat, repository: string)
    requires |Held(s.tasks, repository)| <= limit && LimitedTo(op, limit)
    ensures |Held(Step(s, op, now).tasks, repository)| <= limit
  {
    var mark := StepMark(s, op, now);
    StepFollows(s, op, now);
    HeldStep(s.tasks, Step(s, op, now).tasks, mark, repository);
    OnlyClaimsClaim(s, op, now);
    if mark.Claims? {
      ClaimFindsRoom(s, op.owner, op.limit, now);
    }
  }

  /** With a constant claim limit no repository ever has more than that many tasks in PREPARING,
      RUNNING or WAITING_INPUT. */
  lemma {:induction false} AdmissionLimit(history: seq<Timed>, limit: nat, repository: string)
    requires forall i :: 0 <= i < |history| ==> LimitedTo(history[i].op, limit)
    ensures |Held(Run(EMPTY, history).tasks, repository)| <= limit
  {
    if history == [] {
      assert Held(EMPTY.tasks, repository) == {};
    } else {
      var last := |history| - 1;
      AdmissionLimit(history[..last], limit, repository);
      assert LimitedTo(history[last].op, limit);
      StepWithinLimit(Run(EMPTY, history[..last]), history[last].op, history[last].now, limit, repository);
    }
  }

  /** The count the claim query uses has no such limit: it includes CANCELLING, and stopping a task
      that was never claimed adds to it. */
  lemma StopWidensOwned(s: State, a: Id, close: bool, intent: bool, now: int)
    requires a in s.tasks && s.tasks[a].phase == Queued
    ensures var repository := s.tasks[a].spec.repository;
            |OwnedIn(RequestStop(s, a, close, intent, now).0, repository)| == |OwnedIn(s, repository)| + 1
  {
    var repository := s.tasks[a].spec.repository;
    var s' := RequestStop(s, a, close, intent, now).0;
    assert s'.tasks == s.tasks[a := Stopping(s.tasks[a], close, intent, now)];
    assert OwnedIn(s', repository) == OwnedIn(s, repository) + {a};
  }

  predicate Older(tasks: map<Id, Task>, a: Id, b: Id)
    requires a in tasks && b in tasks
  {
    tasks[a].createdAt < tasks[b].createdAt ||
    (tasks[a].createdAt == tasks[b].createdAt && tasks[a].rowid < tasks[b].rowid)
  }

  lemma FirstIsOldest(order: seq<Id>, tasks: map<Id, Task>, times: map<Id, int>, ids: set<Id>, b: Id)
    requires TaskRows(order, tasks) && b in ids
    requires forall x :: x in ids ==> x in tasks && x in times && times[x] == tasks[x].createdAt
    ensures FirstRow(order, times, ids).Some?
    ensures var a := order[FirstRow(order, times, ids).value]; a in ids && (a != b ==> Older(tasks, a, b))
  {
    assert TaskRow(order, b, tasks[b]);
    var j := tasks[b].rowid - 1;
    assert order[j] == b;
    var i := FirstRow(order, times, ids).value;
    assert TaskAt(order, tasks, i);
  }

  /** Each claim takes the oldest eligible task: least creation time, then least rowid. */
  lemma ClaimTakesOldest(s: State, owner: string, limit: nat, now: int, a: Id, b: Id)
    requires TaskRows(s.order, s.tasks)
    requires ClaimNext(s, owner, limit, now).1 == Ok(Some(a))
    requires b in Claimable(s, limit) && b != a
    ensures a in Claimable(s, limit) && Older(s.tasks, a, b)
  {
    FirstIsOldest(s.order, s.tasks, TaskTimes(s), Claimable(s, limit), b);
  }

  /** A claim finds a task whenever one is eligible. */
  lemma ClaimFindsEligible(s: State, owner: string, limit: nat, now: int)
    requires Inv(s) && limit <= I64_MAX
    ensures ClaimNext(s, owner, limit, now).1 == Ok(None) <==> Claimable(s, limit) == {}
  {
    forall b | b in Claimable(s, limit) ensures s.order[s.tasks[b].rowid - 1] == b {
      assert TaskRow(s.order, b, s.tasks[b]);
    }
  }

  /** At most one nonterminal direct task per workspace. */
  lemma OneDirectTask(s: State, a: Id, b: Id)
    requires Reachable(s) && ActiveDirect(s.tasks, a) && ActiveDirect(s.tasks, b)
    requires s.tasks[a].spec.workspacePath == s.tasks[b].spec.workspacePath
    ensures a == b
  {
    ReachableInv(s);
  }
}
