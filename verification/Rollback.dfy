// Undoing a resume whose runtime could not be started
// (`restore_terminal_after_resume_failure`, crates/zcode-agent-store/src/lib.rs).
module Rollback {
  import opened Prelude
  import opened TaskTypes
  import opened StoreSpec
  import ResultJson
  import opened StoreRuns
  import opened Ledger
  import opened StoreInvariant
  import opened StoreHistory
  import opened StoreResults
  import opened Paging

  // A stored result carries the digest of its own canonical bytes, and is retained as the
  // task's submission asked.
  predicate Faithful(t: Task, stored: StoredResult) {
    && stored.digest == Sha256(ResultJson.CanonicalBytes(stored.result))
    && stored.retained == RetainResult(t.spec.retainPartial, stored.result)
  }

  ghost predicate AllFaithful(tasks: map<Id, Task>, results: map<Id, StoredResult>) {
    forall a :: a in results ==> a in tasks && Faithful(tasks[a], results[a])
  }

  lemma StoreFaithful(s: State, a: Id, r: TaskResult, patch: Option<NewArtifact>, now: int)
    requires AllFaithful(s.tasks, s.results)
    ensures AllFaithful(StoreResult(s, a, r, patch, now).0.tasks, StoreResult(s, a, r, patch, now).0.results)
  {
  }

  lemma StillFaithful(s: State, s': State)
    requires AllFaithful(s.tasks, s.results) && Extends(s, s') && NoNewResult(s.results, s'.results)
    ensures AllFaithful(s'.tasks, s'.results)
  {
  }

  lemma StepFaithful(s: State, op: Op, now: int)
    requires AllFaithful(s.tasks, s.results)
    ensures AllFaithful(Step(s, op, now).tasks, Step(s, op, now).results)
  {
    if op.OpStoreResult? {
      StoreFaithful(s, op.agent, op.result, op.patch, now);
      assert Step(s, op, now) == StoreResult(s, op.agent, op.result, op.patch, now).0;
    } else {
      StepNoNewResult(s, op, now);
      StepExtends(s, op, now);
      StillFaithful(s, Step(s, op, now));
    }
  }

  lemma {:induction false} RunFaithful(history: seq<Timed>)
    ensures AllFaithful(Run(EMPTY, history).tasks, Run(EMPTY, history).results)
  {
    if history != [] {
      var last := |history| - 1;
      RunFaithful(history[..last]);
      StepFaithful(Run(EMPTY, history[..last]), history[last].op, history[last].now);
    }
  }

  lemma ReachableResult(s: State, a: Id)
    requires Reachable(s) && a in s.results
    ensures a in s.tasks && Faithful(s.tasks[a], s.results[a])
    ensures s.tasks[a].spec.agentId == a && s.tasks[a].outcome.Some?
  {
    ReachableInv(s);
    var history :| Run(EMPTY, history) == s;
    RunFaithful(history);
    assert TaskRow(s.order, a, s.tasks[a]) && ResultFits(s.results[a], s.tasks[a]);
  }

  /** Restoring a task with the row and the result it had in an earlier reachable state puts back
      the very stored result, digest and retention included, and the outcome, flags, failure,
      session and reaping columns of that row, whatever happened since. */
  lemma RestorePutsBack(s: State, history: seq<Timed>, a: Id)
    requires Reachable(s) && a in s.results
    ensures a in s.tasks
    ensures var (s', r) := Restore(Run(s, history), s.tasks[a], Some(s.results[a].result));
            && r == Ok(()) && a in s'.tasks && a in s'.results
            && s'.results[a] == s.results[a]
            && s'.tasks[a] == Restored(s'.tasks[a], s.tasks[a])
            && s'.tasks[a].spec == s.tasks[a].spec
  {
    ReachableResult(s, a);
    RunExtends(s, history);
  }

  // The phase the ledger gives a task.
  predicate PhaseLogged(s: State, a: Id) {
    a in s.tasks && Replay(s.ledger, a).Live? && Replay(s.ledger, a).phase == s.tasks[a].phase
  }

  /** It writes no ledger row, so afterwards the ledger's phase is the row's if and only if the
      task was TERMINAL when it was called. */
  lemma RestoreKeepsPhaseIff(s: State, original: Task, result: Option<TaskResult>)
    requires Inv(s) && original.spec.agentId in s.tasks && original.outcome.Some?
    ensures var a := original.spec.agentId;
            PhaseLogged(Restore(s, original, result).0, a) <==> s.tasks[a].phase == Terminal
  {
    var a := original.spec.agentId;
    assert Tracks(Replay(s.ledger, a), s.tasks[a]);
    assert Restore(s, original, result).0.ledger == s.ledger;
  }

  // Open input belongs to no terminal task.
  ghost predicate TerminalSettled(s: State, a: Id) {
    a in s.tasks && s.tasks[a].phase == Terminal ==> !HasOpenMessage(s.messages, a) && !HasOpenRequest(s.requests, a)
  }

  lemma RestoreLeavesInput(s: State, original: Task, result: Option<TaskResult>)
    requires original.spec.agentId in s.tasks && original.outcome.Some?
    ensures var a, s' := original.spec.agentId, Restore(s, original, result).0;
            s'.messages == s.messages && s'.requests == s.requests && a in s'.tasks && s'.tasks[a].phase == Terminal
  {
  }

  /** It settles no command either: the task is settled afterwards if and only if it had no open
      input before, which TERMINAL guarantees. */
  lemma RestoreSettlesIff(s: State, original: Task, result: Option<TaskResult>)
    requires Inv(s) && original.spec.agentId in s.tasks && original.outcome.Some?
    ensures var a := original.spec.agentId;
            && (TerminalSettled(Restore(s, original, result).0, a) <==>
                !HasOpenMessage(s.messages, a) && !HasOpenRequest(s.requests, a))
            && (s.tasks[a].phase == Terminal ==> TerminalSettled(Restore(s, original, result).0, a))
  {
    var a := original.spec.agentId;
    RestoreLeavesInput(s, original, result);
    if s.tasks[a].phase == Terminal {
      assert !AcceptsMessages(s.tasks, a) && !Waiting(s.tasks, a);
    }
  }

  /** The caller's second use, right after the resume when the task was not among those started,
      meets a QUEUED task: its resume message stays open on a TERMINAL row. */
  lemma RestoreFromQueuedStrandsMessage(
    s: State, a: Id, message: Id, content: string, now: int, result: Option<TaskResult>)
    requires Inv(s) && Resume(s, a, message, content, now).1.Ok?
    ensures a in s.tasks
    ensures var s' := Restore(Resume(s, a, message, content, now).0, s.tasks[a], result).0;
            && a in s'.tasks && s'.tasks[a].phase == Terminal && HasOpenMessage(s'.messages, a)
            && !PhaseLogged(s', a)
  {
    var s1 := Resume(s, a, message, content, now).0;
    assert s1 == Requeue(s, a, message, content, now);
    ResumeKeeps(s, a, message, content, now);
    assert TaskRow(s.order, a, s.tasks[a]) && Sound(s.tasks[a]);
    assert message in s1.messages && s1.messages[message].agent == a && s1.messages[message].Open();
    RestoreKeepsPhaseIff(s1, s.tasks[a], result);
  }
}
