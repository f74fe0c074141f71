// How far the count of the claim query can exceed the claim limit.
module ClaimCount {
  import opened Prelude
  import opened Numerals
  import opened TaskTypes
  import opened StoreSpec
  import opened StoreRuns
  import opened StoreHistory

  function Name(k: nat): string { "t" + Decimal(k) }

  function NthSpec(k: nat): TaskSpec {
    TaskSpec(Id(Name(k)), Name(k), "r", None, "w", None, "{}", "h", false, "p", false)
  }

  // n tasks of one repository, each submitted and stopped before anyone claims it.
  function Flood(n: nat): seq<Timed> {
    if n == 0 then []
    else
      Flood(n - 1) + [Timed(OpEnqueue(NthSpec(n - 1), Omitted), 0)] + [Timed(OpStop(Id(Name(n - 1)), false, true), 0)]
  }

  lemma NamesDiffer(j: nat, k: nat)
    requires Name(j) == Name(k)
    ensures j == k
  {
    assert Name(j)[1..] == Decimal(j) && Name(k)[1..] == Decimal(k);
    DecimalInjective(j, k);
  }

  lemma NameValid(k: nat)
    ensures ValidText(Name(k))
  {
    DecimalReadsBack(k);
    assert Name(k)[0] == 't';
    forall i | 0 <= i < |Name(k)| ensures Name(k)[i] != '\0' {
      if i > 0 {
        assert IsDigit(Decimal(k)[i - 1]);
      }
    }
  }

  lemma OneCharValid(s: string)
    requires s != "" && !IsWhitespace(s[0]) && '\0' !in s
    ensures ValidText(s)
  {
  }

  lemma NthSpecValid(k: nat)
    ensures ValidSpec(NthSpec(k)) && ResolveBudget(Omitted).Ok?
  {
    NameValid(k);
    OneCharValid("r");
    OneCharValid("w");
    OneCharValid("{}");
    OneCharValid("h");
    OneCharValid("p");
  }

  predicate IsNth(t: Task, a: Id, k: nat) { a == Id(Name(k)) && t.spec == NthSpec(k) }

  predicate OneOf(t: Task, a: Id, n: nat) {
    exists k: nat :: k < n && IsNth(t, a, k)
  }

  // Every task is one of the first n.
  predicate AmongFirst(tasks: map<Id, Task>, n: nat) {
    forall a :: a in tasks ==> OneOf(tasks[a], a, n)
  }

  lemma FreshNth(tasks: map<Id, Task>, n: nat)
    requires AmongFirst(tasks, n)
    ensures Id(Name(n)) !in tasks
    ensures forall a :: a in tasks ==> tasks[a].spec.idempotencyKey != Name(n)
  {
    forall a | a in tasks ensures a != Id(Name(n)) && tasks[a].spec.idempotencyKey != Name(n) {
      var k: nat :| k < n && IsNth(tasks[a], a, k);
      if Name(k) == Name(n) {
        NamesDiffer(k, n);
      }
    }
  }

  lemma OneMoreAmong(tasks: map<Id, Task>, n: nat, t: Task)
    requires AmongFirst(tasks, n) && t.spec == NthSpec(n)
    ensures AmongFirst(tasks[Id(Name(n)) := t], n + 1)
  {
    var a := Id(Name(n));
    var tasks' := tasks[a := t];
    forall b | b in tasks' ensures OneOf(tasks'[b], b, n + 1) {
      if b == a {
        assert IsNth(t, a, n);
      } else {
        var k: nat :| k < n && IsNth(tasks[b], b, k);
        assert IsNth(tasks'[b], b, k);
      }
    }
  }

  lemma StillAmong(tasks: map<Id, Task>, n: nat, a: Id, t: Task)
    requires AmongFirst(tasks, n) && a in tasks && t.spec == tasks[a].spec
    ensures AmongFirst(tasks[a := t], n)
  {
    var k: nat :| k < n && IsNth(tasks[a], a, k);
    assert IsNth(t, a, k);
  }

  lemma UnownedAdded(s: State, s': State, a: Id, t: Task, repository: string)
    requires a !in s.tasks && s'.tasks == s.tasks[a := t] && !t.Owned()
    ensures OwnedIn(s', repository) == OwnedIn(s, repository)
  {
  }

  lemma EnqueueNth(s: State, n: nat)
    requires AmongFirst(s.tasks, n)
    ensures var t := FreshTask(|s.order| + 1, NthSpec(n), ResolveBudget(Omitted).value, 0);
            Enqueue(s, NthSpec(n), Omitted, 0).0.tasks == s.tasks[Id(Name(n)) := t]
  {
    FreshNth(s.tasks, n);
    NthSpecValid(n);
  }

  lemma AfterEnqueue(s: State, n: nat)
    requires AmongFirst(s.tasks, n)
    ensures var s1, a := Enqueue(s, NthSpec(n), Omitted, 0).0, Id(Name(n));
            && AmongFirst(s1.tasks, n + 1) && a in s1.tasks && s1.tasks[a].phase == Queued
            && s1.tasks[a].spec == NthSpec(n) && OwnedIn(s1, "r") == OwnedIn(s, "r")
  {
    var s1 := Enqueue(s, NthSpec(n), Omitted, 0).0;
    var t := FreshTask(|s.order| + 1, NthSpec(n), ResolveBudget(Omitted).value, 0);
    EnqueueNth(s, n);
    FreshNth(s.tasks, n);
    OneMoreAmong(s.tasks, n, t);
    UnownedAdded(s, s1, Id(Name(n)), t, "r");
  }

  lemma AfterStop(s: State, n: nat, a: Id)
    requires AmongFirst(s.tasks, n) && a in s.tasks && s.tasks[a].phase == Queued
    ensures AmongFirst(RequestStop(s, a, false, true, 0).0.tasks, n)
  {
    var s' := RequestStop(s, a, false, true, 0).0;
    assert s'.tasks == s.tasks[a := Stopping(s.tasks[a], false, true, 0)];
    StillAmong(s.tasks, n, a, Stopping(s.tasks[a], false, true, 0));
  }

  // One task more, submitted and stopped.
  function OneMoreStopped(s: State, k: nat): State {
    RequestStop(Enqueue(s, NthSpec(k), Omitted, 0).0, Id(Name(k)), false, true, 0).0
  }

  lemma FloodStep(n: nat)
    requires n > 0
    ensures Run(EMPTY, Flood(n)) == OneMoreStopped(Run(EMPTY, Flood(n - 1)), n - 1)
  {
    TwoSteps(EMPTY, Flood(n - 1), NthSpec(n - 1));
  }

  lemma TwoSteps(s: State, before: seq<Timed>, spec: TaskSpec)
    ensures var (enqueue, stop) := (OpEnqueue(spec, Omitted), OpStop(spec.agentId, false, true));
            Run(s, before + [Timed(enqueue, 0)] + [Timed(stop, 0)]) ==
            RequestStop(Enqueue(Run(s, before), spec, Omitted, 0).0, spec.agentId, false, true, 0).0
  {
    var enqueue, stop := OpEnqueue(spec, Omitted), OpStop(spec.agentId, false, true);
    RunOne(s, before, enqueue, 0);
    RunOne(s, before + [Timed(enqueue, 0)], stop, 0);
    EnqueueIsStep(Run(s, before), spec);
    StopIsStep(Enqueue(Run(s, before), spec, Omitted, 0).0, spec.agentId);
  }

  lemma EnqueueIsStep(s: State, spec: TaskSpec)
    ensures Step(s, OpEnqueue(spec, Omitted), 0) == Enqueue(s, spec, Omitted, 0).0
  {
  }

  lemma StopIsStep(s: State, a: Id)
    ensures Step(s, OpStop(a, false, true), 0) == RequestStop(s, a, false, true, 0).0
  {
  }

  predicate Counted(s: State, n: nat) {
    AmongFirst(s.tasks, n) && |OwnedIn(s, "r")| == n
  }

  lemma CountStep(s: State, k: nat)
    requires Counted(s, k)
    ensures Counted(OneMoreStopped(s, k), k + 1)
  {
    var s1 := Enqueue(s, NthSpec(k), Omitted, 0).0;
    AfterEnqueue(s, k);
    StopWidensOwned(s1, Id(Name(k)), false, true, 0);
    AfterStop(s1, k + 1, Id(Name(k)));
  }

  lemma NoneCounted()
    ensures Counted(Run(EMPTY, Flood(0)), 0)
  {
    assert Run(EMPTY, Flood(0)) == EMPTY && OwnedIn(EMPTY, "r") == {};
  }

  lemma {:induction false} FloodCounts(n: nat)
    ensures Counted(Run(EMPTY, Flood(n)), n)
  {
    if n == 0 {
      NoneCounted();
    } else {
      FloodCounts(n - 1);
      FloodStep(n);
      CountStep(Run(EMPTY, Flood(n - 1)), n - 1);
    }
  }

  lemma {:induction false} FloodClaimsNothing(n: nat, limit: nat)
    ensures forall i :: 0 <= i < |Flood(n)| ==> LimitedTo(Flood(n)[i].op, limit)
  {
    if n > 0 {
      FloodClaimsNothing(n - 1, limit);
    }
  }

  /** For every claim limit some history that respects it ends with more tasks of one repository in
      the count of the claim query than the limit. */
  lemma CountExceedsAnyLimit(limit: nat)
    ensures exists history: seq<Timed> ::
              && (forall i :: 0 <= i < |history| ==> LimitedTo(history[i].op, limit))
              && |OwnedIn(Run(EMPTY, history), "r")| > limit
  {
    FloodCounts(limit + 1);
    FloodClaimsNothing(limit + 1, limit);
  }
}
