// Startup reconciliation (crates/zcode-agentd/src/lib.rs): before the scheduler owns a runtime,
// every task a dead daemon left behind is ended or reaped. Nothing else runs meanwhile.
module Recovery {
  import opened Prelude
  import opened TaskTypes
  import opened StoreSpec
  import ResultJson
  import opened StoreRuns
  import opened StoreInvariant
  import opened StoreTheorems
  import opened StoreResults
  import opened RpcFrame
  import opened Fallbacks
  import opened Persistence
  import opened TaskStore

  // What the world outside answers: whether a persisted process group could be stopped and
  // reaped, whether the launch document is a valid route, and what finalizing a task yields.
  datatype Outside = Outside(
    reaps: ProcessIdentity -> bool,
    routes: TaskSpec -> bool,
    finalize: (TaskSpec, Outcome) -> Completion,
    patchPath: TaskSpec -> string)

  predicate NeedsRecovery(t: Task) {
    t.Owned() || (t.phase == Terminal && t.reapedAt.None?)
  }

  function Unrecovered(s: State): set<Id> {
    set a | a in s.tasks && NeedsRecovery(s.tasks[a])
  }

  // `ORDER BY created_at,rowid`
  function ByAge(order: seq<Id>, created: map<Id, int>, ids: set<Id>): seq<Id>
    requires forall a :: a in ids ==> a in created
    decreases |ids|
  {
    match FirstRow(order, created, ids)
    case None => []
    case Some(i) => [order[i]] + ByAge(order, created, ids - {order[i]})
  }

  // `startup_recovery_tasks`
  function StartupTasks(s: State): seq<Id> {
    ByAge(s.order, TaskTimes(s), Unrecovered(s))
  }

  // `finalized_general`
  function Finalized(c: Completion, outcome: Outcome, reason: string, text: string): Completion {
    var c1 := if Blank(c.summary) then c.(summary := if Blank(text) then reason else text) else c;
    if c1.reasonCode.None? && outcome != Completed then c1.(reasonCode := Some(reason)) else c1
  }

  function LostCompletion(t: Task, outside: Outside): Completion {
    if t.Flagged() then
      Finalized(outside.finalize(t.spec, Cancelled), Cancelled, "CANCELLED",
                "task cancellation was recovered after daemon restart")
    else
      Finalized(outside.finalize(t.spec, RuntimeLost), RuntimeLost, "DAEMON_RESTART_RUNTIME_LOST",
                "daemon restarted while task runtime was active")
  }

  // The process of the task is gone, or it provably never had one.
  predicate ProcessGone(t: Task, outside: Outside) {
    if t.runtimeAgentId.Some? && t.identity.Some? then outside.reaps(t.identity.value)
    else t.runtimeAgentId.None? && t.identity.None? && t.phase in {Preparing, Terminal}
  }

  // No other thread runs during startup.
  function Alone(now: int): PersistPauses {
    var pause := Pause([], now);
    var retry := RetryPauses(pause, pause, pause);
    PersistPauses(pause, pause, retry, pause, pause, retry, pause, pause)
  }

  // `recover_startup_task`
  function Recover(s: State, a: Id, outside: Outside, cancelled: TaskResult, now: int): (State, Reply<()>)
    requires a in s.tasks
  {
    var t := s.tasks[a];
    if !ProcessGone(t, outside) || !outside.routes(t.spec) then (s, Err(InvalidState))
    else if t.phase == Terminal then
      if a !in s.results || !outside.finalize(t.spec, RuntimeLost).cleaned then (s, Err(InvalidState))
      else Reaped(s, a, now)
    else
      var completion := LostCompletion(t, outside);
      if !completion.cleaned then (s, Err(InvalidState))
      else
        ReapSaved(s, PersistResult(s, [], a, completion, outside.patchPath(t.spec), cancelled, Alone(now)), a, now)
  }

  function ReapSaved(s: State, saved: Saved, a: Id, now: int): (State, Reply<()>) {
    if saved.reply.Err? then (Run(s, saved.trace), saved.reply) else Reaped(Run(s, saved.trace), a, now)
  }

  function Reaped(s: State, a: Id, now: int): (State, Reply<()>) {
    var (s', r) := Reap(s, a, now);
    (s', match r case Ok(_) => Ok(()) case Err(e) => Err(e))
  }

  function OutcomeOf(s: State, a: Id): Reply<Outcome> {
    if a in s.tasks && s.tasks[a].outcome.Some? then Ok(s.tasks[a].outcome.value) else Err(InvalidState)
  }

  // One turn of the loop.
  function RecoverNext(s: State, a: Id, outside: Outside, cancelled: TaskResult, now: int): (State, Reply<Outcome>) {
    if a !in s.tasks then (s, Err(InvalidState))
    else
      var (s', r) := Recover(s, a, outside, cancelled, now);
      (s', match r case Ok(_) => OutcomeOf(s', a) case Err(e) => Err(e))
  }

  type Report = Reply<seq<(Id, Outcome)>>

  function Prepend(a: Id, outcome: Outcome, rest: Report): Report {
    match rest
    case Ok(list) => Ok([(a, outcome)] + list)
    case Err(_) => rest
  }

  type Recoverer = (State, Id) -> (State, Reply<Outcome>)

  function RecovererOf(outside: Outside, cancelled: TaskResult, now: int): Recoverer {
    (s, a) => RecoverNext(s, a, outside, cancelled, now)
  }

  // A recoverer that treats each task as the code does.
  ghost predicate Treats(recover: Recoverer, outside: Outside, cancelled: TaskResult, now: int) {
    forall s: State, a: Id {:trigger RecoverNext(s, a, outside, cancelled, now)} ::
      recover(s, a) == RecoverNext(s, a, outside, cancelled, now)
  }

  // The loop of `reconcile_startup`.
  function RecoverAll(s: State, ids: seq<Id>, recover: Recoverer): (State, Report)
    decreases |ids|
  {
    if ids == [] then (s, Ok([]))
    else
      var (s1, r) := recover(s, ids[0]);
      match r
      case Err(e) => (s1, Err(e))
      case Ok(outcome) =>
        var (s2, rest) := RecoverAll(s1, ids[1..], recover);
        (s2, Prepend(ids[0], outcome, rest))
  }

  function Reconcile(s: State, recover: Recoverer): (State, Report) {
    RecoverAll(s, StartupTasks(s), recover)
  }

  // ----- One task -----

  predicate SameElsewhere(tasks: map<Id, Task>, tasks': map<Id, Task>, a: Id) {
    tasks'.Keys == tasks.Keys && forall b :: b in tasks && b != a ==> tasks'[b] == tasks[b]
  }

  predicate OnlyRow(s: State, s': State, a: Id) {
    s'.order == s.order && SameElsewhere(s.tasks, s'.tasks, a)
  }

  // A row is left alone or ended, and under a flag ended as CANCELLED.
  predicate EndedRow(t: Task, t': Task) {
    t' == t || (t'.phase == Terminal && (t.Flagged() ==> t'.outcome == Some(Cancelled)))
  }

  predicate EndsOnlyRow(s: State, s': State, a: Id)
    requires a in s.tasks
  {
    OnlyRow(s, s', a) && EndedRow(s.tasks[a], s'.tasks[a])
  }

  lemma SubmitOnlyRow(s: State, a: Id, r: TaskResult, patch: Option<NewArtifact>, canonical: seq<byte>, now: int)
    requires a in s.tasks
    ensures EndsOnlyRow(s, StoreCanonical(s, a, r, patch, canonical, now).0, a)
  {
  }

  lemma EndedRowAgain(s: State, s1: State, s2: State, a: Id)
    requires a in s.tasks && EndsOnlyRow(s, s1, a) && EndsOnlyRow(s1, s2, a)
    requires s1.tasks[a] == s.tasks[a] || s2.tasks[a] == s1.tasks[a]
    ensures EndsOnlyRow(s, s2, a)
  {
  }

  lemma EndedStays(s: State, a: Id, r: TaskResult, patch: Option<NewArtifact>, canonical: seq<byte>, now: int)
    requires a in s.tasks && s.tasks[a].phase == Terminal
    ensures StoreCanonical(s, a, r, patch, canonical, now).0 == s
  {
  }

  predicate SubmissionsOnly(trace: seq<Timed>, a: Id) {
    forall i :: 0 <= i < |trace| ==> Submits(trace[i].op, a)
  }

  lemma {:induction false} SubmissionsEndRow(s: State, trace: seq<Timed>, a: Id)
    requires a in s.tasks && SubmissionsOnly(trace, a)
    ensures EndsOnlyRow(s, Run(s, trace), a)
  {
    if trace != [] {
      var last := |trace| - 1;
      var op, now, s1 := trace[last].op, trace[last].now, Run(s, trace[..last]);
      SubmissionsEndRow(s, trace[..last], a);
      var s2 := StoreResult(s1, a, op.result, op.patch, now).0;
      assert Submits(op, a) && Run(s, trace) == s2;
      SubmitOnlyRow(s1, a, op.result, op.patch, ResultJson.CanonicalBytes(op.result), now);
      if s1.tasks[a] != s.tasks[a] {
        EndedStays(s1, a, op.result, op.patch, ResultJson.CanonicalBytes(op.result), now);
      }
      EndedRowAgain(s, s1, s2, a);
    }
  }

  lemma SubmitOrCancelSubmits(
    s: State, trace: seq<Timed>, a: Id, r: TaskResult, patch: Option<NewArtifact>, cancelled: TaskResult, now: int,
    p: RetryPauses)
    requires SubmissionsOnly(trace, a)
    requires p.beforeTask.history == p.beforeResult.history == p.beforeRetry.history == []
    ensures SubmissionsOnly(SubmitOrCancel(s, trace, a, r, patch, cancelled, now, p).trace, a)
  {
    var first := Submit(s, trace, a, r, patch, now);
    AfterConflictSubmits(s, first, a, r.outcome, cancelled, p);
  }

  lemma AfterConflictSubmits(
    s: State, first: Saved, a: Id, outcome: Outcome, cancelled: TaskResult, p: RetryPauses)
    requires SubmissionsOnly(first.trace, a)
    requires p.beforeTask.history == p.beforeResult.history == p.beforeRetry.history == []
    ensures SubmissionsOnly(AfterConflict(s, first, a, outcome, cancelled, p).trace, a)
  {
  }

  lemma PersistSubmits(s: State, a: Id, c: Completion, path: string, cancelled: TaskResult, now: int)
    ensures SubmissionsOnly(PersistResult(s, [], a, c, path, cancelled, Alone(now)).trace, a)
  {
    SubmitOrCancelSubmits(s, [] + [] + [], a, TaskResultOf(c), PatchOf(a, c, path), cancelled, now, Alone(now).retry);
  }

  // A row that recovery leaves behind, compared with the row it found: TERMINAL and reaped, with
  // CANCELLED if the task was still to be ended under a stop or close flag.
  predicate RecoveredRow(t: Task, t': Task) {
    && t'.phase == Terminal && t'.reapedAt.Some?
    && (t.phase != Terminal && t.Flagged() ==> t'.outcome == Some(Cancelled))
    && (t.phase == Terminal ==> t'.outcome == t.outcome)
  }

  // What recovering one task must do: change no other row, and leave its own at rest if it
  // succeeds.
  predicate Recovered(s: State, s': State, a: Id, ok: bool)
    requires a in s.tasks
  {
    OnlyRow(s, s', a) && (ok ==> RecoveredRow(s.tasks[a], s'.tasks[a]))
  }

  lemma ReapedRecovered(s: State, s1: State, a: Id, now: int)
    requires a in s.tasks && EndsOnlyRow(s, s1, a) && (s.tasks[a].phase == Terminal ==> s1.tasks[a] == s.tasks[a])
    ensures Recovered(s, Reaped(s1, a, now).0, a, Reaped(s1, a, now).1.Ok?)
  {
    var t := s1.tasks[a];
    var t' := t.(ownerId := None, reapedAt := Coalesce(t.reapedAt, now));
    var (s2, r) := Reaped(s1, a, now);
    assert s2 == if r.Ok? then s1.(tasks := s1.tasks[a := t']) else s1;
  }

  lemma ReapSavedRecovered(s: State, saved: Saved, a: Id, now: int)
    requires a in s.tasks && s.tasks[a].phase != Terminal && SubmissionsOnly(saved.trace, a)
    ensures Recovered(s, ReapSaved(s, saved, a, now).0, a, ReapSaved(s, saved, a, now).1.Ok?)
  {
    SubmissionsEndRow(s, saved.trace, a);
    ReapedRecovered(s, Run(s, saved.trace), a, now);
  }

  lemma RecoverRecovers(s: State, a: Id, outside: Outside, cancelled: TaskResult, now: int)
    requires a in s.tasks
    ensures Recovered(s, Recover(s, a, outside, cancelled, now).0, a, Recover(s, a, outside, cancelled, now).1.Ok?)
  {
    var t := s.tasks[a];
    var c, path := LostCompletion(t, outside), outside.patchPath(t.spec);
    var result := Recover(s, a, outside, cancelled, now);
    if !ProcessGone(t, outside) || !outside.routes(t.spec) {
      assert result == (s, Err(InvalidState));
    } else if t.phase == Terminal {
      ReapedRecovered(s, s, a, now);
      assert result == Reaped(s, a, now) || result == (s, Err(InvalidState));
    } else if !c.cleaned {
      assert result == (s, Err(InvalidState));
    } else {
      var saved := PersistResult(s, [], a, c, path, cancelled, Alone(now));
      PersistSubmits(s, a, c, path, cancelled, now);
      ReapSavedRecovered(s, saved, a, now);
      assert result == ReapSaved(s, saved, a, now);
    }
  }

  // ----- The store's invariant -----

  lemma ReapedKeeps(s: State, a: Id, now: int)
    requires Inv(s)
    ensures Inv(Reaped(s, a, now).0)
  {
    ReapKeeps(s, a, now);
  }

  lemma RecoverKeeps(s: State, a: Id, outside: Outside, cancelled: TaskResult, now: int)
    requires Inv(s) && a in s.tasks
    ensures Inv(Recover(s, a, outside, cancelled, now).0)
  {
    var t := s.tasks[a];
    var c, path := LostCompletion(t, outside), outside.patchPath(t.spec);
    var result := Recover(s, a, outside, cancelled, now);
    if !ProcessGone(t, outside) || !outside.routes(t.spec) {
      assert result == (s, Err(InvalidState));
    } else if t.phase == Terminal {
      ReapedKeeps(s, a, now);
      assert result == Reaped(s, a, now) || result == (s, Err(InvalidState));
    } else if !c.cleaned {
      assert result == (s, Err(InvalidState));
    } else {
      ReapSavedKeeps(s, PersistResult(s, [], a, c, path, cancelled, Alone(now)), a, now);
      assert result == ReapSaved(s, PersistResult(s, [], a, c, path, cancelled, Alone(now)), a, now);
    }
  }

  lemma ReapSavedKeeps(s: State, saved: Saved, a: Id, now: int)
    requires Inv(s)
    ensures Inv(ReapSaved(s, saved, a, now).0)
  {
    RunKeeps(s, saved.trace);
    ReapedKeeps(Run(s, saved.trace), a, now);
  }

  // ----- All of them -----

  ghost predicate RecoversOne(s: State, a: Id, s': State, r: Reply<Outcome>)
    requires a in s.tasks
  {
    Recovered(s, s', a, r.Ok?) && (r.Ok? ==> s'.tasks[a].outcome == Some(r.value))
  }

  ghost predicate RecoversEach(recover: Recoverer) {
    forall s: State, a: Id {:trigger recover(s, a)} :: a in s.tasks ==> RecoversOne(s, a, recover(s, a).0, recover(s, a).1)
  }

  ghost predicate Keeps(recover: Recoverer) {
    forall s: State, a: Id {:trigger recover(s, a)} :: Inv(s) ==> Inv(recover(s, a).0)
  }

  /** The scheduler's recovery of one task changes no other row, leaves it at rest if it succeeds,
      and keeps the store's invariant, whatever the outside world answers. */
  lemma RecovererIsSound(outside: Outside, cancelled: TaskResult, now: int)
    ensures RecoversEach(RecovererOf(outside, cancelled, now)) && Keeps(RecovererOf(outside, cancelled, now))
    ensures Treats(RecovererOf(outside, cancelled, now), outside, cancelled, now)
  {
    var recover := RecovererOf(outside, cancelled, now);
    forall s: State, a: Id | a in s.tasks ensures RecoversOne(s, a, recover(s, a).0, recover(s, a).1) {
      NextRecovers(s, a, outside, cancelled, now);
    }
    forall s: State, a: Id | Inv(s) ensures Inv(recover(s, a).0) {
      NextKeeps(s, a, outside, cancelled, now);
    }
  }

  lemma NextRecovers(s: State, a: Id, outside: Outside, cancelled: TaskResult, now: int)
    requires a in s.tasks
    ensures RecoversOne(s, a, RecoverNext(s, a, outside, cancelled, now).0, RecoverNext(s, a, outside, cancelled, now).1)
  {
    RecoverRecovers(s, a, outside, cancelled, now);
  }

  lemma NextKeeps(s: State, a: Id, outside: Outside, cancelled: TaskResult, now: int)
    requires Inv(s)
    ensures Inv(RecoverNext(s, a, outside, cancelled, now).0)
  {
    if a in s.tasks {
      RecoverKeeps(s, a, outside, cancelled, now);
    }
  }

  lemma {:induction false} LoopKeeps(s: State, ids: seq<Id>, recover: Recoverer)
    requires Inv(s) && Keeps(recover)
    ensures Inv(RecoverAll(s, ids, recover).0)
    decreases |ids|
  {
    if ids != [] {
      LoopKeeps(recover(s, ids[0]).0, ids[1..], recover);
    }
  }

  predicate OnlyRows(tasks: map<Id, Task>, tasks': map<Id, Task>, ids: seq<Id>) {
    tasks'.Keys == tasks.Keys && forall b :: b in tasks && b !in ids ==> tasks'[b] == tasks[b]
  }

  // Every row of the list is recovered, and the report lists the outcomes in order.
  predicate AllRecovered(tasks: map<Id, Task>, tasks': map<Id, Task>, ids: seq<Id>, report: seq<(Id, Outcome)>)
    requires tasks'.Keys == tasks.Keys && forall i :: 0 <= i < |ids| ==> ids[i] in tasks
  {
    && |report| == |ids|
    && (forall i :: 0 <= i < |ids| ==> RecoveredRow(tasks[ids[i]], tasks'[ids[i]]))
    && (forall i :: 0 <= i < |ids| ==> tasks'[ids[i]].outcome == Some(report[i].1) && report[i].0 == ids[i])
  }

  // What the loop leaves behind.
  predicate LoopDone(s: State, ids: seq<Id>, s': State, report: Report)
    requires forall i :: 0 <= i < |ids| ==> ids[i] in s.tasks
  {
    && s'.order == s.order && OnlyRows(s.tasks, s'.tasks, ids)
    && (report.Ok? ==> AllRecovered(s.tasks, s'.tasks, ids, report.value))
  }

  lemma {:induction false} LoopRecovers(s: State, ids: seq<Id>, recover: Recoverer)
    requires Distinct(ids) && (forall i :: 0 <= i < |ids| ==> ids[i] in s.tasks) && RecoversEach(recover)
    ensures LoopDone(s, ids, RecoverAll(s, ids, recover).0, RecoverAll(s, ids, recover).1)
    decreases |ids|
  {
    if ids != [] {
      var (s1, r1) := recover(s, ids[0]);
      assert RecoversOne(s, ids[0], s1, r1);
      match r1
      case Err(e) =>
        assert RecoverAll(s, ids, recover) == (s1, Err(e));
      case Ok(outcome) =>
        LoopRecovers(s1, ids[1..], recover);
        var rest := RecoverAll(s1, ids[1..], recover);
        assert RecoverAll(s, ids, recover) == (rest.0, Prepend(ids[0], outcome, rest.1));
        JoinDone(s, s1, rest.0, ids, outcome, rest.1);
    }
  }

  lemma JoinDone(s: State, s1: State, s2: State, ids: seq<Id>, outcome: Outcome, report: Report)
    requires ids != [] && Distinct(ids) && (forall i :: 0 <= i < |ids| ==> ids[i] in s.tasks)
    requires RecoversOne(s, ids[0], s1, Ok(outcome)) && LoopDone(s1, ids[1..], s2, report)
    ensures LoopDone(s, ids, s2, Prepend(ids[0], outcome, report))
  {
    JoinRows(s.tasks, s1.tasks, s2.tasks, ids);
    if report.Ok? {
      JoinReports(s.tasks, s1.tasks, s2.tasks, ids, outcome, report.value);
    }
  }

  lemma JoinRows(t0: map<Id, Task>, t1: map<Id, Task>, t2: map<Id, Task>, ids: seq<Id>)
    requires ids != [] && SameElsewhere(t0, t1, ids[0]) && OnlyRows(t1, t2, ids[1..])
    ensures OnlyRows(t0, t2, ids)
  {
    forall b | b in t0 && b !in ids ensures t2[b] == t0[b] {
      assert b !in ids[1..] && b != ids[0];
    }
  }

  lemma JoinReports(
    t0: map<Id, Task>, t1: map<Id, Task>, t2: map<Id, Task>, ids: seq<Id>, outcome: Outcome, report: seq<(Id, Outcome)>)
    requires ids != [] && Distinct(ids) && (forall i :: 0 <= i < |ids| ==> ids[i] in t0)
    requires SameElsewhere(t0, t1, ids[0]) && OnlyRows(t1, t2, ids[1..])
    requires RecoveredRow(t0[ids[0]], t1[ids[0]]) && t1[ids[0]].outcome == Some(outcome)
    requires AllRecovered(t1, t2, ids[1..], report)
    ensures AllRecovered(t0, t2, ids, [(ids[0], outcome)] + report)
  {
    assert ids[0] !in ids[1..];
    forall i | 1 <= i < |ids|
      ensures RecoveredRow(t0[ids[i]], t2[ids[i]])
      ensures t2[ids[i]].outcome == Some(report[i - 1].1) && report[i - 1].0 == ids[i]
    {
      assert ids[1..][i - 1] == ids[i];
    }
  }

  // ----- The list -----

  lemma {:induction false} ByAgeExact(order: seq<Id>, created: map<Id, int>, ids: set<Id>)
    requires forall a :: a in ids ==> a in created && a in order
    ensures Distinct(ByAge(order, created, ids))
    ensures forall a :: a in ByAge(order, created, ids) <==> a in ids
    decreases |ids|
  {
    var first := FirstRow(order, created, ids);
    if first.Some? {
      var oldest := order[first.value];
      ByAgeExact(order, created, ids - {oldest});
      ListedBefore(oldest, ByAge(order, created, ids - {oldest}), ids);
    } else {
      assert forall a :: a in ids ==> false;
    }
  }

  lemma ListedBefore(x: Id, rest: seq<Id>, ids: set<Id>)
    requires Distinct(rest) && x in ids && forall a :: a in rest <==> a in ids - {x}
    ensures Distinct([x] + rest) && forall a :: a in [x] + rest <==> a in ids
  {
    assert x !in rest;
    assert forall i :: 0 <= i < |rest| ==> rest[i] in rest;
  }

  lemma StartupTasksExact(s: State)
    requires Inv(s)
    ensures Distinct(StartupTasks(s))
    ensures forall a :: a in StartupTasks(s) <==> a in Unrecovered(s)
    ensures forall i :: 0 <= i < |StartupTasks(s)| ==> StartupTasks(s)[i] in s.tasks
  {
    forall a | a in Unrecovered(s) ensures a in s.order {
      assert TaskRow(s.order, a, s.tasks[a]);
    }
    ByAgeExact(s.order, TaskTimes(s), Unrecovered(s));
    var ids := StartupTasks(s);
    assert forall i :: 0 <= i < |ids| ==> ids[i] in ids;
  }

  // ----- The results -----

  predicate AtRest(t: Task) { t.phase == Queued || (t.phase == Terminal && t.reapedAt.Some?) }

  // Every task is QUEUED or TERMINAL and reaped; what was ended under a flag is CANCELLED.
  predicate AllAtRest(tasks: map<Id, Task>, tasks': map<Id, Task>) {
    tasks'.Keys == tasks.Keys && forall a :: a in tasks' ==> AtRest(tasks'[a]) && EndedUnderFlag(tasks[a], tasks'[a])
  }

  predicate EndedUnderFlag(t: Task, t': Task) {
    t.Owned() && t.Flagged() ==> t'.outcome == Some(Cancelled)
  }

  lemma LoopAtRest(s: State, ids: seq<Id>, s': State, report: seq<(Id, Outcome)>)
    requires forall a :: a in ids <==> a in Unrecovered(s)
    requires forall i :: 0 <= i < |ids| ==> ids[i] in s.tasks
    requires LoopDone(s, ids, s', Ok(report))
    ensures AllAtRest(s.tasks, s'.tasks)
  {
    forall a | a in s'.tasks ensures AtRest(s'.tasks[a]) && EndedUnderFlag(s.tasks[a], s'.tasks[a]) {
      if a in Unrecovered(s) {
        var i :| 0 <= i < |ids| && ids[i] == a;
        assert RecoveredRow(s.tasks[ids[i]], s'.tasks[ids[i]]);
      } else {
        assert a !in ids;
      }
    }
  }

  /** When reconciliation succeeds every task is QUEUED or TERMINAL and reaped; what it ended under
      a stop or close flag is CANCELLED. */
  lemma ReconciledAtRest(s: State, recover: Recoverer)
    requires Inv(s) && RecoversEach(recover) && Reconcile(s, recover).1.Ok?
    ensures AllAtRest(s.tasks, Reconcile(s, recover).0.tasks)
  {
    var ids := StartupTasks(s);
    StartupTasksExact(s);
    LoopRecovers(s, ids, recover);
    var (s', r) := Reconcile(s, recover);
    LoopAtRest(s, ids, s', r.value);
  }

  predicate RestUntouched(tasks: map<Id, Task>, tasks': map<Id, Task>) {
    forall a :: a in tasks && AtRest(tasks[a]) ==> a in tasks' && tasks'[a] == tasks[a]
  }

  lemma LoopLeavesRest(s: State, ids: seq<Id>, s': State)
    requires forall a :: a in ids <==> a in Unrecovered(s)
    requires OnlyRows(s.tasks, s'.tasks, ids)
    ensures RestUntouched(s.tasks, s'.tasks) && Unrecovered(s') <= Unrecovered(s)
  {
    forall a | a in s.tasks && a !in Unrecovered(s) ensures s'.tasks[a] == s.tasks[a] {
      assert a !in ids;
    }
  }

  /** Whether or not it succeeds, tasks that need no recovery are untouched and none is added to
      those that do. */
  lemma RecoveryNeverSpreads(s: State, recover: Recoverer)
    requires Inv(s) && RecoversEach(recover)
    ensures RestUntouched(s.tasks, Reconcile(s, recover).0.tasks)
    ensures Unrecovered(Reconcile(s, recover).0) <= Unrecovered(s)
  {
    var ids := StartupTasks(s);
    StartupTasksExact(s);
    LoopRecovers(s, ids, recover);
    LoopLeavesRest(s, ids, Reconcile(s, recover).0);
  }

  lemma NobodyLeft(s: State, s': State)
    requires AllAtRest(s.tasks, s'.tasks)
    ensures Unrecovered(s') == {}
  {
  }

  lemma NothingToRecover(s: State, recover: Recoverer)
    requires Unrecovered(s) == {}
    ensures Reconcile(s, recover) == (s, Ok([]))
  {
    assert FirstRow(s.order, TaskTimes(s), {}).None?;
  }

  /** A second run finds nothing to recover and changes nothing. */
  lemma SecondRunRecoversNothing(s: State, recover: Recoverer, again: Recoverer)
    requires Inv(s) && RecoversEach(recover) && Keeps(recover) && Reconcile(s, recover).1.Ok?
    ensures var s' := Reconcile(s, recover).0;
            Inv(s') && Reconcile(s', again) == (s', Ok([]))
  {
    var s' := Reconcile(s, recover).0;
    ReconciledAtRest(s, recover);
    LoopKeeps(s, StartupTasks(s), recover);
    NobodyLeft(s, s');
    NothingToRecover(s', again);
  }

  // ----- The scheduler's code over the store -----

  // The retry after a conflict when nothing runs in between.
  lemma RetryAlone(s: State, first: Saved, a: Id, outcome: Outcome, cancelled: TaskResult, now: int)
    ensures var s1 := Run(s, first.trace);
            var saved := AfterConflict(s, first, a, outcome, cancelled, Alone(now).retry);
            if a !in s1.tasks then Run(s, saved.trace) == s1 && saved.reply == Err(InvalidState)
            else if s1.tasks[a].Flagged() && outcome != Cancelled && a !in s1.results then
              (Run(s, saved.trace), saved.reply) == StoreResult(s1, a, cancelled, None, now)
            else Run(s, saved.trace) == s1 && saved.reply == first.reply
  {
    assert first.trace + [] == first.trace;
    SubmitRuns(s, first.trace, a, cancelled, None, now);
  }

  // The submission with cancel precedence when nothing runs in between.
  function WithPrecedence(
    s: State, a: Id, r: TaskResult, patch: Option<NewArtifact>, cancelled: TaskResult, now: int): (State, Reply<()>)
  {
    var (s1, reply) := StoreResult(s, a, r, patch, now);
    if reply.Ok? || !reply.error.Conflict? then (s1, reply)
    else if a !in s1.tasks then (s1, Err(InvalidState))
    else if s1.tasks[a].Flagged() && r.outcome != Cancelled && a !in s1.results then
      StoreResult(s1, a, cancelled, None, now)
    else (s1, reply)
  }

  lemma PrecedenceAlone(
    s: State, a: Id, r: TaskResult, patch: Option<NewArtifact>, cancelled: TaskResult, now: int)
    ensures var saved := SubmitOrCancel(s, [], a, r, patch, cancelled, now, Alone(now).retry);
            (Run(s, saved.trace), saved.reply) == WithPrecedence(s, a, r, patch, cancelled, now)
  {
    var submitted := Submit(s, [], a, r, patch, now);
    SubmitRuns(s, [], a, r, patch, now);
    RetryAlone(s, submitted, a, r.outcome, cancelled, now);
  }

  method StoreResultWithCancelPrecedence(
    store: Store, a: Id, r: TaskResult, patch: Option<NewArtifact>, cancelled: TaskResult, now: int)
    returns (reply: Reply<()>)
    modifies store
    ensures var s := old(store.Snapshot());
            var saved := SubmitOrCancel(s, [], a, r, patch, cancelled, now, Alone(now).retry);
            store.Snapshot() == Run(s, saved.trace) && reply == saved.reply
  {
    PrecedenceAlone(store.Snapshot(), a, r, patch, cancelled, now);
    reply := store.StoreTaskResult(a, r, patch, ResultJson.CanonicalBytes(r), now);
    if reply.Ok? || !reply.error.Conflict? {
      return;
    }
    if a !in store.tasks {
      return Err(InvalidState);
    }
    var t := store.tasks[a];
    if (t.stopRequested || t.closeRequested) && r.outcome != Cancelled && a !in store.results {
      reply := store.StoreTaskResult(a, cancelled, None, ResultJson.CanonicalBytes(cancelled), now);
    }
  }

  method PersistGeneralResult(store: Store, a: Id, c: Completion, path: string, cancelled: TaskResult, now: int)
    returns (reply: Reply<()>)
    modifies store
    ensures var s := old(store.Snapshot());
            var saved := PersistResult(s, [], a, c, path, cancelled, Alone(now));
            store.Snapshot() == Run(s, saved.trace) && reply == saved.reply
  {
    if a !in store.tasks {
      return Err(InvalidState);
    }
    var r, patch := TaskResultOf(c), PatchOf(a, c, path);
    if !ResultResponseFits(store.tasks[a], r, patch) {
      return Err(InvalidState);
    }
    reply := StoreResultWithCancelPrecedence(store, a, r, patch, cancelled, now);
  }

  method ReapRecovered(store: Store, a: Id, now: int) returns (reply: Reply<()>)
    modifies store
    ensures (store.Snapshot(), reply) == Reaped(old(store.Snapshot()), a, now)
  {
    var reaped := store.ReapTask(a, now);
    return match reaped case Ok(_) => Ok(()) case Err(e) => Err(e);
  }

  method RecoverStartupTask(store: Store, a: Id, outside: Outside, cancelled: TaskResult, now: int)
    returns (reply: Reply<()>)
    requires a in store.tasks
    modifies store
    ensures (store.Snapshot(), reply) == Recover(old(store.Snapshot()), a, outside, cancelled, now)
  {
    var t := store.tasks[a];
    if !ProcessGone(t, outside) || !outside.routes(t.spec) {
      return Err(InvalidState);
    }
    if t.phase == Terminal {
      if a !in store.results || !outside.finalize(t.spec, RuntimeLost).cleaned {
        return Err(InvalidState);
      }
      reply := ReapRecovered(store, a, now);
      return;
    }
    var completion := LostCompletion(t, outside);
    if !completion.cleaned {
      return Err(InvalidState);
    }
    reply := PersistGeneralResult(store, a, completion, outside.patchPath(t.spec), cancelled, now);
    if reply.Ok? {
      reply := ReapRecovered(store, a, now);
    }
  }

  lemma OldestFirst(order: seq<Id>, created: map<Id, int>, left: set<Id>, i: nat, ids: seq<Id>)
    requires (forall a :: a in left ==> a in created) && FirstRow(order, created, left) == Some(i)
    ensures i < |order| && order[i] in left
    ensures ids + ByAge(order, created, left) == ids + [order[i]] + ByAge(order, created, left - {order[i]})
  {
  }

  method StartupRecoveryTasks(store: Store) returns (ids: seq<Id>)
    ensures ids == StartupTasks(store.Snapshot())
  {
    var created := map a | a in store.tasks :: store.tasks[a].createdAt;
    var left := set a | a in store.tasks && NeedsRecovery(store.tasks[a]);
    assert created == TaskTimes(store.Snapshot()) && left == Unrecovered(store.Snapshot());
    ids := [];
    ghost var all := ByAge(store.order, created, left);
    var first := FindFirstRow(store.order, created, left);
    while first.Some?
      invariant forall a :: a in left ==> a in created
      invariant first == FirstRow(store.order, created, left)
      invariant all == ids + ByAge(store.order, created, left)
      decreases |left|
    {
      OldestFirst(store.order, created, left, first.value, ids);
      ids := ids + [store.order[first.value]];
      left := left - {store.order[first.value]};
      first := FindFirstRow(store.order, created, left);
    }
  }

  function After(done: seq<(Id, Outcome)>, rest: Report): Report {
    match rest
    case Ok(list) => Ok(done + list)
    case Err(_) => rest
  }

  lemma AfterNothing(rest: Report)
    ensures After([], rest) == rest
  {
    if rest.Ok? {
      assert [] + rest.value == rest.value;
    }
  }

  method RecoverOne(store: Store, a: Id, outside: Outside, cancelled: TaskResult, now: int, ghost recover: Recoverer)
    returns (r: Reply<Outcome>)
    requires Treats(recover, outside, cancelled, now)
    modifies store
    ensures (store.Snapshot(), r) == recover(old(store.Snapshot()), a)
  {
    ghost var s := store.Snapshot();
    assert recover(s, a) == RecoverNext(s, a, outside, cancelled, now);
    if a !in store.tasks {
      return Err(InvalidState);
    }
    var reply := RecoverStartupTask(store, a, outside, cancelled, now);
    if reply.Err? {
      return Err(reply.error);
    }
    if a !in store.tasks || store.tasks[a].outcome.None? {
      return Err(InvalidState);
    }
    return Ok(store.tasks[a].outcome.value);
  }

  method ReconcileStartup(store: Store, outside: Outside, cancelled: TaskResult, now: int, ghost recover: Recoverer)
    returns (report: Report)
    requires Treats(recover, outside, cancelled, now)
    modifies store
    ensures (store.Snapshot(), report) == Reconcile(old(store.Snapshot()), recover)
  {
    var ids := StartupRecoveryTasks(store);
    var done: seq<(Id, Outcome)> := [];
    ghost var whole := Reconcile(store.Snapshot(), recover);
    var i := 0;
    assert ids[0..] == ids;
    AfterNothing(whole.1);
    while i < |ids|
      invariant i <= |ids|
      invariant whole.0 == RecoverAll(store.Snapshot(), ids[i..], recover).0
      invariant whole.1 == After(done, RecoverAll(store.Snapshot(), ids[i..], recover).1)
    {
      assert ids[i..][1..] == ids[i + 1..];
      var r := RecoverOne(store, ids[i], outside, cancelled, now, recover);
      if r.Err? {
        return Err(r.error);
      }
      AfterPrepend(done, ids[i], r.value, RecoverAll(store.Snapshot(), ids[i + 1..], recover).1);
      done := done + [(ids[i], r.value)];
      i := i + 1;
    }
    assert ids[i..] == [] && done + [] == done;
    return Ok(done);
  }

  /** `reconcile_startup` as the daemon calls it, with whatever the outside world answers. When it
      succeeds every task is QUEUED or TERMINAL and reaped, and what it ended under a flag is
      CANCELLED; in any case tasks at rest are untouched and none is added to the others. */
  method ReconcileAtStart(store: Store, idle: bool, outside: Outside, cancelled: TaskResult, now: int)
    returns (report: Report)
    requires store.Valid() && cancelled == CANCELLED
    modifies store
    ensures store.Valid()
    ensures !idle ==> report == Err(InvalidState) && store.Snapshot() == old(store.Snapshot())
    ensures report.Ok? ==> AllAtRest(old(store.tasks), store.tasks)
    ensures RestUntouched(old(store.tasks), store.tasks)
    ensures Unrecovered(store.Snapshot()) <= Unrecovered(old(store.Snapshot()))
    ensures idle && old(Unrecovered(store.Snapshot())) == {} ==>
              report == Ok([]) && store.Snapshot() == old(store.Snapshot())
  {
    if !idle {
      return Err(InvalidState);
    }
    ghost var s := store.Snapshot();
    ghost var recover := RecovererOf(outside, cancelled, now);
    RecovererIsSound(outside, cancelled, now);
    report := ReconcileStartup(store, outside, cancelled, now, recover);
    ReconcileResults(s, recover);
  }

  lemma ReconcileResults(s: State, recover: Recoverer)
    requires Inv(s) && RecoversEach(recover) && Keeps(recover)
    ensures var (s', report) := Reconcile(s, recover);
            && Inv(s') && (report.Ok? ==> AllAtRest(s.tasks, s'.tasks)) && RestUntouched(s.tasks, s'.tasks)
            && Unrecovered(s') <= Unrecovered(s)
            && (Unrecovered(s) == {} ==> (s', report) == (s, Ok([])))
  {
    LoopKeeps(s, StartupTasks(s), recover);
    RecoveryNeverSpreads(s, recover);
    if Reconcile(s, recover).1.Ok? {
      ReconciledAtRest(s, recover);
    }
    if Unrecovered(s) == {} {
      NothingToRecover(s, recover);
    }
  }

  lemma AfterPrepend(done: seq<(Id, Outcome)>, a: Id, outcome: Outcome, rest: Report)
    ensures After(done, Prepend(a, outcome, rest)) == After(done + [(a, outcome)], rest)
  {
    if rest.Ok? {
      assert done + ([(a, outcome)] + rest.value) == done + [(a, outcome)] + rest.value;
    }
  }
}
