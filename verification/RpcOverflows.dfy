// Runs in which the response for a result that passed the preflight does not fit the frame.
module RpcOverflows {
  import opened Prelude
  import opened TaskTypes
  import opened Json
  import opened ResultJson
  import opened StoreSpec
  import opened StoreRuns
  import opened StoreInvariant
  import opened StoreTheorems
  import opened StoreHistory
  import opened StoreResults
  import opened RpcFrame
  import opened RpcReads

  // ----- A result that leaves the preflight no byte -----

  // Padded with plain text to the size of the frame.
  function Padded(sized: Task, r: TaskResult): TaskResult
    requires PreflightSize(sized, r, None) <= MAX_FRAME_BYTES
  {
    r.(finalText := r.finalText + Repeat('0', MAX_FRAME_BYTES - PreflightSize(sized, r, None)))
  }

  // A result without artifacts that a task can end with.
  predicate Paddable(sized: Task, r: TaskResult) {
    && ValidResult(r) && r.outcome == Failed && r.artifacts == [] && PlainText(r.finalText)
    && PreflightSize(sized, r, None) <= MAX_FRAME_BYTES
  }

  // A valid FAILED result that leaves the preflight no byte.
  predicate Tight(sized: Task, r: TaskResult) {
    && ValidResult(r) && r.outcome == Failed && r.artifacts == [] && PreflightSize(sized, r, None) == MAX_FRAME_BYTES
    && |CanonicalBytes(r)| <= sized.budget.maxResultBytes
  }

  /** Every such result can be padded so that the preflight accepts it with no byte to spare, and it
      stays valid and within a result budget of the frame size. */
  lemma PaddedIsTight(sized: Task, r: TaskResult)
    requires Paddable(sized, r) && MAX_FRAME_BYTES <= sized.budget.maxResultBytes
    ensures Tight(sized, Padded(sized, r))
  {
    var n := MAX_FRAME_BYTES - PreflightSize(sized, r, None);
    var text := r.finalText + Repeat('0', n);
    RepeatPlain(n);
    PaddedSize(sized.(reapedAt := None), r, PatchViews(None), text);
    CanonicalWithin(sized.(reapedAt := None), Padded(sized, r), PatchViews(None), WorstId());
    StillVisible(r.finalText, Repeat('0', n));
  }

  lemma StillVisible(s: string, t: string)
    requires !Blank(s)
    ensures !Blank(s + t)
  {
    var i :| 0 <= i < |s| && !IsWhitespace(s[i]);
    assert (s + t)[i] == s[i];
  }

  // The task takes such a result in any owned phase.
  lemma TakesResult(s: State, a: Id, r: TaskResult, canonical: seq<byte>, now: int)
    requires a in s.tasks && s.tasks[a].Owned() && !s.tasks[a].Flagged() && a !in s.results
    requires ValidResult(r) && r.outcome == Failed && r.artifacts == [] && |canonical| <= s.tasks[a].budget.maxResultBytes
    ensures var s' := StoreCanonical(s, a, r, None, canonical, now).0;
            a in s'.results && s'.results[a].retained == RetainResult(s.tasks[a].spec.retainPartial, r)
  {
  }

  lemma StoreStep(s: State, a: Id, r: TaskResult, now: int)
    ensures Step(s, OpStoreResult(a, r, None), now) == StoreCanonical(s, a, r, None, CanonicalBytes(r), now).0
  {
  }

  lemma ResultStored(s: State, s': State, a: Id, r: TaskResult, now: int)
    requires s' == Step(s, OpStoreResult(a, r, None), now)
    requires a in s.tasks && s.tasks[a].Owned() && !s.tasks[a].Flagged() && a !in s.results
    requires ValidResult(r) && r.outcome == Failed && r.artifacts == []
    requires |CanonicalBytes(r)| <= s.tasks[a].budget.maxResultBytes
    ensures a in s'.results && s'.results[a].retained == RetainResult(s.tasks[a].spec.retainPartial, r)
  {
    StoreStep(s, a, r, now);
    TakesResult(s, a, r, CanonicalBytes(r), now);
  }

  // ----- A torn pair -----

  lemma OneStep(base: State, op: Op, now: int)
    ensures var history := [Timed(op, now)];
            At(base, history, 0) == base && At(base, history, 1) == Step(base, op, now)
  {
    var history := [Timed(op, now)];
    assert history[..0] == [] && history[..1] == [] + [Timed(op, now)];
    RunOne(base, [], op, now);
  }

  lemma TornStates(base: State, a: Id, r: TaskResult, now: int)
    requires Inv(base) && a in base.tasks && base.tasks[a].phase == WaitingInput && Tight(base.tasks[a], r)
    ensures var history := [Timed(OpStoreResult(a, r, None), now)];
            && At(base, history, 0) == base && a !in base.results && a in At(base, history, 1).results
            && At(base, history, 1).results[a].retained == RetainResult(base.tasks[a].spec.retainPartial, r)
  {
    OneStep(base, OpStoreResult(a, r, None), now);
    NoResultYet(base, a);
    ResultStored(base, At(base, [Timed(OpStoreResult(a, r, None), now)], 1), a, r, now);
  }

  lemma TornRead(base: State, a: Id, r: TaskResult, now: int)
    requires Inv(base) && a in base.tasks && Tight(base.tasks[a], r)
    requires base.tasks[a].phase == WaitingInput && base.tasks[a].reapedAt.None?
    requires !RetainResult(base.tasks[a].spec.retainPartial, r)
    ensures var m, history := Moments(0, 0, 1, 1, 1), [Timed(OpStoreResult(a, r, None), now)];
            && Timeline(base, history, m, a, r, None) && At(base, history, m.row) == base
            && a in At(base, history, m.result).results && !ResponseFits(base, history, m, a, [])
  {
    var m, history := Moments(0, 0, 1, 1, 1), [Timed(OpStoreResult(a, r, None), now)];
    TornStates(base, a, r, now);
    NeverResumed(OpStoreResult(a, r, None), now, a);
    TornOverflows(base, history, m, a, r);
  }

  /** From every task that waits for input, is not reaped and may have a result of the frame size: a
      request reads its row, a FAILED result that passed the preflight and is not retained is stored,
      the request reads on, and its response is too long. */
  lemma TornReadExists(base: State, a: Id, r: TaskResult, now: int)
    requires Inv(base) && a in base.tasks && base.tasks[a].phase == WaitingInput && base.tasks[a].reapedAt.None?
    requires base.tasks[a].budget.maxResultBytes >= MAX_FRAME_BYTES
    requires Paddable(base.tasks[a], r) && !RetainResult(base.tasks[a].spec.retainPartial, r)
    ensures var tight, m := Padded(base.tasks[a], r), Moments(0, 0, 1, 1, 1);
            var history := [Timed(OpStoreResult(a, tight, None), now)];
            && Timeline(base, history, m, a, tight, None) && At(base, history, m.row) == base
            && ResultResponseFits(base.tasks[a], tight, None)
            && a in At(base, history, m.result).results && !ResponseFits(base, history, m, a, [])
  {
    PaddedIsTight(base.tasks[a], r);
    TornRead(base, a, Padded(base.tasks[a], r), now);
  }

  lemma NoResultYet(s: State, a: Id)
    requires Inv(s) && a in s.tasks && s.tasks[a].phase == WaitingInput
    ensures a !in s.results && s.tasks[a].Owned() && !s.tasks[a].Flagged()
  {
    assert Sound(s.tasks[a]);
    if a in s.results {
      ResultOfTerminal(s, a);
    }
  }

  // A commit right before the result is read.
  lemma CommittedJustNow(base: State, history: seq<Timed>, m: Moments, a: Id, r: TaskResult)
    requires Inv(base) && a in base.tasks && m.result == m.commit + 1 <= |history|
    requires m.row <= m.listing <= m.artifacts <= m.result && history[m.commit].op == OpStoreResult(a, r, None)
    requires a !in At(base, history, m.commit).results && a in At(base, history, m.result).results
    ensures Timeline(base, history, m, a, r, None)
  {
    StoredOnce(base, history, m.result, a);
  }

  lemma StoredOnce(s: State, history: seq<Timed>, n: nat, a: Id)
    requires n <= |history| && a in Run(s, history[..n]).results
    ensures StoredFrom(s, history, n, n, a)
  {
  }

  lemma NeverResumed(op: Op, now: int, a: Id)
    requires !Resuming(op, a)
    ensures NoResume([Timed(op, now)], a)
  {
  }

  lemma TornOverflows(base: State, history: seq<Timed>, m: Moments, a: Id, r: TaskResult)
    requires Inv(base) && a in base.tasks && m.result == m.commit + 1 <= |history| && NoResume(history, a)
    requires m.row <= m.listing <= m.artifacts <= m.result && history[m.commit].op == OpStoreResult(a, r, None)
    requires a !in At(base, history, m.commit).results && m.row <= m.commit
    requires a in At(base, history, m.row).tasks
    requires var row := At(base, history, m.row).tasks[a];
             TornPair(row, row, r) && PreflightSize(row, r, None) == MAX_FRAME_BYTES
    requires a in At(base, history, m.result).results && !At(base, history, m.result).results[a].retained
    ensures Timeline(base, history, m, a, r, None) && !ResponseFits(base, history, m, a, [])
  {
    CommittedJustNow(base, history, m, a, r);
    UnresumedResponseFits(base, history, m, m.row, a, r, None, []);
  }

  // ----- A resume between the reads -----

  // The operations of the run: the task is resumed, claimed again, and ends with another result.
  function SecondRun(
    a: Id, message: Id, content: string, owner: string, limit: nat, r: TaskResult, times: (int, int, int)): seq<Timed>
  {
    [Timed(OpResume(a, message, content), times.0), Timed(OpClaimNext(owner, limit), times.1),
     Timed(OpStoreResult(a, r, None), times.2)]
  }

  // The only task of the tables, over its budget and with a session to resume.
  predicate Resumable(s: State, a: Id, message: Id) {
    && s.tasks.Keys == {a} && s.tasks[a].phase == Terminal && s.tasks[a].outcome == Some(BudgetExhausted)
    && s.tasks[a].sessionId.Some? && message !in s.messages
  }

  lemma NobodyBusy(s: State, a: Id)
    requires s.tasks.Keys == {a}
    ensures BusyWith(s, BusyIn(s, s.tasks[a].spec.workspacePath, None, Some(a))).None?
  {
    assert BusyIn(s, s.tasks[a].spec.workspacePath, None, Some(a)) == {};
  }

  lemma ResumeStep(s: State, a: Id, message: Id, content: string, now: int)
    ensures Step(s, OpResume(a, message, content), now) == Resume(s, a, message, content, now).0
  {
  }

  lemma ClaimStep(s: State, owner: string, limit: nat, now: int)
    ensures Step(s, OpClaimNext(owner, limit), now) == ClaimNext(s, owner, limit, now).0
  {
  }

  lemma ResumeAccepted(s: State, a: Id, message: Id, content: string, now: int)
    requires Inv(s) && Resumable(s, a, message)
    ensures var s' := Resume(s, a, message, content, now).0;
            s'.tasks.Keys == {a} && s'.tasks[a] == Resumed(s.tasks[a]) && a !in s'.results
  {
    NobodyBusy(s, a);
    assert Resume(s, a, message, content, now).0 == Requeue(s, a, message, content, now);
  }

  lemma OnlyClaimable(s: State, a: Id, limit: nat)
    requires s.tasks.Keys == {a} && s.tasks[a].phase == Queued && !s.tasks[a].closeRequested && 0 < limit
    ensures Claimable(s, limit) == {a}
  {
    assert OwnedIn(s, s.tasks[a].spec.repository) == {};
  }

  lemma OnlyRow(s: State, a: Id)
    requires Inv(s) && a in s.tasks
    ensures var first := FirstRow(s.order, TaskTimes(s), {a}); first.Some? && s.order[first.value] == a
  {
    assert TaskRow(s.order, a, s.tasks[a]);
    assert s.order[s.tasks[a].rowid - 1] == a;
  }

  lemma OnlyTaskClaimed(s: State, a: Id, owner: string, limit: nat, now: int)
    requires Inv(s) && s.tasks.Keys == {a} && s.tasks[a].phase == Queued && !s.tasks[a].closeRequested
    requires 0 < limit <= I64_MAX
    ensures var s' := ClaimNext(s, owner, limit, now).0;
            s'.tasks.Keys == {a} && s'.tasks[a] == ClaimedBy(s.tasks[a], owner, now) && s'.results == s.results
  {
    OnlyClaimable(s, a, limit);
    OnlyRow(s, a);
    assert ClaimNext(s, owner, limit, now).0 == Claim(s, a, owner, now);
  }

  // Resumed and claimed again.
  lemma ClaimedAgain(
    s: State, s1: State, s2: State, a: Id, message: Id, content: string, owner: string, limit: nat, t1: int, t2: int)
    requires Inv(s) && Resumable(s, a, message) && 0 < limit <= I64_MAX && Inv(s1)
    requires s1 == Resume(s, a, message, content, t1).0 && s2 == ClaimNext(s1, owner, limit, t2).0
    ensures s2.tasks.Keys == {a} && s2.tasks[a] == ClaimedBy(Resumed(s.tasks[a]), owner, t2) && a !in s2.results
  {
    ResumeAccepted(s, a, message, content, t1);
    OnlyTaskClaimed(s1, a, owner, limit, t2);
  }

  lemma ReclaimStates(
    base: State, s1: State, s2: State, a: Id, message: Id, content: string, owner: string, limit: nat, t1: int,
    t2: int)
    requires Inv(base) && Resumable(base, a, message) && 0 < limit <= I64_MAX
    requires s1 == Step(base, OpResume(a, message, content), t1) && s2 == Step(s1, OpClaimNext(owner, limit), t2)
    ensures s2.tasks.Keys == {a} && s2.tasks[a] == ClaimedBy(Resumed(base.tasks[a]), owner, t2) && a !in s2.results
  {
    StepKeeps(base, OpResume(a, message, content), t1);
    ResumeStep(base, a, message, content, t1);
    ClaimStep(s1, owner, limit, t2);
    ClaimedAgain(base, s1, s2, a, message, content, owner, limit, t1, t2);
  }

  lemma ThreeSteps(base: State, x: Timed, y: Timed, z: Timed)
    ensures var history := [x, y, z];
            && At(base, history, 0) == base && At(base, history, 1) == Step(base, x.op, x.now)
            && At(base, history, 2) == Step(At(base, history, 1), y.op, y.now)
            && At(base, history, 3) == Step(At(base, history, 2), z.op, z.now)
  {
    var history := [x, y, z];
    assert history[..0] == [] && history[..1] == [] + [Timed(x.op, x.now)];
    assert history[..2] == history[..1] + [Timed(y.op, y.now)] && history[..3] == history[..2] + [Timed(z.op, z.now)];
    RunOne(base, [], x.op, x.now);
    RunOne(base, history[..1], y.op, y.now);
    RunOne(base, history[..2], z.op, z.now);
  }

  // The row of the first run, beside the FAILED result of the second.
  lemma OldRowIsLonger(row: Task, owner: string, now: int, r: TaskResult)
    requires row.phase == Terminal && row.outcome == Some(BudgetExhausted) && r.outcome == Failed
    ensures ReadExcess(row, ClaimedBy(Resumed(row), owner, now), r) >= 6
  {
    FlagsExcess(row, ClaimedBy(Resumed(row), owner, now), r);
  }

  // The states of the run.
  lemma SecondRunStates(
    base: State, a: Id, message: Id, content: string, owner: string, limit: nat, r: TaskResult,
    times: (int, int, int))
    requires Inv(base) && Resumable(base, a, message) && 0 < limit <= I64_MAX
    requires ValidResult(r) && r.outcome == Failed && r.artifacts == []
    requires |CanonicalBytes(r)| <= base.tasks[a].budget.maxResultBytes
    ensures var history := SecondRun(a, message, content, owner, limit, r, times);
            && At(base, history, 0) == base && a !in At(base, history, 2).results
            && a in At(base, history, 2).tasks
            && At(base, history, 2).tasks[a] == ClaimedBy(Resumed(base.tasks[a]), owner, times.1)
            && a in At(base, history, 3).results
  {
    var history := SecondRun(a, message, content, owner, limit, r, times);
    ThreeSteps(base, history[0], history[1], history[2]);
    var s1, s2 := At(base, history, 1), At(base, history, 2);
    ReclaimStates(base, s1, s2, a, message, content, owner, limit, times.0, times.1);
    ResultStored(s2, At(base, history, 3), a, r, times.2);
  }

  lemma ResumedRead(
    base: State, history: seq<Timed>, m: Moments, a: Id, sized: Task, owner: string, now: int, r: TaskResult)
    requires Inv(base) && a in base.tasks && m.result == m.commit + 1 <= |history|
    requires m.row <= m.listing <= m.artifacts <= m.result && history[m.commit].op == OpStoreResult(a, r, None)
    requires At(base, history, m.row) == base && a in At(base, history, m.commit).tasks
    requires At(base, history, m.commit).tasks[a] == sized && a !in At(base, history, m.commit).results
    requires base.tasks[a].phase == Terminal && base.tasks[a].outcome == Some(BudgetExhausted)
    requires sized == ClaimedBy(Resumed(base.tasks[a]), owner, now) && Tight(sized, r)
    requires a in At(base, history, m.result).results
    ensures Timeline(base, history, m, a, r, None) && !ResponseFits(base, history, m, a, [])
  {
    OldRowIsLonger(base.tasks[a], owner, now, r);
    CommittedJustNow(base, history, m, a, r);
    ResponseFitsIff(base, history, m, m.commit, a, r, None, []);
  }

  /** A resume between the reads does it too, and by more: from every store whose one task ended
      BUDGET_EXHAUSTED and can be resumed, a request reads its row, the task is resumed, claimed and
      ends with a FAILED result that passed the preflight, the request reads on, and its response is
      too long. The pair it reads is not a torn one. */
  lemma ResumedReadExists(
    base: State, a: Id, message: Id, content: string, owner: string, limit: nat, r: TaskResult,
    times: (int, int, int))
    requires Inv(base) && Resumable(base, a, message) && 0 < limit <= I64_MAX
    requires base.tasks[a].budget.maxResultBytes >= MAX_FRAME_BYTES
    requires Paddable(ClaimedBy(Resumed(base.tasks[a]), owner, times.1), r)
    ensures var sized, m := ClaimedBy(Resumed(base.tasks[a]), owner, times.1), Moments(2, 0, 3, 3, 3);
            var tight := Padded(sized, r);
            var history := SecondRun(a, message, content, owner, limit, tight, times);
            && Timeline(base, history, m, a, tight, None) && At(base, history, m.row) == base
            && a in At(base, history, m.commit).tasks && At(base, history, m.commit).tasks[a] == sized
            && ResultResponseFits(sized, tight, None) && !TornPair(base.tasks[a], sized, tight)
            && a in At(base, history, m.result).results && !ResponseFits(base, history, m, a, [])
  {
    var sized := ClaimedBy(Resumed(base.tasks[a]), owner, times.1);
    var tight := Padded(sized, r);
    PaddedIsTight(sized, r);
    SecondRunStates(base, a, message, content, owner, limit, tight, times);
    ResumedRead(base, SecondRun(a, message, content, owner, limit, tight, times), Moments(2, 0, 3, 3, 3), a, sized, owner,
                times.1, tight);
  }
}
