// How results get into the store: only by a submission, and never against a stop or close flag.
module StoreResults {
  import opened Prelude
  import opened TaskTypes
  import opened StoreSpec
  import opened StoreRuns
  import opened StoreFrames
  import opened StoreTheorems

  // Only a stored result is new in the results table.
  ghost predicate NoNewResult(results: map<Id, StoredResult>, results': map<Id, StoredResult>) {
    forall a :: a in results' ==> a in results && results'[a] == results[a]
  }

  lemma AppendNoNewResult(s: State, w: LifecycleWrite, now: int)
    ensures Append(s, w, now).0.results == s.results
  {
    var s' := Append(s, w, now).0;
    if s' != s {
      var s1 := Record(s, w, s.tasks[w.agent].lastEventSeq + 1, now);
      assert s1.results == s.results;
      assert s' == if w.terminal.Some? then ApplyTerminal(s1, w.agent, w.terminal.value, now) else s1;
    }
  }

  lemma AdmissionNoNewResult(s: State, op: Op, now: int)
    requires op.OpEnqueue? || op.OpClaimNext? || op.OpMarkRunning? || op.OpReap?
    ensures TaskStep(s, op, now).results == s.results
  {
  }

  lemma EndNoNewResult(s: State, op: Op, now: int)
    requires op.OpTransition? || op.OpFailClaim? || op.OpStop?
    ensures TaskStep(s, op, now).results == s.results
  {
  }

  lemma ResumeNoNewResult(s: State, a: Id, message: Id, content: string, now: int)
    ensures NoNewResult(s.results, Resume(s, a, message, content, now).0.results)
  {
    var (s', r) := Resume(s, a, message, content, now);
    if r.Ok? {
      assert s'.results == s.results - {a};
    } else {
      assert s' == s;
    }
  }

  lemma InputNoNewResult(s: State, op: Op, now: int)
    requires IsInput(op)
    ensures InputStep(s, op, now).results == s.results
  {
  }

  lemma StepNoNewResult(s: State, op: Op, now: int)
    requires !op.OpStoreResult?
    ensures NoNewResult(s.results, Step(s, op, now).results)
  {
    if IsInput(op) {
      InputNoNewResult(s, op, now);
    } else if op.OpAppend? {
      AppendNoNewResult(s, op.write, now);
    } else if op.OpResume? {
      ResumeNoNewResult(s, op.agent, op.message, op.content, now);
    } else if op.OpTransition? || op.OpFailClaim? || op.OpStop? {
      EndNoNewResult(s, op, now);
    } else {
      AdmissionNoNewResult(s, op, now);
    }
  }

  predicate Submits(op: Op, a: Id) { op.OpStoreResult? && op.agent == a }

  predicate FlaggedIn(s: State, a: Id) { a in s.tasks && s.tasks[a].Flagged() }

  // The step that stores the first result of a task is a submission of it, with CANCELLED if a
  // stop or close flag is set.
  predicate Commits(s: State, op: Op, a: Id, r: TaskResult) {
    && a !in s.results && Submits(op, a) && op.result == r
    && (FlaggedIn(s, a) ==> r.outcome == Cancelled)
  }

  lemma SubmissionCommits(s: State, a: Id, r: TaskResult, patch: Option<NewArtifact>, now: int, b: Id)
    requires b !in s.results && b in StoreResult(s, a, r, patch, now).0.results
    ensures a == b && StoreResult(s, a, r, patch, now).0.results[b].result == r
    ensures FlaggedIn(s, b) ==> r.outcome == Cancelled
  {
  }

  lemma StepCommits(s: State, op: Op, now: int, a: Id)
    requires a !in s.results && a in Step(s, op, now).results
    ensures Commits(s, op, a, Step(s, op, now).results[a].result)
  {
    if op.OpStoreResult? {
      SubmissionCommits(s, op.agent, op.result, op.patch, now, a);
      assert Step(s, op, now) == StoreResult(s, op.agent, op.result, op.patch, now).0;
    } else {
      StepNoNewResult(s, op, now);
    }
  }

  predicate CommittedAt(s: State, history: seq<Timed>, k: nat, a: Id, r: TaskResult) {
    k < |history| && Commits(Run(s, history[..k]), history[k].op, a, r)
  }

  // From moment m to moment n a result of the task is stored.
  predicate StoredFrom(s: State, history: seq<Timed>, m: nat, n: nat, a: Id)
    requires n <= |history|
  {
    forall i: nat :: m <= i <= n ==> a in Run(s, history[..i]).results
  }

  // A stored result is replaced only after a resume has dropped it.
  lemma StepKeepsResult(s: State, op: Op, now: int, a: Id)
    requires a in s.results && a in Step(s, op, now).results
    ensures Step(s, op, now).results[a] == s.results[a]
  {
    if op.OpStoreResult? {
      StepFollows(s, op, now);
      assert StepMark(s, op, now) == Plain;
    } else {
      StepNoNewResult(s, op, now);
    }
  }

  lemma LastStays(s: State, history: seq<Timed>, a: Id)
    requires history != [] && a in Run(s, history).results && a in Run(s, history[..|history| - 1]).results
    ensures Run(s, history).results[a] == Run(s, history[..|history| - 1]).results[a]
  {
    var last := |history| - 1;
    StepKeepsResult(Run(s, history[..last]), history[last].op, history[last].now, a);
  }

  lemma {:induction false} StoredStays(s: State, history: seq<Timed>, m: nat, n: nat, a: Id)
    requires m <= n <= |history| && StoredFrom(s, history, m, n, a)
    ensures Run(s, history[..n]).results[a] == Run(s, history[..m]).results[a]
    decreases n
  {
    if m < n {
      StoredStays(s, history, m, n - 1, a);
      assert history[..n][..n - 1] == history[..n - 1];
      LastStays(s, history[..n], a);
    }
  }

  /** A result that is there after a history was put there by one submission in it, CANCELLED if a
      stop or close flag was set at that moment, and has been there ever since. */
  lemma {:induction false} CommitPoint(s: State, history: seq<Timed>, a: Id)
    requires a !in s.results && a in Run(s, history).results
    ensures exists k: nat :: CommittedAt(s, history, k, a, Run(s, history).results[a].result) &&
                             StoredFrom(s, history, k + 1, |history|, a)
  {
    var last := |history| - 1;
    var before, r := history[..last], Run(s, history).results[a].result;
    if a in Run(s, before).results {
      CommitPoint(s, before, a);
      LastStays(s, history, a);
      var k: nat :| CommittedAt(s, before, k, a, r) && StoredFrom(s, before, k + 1, last, a);
      CommittedEarlier(s, history, k, a, r);
    } else {
      StepCommits(Run(s, before), history[last].op, history[last].now, a);
      assert history[..last + 1] == history;
      assert CommittedAt(s, history, last, a, r) && StoredFrom(s, history, last + 1, |history|, a);
    }
  }

  lemma CommittedEarlier(s: State, history: seq<Timed>, k: nat, a: Id, r: TaskResult)
    requires history != [] && a in Run(s, history).results
    requires var before := history[..|history| - 1];
             CommittedAt(s, before, k, a, r) && StoredFrom(s, before, k + 1, |before|, a)
    ensures CommittedAt(s, history, k, a, r) && StoredFrom(s, history, k + 1, |history|, a)
  {
    var before := history[..|history| - 1];
    assert before[..k] == history[..k];
    forall i: nat | k + 1 <= i <= |history| ensures a in Run(s, history[..i]).results {
      if i < |history| {
        assert before[..i] == history[..i];
      } else {
        assert history[..i] == history;
      }
    }
  }
}
