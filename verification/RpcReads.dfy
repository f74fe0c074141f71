// The task-result request (crates/zcode-agentd/src/rpc.rs) reads the store several times and holds no
// lock in between: the task row, the result for the artifacts it lists, the artifacts, the result.
// Other operations run between these reads, a resume of the task among them.
module RpcReads {
  import opened Prelude
  import opened TaskTypes
  import opened ResultJson
  import opened StoreSpec
  import opened StoreRuns
  import opened StoreInvariant
  import opened StoreFrames
  import opened StoreTheorems
  import opened StoreHistory
  import opened StoreResults
  import opened RpcFrame

  // ----- The reads -----

  // `task_artifact_metadata`: no artifact, or the one listed by the result read first, when its row
  // is within the query's limit and agrees with that result.
  predicate Shows(listing: State, rows: State, a: Id, shown: seq<ArtifactView>) {
    || shown == []
    || (&& a in listing.results && |listing.results[a].result.artifacts| == 1
        && var artifact := listing.results[a].result.artifacts[0];
        && artifact.artifactId in rows.artifacts
        && rows.artifacts[artifact.artifactId].row.agent == a
        && rows.artifacts[artifact.artifactId].row.sha256 == artifact.sha256
        && shown == [ArtifactView(artifact.artifactId.text, "changes_patch", artifact.sha256,
                                  rows.artifacts[artifact.artifactId].row.bytes)])
  }

  // The moments in a history at which the request reads, and the operation that stored the result
  // it finds.
  datatype Moments = Moments(commit: nat, row: nat, listing: nat, artifacts: nat, result: nat)

  function At(base: State, history: seq<Timed>, n: nat): State
    requires n <= |history|
  {
    Run(base, history[..n])
  }

  ghost predicate Timeline(
    base: State, history: seq<Timed>, m: Moments, a: Id, r: TaskResult, patch: Option<NewArtifact>)
  {
    && Inv(base) && a in base.tasks
    && m.commit < m.result <= |history| && m.row <= m.listing <= m.artifacts <= m.result
    && history[m.commit].op == OpStoreResult(a, r, patch)
    && a !in At(base, history, m.commit).results && StoredFrom(base, history, m.commit + 1, m.result, a)
  }

  predicate CommittedBy(base: State, history: seq<Timed>, k: nat, n: nat, a: Id, r: TaskResult)
    requires n <= |history|
  {
    k < n && CommittedAt(base, history, k, a, r) && StoredFrom(base, history, k + 1, n, a)
  }

  lemma CommitExists(base: State, history: seq<Timed>, n: nat, a: Id)
    requires n <= |history| && a !in base.results && a in At(base, history, n).results
    ensures exists k: nat :: CommittedBy(base, history, k, n, a, At(base, history, n).results[a].result)
  {
    var before, r := history[..n], At(base, history, n).results[a].result;
    CommitPoint(base, before, a);
    var k: nat :| CommittedAt(base, before, k, a, r) && StoredFrom(base, before, k + 1, n, a);
    assert before[..k] == history[..k];
    forall i: nat | k + 1 <= i <= n ensures a in Run(base, history[..i]).results {
      assert before[..i] == history[..i];
    }
    assert CommittedBy(base, history, k, n, a, r);
  }

  lemma CommittedTimeline(base: State, history: seq<Timed>, m: Moments, a: Id, r: TaskResult)
    requires Inv(base) && a in base.tasks && m.commit < m.result <= |history|
    requires m.row <= m.listing <= m.artifacts <= m.result && CommittedAt(base, history, m.commit, a, r)
    requires StoredFrom(base, history, m.commit + 1, m.result, a)
    ensures history[m.commit].op.OpStoreResult?
    ensures Timeline(base, history, m, a, r, history[m.commit].op.patch)
  {
  }

  /** Every read that finds a result has such a timeline. */
  lemma TimelineExists(base: State, history: seq<Timed>, m: Moments, a: Id)
    requires Inv(base) && a in base.tasks && a !in base.results
    requires m.row <= m.listing <= m.artifacts <= m.result <= |history| && a in At(base, history, m.result).results
    ensures exists k, patch ::
              Timeline(base, history, m.(commit := k), a, At(base, history, m.result).results[a].result, patch)
  {
    var r := At(base, history, m.result).results[a].result;
    CommitExists(base, history, m.result, a);
    var k: nat :| CommittedBy(base, history, k, m.result, a, r);
    CommittedTimeline(base, history, m.(commit := k), a, r);
  }

  lemma {:induction false} RunKeepsRow(s: State, history: seq<Timed>, a: Id)
    requires a in s.tasks
    ensures a in Run(s, history).tasks && SameRow(s.tasks[a], Run(s, history).tasks[a])
  {
    if history != [] {
      var last := |history| - 1;
      RunKeepsRow(s, history[..last], a);
      StepFollows(Run(s, history[..last]), history[last].op, history[last].now);
      RowKept(s, Run(s, history[..last]), Run(s, history), a, history[last].op, history[last].now);
    }
  }

  lemma RowKept(s: State, s1: State, s2: State, a: Id, op: Op, now: int)
    requires a in s.tasks && a in s1.tasks && SameRow(s.tasks[a], s1.tasks[a])
    requires Follows(s1, s2, StepMark(s1, op, now), now)
    ensures a in s2.tasks && SameRow(s.tasks[a], s2.tasks[a])
  {
    assert RowStep(a, s1.tasks[a], s2.tasks[a], StepMark(s1, op, now));
  }

  // A first result, given the canonical bytes.
  lemma FirstStored(s: State, a: Id, r: TaskResult, patch: Option<NewArtifact>, canonical: seq<byte>, now: int)
    requires a !in s.results && a in StoreCanonical(s, a, r, patch, canonical, now).0.results
    ensures a in s.tasks && s.tasks[a].Owned() && (s.tasks[a].Flagged() ==> r.outcome == Cancelled)
    ensures var s' := StoreCanonical(s, a, r, patch, canonical, now).0;
            s'.results[a].result == r && KeepsPatch(s', r, patch)
  {
  }

  // The artifact of the result is the row of the patch.
  predicate KeepsPatch(s: State, r: TaskResult, patch: Option<NewArtifact>) {
    if r.artifacts == [] then patch.None?
    else
      && |r.artifacts| == 1 && patch.Some? && patch.value.artifactId == r.artifacts[0].artifactId
      && patch.value.sha256 == r.artifacts[0].sha256 && r.artifacts[0].artifactId in s.artifacts
      && s.artifacts[r.artifacts[0].artifactId].row == patch.value
  }

  lemma CommitStep(base: State, history: seq<Timed>, c: nat, a: Id, r: TaskResult, patch: Option<NewArtifact>)
    requires c < |history| && history[c].op == OpStoreResult(a, r, patch)
    ensures At(base, history, c + 1) ==
            StoreCanonical(At(base, history, c), a, r, patch, CanonicalBytes(r), history[c].now).0
  {
    assert history[..c + 1] == history[..c] + [Timed(OpStoreResult(a, r, patch), history[c].now)];
    RunOne(base, history[..c], OpStoreResult(a, r, patch), history[c].now);
  }

  lemma CommitStores(base: State, history: seq<Timed>, c: nat, a: Id, r: TaskResult, patch: Option<NewArtifact>)
    requires c < |history| && history[c].op == OpStoreResult(a, r, patch)
    requires a !in At(base, history, c).results && a in At(base, history, c + 1).results
    ensures var s := At(base, history, c);
            a in s.tasks && s.tasks[a].Owned() && (s.tasks[a].Flagged() ==> r.outcome == Cancelled)
    ensures var s' := At(base, history, c + 1); s'.results[a].result == r && KeepsPatch(s', r, patch)
  {
    CommitStep(base, history, c, a, r, patch);
    FirstStored(At(base, history, c), a, r, patch, CanonicalBytes(r), history[c].now);
  }

  // The commit, and what it leaves.
  lemma Commit(base: State, history: seq<Timed>, m: Moments, a: Id, r: TaskResult, patch: Option<NewArtifact>)
    requires Timeline(base, history, m, a, r, patch)
    ensures var s := At(base, history, m.commit);
            a in s.tasks && s.tasks[a].Owned() && (s.tasks[a].Flagged() ==> r.outcome == Cancelled)
    ensures var s' := At(base, history, m.commit + 1);
            && a in s'.results && s'.results[a].result == r && KeepsPatch(s', r, patch)
            && a in s'.tasks && s'.tasks[a].phase == Terminal && s'.tasks[a].outcome == Some(r.outcome)
  {
    CommitStores(base, history, m.commit, a, r, patch);
    RunKeeps(base, history[..m.commit + 1]);
    ResultOfTerminal(At(base, history, m.commit + 1), a);
  }

  // The result that is read is the one that was stored.
  lemma ResultRead(base: State, history: seq<Timed>, m: Moments, a: Id, r: TaskResult, patch: Option<NewArtifact>)
    requires Timeline(base, history, m, a, r, patch)
    ensures a in At(base, history, m.result).results && At(base, history, m.result).results[a].result == r
  {
    Commit(base, history, m, a, r, patch);
    StoredStays(base, history, m.commit + 1, m.result, a);
  }

  // ----- The responses -----

  // The preflight size of a result for a row.
  function PreflightSize(sized: Task, r: TaskResult, patch: Option<NewArtifact>): nat {
    TerminalSize(sized.(reapedAt := None), r, PatchViews(patch), WorstId())
  }

  // How much longer the row read makes the response than the row sized.
  function ReadExcess(row: Task, sized: Task, r: TaskResult): int {
    Excess(ViewOf(row), SizedView(sized.(reapedAt := None), r))
  }

  // Every response that the request gets from these reads fits.
  ghost predicate ResponseFits(base: State, history: seq<Timed>, m: Moments, a: Id, shown: seq<ArtifactView>)
    requires m.row <= |history| && m.result <= |history|
    requires a in At(base, history, m.row).tasks && a in At(base, history, m.result).results
  {
    var stored := At(base, history, m.result).results[a];
    AlwaysFits(ViewOf(At(base, history, m.row).tasks[a]), stored.result, stored.retained, shown)
  }

  lemma RowsFitIff(
    row: Task, sized: Task, r: TaskResult, patch: Option<NewArtifact>, retained: bool, shown: seq<ArtifactView>)
    requires SameRow(row, sized)
    ensures AlwaysFits(ViewOf(row), r, retained, shown) <==>
            PreflightSize(sized, r, patch) + ReadExcess(row, sized, r) + ShownExcess(shown, PatchViews(patch))
            - (if retained then 1 else 0) <= MAX_FRAME_BYTES
  {
    PhasePlain(row.phase);
    PhasePlain(Terminal);
    AlwaysFitsIff(sized.(reapedAt := None), r, PatchViews(patch), ViewOf(row), retained, shown);
  }

  lemma SameRowTwice(base: State, history: seq<Timed>, i: nat, p: nat, a: Id)
    requires a in base.tasks && i <= |history| && p <= |history|
    ensures a in At(base, history, i).tasks && a in At(base, history, p).tasks
    ensures SameRow(At(base, history, i).tasks[a], At(base, history, p).tasks[a])
  {
    RunKeepsRow(base, history[..i], a);
    RunKeepsRow(base, history[..p], a);
  }

  /** End to end over every history, whatever runs before, between and after the reads, a resume of
      the task included: all responses fit if and only if the preflight size has room for what the
      row that was read and the artifacts that are shown are longer by. The preflight saw the row at
      moment p. */
  lemma ResponseFitsIff(
    base: State, history: seq<Timed>, m: Moments, p: nat, a: Id, r: TaskResult, patch: Option<NewArtifact>,
    shown: seq<ArtifactView>)
    requires Timeline(base, history, m, a, r, patch) && p <= m.commit
    ensures a in At(base, history, m.row).tasks && a in At(base, history, p).tasks
    ensures a in At(base, history, m.result).results
    ensures var (row, sized) := (At(base, history, m.row).tasks[a], At(base, history, p).tasks[a]);
            ResponseFits(base, history, m, a, shown) <==>
            PreflightSize(sized, r, patch) + ReadExcess(row, sized, r) + ShownExcess(shown, PatchViews(patch))
            - (if At(base, history, m.result).results[a].retained then 1 else 0) <= MAX_FRAME_BYTES
  {
    SameRowTwice(base, history, m.row, p, a);
    ResultRead(base, history, m, a, r, patch);
    RowsFitIff(At(base, history, m.row).tasks[a], At(base, history, p).tasks[a], r, patch,
               At(base, history, m.result).results[a].retained, shown);
  }

  // ----- When a row is longer than the sized one -----

  function One(b: bool): nat { if b then 1 else 0 }

  // The flags that only the sized row shows, each a byte shorter there.
  function Gained(row: Task, sized: Task): nat {
    One(sized.stopRequested && !row.stopRequested) + One(sized.closeRequested && !row.closeRequested)
    + One(sized.closedAt.Some? && row.closedAt.None?)
  }

  // The flags that only the row read shows.
  function Lost(row: Task, sized: Task): nat {
    One(row.stopRequested && !sized.stopRequested) + One(row.closeRequested && !sized.closeRequested)
    + One(row.closedAt.Some? && sized.closedAt.None?) + One(row.reapedAt.Some?)
  }

  // The rows that make a response longer than the preflight took it to be.
  predicate Longer(row: Task, sized: Task, r: TaskResult) {
    match row.phase
    case WaitingInput =>
      if r.outcome == Failed then Gained(row, sized) >= Lost(row, sized)
      else r.outcome in {Completed, Cancelled, TimedOut} && Gained(row, sized) == 3 && Lost(row, sized) == 0
    case Cancelling => r.outcome == Failed && Gained(row, sized) == 3 && Lost(row, sized) == 0
    case Terminal =>
      row.outcome.Some? &&
      |OutcomeName(row.outcome.value)| + Gained(row, sized) > |OutcomeName(r.outcome)| + Lost(row, sized)
    case _ => false
  }

  lemma FlagsExcess(row: Task, sized: Task, r: TaskResult)
    ensures ReadExcess(row, sized, r) ==
            |PhaseName(row.phase)| - |"TERMINAL"| + OutcomeSize(row.outcome) - OutcomeSize(Some(r.outcome))
            + Gained(row, sized) - Lost(row, sized)
  {
  }

  // An early phase without an outcome, beside TERMINAL with one.
  lemma NamesExcess(phase: Phase, outcome: Outcome)
    requires phase != Terminal
    ensures var excess := |PhaseName(phase)| - |"TERMINAL"| + OutcomeSize(None) - OutcomeSize(Some(outcome));
            match phase
            case WaitingInput =>
              if outcome == Failed then excess == 1
              else if outcome in {Completed, Cancelled, TimedOut} then excess == -2
              else excess <= -5
            case Cancelling => if outcome == Failed then excess == -2 else excess <= -5
            case _ => excess <= -3 && (outcome == Cancelled ==> excess <= -5)
  {
    assert outcome == Failed || |OutcomeName(outcome)| >= 9;
  }

  /** For any row of the task, of this run or an earlier one. */
  lemma LongerIff(row: Task, sized: Task, r: TaskResult)
    requires Sound(row)
    ensures ReadExcess(row, sized, r) > 0 <==> Longer(row, sized, r)
  {
    FlagsExcess(row, sized, r);
    if row.phase != Terminal {
      NamesExcess(row.phase, r.outcome);
    }
  }

  // ----- Without a resume -----

  lemma Between(base: State, history: seq<Timed>, i: nat, j: nat, a: Id)
    requires a in base.tasks && NoResume(history, a) && i <= j <= |history|
    ensures Persists(At(base, history, i), At(base, history, j), a)
  {
    var between := history[i..j];
    assert history[..j] == history[..i] + between;
    RunConcat(base, history[..i], between);
    assert forall n :: 0 <= n < |between| ==> between[n] == history[i + n];
    RunPersists(base, history[..i], a);
    RunPersists(At(base, history, i), between, a);
  }

  lemma ArtifactsBetween(base: State, history: seq<Timed>, i: nat, j: nat)
    requires i <= j <= |history|
    ensures forall x :: x in At(base, history, i).artifacts ==>
                          && x in At(base, history, j).artifacts
                          && At(base, history, j).artifacts[x] == At(base, history, i).artifacts[x]
  {
    var between := history[i..j];
    assert history[..j] == history[..i] + between;
    RunConcat(base, history[..i], between);
    forall x | x in At(base, history, i).artifacts
      ensures x in At(base, history, j).artifacts
      ensures At(base, history, j).artifacts[x] == At(base, history, i).artifacts[x]
    {
      ArtifactsStay(At(base, history, i), between, x);
    }
  }

  // The rows before the result is stored.
  predicate BeforeEnd(t: Task, tc: Task) {
    && t.phase != Terminal && t.outcome.None? && tc.phase != Terminal
    && (t.stopRequested ==> tc.stopRequested) && (t.closeRequested ==> tc.closeRequested)
    && (tc.closedAt.Some? ==> t.closedAt.Some? || tc.closeRequested) && (t.closedAt.Some? ==> tc.closedAt.Some?)
  }

  lemma RowBeforeEnd(base: State, history: seq<Timed>, n: nat, c: nat, a: Id)
    requires Inv(base) && a in base.tasks && NoResume(history, a) && n <= c <= |history|
    requires a in At(base, history, c).tasks && At(base, history, c).tasks[a].Owned()
    ensures a in At(base, history, n).tasks
    ensures BeforeEnd(At(base, history, n).tasks[a], At(base, history, c).tasks[a])
  {
    Between(base, history, n, c, a);
    RunKeeps(base, history[..n]);
    assert Sound(At(base, history, n).tasks[a]);
  }

  // A row that was read, not reaped, while the task waited for input, beside a result that is
  // FAILED, or CANCELLED after a close that the row does not show and the sized row does.
  predicate TornPair(row: Task, sized: Task, r: TaskResult) {
    && row.phase == WaitingInput && row.reapedAt.None?
    && (|| r.outcome == Failed
        || (&& r.outcome == Cancelled
            && !row.stopRequested && !row.closeRequested && row.closedAt.None?
            && sized.stopRequested && sized.closeRequested && sized.closedAt.Some?))
  }

  /** A row read before the end is longer than the sized row by at most one byte, and only in such
      a pair. */
  lemma EarlyExcess(row: Task, sized: Task, tc: Task, r: TaskResult)
    requires BeforeEnd(row, tc) && BeforeEnd(sized, tc) && (tc.Flagged() ==> r.outcome == Cancelled)
    requires row.closedAt.Some? != sized.closedAt.Some? ==> tc.Flagged()
    ensures ReadExcess(row, sized, r) <= if TornPair(row, sized, r) then 1 else 0
    ensures TornPair(row, sized, r) ==> ReadExcess(row, sized, r) == 1
  {
    FlagsExcess(row, sized, r);
    NamesExcess(row.phase, r.outcome);
  }

  // A row read after the end is no longer than the sized row.
  lemma LateExcess(row: Task, sized: Task, r: TaskResult)
    requires row.phase == Terminal && row.outcome == Some(r.outcome) && Onward(sized, row)
    ensures ReadExcess(row, sized, r) <= 0
  {
  }

  // Two rows before the end differ in `closed` only if a close was requested in between.
  lemma ClosedTogether(base: State, history: seq<Timed>, i: nat, p: nat, c: nat, a: Id)
    requires a in base.tasks && NoResume(history, a) && i <= c <= |history| && p <= c
    requires a in At(base, history, i).tasks && a in At(base, history, p).tasks && a in At(base, history, c).tasks
    ensures At(base, history, i).tasks[a].closedAt.Some? != At(base, history, p).tasks[a].closedAt.Some? ==>
              At(base, history, c).tasks[a].Flagged()
  {
    Between(base, history, i, c, a);
    Between(base, history, p, c, a);
    if i <= p {
      Between(base, history, i, p, a);
    } else {
      Between(base, history, p, i, a);
    }
  }

  lemma ReadAfterEnd(
    base: State, history: seq<Timed>, m: Moments, p: nat, a: Id, r: TaskResult, patch: Option<NewArtifact>)
    requires Timeline(base, history, m, a, r, patch) && NoResume(history, a) && p <= m.commit < m.row
    ensures a in At(base, history, m.row).tasks && a in At(base, history, p).tasks
    ensures var (row, sized) := (At(base, history, m.row).tasks[a], At(base, history, p).tasks[a]);
            row.phase == Terminal && row.outcome == Some(r.outcome) && Onward(sized, row)
  {
    Commit(base, history, m, a, r, patch);
    Between(base, history, m.commit + 1, m.row, a);
    Between(base, history, p, m.row, a);
  }

  /** Without a resume between sizing and reading, in whichever order they happen, only a torn pair
      makes the row longer, and by one byte. */
  lemma UnresumedExcess(
    base: State, history: seq<Timed>, m: Moments, p: nat, a: Id, r: TaskResult, patch: Option<NewArtifact>)
    requires Timeline(base, history, m, a, r, patch) && NoResume(history, a) && p <= m.commit
    ensures a in At(base, history, m.row).tasks && a in At(base, history, p).tasks
    ensures var (row, sized) := (At(base, history, m.row).tasks[a], At(base, history, p).tasks[a]);
            if TornPair(row, sized, r) then ReadExcess(row, sized, r) == 1 else ReadExcess(row, sized, r) <= 0
  {
    if m.row <= m.commit {
      Commit(base, history, m, a, r, patch);
      RowBeforeEnd(base, history, p, m.commit, a);
      RowBeforeEnd(base, history, m.row, m.commit, a);
      ClosedTogether(base, history, m.row, p, m.commit, a);
      EarlyExcess(At(base, history, m.row).tasks[a], At(base, history, p).tasks[a],
                  At(base, history, m.commit).tasks[a], r);
    } else {
      ReadAfterEnd(base, history, m, p, a, r, patch);
      LateExcess(At(base, history, m.row).tasks[a], At(base, history, p).tasks[a], r);
    }
  }

  lemma ShownIsPatch(
    listing: State, rows: State, s: State, a: Id, r: TaskResult, patch: Option<NewArtifact>, shown: seq<ArtifactView>)
    requires Shows(listing, rows, a, shown) && shown != [] && listing.results[a].result == r && KeepsPatch(s, r, patch)
    requires forall x :: x in s.artifacts ==> x in rows.artifacts && rows.artifacts[x] == s.artifacts[x]
    ensures shown == PatchViews(patch)
  {
  }

  // The artifacts that are shown without a resume are those sized, or none.
  lemma UnresumedShows(
    base: State, history: seq<Timed>, m: Moments, a: Id, r: TaskResult, patch: Option<NewArtifact>,
    shown: seq<ArtifactView>)
    requires Timeline(base, history, m, a, r, patch) && NoResume(history, a)
    requires Shows(At(base, history, m.listing), At(base, history, m.artifacts), a, shown)
    ensures Projects(shown, PatchViews(patch))
  {
    if shown != [] {
      Commit(base, history, m, a, r, patch);
      ListedAfterCommit(base, history, m, a, r, patch);
      ArtifactsBetween(base, history, m.commit + 1, m.artifacts);
      ShownIsPatch(At(base, history, m.listing), At(base, history, m.artifacts), At(base, history, m.commit + 1),
                   a, r, patch, shown);
    }
  }

  lemma ListedAfterCommit(
    base: State, history: seq<Timed>, m: Moments, a: Id, r: TaskResult, patch: Option<NewArtifact>)
    requires Timeline(base, history, m, a, r, patch) && NoResume(history, a)
    requires a in At(base, history, m.listing).results
    ensures m.commit < m.listing && At(base, history, m.listing).results[a].result == r
  {
    if m.listing <= m.commit {
      Between(base, history, m.listing, m.commit, a);
    } else {
      Commit(base, history, m, a, r, patch);
      Between(base, history, m.commit + 1, m.listing, a);
    }
  }

  /** So without a resume a response for a result that passed the preflight fits, unless the row and
      the result are a torn pair and the preflight left no byte to spare. Then it does not, if the
      artifacts are those sized and the result is not retained. */
  lemma UnresumedResponseFits(
    base: State, history: seq<Timed>, m: Moments, p: nat, a: Id, r: TaskResult, patch: Option<NewArtifact>,
    shown: seq<ArtifactView>)
    requires Timeline(base, history, m, a, r, patch) && NoResume(history, a) && p <= m.commit
    requires Shows(At(base, history, m.listing), At(base, history, m.artifacts), a, shown)
    ensures a in At(base, history, m.row).tasks && a in At(base, history, p).tasks
    ensures a in At(base, history, m.result).results
    ensures var (row, sized) := (At(base, history, m.row).tasks[a], At(base, history, p).tasks[a]);
            var tight := TornPair(row, sized, r) && PreflightSize(sized, r, patch) == MAX_FRAME_BYTES;
            PreflightSize(sized, r, patch) <= MAX_FRAME_BYTES ==>
              && (!tight ==> ResponseFits(base, history, m, a, shown))
              && (tight && shown == PatchViews(patch) && !At(base, history, m.result).results[a].retained ==>
                    !ResponseFits(base, history, m, a, shown))
  {
    ResponseFitsIff(base, history, m, p, a, r, patch, shown);
    UnresumedExcess(base, history, m, p, a, r, patch);
    UnresumedShows(base, history, m, a, r, patch, shown);
    ProjectsNoLonger(shown, PatchViews(patch));
  }
}
