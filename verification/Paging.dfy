// Listing tasks page by page, newest first (crates/zcode-agent-store/src/lib.rs), and the text
// form of the cursor (crates/zcode-agentd/src/rpc.rs).
module Paging {
  import opened Prelude
  import opened Numerals
  import opened TaskTypes
  import opened StoreRuns
  import opened StoreInvariant
  import opened StoreFrames
  import opened StoreTheorems

  datatype Scope = Scope(repository: Option<string>, groupId: Option<string>)

  datatype Filter = Filter(phase: Option<Phase>, outcome: Option<Outcome>)

  const NO_FILTER := Filter(None, None)

  // The rows of a page by rowid.
  datatype Page = Page(rowids: seq<nat>, nextCursor: Option<nat>)

  predicate InScope(spec: TaskSpec, scope: Scope) {
    && (scope.repository.Some? ==> spec.repository == scope.repository.value)
    && (scope.groupId.Some? ==> spec.groupId == scope.groupId)
  }

  predicate Listed(t: Task, scope: Scope, filter: Filter) {
    && InScope(t.spec, scope)
    && (filter.phase.Some? ==> t.phase == filter.phase.value)
    && (filter.outcome.Some? ==> t.outcome == filter.outcome)
  }

  predicate ListedAt(order: seq<Id>, tasks: map<Id, Task>, scope: Scope, filter: Filter, rowid: nat) {
    1 <= rowid <= |order| && order[rowid - 1] in tasks && Listed(tasks[order[rowid - 1]], scope, filter)
  }

  // The listed rowids up to n, greatest first.
  function Descending(order: seq<Id>, tasks: map<Id, Task>, scope: Scope, filter: Filter, n: nat): seq<nat> {
    if n == 0 then []
    else
      (if ListedAt(order, tasks, scope, filter, n) then [n] else [])
      + Descending(order, tasks, scope, filter, n - 1)
  }

  // The greatest rowid a cursor leaves in play.
  function Below(cursor: Option<nat>, count: nat): nat {
    match cursor
    case None => count
    case Some(c) => if c == 0 then 0 else if c - 1 < count then c - 1 else count
  }

  function First<T>(rows: seq<T>, n: nat): seq<T> {
    if |rows| <= n then rows else rows[..n]
  }

  // The page cut from the listed rows: the query asks for one row more than the limit.
  function Cut(rows: seq<nat>, limit: nat): Page
    requires limit > 0
  {
    var selected := First(rows, limit);
    Page(selected, if |rows| > limit then Some(selected[limit - 1]) else None)
  }

  // `list_task_page`
  function ListPage(s: State, scope: Scope, filter: Filter, cursor: Option<nat>, limit: nat): Reply<Page> {
    if scope == Scope(None, None) || limit == 0 then Err(InvalidState)
    else if cursor.GetOr(0) > I64_MAX || SaturatingAdd(limit, 1) > I64_MAX then Err(InvalidState)
    else Ok(Cut(Descending(s.order, s.tasks, scope, filter, Below(cursor, |s.order|)), limit))
  }

  // ----- The rows of one listing -----

  /** The listed rowids are exactly those up to n whose rows match, in strictly decreasing order. */
  lemma {:induction false} DescendingExact(order: seq<Id>, tasks: map<Id, Task>, scope: Scope, filter: Filter, n: nat)
    ensures forall k: nat :: k in Descending(order, tasks, scope, filter, n) <==>
                             k <= n && ListedAt(order, tasks, scope, filter, k)
    ensures Falling(Descending(order, tasks, scope, filter, n))
  {
    if n > 0 {
      DescendingExact(order, tasks, scope, filter, n - 1);
      var rest := Descending(order, tasks, scope, filter, n - 1);
      if ListedAt(order, tasks, scope, filter, n) {
        assert Descending(order, tasks, scope, filter, n) == [n] + rest;
        assert forall i :: 0 <= i < |rest| ==> rest[i] in rest;
      } else {
        assert Descending(order, tasks, scope, filter, n) == rest;
      }
    }
  }

  predicate Falling(rowids: seq<nat>) {
    forall i, j :: 0 <= i < j < |rowids| ==> rowids[i] > rowids[j]
  }

  // Dropping the first k listed rows leaves the listing below the k-th row.
  lemma {:induction false} RestOfListing(
    order: seq<Id>, tasks: map<Id, Task>, scope: Scope, filter: Filter, n: nat, k: nat)
    requires 0 < k <= |Descending(order, tasks, scope, filter, n)|
    ensures var rows := Descending(order, tasks, scope, filter, n);
            && 1 <= rows[k - 1] <= n
            && Descending(order, tasks, scope, filter, rows[k - 1] - 1) == rows[k..]
  {
    var rows := Descending(order, tasks, scope, filter, n);
    var rest := Descending(order, tasks, scope, filter, n - 1);
    if !ListedAt(order, tasks, scope, filter, n) {
      assert rows == rest;
      RestOfListing(order, tasks, scope, filter, n - 1, k);
    } else {
      assert rows[1..] == rest;
      if k > 1 {
        RestOfListing(order, tasks, scope, filter, n - 1, k - 1);
        assert rows[k..] == rest[k - 1..];
      }
    }
  }

  // ----- The cursor as text -----

  const CURSOR_PREFIX := "task:"

  function FormatCursor(cursor: nat): string { CURSOR_PREFIX + Decimal(cursor) }

  function ParseCursor(text: string): Option<nat> {
    if !(CURSOR_PREFIX <= text) then None
    else
      match ParseU64(text[|CURSOR_PREFIX|..])
      case None => None
      case Some(n) => if n > 0 then Some(n) else None
  }

  /** Every cursor a page can name is read back as itself; zero and overflow are refused. */
  lemma CursorRoundTrip(n: nat)
    ensures ParseCursor(FormatCursor(n)) == if 0 < n <= U64_MAX then Some(n) else None
  {
    assert FormatCursor(n)[|CURSOR_PREFIX|..] == Decimal(n);
    ParseReadsDecimal(n);
  }

  // ----- Following cursors -----

  // Other operations run, then the client asks for the next page.
  datatype Round = Round(history: seq<Timed>, limit: nat)

  datatype Walk = Walk(rowids: seq<nat>, finished: bool)

  // The page a request with this cursor text gets.
  function Fetch(s: State, scope: Scope, cursor: Option<string>, limit: nat): Reply<Page> {
    if cursor.None? then ListPage(s, scope, NO_FILTER, None, limit)
    else if ParseCursor(cursor.value).None? then Err(InvalidState)
    else ListPage(s, scope, NO_FILTER, ParseCursor(cursor.value), limit)
  }

  function Follow(s: State, scope: Scope, cursor: Option<string>, rounds: seq<Round>): Walk
    decreases |rounds|
  {
    if rounds == [] then Walk([], false)
    else
      var s' := Run(s, rounds[0].history);
      match Fetch(s', scope, cursor, rounds[0].limit)
      case Err(_) => Walk([], false)
      case Ok(page) =>
        if page.nextCursor.None? then Walk(page.rowids, true)
        else
          var rest := Follow(s', scope, Some(FormatCursor(page.nextCursor.value)), rounds[1..]);
          Walk(page.rowids + rest.rowids, rest.finished)
  }

  // Rows keep their place and their spec.
  ghost predicate Extends(s: State, s': State) {
    s.order <= s'.order && forall a :: a in s.tasks ==> a in s'.tasks && s'.tasks[a].spec == s.tasks[a].spec
  }

  lemma StepExtends(s: State, op: Op, now: int)
    ensures Extends(s, Step(s, op, now))
  {
    StepFollows(s, op, now);
    var s', mark := Step(s, op, now), StepMark(s, op, now);
    forall a | a in s.tasks ensures a in s'.tasks && s'.tasks[a].spec == s.tasks[a].spec {
      assert RowStep(a, s.tasks[a], s'.tasks[a], mark);
    }
  }

  lemma {:induction false} RunExtends(s: State, history: seq<Timed>)
    ensures Extends(s, Run(s, history))
  {
    if history != [] {
      var last := |history| - 1;
      RunExtends(s, history[..last]);
      StepExtends(Run(s, history[..last]), history[last].op, history[last].now);
    }
  }

  // What a scope-only listing shows up to rowid n.
  function Shown(s: State, scope: Scope, n: nat): seq<nat> {
    Descending(s.order, s.tasks, scope, NO_FILTER, n)
  }

  ghost predicate AllPresent(s: State) {
    forall i: nat :: TaskAt(s.order, s.tasks, i)
  }

  // Old rows are listed the same after rows were added or moved on.
  lemma {:induction false} OldRowsListTheSame(s: State, s': State, scope: Scope, n: nat)
    requires n <= |s.order| && Extends(s, s') && AllPresent(s)
    ensures Shown(s', scope, n) == Shown(s, scope, n)
  {
    if n > 0 {
      OldRowsListTheSame(s, s', scope, n - 1);
      assert TaskAt(s.order, s.tasks, n - 1);
      assert s'.order[n - 1] == s.order[n - 1];
    }
  }

  predicate GoodRounds(rounds: seq<Round>) {
    forall i :: 0 <= i < |rounds| ==> 0 < rounds[i].limit < I64_MAX
  }

  // One page, and what is listed below it.
  lemma PageStep(s: State, scope: Scope, n: nat, limit: nat)
    requires limit > 0
    ensures var rows := Shown(s, scope, n);
            var page := Cut(rows, limit);
            && (page.nextCursor.None? ==> page.rowids == rows)
            && (page.nextCursor.Some? ==>
                  && 1 <= page.nextCursor.value <= n && page.rowids != []
                  && rows == page.rowids + Shown(s, scope, page.nextCursor.value - 1))
  {
    var rows := Shown(s, scope, n);
    if |rows| > limit {
      RestOfListing(s.order, s.tasks, scope, NO_FILTER, n, limit);
    }
  }

  predicate Covers(walk: Walk, rows: seq<nat>, rounds: nat) {
    && walk.rowids <= rows && (walk.finished ==> walk.rowids == rows)
    && (rounds > |rows| ==> walk.finished)
  }

  lemma FetchBelow(s: State, scope: Scope, n: nat, limit: nat)
    requires scope != Scope(None, None) && 0 < limit < I64_MAX && n < I64_MAX && n < |s.order|
    ensures Fetch(s, scope, Some(FormatCursor(n + 1)), limit) == Ok(Cut(Shown(s, scope, n), limit))
  {
    CursorRoundTrip(n + 1);
  }

  lemma FollowStep(s: State, scope: Scope, cursor: Option<string>, rounds: seq<Round>, page: Page)
    requires rounds != [] && Fetch(Run(s, rounds[0].history), scope, cursor, rounds[0].limit) == Ok(page)
    ensures Follow(s, scope, cursor, rounds) ==
            if page.nextCursor.None? then Walk(page.rowids, true)
            else
              var rest := Follow(Run(s, rounds[0].history), scope, Some(FormatCursor(page.nextCursor.value)), rounds[1..]);
              Walk(page.rowids + rest.rowids, rest.finished)
  {
  }

  lemma CoversMore(page: seq<nat>, walk: Walk, rows: seq<nat>, rounds: nat)
    requires page != [] && Covers(walk, rows, rounds)
    ensures Covers(Walk(page + walk.rowids, walk.finished), page + rows, rounds + 1)
  {
  }

  lemma ExtendsFurther(base: State, s: State, s': State)
    requires Extends(base, s) && Extends(s, s')
    ensures Extends(base, s')
  {
  }

  // The page below rowid n shows the base state's rows, and what is left of them comes below it.
  lemma OldPage(base: State, s: State, scope: Scope, n: nat, limit: nat)
    requires AllPresent(base) && Extends(base, s) && n < |base.order| <= I64_MAX
    requires scope != Scope(None, None) && 0 < limit < I64_MAX
    ensures var rows := Shown(base, scope, n);
            var page := Cut(rows, limit);
            && Fetch(s, scope, Some(FormatCursor(n + 1)), limit) == Ok(page)
            && (page.nextCursor.None? ==> page.rowids == rows)
            && (page.nextCursor.Some? ==>
                  && 1 <= page.nextCursor.value <= n && page.rowids != []
                  && rows == page.rowids + Shown(base, scope, page.nextCursor.value - 1))
  {
    OldRowsListTheSame(base, s, scope, n);
    FetchBelow(s, scope, n, limit);
    PageStep(base, scope, n, limit);
  }

  // The rest of a walk whose next page starts below rowid n of the base state.
  lemma {:induction false} FollowFrom(
    base: State, s: State, scope: Scope, cursor: Option<string>, n: nat, rounds: seq<Round>)
    requires AllPresent(base) && Extends(base, s) && |base.order| <= I64_MAX
    requires scope != Scope(None, None) && GoodRounds(rounds)
    requires cursor == Some(FormatCursor(n + 1)) && n < |base.order|
    ensures Covers(Follow(s, scope, cursor, rounds), Shown(base, scope, n), |rounds|)
    decreases |rounds|
  {
    if rounds != [] {
      var s', limit := Run(s, rounds[0].history), rounds[0].limit;
      RunExtends(s, rounds[0].history);
      ExtendsFurther(base, s, s');
      OldPage(base, s', scope, n, limit);
      var page := Cut(Shown(base, scope, n), limit);
      FollowStep(s, scope, cursor, rounds, page);
      if page.nextCursor.Some? {
        var c := page.nextCursor.value;
        FollowFrom(base, s', scope, Some(FormatCursor(c)), c - 1, rounds[1..]);
        var rest := Follow(s', scope, Some(FormatCursor(c)), rounds[1..]);
        CoversMore(page.rowids, rest, Shown(base, scope, c - 1), |rounds| - 1);
      }
    }
  }

  /** Following cursors from none to the end, with any positive limits and any operations between
      the pages, lists exactly what one listing would have shown at the first page, in the same
      order. With more rounds than listed rows the end is reached. */
  lemma FollowingCursorsIsComplete(s: State, scope: Scope, rounds: seq<Round>)
    requires Inv(s) && rounds != [] && GoodRounds(rounds) && scope != Scope(None, None)
    requires |Run(s, rounds[0].history).order| <= I64_MAX
    ensures var first := Run(s, rounds[0].history);
            Covers(Follow(s, scope, None, rounds), Shown(first, scope, |first.order|), |rounds|)
  {
    var first := Run(s, rounds[0].history);
    RunKeeps(s, rounds[0].history);
    FollowFromFirst(s, first, scope, rounds);
  }

  lemma FollowFromFirst(s: State, first: State, scope: Scope, rounds: seq<Round>)
    requires rounds != [] && GoodRounds(rounds) && scope != Scope(None, None)
    requires first == Run(s, rounds[0].history) && AllPresent(first) && |first.order| <= I64_MAX
    ensures Covers(Follow(s, scope, None, rounds), Shown(first, scope, |first.order|), |rounds|)
  {
    PageStep(first, scope, |first.order|, rounds[0].limit);
    var page := Cut(Shown(first, scope, |first.order|), rounds[0].limit);
    FollowStep(s, scope, None, rounds, page);
    if page.nextCursor.Some? {
      var c := page.nextCursor.value;
      FollowFrom(first, first, scope, Some(FormatCursor(c)), c - 1, rounds[1..]);
      var rest := Follow(first, scope, Some(FormatCursor(c)), rounds[1..]);
      CoversMore(page.rowids, rest, Shown(first, scope, c - 1), |rounds| - 1);
    }
  }

  lemma OldTaskIsShown(s: State, first: State, scope: Scope, a: Id)
    requires Extends(s, first) && a in s.tasks && TaskRow(s.order, a, s.tasks[a]) && InScope(s.tasks[a].spec, scope)
    ensures s.tasks[a].rowid in Shown(first, scope, |first.order|) && Falling(Shown(first, scope, |first.order|))
  {
    DescendingExact(first.order, first.tasks, scope, NO_FILTER, |first.order|);
    assert ListedAt(first.order, first.tasks, scope, NO_FILTER, s.tasks[a].rowid);
  }

  /** In particular every task in scope that was there at the start is listed exactly once. */
  lemma EveryTaskListedOnce(s: State, scope: Scope, rounds: seq<Round>, a: Id)
    requires Inv(s) && rounds != [] && GoodRounds(rounds) && scope != Scope(None, None)
    requires |Run(s, rounds[0].history).order| <= I64_MAX
    requires a in s.tasks && InScope(s.tasks[a].spec, scope)
    requires Follow(s, scope, None, rounds).finished
    ensures var rowids := Follow(s, scope, None, rounds).rowids;
            s.tasks[a].rowid in rowids && Falling(rowids)
  {
    var first := Run(s, rounds[0].history);
    FollowingCursorsIsComplete(s, scope, rounds);
    RunExtends(s, rounds[0].history);
    assert TaskRow(s.order, a, s.tasks[a]);
    OldTaskIsShown(s, first, scope, a);
  }
}
