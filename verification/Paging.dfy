/** Pages of the ordered listings. */
module Paging {
  import opened Sets

  /** `author` is the rank of the author's login id in the database's collation. */
  datatype Row = Row(author: int, index: nat)

  /** `ORDER BY u.id ASC, b.index DESC` */
  predicate Before(a: Row, b: Row) {
    a.author < b.author || (a.author == b.author && a.index > b.index)
  }

  /** A result of the listing query: the given rows, each once, in order. */
  ghost predicate Listing(rows: seq<Row>, table: set<Row>) {
    && (forall i, j :: 0 <= i < j < |rows| ==> Before(rows[i], rows[j]))
    && (forall r :: r in rows <==> r in table)
  }

  /** LIMIT and OFFSET. */
  function Slice<T>(rows: seq<T>, offset: nat, limit: nat): seq<T> {
    if offset >= |rows| then []
    else if offset + limit >= |rows| then rows[offset..]
    else rows[offset..offset + limit]
  }

  /** Page p, from 1. */
  function Page<T>(rows: seq<T>, p: nat, limit: nat): seq<T>
    requires p >= 1
  {
    Slice(rows, (p - 1) * limit, limit)
  }

  /** `math.ceil(total / limit)` */
  function TotalPages(total: nat, limit: nat): nat
    requires limit >= 1
  {
    (total + limit - 1) / limit
  }

  lemma EmptyListing(xs: seq<Row>, table: set<Row>)
    requires Listing(xs, table)
    ensures xs == [] <==> table == {}
  {
    assert forall r :: r in table ==> r in xs;
    if xs != [] {
      assert xs[0] in table;
    }
  }

  /** The order is total, so the query has one result only. */
  lemma {:induction false} ListingIsUnique(xs: seq<Row>, ys: seq<Row>, table: set<Row>)
    requires Listing(xs, table) && Listing(ys, table)
    ensures xs == ys
    decreases |xs|
  {
    EmptyListing(xs, table);
    EmptyListing(ys, table);
    if xs == [] {
    } else {
      assert xs[0] in ys;
      assert ys[0] in xs;
      assert xs[0] == ys[0];
      var rest := table - {xs[0]};
      TailListing(xs, table);
      TailListing(ys, table);
      ListingIsUnique(xs[1..], ys[1..], rest);
      assert xs == [xs[0]] + xs[1..] && ys == [ys[0]] + ys[1..];
    }
  }

  lemma TailListing(xs: seq<Row>, table: set<Row>)
    requires Listing(xs, table) && xs != []
    ensures Listing(xs[1..], table - {xs[0]})
  {
    forall r | r in table - {xs[0]} ensures r in xs[1..] {
      assert r in xs;
      var k :| 0 <= k < |xs| && xs[k] == r;
      assert xs[1..][k - 1] == r;
    }
  }

  /** The pages 1..n, each read from its own run of the query. */
  function Pages<T>(runs: seq<seq<T>>, limit: nat): seq<T>
  {
    if runs == [] then []
    else Pages(runs[..|runs| - 1], limit) + Page(runs[|runs| - 1], |runs|, limit)
  }

  lemma SliceNonEmptyIff<T>(rows: seq<T>, n: nat, limit: nat)
    requires limit >= 1
    ensures Slice(rows, n, limit) != [] <==> n < |rows|
  {
  }

  lemma QuotientIs(i: nat, q: nat, limit: nat)
    requires q * limit <= i < q * limit + limit
    ensures i / limit == q
  {
    var k := i / limit;
    assert i == k * limit + i % limit;
    if k < q {
      TimesMonotone(k + 1, q, limit);
    } else if q < k {
      TimesMonotone(q + 1, k, limit);
    }
  }

  lemma {:induction false} PagesLength<T>(runs: seq<seq<T>>, total: nat, limit: nat)
    requires limit >= 1
    requires forall k :: 0 <= k < |runs| ==> |runs[k]| == total
    ensures |Pages(runs, limit)| == if |runs| * limit <= total then |runs| * limit else total
  {
    if runs == [] {
    } else {
      PagesLength(runs[..|runs| - 1], total, limit);
      Times(|runs|, limit);
    }
  }

  /** Place i of the pages together is place i of the run that its page, number q + 1, was read from. */
  lemma {:induction false} PagesAt<T>(runs: seq<seq<T>>, total: nat, limit: nat, i: nat, q: nat)
    requires limit >= 1
    requires forall k :: 0 <= k < |runs| ==> |runs[k]| == total
    requires i < total && q < |runs| && q * limit <= i < q * limit + limit
    ensures i < |Pages(runs, limit)| && Pages(runs, limit)[i] == runs[q][i]
  {
    var n := |runs| - 1;
    PagesLength(runs[..n], total, limit);
    if q < n {
      PagesAt(runs[..n], total, limit, i, q);
    } else {
      Times(|runs|, limit);
    }
  }

  /** Which page place i is on. */
  lemma PageOf(i: nat, total: nat, limit: nat) returns (q: nat)
    requires limit >= 1 && i < total
    ensures q == i / limit
    ensures q < TotalPages(total, limit) && q * limit <= i < q * limit + limit
  {
    q := i / limit;
    var n := TotalPages(total, limit);
    assert i == q * limit + i % limit;
    TotalPagesEnough(total, limit);
    if n <= q {
      TimesMonotone(n, q, limit);
    }
  }

  /** All pages together are as long as one run, if there are as many as the count says. */
  lemma AllPagesLength<T>(runs: seq<seq<T>>, total: nat, limit: nat)
    requires limit >= 1
    requires forall k :: 0 <= k < |runs| ==> |runs[k]| == total
    requires |runs| == TotalPages(total, limit)
    ensures |Pages(runs, limit)| == total
  {
    PagesLength(runs, total, limit);
    TotalPagesEnough(total, limit);
  }

  lemma Times(n: nat, limit: nat)
    requires n >= 1
    ensures n * limit == (n - 1) * limit + limit
  {
  }

  lemma TotalPagesEnough(total: nat, limit: nat)
    requires limit >= 1
    ensures TotalPages(total, limit) * limit >= total
    ensures TotalPages(total, limit) >= 1 ==> (TotalPages(total, limit) - 1) * limit < total
  {
    var n := TotalPages(total, limit);
    assert n * limit + (total + limit - 1) % limit == total + limit - 1;
    if n >= 1 {
      Times(n, limit);
    }
  }

  /** All the pages together, each from a query of its own, are the listing: no loss, no repeat. */
  lemma PagesTile(runs: seq<seq<Row>>, rows: seq<Row>, table: set<Row>, limit: nat)
    requires limit >= 1
    requires Listing(rows, table)
    requires forall i :: 0 <= i < |runs| ==> Listing(runs[i], table)
    requires |runs| == TotalPages(|rows|, limit)
    ensures var list := Pages(runs, limit);
            && list == rows
            && (forall r :: r in list <==> r in table)
            && (forall i, j :: 0 <= i < j < |list| ==>
                  list[i].author < list[j].author || (list[i].author == list[j].author && list[i].index > list[j].index))
  {
    forall i | 0 <= i < |runs| ensures runs[i] == rows {
      ListingIsUnique(runs[i], rows, table);
    }
    AllPagesLength(runs, |rows|, limit);
    forall i | 0 <= i < |rows| ensures Pages(runs, limit)[i] == rows[i] {
      var q := PageOf(i, |rows|, limit);
      PagesAt(runs, |rows|, limit, i, q);
    }
  }

  /** A page holds something exactly when it is one of the counted ones. */
  lemma PageNonEmptyIff<T>(rows: seq<T>, p: nat, limit: nat)
    requires limit >= 1 && p >= 1
    ensures Page(rows, p, limit) != [] <==> p <= TotalPages(|rows|, limit)
  {
    var n := TotalPages(|rows|, limit);
    TotalPagesEnough(|rows|, limit);
    SliceNonEmptyIff(rows, (p - 1) * limit, limit);
    if p <= n {
      TimesMonotone(p - 1, n - 1, limit);
    } else {
      TimesMonotone(n, p - 1, limit);
    }
  }

  lemma TimesMonotone(m: nat, n: nat, limit: nat)
    requires m <= n
    ensures m * limit <= n * limit
  {
  }

  // ---------- the search ----------

  /** `ORDER BY reg_date DESC`, which leaves boards of the same instant in any order. */
  ghost predicate SearchResult(rows: seq<nat>, registered: map<nat, int>) {
    && (forall i :: 0 <= i < |rows| ==> rows[i] in registered)
    && (forall b :: b in registered ==> b in rows)
    && (forall i, j :: 0 <= i < j < |rows| ==> rows[i] != rows[j])
    && (forall i, j :: 0 <= i < j < |rows| ==> registered[rows[i]] >= registered[rows[j]])
  }

  /** As many runs of the query as there are pages. */
  ghost predicate SearchRuns(runs: seq<seq<nat>>, registered: map<nat, int>, limit: nat)
    requires limit >= 1
  {
    && |runs| == TotalPages(|registered|, limit)
    && forall k :: 0 <= k < |runs| ==> SearchResult(runs[k], registered)
  }

  /** Every board found, and each once. */
  ghost predicate ListsOnce(list: seq<nat>, registered: map<nat, int>) {
    && (forall b :: b in list <==> b in registered)
    && (forall i, j :: 0 <= i < j < |list| ==> list[i] != list[j])
  }

  /** Whatever order each run gives to boards of the same instant, the pages make up the result. */
  ghost predicate PagesAlwaysTile(registered: map<nat, int>, limit: nat)
    requires limit >= 1
  {
    forall runs: seq<seq<nat>> :: SearchRuns(runs, registered, limit) ==> ListsOnce(Pages(runs, limit), registered)
  }

  /** Places k - 1 and k hold boards registered at the same instant. */
  predicate TiedAt(rows: seq<nat>, registered: map<nat, int>, k: nat) {
    && 0 < k < |rows| && rows[k - 1] in registered && rows[k] in registered
    && registered[rows[k - 1]] == registered[rows[k]]
  }

  /** The last board of a page and the first of the next were registered at different instants. */
  ghost predicate BoundariesUntied(rows: seq<nat>, registered: map<nat, int>, limit: nat)
    requires limit >= 1
  {
    forall k: nat :: k % limit == 0 ==> !TiedAt(rows, registered, k)
  }

  function Elements(xs: seq<nat>): set<nat> {
    set b | b in xs
  }

  lemma {:induction false} ElementsSize(xs: seq<nat>)
    requires forall i, j :: 0 <= i < j < |xs| ==> xs[i] != xs[j]
    ensures |Elements(xs)| == |xs|
  {
    if xs == [] {
      assert Elements(xs) == {};
    } else {
      var n := |xs| - 1;
      ElementsSize(xs[..n]);
      assert xs == xs[..n] + [xs[n]];
      assert Elements(xs) == Elements(xs[..n]) + {xs[n]};
    }
  }

  lemma ResultSize(rows: seq<nat>, registered: map<nat, int>)
    requires SearchResult(rows, registered)
    ensures |rows| == |registered|
  {
    ElementsSize(rows);
    assert Elements(rows) == registered.Keys;
  }

  function Latest(registered: map<nat, int>, v: int): set<nat> {
    set b | b in registered && registered[b] >= v
  }

  /** The first k boards, if the next has another time, are those registered at theirs or later. */
  lemma FirstAreLatest(rows: seq<nat>, registered: map<nat, int>, k: nat, v: int)
    requires SearchResult(rows, registered) && 0 < k < |rows|
    requires registered[rows[k - 1]] == v && !TiedAt(rows, registered, k)
    ensures Elements(rows[..k]) == Latest(registered, v)
    ensures |Elements(rows[..k])| == k
  {
    forall b | b in Latest(registered, v) ensures b in rows[..k] {
      var i :| 0 <= i < |rows| && rows[i] == b;
      assert i < k;
      assert rows[..k][i] == b;
    }
    ElementsSize(rows[..k]);
  }

  lemma LatestComeFirst(rows: seq<nat>, registered: map<nat, int>, v: int, i: nat)
    requires SearchResult(rows, registered) && i < |rows| && registered[rows[i]] >= v
    ensures i < |Latest(registered, v)|
  {
    ElementsSize(rows[..i + 1]);
    forall b | b in rows[..i + 1] ensures b in Latest(registered, v) {
    }
    SubsetSize(Elements(rows[..i + 1]), Latest(registered, v));
  }

  /** Up to a place where the times differ, every run of the query gives the same boards. */
  lemma SameFirst(rows: seq<nat>, other: seq<nat>, registered: map<nat, int>, k: nat)
    requires SearchResult(rows, registered) && SearchResult(other, registered)
    requires 0 < k < |rows| && !TiedAt(rows, registered, k)
    ensures |other| == |rows| && Elements(other[..k]) == Elements(rows[..k])
  {
    var v := registered[rows[k - 1]];
    ResultSize(rows, registered);
    ResultSize(other, registered);
    FirstAreLatest(rows, registered, k, v);
    forall b | b in Latest(registered, v) ensures b in other[..k] {
      var i :| 0 <= i < |other| && other[i] == b;
      LatestComeFirst(other, registered, v, i);
      assert other[..k][i] == b;
    }
    ElementsSize(other[..k]);
    SubsetSize(Latest(registered, v), Elements(other[..k]));
  }

  lemma TimesDivisible(q: nat, limit: nat)
    requires limit >= 1
    ensures q * limit % limit == 0
  {
    QuotientIs(q * limit, q, limit);
  }

  /** The start of the later of two pages lies between places on them. */
  lemma BoundaryBetween(i: nat, p: nat, j: nat, q: nat, limit: nat)
    requires i < j && p != q
    requires p * limit <= i < p * limit + limit && q * limit <= j < q * limit + limit
    ensures i < q * limit <= j
  {
    if q < p {
      PagesApart(q, p, limit);
    } else {
      PagesApart(p, q, limit);
    }
  }

  lemma PagesApart(p: nat, q: nat, limit: nat)
    requires p < q
    ensures p * limit + limit <= q * limit
  {
    TimesMonotone(p + 1, q, limit);
  }

  /** Two places on pages p + 1 and q + 1, read from two runs, with an untied boundary between them. */
  lemma DifferentPages(rows: seq<nat>, x: seq<nat>, y: seq<nat>, registered: map<nat, int>, limit: nat,
                       i: nat, p: nat, j: nat, q: nat)
    requires limit >= 1 && SearchResult(rows, registered) && SearchResult(x, registered) && SearchResult(y, registered)
    requires BoundariesUntied(rows, registered, limit)
    requires i < j < |rows| && p != q
    requires p * limit <= i < p * limit + limit && q * limit <= j < q * limit + limit
    ensures i < |x| && j < |y| && x[i] != y[j]
  {
    var k := q * limit;
    BoundaryBetween(i, p, j, q, limit);
    TimesDivisible(q, limit);
    SameFirst(rows, x, registered, k);
    SameFirst(rows, y, registered, k);
    assert x[..k][i] == x[i];
    assert x[i] in Elements(y[..k]);
    assert y[j] !in y[..k];
  }

  lemma UntiedPagesTile(rows: seq<nat>, runs: seq<seq<nat>>, registered: map<nat, int>, limit: nat)
    requires limit >= 1 && SearchResult(rows, registered) && SearchRuns(runs, registered, limit)
    requires BoundariesUntied(rows, registered, limit)
    ensures ListsOnce(Pages(runs, limit), registered)
  {
    var list := Pages(runs, limit);
    ResultSize(rows, registered);
    forall k | 0 <= k < |runs| ensures |runs[k]| == |rows| {
      ResultSize(runs[k], registered);
    }
    AllPagesLength(runs, |rows|, limit);
    forall i, j | 0 <= i < j < |list| ensures list[i] != list[j] {
      var p := PageOf(i, |rows|, limit);
      var q := PageOf(j, |rows|, limit);
      PagesAt(runs, |rows|, limit, i, p);
      PagesAt(runs, |rows|, limit, j, q);
      if p != q {
        DifferentPages(rows, runs[p], runs[q], registered, limit, i, p, j, q);
      }
    }
    forall b | b in list ensures b in registered {
      var i :| 0 <= i < |list| && list[i] == b;
      var p := PageOf(i, |rows|, limit);
      PagesAt(runs, |rows|, limit, i, p);
    }
    OnceMeansAll(list, registered);
  }

  lemma OnceMeansAll(list: seq<nat>, registered: map<nat, int>)
    requires |list| == |registered| && forall b :: b in list ==> b in registered
    requires forall i, j :: 0 <= i < j < |list| ==> list[i] != list[j]
    ensures ListsOnce(list, registered)
  {
    ElementsSize(list);
    SubsetSize(Elements(list), registered.Keys);
    forall b | b in registered ensures b in list {
      assert b in Elements(list);
    }
  }

  function Swapped(rows: seq<nat>, k: nat): seq<nat>
    requires k + 1 < |rows|
  {
    rows[k := rows[k + 1]][k + 1 := rows[k]]
  }

  /** Two neighbours may come in either order exactly when they were registered at the same instant. */
  lemma NeighboursSwapIff(rows: seq<nat>, registered: map<nat, int>, k: nat)
    requires SearchResult(rows, registered) && k + 1 < |rows|
    ensures SearchResult(Swapped(rows, k), registered) <==> registered[rows[k]] == registered[rows[k + 1]]
  {
    var other := Swapped(rows, k);
    assert other[k] == rows[k + 1] && other[k + 1] == rows[k];
    if registered[rows[k]] == registered[rows[k + 1]] {
      forall b | b in registered ensures b in other {
        var i :| 0 <= i < |rows| && rows[i] == b;
        assert other[if i == k then k + 1 else if i == k + 1 then k else i] == b;
      }
    }
  }

  /**
   At a page boundary inside a tie, let the page after it come from a run that swaps the two boards
   around the boundary: the pages then show one of them twice and the other not at all.
   */
  lemma TiedBoundaryRepeats(rows: seq<nat>, registered: map<nat, int>, limit: nat, p: nat, k: nat)
    returns (runs: seq<seq<nat>>)
    requires limit >= 1 && SearchResult(rows, registered)
    requires k == p * limit && TiedAt(rows, registered, k)
    ensures SearchRuns(runs, registered, limit)
    ensures Pages(runs, limit) == rows[k := rows[k - 1]]
    ensures rows[k] !in Pages(runs, limit)
  {
    ResultSize(rows, registered);
    NeighboursSwapIff(rows, registered, k - 1);
    var other := Swapped(rows, k - 1);
    runs := seq(TotalPages(|rows|, limit), q => if q == p then other else rows);
    TiedPages(rows, runs, limit, p, k);
    OverwrittenIsLost(rows, k);
  }

  lemma OverwrittenIsLost(rows: seq<nat>, k: nat)
    requires forall i, j :: 0 <= i < j < |rows| ==> rows[i] != rows[j]
    requires 0 < k < |rows|
    ensures rows[k] !in rows[k := rows[k - 1]]
  {
  }

  lemma TiedPages(rows: seq<nat>, runs: seq<seq<nat>>, limit: nat, p: nat, k: nat)
    requires limit >= 1 && k == p * limit && 0 < k < |rows|
    requires |runs| == TotalPages(|rows|, limit)
    requires forall q :: 0 <= q < |runs| ==> runs[q] == if q == p then Swapped(rows, k - 1) else rows
    ensures Pages(runs, limit) == rows[k := rows[k - 1]]
  {
    AllPagesLength(runs, |rows|, limit);
    forall i | 0 <= i < |rows| ensures Pages(runs, limit)[i] == rows[k := rows[k - 1]][i] {
      TiedPlace(rows, runs, limit, p, k, i);
    }
  }

  /** Place i, if page p + 1 begins at k and its run has the boards around k swapped. */
  lemma TiedPlace(rows: seq<nat>, runs: seq<seq<nat>>, limit: nat, p: nat, k: nat, i: nat)
    requires limit >= 1 && k == p * limit && 0 < k < |rows| && i < |rows|
    requires |runs| == TotalPages(|rows|, limit)
    requires forall q :: 0 <= q < |runs| ==> runs[q] == if q == p then Swapped(rows, k - 1) else rows
    ensures i < |Pages(runs, limit)| && Pages(runs, limit)[i] == rows[k := rows[k - 1]][i]
  {
    var q := PageOf(i, |rows|, limit);
    PagesAt(runs, |rows|, limit, i, q);
    if i == k {
      SamePage(p, q, i, limit);
    } else if q == p {
      assert k <= i;
    }
  }

  lemma SamePage(p: nat, q: nat, i: nat, limit: nat)
    requires p * limit <= i < p * limit + limit && q * limit <= i < q * limit + limit
    ensures p == q
  {
    if p < q {
      PagesApart(p, q, limit);
    } else if q < p {
      PagesApart(q, p, limit);
    }
  }

  /**
   For a given limit, the pages 1 to total_pages of a search, each from its own run of the query,
   always list every board exactly once if and only if no page boundary falls inside a tie.
   */
  lemma SearchPagesTileIff(rows: seq<nat>, registered: map<nat, int>, limit: nat)
    requires limit >= 1 && SearchResult(rows, registered)
    ensures PagesAlwaysTile(registered, limit) <==> BoundariesUntied(rows, registered, limit)
  {
    if BoundariesUntied(rows, registered, limit) {
      forall runs: seq<seq<nat>> | SearchRuns(runs, registered, limit)
        ensures ListsOnce(Pages(runs, limit), registered)
      {
        UntiedPagesTile(rows, runs, registered, limit);
      }
    } else {
      var k: nat :| k % limit == 0 && TiedAt(rows, registered, k);
      var runs := TiedBoundaryRepeats(rows, registered, limit, k / limit, k);
      assert rows[k] in registered && rows[k] !in Pages(runs, limit);
      assert !ListsOnce(Pages(runs, limit), registered);
    }
  }

  /** Whatever its ties, every run of the query has the same time at the same place. */
  lemma SameTimes(x: seq<nat>, y: seq<nat>, registered: map<nat, int>, i: nat)
    requires SearchResult(x, registered) && SearchResult(y, registered) && i < |x|
    ensures i < |y| && registered[x[i]] <= registered[y[i]]
  {
    var v := registered[x[i]];
    ResultSize(x, registered);
    ResultSize(y, registered);
    LatestComeFirst(x, registered, v, i);
    if registered[y[i]] < v {
      forall b | b in Latest(registered, v) ensures b in y[..i] {
        var k :| 0 <= k < |y| && y[k] == b;
        assert y[..i][k] == b;
      }
      ElementsSize(y[..i]);
      SubsetSize(Latest(registered, v), Elements(y[..i]));
      assert false;
    }
  }

  /** Tied or not, the pages of a search show later registrations before earlier ones, throughout. */
  lemma SearchNewestFirst(rows: seq<nat>, runs: seq<seq<nat>>, registered: map<nat, int>, limit: nat)
    requires limit >= 1 && SearchResult(rows, registered) && SearchRuns(runs, registered, limit)
    ensures var list := Pages(runs, limit);
            && |list| == |registered|
            && forall i :: 0 <= i < |list| ==> list[i] in registered
    ensures var list := Pages(runs, limit);
            forall i, j :: 0 <= i < j < |list| ==> registered[list[i]] >= registered[list[j]]
  {
    var list := Pages(runs, limit);
    ResultSize(rows, registered);
    forall k | 0 <= k < |runs| ensures |runs[k]| == |rows| {
      ResultSize(runs[k], registered);
    }
    AllPagesLength(runs, |rows|, limit);
    forall i | 0 <= i < |list| ensures list[i] in registered && registered[list[i]] == registered[rows[i]] {
      var p := PageOf(i, |rows|, limit);
      PagesAt(runs, |rows|, limit, i, p);
      SameTimes(rows, runs[p], registered, i);
      SameTimes(runs[p], rows, registered, i);
    }
  }

  /** Two boards of the same instant, one to a page: the search can show the first on both pages. */
  lemma TiedSearch() returns (registered: map<nat, int>, runs: seq<seq<nat>>)
    ensures SearchRuns(runs, registered, 1) && registered.Keys == {1, 2}
    ensures Pages(runs, 1) == [1, 1]
  {
    registered := map[1 := 0, 2 := 0];
    runs := TiedBoundaryRepeats([1, 2], registered, 1, 1, 1);
  }
}
