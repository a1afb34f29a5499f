/** The five most viewed boards, and the answers served from the cache. */
module Popular {
  import opened Sets

  datatype Post = Post(views: nat, notice: bool, deleted: bool, registered: int)

  type Posts = map<nat, Post>

  datatype Period = All | Weekly | Month

  const CACHE_TTL: int := 600

  /** The WHERE clause of the ranking. */
  predicate Candidate(posts: Posts, period: Period, now: int, b: nat) {
    && b in posts && !posts[b].deleted && !posts[b].notice
    && (period.Weekly? ==> posts[b].registered >= now - 604800)
    && (period.Month? ==> posts[b].registered >= now - 2592000)
  }

  function Candidates(posts: Posts, period: Period, now: int): set<nat> {
    set b | b in posts && Candidate(posts, period, now, b)
  }

  /** `ORDER BY view_count DESC, index DESC` puts a before b. */
  predicate Beats(posts: Posts, a: nat, b: nat)
    requires a in posts && b in posts
  {
    posts[a].views > posts[b].views || (posts[a].views == posts[b].views && a > b)
  }

  function Above(posts: Posts, period: Period, now: int, b: nat): set<nat>
    requires b in posts
  {
    set a | a in posts && Candidate(posts, period, now, a) && Beats(posts, a, b)
  }

  /** The rows whose ROW_NUMBER is at most 5. */
  function Top5(posts: Posts, period: Period, now: int): set<nat> {
    set b | b in posts && Candidate(posts, period, now, b) && |Above(posts, period, now, b)| < 5
  }

  lemma {:induction false} HasLowest(posts: Posts, c: set<nat>) returns (m: nat)
    requires c != {} && c <= posts.Keys
    ensures m in c && forall a :: a in c && a != m ==> Beats(posts, a, m)
    decreases |c|
  {
    var x :| x in c;
    if c == {x} {
      m := x;
    } else {
      var n := HasLowest(posts, c - {x});
      m := if Beats(posts, x, n) then n else x;
      forall a | a in c && a != m ensures Beats(posts, a, m) {
        assert a == x || a == n || Beats(posts, a, n);
      }
    }
  }

  lemma {:induction false} HasHighest(posts: Posts, c: set<nat>) returns (m: nat)
    requires c != {} && c <= posts.Keys
    ensures m in c && forall a :: a in c && a != m ==> Beats(posts, m, a)
    decreases |c|
  {
    var x :| x in c;
    if c == {x} {
      m := x;
    } else {
      var n := HasHighest(posts, c - {x});
      m := if Beats(posts, n, x) then n else x;
      forall a | a in c && a != m ensures Beats(posts, m, a) {
        assert a == x || a == n || Beats(posts, n, a);
      }
    }
  }

  /** How far back a period reaches. */
  predicate InPeriod(registered: int, period: Period, now: int) {
    match period
    case All => true
    case Weekly => now - registered <= 604800
    case Month => now - registered <= 2592000
  }

  /** A board that may be ranked: not deleted, no notice, and registered within the period. */
  predicate Eligible(posts: Posts, period: Period, now: int, b: nat) {
    b in posts && !posts[b].deleted && !posts[b].notice && InPeriod(posts[b].registered, period, now)
  }

  function EligibleOnes(posts: Posts, period: Period, now: int): set<nat> {
    set b | b in posts && Eligible(posts, period, now, b)
  }

  /**
   The five are eligible, and every eligible board left out has fewer views than every board let in,
   or as many and the smaller index.
   */
  lemma Top5Separates(posts: Posts, period: Period, now: int, a: nat, b: nat)
    requires a in Top5(posts, period, now)
    requires Eligible(posts, period, now, b) && b !in Top5(posts, period, now)
    ensures Eligible(posts, period, now, a)
    ensures posts[a].views > posts[b].views || (posts[a].views == posts[b].views && a > b)
  {
    if Beats(posts, b, a) {
      assert Above(posts, period, now, b) <= Above(posts, period, now, a);
      SubsetSize(Above(posts, period, now, b), Above(posts, period, now, a));
      assert false;
    }
  }

  lemma Top5AtMostFive(posts: Posts, period: Period, now: int)
    ensures |Top5(posts, period, now)| <= 5
  {
    var top := Top5(posts, period, now);
    if top != {} {
      var m := HasLowest(posts, top);
      assert top - {m} <= Above(posts, period, now, m);
      SubsetSize(top - {m}, Above(posts, period, now, m));
    }
  }

  /** A candidate left out has five boards above it, all let in. */
  lemma Top5IsFull(posts: Posts, period: Period, now: int)
    requires Candidates(posts, period, now) - Top5(posts, period, now) != {}
    ensures |Top5(posts, period, now)| >= 5
  {
    var top := Top5(posts, period, now);
    var rest := Candidates(posts, period, now) - top;
    var m := HasHighest(posts, rest);
    forall a | a in Above(posts, period, now, m) ensures a in top {
      assert a in Candidates(posts, period, now);
      assert a in rest ==> a == m || Beats(posts, m, a);
    }
    SubsetSize(Above(posts, period, now, m), top);
  }

  /** Five boards, or all the eligible ones when there are fewer. */
  lemma Top5Size(posts: Posts, period: Period, now: int)
    ensures var top := Top5(posts, period, now);
            var all := EligibleOnes(posts, period, now);
            && top <= all && |top| <= 5
            && (|all| <= 5 ==> top == all)
            && (|all| >= 5 ==> |top| == 5)
  {
    var top := Top5(posts, period, now);
    var all := EligibleOnes(posts, period, now);
    assert all == Candidates(posts, period, now);
    Top5AtMostFive(posts, period, now);
    SubsetSize(top, all);
    if all - top != {} {
      Top5IsFull(posts, period, now);
    } else {
      assert all == top + (all - top);
      assert all == top;
    }
  }

  /** A board of a longer period's five that is in the week is in the week's five. */
  lemma LongerFiveInWeek(posts: Posts, period: Period, now: int, b: nat)
    requires b in Top5(posts, period, now) && Eligible(posts, Weekly, now, b)
    ensures b in Top5(posts, Weekly, now)
  {
    SubsetSize(Above(posts, Weekly, now, b), Above(posts, period, now, b));
  }

  // ---------- the cache ----------

  datatype Entry = Entry(expiry: int, boards: set<nat>)

  type Cache = map<Period, Entry>

  /** One request: the clock, and the table as the ranking would find it. */
  datatype Ask = Ask(period: Period, now: int, posts: Posts)

  function Answer(cache: Cache, q: Ask): set<nat> {
    if q.period in cache && q.now < cache[q.period].expiry then cache[q.period].boards
    else Top5(q.posts, q.period, q.now)
  }

  /** An empty ranking is answered 404 and not cached. */
  function Refreshed(cache: Cache, q: Ask): Cache {
    if q.period in cache && q.now < cache[q.period].expiry then cache
    else if Top5(q.posts, q.period, q.now) == {} then cache
    else cache[q.period := Entry(q.now + CACHE_TTL, Top5(q.posts, q.period, q.now))]
  }

  class PopularService {
    var cache: Cache

    constructor ()
      ensures cache == map[]
    {
      cache := map[];
    }

    method GetPopular(q: Ask) returns (code: nat, boards: set<nat>)
      modifies this
      ensures cache == Refreshed(old(cache), q)
      ensures boards == Answer(old(cache), q)
      ensures q.period in old(cache) && q.now < old(cache)[q.period].expiry ==> code == 200
      ensures !(q.period in old(cache) && q.now < old(cache)[q.period].expiry) ==> (code == 404 <==> boards == {})
    {
      if q.period in cache && q.now < cache[q.period].expiry {
        return 200, cache[q.period].boards;
      }
      var rows := Top5(q.posts, q.period, q.now);
      if rows == {} {
        return 404, {};
      }
      cache := cache[q.period := Entry(q.now + CACHE_TTL, rows)];
      return 200, rows;
    }
  }

  function CacheAfter(asks: seq<Ask>): Cache {
    if asks == [] then map[] else Refreshed(CacheAfter(asks[..|asks| - 1]), asks[|asks| - 1])
  }

  /** The five that the j-th request would have found at its own instant. */
  function Found(asks: seq<Ask>, j: nat): set<nat>
    requires j < |asks|
  {
    Top5(asks[j].posts, asks[j].period, asks[j].now)
  }

  /** Every cache entry is the five of an earlier request, with 600 seconds from then. */
  predicate Explained(asks: seq<Ask>, period: Period, e: Entry) {
    exists j: nat :: j < |asks| && asks[j].period == period && e == Entry(asks[j].now + CACHE_TTL, Found(asks, j))
  }

  lemma {:induction false} EntriesExplained(asks: seq<Ask>)
    ensures forall p :: p in CacheAfter(asks) ==>
              Explained(asks, p, CacheAfter(asks)[p]) && CacheAfter(asks)[p].boards != {}
  {
    if asks == [] {
    } else {
      var before := asks[..|asks| - 1];
      EntriesExplained(before);
      var q := asks[|asks| - 1];
      assert Found(asks, |asks| - 1) == Top5(q.posts, q.period, q.now);
      forall p | p in CacheAfter(asks)
        ensures Explained(asks, p, CacheAfter(asks)[p]) && CacheAfter(asks)[p].boards != {}
      {
        if p in CacheAfter(before) && CacheAfter(asks)[p] == CacheAfter(before)[p] {
          var j: nat :| j < |before| && before[j].period == p &&
                        CacheAfter(before)[p] == Entry(before[j].now + CACHE_TTL, Found(before, j));
          assert asks[j] == before[j] && Found(asks, j) == Found(before, j);
        }
      }
    }
  }

  /**
   Every answer, cached or not, is the five for its period at the instant of this or an earlier
   request less than 600 seconds ago; and an answer is empty only if the ranking is, right now.
   */
  lemma AnswersAreRecent(asks: seq<Ask>, q: Ask)
    ensures var all := asks + [q];
            var answer := Answer(CacheAfter(asks), q);
            && (exists j: nat :: j < |all| && all[j].period == q.period && q.now - all[j].now < 600 &&
                               answer == Found(all, j))
            && (answer == {} ==> Top5(q.posts, q.period, q.now) == {})
  {
    var all := asks + [q];
    var cache := CacheAfter(asks);
    EntriesExplained(asks);
    if q.period in cache && q.now < cache[q.period].expiry {
      var j: nat :| j < |asks| && asks[j].period == q.period &&
                    cache[q.period] == Entry(asks[j].now + CACHE_TTL, Found(asks, j));
      assert all[j] == asks[j] && Found(all, j) == Found(asks, j);
    } else {
      assert all[|asks|] == q && Found(all, |asks|) == Top5(q.posts, q.period, q.now);
    }
  }

  /** From when on a request for the period is ranked anew. */
  predicate CachedUntil(cache: Cache, period: Period, boards: set<nat>, expiry: int) {
    period in cache && cache[period] == Entry(expiry, boards)
  }

  lemma {:induction false} EntryStays(cache: Cache, asks: seq<Ask>, period: Period, boards: set<nat>, expiry: int)
    requires CachedUntil(cache, period, boards, expiry)
    requires forall k :: 0 <= k < |asks| && asks[k].period == period ==> asks[k].now < expiry
    ensures CachedUntil(RefreshedAll(cache, asks), period, boards, expiry)
    decreases |asks|
  {
    if asks == [] {
    } else {
      EntryStays(Refreshed(cache, asks[0]), asks[1..], period, boards, expiry);
    }
  }

  function RefreshedAll(cache: Cache, asks: seq<Ask>): Cache
    decreases |asks|
  {
    if asks == [] then cache else RefreshedAll(Refreshed(cache, asks[0]), asks[1..])
  }

  /**
   A ranking that was just made, and is not empty, answers every request for its period in the next
   600 seconds, whatever the table has become and whatever is asked for other periods; at 600 seconds
   the next request is ranked anew.
   */
  lemma CacheHolds(cache: Cache, q: Ask, asks: seq<Ask>, r: Ask)
    requires !(q.period in cache && q.now < cache[q.period].expiry)
    requires Top5(q.posts, q.period, q.now) != {}
    requires forall k :: 0 <= k < |asks| && asks[k].period == q.period ==> asks[k].now < q.now + 600
    requires r.period == q.period
    ensures var after := RefreshedAll(Refreshed(cache, q), asks);
            Answer(after, r) == if r.now < q.now + 600 then Top5(q.posts, q.period, q.now) else Top5(r.posts, r.period, r.now)
  {
    EntryStays(Refreshed(cache, q), asks, q.period, Top5(q.posts, q.period, q.now), q.now + 600);
  }
}
