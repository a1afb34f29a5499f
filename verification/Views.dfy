/** View de-duplication: a view is recorded unless a 300-second marker of the same viewer is alive. */
module Views {

  /** Redis names the viewer by account or by anonymous id. */
  datatype Viewer = Account(index: nat) | Guest(id: string)

  datatype Key = Key(board: nat, viewer: Viewer)

  const VIEW_TTL: int := 300

  /** A marker set with SETEX is there until its time to live has passed. */
  predicate Alive(expiry: map<Key, int>, k: Key, now: int) {
    k in expiry && now < expiry[k]
  }

  datatype Request = Request(key: Key, time: int)

  class ViewTracker {
    var expiry: map<Key, int>
    var recorded: seq<Request>

    constructor ()
      ensures expiry == map[] && recorded == []
    {
      expiry, recorded := map[], [];
    }

    /** A missing or deleted board is answered 404 and leaves no trace. */
    method View(r: Request, boardFound: bool) returns (code: nat)
      modifies this
      ensures code == if boardFound then 200 else 404
      ensures boardFound ==> (expiry, recorded) == Served(old(expiry), old(recorded), r)
      ensures !boardFound ==> expiry == old(expiry) && recorded == old(recorded)
    {
      if !boardFound {
        return 404;
      }
      var viewed := Alive(expiry, r.key, r.time);
      if !viewed {
        recorded := recorded + [r];
        expiry := expiry[r.key := r.time + VIEW_TTL];
      }
      return 200;
    }
  }

  function Served(expiry: map<Key, int>, recorded: seq<Request>, r: Request): (map<Key, int>, seq<Request>) {
    if Alive(expiry, r.key, r.time) then (expiry, recorded)
    else (expiry[r.key := r.time + VIEW_TTL], recorded + [r])
  }

  /** The requests of a run, in the order they were served. */
  function ServedAll(expiry: map<Key, int>, recorded: seq<Request>, rs: seq<Request>): (map<Key, int>, seq<Request>)
    decreases |rs|
  {
    if rs == [] then (expiry, recorded)
    else
      var (e, out) := Served(expiry, recorded, rs[0]);
      ServedAll(e, out, rs[1..])
  }

  /** The times at which one viewer asked for one board. */
  function Times(rs: seq<Request>, k: Key): seq<int> {
    if rs == [] then []
    else (if rs[0].key == k then [rs[0].time] else []) + Times(rs[1..], k)
  }

  predicate Ordered(ts: seq<int>) {
    forall i, j :: 0 <= i < j < |ts| ==> ts[i] <= ts[j]
  }

  predicate Separated(ts: seq<int>) {
    forall i :: 0 <= i < |ts| - 1 ==> ts[i] + 300 <= ts[i + 1]
  }

  /** Greedy choice from the left: take a time when it is 300 seconds or more after the last taken. */
  function Greedy(ts: seq<int>, free: int): seq<int>
    decreases |ts|
  {
    if ts == [] then []
    else if ts[0] < free then Greedy(ts[1..], free)
    else [ts[0]] + Greedy(ts[1..], ts[0] + 300)
  }

  // ---------- the tracker is greedy for each viewer ----------

  lemma {:induction false} TimesConcat(rs: seq<Request>, qs: seq<Request>, k: Key)
    ensures Times(rs + qs, k) == Times(rs, k) + Times(qs, k)
  {
    if rs == [] {
      assert rs + qs == qs;
    } else {
      assert (rs + qs)[1..] == rs[1..] + qs;
      TimesConcat(rs[1..], qs, k);
    }
  }

  /** From when on the next request with this key is recorded. */
  function Free(expiry: map<Key, int>, k: Key, earliest: int): int {
    if k in expiry then expiry[k] else earliest
  }

  /** Interleaved with everyone else's requests, the recorded times of one key are its greedy choice. */
  lemma {:induction false} TrackerIsGreedy(expiry: map<Key, int>, recorded: seq<Request>, rs: seq<Request>, k: Key, earliest: int)
    requires forall i :: 0 <= i < |rs| ==> earliest <= rs[i].time
    ensures Times(ServedAll(expiry, recorded, rs).1, k) ==
            Times(recorded, k) + Greedy(Times(rs, k), Free(expiry, k, earliest))
    decreases |rs|
  {
    if rs == [] {
    } else {
      var r := rs[0];
      var (e, out) := Served(expiry, recorded, r);
      TrackerIsGreedy(e, out, rs[1..], k, earliest);
      TimesConcat(recorded, [r], k);
      if r.key == k {
        assert Times(rs, k) == [r.time] + Times(rs[1..], k);
        assert Times(rs, k)[1..] == Times(rs[1..], k);
        assert Times([r], k) == [r.time];
      } else {
        assert Times(rs, k) == Times(rs[1..], k);
        assert Times([r], k) == [];
      }
    }
  }

  // ---------- greedy is best ----------

  lemma {:induction false} GreedySeparated(ts: seq<int>, free: int)
    ensures var g := Greedy(ts, free);
            && Separated(g)
            && (g != [] ==> free <= g[0])
            && (forall i :: 0 <= i < |g| ==> g[i] in ts)
    decreases |ts|
  {
    if ts == [] {
    } else {
      GreedySeparated(ts[1..], if ts[0] < free then free else ts[0] + VIEW_TTL);
    }
  }

  /** A choice of times: positions in increasing order. */
  predicate Picks(ps: seq<nat>, ts: seq<int>) {
    && (forall i :: 0 <= i < |ps| ==> ps[i] < |ts|)
    && (forall i :: 0 <= i < |ps| - 1 ==> ps[i] < ps[i + 1])
  }

  function Picked(ps: seq<nat>, ts: seq<int>): seq<int>
    requires Picks(ps, ts)
  {
    seq(|ps|, i requires 0 <= i < |ps| => ts[ps[i]])
  }

  lemma {:induction false} GreedyIsLargest(ts: seq<int>, free: int, ps: seq<nat>)
    requires Ordered(ts) && Picks(ps, ts) && Separated(Picked(ps, ts))
    requires ps != [] ==> free <= ts[ps[0]]
    ensures |ps| <= |Greedy(ts, free)|
    decreases |ts|
  {
    if ps == [] {
    } else {
      var tail := ts[1..];
      PicksIncrease(ps, ts);
      if ts[0] < free {
        var qs := seq(|ps|, i requires 0 <= i < |ps| => ps[i] - 1);
        assert Picked(qs, tail) == Picked(ps, ts);
        GreedyIsLargest(tail, free, qs);
      } else {
        var qs := seq(|ps| - 1, i requires 0 <= i < |ps| - 1 => ps[i + 1] - 1);
        assert forall i :: 0 <= i < |qs| ==> Picked(qs, tail)[i] == Picked(ps, ts)[i + 1];
        if qs != [] {
          assert Picked(ps, ts)[0] + VIEW_TTL <= Picked(ps, ts)[1];
        }
        GreedyIsLargest(tail, ts[0] + VIEW_TTL, qs);
      }
    }
  }

  lemma {:induction false} PicksIncrease(ps: seq<nat>, ts: seq<int>)
    requires Picks(ps, ts)
    ensures forall i :: 0 < i < |ps| ==> ps[0] < ps[i]
    decreases |ps|
  {
    if |ps| > 1 {
      var most := ps[..|ps| - 1];
      PicksIncrease(most, ts);
      assert forall i :: 0 <= i < |most| ==> most[i] == ps[i];
      assert ps[|ps| - 2] < ps[|ps| - 1];
    }
  }

  /** The time falls in the 300 seconds from a recorded one. */
  predicate Covered(g: seq<int>, t: int) {
    exists i :: 0 <= i < |g| && g[i] <= t < g[i] + 300
  }

  lemma {:induction false} GreedyCovers(ts: seq<int>, free: int)
    requires Ordered(ts)
    ensures forall i :: 0 <= i < |ts| && free <= ts[i] ==> Covered(Greedy(ts, free), ts[i])
    decreases |ts|
  {
    if ts == [] {
    } else {
      var g := Greedy(ts, free);
      var next := if ts[0] < free then free else ts[0] + VIEW_TTL;
      var h := Greedy(ts[1..], next);
      GreedyCovers(ts[1..], next);
      forall i | 0 <= i < |ts| && free <= ts[i] ensures Covered(g, ts[i]) {
        if ts[0] < free {
          assert ts[1..][i - 1] == ts[i];
        } else if ts[i] < next {
          assert g[0] <= ts[i] < g[0] + VIEW_TTL;
        } else {
          assert ts[1..][i - 1] == ts[i];
          var k :| 0 <= k < |h| && h[k] <= ts[i] < h[k] + VIEW_TTL;
          assert g[k + 1] == h[k];
        }
      }
    }
  }

  lemma {:induction false} TimesOrdered(rs: seq<Request>, k: Key, earliest: int)
    requires forall i, j :: 0 <= i < j < |rs| ==> rs[i].time <= rs[j].time
    requires forall i :: 0 <= i < |rs| ==> earliest <= rs[i].time
    ensures Ordered(Times(rs, k)) && forall i :: 0 <= i < |Times(rs, k)| ==> earliest <= Times(rs, k)[i]
  {
    if rs == [] {
    } else {
      TimesOrdered(rs[1..], k, rs[0].time);
    }
  }

  /**
   For each board and viewer, in whatever order the requests of all viewers are interleaved: the
   recorded views are 300 seconds apart, every request falls in the 300 seconds from a recorded
   one, and no choice of request times that are 300 seconds apart is larger.
   */
  lemma RecordedViewsAreBest(rs: seq<Request>, k: Key, ps: seq<nat>)
    requires forall i, j :: 0 <= i < j < |rs| ==> rs[i].time <= rs[j].time
    requires Picks(ps, Times(rs, k)) && Separated(Picked(ps, Times(rs, k)))
    ensures var views := Times(ServedAll(map[], [], rs).1, k);
            && Separated(views)
            && (forall i :: 0 <= i < |views| ==> views[i] in Times(rs, k))
            && (forall i :: 0 <= i < |Times(rs, k)| ==> Covered(views, Times(rs, k)[i]))
            && |ps| <= |views|
  {
    var earliest := if rs == [] then 0 else rs[0].time;
    TrackerIsGreedy(map[], [], rs, k, earliest);
    var times := Times(rs, k);
    assert Times(ServedAll(map[], [], rs).1, k) == Greedy(times, earliest);
    TimesOrdered(rs, k, earliest);
    GreedySeparated(times, earliest);
    GreedyCovers(times, earliest);
    assert forall i :: 0 <= i < |times| ==> earliest <= times[i];
    GreedyIsLargest(times, earliest, ps);
  }
}
