/** What holds in every state that the service can reach from an empty database. */
module Reachable {
  import opened Tables
  import opened FilesTable
  import opened Machine
  import opened Soundness
  import opened Quota
  import opened Totals
  import opened Disk

  lemma InitSound(now: int)
    ensures var s := Init(now); Sound(s) && QuotaOk(s) && TotalsExact(s) && TotalsOk(s) && DiskOk(s)
  {
    var s := Init(now);
    forall b: nat ensures Reserved(s, b) == 0 {
      SumZero(Query(s.files, ReservedOn(b), s.now), s.nextFile);
    }
  }

  /** A board in use shows no board cascade, and no account cascade while its owner is there. */
  predicate NoStaleCascade(s: State) {
    forall i :: i in s.files ==>
      && (BoardActive(s, s.files[i].board) ==> !s.files[i].deletedBy.BoardCascade?)
      && (BoardActive(s, s.files[i].board) && LoggedIn(s, s.boards[s.files[i].board].owner) ==> !IsCascade(s.files[i]))
  }

  lemma ProvenanceLeavesNoStaleCascade(s: State)
    requires Provenance(s.files, s.boards, s.users)
    ensures NoStaleCascade(s)
  {
    forall i | i in s.files
      ensures BoardActive(s, s.files[i].board) ==> !s.files[i].deletedBy.BoardCascade?
      ensures BoardActive(s, s.files[i].board) && LoggedIn(s, s.boards[s.files[i].board].owner) ==> !IsCascade(s.files[i])
    {
      assert RowProvenance(s.files[i], s.boards, s.users);
    }
  }

  /**
   After any run from the empty database: the rows are sound, every total on show is right or
   stands over no active file, and no cascade tag outlives its deletion.  If every bulk and single
   restore on the way fitted, no board is over the quota; if every upload drew a fresh path, no row
   is without its file.
   */
  lemma EveryReachableState(now: int, ops: seq<Op>)
    ensures var s := Run(Init(now), ops);
            && Sound(s) && TotalsOk(s) && NoStaleCascade(s)
            && (RunFits(Init(now), ops) ==> QuotaOk(s) && forall b: nat :: ActiveBytes(s, b) <= FILE_TOTAL_MAX_SIZE)
            && (RunFresh(Init(now), ops) ==> DiskOk(s))
  {
    var s := Run(Init(now), ops);
    InitSound(now);
    RunKeepsTotals(Init(now), ops);
    ProvenanceLeavesNoStaleCascade(s);
    if RunFits(Init(now), ops) {
      RunKeepsQuota(Init(now), ops);
      forall b: nat ensures ActiveBytes(s, b) <= FILE_TOTAL_MAX_SIZE {
        ActiveWithinReserved(s, b);
        assert Reserved(s, b) <= FILE_TOTAL_MAX_SIZE;
      }
    }
    if RunFresh(Init(now), ops) {
      RunKeepsDisk(Init(now), ops);
    }
  }

  /**
   The service can be in state s: after a run from the empty database in which every upload drew a
   fresh path and no served request passed the quota.
   */
  ghost predicate Reached(s: State) {
    exists now: int, ops: seq<Op> :: ReachedBy(s, now, ops)
  }

  ghost predicate ReachedBy(s: State, now: int, ops: seq<Op>) {
    s == Run(Init(now), ops) && RunFits(Init(now), ops) && RunFresh(Init(now), ops)
  }

  lemma ReachedStart(now: int)
    ensures Reached(Init(now))
  {
    assert ReachedBy(Init(now), now, []);
  }

  lemma {:induction false} RunSnoc(s: State, ops: seq<Op>, op: Op)
    ensures Run(s, ops + [op]) == Step(Run(s, ops), op).state
    ensures RunFits(s, ops + [op]) <==>
            RunFits(s, ops) && (Step(Run(s, ops), op).reply == Done ==> Fits(Run(s, ops), op))
    ensures RunFresh(s, ops + [op]) <==> RunFresh(s, ops) && FreshPath(Run(s, ops), op)
    decreases |ops|
  {
    var all := ops + [op];
    if ops == [] {
      assert all[1..] == [];
      assert Run(Step(s, op).state, all[1..]) == Step(s, op).state;
    } else {
      assert all[0] == ops[0] && all[1..] == ops[1..] + [op];
      RunSnoc(Step(s, ops[0]).state, ops[1..], op);
    }
  }

  lemma ReachedNext(s: State, op: Op)
    requires Reached(s) && FreshPath(s, op) && (Step(s, op).reply == Done ==> Fits(s, op))
    ensures Reached(Step(s, op).state)
  {
    var now: int, ops: seq<Op> :| ReachedBy(s, now, ops);
    RunSnoc(Init(now), ops, op);
    assert ReachedBy(Step(s, op).state, now, ops + [op]);
  }

  lemma ReachedIsSound(s: State)
    requires Reached(s)
    ensures Sound(s) && TotalsOk(s) && QuotaOk(s) && DiskOk(s)
  {
    var now: int, ops: seq<Op> :| ReachedBy(s, now, ops);
    EveryReachableState(now, ops);
  }
}
