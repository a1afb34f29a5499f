/**
 Nested deletions undo independently: delete a board, withdraw, come back, restore the board, with
 any scheduled jobs in between, and every file is as it was, unless the jobs took its board.
 */
module Cascades {
  import opened Tables
  import opened FilesTable
  import opened Machine
  import opened Soundness
  import opened Quota
  import opened BoardsTable
  import BoardServices
  import UserServices

  function RunJobs(s: State, jobs: seq<Job>): State
    decreases |jobs|
  {
    if jobs == [] then s else RunJobs(JobStep(s, jobs[0]).state, jobs[1..])
  }

  // ---------- how long jobs take, and which boards they take ----------

  function Took(j: Job): nat {
    match j
    case SweepFiles(_, lag) => lag
    case Tick(seconds) => seconds
    case _ => 0
  }

  function Elapsed(jobs: seq<Job>): nat {
    if jobs == [] then 0 else Elapsed(jobs[..|jobs| - 1]) + Took(jobs[|jobs| - 1])
  }

  /** Some board purge among the jobs, which start at `now`, finds the board row due. */
  predicate BoardTaken(r: BoardRow, now: int, jobs: seq<Job>) {
    exists k :: 0 <= k < |jobs| && TakenBy(r, now, jobs, k)
  }

  predicate TakenBy(r: BoardRow, now: int, jobs: seq<Job>, k: nat)
    requires k < |jobs|
  {
    jobs[k].PurgeBoards? && BoardPurgeDue(r, now + Elapsed(jobs[..k]))
  }

  lemma ElapsedSnoc(jobs: seq<Job>, j: Job)
    ensures Elapsed(jobs + [j]) == Elapsed(jobs) + Took(j)
  {
    assert (jobs + [j])[..|jobs|] == jobs;
  }

  lemma {:induction false} ElapsedConcat(xs: seq<Job>, ys: seq<Job>)
    ensures Elapsed(xs + ys) == Elapsed(xs) + Elapsed(ys)
    decreases |ys|
  {
    if ys == [] {
      assert xs + ys == xs;
    } else {
      var n := |ys| - 1;
      assert (xs + ys)[..|xs| + n] == xs + ys[..n];
      ElapsedConcat(xs, ys[..n]);
    }
  }

  lemma BoardTakenSnoc(r: BoardRow, now: int, jobs: seq<Job>, j: Job)
    ensures BoardTaken(r, now, jobs + [j]) <==>
            BoardTaken(r, now, jobs) || (j.PurgeBoards? && BoardPurgeDue(r, now + Elapsed(jobs)))
  {
    var all := jobs + [j];
    assert all[..|jobs|] == jobs;
    assert TakenBy(r, now, all, |jobs|) <==> j.PurgeBoards? && BoardPurgeDue(r, now + Elapsed(jobs));
    forall k | 0 <= k < |jobs| ensures TakenBy(r, now, all, k) <==> TakenBy(r, now, jobs, k) {
      assert all[..k] == jobs[..k];
    }
  }

  // ---------- the start, seen through the deletions in force ----------

  /** What has become of a row that was active at the start. */
  function Expected(s0: State, r: FileRow, u: nat, b: nat, boardAt: Stamp, userAt: Stamp): FileRow {
    if r.board == b && boardAt.At? then Mark(r, BoardCascade, boardAt.time)
    else if OwnedBy(s0.boards, r.board, u) && userAt.At? then Mark(r, UserCascade, userAt.time)
    else r
  }

  /** Rows that were active are there as long as their board is; the others are as they were, or purged. */
  predicate TrackedFiles(s0: State, s: State, u: nat, b: nat, boardAt: Stamp, userAt: Stamp) {
    && (forall i :: i in s0.files && s0.files[i].deletedAt.Never? ==>
          (i in s.files <==> s0.files[i].board in s.boards) &&
          (i in s.files ==> s.files[i] == Expected(s0, s0.files[i], u, b, boardAt, userAt)))
    && (forall i :: i in s0.files && s0.files[i].deletedAt.At? && i in s.files ==> s.files[i] == s0.files[i])
    && (forall i :: i in s.files ==> i in s0.files)
  }

  /** Boards keep owner and deletion columns, but for b; `past` has taken those whose time was over. */
  predicate TrackedBoards(s0: State, s: State, b: nat, boardAt: Stamp, past: seq<Job>) {
    && (forall c :: c in s0.boards ==> (c in s.boards <==> !BoardTaken(s0.boards[c], s0.now, past)))
    && (forall c :: c in s.boards ==>
          c in s0.boards && s.boards[c].owner == s0.boards[c].owner &&
          if c == b && boardAt.At? then s.boards[c].deletedAt == boardAt && s.boards[c].deletedBy == ByUser
          else s.boards[c].deletedAt == s0.boards[c].deletedAt && s.boards[c].deletedBy == s0.boards[c].deletedBy)
  }

  predicate TrackedUser(s: State, u: nat, userAt: Stamp) {
    u in s.users && s.users[u].deletedAt == userAt && (userAt.At? ==> s.users[u].deletedBy.ByUser?)
  }

  /**
   s is the start s0 with board b deleted at boardAt and account u withdrawn at userAt, after the
   jobs `past`.
   */
  predicate Tracked(s0: State, s: State, u: nat, b: nat, boardAt: Stamp, userAt: Stamp, past: seq<Job>) {
    && s.now == s0.now + Elapsed(past)
    && TrackedUser(s, u, userAt)
    && TrackedBoards(s0, s, b, boardAt, past)
    && TrackedFiles(s0, s, u, b, boardAt, userAt)
  }

  /** The start itself, and what is needed of it. */
  predicate Start(s0: State, u: nat, b: nat) {
    && FilesSound(s0.files, s0.boards, s0.nextFile) && Provenance(s0.files, s0.boards, s0.users)
    && LoggedIn(s0, u) && BoardActive(s0, b) && s0.boards[b].owner == u && s0.boards[b].deletedBy.Nobody?
  }

  lemma DeleteBoardTracks(s0: State, u: nat, b: nat)
    requires Start(s0, u, b)
    ensures var o := BoardServices.DeleteBoard(s0, u, true, b);
            o.reply == Done && Tracked(s0, o.state, u, b, At(s0.now), Never, [])
  {
    assert forall i :: i in s0.files ==> FileSound(s0.files[i], i, s0.boards, s0.nextFile);
  }

  lemma WithdrawTracks(s0: State, s: State, u: nat, b: nat, boardAt: Stamp, past: seq<Job>)
    requires Tracked(s0, s, u, b, boardAt, Never, past)
    ensures var o := UserServices.Withdraw(s, u, true);
            o.reply == Done && Tracked(s0, o.state, u, b, boardAt, At(s.now), past)
  {
  }

  /** Within the window, the restore statement takes back the account's tags and no others. */
  lemma ReturnTracksFiles(s0: State, s: State, u: nat, b: nat, boardAt: Stamp, userAt: Stamp, window: int)
    requires FilesSound(s0.files, s0.boards, s0.nextFile) && Provenance(s0.files, s0.boards, s0.users) && LoggedIn(s0, u)
    requires TrackedFiles(s0, s, u, b, boardAt, userAt) && Within(userAt, window, s.now)
    requires forall c :: c in s.boards ==> c in s0.boards && s.boards[c].owner == s0.boards[c].owner
    ensures TrackedFiles(s0, s.(files := RestoreAllUserFiles(s.files, s.boards, u, window, s.now)), u, b, boardAt, Never)
  {
    forall i | i in s0.files
      ensures FileSound(s0.files[i], i, s0.boards, s0.nextFile) && RowProvenance(s0.files[i], s0.boards, s0.users)
    {
    }
  }

  lemma ReturnServed(s: State, u: nat, userAt: Stamp)
    requires TrackedUser(s, u, userAt) && UniqueIds(s.users) && Within(userAt, DAYS_7, s.now)
    requires !UserServices.Exceeds(s, u)
    ensures UserServices.RestoreAccount(s, u, true) == Commit(UserServices.Reinstate(s, u, DAYS_30))
    ensures TrackedUser(UserServices.Reinstate(s, u, DAYS_30), u, Never)
  {
    RestoreByIdIsByKey(s.users, u);
  }

  lemma RestoreAccountTracks(s0: State, s: State, u: nat, b: nat, boardAt: Stamp, userAt: Stamp, past: seq<Job>)
    requires Start(s0, u, b) && UniqueIds(s.users)
    requires Tracked(s0, s, u, b, boardAt, userAt, past) && Within(userAt, DAYS_7, s.now)
    requires !UserServices.Exceeds(s, u)
    ensures var o := UserServices.RestoreAccount(s, u, true);
            o.reply == Done && Tracked(s0, o.state, u, b, boardAt, Never, past)
  {
    ReturnServed(s, u, userAt);
    ReturnTracksFiles(s0, s, u, b, boardAt, userAt, DAYS_30);
  }

  lemma RestoreBoardTracks(s0: State, s: State, u: nat, b: nat, boardAt: Stamp, past: seq<Job>)
    requires Start(s0, u, b)
    requires Tracked(s0, s, u, b, boardAt, Never, past) && Within(boardAt, DAYS_7, s.now)
    ensures var o := BoardServices.RestoreBoard(s, u, true, b);
            o.reply == Done && Tracked(s0, o.state, u, b, Never, Never, past)
  {
  }

  lemma JobTracksBoards(s0: State, s: State, j: Job, b: nat, boardAt: Stamp, past: seq<Job>)
    requires s.now == s0.now + Elapsed(past)
    requires TrackedBoards(s0, s, b, boardAt, past) && b in s0.boards && s0.boards[b].deletedBy.Nobody?
    ensures TrackedBoards(s0, JobStep(s, j).state, b, boardAt, past + [j])
  {
    forall c: nat | c in s0.boards
      ensures c in JobStep(s, j).state.boards <==> !BoardTaken(s0.boards[c], s0.now, past + [j])
    {
      BoardTakenSnoc(s0.boards[c], s0.now, past, j);
    }
  }

  lemma JobTracksFiles(s0: State, s: State, j: Job, u: nat, b: nat, boardAt: Stamp, userAt: Stamp)
    requires TrackedFiles(s0, s, u, b, boardAt, userAt)
    requires boardAt.At? ==> Within(boardAt, DAYS_7, JobStep(s, j).state.now)
    requires userAt.At? ==> Within(userAt, DAYS_7, JobStep(s, j).state.now)
    ensures TrackedFiles(s0, JobStep(s, j).state, u, b, boardAt, userAt)
  {
  }

  lemma JobTracks(s0: State, s: State, j: Job, u: nat, b: nat, boardAt: Stamp, userAt: Stamp, past: seq<Job>)
    requires b in s0.boards && s0.boards[b].deletedBy.Nobody?
    requires Tracked(s0, s, u, b, boardAt, userAt, past)
    requires boardAt.At? ==> Within(boardAt, DAYS_7, s.now + Took(j))
    requires userAt.At? ==> Within(userAt, DAYS_7, s.now + Took(j))
    ensures Tracked(s0, JobStep(s, j).state, u, b, boardAt, userAt, past + [j])
  {
    ElapsedSnoc(past, j);
    JobTracksBoards(s0, s, j, b, boardAt, past);
    JobTracksFiles(s0, s, j, u, b, boardAt, userAt);
  }

  lemma {:induction false} JobsTrack(s0: State, s: State, jobs: seq<Job>, u: nat, b: nat, boardAt: Stamp, userAt: Stamp,
                                     past: seq<Job>)
    requires b in s0.boards && s0.boards[b].deletedBy.Nobody?
    requires Tracked(s0, s, u, b, boardAt, userAt, past)
    requires boardAt.At? ==> Within(boardAt, DAYS_7, s0.now + Elapsed(past + jobs))
    requires userAt.At? ==> Within(userAt, DAYS_7, s0.now + Elapsed(past + jobs))
    ensures Tracked(s0, RunJobs(s, jobs), u, b, boardAt, userAt, past + jobs)
    decreases |jobs|
  {
    if jobs == [] {
      assert past + jobs == past;
    } else {
      var so := past + [jobs[0]];
      assert so + jobs[1..] == past + jobs;
      ElapsedSnoc(past, jobs[0]);
      ElapsedConcat(so, jobs[1..]);
      JobTracks(s0, s, jobs[0], u, b, boardAt, userAt, past);
      JobsTrack(s0, JobStep(s, jobs[0]).state, jobs[1..], u, b, boardAt, userAt, so);
    }
  }

  lemma {:induction false} JobsKeep(s: State, jobs: seq<Job>)
    requires Sound(s) && QuotaOk(s)
    ensures Sound(RunJobs(s, jobs)) && QuotaOk(RunJobs(s, jobs))
    decreases |jobs|
  {
    if jobs == [] {
    } else {
      StepKeeps(s, OfClock(jobs[0]));
      JobsKeep(JobStep(s, jobs[0]).state, jobs[1..]);
    }
  }

  /** The first two phases: the board is deleted, jobs run, the account is withdrawn, jobs run. */
  function Away(s0: State, u: nat, b: nat, jobs1: seq<Job>, jobs2: seq<Job>): State {
    RunJobs(UserServices.Withdraw(RunJobs(BoardServices.DeleteBoard(s0, u, true, b).state, jobs1), u, true).state, jobs2)
  }

  /**
   Every file that was active at the start is there and active, unless a board purge among the jobs
   took its board; every file that was deleted is still deleted, or purged.  The boards are those
   of the start, but for the ones so taken.
   */
  predicate GivenBack(s0: State, s: State, u: nat, jobs: seq<Job>) {
    && (forall i :: i in s0.files && s0.files[i].deletedAt.Never? && s0.files[i].board in s0.boards ==>
          (i in s.files <==> !BoardTaken(s0.boards[s0.files[i].board], s0.now, jobs)) &&
          (i in s.files ==> s.files[i] == s0.files[i]))
    && (forall i :: i in s0.files && s0.files[i].deletedAt.At? && i in s.files ==> s.files[i] == s0.files[i])
    && (forall i :: i in s.files ==> i in s0.files)
    && (forall c :: c in s0.boards ==> (c in s.boards <==> !BoardTaken(s0.boards[c], s0.now, jobs)))
    && (forall c :: c in s.boards ==> c in s0.boards && s.boards[c] == s0.boards[c].(total := s.boards[c].total))
    && LoggedIn(s, u)
  }

  lemma AwaySound(s0: State, u: nat, b: nat, jobs1: seq<Job>, jobs2: seq<Job>)
    requires Sound(s0) && QuotaOk(s0)
    ensures Sound(Away(s0, u, b, jobs1, jobs2)) && QuotaOk(Away(s0, u, b, jobs1, jobs2))
  {
    var s1 := Step(s0, OfBoard(DeleteBoard(u, true, b))).state;
    var s2 := RunJobs(s1, jobs1);
    var s3 := Step(s2, OfUser(Withdraw(u, true))).state;
    StepKeeps(s0, OfBoard(DeleteBoard(u, true, b)));
    JobsKeep(s1, jobs1);
    StepKeeps(s2, OfUser(Withdraw(u, true)));
    JobsKeep(s3, jobs2);
  }

  lemma DeletedTracked(s0: State, u: nat, b: nat, jobs: seq<Job>)
    requires Start(s0, u, b)
    requires Elapsed(jobs) <= DAYS_7
    ensures Tracked(s0, RunJobs(BoardServices.DeleteBoard(s0, u, true, b).state, jobs), u, b, At(s0.now), Never, jobs)
  {
    DeleteBoardTracks(s0, u, b);
    assert [] + jobs == jobs;
    JobsTrack(s0, BoardServices.DeleteBoard(s0, u, true, b).state, jobs, u, b, At(s0.now), Never, []);
  }

  lemma WithdrawnTracked(s0: State, s: State, u: nat, b: nat, past: seq<Job>, jobs: seq<Job>)
    requires Start(s0, u, b)
    requires Tracked(s0, s, u, b, At(s0.now), Never, past) && Elapsed(past + jobs) <= DAYS_7
    ensures Tracked(s0, RunJobs(UserServices.Withdraw(s, u, true).state, jobs), u, b, At(s0.now), At(s.now), past + jobs)
  {
    ElapsedConcat(past, jobs);
    WithdrawTracks(s0, s, u, b, At(s0.now), past);
    JobsTrack(s0, UserServices.Withdraw(s, u, true).state, jobs, u, b, At(s0.now), At(s.now), past);
  }

  lemma AwayTracked(s0: State, u: nat, b: nat, jobs1: seq<Job>, jobs2: seq<Job>)
    requires Start(s0, u, b)
    requires Elapsed(jobs1 + jobs2) <= DAYS_7
    ensures Tracked(s0, Away(s0, u, b, jobs1, jobs2), u, b, At(s0.now), At(s0.now + Elapsed(jobs1)), jobs1 + jobs2)
  {
    ElapsedConcat(jobs1, jobs2);
    DeletedTracked(s0, u, b, jobs1);
    WithdrawnTracked(s0, RunJobs(BoardServices.DeleteBoard(s0, u, true, b).state, jobs1), u, b, jobs1, jobs2);
  }

  /**
   Delete board b, withdraw, come back, restore b, all within 7 days and with any jobs in between:
   every request is served, and every file is as it was at the start, on whatever board: an active
   one is there exactly unless a board purge among the jobs took its board (which an administrator
   scheduled for deletion 100 days before), and a deleted one is never active.
   */
  lemma NestedCascadesUndo(s0: State, u: nat, b: nat, jobs1: seq<Job>, jobs2: seq<Job>, jobs3: seq<Job>)
    requires Sound(s0) && QuotaOk(s0)
    requires LoggedIn(s0, u) && BoardActive(s0, b) && s0.boards[b].owner == u
    requires Elapsed(jobs1 + jobs2 + jobs3) <= DAYS_7
    ensures var back := UserServices.RestoreAccount(Away(s0, u, b, jobs1, jobs2), u, true);
            var o := BoardServices.RestoreBoard(RunJobs(back.state, jobs3), u, true, b);
            && back.reply == Done && o.reply == Done
            && GivenBack(s0, o.state, u, jobs1 + jobs2 + jobs3)
  {
    assert BoardSound(s0.boards[b], b, s0.users, s0.nextBoard);
    var s4 := Away(s0, u, b, jobs1, jobs2);
    ElapsedConcat(jobs1, jobs2);
    ElapsedConcat(jobs1 + jobs2, jobs3);
    AwaySound(s0, u, b, jobs1, jobs2);
    AwayTracked(s0, u, b, jobs1, jobs2);
    ExceedsNeverFires(s4, u);
    BackTracked(s0, s4, u, b, At(s0.now + Elapsed(jobs1)), jobs1 + jobs2, jobs3);
  }

  /** The last two phases: the account comes back, jobs run, the board comes back. */
  lemma BackTracked(s0: State, s: State, u: nat, b: nat, userAt: Stamp, past: seq<Job>, jobs: seq<Job>)
    requires Start(s0, u, b) && UniqueIds(s.users)
    requires Tracked(s0, s, u, b, At(s0.now), userAt, past) && Within(userAt, DAYS_7, s.now)
    requires !UserServices.Exceeds(s, u)
    requires Elapsed(past + jobs) <= DAYS_7
    ensures var back := UserServices.RestoreAccount(s, u, true);
            var o := BoardServices.RestoreBoard(RunJobs(back.state, jobs), u, true, b);
            && back.reply == Done && o.reply == Done
            && GivenBack(s0, o.state, u, past + jobs)
  {
    var back := UserServices.RestoreAccount(s, u, true);
    var t := RunJobs(back.state, jobs);
    RestoreAccountTracks(s0, s, u, b, At(s0.now), userAt, past);
    JobsTrack(s0, back.state, jobs, u, b, At(s0.now), Never, past);
    RestoreBoardTracks(s0, t, u, b, At(s0.now), past + jobs);
    TrackedIsGivenBack(s0, BoardServices.RestoreBoard(t, u, true, b).state, u, b, past + jobs);
  }

  lemma TrackedIsGivenBack(s0: State, s: State, u: nat, b: nat, past: seq<Job>)
    requires Tracked(s0, s, u, b, Never, Never, past)
    ensures GivenBack(s0, s, u, past)
  {
  }
}
