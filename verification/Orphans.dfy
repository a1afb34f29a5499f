/** Files in the upload directory that no row names. */
module Orphans {
  import opened Tables
  import opened FilesTable
  import opened Machine
  import opened Soundness
  import opened Disk
  import B = BoardsTable
  import Uploads

  predicate Orphan(s: State, path: string) {
    path in s.disk && forall i :: i in s.files ==> s.files[i].path != path
  }

  /**
   The request or job removes row i and leaves its file: every purge and delete of rows but the sweep,
   and the sweep where the unlink failed or the row came due only after the paths were read.
   */
  predicate LeavesFile(s: State, op: Op, i: nat)
    requires i in s.files
  {
    var r := s.files[i];
    match op
    case OfClock(PurgeUsers) => PurgeDue(r, s.now)
    case OfClock(PurgeBoards) => PurgeDue(r, s.now) || (r.board in s.boards && B.BoardPurgeDue(s.boards[r.board], s.now))
    case OfClock(SweepFiles(stuck, lag)) => PurgeDue(r, s.now + lag) && (r.path in stuck || !PurgeDue(r, s.now))
    case OfSanction(AdminDeleteUser(u, Immediate)) => OwnedBy(s.boards, r.board, u)
    case OfSanction(AdminDeleteBoard(b, Immediate)) => r.board == b
    case OfSanction(AdminDeleteFile(k, FileImmediate)) => i == k
    case OfSanction(AdminDeleteAllFiles(b, FileImmediate)) => r.board == b
    case _ => false
  }

  predicate LeftBehind(s: State, op: Op, path: string) {
    exists i :: i in s.files && s.files[i].path == path && LeavesFile(s, op, i)
  }

  /** The rows that go are those the predicate names; the others keep their path. */
  predicate RowsGoAsSaid(s: State, t: State, op: Op) {
    && (forall i :: i in s.files ==> (i in t.files <==> !LeavesFile(s, op, i)))
    && (forall i :: i in t.files ==> i in s.files && t.files[i].path == s.files[i].path)
    && t.disk == s.disk
  }

  lemma UserStepKeepsRows(s: State, r: UserRequest)
    ensures RowsGoAsSaid(s, UserStep(s, r).state, OfUser(r))
  {
  }

  lemma BoardStepKeepsRows(s: State, r: BoardRequest)
    ensures RowsGoAsSaid(s, BoardStep(s, r).state, OfBoard(r))
  {
  }

  lemma FileStepKeepsRows(s: State, r: FileRequest)
    requires !r.Upload?
    ensures RowsGoAsSaid(s, FileStep(s, r).state, OfFile(r))
  {
  }

  lemma SanctionStepRows(s: State, r: SanctionRequest)
    requires FilesSound(s.files, s.boards, s.nextFile) && BoardsSound(s.boards, s.users, s.nextBoard)
    ensures RowsGoAsSaid(s, SanctionStep(s, r).state, OfSanction(r))
  {
    match r
    case AdminDeleteUser(_, _) => AdminDeleteUserRows(s, r);
    case AdminDeleteBoard(_, _) => AdminDeleteBoardRows(s, r);
    case _ => OtherSanctionRows(s, r);
  }

  lemma AdminDeleteUserRows(s: State, r: SanctionRequest)
    requires r.AdminDeleteUser? && BoardsSound(s.boards, s.users, s.nextBoard)
    ensures RowsGoAsSaid(s, SanctionStep(s, r).state, OfSanction(r))
  {
  }

  lemma AdminDeleteBoardRows(s: State, r: SanctionRequest)
    requires r.AdminDeleteBoard? && FilesSound(s.files, s.boards, s.nextFile)
    ensures RowsGoAsSaid(s, SanctionStep(s, r).state, OfSanction(r))
  {
  }

  lemma OtherSanctionRows(s: State, r: SanctionRequest)
    requires !r.AdminDeleteUser? && !r.AdminDeleteBoard? && FilesSound(s.files, s.boards, s.nextFile)
    ensures RowsGoAsSaid(s, SanctionStep(s, r).state, OfSanction(r))
  {
  }

  lemma RecoveryStepKeepsRows(s: State, r: RecoveryRequest)
    ensures RowsGoAsSaid(s, RecoveryStep(s, r).state, OfRecovery(r))
  {
  }

  lemma JobStepRows(s: State, j: Job)
    requires FilesSound(s.files, s.boards, s.nextFile)
    requires !j.SweepFiles?
    ensures RowsGoAsSaid(s, JobStep(s, j).state, OfClock(j))
  {
    forall i | i in s.files ensures FileSound(s.files[i], i, s.boards, s.nextFile) {
    }
  }

  lemma RowsGoOrphans(s: State, t: State, op: Op, path: string)
    requires UniquePaths(s.files) && NoDangling(s)
    requires RowsGoAsSaid(s, t, op)
    ensures Orphan(t, path) <==> Orphan(s, path) || LeftBehind(s, op, path)
  {
    if LeftBehind(s, op, path) {
      var i :| i in s.files && s.files[i].path == path && LeavesFile(s, op, i);
      assert path in s.disk;
    }
  }

  lemma UploadOrphans(s: State, r: FileRequest, path: string)
    requires r.Upload? && FreshPath(s, OfFile(r))
    requires forall i :: i in s.files ==> i < s.nextFile
    ensures Orphan(FileStep(s, r).state, path) <==> Orphan(s, path)
  {
    var t := FileStep(s, r).state;
    if FileStep(s, r).reply == Done {
      assert t.files[s.nextFile].path == r.path;
      assert forall i :: i in s.files ==> t.files[i] == s.files[i];
    }
  }

  lemma SweepOrphans(s: State, stuck: set<string>, lag: nat, path: string)
    requires DiskOk(s)
    ensures var op := OfClock(SweepFiles(stuck, lag));
            Orphan(Step(s, op).state, path) <==> Orphan(s, path) || LeftBehind(s, op, path)
  {
    var op := OfClock(SweepFiles(stuck, lag));
    var t := Step(s, op).state;
    if i :| i in s.files && s.files[i].path == path {
      PurgeDueLater(s.files[i], s.now, lag);
      assert path in GetDeleteFilePath(s.files, s.now) <==> PurgeDue(s.files[i], s.now);
      assert LeftBehind(s, op, path) <==> LeavesFile(s, op, i);
      assert Orphan(t, path) <==> path in t.disk && i !in t.files;
    } else {
      assert path !in GetDeleteFilePath(s.files, s.now);
    }
  }

  lemma PurgeDueLater(r: FileRow, now: int, lag: nat)
    ensures PurgeDue(r, now) ==> PurgeDue(r, now + lag)
  {
  }

  /**
   After any request or job, a file has no row exactly if it had none before, or its row was removed
   by one of those ways; nothing ever takes such a file away.
   */
  lemma StepOrphansIff(s: State, op: Op, path: string)
    requires Sound(s) && DiskOk(s) && FreshPath(s, op)
    ensures Orphan(Step(s, op).state, path) <==> Orphan(s, path) || LeftBehind(s, op, path)
  {
    if op.OfFile? && op.file.Upload? {
      assert forall i :: i in s.files ==> FileSound(s.files[i], i, s.boards, s.nextFile);
      UploadOrphans(s, op.file, path);
    } else if op.OfClock? && op.job.SweepFiles? {
      SweepOrphans(s, op.job.stuck, op.job.lag, path);
    } else {
      StepRowsGoAsSaid(s, op);
      RowsGoOrphans(s, Step(s, op).state, op, path);
    }
  }

  lemma StepRowsGoAsSaid(s: State, op: Op)
    requires FilesSound(s.files, s.boards, s.nextFile) && BoardsSound(s.boards, s.users, s.nextBoard)
    requires !(op.OfFile? && op.file.Upload?) && !(op.OfClock? && op.job.SweepFiles?)
    ensures RowsGoAsSaid(s, Step(s, op).state, op)
  {
    match op
    case OfUser(r) => UserStepKeepsRows(s, r);
    case OfBoard(r) => BoardStepKeepsRows(s, r);
    case OfFile(r) => FileStepKeepsRows(s, r);
    case OfSanction(r) => SanctionStepRows(s, r);
    case OfRecovery(r) => RecoveryStepKeepsRows(s, r);
    case OfClock(j) => JobStepRows(s, j);
  }

  /** Beside those, a late insert leaves its file behind exactly if the board is gone by then. */
  lemma LateInsertOrphansIff(s: State, f: Uploads.Flight)
    requires FilesSound(s.files, s.boards, s.nextFile) && f.path in s.disk
    requires forall i :: i in s.files ==> s.files[i].path != f.path
    ensures Orphan(Uploads.Land(s, f), f.path) <==> f.board !in s.boards
  {
    var t := Uploads.Land(s, f);
    if f.board in s.boards {
      assert t.files[s.nextFile].path == f.path;
    }
  }
}
