/** File rows against the upload directory. */
module Disk {
  import opened Tables
  import opened FilesTable
  import opened Machine
  import opened Soundness
  import FileServices
  import AdminServices

  predicate UniquePaths(files: Files) {
    forall i, k :: i in files && k in files && files[i].path == files[k].path ==> i == k
  }

  /** Every row has its file. */
  predicate NoDangling(s: State) {
    forall i :: i in s.files ==> s.files[i].path in s.disk
  }

  predicate DiskOk(s: State) {
    UniquePaths(s.files) && NoDangling(s)
  }

  /** An upload writes to a path that no row and no file has: the service draws it from uuid4. */
  predicate FreshPath(s: State, op: Op) {
    op.OfFile? && op.file.Upload? ==>
      op.file.path !in s.disk && forall i :: i in s.files ==> s.files[i].path != op.file.path
  }

  /** Rows only go, keep their path, and the disk is as it was. */
  predicate RowsOnlyGo(s: State, t: State) {
    && t.disk == s.disk
    && forall i :: i in t.files ==> i in s.files && t.files[i].path == s.files[i].path
  }

  lemma UserStepRowsOnlyGo(s: State, r: UserRequest)
    ensures RowsOnlyGo(s, UserStep(s, r).state)
  {
  }

  lemma BoardStepRowsOnlyGo(s: State, r: BoardRequest)
    ensures RowsOnlyGo(s, BoardStep(s, r).state)
  {
  }

  lemma FileStepRowsOnlyGo(s: State, r: FileRequest)
    requires !r.Upload?
    ensures RowsOnlyGo(s, FileStep(s, r).state)
  {
  }

  lemma SanctionStepRowsOnlyGo(s: State, r: SanctionRequest)
    ensures RowsOnlyGo(s, SanctionStep(s, r).state)
  {
  }

  lemma RecoveryStepRowsOnlyGo(s: State, r: RecoveryRequest)
    ensures RowsOnlyGo(s, RecoveryStep(s, r).state)
  {
  }

  lemma JobStepRowsOnlyGo(s: State, j: Job)
    requires !j.SweepFiles?
    ensures RowsOnlyGo(s, JobStep(s, j).state)
  {
  }

  lemma StepRowsOnlyGo(s: State, op: Op)
    requires !(op.OfFile? && op.file.Upload?) && !(op.OfClock? && op.job.SweepFiles?)
    ensures RowsOnlyGo(s, Step(s, op).state)
  {
    match op
    case OfUser(r) => UserStepRowsOnlyGo(s, r);
    case OfBoard(r) => BoardStepRowsOnlyGo(s, r);
    case OfFile(r) => FileStepRowsOnlyGo(s, r);
    case OfSanction(r) => SanctionStepRowsOnlyGo(s, r);
    case OfRecovery(r) => RecoveryStepRowsOnlyGo(s, r);
    case OfClock(j) => JobStepRowsOnlyGo(s, j);
  }

  lemma UploadKeepsDisk(s: State, r: FileRequest)
    requires DiskOk(s) && r.Upload? && FreshPath(s, OfFile(r))
    ensures DiskOk(FileStep(s, r).state)
  {
  }

  /** What was due when the paths were read is still due when the rows are deleted. */
  lemma PurgeDueMonotone(r: FileRow, now: int, later: int)
    requires now <= later && PurgeDue(r, now)
    ensures PurgeDue(r, later)
  {
  }

  /** The sweep unlinks no file of a row that it keeps, however long it takes over the unlinking. */
  lemma SweepKeepsDisk(s: State, stuck: set<string>, lag: nat)
    requires DiskOk(s)
    ensures DiskOk(FileServices.SweepFiles(s, stuck, lag).state)
  {
    var t := FileServices.SweepFiles(s, stuck, lag).state;
    forall i | i in t.files ensures t.files[i].path in t.disk {
      if t.files[i].path in GetDeleteFilePath(s.files, s.now) {
        var k :| k in s.files && PurgeDue(s.files[k], s.now) && s.files[k].path == s.files[i].path;
        PurgeDueMonotone(s.files[k], s.now, t.now);
      }
    }
  }

  lemma StepKeepsDisk(s: State, op: Op)
    requires DiskOk(s) && FreshPath(s, op)
    ensures DiskOk(Step(s, op).state)
  {
    if op.OfFile? && op.file.Upload? {
      UploadKeepsDisk(s, op.file);
    } else if op.OfClock? && op.job.SweepFiles? {
      SweepKeepsDisk(s, op.job.stuck, op.job.lag);
    } else {
      StepRowsOnlyGo(s, op);
    }
  }

  predicate RunFresh(s: State, ops: seq<Op>)
    decreases |ops|
  {
    ops == [] || (FreshPath(s, ops[0]) && RunFresh(Step(s, ops[0]).state, ops[1..]))
  }

  lemma {:induction false} RunKeepsDisk(s: State, ops: seq<Op>)
    requires DiskOk(s) && RunFresh(s, ops)
    ensures DiskOk(Run(s, ops))
    decreases |ops|
  {
    if ops == [] {
    } else {
      StepKeepsDisk(s, ops[0]);
      RunKeepsDisk(Step(s, ops[0]).state, ops[1..]);
    }
  }
}
