/** What each service of app/services/files.py answers and commits. */
module FileServices {
  import opened Tables
  import opened FilesTable
  import opened DatabaseAccess
  import opened BoardsTable

  function InsertFile(s: State, b: nat, size: nat, path: string): State {
    s.(files := s.files[s.nextFile := FileRow(b, size, path, Never, Nobody)], nextFile := s.nextFile + 1)
  }

  /** The guards of an upload, up to the write of the file to disk. */
  function UploadGuard(s: State, caller: nat, b: nat, size: nat, allowedType: bool): Reply {
    if !LoggedIn(s, caller) then Error(401)
    else if !BoardActive(s, b) then Error(404)
    else if s.boards[b].owner != caller then Error(403)
    else if !allowedType then Error(415)
    else if ActiveBytes(s, b) + size > FILE_TOTAL_MAX_SIZE then Error(413)
    else if size > FILE_MAX_SIZE then Error(413)
    else Done
  }

  /** `path` is the name the service makes from a fresh uuid. */
  function Upload(s: State, caller: nat, b: nat, size: nat, allowedType: bool, path: string): Outcome {
    var guard := UploadGuard(s, caller, b, size, allowedType);
    if guard != Done then Outcome(s, guard)
    else Commit(Recount(InsertFile(s.(disk := s.disk + {path}), b, size, path), b))
  }

  function DeleteFile(s: State, caller: nat, passwordOk: bool, i: nat): Outcome {
    if !LoggedIn(s, caller) || !passwordOk then Refuse(s, 401)
    else if i !in s.files || !BoardActive(s, s.files[i].board) then Refuse(s, 404)
    else if s.boards[s.files[i].board].owner != caller then Refuse(s, 403)
    else if s.files[i].deletedAt.At? then Refuse(s, 404)
    else Commit(Recount(s.(files := SoftDeleteOneFile(s.files, ByUser, i, s.now)), s.files[i].board))
  }

  function DeleteAllFiles(s: State, caller: nat, passwordOk: bool, b: nat): Outcome {
    if !LoggedIn(s, caller) || !passwordOk then Refuse(s, 401)
    else if !BoardActive(s, b) then Refuse(s, 404)
    else if s.boards[b].owner != caller then Refuse(s, 403)
    else Commit(s.(files := SoftDeleteAllBoardFiles(s.files, ByUser, b, s.now),
                   boards := UpdateTotalBoardFsize(s.boards, 0, b)))
  }

  function RestoreFile(s: State, caller: nat, passwordOk: bool, i: nat): Outcome {
    if !LoggedIn(s, caller) then Refuse(s, 401)
    else if i !in s.files then Refuse(s, 404)
    else if !passwordOk then Refuse(s, 401)
    else
      var r := s.files[i];
      if !BoardActive(s, r.board) || s.boards[r.board].owner != caller then Refuse(s, 403)
      else if r.deletedAt.Never? then Refuse(s, 404)
      else if r.size + ActiveBytes(s, r.board) > FILE_TOTAL_MAX_SIZE then Refuse(s, 413)
      else if !Within(r.deletedAt, DAYS_7, s.now) then Refuse(s, 403)
      else if !r.deletedBy.ByUser? then Refuse(s, 403)
      else Commit(Recount(s.(files := RestoreOneFile(s.files, i)), r.board))
  }

  /** The check sums 7 days of deletions, the update restores 30 days of them. */
  function RestoreAllFiles(s: State, caller: nat, passwordOk: bool, b: nat): Outcome {
    if !LoggedIn(s, caller) || !passwordOk then Refuse(s, 401)
    else if !BoardActive(s, b) || s.boards[b].owner != caller then Refuse(s, 403)
    else if !HasDeletedFile(s, b) then Refuse(s, 404)
    else
      var restorable := Bytes(s, UserDeletedOn(b, DAYS_7));
      if restorable == 0 then Refuse(s, 404)
      else if ActiveBytes(s, b) + restorable > FILE_TOTAL_MAX_SIZE then Refuse(s, 413)
      else Commit(Recount(s.(files := UserRestoreAllRestorableFiles(s.files, b, s.now)), b))
  }

  predicate HasDeletedFile(s: State, b: nat) {
    exists i :: i in s.files && s.files[i].board == b && s.files[i].deletedAt.At?
  }

  /**
   The disk sweep.  The paths are read and unlinked at `s.now`, the rows are deleted `lag` later;
   an unlink that raises OSError (`stuck`) is logged and skipped.
   */
  function SweepFiles(s: State, stuck: set<string>, lag: nat): Outcome {
    Commit(s.(disk := s.disk - (GetDeleteFilePath(s.files, s.now) - stuck),
              now := s.now + lag,
              files := DeleteFiles(s.files, s.now + lag)))
  }

  // ---------- the services ----------

  method UploadFilesServices(db: Database, caller: nat, b: nat, size: nat, allowedType: bool, path: string) returns (reply: Reply)
    modifies db
    ensures Outcome(db.Snapshot(), reply) == Upload(old(db.Snapshot()), caller, b, size, allowedType, path)
  {
    if !LoggedIn(db.Snapshot(), caller) {
      return Error(401);
    }
    if !BoardActive(db.Snapshot(), b) {
      return Error(404);
    }
    if db.boards[b].owner != caller {
      return Error(403);
    }
    if !allowedType {
      return Error(415);
    }
    var total := ActiveBytes(db.Snapshot(), b);
    if total + size > FILE_TOTAL_MAX_SIZE || size > FILE_MAX_SIZE {
      return Error(413);
    }
    db.disk := db.disk + {path};
    db.files := db.files[db.nextFile := FileRow(b, size, path, Never, Nobody)];
    db.nextFile := db.nextFile + 1;
    db.boards := UpdateTotalBoardFsize(db.boards, ActiveBytes(db.Snapshot(), b), b);
    return Done;
  }

  method DeleteFilesServices(db: Database, caller: nat, passwordOk: bool, i: nat) returns (reply: Reply)
    modifies db
    ensures Outcome(db.Snapshot(), reply) == DeleteFile(old(db.Snapshot()), caller, passwordOk, i)
  {
    if !LoggedIn(db.Snapshot(), caller) || !passwordOk {
      return Error(401);
    }
    if i !in db.files || !BoardActive(db.Snapshot(), db.files[i].board) {
      return Error(404);
    }
    var b := db.files[i].board;
    if db.boards[b].owner != caller {
      return Error(403);
    }
    if db.files[i].deletedAt.At? {
      return Error(404);
    }
    db.files := SoftDeleteOneFile(db.files, ByUser, i, db.now);
    db.boards := UpdateTotalBoardFsize(db.boards, ActiveBytes(db.Snapshot(), b), b);
    return Done;
  }

  method DeleteAllServices(db: Database, caller: nat, passwordOk: bool, b: nat) returns (reply: Reply)
    modifies db
    ensures Outcome(db.Snapshot(), reply) == DeleteAllFiles(old(db.Snapshot()), caller, passwordOk, b)
  {
    if !LoggedIn(db.Snapshot(), caller) || !passwordOk {
      return Error(401);
    }
    if !BoardActive(db.Snapshot(), b) {
      return Error(404);
    }
    if db.boards[b].owner != caller {
      return Error(403);
    }
    db.files := SoftDeleteAllBoardFiles(db.files, ByUser, b, db.now);
    db.boards := UpdateTotalBoardFsize(db.boards, 0, b);
    return Done;
  }

  method RestoreFileServices(db: Database, caller: nat, passwordOk: bool, i: nat) returns (reply: Reply)
    modifies db
    ensures Outcome(db.Snapshot(), reply) == RestoreFile(old(db.Snapshot()), caller, passwordOk, i)
  {
    if !LoggedIn(db.Snapshot(), caller) {
      return Error(401);
    }
    if i !in db.files {
      return Error(404);
    }
    if !passwordOk {
      return Error(401);
    }
    var r := db.files[i];
    if !BoardActive(db.Snapshot(), r.board) || db.boards[r.board].owner != caller {
      return Error(403);
    }
    if r.deletedAt.Never? {
      return Error(404);
    }
    var total := ActiveBytes(db.Snapshot(), r.board);
    if r.size + total > FILE_TOTAL_MAX_SIZE {
      return Error(413);
    }
    if db.now - r.deletedAt.time > DAYS_7 {
      return Error(403);
    }
    if !r.deletedBy.ByUser? {
      return Error(403);
    }
    db.files := RestoreOneFile(db.files, i);
    db.boards := UpdateTotalBoardFsize(db.boards, ActiveBytes(db.Snapshot(), r.board), r.board);
    return Done;
  }

  method RestoreAllFileServices(db: Database, caller: nat, passwordOk: bool, b: nat) returns (reply: Reply)
    modifies db
    ensures Outcome(db.Snapshot(), reply) == RestoreAllFiles(old(db.Snapshot()), caller, passwordOk, b)
  {
    if !LoggedIn(db.Snapshot(), caller) || !passwordOk {
      return Error(401);
    }
    if !BoardActive(db.Snapshot(), b) || db.boards[b].owner != caller {
      return Error(403);
    }
    if !HasDeletedFile(db.Snapshot(), b) {
      return Error(404);
    }
    var total := ActiveBytes(db.Snapshot(), b);
    var restorable := Bytes(db.Snapshot(), UserDeletedOn(b, DAYS_7));
    if restorable == 0 {
      return Error(404);
    }
    if total + restorable > FILE_TOTAL_MAX_SIZE {
      return Error(413);
    }
    db.files := UserRestoreAllRestorableFiles(db.files, b, db.now);
    db.boards := UpdateTotalBoardFsize(db.boards, ActiveBytes(db.Snapshot(), b), b);
    return Done;
  }

  /** The query gives the paths in no particular order; the clock may move while they are unlinked. */
  method DeleteFilesPermanServices(db: Database, stuck: set<string>, lag: nat) returns (reply: Reply)
    modifies db
    ensures Outcome(db.Snapshot(), reply) == SweepFiles(old(db.Snapshot()), stuck, lag)
  {
    var records := GetDeleteFilePath(db.files, db.now);
    var rest := records;
    while rest != {}
      invariant rest <= records
      invariant db.Snapshot() == old(db.Snapshot()).(disk := old(db.disk) - ((records - rest) - stuck))
      decreases |rest|
    {
      var path :| path in rest;
      if path !in stuck {
        db.disk := db.disk - {path};
      }
      rest := rest - {path};
    }
    assert records - rest == records;
    db.now := db.now + lag;
    db.files := DeleteFiles(db.files, db.now);
    return Done;
  }
}
