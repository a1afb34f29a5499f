/** What each service of app/services/boards.py that changes the tables answers and commits. */
module BoardServices {
  import opened Tables
  import opened FilesTable
  import opened DatabaseAccess
  import B = BoardsTable

  /** Also the notice of an administrator: the category of a board decides nothing here. */
  function CreateBoard(s: State, caller: nat): Outcome {
    if !LoggedIn(s, caller) then Refuse(s, 401)
    else Commit(s.(boards := s.boards[s.nextBoard := BoardRow(caller, 0, Never, Nobody)],
                   nextBoard := s.nextBoard + 1))
  }

  function DeleteBoard(s: State, caller: nat, passwordOk: bool, b: nat): Outcome {
    if !LoggedIn(s, caller) || !passwordOk then Refuse(s, 401)
    else if !BoardActive(s, b) then Refuse(s, 404)
    else if s.boards[b].owner != caller then Refuse(s, 403)
    else Commit(s.(boards := B.SoftDeleteBoard(s.boards, ByUser, b, s.now),
                   files := SoftDeleteAllBoardFiles(s.files, BoardCascade, b, s.now)))
  }

  function RestoreBoard(s: State, caller: nat, passwordOk: bool, b: nat): Outcome {
    if !LoggedIn(s, caller) || !passwordOk then Refuse(s, 401)
    else if b !in s.boards || s.boards[b].deletedAt.Never? then Refuse(s, 404)
    else if s.boards[b].owner != caller then Refuse(s, 403)
    else if !Within(s.boards[b].deletedAt, DAYS_7, s.now) then Refuse(s, 403)
    else if !s.boards[b].deletedBy.ByUser? then Refuse(s, 403)
    else Commit(Reinstate(s, b, DAYS_30))
  }

  /** The transaction shared with the administrator's board restore. */
  function Reinstate(s: State, b: nat, window: int): State {
    B.Recount(s.(boards := B.RestoreBoard(s.boards, b),
                 files := RestoreCascadeBoardFiles(s.files, b, window, s.now)), b)
  }

  /** Rows only: nothing is unlinked from the disk. */
  function PurgeBoards(s: State): Outcome {
    var boards := B.DeleteBoards(s.boards, s.now);
    Commit(s.(boards := boards, files := DeleteFiles(B.CascadeToFiles(s.files, boards), s.now)))
  }

  // ---------- the services ----------

  method CreateBoardsServices(db: Database, caller: nat) returns (reply: Reply)
    modifies db
    ensures Outcome(db.Snapshot(), reply) == CreateBoard(old(db.Snapshot()), caller)
  {
    if !LoggedIn(db.Snapshot(), caller) {
      return Error(401);
    }
    db.boards := db.boards[db.nextBoard := BoardRow(caller, 0, Never, Nobody)];
    db.nextBoard := db.nextBoard + 1;
    return Done;
  }

  method BoardsDeleteServices(db: Database, caller: nat, passwordOk: bool, b: nat) returns (reply: Reply)
    modifies db
    ensures Outcome(db.Snapshot(), reply) == DeleteBoard(old(db.Snapshot()), caller, passwordOk, b)
  {
    if !LoggedIn(db.Snapshot(), caller) || !passwordOk {
      return Error(401);
    }
    if !BoardActive(db.Snapshot(), b) {
      return Error(404);
    }
    if db.boards[b].owner != caller {
      return Error(403);
    }
    db.boards := B.SoftDeleteBoard(db.boards, ByUser, b, db.now);
    db.files := SoftDeleteAllBoardFiles(db.files, BoardCascade, b, db.now);
    return Done;
  }

  method RestoreBoardServices(db: Database, caller: nat, passwordOk: bool, b: nat) returns (reply: Reply)
    modifies db
    ensures Outcome(db.Snapshot(), reply) == RestoreBoard(old(db.Snapshot()), caller, passwordOk, b)
  {
    if !LoggedIn(db.Snapshot(), caller) || !passwordOk {
      return Error(401);
    }
    if b !in db.boards || db.boards[b].deletedAt.Never? {
      return Error(404);
    }
    if db.boards[b].owner != caller {
      return Error(403);
    }
    if db.now - db.boards[b].deletedAt.time > DAYS_7 {
      return Error(403);
    }
    if !db.boards[b].deletedBy.ByUser? {
      return Error(403);
    }
    db.boards := B.RestoreBoard(db.boards, b);
    db.files := RestoreCascadeBoardFiles(db.files, b, DAYS_30, db.now);
    db.boards := B.UpdateTotalBoardFsize(db.boards, ActiveBytes(db.Snapshot(), b), b);
    return Done;
  }

  method DeleteBoardsPerman(db: Database) returns (reply: Reply)
    modifies db
    ensures Outcome(db.Snapshot(), reply) == PurgeBoards(old(db.Snapshot()))
  {
    db.boards := B.DeleteBoards(db.boards, db.now);
    db.files := B.CascadeToFiles(db.files, db.boards);
    db.files := DeleteFiles(db.files, db.now);
    return Done;
  }
}
