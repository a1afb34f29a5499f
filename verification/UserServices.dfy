/** What each service of app/services/user.py that changes the tables answers and commits. */
module UserServices {
  import opened Tables
  import opened FilesTable
  import opened DatabaseAccess
  import B = BoardsTable
  import U = UsersTable

  /** `verified`, `emailTaken`: the e-mail address was verified; another account has it. */
  function Register(s: State, verified: bool, emailTaken: bool, name: string): Outcome {
    if !verified then Refuse(s, 403)
    else if U.IdTaken(s.users, Chosen(name)) then Refuse(s, 409)
    else if emailTaken then Refuse(s, 409)
    else Commit(U.InsertUserBasicInfo(s, name))
  }

  function Rename(s: State, caller: nat, passwordOk: bool, name: string): Outcome {
    if !LoggedIn(s, caller) || !passwordOk then Refuse(s, 401)
    else if U.IdTaken(s.users, Chosen(name)) then Refuse(s, 409)
    else Commit(s.(users := U.UserIdModify(s.users, Chosen(name), caller)))
  }

  function Withdraw(s: State, caller: nat, passwordOk: bool): Outcome {
    if !LoggedIn(s, caller) || !passwordOk then Refuse(s, 401)
    else Commit(Suspend(s, ByUser, caller))
  }

  /** The transaction shared with the administrator's scheduled and retained deletes. */
  function Suspend(s: State, tag: Tag, u: nat): State {
    s.(users := U.SoftDeleteUser(s.users, tag, u, s.now),
       files := SoftDeleteAllUserFiles(s.files, s.boards, UserCascade, u, s.now),
       boards := B.UpdateAllUserBoardsTotalFsize(s.boards, 0, u))
  }

  /** A board of u whose active and USER_CASCADE files, of any age, are over the quota. */
  predicate Exceeds(s: State, u: nat) {
    exists b :: b in s.boards && s.boards[b].owner == u &&
                Bytes(s, ActiveOrUserCascadeOn(b)) > FILE_TOTAL_MAX_SIZE
  }

  /** u is the deleted account that the login id of the request names. */
  function RestoreAccount(s: State, u: nat, passwordOk: bool): Outcome {
    if u !in s.users || s.users[u].deletedAt.Never? || !passwordOk then Refuse(s, 401)
    else if !Within(s.users[u].deletedAt, DAYS_7, s.now) then Refuse(s, 403)
    else if !s.users[u].deletedBy.ByUser? then Refuse(s, 403)
    else if Exceeds(s, u) then Refuse(s, 400)
    else Commit(Reinstate(s, u, DAYS_30))
  }

  /** The transaction shared with the administrator's account restore. */
  function Reinstate(s: State, u: nat, window: int): State
    requires u in s.users
  {
    var t := s.(users := U.RestoreUserData(s.users, s.users[u].id),
                files := RestoreAllUserFiles(s.files, s.boards, u, window, s.now));
    t.(boards := B.RecalculateAllUserBoardsTotalFsize(t, u))
  }

  function Anonymise(s: State): Outcome {
    Commit(s.(users := U.DeleteSoftDeletedUser(s.users, s.now)))
  }

  /** Rows only: nothing is unlinked from the disk. */
  function PurgeUsers(s: State): Outcome {
    Commit(s.(users := U.DeleteSoftDeletedUser(s.users, s.now), files := DeleteFiles(s.files, s.now)))
  }

  // ---------- the services ----------

  method RegisterUserServices(db: Database, verified: bool, emailTaken: bool, name: string) returns (reply: Reply)
    modifies db
    ensures Outcome(db.Snapshot(), reply) == Register(old(db.Snapshot()), verified, emailTaken, name)
  {
    if !verified {
      return Error(403);
    }
    if U.IdTaken(db.users, Chosen(name)) {
      return Error(409);
    }
    if emailTaken {
      return Error(409);
    }
    db.users := db.users[db.nextUser := UserRow(Chosen(name), Active, 0, Never, Never, Nobody)];
    db.nextUser := db.nextUser + 1;
    return Done;
  }

  method UserIdModifyServices(db: Database, caller: nat, passwordOk: bool, name: string) returns (reply: Reply)
    modifies db
    ensures Outcome(db.Snapshot(), reply) == Rename(old(db.Snapshot()), caller, passwordOk, name)
  {
    if !LoggedIn(db.Snapshot(), caller) || !passwordOk {
      return Error(401);
    }
    if U.IdTaken(db.users, Chosen(name)) {
      return Error(409);
    }
    db.users := U.UserIdModify(db.users, Chosen(name), caller);
    return Done;
  }

  method UserWithdrawServices(db: Database, caller: nat, passwordOk: bool) returns (reply: Reply)
    modifies db
    ensures Outcome(db.Snapshot(), reply) == Withdraw(old(db.Snapshot()), caller, passwordOk)
  {
    if !LoggedIn(db.Snapshot(), caller) || !passwordOk {
      return Error(401);
    }
    db.users := U.SoftDeleteUser(db.users, ByUser, caller, db.now);
    db.files := SoftDeleteAllUserFiles(db.files, db.boards, UserCascade, caller, db.now);
    db.boards := B.UpdateAllUserBoardsTotalFsize(db.boards, 0, caller);
    return Done;
  }

  method RestoreUserServices(db: Database, u: nat, passwordOk: bool) returns (reply: Reply)
    modifies db
    ensures Outcome(db.Snapshot(), reply) == RestoreAccount(old(db.Snapshot()), u, passwordOk)
  {
    if u !in db.users || db.users[u].deletedAt.Never? || !passwordOk {
      return Error(401);
    }
    if db.now - db.users[u].deletedAt.time > DAYS_7 {
      return Error(403);
    }
    if !db.users[u].deletedBy.ByUser? {
      return Error(403);
    }
    if Exceeds(db.Snapshot(), u) {
      return Error(400);
    }
    db.users := U.RestoreUserData(db.users, db.users[u].id);
    db.files := RestoreAllUserFiles(db.files, db.boards, u, DAYS_30, db.now);
    db.boards := B.RecalculateAllUserBoardsTotalFsize(db.Snapshot(), u);
    return Done;
  }

  method AnonymizeUser(db: Database) returns (reply: Reply)
    modifies db
    ensures Outcome(db.Snapshot(), reply) == Anonymise(old(db.Snapshot()))
  {
    db.users := U.DeleteSoftDeletedUser(db.users, db.now);
    return Done;
  }

  method DeleteUserPerman(db: Database) returns (reply: Reply)
    modifies db
    ensures Outcome(db.Snapshot(), reply) == PurgeUsers(old(db.Snapshot()))
  {
    db.users := U.DeleteSoftDeletedUser(db.users, db.now);
    db.files := DeleteFiles(db.files, db.now);
    return Done;
  }
}
