/**
 The byte quota of a board.

 Board and account restores look at no quota, so a bound on the active bytes alone is not kept by
 the steps.  What they keep is a bound on the reserved bytes: the active ones and those that a
 cascade put away at most 90 days ago.
 */
module Quota {
  import opened Tables
  import opened FilesTable
  import opened Machine
  import opened Soundness
  import FileServices
  import UserServices
  import AdminServices

  function Reserved(s: State, b: nat): nat {
    Bytes(s, ReservedOn(b))
  }

  ghost predicate QuotaOk(s: State) {
    forall b: nat :: Reserved(s, b) <= FILE_TOTAL_MAX_SIZE
  }

  predicate IsReserved(r: FileRow, now: int) {
    Selects(ReservedOn(r.board), r, now)
  }

  // ---------- steps that add no reserved byte ----------

  predicate NoNewReserved(s: State, t: State) {
    && t.nextFile == s.nextFile
    && forall i :: i in t.files && IsReserved(t.files[i], t.now) ==>
         i in s.files && IsReserved(s.files[i], s.now) &&
         t.files[i].board == s.files[i].board && t.files[i].size == s.files[i].size
  }

  lemma ReservedShrinks(s: State, t: State, b: nat)
    requires NoNewReserved(s, t)
    ensures Reserved(t, b) <= Reserved(s, b)
  {
    SumLe(Query(t.files, ReservedOn(b), t.now), Query(s.files, ReservedOn(b), s.now), s.nextFile);
  }

  lemma UserStepNoNewReserved(s: State, r: UserRequest)
    ensures NoNewReserved(s, UserStep(s, r).state)
  {
  }

  lemma BoardStepNoNewReserved(s: State, r: BoardRequest)
    ensures NoNewReserved(s, BoardStep(s, r).state)
  {
  }

  lemma AdminDeleteUserNoNewReserved(s: State, u: nat, option: DeleteOption)
    ensures NoNewReserved(s, AdminServices.DeleteUser(s, u, option).state)
  {
  }

  lemma AdminDeleteBoardNoNewReserved(s: State, b: nat, option: DeleteOption)
    ensures NoNewReserved(s, AdminServices.DeleteBoard(s, b, option).state)
  {
  }

  lemma SanctionStepNoNewReserved(s: State, r: SanctionRequest)
    ensures NoNewReserved(s, SanctionStep(s, r).state)
  {
    match r
    case AdminDeleteUser(u, option) => AdminDeleteUserNoNewReserved(s, u, option);
    case AdminDeleteBoard(b, option) => AdminDeleteBoardNoNewReserved(s, b, option);
    case _ =>
  }

  lemma JobStepNoNewReserved(s: State, j: Job)
    ensures NoNewReserved(s, JobStep(s, j).state)
  {
  }

  lemma DeletionNoNewReserved(s: State, r: FileRequest)
    requires r.DeleteFile? || r.DeleteAllFiles? || FileStep(s, r).reply != Done
    ensures NoNewReserved(s, FileStep(s, r).state)
  {
  }

  lemma RecoveryNoNewReserved(s: State, r: RecoveryRequest)
    requires r.AdminRestoreUser? || r.AdminRestoreBoard? || RecoveryStep(s, r).reply != Done
    ensures NoNewReserved(s, RecoveryStep(s, r).state)
  {
  }

  // ---------- steps that add reserved bytes ----------

  /** Nothing is reserved on a board in use but its active files. */
  lemma ReservedIsActive(s: State, b: nat)
    requires Provenance(s.files, s.boards, s.users)
    requires BoardActive(s, b) && LoggedIn(s, s.boards[b].owner)
    ensures Reserved(s, b) == ActiveBytes(s, b)
  {
    SumEq(Query(s.files, ReservedOn(b), s.now), Query(s.files, ActiveOn(b), s.now), s.nextFile);
  }

  lemma InsertAdds(s: State, b: nat, size: nat, path: string, w: Where)
    requires FilesSound(s.files, s.boards, s.nextFile)
    requires w.ActiveOn? || w.ReservedOn?
    ensures Bytes(FileServices.InsertFile(s, b, size, path), w) == Bytes(s, w) + if w.board == b then size else 0
  {
    var t := FileServices.InsertFile(s, b, size, path);
    SumEq(Query(t.files, w, t.now), Query(s.files, w, s.now), s.nextFile);
  }

  lemma RestoreOneAdds(s: State, i: nat, b: nat)
    requires i in s.files && i < s.nextFile
    ensures Reserved(s.(files := RestoreOneFile(s.files, i)), b) ==
            Reserved(s, b) + if s.files[i].board == b && !IsReserved(s.files[i], s.now) then s.files[i].size else 0
  {
    SumPoint(Query(s.files, ReservedOn(b), s.now),
             Query(RestoreOneFile(s.files, i), ReservedOn(b), s.now), i, s.nextFile);
  }

  lemma UserBulkRestores(s: State, b: nat, c: nat)
    ensures var t := s.(files := UserRestoreAllRestorableFiles(s.files, b, s.now));
            && ActiveBytes(t, b) == ActiveBytes(s, b) + Bytes(s, UserDeletedOn(b, DAYS_30))
            && (c != b ==> Reserved(t, c) == Reserved(s, c))
    requires FilesSound(s.files, s.boards, s.nextFile)
  {
    var files := UserRestoreAllRestorableFiles(s.files, b, s.now);
    SumAdd(Query(files, ActiveOn(b), s.now), Query(s.files, ActiveOn(b), s.now),
           Query(s.files, UserDeletedOn(b, DAYS_30), s.now), s.nextFile);
    if c != b {
      SumEq(Query(files, ReservedOn(c), s.now), Query(s.files, ReservedOn(c), s.now), s.nextFile);
    }
  }

  lemma AdminBulkRestores(s: State, b: nat, c: nat)
    requires FilesSound(s.files, s.boards, s.nextFile)
    ensures var t := s.(files := AdminRestoreAllRestorableFiles(s.files, b, s.now));
            && Reserved(t, b) == ActiveBytes(t, b) == ActiveBytes(s, b) + Bytes(s, DeletedOn(b, DAYS_90))
            && (c != b ==> Reserved(t, c) == Reserved(s, c))
  {
    var files := AdminRestoreAllRestorableFiles(s.files, b, s.now);
    SumEq(Query(files, ReservedOn(b), s.now), Query(files, ActiveOn(b), s.now), s.nextFile);
    SumAdd(Query(files, ActiveOn(b), s.now), Query(s.files, ActiveOn(b), s.now),
           Query(s.files, DeletedOn(b, DAYS_90), s.now), s.nextFile);
    if c != b {
      SumEq(Query(files, ReservedOn(c), s.now), Query(s.files, ReservedOn(c), s.now), s.nextFile);
    }
  }

  // ---------- the quota over whole runs ----------

  /**
   The two services that can pass the quota, and when they do not: the owner's bulk restore, which
   brings back 30 days of deletions, and the administrator's single restore of a file that no
   cascade deleted.
   */
  predicate Fits(s: State, op: Op) {
    match op
    case OfFile(RestoreAllFiles(_, _, b)) =>
      ActiveBytes(s, b) + Bytes(s, UserDeletedOn(b, DAYS_30)) <= FILE_TOTAL_MAX_SIZE
    case OfRecovery(AdminRestoreFile(i)) =>
      i in s.files && !IsReserved(s.files[i], s.now) ==>
        Reserved(s, s.files[i].board) + s.files[i].size <= FILE_TOTAL_MAX_SIZE
    case _ => true
  }

  /** What a request on files leaves reserved on board c. */
  lemma FileStepReserved(s: State, r: FileRequest, c: nat)
    requires FilesSound(s.files, s.boards, s.nextFile) && Provenance(s.files, s.boards, s.users)
    ensures var t := FileStep(s, r).state;
            || Reserved(t, c) <= Reserved(s, c)
            || Reserved(t, c) <= FILE_TOTAL_MAX_SIZE
            || (r.RestoreAllFiles? && FileStep(s, r).reply == Done && c == r.board)
  {
    if r.DeleteFile? || r.DeleteAllFiles? || FileStep(s, r).reply != Done {
      DeletionNoNewReserved(s, r);
      ReservedShrinks(s, FileStep(s, r).state, c);
    } else if r.Upload? {
      ReservedIsActive(s, r.board);
      InsertAdds(s, r.board, r.size, r.path, ReservedOn(c));
    } else if r.RestoreFile? {
      ReservedIsActive(s, s.files[r.file].board);
      RestoreOneAdds(s, r.file, c);
    } else {
      UserBulkRestores(s, r.board, c);
    }
  }

  /** After a bulk restore by the owner, what is reserved is what is active. */
  lemma UserBulkReserved(s: State, r: FileRequest)
    requires FilesSound(s.files, s.boards, s.nextFile) && Provenance(s.files, s.boards, s.users)
    requires r.RestoreAllFiles? && FileStep(s, r).reply == Done
    ensures Reserved(FileStep(s, r).state, r.board) ==
            ActiveBytes(s, r.board) + Bytes(s, UserDeletedOn(r.board, DAYS_30))
  {
    FileStepKeepsProvenance(s, r);
    BulkStateReserved(s, FileStep(s, r).state, r.board);
  }

  lemma BulkStateReserved(s: State, t: State, b: nat)
    requires FilesSound(s.files, s.boards, s.nextFile) && Provenance(t.files, t.boards, t.users)
    requires t == s.(boards := t.boards, files := UserRestoreAllRestorableFiles(s.files, b, s.now))
    requires BoardActive(t, b) && LoggedIn(t, t.boards[b].owner)
    ensures Reserved(t, b) == ActiveBytes(s, b) + Bytes(s, UserDeletedOn(b, DAYS_30))
  {
    UserBulkRestores(s, b, b);
    ReservedIsActive(t, b);
  }

  /** What a restore by an administrator leaves reserved on board c. */
  lemma RecoveryStepReserved(s: State, r: RecoveryRequest, c: nat)
    requires FilesSound(s.files, s.boards, s.nextFile)
    ensures var t := RecoveryStep(s, r).state;
            || Reserved(t, c) <= Reserved(s, c)
            || Reserved(t, c) <= FILE_TOTAL_MAX_SIZE
            || (r.AdminRestoreFile? && RecoveryStep(s, r).reply == Done &&
                c == s.files[r.file].board && !IsReserved(s.files[r.file], s.now) &&
                Reserved(t, c) == Reserved(s, c) + s.files[r.file].size)
  {
    if r.AdminRestoreUser? || r.AdminRestoreBoard? || RecoveryStep(s, r).reply != Done {
      RecoveryNoNewReserved(s, r);
      ReservedShrinks(s, RecoveryStep(s, r).state, c);
    } else if r.AdminRestoreFile? {
      RestoreOneAdds(s, r.file, c);
    } else {
      AdminBulkRestores(s, r.board, c);
    }
  }

  /** A step that fits leaves every board with no more reserved than it had, or within the quota. */
  lemma StepReserved(s: State, op: Op, c: nat)
    requires Sound(s) && Fits(s, op)
    ensures var t := Step(s, op).state;
            Reserved(t, c) <= Reserved(s, c) || Reserved(t, c) <= FILE_TOTAL_MAX_SIZE
  {
    match op
    case OfUser(r) =>
      UserStepNoNewReserved(s, r);
      ReservedShrinks(s, UserStep(s, r).state, c);
    case OfBoard(r) =>
      BoardStepNoNewReserved(s, r);
      ReservedShrinks(s, BoardStep(s, r).state, c);
    case OfFile(r) =>
      FileStepReserved(s, r, c);
      if r.RestoreAllFiles? && FileStep(s, r).reply == Done && c == r.board {
        UserBulkReserved(s, r);
      }
    case OfSanction(r) =>
      SanctionStepNoNewReserved(s, r);
      ReservedShrinks(s, SanctionStep(s, r).state, c);
    case OfRecovery(r) =>
      RecoveryStepReserved(s, r, c);
    case OfClock(j) =>
      JobStepNoNewReserved(s, j);
      ReservedShrinks(s, JobStep(s, j).state, c);
  }

  lemma StepKeeps(s: State, op: Op)
    requires Sound(s) && QuotaOk(s) && Fits(s, op)
    ensures Sound(Step(s, op).state) && QuotaOk(Step(s, op).state)
  {
    StepSound(s, op);
    forall c: nat ensures Reserved(Step(s, op).state, c) <= FILE_TOTAL_MAX_SIZE {
      StepReserved(s, op, c);
    }
  }

  /** A served request keeps the quota exactly when it fits; every other one always keeps it. */
  lemma StepKeepsQuotaIff(s: State, op: Op)
    requires Sound(s) && QuotaOk(s)
    requires Step(s, op).reply == Done
    ensures QuotaOk(Step(s, op).state) <==> Fits(s, op)
  {
    var t := Step(s, op).state;
    if Fits(s, op) {
      forall c: nat ensures Reserved(t, c) <= FILE_TOTAL_MAX_SIZE {
        StepReserved(s, op, c);
      }
    } else {
      match op
      case OfFile(r) =>
        UserBulkReserved(s, r);
        assert Reserved(t, r.board) > FILE_TOTAL_MAX_SIZE;
      case OfRecovery(r) =>
        RestoreOneAdds(s, r.file, s.files[r.file].board);
        assert Reserved(t, s.files[r.file].board) > FILE_TOTAL_MAX_SIZE;
      case _ =>
    }
  }

  /** Every step of the run that is served fits. */
  predicate RunFits(s: State, ops: seq<Op>)
    decreases |ops|
  {
    ops == [] ||
    ((Step(s, ops[0]).reply == Done ==> Fits(s, ops[0])) && RunFits(Step(s, ops[0]).state, ops[1..]))
  }

  /** From a sound start within the quota, every such run stays within it. */
  lemma {:induction false} RunKeepsQuota(s: State, ops: seq<Op>)
    requires Sound(s) && QuotaOk(s)
    requires RunFits(s, ops)
    ensures QuotaOk(Run(s, ops))
    decreases |ops|
  {
    if ops == [] {
    } else {
      var o := Step(s, ops[0]);
      StepSound(s, ops[0]);
      if o.reply == Done {
        StepKeepsQuotaIff(s, ops[0]);
      } else {
        RejectionChangesNothing(s, ops[0]);
      }
      RunKeepsQuota(o.state, ops[1..]);
    }
  }

  /** The active bytes are among the reserved ones, so the quota bounds every board at all times. */
  lemma ActiveWithinReserved(s: State, b: nat)
    ensures ActiveBytes(s, b) <= Reserved(s, b)
  {
    SumLe(Query(s.files, ActiveOn(b), s.now), Query(s.files, ReservedOn(b), s.now), s.nextFile);
  }

  /**
   Within the quota, the check of both account restores for a board that would exceed it never
   fires once the age of the deletion has been accepted.
   */
  lemma ExceedsNeverFires(s: State, u: nat)
    requires Sound(s) && QuotaOk(s)
    requires u in s.users && Within(s.users[u].deletedAt, DAYS_90, s.now)
    ensures !UserServices.Exceeds(s, u)
  {
    forall b | b in s.boards && s.boards[b].owner == u
      ensures Bytes(s, ActiveOrUserCascadeOn(b)) <= FILE_TOTAL_MAX_SIZE
    {
      SumLe(Query(s.files, ActiveOrUserCascadeOn(b), s.now), Query(s.files, ReservedOn(b), s.now), s.nextFile);
      assert Reserved(s, b) <= FILE_TOTAL_MAX_SIZE;
    }
  }

  // ---------- bulk restores ----------

  /** A served bulk restore by the owner passes the quota by no more than its older files. */
  lemma UserBulkRestoreBound(s: State, caller: nat, b: nat)
    requires FilesSound(s.files, s.boards, s.nextFile)
    requires FileServices.RestoreAllFiles(s, caller, true, b).reply == Done
    ensures var t := FileServices.RestoreAllFiles(s, caller, true, b).state;
            && ActiveBytes(t, b) <= FILE_TOTAL_MAX_SIZE + Bytes(s, UserDeletedBetween(b, DAYS_7, DAYS_30))
            && (ActiveBytes(t, b) <= FILE_TOTAL_MAX_SIZE <==>
                ActiveBytes(s, b) + Bytes(s, UserDeletedOn(b, DAYS_7)) +
                Bytes(s, UserDeletedBetween(b, DAYS_7, DAYS_30)) <= FILE_TOTAL_MAX_SIZE)
  {
    UserBulkRestores(s, b, b);
    SumAdd(Query(s.files, UserDeletedOn(b, DAYS_30), s.now), Query(s.files, UserDeletedOn(b, DAYS_7), s.now),
           Query(s.files, UserDeletedBetween(b, DAYS_7, DAYS_30), s.now), s.nextFile);
  }

  /** The administrator's bulk restore checks what it restores. */
  lemma AdminBulkRestoreBound(s: State, b: nat)
    requires FilesSound(s.files, s.boards, s.nextFile)
    requires AdminServices.RestoreAllFiles(s, b).reply == Done
    ensures var t := AdminServices.RestoreAllFiles(s, b).state;
            && Reserved(t, b) == ActiveBytes(t, b) <= FILE_TOTAL_MAX_SIZE
            && (forall i :: i in t.files && t.files[i].board == b ==> !Within(t.files[i].deletedAt, DAYS_90, t.now))
            && (forall i :: i in s.files && Within(s.files[i].deletedAt, DAYS_90, s.now) && s.files[i].board == b ==>
                  i in t.files && t.files[i] == Clear(s.files[i]))
  {
    AdminBulkRestores(s, b, b);
  }
}
