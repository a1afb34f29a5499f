/** The cached column `boards.total_file_size` against the sum it stands for. */
module Totals {
  import opened Tables
  import opened FilesTable
  import opened Machine
  import opened Soundness
  import AdminServices
  import BoardsTable
  import UserServices

  predicate IsActiveOn(files: Files, i: nat, b: nat) {
    i in files && files[i].board == b && files[i].deletedAt.Never?
  }

  /** No active file on the board. */
  predicate Empty(files: Files, b: nat) {
    forall i :: i in files ==> !IsActiveOn(files, i, b)
  }

  predicate TotalExact(s: State, b: nat)
    requires b in s.boards
  {
    s.boards[b].total == ActiveBytes(s, b)
  }

  /** Every board in use has the right total. */
  ghost predicate TotalsExact(s: State) {
    forall b :: BoardActive(s, b) ==> TotalExact(s, b)
  }

  /** Every board in use has the right total, or nothing to count. */
  ghost predicate TotalsOk(s: State) {
    forall b :: BoardActive(s, b) ==> TotalExact(s, b) || Empty(s.files, b)
  }

  /** Same active rows on the board, and the same total. */
  predicate Untouched(s: State, t: State, b: nat) {
    && b in s.boards && b in t.boards && s.boards[b].deletedAt.Never?
    && t.boards[b].total == s.boards[b].total
    && (forall i :: i in t.files && IsActiveOn(t.files, i, b) ==> i in s.files && s.files[i] == t.files[i])
    && (forall i :: i in s.files && IsActiveOn(s.files, i, b) ==> i in t.files && s.files[i] == t.files[i])
  }

  /** What a step leaves behind on a board in use. */
  predicate Settled(s: State, t: State, b: nat)
    requires b in t.boards
  {
    Untouched(s, t, b) || TotalExact(t, b) || (Empty(t.files, b) && t.boards[b].total == 0)
  }

  lemma EmptyHasNoBytes(s: State, b: nat)
    requires Empty(s.files, b)
    ensures ActiveBytes(s, b) == 0
  {
    SumZero(Query(s.files, ActiveOn(b), s.now), s.nextFile);
  }

  lemma UntouchedKeepsBytes(s: State, t: State, b: nat)
    requires FilesSound(s.files, s.boards, s.nextFile)
    requires Untouched(s, t, b) && s.nextFile <= t.nextFile <= s.nextFile + 1
    ensures ActiveBytes(t, b) == ActiveBytes(s, b)
    ensures Empty(s.files, b) ==> Empty(t.files, b)
  {
    SumEq(Query(t.files, ActiveOn(b), t.now), Query(s.files, ActiveOn(b), s.now), s.nextFile);
  }

  ghost predicate AllSettled(s: State, t: State) {
    forall b :: BoardActive(t, b) ==> Settled(s, t, b)
  }

  /** A recount of board b settles whatever a statement did to the files of b. */
  lemma RecountSettles(s: State, files: Files, b: nat)
    requires forall i :: i in files && (i !in s.files || files[i] != s.files[i]) ==> files[i].board == b
    requires forall i :: i in s.files && (i !in files || files[i] != s.files[i]) ==> s.files[i].board == b
    ensures AllSettled(s, BoardsTable.Recount(s.(files := files), b))
  {
  }

  lemma SuspendSettles(s: State, tag: Tag, u: nat)
    ensures AllSettled(s, UserServices.Suspend(s, tag, u))
  {
  }

  lemma ReinstateSettles(s: State, u: nat, window: int)
    requires u in s.users
    ensures AllSettled(s, UserServices.Reinstate(s, u, window))
  {
  }

  lemma UserStepSettles(s: State, r: UserRequest)
    ensures AllSettled(s, UserStep(s, r).state)
  {
    if r.Withdraw? {
      SuspendSettles(s, ByUser, r.caller);
    } else if r.RestoreAccount? && r.user in s.users {
      ReinstateSettles(s, r.user, DAYS_30);
    }
  }

  lemma CreateBoardSettles(s: State, r: BoardRequest)
    requires r.CreateBoard?
    requires FilesSound(s.files, s.boards, s.nextFile) && BoardsSound(s.boards, s.users, s.nextBoard)
    ensures AllSettled(s, BoardStep(s, r).state)
  {
  }

  lemma OwnerDeleteBoardSettles(s: State, r: BoardRequest)
    requires r.DeleteBoard?
    ensures AllSettled(s, BoardStep(s, r).state)
  {
  }

  lemma RestoreBoardSettles(s: State, r: BoardRequest)
    requires r.RestoreBoard?
    ensures AllSettled(s, BoardStep(s, r).state)
  {
  }

  lemma BoardStepSettles(s: State, r: BoardRequest)
    requires FilesSound(s.files, s.boards, s.nextFile) && BoardsSound(s.boards, s.users, s.nextBoard)
    ensures AllSettled(s, BoardStep(s, r).state)
  {
    match r
    case CreateBoard(_) => CreateBoardSettles(s, r);
    case DeleteBoard(_, _, _) => OwnerDeleteBoardSettles(s, r);
    case RestoreBoard(_, _, _) => RestoreBoardSettles(s, r);
  }

  lemma UploadSettles(s: State, r: FileRequest)
    requires r.Upload?
    requires forall i :: i in s.files ==> i < s.nextFile
    ensures AllSettled(s, FileStep(s, r).state)
  {
  }

  lemma DeleteFileSettles(s: State, r: FileRequest)
    requires r.DeleteFile?
    ensures AllSettled(s, FileStep(s, r).state)
  {
    if FileStep(s, r).reply == Done {
      RecountSettles(s, SoftDeleteOneFile(s.files, ByUser, r.file, s.now), s.files[r.file].board);
    }
  }

  lemma DeleteAllFilesSettles(s: State, r: FileRequest)
    requires r.DeleteAllFiles?
    ensures AllSettled(s, FileStep(s, r).state)
  {
  }

  lemma RestoreFileSettles(s: State, r: FileRequest)
    requires r.RestoreFile?
    ensures AllSettled(s, FileStep(s, r).state)
  {
    if FileStep(s, r).reply == Done {
      RecountSettles(s, RestoreOneFile(s.files, r.file), s.files[r.file].board);
    }
  }

  lemma RestoreAllFilesSettles(s: State, r: FileRequest)
    requires r.RestoreAllFiles?
    ensures AllSettled(s, FileStep(s, r).state)
  {
    if FileStep(s, r).reply == Done {
      RecountSettles(s, UserRestoreAllRestorableFiles(s.files, r.board, s.now), r.board);
    }
  }

  lemma FileStepSettles(s: State, r: FileRequest)
    requires forall i :: i in s.files ==> i < s.nextFile
    ensures AllSettled(s, FileStep(s, r).state)
  {
    match r
    case Upload(_, _, _, _, _) => UploadSettles(s, r);
    case RestoreFile(_, _, _) => RestoreFileSettles(s, r);
    case RestoreAllFiles(_, _, _) => RestoreAllFilesSettles(s, r);
    case DeleteFile(_, _, _) => DeleteFileSettles(s, r);
    case DeleteAllFiles(_, _, _) => DeleteAllFilesSettles(s, r);
  }

  lemma BanSettles(s: State, r: SanctionRequest)
    requires r.AdminBan? || r.AdminUnban?
    ensures AllSettled(s, SanctionStep(s, r).state)
  {
  }

  lemma AdminDeleteFileSettles(s: State, i: nat, option: FileDeleteOption)
    ensures AllSettled(s, AdminServices.DeleteFile(s, i, option).state)
  {
  }

  lemma DeleteUserSettles(s: State, u: nat, option: DeleteOption)
    ensures AllSettled(s, AdminServices.DeleteUser(s, u, option).state)
  {
  }

  lemma DeleteBoardSettles(s: State, b: nat, option: DeleteOption)
    ensures AllSettled(s, AdminServices.DeleteBoard(s, b, option).state)
  {
  }

  lemma SanctionStepSettles(s: State, r: SanctionRequest)
    requires !r.AdminDeleteAllFiles?
    ensures AllSettled(s, SanctionStep(s, r).state)
  {
    match r
    case AdminDeleteUser(u, option) => DeleteUserSettles(s, u, option);
    case AdminDeleteBoard(b, option) => DeleteBoardSettles(s, b, option);
    case AdminDeleteFile(i, option) => AdminDeleteFileSettles(s, i, option);
    case _ => BanSettles(s, r);
  }

  lemma AdminRestoreUserSettles(s: State, u: nat)
    ensures AllSettled(s, AdminServices.RestoreUser(s, u).state)
  {
  }

  lemma AdminRestoreBoardSettles(s: State, b: nat)
    ensures AllSettled(s, AdminServices.RestoreBoard(s, b).state)
  {
  }

  lemma AdminRestoreFileSettles(s: State, i: nat)
    ensures AllSettled(s, AdminServices.RestoreFile(s, i).state)
  {
  }

  lemma AdminRestoreAllFilesSettles(s: State, b: nat)
    ensures AllSettled(s, AdminServices.RestoreAllFiles(s, b).state)
  {
  }

  lemma RecoveryStepSettles(s: State, r: RecoveryRequest)
    ensures AllSettled(s, RecoveryStep(s, r).state)
  {
    match r
    case AdminRestoreUser(u) => AdminRestoreUserSettles(s, u);
    case AdminRestoreBoard(b) => AdminRestoreBoardSettles(s, b);
    case AdminRestoreFile(i) => AdminRestoreFileSettles(s, i);
    case AdminRestoreAllFiles(b) => AdminRestoreAllFilesSettles(s, b);
  }

  lemma JobStepSettles(s: State, j: Job)
    ensures AllSettled(s, JobStep(s, j).state)
  {
  }

  lemma StepSettles(s: State, op: Op)
    requires Sound(s)
    requires !(op.OfSanction? && op.sanction.AdminDeleteAllFiles?)
    ensures AllSettled(s, Step(s, op).state)
  {
    match op
    case OfUser(r) => UserStepSettles(s, r);
    case OfBoard(r) => BoardStepSettles(s, r);
    case OfFile(r) => FileStepSettles(s, r);
    case OfSanction(r) => SanctionStepSettles(s, r);
    case OfRecovery(r) => RecoveryStepSettles(s, r);
    case OfClock(j) => JobStepSettles(s, j);
  }

  /** The file sequence moves by at most one per step. */
  lemma StepNextFile(s: State, op: Op)
    ensures s.nextFile <= Step(s, op).state.nextFile <= s.nextFile + 1
  {
  }

  /** Settled boards keep what is claimed of their totals. */
  lemma SettledKeepsTotals(s: State, t: State)
    requires FilesSound(s.files, s.boards, s.nextFile)
    requires s.nextFile <= t.nextFile <= s.nextFile + 1
    requires AllSettled(s, t)
    ensures TotalsOk(s) ==> TotalsOk(t)
    ensures TotalsExact(s) ==> TotalsExact(t)
  {
    forall b: nat | BoardActive(t, b)
      ensures TotalsOk(s) ==> TotalExact(t, b) || Empty(t.files, b)
      ensures TotalsExact(s) ==> TotalExact(t, b)
    {
      if Untouched(s, t, b) {
        UntouchedKeepsBytes(s, t, b);
        assert BoardActive(s, b);
      } else if Empty(t.files, b) {
        EmptyHasNoBytes(t, b);
      }
    }
  }

  /** The administrator's delete of all files, board by board. */
  lemma AdminDeleteAllBytes(s: State, b: nat, option: FileDeleteOption, c: nat)
    requires FilesSound(s.files, s.boards, s.nextFile)
    requires c in s.boards
    requires AdminServices.DeleteAllFiles(s, b, option).reply == Done
    ensures var t := AdminServices.DeleteAllFiles(s, b, option).state;
            && t.boards == s.boards
            && (c == b ==> Empty(t.files, c) && ActiveBytes(t, c) == 0)
            && (c != b ==> ActiveBytes(t, c) == ActiveBytes(s, c))
            && (Empty(s.files, c) ==> Empty(t.files, c))
  {
    var t := AdminServices.DeleteAllFiles(s, b, option).state;
    if c == b {
      EmptyHasNoBytes(t, b);
    } else {
      SumEq(Query(t.files, ActiveOn(c), t.now), Query(s.files, ActiveOn(c), s.now), s.nextFile);
    }
  }

  /**
   That delete leaves the board's total as it was; the totals stay exact exactly when that total
   is not on show (the board is deleted) or was zero already.
   */
  lemma AdminDeleteAllKeepsTotalsIff(s: State, b: nat, option: FileDeleteOption)
    requires FilesSound(s.files, s.boards, s.nextFile)
    requires AdminServices.DeleteAllFiles(s, b, option).reply == Done
    ensures var t := AdminServices.DeleteAllFiles(s, b, option).state;
            && (TotalsOk(s) ==> TotalsOk(t))
            && (TotalsExact(s) ==> (TotalsExact(t) <==> s.boards[b].deletedAt.At? || s.boards[b].total == 0))
  {
    var t := AdminServices.DeleteAllFiles(s, b, option).state;
    AdminDeleteAllBytes(s, b, option, b);
    assert BoardActive(t, b) <==> s.boards[b].deletedAt.Never?;
    forall c: nat | BoardActive(t, c) && c != b
      ensures TotalExact(s, c) ==> TotalExact(t, c)
      ensures Empty(s.files, c) ==> Empty(t.files, c)
    {
      AdminDeleteAllBytes(s, b, option, c);
    }
  }

  /** A step that is not the administrator's delete of all files keeps exact totals exact. */
  lemma StepKeepsExactTotals(s: State, op: Op)
    requires Sound(s) && TotalsExact(s)
    requires !(op.OfSanction? && op.sanction.AdminDeleteAllFiles?)
    ensures TotalsExact(Step(s, op).state)
  {
    StepSettles(s, op);
    StepNextFile(s, op);
    SettledKeepsTotals(s, Step(s, op).state);
  }

  lemma StepKeepsTotals(s: State, op: Op)
    requires Sound(s) && TotalsOk(s)
    ensures TotalsOk(Step(s, op).state)
  {
    if op.OfSanction? && op.sanction.AdminDeleteAllFiles? {
      if Step(s, op).reply == Done {
        AdminDeleteAllKeepsTotalsIff(s, op.sanction.board, op.sanction.fileOption);
      } else {
        RejectionChangesNothing(s, op);
      }
    } else {
      StepSettles(s, op);
      StepNextFile(s, op);
      SettledKeepsTotals(s, Step(s, op).state);
    }
  }

  /** In every state of every run, a board in use has the right total or no active file at all. */
  lemma {:induction false} RunKeepsTotals(s: State, ops: seq<Op>)
    requires Sound(s) && TotalsOk(s)
    ensures Sound(Run(s, ops)) && TotalsOk(Run(s, ops))
    decreases |ops|
  {
    if ops == [] {
    } else {
      StepSound(s, ops[0]);
      StepKeepsTotals(s, ops[0]);
      RunKeepsTotals(Step(s, ops[0]).state, ops[1..]);
    }
  }

  // ---------- the administrator's delete of all files, with the missing reset ----------

  /** That delete as its log entry describes it: the total goes to 0 with the files. */
  function ResettingDeleteAll(s: State, b: nat, option: FileDeleteOption): Outcome {
    var o := AdminServices.DeleteAllFiles(s, b, option);
    if o.reply != Done then o
    else Commit(o.state.(boards := BoardsTable.UpdateTotalBoardFsize(o.state.boards, 0, b)))
  }

  /** The machine with that one request repaired. */
  function RepairedStep(s: State, op: Op): Outcome {
    match op
    case OfSanction(AdminDeleteAllFiles(b, option)) => ResettingDeleteAll(s, b, option)
    case _ => Step(s, op)
  }

  function RepairedRun(s: State, ops: seq<Op>): State
    decreases |ops|
  {
    if ops == [] then s else RepairedRun(RepairedStep(s, ops[0]).state, ops[1..])
  }

  lemma ResettingDeleteAllSettles(s: State, b: nat, option: FileDeleteOption)
    ensures AllSettled(s, ResettingDeleteAll(s, b, option).state)
  {
  }

  lemma AdminDeleteAllSound(s: State, b: nat, option: FileDeleteOption)
    requires Sound(s)
    ensures Sound(AdminServices.DeleteAllFiles(s, b, option).state)
  {
    StepSound(s, OfSanction(AdminDeleteAllFiles(b, option)));
  }

  /** The reset writes a total and nothing else, so the rows stay sound. */
  lemma ResettingDeleteAllSound(s: State, b: nat, option: FileDeleteOption)
    requires Sound(s)
    ensures Sound(ResettingDeleteAll(s, b, option).state)
  {
    var t := AdminServices.DeleteAllFiles(s, b, option).state;
    AdminDeleteAllSound(s, b, option);
    TotalsAloneSound(t, BoardsTable.UpdateTotalBoardFsize(t.boards, 0, b));
  }

  lemma TotalsAloneSound(s: State, boards: Boards)
    requires Sound(s) && boards.Keys == s.boards.Keys
    requires forall b :: b in boards ==> boards[b] == s.boards[b].(total := boards[b].total)
    ensures Sound(s.(boards := boards))
  {
    forall b | b in boards ensures BoardSound(boards[b], b, s.users, s.nextBoard) {
      assert BoardSound(s.boards[b], b, s.users, s.nextBoard);
    }
    forall i | i in s.files
      ensures FileSound(s.files[i], i, boards, s.nextFile) && RowProvenance(s.files[i], boards, s.users)
    {
      assert FileSound(s.files[i], i, s.boards, s.nextFile);
      assert RowProvenance(s.files[i], s.boards, s.users);
    }
  }

  /** With the reset added, every total on show is exact in every state of every run. */
  lemma {:induction false} RepairedRunKeepsExactTotals(s: State, ops: seq<Op>)
    requires Sound(s) && TotalsExact(s)
    ensures Sound(RepairedRun(s, ops)) && TotalsExact(RepairedRun(s, ops))
    decreases |ops|
  {
    if ops == [] {
    } else {
      var t := RepairedStep(s, ops[0]).state;
      match ops[0] {
        case OfSanction(AdminDeleteAllFiles(b, option)) =>
          ResettingDeleteAllSound(s, b, option);
          ResettingDeleteAllSettles(s, b, option);
          SettledKeepsTotals(s, t);
        case _ =>
          StepSound(s, ops[0]);
          StepKeepsExactTotals(s, ops[0]);
      }
      RepairedRunKeepsExactTotals(t, ops[1..]);
    }
  }

  // ---------- account deletes and account restores, board by board ----------

  /** The request deletes account u: its owner's withdrawal, or an administrator's delete. */
  predicate DeletesAccount(op: Op, u: nat) {
    match op
    case OfUser(Withdraw(caller, _)) => caller == u
    case OfSanction(AdminDeleteUser(user, _)) => user == u
    case _ => false
  }

  /** What the account's row is tagged with. */
  function AccountTag(op: Op): Tag {
    match op
    case OfSanction(AdminDeleteUser(_, Scheduled)) => AdminScheduled
    case OfSanction(AdminDeleteUser(_, Retain)) => AdminRetain
    case OfSanction(AdminDeleteUser(_, Immediate)) => AdminImmediate
    case _ => ByUser
  }

  /** Nothing outside the account of u differs. */
  predicate Apart(s: State, t: State, u: nat) {
    && t.users.Keys == s.users.Keys && t.boards.Keys == s.boards.Keys && t.files.Keys <= s.files.Keys
    && (forall v :: v in s.users && v != u ==> t.users[v] == s.users[v])
    && (forall b :: b in s.boards && s.boards[b].owner != u ==> t.boards[b] == s.boards[b])
    && (forall i :: i in s.files && !OwnedBy(s.boards, s.files[i].board, u) ==> i in t.files && t.files[i] == s.files[i])
  }

  /** No board of u holds an active file, and every board of u on show says so. */
  predicate Emptied(t: State, u: nat) {
    && (forall b :: b in t.boards && t.boards[b].owner == u ==> Empty(t.files, b))
    && (forall b :: b in t.boards && t.boards[b].owner == u && t.boards[b].deletedAt.Never? ==> t.boards[b].total == 0)
  }

  lemma SuspendEmpties(s: State, tag: Tag, u: nat)
    requires LoggedIn(s, u)
    ensures var t := UserServices.Suspend(s, tag, u);
            && Emptied(t, u) && Apart(s, t, u) && t.files.Keys == s.files.Keys
            && t.users[u].deletedAt == At(s.now) && t.users[u].deletedBy == tag
  {
  }

  lemma ImmediateDeleteEmpties(s: State, u: nat)
    requires u in s.users
    ensures var t := AdminServices.DeleteUser(s, u, Immediate).state;
            && Emptied(t, u) && Apart(s, t, u)
            && (forall i :: i in t.files ==> !OwnedBy(t.boards, t.files[i].board, u))
            && t.users[u].deletedAt == At(s.now) && t.users[u].deletedBy == AdminImmediate
  {
  }

  /**
   A served withdrawal, or delete of the account by an administrator with any option, leaves no
   active file on any board of the account and total 0 on all of them that show one; nothing of
   anybody else changes.  Only the immediate delete removes file rows, and it leaves none.
   */
  lemma AccountDeleteReachesEveryBoard(s: State, op: Op, u: nat)
    requires DeletesAccount(op, u) && Step(s, op).reply == Done
    ensures var t := Step(s, op).state;
            && Emptied(t, u) && Apart(s, t, u)
            && t.users[u].deletedAt == At(s.now) && t.users[u].deletedBy == AccountTag(op)
            && (if AccountTag(op).AdminImmediate?
                then forall i :: i in t.files ==> !OwnedBy(t.boards, t.files[i].board, u)
                else t.files.Keys == s.files.Keys)
  {
    if AccountTag(op).AdminImmediate? {
      ImmediateDeleteEmpties(s, u);
    } else {
      SuspendEmpties(s, AccountTag(op), u);
    }
  }

  predicate RestoresAccount(op: Op, u: nat) {
    match op
    case OfUser(RestoreAccount(user, _)) => user == u
    case OfRecovery(AdminRestoreUser(user)) => user == u
    case _ => false
  }

  /** Account u is back, with the right totals and no file left behind, and nothing else is touched. */
  predicate AccountRestored(s: State, t: State, u: nat) {
    && (forall b :: b in t.boards && t.boards[b].owner == u ==> TotalExact(t, b))
    && (forall i :: i in t.files && OwnedBy(t.boards, t.files[i].board, u) ==> !t.files[i].deletedBy.UserCascade?)
    && Apart(s, t, u) && t.files.Keys == s.files.Keys
    && LoggedIn(t, u)
  }

  lemma ReinstateReachesEveryBoard(s: State, u: nat, window: int)
    requires UniqueIds(s.users) && Provenance(s.files, s.boards, s.users)
    requires u in s.users && Within(s.users[u].deletedAt, window, s.now)
    ensures AccountRestored(s, UserServices.Reinstate(s, u, window), u)
  {
    RestoreByIdIsByKey(s.users, u);
  }

  /**
   A served account restore, by its owner or by an administrator, leaves every board of the account,
   deleted ones too, with the exact total, and no file of the account cascaded.
   */
  lemma AccountRestoreReachesEveryBoard(s: State, op: Op, u: nat)
    requires UniqueIds(s.users) && Provenance(s.files, s.boards, s.users)
    requires RestoresAccount(op, u) && Step(s, op).reply == Done
    ensures AccountRestored(s, Step(s, op).state, u)
  {
    ReinstateReachesEveryBoard(s, u, if op.OfUser? then DAYS_30 else DAYS_90);
  }
}
