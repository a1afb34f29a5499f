/** What holds of every row in every reachable state. */
module Soundness {
  import opened Tables
  import opened FilesTable
  import opened Machine
  import B = BoardsTable
  import U = UsersTable
  import UserServices
  import BoardServices

  /** The ban columns of one account. */
  predicate BanSound(r: UserRow) {
    && r.banCount <= 4
    && (r.deletedAt.Never? ==> (r.status.Active? <==> r.banCount == 0))
    && (r.deletedAt.Never? ==> (r.status.Banned? <==> 1 <= r.banCount <= 3))
    && (r.status.Withdrawn? ==> r.deletedAt.At?)
    && (r.banCount == 4 ==> r.status.Withdrawn?)
    && (r.status.Active? ==> r.deletedAt.Never?)
    && (r.status.Banned? ==> 1 <= r.banCount <= 3)
  }

  predicate UserSound(r: UserRow, u: nat, next: nat) {
    && u < next
    && (r.deletedAt.Never? <==> r.deletedBy.Nobody?)
    && !r.deletedBy.UserCascade? && !r.deletedBy.BoardCascade?
    && (r.id.Anonymous? ==> r.id.user == u)
    && BanSound(r)
  }

  predicate UsersSound(users: Users, next: nat) {
    forall u :: u in users ==> UserSound(users[u], u, next)
  }

  predicate UniqueIds(users: Users) {
    forall u, v :: u in users && v in users && users[u].id == users[v].id ==> u == v
  }

  predicate BoardSound(r: BoardRow, b: nat, users: Users, next: nat) {
    && b < next
    && r.owner in users
    && (r.deletedAt.Never? <==> r.deletedBy.Nobody?)
    && (r.deletedBy.Nobody? || r.deletedBy.ByUser? || r.deletedBy.AdminScheduled? || r.deletedBy.AdminRetain?)
  }

  predicate BoardsSound(boards: Boards, users: Users, next: nat) {
    forall b :: b in boards ==> BoardSound(boards[b], b, users, next)
  }

  predicate FileSound(r: FileRow, i: nat, boards: Boards, next: nat) {
    && i < next
    && r.board in boards
    && (r.deletedAt.Never? <==> r.deletedBy.Nobody?)
    && !r.deletedBy.AdminRetain? && !r.deletedBy.AdminImmediate?
  }

  predicate FilesSound(files: Files, boards: Boards, next: nat) {
    forall i :: i in files ==> FileSound(files[i], i, boards, next)
  }

  function BoardStamp(boards: Boards, b: nat): Stamp {
    if b in boards then boards[b].deletedAt else Never
  }

  function OwnerStamp(boards: Boards, users: Users, b: nat): Stamp {
    if b in boards && boards[b].owner in users then users[boards[b].owner].deletedAt else Never
  }

  /** A cascade tag names a deletion that is still in force, and carries its time. */
  predicate RowProvenance(r: FileRow, boards: Boards, users: Users) {
    && (r.deletedBy.BoardCascade? ==> r.deletedAt.At? && r.deletedAt == BoardStamp(boards, r.board))
    && (r.deletedBy.UserCascade? ==> r.deletedAt.At? && r.deletedAt == OwnerStamp(boards, users, r.board))
  }

  predicate Provenance(files: Files, boards: Boards, users: Users) {
    forall i :: i in files ==> RowProvenance(files[i], boards, users)
  }

  predicate Sound(s: State) {
    && UsersSound(s.users, s.nextUser)
    && UniqueIds(s.users)
    && BoardsSound(s.boards, s.users, s.nextBoard)
    && FilesSound(s.files, s.boards, s.nextFile)
    && Provenance(s.files, s.boards, s.users)
  }

  // ---------- the tables one by one ----------

  lemma UserStepKeepsUsers(s: State, r: UserRequest)
    requires UsersSound(s.users, s.nextUser)
    ensures var t := UserStep(s, r).state; UsersSound(t.users, t.nextUser)
  {
  }

  lemma BoardStepKeepsUsers(s: State, r: BoardRequest)
    requires UsersSound(s.users, s.nextUser)
    ensures var t := BoardStep(s, r).state; UsersSound(t.users, t.nextUser)
  {
  }

  lemma FileStepKeepsUsers(s: State, r: FileRequest)
    requires UsersSound(s.users, s.nextUser)
    ensures var t := FileStep(s, r).state; UsersSound(t.users, t.nextUser)
  {
  }

  lemma SanctionStepKeepsUsers(s: State, r: SanctionRequest)
    requires UsersSound(s.users, s.nextUser)
    ensures var t := SanctionStep(s, r).state; UsersSound(t.users, t.nextUser)
  {
  }

  lemma RecoveryStepKeepsUsers(s: State, r: RecoveryRequest)
    requires UsersSound(s.users, s.nextUser)
    ensures var t := RecoveryStep(s, r).state; UsersSound(t.users, t.nextUser)
  {
  }

  lemma JobStepKeepsUsers(s: State, j: Job)
    requires UsersSound(s.users, s.nextUser)
    ensures var t := JobStep(s, j).state; UsersSound(t.users, t.nextUser)
  {
  }

  lemma UserStepKeepsIds(s: State, r: UserRequest)
    requires UsersSound(s.users, s.nextUser)
    requires UniqueIds(s.users)
    ensures var t := UserStep(s, r).state; UniqueIds(t.users)
  {
  }

  lemma BoardStepKeepsIds(s: State, r: BoardRequest)
    requires UsersSound(s.users, s.nextUser)
    requires UniqueIds(s.users)
    ensures var t := BoardStep(s, r).state; UniqueIds(t.users)
  {
  }

  lemma FileStepKeepsIds(s: State, r: FileRequest)
    requires UsersSound(s.users, s.nextUser)
    requires UniqueIds(s.users)
    ensures var t := FileStep(s, r).state; UniqueIds(t.users)
  {
  }

  lemma SanctionStepKeepsIds(s: State, r: SanctionRequest)
    requires UsersSound(s.users, s.nextUser)
    requires UniqueIds(s.users)
    ensures var t := SanctionStep(s, r).state; UniqueIds(t.users)
  {
  }

  lemma RecoveryStepKeepsIds(s: State, r: RecoveryRequest)
    requires UsersSound(s.users, s.nextUser)
    requires UniqueIds(s.users)
    ensures var t := RecoveryStep(s, r).state; UniqueIds(t.users)
  {
  }

  lemma JobStepKeepsIds(s: State, j: Job)
    requires UsersSound(s.users, s.nextUser)
    requires UniqueIds(s.users)
    ensures var t := JobStep(s, j).state; UniqueIds(t.users)
  {
  }

  lemma UserStepKeepsBoards(s: State, r: UserRequest)
    requires BoardsSound(s.boards, s.users, s.nextBoard)
    ensures var t := UserStep(s, r).state; BoardsSound(t.boards, t.users, t.nextBoard)
  {
  }

  lemma BoardStepKeepsBoards(s: State, r: BoardRequest)
    requires BoardsSound(s.boards, s.users, s.nextBoard)
    ensures var t := BoardStep(s, r).state; BoardsSound(t.boards, t.users, t.nextBoard)
  {
  }

  lemma FileStepKeepsBoards(s: State, r: FileRequest)
    requires BoardsSound(s.boards, s.users, s.nextBoard)
    ensures var t := FileStep(s, r).state; BoardsSound(t.boards, t.users, t.nextBoard)
  {
  }

  lemma SanctionStepKeepsBoards(s: State, r: SanctionRequest)
    requires BoardsSound(s.boards, s.users, s.nextBoard)
    ensures var t := SanctionStep(s, r).state; BoardsSound(t.boards, t.users, t.nextBoard)
  {
  }

  lemma RecoveryStepKeepsBoards(s: State, r: RecoveryRequest)
    requires BoardsSound(s.boards, s.users, s.nextBoard)
    ensures var t := RecoveryStep(s, r).state; BoardsSound(t.boards, t.users, t.nextBoard)
  {
  }

  lemma JobStepKeepsBoards(s: State, j: Job)
    requires BoardsSound(s.boards, s.users, s.nextBoard)
    ensures var t := JobStep(s, j).state; BoardsSound(t.boards, t.users, t.nextBoard)
  {
  }

  lemma UserStepKeepsFiles(s: State, r: UserRequest)
    requires FilesSound(s.files, s.boards, s.nextFile)
    ensures var t := UserStep(s, r).state; FilesSound(t.files, t.boards, t.nextFile)
  {
  }

  lemma BoardStepKeepsFiles(s: State, r: BoardRequest)
    requires FilesSound(s.files, s.boards, s.nextFile)
    ensures var t := BoardStep(s, r).state; FilesSound(t.files, t.boards, t.nextFile)
  {
  }

  lemma FileStepKeepsFiles(s: State, r: FileRequest)
    requires FilesSound(s.files, s.boards, s.nextFile)
    ensures var t := FileStep(s, r).state; FilesSound(t.files, t.boards, t.nextFile)
  {
  }

  lemma SanctionStepKeepsFiles(s: State, r: SanctionRequest)
    requires FilesSound(s.files, s.boards, s.nextFile)
    ensures var t := SanctionStep(s, r).state; FilesSound(t.files, t.boards, t.nextFile)
  {
  }

  lemma RecoveryStepKeepsFiles(s: State, r: RecoveryRequest)
    requires FilesSound(s.files, s.boards, s.nextFile)
    ensures var t := RecoveryStep(s, r).state; FilesSound(t.files, t.boards, t.nextFile)
  {
  }

  lemma JobStepKeepsFiles(s: State, j: Job)
    requires FilesSound(s.files, s.boards, s.nextFile)
    ensures var t := JobStep(s, j).state; FilesSound(t.files, t.boards, t.nextFile)
  {
  }

  // ---------- provenance ----------

  lemma SuspendProvenance(s: State, tag: Tag, u: nat)
    requires Provenance(s.files, s.boards, s.users)
    requires LoggedIn(s, u)
    ensures var t := UserServices.Suspend(s, tag, u);
            && Provenance(t.files, t.boards, t.users)
            && t.users[u].deletedAt == At(s.now)
            && (forall i :: i in s.files ==>
                  i in t.files &&
                  t.files[i] == (if OwnedBy(s.boards, s.files[i].board, u) && s.files[i].deletedAt.Never?
                                then s.files[i].(deletedAt := t.users[u].deletedAt, deletedBy := UserCascade)
                                else s.files[i]))
  {
  }

  /** Login ids are unique, so the restore by login id touches one account. */
  lemma RestoreByIdIsByKey(users: Users, u: nat)
    requires UniqueIds(users)
    requires u in users && users[u].deletedAt.At?
    ensures U.RestoreUserData(users, users[u].id) ==
            users[u := users[u].(deletedBy := Nobody, deletedAt := Never, status := Active, banCount := 0)]
  {
  }

  /** The window of the statement covers the window of the service, so no cascade tag is left behind. */
  lemma ReinstateUserProvenance(s: State, u: nat, window: int)
    requires Provenance(s.files, s.boards, s.users)
    requires UniqueIds(s.users)
    requires u in s.users && Within(s.users[u].deletedAt, window, s.now)
    ensures var t := UserServices.Reinstate(s, u, window); Provenance(t.files, t.boards, t.users)
  {
    RestoreByIdIsByKey(s.users, u);
  }

  // ---------- the same, if the two clocks differ ----------

  /**
   Let the service check the age of the account on its own clock, and the restore statement select on
   a database clock that is `skew` ahead.  Then a stale USER_CASCADE tag is left exactly if the
   account has such a file and its deletion is outside the statement's window.
   */
  lemma SkewedReturnKeepsProvenanceIff(s: State, u: nat, window: int, skew: int)
    requires Provenance(s.files, s.boards, s.users) && UniqueIds(s.users)
    requires u in s.users && s.users[u].deletedAt.At?
    ensures var users := U.RestoreUserData(s.users, s.users[u].id);
            var files := RestoreAllUserFiles(s.files, s.boards, u, window, s.now + skew);
            Provenance(files, s.boards, users) <==>
              Within(s.users[u].deletedAt, window, s.now + skew) ||
              forall i :: i in s.files && OwnedBy(s.boards, s.files[i].board, u) ==> !s.files[i].deletedBy.UserCascade?
  {
    var users := U.RestoreUserData(s.users, s.users[u].id);
    var files := RestoreAllUserFiles(s.files, s.boards, u, window, s.now + skew);
    RestoreByIdIsByKey(s.users, u);
    if i :| i in s.files && OwnedBy(s.boards, s.files[i].board, u) && s.files[i].deletedBy.UserCascade? {
      assert RowProvenance(s.files[i], s.boards, s.users);
      if !Within(s.users[u].deletedAt, window, s.now + skew) {
        assert !RowProvenance(files[i], s.boards, users);
      }
    }
  }

  /**
   The statement's window covers every age that the service accepts exactly for a skew up to the
   difference of the two: 23 days for the owner's 7 and 30, and none for the administrator's 90 and 90.
   */
  lemma SkewSlack(service: int, statement: int, now: int, skew: int)
    ensures (forall at: Stamp :: Within(at, service, now) ==> Within(at, statement, now + skew)) <==>
            skew <= statement - service
  {
    if skew > statement - service {
      assert Within(At(now - service), service, now);
    }
  }

  lemma DeleteBoardProvenance(s: State, tag: Tag, b: nat)
    requires Provenance(s.files, s.boards, s.users)
    requires BoardActive(s, b)
    ensures var files := SoftDeleteAllBoardFiles(s.files, BoardCascade, b, s.now);
            var boards := B.SoftDeleteBoard(s.boards, tag, b, s.now);
            && Provenance(files, boards, s.users)
            && boards[b].deletedAt == At(s.now)
            && (forall i :: i in s.files ==>
                  i in files &&
                  files[i] == (if s.files[i].board == b && s.files[i].deletedAt.Never?
                                then s.files[i].(deletedAt := boards[b].deletedAt, deletedBy := BoardCascade)
                                else s.files[i]))
  {
  }

  lemma ReinstateBoardProvenance(s: State, b: nat, window: int)
    requires Provenance(s.files, s.boards, s.users)
    requires b in s.boards && Within(s.boards[b].deletedAt, window, s.now)
    ensures var t := BoardServices.Reinstate(s, b, window); Provenance(t.files, t.boards, t.users)
  {
  }

  lemma HardDeleteUserProvenance(s: State, u: nat)
    requires Provenance(s.files, s.boards, s.users)
    requires u in s.users
    ensures Provenance(HardDeleteAllUserFiles(s.files, s.boards, u),
                       B.UpdateAllUserBoardsTotalFsize(s.boards, 0, u), U.HardDeleteUser(s.users, u, s.now))
  {
  }

  lemma UserStepKeepsProvenance(s: State, r: UserRequest)
    requires Provenance(s.files, s.boards, s.users)
    requires UsersSound(s.users, s.nextUser) && UniqueIds(s.users)
    ensures var t := UserStep(s, r).state; Provenance(t.files, t.boards, t.users)
  {
    match r
    case Register(_, _, _) =>
    case Rename(_, _, _) =>
    case Withdraw(caller, _) =>
      if LoggedIn(s, caller) {
        SuspendProvenance(s, ByUser, caller);
      }
    case RestoreAccount(u, _) =>
      if u in s.users && Within(s.users[u].deletedAt, DAYS_7, s.now) {
        ReinstateUserProvenance(s, u, DAYS_30);
      }
  }

  lemma BoardStepKeepsProvenance(s: State, r: BoardRequest)
    requires Provenance(s.files, s.boards, s.users) && BoardsSound(s.boards, s.users, s.nextBoard)
    ensures var t := BoardStep(s, r).state; Provenance(t.files, t.boards, t.users)
  {
    match r
    case CreateBoard(_) =>
    case DeleteBoard(_, _, b) =>
      if BoardActive(s, b) {
        DeleteBoardProvenance(s, ByUser, b);
      }
    case RestoreBoard(_, _, b) =>
      if b in s.boards && Within(s.boards[b].deletedAt, DAYS_7, s.now) {
        ReinstateBoardProvenance(s, b, DAYS_30);
      }
  }

  lemma FileStepKeepsProvenance(s: State, r: FileRequest)
    requires Provenance(s.files, s.boards, s.users)
    ensures var t := FileStep(s, r).state; Provenance(t.files, t.boards, t.users)
  {
  }

  lemma SanctionStepKeepsProvenance(s: State, r: SanctionRequest)
    requires Provenance(s.files, s.boards, s.users)
    ensures var t := SanctionStep(s, r).state; Provenance(t.files, t.boards, t.users)
  {
    match r
    case AdminDeleteUser(u, option) =>
      if option.Immediate? {
        if u in s.users {
          HardDeleteUserProvenance(s, u);
        }
      } else if LoggedIn(s, u) {
        SuspendProvenance(s, if option.Retain? then AdminRetain else AdminScheduled, u);
      }
    case AdminDeleteBoard(b, option) =>
      if !option.Immediate? && BoardActive(s, b) {
        DeleteBoardProvenance(s, if option.Retain? then AdminRetain else AdminScheduled, b);
      }
    case _ =>
  }

  lemma RecoveryStepKeepsProvenance(s: State, r: RecoveryRequest)
    requires Provenance(s.files, s.boards, s.users) && UniqueIds(s.users)
    ensures var t := RecoveryStep(s, r).state; Provenance(t.files, t.boards, t.users)
  {
    match r
    case AdminRestoreUser(u) =>
      if u in s.users && Within(s.users[u].deletedAt, DAYS_90, s.now) {
        ReinstateUserProvenance(s, u, DAYS_90);
      }
    case AdminRestoreBoard(b) =>
      if b in s.boards && Within(s.boards[b].deletedAt, DAYS_90, s.now) {
        ReinstateBoardProvenance(s, b, DAYS_90);
      }
    case _ =>
  }

  lemma JobStepKeepsProvenance(s: State, j: Job)
    requires Provenance(s.files, s.boards, s.users)
    ensures var t := JobStep(s, j).state; Provenance(t.files, t.boards, t.users)
  {
  }

  /** A refused or declined request leaves everything as it was. */
  lemma RejectionChangesNothing(s: State, op: Op)
    ensures Step(s, op).reply != Done ==> Step(s, op).state == s
  {
  }

  /** No request and no job, answered or refused, breaks the soundness of the tables. */
  lemma StepSound(s: State, op: Op)
    requires Sound(s)
    ensures Sound(Step(s, op).state)
  {
    match op
    case OfUser(r) =>
      UserStepKeepsUsers(s, r);
      UserStepKeepsIds(s, r);
      UserStepKeepsBoards(s, r);
      UserStepKeepsFiles(s, r);
      UserStepKeepsProvenance(s, r);
    case OfBoard(r) =>
      BoardStepKeepsUsers(s, r);
      BoardStepKeepsIds(s, r);
      BoardStepKeepsBoards(s, r);
      BoardStepKeepsFiles(s, r);
      BoardStepKeepsProvenance(s, r);
    case OfFile(r) =>
      FileStepKeepsUsers(s, r);
      FileStepKeepsIds(s, r);
      FileStepKeepsBoards(s, r);
      FileStepKeepsFiles(s, r);
      FileStepKeepsProvenance(s, r);
    case OfSanction(r) =>
      SanctionStepKeepsUsers(s, r);
      SanctionStepKeepsIds(s, r);
      SanctionStepKeepsBoards(s, r);
      SanctionStepKeepsFiles(s, r);
      SanctionStepKeepsProvenance(s, r);
    case OfRecovery(r) =>
      RecoveryStepKeepsUsers(s, r);
      RecoveryStepKeepsIds(s, r);
      RecoveryStepKeepsBoards(s, r);
      RecoveryStepKeepsFiles(s, r);
      RecoveryStepKeepsProvenance(s, r);
    case OfClock(j) =>
      JobStepKeepsUsers(s, j);
      JobStepKeepsIds(s, j);
      JobStepKeepsBoards(s, j);
      JobStepKeepsFiles(s, j);
      JobStepKeepsProvenance(s, j);
  }

  lemma {:induction false} RunSound(s: State, ops: seq<Op>)
    requires Sound(s)
    ensures Sound(Run(s, ops))
    decreases |ops|
  {
    if ops == [] {
    } else {
      StepSound(s, ops[0]);
      RunSound(Step(s, ops[0]).state, ops[1..]);
    }
  }
}
