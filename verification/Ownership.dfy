/** A member's request reaches nothing of anybody else. */
module Ownership {
  import opened Tables
  import opened FilesTable
  import opened Machine
  import opened Soundness
  import BoardsTable

  /** The account a request acts for. */
  function Actor(op: Op): nat
    requires op.OfUser? || op.OfBoard? || op.OfFile?
    requires !(op.OfUser? && op.user.Register?)
  {
    match op
    case OfUser(RestoreAccount(u, _)) => u
    case OfUser(Rename(caller, _, _)) => caller
    case OfUser(Withdraw(caller, _)) => caller
    case OfBoard(r) => r.caller
    case OfFile(r) => r.caller
  }

  /** Other accounts, their boards and the files on them are as before; what is new belongs to u. */
  predicate Elsewhere(s: State, t: State, u: nat) {
    && (forall v :: v in s.users && v != u ==> v in t.users && t.users[v] == s.users[v])
    && (forall b :: b in s.boards && s.boards[b].owner != u ==> b in t.boards && t.boards[b] == s.boards[b])
    && (forall b :: b in t.boards && b !in s.boards ==> t.boards[b].owner == u)
    && (forall i :: i in s.files && !OwnedBy(s.boards, s.files[i].board, u) ==> i in t.files && t.files[i] == s.files[i])
    && (forall i :: i in t.files && i !in s.files ==> OwnedBy(t.boards, t.files[i].board, u))
  }

  lemma ReturnOfAccountStaysHome(s: State, r: UserRequest)
    requires UniqueIds(s.users) && r.RestoreAccount?
    ensures Elsewhere(s, UserStep(s, r).state, Actor(OfUser(r)))
  {
    if r.user in s.users && s.users[r.user].deletedAt.At? {
      RestoreByIdIsByKey(s.users, r.user);
    }
  }

  lemma UserRequestStaysHome(s: State, r: UserRequest)
    requires UniqueIds(s.users) && !r.Register?
    ensures Elsewhere(s, UserStep(s, r).state, Actor(OfUser(r)))
  {
    if r.RestoreAccount? {
      ReturnOfAccountStaysHome(s, r);
    }
  }

  lemma BoardRequestStaysHome(s: State, r: BoardRequest)
    requires forall b :: b in s.boards ==> b < s.nextBoard
    ensures Elsewhere(s, BoardStep(s, r).state, Actor(OfBoard(r)))
  {
  }

  lemma UploadStaysHome(s: State, r: FileRequest)
    requires r.Upload?
    requires forall i :: i in s.files ==> i < s.nextFile
    ensures Elsewhere(s, FileStep(s, r).state, Actor(OfFile(r)))
  {
  }

  lemma DeleteFileStaysHome(s: State, r: FileRequest)
    requires r.DeleteFile?
    ensures Elsewhere(s, FileStep(s, r).state, Actor(OfFile(r)))
  {
  }

  lemma DeleteAllFilesStaysHome(s: State, r: FileRequest)
    requires r.DeleteAllFiles?
    ensures Elsewhere(s, FileStep(s, r).state, Actor(OfFile(r)))
  {
  }

  /** What a statement does to files of a board of u, recount included. */
  lemma RecountStaysHome(s: State, files: Files, b: nat, u: nat)
    requires OwnedBy(s.boards, b, u) && files.Keys == s.files.Keys
    requires forall i :: i in s.files && files[i] != s.files[i] ==> s.files[i].board == b
    ensures Elsewhere(s, BoardsTable.Recount(s.(files := files), b), u)
  {
  }

  lemma RestoreFileStaysHome(s: State, r: FileRequest)
    requires r.RestoreFile?
    ensures Elsewhere(s, FileStep(s, r).state, Actor(OfFile(r)))
  {
    if FileStep(s, r).reply == Done {
      RecountStaysHome(s, RestoreOneFile(s.files, r.file), s.files[r.file].board, r.caller);
    }
  }

  lemma RestoreAllFilesStaysHome(s: State, r: FileRequest)
    requires r.RestoreAllFiles?
    ensures Elsewhere(s, FileStep(s, r).state, Actor(OfFile(r)))
  {
    if FileStep(s, r).reply == Done {
      RecountStaysHome(s, UserRestoreAllRestorableFiles(s.files, r.board, s.now), r.board, r.caller);
    }
  }

  lemma FileRequestStaysHome(s: State, r: FileRequest)
    requires forall i :: i in s.files ==> i < s.nextFile
    ensures Elsewhere(s, FileStep(s, r).state, Actor(OfFile(r)))
  {
    match r
    case Upload(_, _, _, _, _) => UploadStaysHome(s, r);
    case DeleteFile(_, _, _) => DeleteFileStaysHome(s, r);
    case DeleteAllFiles(_, _, _) => DeleteAllFilesStaysHome(s, r);
    case RestoreFile(_, _, _) => RestoreFileStaysHome(s, r);
    case RestoreAllFiles(_, _, _) => RestoreAllFilesStaysHome(s, r);
  }

  /**
   Served or not, a member's request leaves other members' rows alone; and it is served only for an
   account in use, except the request to restore the account itself.
   */
  lemma MemberRequestsStayHome(s: State, op: Op)
    requires Sound(s)
    requires op.OfUser? || op.OfBoard? || op.OfFile?
    requires !(op.OfUser? && op.user.Register?)
    ensures Elsewhere(s, Step(s, op).state, Actor(op))
    ensures Step(s, op).reply == Done ==> (LoggedIn(s, Actor(op)) <==> !(op.OfUser? && op.user.RestoreAccount?))
  {
    match op
    case OfUser(r) => UserRequestStaysHome(s, r);
    case OfBoard(r) =>
      assert forall b :: b in s.boards ==> BoardSound(s.boards[b], b, s.users, s.nextBoard);
      BoardRequestStaysHome(s, r);
    case OfFile(r) =>
      assert forall i :: i in s.files ==> FileSound(s.files[i], i, s.boards, s.nextFile);
      FileRequestStaysHome(s, r);
  }

  // ---------- what an owner may take back, and what an administrator decided ----------

  predicate AdminDecided(tag: Tag) {
    tag.AdminScheduled? || tag.AdminRetain? || tag.AdminImmediate?
  }

  /**
   File i is away because an administrator deleted it, or it went by cascade with a board or an
   account that an administrator deleted.
   */
  predicate Held(s: State, i: nat)
    requires i in s.files
  {
    var r := s.files[i];
    || AdminDecided(r.deletedBy)
    || (r.deletedBy.BoardCascade? && r.board in s.boards && AdminDecided(s.boards[r.board].deletedBy))
    || (r.deletedBy.UserCascade? && r.board in s.boards && s.boards[r.board].owner in s.users &&
        AdminDecided(s.users[s.boards[r.board].owner].deletedBy))
  }

  predicate FilesStand(s: State, t: State) {
    forall i :: i in s.files && Held(s, i) ==> i in t.files && t.files[i] == s.files[i]
  }

  predicate BoardsStand(s: State, t: State) {
    && (forall b :: b in s.boards ==> b in t.boards && t.boards[b].owner == s.boards[b].owner)
    && (forall b :: b in s.boards && AdminDecided(s.boards[b].deletedBy) ==>
          t.boards[b].deletedAt == s.boards[b].deletedAt && t.boards[b].deletedBy == s.boards[b].deletedBy)
  }

  predicate UsersStand(s: State, t: State) {
    forall u :: u in s.users && AdminDecided(s.users[u].deletedBy) ==> u in t.users && t.users[u] == s.users[u]
  }

  /** What an administrator deleted, directly or by cascade, is as the administrator left it. */
  predicate AdminDecisionsStand(s: State, t: State) {
    FilesStand(s, t) && BoardsStand(s, t) && UsersStand(s, t)
  }

  /** A deletion time is set exactly where a deletion tag is. */
  predicate UserColumns(s: State) {
    forall u :: u in s.users ==> u < s.nextUser && (s.users[u].deletedAt.Never? <==> s.users[u].deletedBy.Nobody?)
  }

  predicate BoardColumns(s: State) {
    forall b :: b in s.boards ==> b < s.nextBoard && (s.boards[b].deletedAt.Never? <==> s.boards[b].deletedBy.Nobody?)
  }

  predicate FileColumns(s: State) {
    forall i :: i in s.files ==> i < s.nextFile && (s.files[i].deletedAt.Never? <==> s.files[i].deletedBy.Nobody?)
  }

  predicate Columns(s: State) {
    UserColumns(s) && BoardColumns(s) && FileColumns(s)
  }

  lemma ReturnOfAccountCannotOverrule(s: State, r: UserRequest)
    requires Columns(s) && UniqueIds(s.users) && r.RestoreAccount?
    ensures AdminDecisionsStand(s, UserStep(s, r).state)
  {
    if r.user in s.users && s.users[r.user].deletedAt.At? {
      RestoreByIdIsByKey(s.users, r.user);
    }
  }

  lemma UserRequestCannotOverrule(s: State, r: UserRequest)
    requires Columns(s) && UniqueIds(s.users)
    ensures AdminDecisionsStand(s, UserStep(s, r).state)
  {
    if r.RestoreAccount? {
      ReturnOfAccountCannotOverrule(s, r);
    }
  }

  lemma CreateBoardCannotOverrule(s: State, r: BoardRequest)
    requires r.CreateBoard?
    requires Columns(s)
    ensures AdminDecisionsStand(s, BoardStep(s, r).state)
  {
  }

  lemma DeleteBoardCannotOverrule(s: State, r: BoardRequest)
    requires r.DeleteBoard?
    requires Columns(s)
    ensures AdminDecisionsStand(s, BoardStep(s, r).state)
  {
  }

  lemma RestoreBoardCannotOverrule(s: State, r: BoardRequest)
    requires r.RestoreBoard?
    requires Columns(s)
    ensures AdminDecisionsStand(s, BoardStep(s, r).state)
  {
  }

  lemma UploadCannotOverrule(s: State, r: FileRequest)
    requires r.Upload?
    requires Columns(s)
    ensures AdminDecisionsStand(s, FileStep(s, r).state)
  {
  }

  lemma DeleteFileCannotOverrule(s: State, r: FileRequest)
    requires r.DeleteFile?
    requires FileColumns(s)
    ensures AdminDecisionsStand(s, FileStep(s, r).state)
  {
  }

  lemma DeleteAllFilesCannotOverrule(s: State, r: FileRequest)
    requires r.DeleteAllFiles?
    requires FileColumns(s)
    ensures AdminDecisionsStand(s, FileStep(s, r).state)
  {
  }

  lemma RestoreFileCannotOverrule(s: State, r: FileRequest)
    requires r.RestoreFile?
    requires FileColumns(s)
    ensures AdminDecisionsStand(s, FileStep(s, r).state)
  {
  }

  lemma RestoreAllFilesCannotOverrule(s: State, r: FileRequest)
    requires r.RestoreAllFiles?
    requires FileColumns(s)
    ensures AdminDecisionsStand(s, FileStep(s, r).state)
  {
  }

  predicate OfMember(op: Op) {
    op.OfUser? || op.OfBoard? || op.OfFile?
  }

  /** No member's request undoes or redoes what an administrator deleted. */
  lemma MembersCannotOverrule(s: State, op: Op)
    requires Sound(s) && OfMember(op)
    ensures AdminDecisionsStand(s, Step(s, op).state)
  {
    SoundColumns(s);
    match op
    case OfUser(r) => UserRequestCannotOverrule(s, r);
    case OfBoard(CreateBoard(_)) => CreateBoardCannotOverrule(s, op.board);
    case OfBoard(DeleteBoard(_, _, _)) => DeleteBoardCannotOverrule(s, op.board);
    case OfBoard(RestoreBoard(_, _, _)) => RestoreBoardCannotOverrule(s, op.board);
    case OfFile(Upload(_, _, _, _, _)) => UploadCannotOverrule(s, op.file);
    case OfFile(DeleteFile(_, _, _)) => DeleteFileCannotOverrule(s, op.file);
    case OfFile(DeleteAllFiles(_, _, _)) => DeleteAllFilesCannotOverrule(s, op.file);
    case OfFile(RestoreFile(_, _, _)) => RestoreFileCannotOverrule(s, op.file);
    case OfFile(RestoreAllFiles(_, _, _)) => RestoreAllFilesCannotOverrule(s, op.file);
  }

  lemma SoundColumns(s: State)
    requires Sound(s)
    ensures Columns(s)
  {
    assert forall u :: u in s.users ==> UserSound(s.users[u], u, s.nextUser);
    assert forall b :: b in s.boards ==> BoardSound(s.boards[b], b, s.users, s.nextBoard);
    assert forall i :: i in s.files ==> FileSound(s.files[i], i, s.boards, s.nextFile);
  }

  /** What stands stays held, so it stands through one request after another. */
  lemma DecisionsStandOn(s: State, t: State, w: State)
    requires AdminDecisionsStand(s, t) && AdminDecisionsStand(t, w)
    ensures AdminDecisionsStand(s, w)
  {
    forall i | i in s.files && Held(s, i) ensures i in w.files && w.files[i] == s.files[i] {
      assert Held(t, i);
    }
  }

  /** Nor does any run of members' requests, by whomever. */
  lemma {:induction false} MemberRunCannotOverrule(s: State, ops: seq<Op>)
    requires Sound(s) && forall k :: 0 <= k < |ops| ==> OfMember(ops[k])
    ensures AdminDecisionsStand(s, Run(s, ops))
    decreases |ops|
  {
    if ops == [] {
    } else {
      var t := Step(s, ops[0]).state;
      StepSound(s, ops[0]);
      MembersCannotOverrule(s, ops[0]);
      MemberRunCannotOverrule(t, ops[1..]);
      DecisionsStandOn(s, t, Run(s, ops));
    }
  }
}
