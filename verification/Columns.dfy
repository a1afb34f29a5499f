/**
 The words in which requests and jobs are described from outside: columns, seconds and bytes, with
 no reference to the statements and guards of the services.
 */
module Columns {
  import opened Tables
  import opened FilesTable

  // ---------- rows ----------

  predicate UserUp(s: State, u: nat) {
    u in s.users && s.users[u].deletedAt == Never
  }

  predicate BoardUp(s: State, b: nat) {
    b in s.boards && s.boards[b].deletedAt == Never
  }

  predicate BoardDown(s: State, b: nat) {
    b in s.boards && s.boards[b].deletedAt != Never
  }

  predicate BoardOf(s: State, b: nat, u: nat) {
    b in s.boards && s.boards[b].owner == u
  }

  /** File i lies on a board in use. */
  predicate FileOnBoardUp(s: State, i: nat) {
    i in s.files && BoardUp(s, s.files[i].board)
  }

  predicate FileOf(s: State, i: nat, u: nat) {
    i in s.files && BoardOf(s, s.files[i].board, u)
  }

  predicate FileUp(s: State, i: nat) {
    i in s.files && s.files[i].deletedAt == Never
  }

  predicate FileDown(s: State, i: nat) {
    i in s.files && s.files[i].deletedAt != Never
  }

  /** Deleted no longer ago than this. */
  predicate Recent(at: Stamp, seconds: int, now: int) {
    match at
    case Never => false
    case At(time) => now - time <= seconds
  }

  /** Deleted at least this long ago. */
  predicate Old(at: Stamp, seconds: int, now: int) {
    match at
    case Never => false
    case At(time) => now - time >= seconds
  }

  predicate IdInUse(s: State, name: string) {
    exists u :: u in s.users && s.users[u].id == Chosen(name)
  }

  // ---------- answers ----------

  /** The checks of a request in their order: the first that fails gives the status. */
  function Require(ok: bool, code: nat, rest: Reply): Reply {
    if ok then rest else Error(code)
  }

  // ---------- changes ----------

  /** The files in `hit` get these deletion columns; every other row is as it was. */
  predicate Rewritten(before: Files, after: Files, hit: set<nat>, at: Stamp, tag: Tag) {
    && after.Keys == before.Keys
    && forall i :: i in before ==>
         after[i] == if i in hit then before[i].(deletedAt := at, deletedBy := tag) else before[i]
  }

  /** The files in `hit` are gone; every other row is as it was. */
  predicate Removed(before: Files, after: Files, hit: set<nat>) {
    && after.Keys == before.Keys - hit
    && forall i :: i in after ==> after[i] == before[i]
  }

  /** Board b gets this total and nothing else changes. */
  predicate TotalWritten(before: Boards, after: Boards, b: nat, total: nat)
    requires b in before
  {
    after == before[b := before[b].(total := total)]
  }

  /** The boards of u in use get total 0 and nothing else changes. */
  predicate TotalsZeroed(before: Boards, after: Boards, u: nat) {
    && after.Keys == before.Keys
    && forall b :: b in before ==>
         after[b] == if before[b].owner == u && before[b].deletedAt == Never then before[b].(total := 0) else before[b]
  }

  function ActiveFilesOn(s: State, b: nat): set<nat> {
    set i | i in s.files && s.files[i].board == b && s.files[i].deletedAt == Never
  }

  function ActiveFilesOf(s: State, u: nat): set<nat> {
    set i | i in s.files && BoardOf(s, s.files[i].board, u) && s.files[i].deletedAt == Never
  }

  function FilesOn(s: State, b: nat): set<nat> {
    set i | i in s.files && s.files[i].board == b
  }

  function FilesOf(s: State, u: nat): set<nat> {
    set i | i in s.files && BoardOf(s, s.files[i].board, u)
  }

  // ---------- bytes ----------

  /** The sizes of the files below key n that meet a condition. */
  function SizeOf(files: Files, meets: FileRow -> bool, n: nat): nat {
    if n == 0 then 0
    else SizeOf(files, meets, n - 1) + (if n - 1 in files && meets(files[n - 1]) then files[n - 1].size else 0)
  }

  function IsActive(b: nat): FileRow -> bool {
    (r: FileRow) => r.board == b && r.deletedAt == Never
  }

  function IsDeleted(b: nat, seconds: int, now: int): FileRow -> bool {
    (r: FileRow) => r.board == b && Recent(r.deletedAt, seconds, now)
  }

  function IsOwnerDeleted(b: nat, seconds: int, now: int): FileRow -> bool {
    (r: FileRow) => r.board == b && r.deletedBy == ByUser && Recent(r.deletedAt, seconds, now)
  }

  function IsActiveOrCascaded(b: nat): FileRow -> bool {
    (r: FileRow) => r.board == b && (r.deletedAt == Never || r.deletedBy == UserCascade)
  }

  function ActiveSize(s: State, b: nat): nat {
    SizeOf(s.files, IsActive(b), s.nextFile)
  }

  function DeletedSize(s: State, b: nat, seconds: int): nat {
    SizeOf(s.files, IsDeleted(b, seconds, s.now), s.nextFile)
  }

  function OwnerDeletedSize(s: State, b: nat, seconds: int): nat {
    SizeOf(s.files, IsOwnerDeleted(b, seconds, s.now), s.nextFile)
  }

  function ActiveOrCascadedSize(s: State, b: nat): nat {
    SizeOf(s.files, IsActiveOrCascaded(b), s.nextFile)
  }

  lemma {:induction false} SizeIsSum(q: Query, meets: FileRow -> bool, n: nat)
    requires forall i :: i in q.files ==> (Selects(q.where, q.files[i], q.now) <==> meets(q.files[i]))
    ensures Sum(q, n) == SizeOf(q.files, meets, n)
  {
    if n == 0 {
    } else {
      SizeIsSum(q, meets, n - 1);
    }
  }

  /** The sums of the statements are the sizes of what they are meant to select. */
  lemma SumsAreSizes(s: State, b: nat, seconds: int)
    ensures ActiveBytes(s, b) == ActiveSize(s, b)
    ensures Bytes(s, DeletedOn(b, seconds)) == DeletedSize(s, b, seconds)
    ensures Bytes(s, UserDeletedOn(b, seconds)) == OwnerDeletedSize(s, b, seconds)
    ensures Bytes(s, ActiveOrUserCascadeOn(b)) == ActiveOrCascadedSize(s, b)
  {
    SizeIsSum(Query(s.files, ActiveOn(b), s.now), IsActive(b), s.nextFile);
    SizeIsSum(Query(s.files, DeletedOn(b, seconds), s.now), IsDeleted(b, seconds, s.now), s.nextFile);
    SizeIsSum(Query(s.files, UserDeletedOn(b, seconds), s.now), IsOwnerDeleted(b, seconds, s.now), s.nextFile);
    SizeIsSum(Query(s.files, ActiveOrUserCascadeOn(b), s.now), IsActiveOrCascaded(b), s.nextFile);
  }
}
