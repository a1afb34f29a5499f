/** The statements of app/models/files.py, as functions on the files table. */
module FilesTable {
  import opened Tables

  /** The WHERE clauses under a `SUM(file_size)`; `ReservedOn` is the one clause of our own. */
  datatype Where =
    | ActiveOn(board: nat)
    | DeletedOn(board: nat, window: int)
    | UserDeletedOn(board: nat, window: int)
    | UserDeletedBetween(board: nat, newer: int, older: int)
    | ActiveOrUserCascadeOn(board: nat)
    | ReservedOn(board: nat)

  predicate IsCascade(r: FileRow) {
    r.deletedBy.BoardCascade? || r.deletedBy.UserCascade?
  }

  /**
   `ReservedOn(b)` selects the active files of board b and those that a cascade deleted at most
   90 days ago: the bytes that some restore can bring back without looking at the quota.
   */
  predicate Selects(w: Where, r: FileRow, now: int) {
    r.board == w.board &&
    match w
    case ActiveOn(_) => r.deletedAt.Never?
    case DeletedOn(_, window) => Within(r.deletedAt, window, now)
    case UserDeletedOn(_, window) => r.deletedBy.ByUser? && Within(r.deletedAt, window, now)
    case UserDeletedBetween(_, newer, older) =>
      r.deletedBy.ByUser? && Within(r.deletedAt, older, now) && !Within(r.deletedAt, newer, now)
    case ActiveOrUserCascadeOn(_) => r.deletedAt.Never? || r.deletedBy.UserCascade?
    case ReservedOn(_) => r.deletedAt.Never? || (IsCascade(r) && Within(r.deletedAt, DAYS_90, now))
  }

  datatype Query = Query(files: Files, where: Where, now: int)

  /** What row i adds to the sum of a query. */
  function Part(q: Query, i: nat): nat {
    if i in q.files && Selects(q.where, q.files[i], q.now) then q.files[i].size else 0
  }

  /** `COALESCE(SUM(file_size), 0)` over the rows whose key is below n. */
  function Sum(q: Query, n: nat): nat {
    if n == 0 then 0 else Sum(q, n - 1) + Part(q, n - 1)
  }

  function Bytes(s: State, w: Where): nat {
    Sum(Query(s.files, w, s.now), s.nextFile)
  }

  /** Some row is selected, so that the SUM is not NULL. */
  predicate Any(s: State, w: Where) {
    exists i :: i in s.files && Selects(w, s.files[i], s.now)
  }

  function ActiveBytes(s: State, b: nat): nat {
    Bytes(s, ActiveOn(b))
  }

  // ---------- delete ----------

  function Mark(r: FileRow, tag: Tag, now: int): FileRow {
    r.(deletedAt := At(now), deletedBy := tag)
  }

  function Clear(r: FileRow): FileRow {
    r.(deletedAt := Never, deletedBy := Nobody)
  }

  function SoftDeleteOneFile(files: Files, tag: Tag, i: nat, now: int): Files {
    if i in files then files[i := Mark(files[i], tag, now)] else files
  }

  function SoftDeleteAllBoardFiles(files: Files, tag: Tag, b: nat, now: int): Files {
    map i | i in files ::
      if files[i].board == b && files[i].deletedAt.Never? then Mark(files[i], tag, now) else files[i]
  }

  function SoftDeleteAllUserFiles(files: Files, boards: Boards, tag: Tag, u: nat, now: int): Files {
    map i | i in files ::
      if OwnedBy(boards, files[i].board, u) && files[i].deletedAt.Never? then Mark(files[i], tag, now)
      else files[i]
  }

  /** The purge predicate shared by `delete_files` and `get_delete_file_path`. */
  predicate PurgeDue(r: FileRow, now: int) {
    r.deletedAt.At? &&
    (((r.deletedBy.ByUser? || r.deletedBy.UserCascade? || r.deletedBy.BoardCascade?) && Expired(r.deletedAt, DAYS_30, now)) ||
     ((r.deletedBy.AdminScheduled? || r.deletedBy.AdminRetain?) && Expired(r.deletedAt, DAYS_100, now)))
  }

  function DeleteFiles(files: Files, now: int): Files {
    map i | i in files && !PurgeDue(files[i], now) :: files[i]
  }

  function GetDeleteFilePath(files: Files, now: int): set<string> {
    set i | i in files && PurgeDue(files[i], now) :: files[i].path
  }

  function HardDeleteOneFile(files: Files, i: nat): Files {
    files - {i}
  }

  function HardDeleteAllBoardFiles(files: Files, b: nat): Files {
    map i | i in files && files[i].board != b :: files[i]
  }

  function HardDeleteAllUserFiles(files: Files, boards: Boards, u: nat): Files {
    map i | i in files && !OwnedBy(boards, files[i].board, u) :: files[i]
  }

  // ---------- restore ----------

  function RestoreOneFile(files: Files, i: nat): Files {
    if i in files then files[i := Clear(files[i])] else files
  }

  function RestoreAllUserFiles(files: Files, boards: Boards, u: nat, window: int, now: int): Files {
    map i | i in files ::
      if OwnedBy(boards, files[i].board, u) && files[i].deletedBy.UserCascade? &&
         Within(files[i].deletedAt, window, now)
      then Clear(files[i]) else files[i]
  }

  function AdminRestoreAllRestorableFiles(files: Files, b: nat, now: int): Files {
    map i | i in files ::
      if Selects(DeletedOn(b, DAYS_90), files[i], now) then Clear(files[i]) else files[i]
  }

  function UserRestoreAllRestorableFiles(files: Files, b: nat, now: int): Files {
    map i | i in files ::
      if Selects(UserDeletedOn(b, DAYS_30), files[i], now) then Clear(files[i]) else files[i]
  }

  function RestoreCascadeBoardFiles(files: Files, b: nat, window: int, now: int): Files {
    map i | i in files ::
      if files[i].board == b && files[i].deletedBy.BoardCascade? && Within(files[i].deletedAt, window, now)
      then Clear(files[i]) else files[i]
  }

  // ---------- reasoning about sums ----------

  lemma {:induction false} SumLe(q: Query, r: Query, n: nat)
    requires forall i: nat :: i < n ==> Part(q, i) <= Part(r, i)
    ensures Sum(q, n) <= Sum(r, n)
  {
    if n == 0 {
    } else {
      SumLe(q, r, n - 1);
    }
  }

  lemma {:induction false} SumEq(q: Query, r: Query, n: nat)
    requires forall i: nat :: i < n ==> Part(q, i) == Part(r, i)
    ensures Sum(q, n) == Sum(r, n)
  {
    if n == 0 {
    } else {
      SumEq(q, r, n - 1);
    }
  }

  lemma {:induction false} SumAdd(q: Query, r: Query, t: Query, n: nat)
    requires forall i: nat :: i < n ==> Part(q, i) == Part(r, i) + Part(t, i)
    ensures Sum(q, n) == Sum(r, n) + Sum(t, n)
  {
    if n == 0 {
    } else {
      SumAdd(q, r, t, n - 1);
    }
  }

  lemma {:induction false} SumZero(q: Query, n: nat)
    requires forall i: nat :: i < n ==> Part(q, i) == 0
    ensures Sum(q, n) == 0
  {
    if n == 0 {
    } else {
      SumZero(q, n - 1);
    }
  }

  /** Two queries that differ in one row only have sums that differ by what that row adds. */
  lemma {:induction false} SumPoint(q: Query, r: Query, k: nat, n: nat)
    requires k < n
    requires forall i: nat :: i < n && i != k ==> Part(q, i) == Part(r, i)
    ensures Sum(r, n) == Sum(q, n) - Part(q, k) + Part(r, k)
  {
    if k == n - 1 {
      SumEq(q, r, n - 1);
    } else {
      SumPoint(q, r, k, n - 1);
    }
  }

  /** A row is never larger than the sum it is part of. */
  lemma {:induction false} SumHas(q: Query, k: nat, n: nat)
    requires k < n
    ensures Part(q, k) <= Sum(q, n)
  {
    if k < n - 1 {
      SumHas(q, k, n - 1);
    }
  }
}
