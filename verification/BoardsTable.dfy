/** The statements of app/models/boards.py that change the boards table. */
module BoardsTable {
  import opened Tables
  import opened FilesTable

  function SoftDeleteBoard(boards: Boards, tag: Tag, b: nat, now: int): Boards {
    if b in boards then boards[b := boards[b].(deletedAt := At(now), deletedBy := tag)] else boards
  }

  function RestoreBoard(boards: Boards, b: nat): Boards {
    if b in boards then boards[b := boards[b].(deletedAt := Never, deletedBy := Nobody)] else boards
  }

  /** The boards that the scheduled `delete_boards` removes. */
  predicate BoardPurgeDue(r: BoardRow, now: int) {
    r.deletedBy.AdminScheduled? && Expired(r.deletedAt, DAYS_100, now)
  }

  function DeleteBoards(boards: Boards, now: int): Boards {
    map b | b in boards && !BoardPurgeDue(boards[b], now) :: boards[b]
  }

  /** ON DELETE CASCADE on `files.board_index`. */
  function CascadeToFiles(files: Files, boards: Boards): Files {
    map i | i in files && files[i].board in boards :: files[i]
  }

  function UpdateTotalBoardFsize(boards: Boards, total: nat, b: nat): Boards {
    if b in boards then boards[b := boards[b].(total := total)] else boards
  }

  function UpdateAllUserBoardsTotalFsize(boards: Boards, total: nat, u: nat): Boards {
    map b | b in boards ::
      if boards[b].owner == u && boards[b].deletedAt.Never? then boards[b].(total := total) else boards[b]
  }

  function RecalculateAllUserBoardsTotalFsize(s: State, u: nat): Boards {
    map b | b in s.boards ::
      if s.boards[b].owner == u then s.boards[b].(total := ActiveBytes(s, b)) else s.boards[b]
  }

  /** The pair `get_total_fsize`, `update_total_board_fsize` that ends most transactions. */
  function Recount(s: State, b: nat): State {
    s.(boards := UpdateTotalBoardFsize(s.boards, ActiveBytes(s, b), b))
  }
}
