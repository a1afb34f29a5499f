/** The database connection, the upload directory and the clock that a service works on. */
module DatabaseAccess {
  import opened Tables

  class Database {
    var users: Users
    var boards: Boards
    var files: Files
    var nextUser: nat
    var nextBoard: nat
    var nextFile: nat
    var disk: set<string>
    var now: int

    constructor (start: int)
      ensures Snapshot() == State(map[], map[], map[], 1, 1, 1, {}, start)
    {
      users, boards, files := map[], map[], map[];
      nextUser, nextBoard, nextFile := 1, 1, 1;
      disk, now := {}, start;
    }

    function Snapshot(): State
      reads this
    {
      State(users, boards, files, nextUser, nextBoard, nextFile, disk, now)
    }
  }
}
