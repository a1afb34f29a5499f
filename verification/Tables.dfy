/**
 The three tables of the database, the upload directory and the clock.

 A row keeps the columns that some service reads before deciding something.  A table is a map
 from its serial primary key to its rows; `nextUser`, `nextBoard` and `nextFile` are the
 identity sequences behind those keys.  Times are seconds on one clock.
 */
module Tables {

  /** A nullable timestamp column; `Never` is NULL. */
  datatype Stamp = Never | At(time: int)

  /** A `deleted_by` column: NULL, written `Nobody`, or one of the values the services write. */
  datatype Tag = Nobody | ByUser | UserCascade | BoardCascade | AdminScheduled | AdminRetain | AdminImmediate

  datatype Status = Active | Banned | Withdrawn

  /** A login id is the one its owner chose, or the one the anonymiser wrote over it. */
  datatype LoginId = Chosen(name: string) | Anonymous(user: nat, epoch: int)

  datatype UserRow = UserRow(id: LoginId, status: Status, banCount: nat, banEndAt: Stamp,
                             deletedAt: Stamp, deletedBy: Tag)

  datatype BoardRow = BoardRow(owner: nat, total: nat, deletedAt: Stamp, deletedBy: Tag)

  datatype FileRow = FileRow(board: nat, size: nat, path: string,
                             deletedAt: Stamp, deletedBy: Tag)

  type Users = map<nat, UserRow>
  type Boards = map<nat, BoardRow>
  type Files = map<nat, FileRow>

  datatype State = State(users: Users, boards: Boards, files: Files,
                         nextUser: nat, nextBoard: nat, nextFile: nat,
                         disk: set<string>, now: int)

  /** What a request is answered: success, `success=False`, or an HTTP error status. */
  datatype Reply = Done | Declined | Error(code: nat)

  datatype Outcome = Outcome(state: State, reply: Reply)

  datatype DeleteOption = Scheduled | Retain | Immediate
  datatype FileDeleteOption = FileScheduled | FileImmediate

  const FILE_MAX_SIZE: nat := 5242880
  const FILE_TOTAL_MAX_SIZE: nat := 26214400

  const DAY: int := 86400
  const DAYS_7: int := 604800
  const DAYS_30: int := 2592000
  const DAYS_90: int := 7776000
  const DAYS_100: int := 8640000

  /** `at >= NOW() - window`, the negation of the services' `now - at > window`. */
  predicate Within(at: Stamp, window: int, now: int) {
    at.At? && at.time >= now - window
  }

  /** `at <= NOW() - window`, the comparison of the scheduled jobs. */
  predicate Expired(at: Stamp, window: int, now: int) {
    at.At? && at.time <= now - window
  }

  function Refuse(s: State, code: nat): Outcome {
    Outcome(s, Error(code))
  }

  function Commit(s: State): Outcome {
    Outcome(s, Done)
  }

  /** The request carries the token of an account that is not deleted. */
  predicate LoggedIn(s: State, caller: nat) {
    caller in s.users && s.users[caller].deletedAt.Never?
  }

  predicate BoardActive(s: State, b: nat) {
    b in s.boards && s.boards[b].deletedAt.Never?
  }

  predicate OwnedBy(boards: Boards, b: nat, u: nat) {
    b in boards && boards[b].owner == u
  }
}
