/** The service as one state machine: every request and every scheduled job is a step. */
module Machine {
  import opened Tables
  import F = FileServices
  import B = BoardServices
  import U = UserServices
  import A = AdminServices

  datatype UserRequest =
    | Register(verified: bool, emailTaken: bool, name: string)
    | Rename(caller: nat, passwordOk: bool, name: string)
    | Withdraw(caller: nat, passwordOk: bool)
    | RestoreAccount(user: nat, passwordOk: bool)

  datatype BoardRequest =
    | CreateBoard(caller: nat)
    | DeleteBoard(caller: nat, passwordOk: bool, board: nat)
    | RestoreBoard(caller: nat, passwordOk: bool, board: nat)

  datatype FileRequest =
    | Upload(caller: nat, board: nat, size: nat, allowedType: bool, path: string)
    | DeleteFile(caller: nat, passwordOk: bool, file: nat)
    | DeleteAllFiles(caller: nat, passwordOk: bool, board: nat)
    | RestoreFile(caller: nat, passwordOk: bool, file: nat)
    | RestoreAllFiles(caller: nat, passwordOk: bool, board: nat)

  datatype SanctionRequest =
    | AdminBan(user: nat)
    | AdminUnban(user: nat)
    | AdminDeleteUser(user: nat, option: DeleteOption)
    | AdminDeleteBoard(board: nat, option: DeleteOption)
    | AdminDeleteFile(file: nat, fileOption: FileDeleteOption)
    | AdminDeleteAllFiles(board: nat, fileOption: FileDeleteOption)

  datatype RecoveryRequest =
    | AdminRestoreUser(user: nat)
    | AdminRestoreBoard(board: nat)
    | AdminRestoreFile(file: nat)
    | AdminRestoreAllFiles(board: nat)

  datatype Job =
    | Anonymise
    | PurgeUsers
    | PurgeBoards
    | SweepFiles(stuck: set<string>, lag: nat)
    | Tick(seconds: nat)

  datatype Op =
    | OfUser(user: UserRequest)
    | OfBoard(board: BoardRequest)
    | OfFile(file: FileRequest)
    | OfSanction(sanction: SanctionRequest)
    | OfRecovery(recovery: RecoveryRequest)
    | OfClock(job: Job)

  function UserStep(s: State, r: UserRequest): Outcome {
    match r
    case Register(verified, emailTaken, name) => U.Register(s, verified, emailTaken, name)
    case Rename(caller, passwordOk, name) => U.Rename(s, caller, passwordOk, name)
    case Withdraw(caller, passwordOk) => U.Withdraw(s, caller, passwordOk)
    case RestoreAccount(user, passwordOk) => U.RestoreAccount(s, user, passwordOk)
  }

  function BoardStep(s: State, r: BoardRequest): Outcome {
    match r
    case CreateBoard(caller) => B.CreateBoard(s, caller)
    case DeleteBoard(caller, passwordOk, board) => B.DeleteBoard(s, caller, passwordOk, board)
    case RestoreBoard(caller, passwordOk, board) => B.RestoreBoard(s, caller, passwordOk, board)
  }

  function FileStep(s: State, r: FileRequest): Outcome {
    match r
    case Upload(caller, board, size, allowedType, path) => F.Upload(s, caller, board, size, allowedType, path)
    case DeleteFile(caller, passwordOk, file) => F.DeleteFile(s, caller, passwordOk, file)
    case DeleteAllFiles(caller, passwordOk, board) => F.DeleteAllFiles(s, caller, passwordOk, board)
    case RestoreFile(caller, passwordOk, file) => F.RestoreFile(s, caller, passwordOk, file)
    case RestoreAllFiles(caller, passwordOk, board) => F.RestoreAllFiles(s, caller, passwordOk, board)
  }

  function SanctionStep(s: State, r: SanctionRequest): Outcome {
    match r
    case AdminBan(user) => A.Ban(s, user)
    case AdminUnban(user) => A.Unban(s, user)
    case AdminDeleteUser(user, option) => A.DeleteUser(s, user, option)
    case AdminDeleteBoard(board, option) => A.DeleteBoard(s, board, option)
    case AdminDeleteFile(file, option) => A.DeleteFile(s, file, option)
    case AdminDeleteAllFiles(board, option) => A.DeleteAllFiles(s, board, option)
  }

  function RecoveryStep(s: State, r: RecoveryRequest): Outcome {
    match r
    case AdminRestoreUser(user) => A.RestoreUser(s, user)
    case AdminRestoreBoard(board) => A.RestoreBoard(s, board)
    case AdminRestoreFile(file) => A.RestoreFile(s, file)
    case AdminRestoreAllFiles(board) => A.RestoreAllFiles(s, board)
  }

  function JobStep(s: State, j: Job): Outcome {
    match j
    case Anonymise => U.Anonymise(s)
    case PurgeUsers => U.PurgeUsers(s)
    case PurgeBoards => B.PurgeBoards(s)
    case SweepFiles(stuck, lag) => F.SweepFiles(s, stuck, lag)
    case Tick(seconds) => Commit(s.(now := s.now + seconds))
  }

  function Step(s: State, op: Op): Outcome {
    match op
    case OfUser(r) => UserStep(s, r)
    case OfBoard(r) => BoardStep(s, r)
    case OfFile(r) => FileStep(s, r)
    case OfSanction(r) => SanctionStep(s, r)
    case OfRecovery(r) => RecoveryStep(s, r)
    case OfClock(j) => JobStep(s, j)
  }

  function Run(s: State, ops: seq<Op>): State
    decreases |ops|
  {
    if ops == [] then s else Run(Step(s, ops[0]).state, ops[1..])
  }

  function Init(now: int): State {
    State(map[], map[], map[], 1, 1, 1, {}, now)
  }
}
