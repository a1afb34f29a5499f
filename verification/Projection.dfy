/** The cached totals are written by the services and read by none of them. */
module Projection {
  import opened Tables
  import opened Machine
  import FileServices
  import UserServices
  import AdminServices

  /** The two states differ at most in `total_file_size`. */
  predicate SameButTotals(s: State, t: State) {
    && t == s.(boards := t.boards)
    && t.boards.Keys == s.boards.Keys
    && forall b :: b in s.boards ==> t.boards[b] == s.boards[b].(total := t.boards[b].total)
  }

  lemma ReinstateUserBlind(s: State, t: State, u: nat, window: int)
    requires SameButTotals(s, t) && u in s.users
    ensures SameButTotals(UserServices.Reinstate(s, u, window), UserServices.Reinstate(t, u, window))
    ensures UserServices.Exceeds(s, u) == UserServices.Exceeds(t, u)
  {
  }

  lemma RestoreAccountBlind(s: State, t: State, u: nat, passwordOk: bool)
    requires SameButTotals(s, t)
    ensures var p := UserServices.RestoreAccount(s, u, passwordOk);
            var q := UserServices.RestoreAccount(t, u, passwordOk);
            p.reply == q.reply && SameButTotals(p.state, q.state)
  {
    if u in s.users {
      ReinstateUserBlind(s, t, u, DAYS_30);
    }
  }

  lemma AdminRestoreUserBlind(s: State, t: State, u: nat)
    requires SameButTotals(s, t)
    ensures var p := AdminServices.RestoreUser(s, u);
            var q := AdminServices.RestoreUser(t, u);
            p.reply == q.reply && SameButTotals(p.state, q.state)
  {
    if u in s.users {
      ReinstateUserBlind(s, t, u, DAYS_90);
    }
  }

  lemma UserStepBlind(s: State, t: State, r: UserRequest)
    requires SameButTotals(s, t)
    requires !r.RestoreAccount?
    ensures UserStep(s, r).reply == UserStep(t, r).reply
    ensures SameButTotals(UserStep(s, r).state, UserStep(t, r).state)
  {
  }

  lemma BoardStepBlind(s: State, t: State, r: BoardRequest)
    requires SameButTotals(s, t)
    ensures BoardStep(s, r).reply == BoardStep(t, r).reply
    ensures SameButTotals(BoardStep(s, r).state, BoardStep(t, r).state)
  {
  }

  lemma UploadBlind(s: State, t: State, caller: nat, b: nat, size: nat, allowedType: bool, path: string)
    requires SameButTotals(s, t)
    ensures var p := FileServices.Upload(s, caller, b, size, allowedType, path);
            var q := FileServices.Upload(t, caller, b, size, allowedType, path);
            p.reply == q.reply && SameButTotals(p.state, q.state)
  {
  }

  lemma RestoreFileBlind(s: State, t: State, r: FileRequest)
    requires SameButTotals(s, t) && r.RestoreFile?
    ensures FileStep(s, r).reply == FileStep(t, r).reply
    ensures SameButTotals(FileStep(s, r).state, FileStep(t, r).state)
  {
  }

  lemma RestoreAllFilesBlind(s: State, t: State, r: FileRequest)
    requires SameButTotals(s, t) && r.RestoreAllFiles?
    ensures FileStep(s, r).reply == FileStep(t, r).reply
    ensures SameButTotals(FileStep(s, r).state, FileStep(t, r).state)
  {
  }

  lemma DeleteFilesBlind(s: State, t: State, r: FileRequest)
    requires SameButTotals(s, t)
    requires r.DeleteFile? || r.DeleteAllFiles?
    ensures FileStep(s, r).reply == FileStep(t, r).reply
    ensures SameButTotals(FileStep(s, r).state, FileStep(t, r).state)
  {
  }

  lemma DeleteUserBlind(s: State, t: State, u: nat, option: DeleteOption)
    requires SameButTotals(s, t)
    ensures var p := AdminServices.DeleteUser(s, u, option);
            var q := AdminServices.DeleteUser(t, u, option);
            p.reply == q.reply && SameButTotals(p.state, q.state)
  {
  }

  lemma DeleteBoardBlind(s: State, t: State, b: nat, option: DeleteOption)
    requires SameButTotals(s, t)
    ensures var p := AdminServices.DeleteBoard(s, b, option);
            var q := AdminServices.DeleteBoard(t, b, option);
            p.reply == q.reply && SameButTotals(p.state, q.state)
  {
  }

  lemma BanBlind(s: State, t: State, r: SanctionRequest)
    requires SameButTotals(s, t)
    requires r.AdminBan? || r.AdminUnban?
    ensures SanctionStep(s, r).reply == SanctionStep(t, r).reply
    ensures SameButTotals(SanctionStep(s, r).state, SanctionStep(t, r).state)
  {
  }

  lemma AdminDeleteFileBlind(s: State, t: State, i: nat, option: FileDeleteOption)
    requires SameButTotals(s, t)
    ensures var p := AdminServices.DeleteFile(s, i, option);
            var q := AdminServices.DeleteFile(t, i, option);
            p.reply == q.reply && SameButTotals(p.state, q.state)
  {
  }

  lemma AdminDeleteAllFilesBlind(s: State, t: State, b: nat, option: FileDeleteOption)
    requires SameButTotals(s, t)
    ensures var p := AdminServices.DeleteAllFiles(s, b, option);
            var q := AdminServices.DeleteAllFiles(t, b, option);
            p.reply == q.reply && SameButTotals(p.state, q.state)
  {
  }

  lemma SanctionStepBlind(s: State, t: State, r: SanctionRequest)
    requires SameButTotals(s, t)
    ensures SanctionStep(s, r).reply == SanctionStep(t, r).reply
    ensures SameButTotals(SanctionStep(s, r).state, SanctionStep(t, r).state)
  {
    match r
    case AdminDeleteUser(u, option) => DeleteUserBlind(s, t, u, option);
    case AdminDeleteBoard(b, option) => DeleteBoardBlind(s, t, b, option);
    case AdminDeleteFile(i, option) => AdminDeleteFileBlind(s, t, i, option);
    case AdminDeleteAllFiles(b, option) => AdminDeleteAllFilesBlind(s, t, b, option);
    case _ => BanBlind(s, t, r);
  }

  lemma AdminRestoreBoardBlind(s: State, t: State, b: nat)
    requires SameButTotals(s, t)
    ensures var p := AdminServices.RestoreBoard(s, b);
            var q := AdminServices.RestoreBoard(t, b);
            p.reply == q.reply && SameButTotals(p.state, q.state)
  {
  }

  lemma RecoveryStepBlind(s: State, t: State, r: RecoveryRequest)
    requires SameButTotals(s, t)
    requires r.AdminRestoreFile? || r.AdminRestoreAllFiles?
    ensures RecoveryStep(s, r).reply == RecoveryStep(t, r).reply
    ensures SameButTotals(RecoveryStep(s, r).state, RecoveryStep(t, r).state)
  {
  }

  lemma JobStepBlind(s: State, t: State, j: Job)
    requires SameButTotals(s, t)
    ensures JobStep(s, j).reply == JobStep(t, j).reply
    ensures SameButTotals(JobStep(s, j).state, JobStep(t, j).state)
  {
  }

  /** The same step is answered alike, and the states still differ at most in the totals. */
  lemma StepBlind(s: State, t: State, op: Op)
    requires SameButTotals(s, t)
    ensures Step(s, op).reply == Step(t, op).reply
    ensures SameButTotals(Step(s, op).state, Step(t, op).state)
  {
    match op
    case OfUser(r) =>
      if r.RestoreAccount? {
        RestoreAccountBlind(s, t, r.user, r.passwordOk);
      } else {
        UserStepBlind(s, t, r);
      }
    case OfBoard(r) => BoardStepBlind(s, t, r);
    case OfFile(r) =>
      if r.Upload? {
        UploadBlind(s, t, r.caller, r.board, r.size, r.allowedType, r.path);
      } else if r.DeleteFile? || r.DeleteAllFiles? {
        DeleteFilesBlind(s, t, r);
      } else if r.RestoreFile? {
        RestoreFileBlind(s, t, r);
      } else {
        RestoreAllFilesBlind(s, t, r);
      }
    case OfSanction(r) => SanctionStepBlind(s, t, r);
    case OfRecovery(r) =>
      if r.AdminRestoreUser? {
        AdminRestoreUserBlind(s, t, r.user);
      } else if r.AdminRestoreBoard? {
        AdminRestoreBoardBlind(s, t, r.board);
      } else {
        RecoveryStepBlind(s, t, r);
      }
    case OfClock(j) => JobStepBlind(s, t, j);
  }

  /** The answers given along a run. */
  function Replies(s: State, ops: seq<Op>): seq<Reply>
    decreases |ops|
  {
    if ops == [] then [] else [Step(s, ops[0]).reply] + Replies(Step(s, ops[0]).state, ops[1..])
  }

  /** Corrupting any number of totals changes no answer of any run, and nothing but totals. */
  lemma {:induction false} RunBlind(s: State, t: State, ops: seq<Op>)
    requires SameButTotals(s, t)
    ensures Replies(s, ops) == Replies(t, ops)
    ensures SameButTotals(Run(s, ops), Run(t, ops))
    decreases |ops|
  {
    if ops == [] {
    } else {
      StepBlind(s, t, ops[0]);
      RunBlind(Step(s, ops[0]).state, Step(t, ops[0]).state, ops[1..]);
    }
  }
}
