/** The ban counter of an account over whole runs. */
module Bans {
  import opened Tables
  import opened FilesTable
  import opened Machine
  import opened Soundness
  import opened Quota
  import AdminServices
  import UserServices

  /** What a ban did to the account, read off its row. */
  datatype Sanction = Suspension(seconds: int) | Deletion | Nothing

  const SCHEDULE: seq<Sanction> := [Suspension(1 * DAY), Suspension(3 * DAY), Suspension(5 * DAY), Deletion]

  function Observed(s: State, t: State, u: nat): Sanction
    requires u in t.users
  {
    var r := t.users[u];
    if r.status.Banned? && r.banEndAt.At? then Suspension(r.banEndAt.time - s.now)
    else if r.status.Withdrawn? && r.deletedAt.At? && r.banEndAt.Never? then Deletion
    else Nothing
  }

  /** The step bans u. */
  predicate Bans(s: State, op: Op, u: nat) {
    op.OfSanction? && op.sanction == AdminBan(u) && Step(s, op).reply == Done
  }

  /** The step pardons u: an unban that finds the account undeleted, or a restore of the account. */
  predicate Pardons(s: State, op: Op, u: nat) {
    Step(s, op).reply == Done &&
    ((op.OfSanction? && op.sanction == AdminUnban(u) && LoggedIn(s, u)) ||
     (op.OfUser? && op.user.RestoreAccount? && op.user.user == u) ||
     (op.OfRecovery? && op.recovery == AdminRestoreUser(u)))
  }

  function CountAfter(s: State, op: Op, u: nat): nat
    requires u in s.users
  {
    if Bans(s, op, u) then s.users[u].banCount + 1
    else if Pardons(s, op, u) then 0
    else s.users[u].banCount
  }

  /** What a step does to the counter of u; accounts are never removed. */
  lemma StepCounts(s: State, op: Op, u: nat)
    requires UsersSound(s.users, s.nextUser) && UniqueIds(s.users)
    requires u in s.users
    ensures var t := Step(s, op).state;
            && u in t.users
            && t.users[u].banCount == CountAfter(s, op, u)
            && (Bans(s, op, u) ==> s.users[u].banCount <= 3 && Observed(s, t, u) == SCHEDULE[s.users[u].banCount])
  {
    assert UserSound(s.users[u], u, s.nextUser);
    match op
    case OfUser(r) => UserStepCounts(s, r, u);
    case OfRecovery(r) => RecoveryStepCounts(s, r, u);
    case OfSanction(r) => SanctionStepCounts(s, r, u);
    case _ => OtherStepCounts(s, op, u);
  }

  lemma OtherStepCounts(s: State, op: Op, u: nat)
    requires u in s.users && (op.OfBoard? || op.OfFile? || op.OfClock?)
    ensures var t := Step(s, op).state; u in t.users && t.users[u].banCount == s.users[u].banCount
  {
    OtherStepStale(s, op, u);
  }

  lemma UserStepCounts(s: State, r: UserRequest, u: nat)
    requires UsersSound(s.users, s.nextUser) && UniqueIds(s.users)
    requires u in s.users
    ensures var t := UserStep(s, r).state;
            && u in t.users
            && t.users[u].banCount == if Pardons(s, OfUser(r), u) then 0 else s.users[u].banCount
  {
    if r.RestoreAccount? && r.user in s.users && s.users[r.user].deletedAt.At? {
      RestoreByIdIsByKey(s.users, r.user);
    }
  }

  lemma RecoveryStepCounts(s: State, r: RecoveryRequest, u: nat)
    requires UniqueIds(s.users)
    requires u in s.users
    ensures var t := RecoveryStep(s, r).state;
            && u in t.users
            && t.users[u].banCount == if Pardons(s, OfRecovery(r), u) then 0 else s.users[u].banCount
  {
    if r.AdminRestoreUser? && r.user in s.users && s.users[r.user].deletedAt.At? {
      RestoreByIdIsByKey(s.users, r.user);
    }
  }

  lemma SanctionStepCounts(s: State, r: SanctionRequest, u: nat)
    requires u in s.users && BanSound(s.users[u])
    ensures var t := SanctionStep(s, r).state;
            && u in t.users
            && t.users[u].banCount == CountAfter(s, OfSanction(r), u)
            && (Bans(s, OfSanction(r), u) ==>
                  s.users[u].banCount <= 3 && Observed(s, t, u) == SCHEDULE[s.users[u].banCount])
  {
  }

  /** The sanctions u received along the run, since the last pardon. */
  function Ledger(s: State, ops: seq<Op>, u: nat, past: seq<Sanction>): seq<Sanction>
    decreases |ops|
  {
    if ops == [] then past
    else
      var t := Step(s, ops[0]).state;
      var now :=
        if u !in t.users then past
        else if Bans(s, ops[0], u) then past + [Observed(s, t, u)]
        else if Pardons(s, ops[0], u) then []
        else past;
      Ledger(t, ops[1..], u, now)
  }

  /**
   Along every run, the sanctions since the last pardon are 1, 3 and 5 days and then the deletion
   of the account, cut off after as many as the counter says; so never a fifth.
   */
  lemma {:induction false} LedgerFollowsSchedule(s: State, ops: seq<Op>, u: nat, past: seq<Sanction>)
    requires Sound(s) && u in s.users
    requires past == SCHEDULE[..s.users[u].banCount]
    ensures var t := Run(s, ops);
            && u in t.users && t.users[u].banCount <= 4
            && Ledger(s, ops, u, past) == SCHEDULE[..t.users[u].banCount]
    decreases |ops|
  {
    assert UserSound(s.users[u], u, s.nextUser);
    if ops == [] {
    } else {
      var t := Step(s, ops[0]).state;
      StepCounts(s, ops[0], u);
      StepSound(s, ops[0]);
      assert UserSound(t.users[u], u, t.nextUser);
      var now :=
        if Bans(s, ops[0], u) then past + [Observed(s, t, u)] else if Pardons(s, ops[0], u) then [] else past;
      assert now == SCHEDULE[..t.users[u].banCount];
      LedgerFollowsSchedule(t, ops[1..], u, now);
    }
  }

  /** The fourth ban deletes an account still in use, and touches neither its boards nor its files. */
  lemma FourthBan(s: State, u: nat)
    requires Sound(s) && u in s.users && s.users[u].banCount == 3
    ensures var o := AdminServices.Ban(s, u);
            && o.reply == Done
            && o.state == s.(users := o.state.users)
            && o.state.users[u].status.Withdrawn? && o.state.users[u].deletedAt.At?
            && (LoggedIn(s, u) ==> o.state.users[u].deletedAt == At(s.now) && o.state.users[u].deletedBy.AdminScheduled?)
            && (!LoggedIn(s, u) ==> o.state.users[u].deletedAt == s.users[u].deletedAt)
  {
    assert UserSound(s.users[u], u, s.nextUser);
  }

  /** The account is deleted and yet shows BANNED. */
  predicate DeletedBanned(r: UserRow) {
    r.deletedAt.At? && r.status.Banned?
  }

  /**
   A ban looks at no deletion.  A deleted account comes to show BANNED over WITHDRAWN exactly by a ban
   below the fourth, and shows it until it is restored, deleted for good, or banned the fourth time.
   */
  lemma DeletedBannedIff(s: State, op: Op, u: nat)
    requires Sound(s) && u in s.users
    ensures var t := Step(s, op).state;
            && u in t.users
            && (DeletedBanned(t.users[u]) <==>
                if Bans(s, op, u) then s.users[u].deletedAt.At? && s.users[u].banCount < 3
                else DeletedBanned(s.users[u]) && !Returns(s, op, u) &&
                     op != OfSanction(AdminDeleteUser(u, Immediate)))
            && (Bans(s, op, u) && s.users[u].deletedAt.At? ==> t.users[u].deletedAt == s.users[u].deletedAt)
  {
    assert UserSound(s.users[u], u, s.nextUser);
    match op
    case OfUser(r) => UserStepDeletedBanned(s, r, u);
    case OfSanction(r) => SanctionStepDeletedBanned(s, r, u);
    case OfRecovery(r) => RecoveryStepDeletedBanned(s, r, u);
    case _ => OtherStepStatus(s, op, u);
  }

  lemma UserStepDeletedBanned(s: State, r: UserRequest, u: nat)
    requires UniqueIds(s.users) && UsersSound(s.users, s.nextUser) && u in s.users
    ensures var t := UserStep(s, r).state;
            && u in t.users
            && (DeletedBanned(t.users[u]) <==> DeletedBanned(s.users[u]) && !Returns(s, OfUser(r), u))
  {
    assert UserSound(s.users[u], u, s.nextUser);
    if r.RestoreAccount? && r.user in s.users && s.users[r.user].deletedAt.At? {
      RestoreByIdIsByKey(s.users, r.user);
    }
  }

  lemma SanctionStepDeletedBanned(s: State, r: SanctionRequest, u: nat)
    requires u in s.users && BanSound(s.users[u])
    ensures var t := SanctionStep(s, r).state;
            && u in t.users
            && (DeletedBanned(t.users[u]) <==>
                if Bans(s, OfSanction(r), u) then s.users[u].deletedAt.At? && s.users[u].banCount < 3
                else DeletedBanned(s.users[u]) && r != AdminDeleteUser(u, Immediate))
            && (Bans(s, OfSanction(r), u) && s.users[u].deletedAt.At? ==> t.users[u].deletedAt == s.users[u].deletedAt)
  {
  }

  lemma RecoveryStepDeletedBanned(s: State, r: RecoveryRequest, u: nat)
    requires UniqueIds(s.users) && u in s.users
    ensures var t := RecoveryStep(s, r).state;
            && u in t.users
            && (DeletedBanned(t.users[u]) <==> DeletedBanned(s.users[u]) && !Returns(s, OfRecovery(r), u))
  {
    if r.AdminRestoreUser? && r.user in s.users && s.users[r.user].deletedAt.At? {
      RestoreByIdIsByKey(s.users, r.user);
    }
  }

  lemma OtherStepStatus(s: State, op: Op, u: nat)
    requires u in s.users && (op.OfBoard? || op.OfFile? || op.OfClock?)
    ensures var t := Step(s, op).state;
            u in t.users && t.users[u].status == s.users[u].status && t.users[u].deletedAt == s.users[u].deletedAt
  {
  }

  /** An unban answers success, and changes something exactly when the account is not deleted. */
  lemma UnbanTakesEffectIff(s: State, u: nat)
    requires u in s.users && AdminServices.Unban(s, u).reply == Done
    ensures AdminServices.Unban(s, u).state != s <==> LoggedIn(s, u)
  {
    var t := AdminServices.Unban(s, u).state;
    if LoggedIn(s, u) {
      assert t.users[u].banCount == 0 && s.users[u].banCount != 0;
    }
  }

  // ---------- the end of the last ban ----------

  /** A counter of 1 to 3 comes with the end of the last ban, and a counter of 4 with none. */
  predicate BanEndTells(r: UserRow) {
    && (1 <= r.banCount <= 3 ==> r.banEndAt.At?)
    && (r.banCount == 4 ==> r.banEndAt.Never?)
  }

  predicate BanEndsTell(users: Users) {
    forall u :: u in users ==> BanEndTells(users[u])
  }

  lemma UserStepKeepsBanEnds(s: State, r: UserRequest)
    requires BanEndsTell(s.users)
    ensures BanEndsTell(UserStep(s, r).state.users)
  {
  }

  lemma SanctionStepKeepsBanEnds(s: State, r: SanctionRequest)
    requires BanEndsTell(s.users)
    ensures BanEndsTell(SanctionStep(s, r).state.users)
  {
  }

  lemma RecoveryStepKeepsBanEnds(s: State, r: RecoveryRequest)
    requires BanEndsTell(s.users)
    ensures BanEndsTell(RecoveryStep(s, r).state.users)
  {
  }

  lemma {:induction false} RunKeepsBanEnds(s: State, ops: seq<Op>)
    requires BanEndsTell(s.users)
    ensures BanEndsTell(Run(s, ops).users)
    decreases |ops|
  {
    if ops == [] {
    } else {
      match ops[0] {
        case OfUser(r) => UserStepKeepsBanEnds(s, r);
        case OfSanction(r) => SanctionStepKeepsBanEnds(s, r);
        case OfRecovery(r) => RecoveryStepKeepsBanEnds(s, r);
        case _ =>
      }
      RunKeepsBanEnds(Step(s, ops[0]).state, ops[1..]);
    }
  }

  /** The row shows the end of a ban although no ban counts. */
  predicate Stale(r: UserRow) {
    r.banCount == 0 && r.banEndAt.At?
  }

  /** The step restores account u. */
  predicate Returns(s: State, op: Op, u: nat) {
    Step(s, op).reply == Done &&
    ((op.OfUser? && op.user.RestoreAccount? && op.user.user == u) || (op.OfRecovery? && op.recovery == AdminRestoreUser(u)))
  }

  /**
   Such an end comes about exactly when the account is restored under a suspension, however long
   over, and stays exactly until the next ban: an unban of the account is refused, since its counter
   is 0.
   */
  lemma StaleEndIff(s: State, op: Op, u: nat)
    requires Sound(s) && u in s.users && BanEndTells(s.users[u])
    ensures var t := Step(s, op).state;
            && u in t.users
            && (Stale(t.users[u]) <==>
                if Returns(s, op, u) then Stale(s.users[u]) || 1 <= s.users[u].banCount <= 3
                else Stale(s.users[u]) && !Bans(s, op, u))
  {
    assert UserSound(s.users[u], u, s.nextUser);
    match op
    case OfUser(r) => UserStepStale(s, r, u);
    case OfSanction(r) => SanctionStepStale(s, r, u);
    case OfRecovery(r) => RecoveryStepStale(s, r, u);
    case _ => OtherStepStale(s, op, u);
  }

  lemma OtherStepStale(s: State, op: Op, u: nat)
    requires u in s.users && (op.OfBoard? || op.OfFile? || op.OfClock?)
    ensures var t := Step(s, op).state;
            u in t.users && t.users[u].banCount == s.users[u].banCount && t.users[u].banEndAt == s.users[u].banEndAt
  {
  }

  lemma UserStepStale(s: State, r: UserRequest, u: nat)
    requires UniqueIds(s.users) && UsersSound(s.users, s.nextUser)
    requires u in s.users && s.users[u].banCount <= 4 && BanEndTells(s.users[u])
    ensures var t := UserStep(s, r).state;
            && u in t.users
            && (Stale(t.users[u]) <==>
                Stale(s.users[u]) || (Returns(s, OfUser(r), u) && 1 <= s.users[u].banCount <= 3))
  {
    if r.RestoreAccount? && r.user in s.users && s.users[r.user].deletedAt.At? {
      RestoreByIdIsByKey(s.users, r.user);
    }
  }

  lemma RecoveryStepStale(s: State, r: RecoveryRequest, u: nat)
    requires UniqueIds(s.users)
    requires u in s.users && s.users[u].banCount <= 4 && BanEndTells(s.users[u])
    ensures var t := RecoveryStep(s, r).state;
            && u in t.users
            && (Stale(t.users[u]) <==>
                Stale(s.users[u]) || (Returns(s, OfRecovery(r), u) && 1 <= s.users[u].banCount <= 3))
  {
    if r.AdminRestoreUser? && r.user in s.users && s.users[r.user].deletedAt.At? {
      RestoreByIdIsByKey(s.users, r.user);
    }
  }

  lemma SanctionStepStale(s: State, r: SanctionRequest, u: nat)
    requires u in s.users && s.users[u].banCount <= 4
    ensures var t := SanctionStep(s, r).state;
            && u in t.users
            && (Stale(t.users[u]) <==> Stale(s.users[u]) && !Bans(s, OfSanction(r), u))
  {
  }

  // ---------- whether the fourth ban holds ----------

  lemma BannedRow(s: State, u: nat, seconds: nat)
    requires Sound(s) && u in s.users && s.users[u].banCount == 3
    ensures var t := AdminServices.Ban(s, u).state.(now := s.now + seconds);
            && u in t.users
            && t.users[u].deletedAt == (if LoggedIn(s, u) then At(s.now) else s.users[u].deletedAt)
            && t.users[u].deletedBy == (if LoggedIn(s, u) then AdminScheduled else s.users[u].deletedBy)
  {
    assert UserSound(s.users[u], u, s.nextUser);
  }

  lemma BannedSound(s: State, u: nat, seconds: nat)
    requires Sound(s) && QuotaOk(s)
    ensures var t := AdminServices.Ban(s, u).state.(now := s.now + seconds); Sound(t) && QuotaOk(t)
  {
    StepKeeps(s, OfSanction(AdminBan(u)));
    StepKeeps(AdminServices.Ban(s, u).state, OfClock(Tick(seconds)));
  }

  /**
   The fourth ban keeps an earlier deletion as it is.  So, within the quota, the owner of the banned
   account comes back, with the counter at 0, exactly if the account was already withdrawn by its
   owner, and not longer than 7 days ago.
   */
  lemma FourthBanUndoneIff(s: State, u: nat, seconds: nat)
    requires Sound(s) && QuotaOk(s) && u in s.users && s.users[u].banCount == 3
    ensures var ban := AdminServices.Ban(s, u);
            var back := UserServices.RestoreAccount(ban.state.(now := s.now + seconds), u, true);
            && ban.reply == Done
            && (back.reply == Done <==> s.users[u].deletedBy.ByUser? && Within(s.users[u].deletedAt, DAYS_7, s.now + seconds))
            && (back.reply == Done ==> back.state.users[u].status.Active? && back.state.users[u].banCount == 0)
  {
    var t := AdminServices.Ban(s, u).state.(now := s.now + seconds);
    assert UserSound(s.users[u], u, s.nextUser);
    BannedRow(s, u, seconds);
    BannedSound(s, u, seconds);
    if Within(t.users[u].deletedAt, DAYS_7, t.now) {
      ExceedsNeverFires(t, u);
      RestoreByIdIsByKey(t.users, u);
    }
  }

  /**
   The fourth ban of an account in use leaves its boards and files in use, and an administrator's
   restore within 90 days undoes it: all files are as before, and of the account's row the status,
   the counter and the end of the third ban are cleared.
   */
  lemma FourthBanRoundTrip(s: State, u: nat, seconds: nat)
    requires Sound(s) && QuotaOk(s) && LoggedIn(s, u) && s.users[u].banCount == 3 && seconds <= DAYS_90
    ensures var ban := AdminServices.Ban(s, u).state;
            var back := AdminServices.RestoreUser(ban.(now := s.now + seconds), u);
            && ban.boards == s.boards && ban.files == s.files && !LoggedIn(ban, u)
            && back.reply == Done
            && back.state.files == s.files
            && back.state.users == s.users[u := s.users[u].(status := Active, banCount := 0, banEndAt := Never)]
  {
    var t := AdminServices.Ban(s, u).state.(now := s.now + seconds);
    assert UserSound(s.users[u], u, s.nextUser);
    BannedRow(s, u, seconds);
    BannedSound(s, u, seconds);
    ExceedsNeverFires(t, u);
    RestoreByIdIsByKey(t.users, u);
    NoCascadeOfAccountInUse(s, u, t.now);
  }

  lemma NoCascadeOfAccountInUse(s: State, u: nat, now: int)
    requires Provenance(s.files, s.boards, s.users) && LoggedIn(s, u)
    ensures RestoreAllUserFiles(s.files, s.boards, u, DAYS_90, now) == s.files
  {
    var files := RestoreAllUserFiles(s.files, s.boards, u, DAYS_90, now);
    forall i | i in s.files ensures files[i] == s.files[i] {
      assert RowProvenance(s.files[i], s.boards, s.users);
    }
  }
}
