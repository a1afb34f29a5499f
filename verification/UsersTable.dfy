/** The statements of app/models/user.py and app/models/admin.py that change the users table. */
module UsersTable {
  import opened Tables

  predicate IdTaken(users: Users, id: LoginId) {
    exists u :: u in users && users[u].id == id
  }

  function InsertUserBasicInfo(s: State, name: string): State {
    s.(users := s.users[s.nextUser := UserRow(Chosen(name), Active, 0, Never, Never, Nobody)],
       nextUser := s.nextUser + 1)
  }

  function UserIdModify(users: Users, id: LoginId, u: nat): Users {
    if u in users then users[u := users[u].(id := id)] else users
  }

  function SoftDeleteUser(users: Users, tag: Tag, u: nat, now: int): Users {
    if u in users && users[u].deletedAt.Never?
    then users[u := users[u].(deletedBy := tag, deletedAt := At(now), status := Withdrawn)]
    else users
  }

  /** `id LIKE 'DELETED_%'`, in which the underscore stands for any one character. */
  predicate LikeDeleted(id: LoginId) {
    id.Anonymous? || (|id.name| >= 8 && id.name[..7] == "DELETED")
  }

  predicate AnonymiseDue(r: UserRow, now: int) {
    r.deletedAt.At? && !LikeDeleted(r.id) &&
    ((r.deletedBy.ByUser? && Expired(r.deletedAt, DAYS_30, now)) ||
     ((r.deletedBy.AdminScheduled? || r.deletedBy.AdminRetain?) && Expired(r.deletedAt, DAYS_100, now)))
  }

  function DeleteSoftDeletedUser(users: Users, now: int): Users {
    map u | u in users ::
      if AnonymiseDue(users[u], now) then users[u].(id := Anonymous(u, now)) else users[u]
  }

  function HardDeleteUser(users: Users, u: nat, now: int): Users {
    if u in users
    then users[u := users[u].(id := Anonymous(u, now), status := Withdrawn,
                              deletedBy := AdminImmediate, deletedAt := At(now))]
    else users
  }

  /** The statement selects by login id, not by key. */
  function RestoreUserData(users: Users, id: LoginId): Users {
    map u | u in users ::
      if users[u].id == id && users[u].deletedAt.At?
      then users[u].(deletedBy := Nobody, deletedAt := Never, status := Active, banCount := 0)
      else users[u]
  }

  function AdminBan(users: Users, u: nat, days: int, now: int): Users {
    if u in users
    then users[u := users[u].(status := Banned, banCount := users[u].banCount + 1,
                              banEndAt := At(now + days * DAY))]
    else users
  }

  function AdminUser4BanSettings(users: Users, u: nat): Users {
    if u in users then users[u := users[u].(status := Withdrawn, banEndAt := Never, banCount := 4)] else users
  }

  function AdminUnban(users: Users, u: nat): Users {
    if u in users && users[u].deletedAt.Never?
    then users[u := users[u].(status := Active, banCount := 0, banEndAt := Never)]
    else users
  }
}
