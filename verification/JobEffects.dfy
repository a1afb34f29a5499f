/** All that each scheduled job changes. */
module JobEffects {
  import opened Tables
  import opened FilesTable
  import opened Machine
  import opened Soundness
  import opened Columns
  import opened Cascades
  import UsersTable

  // ---------- what is due, on the columns ----------

  /** `LIKE 'DELETED_%'` matches the id: an anonymised one, or a chosen one of that form. */
  predicate LooksDeleted(id: LoginId) {
    match id
    case Anonymous(_, _) => true
    case Chosen(name) => |name| >= 8 && "DELETED" <= name
  }

  predicate AccountOver(r: UserRow, now: int) {
    !LooksDeleted(r.id) &&
    ((r.deletedBy == ByUser && Old(r.deletedAt, 2592000, now)) ||
     (r.deletedBy in {AdminScheduled, AdminRetain} && Old(r.deletedAt, 8640000, now)))
  }

  predicate FileOver(r: FileRow, now: int) {
    (r.deletedBy in {ByUser, UserCascade, BoardCascade} && Old(r.deletedAt, 2592000, now)) ||
    (r.deletedBy in {AdminScheduled, AdminRetain} && Old(r.deletedAt, 8640000, now))
  }

  /** Retained boards are never over, nor those their owners deleted. */
  predicate BoardOver(r: BoardRow, now: int) {
    r.deletedBy == AdminScheduled && Old(r.deletedAt, 8640000, now)
  }

  function FilesOver(s: State, now: int): set<nat> {
    set i | i in s.files && FileOver(s.files[i], now)
  }

  predicate Anonymised(before: Users, after: Users, now: int) {
    && after.Keys == before.Keys
    && forall u :: u in before ==>
         after[u] == if AccountOver(before[u], now) then before[u].(id := Anonymous(u, now)) else before[u]
  }

  lemma LikeOnColumns(id: LoginId)
    ensures UsersTable.LikeDeleted(id) <==> LooksDeleted(id)
  {
    if id.Chosen? && |id.name| >= 8 {
      assert "DELETED" <= id.name <==> id.name[..7] == "DELETED";
    }
  }

  // ---------- jobs ----------

  lemma AnonymiseEffect(s: State)
    ensures var o := Step(s, OfClock(Anonymise));
            o.reply == Done && o.state == s.(users := o.state.users) && Anonymised(s.users, o.state.users, s.now)
  {
    forall u | u in s.users ensures UsersTable.LikeDeleted(s.users[u].id) <==> LooksDeleted(s.users[u].id) {
      LikeOnColumns(s.users[u].id);
    }
  }

  lemma PurgeUsersEffect(s: State)
    ensures var o := Step(s, OfClock(PurgeUsers));
            && o.reply == Done && o.state == s.(users := o.state.users, files := o.state.files)
            && Anonymised(s.users, o.state.users, s.now)
            && Removed(s.files, o.state.files, FilesOver(s, s.now))
  {
    AnonymiseEffect(s);
  }

  /** A board goes exactly if an administrator scheduled it 100 days ago or longer, and all its files with it. */
  lemma PurgeBoardsEffect(s: State)
    requires FilesSound(s.files, s.boards, s.nextFile)
    ensures var o := Step(s, OfClock(PurgeBoards));
            && o.reply == Done && o.state == s.(boards := o.state.boards, files := o.state.files)
            && (forall b :: b in s.boards ==>
                  (b !in o.state.boards <==>
                     s.boards[b].deletedBy == AdminScheduled && s.boards[b].deletedAt.At? &&
                     s.boards[b].deletedAt.time <= s.now - 8640000))
            && (forall b :: b in o.state.boards ==> b in s.boards && o.state.boards[b] == s.boards[b])
            && Removed(s.files, o.state.files,
                       set i | i in s.files && (FileOver(s.files[i], s.now) || s.files[i].board !in o.state.boards))
  {
    forall i | i in s.files ensures FileSound(s.files[i], i, s.boards, s.nextFile) {
    }
  }

  /** No file whose time is over is at this path. */
  predicate NotOver(s: State, path: string) {
    forall i :: i in s.files && FileOver(s.files[i], s.now) ==> s.files[i].path != path
  }

  lemma SweepEffect(s: State, stuck: set<string>, lag: nat)
    ensures var o := Step(s, OfClock(SweepFiles(stuck, lag)));
            && o.reply == Done && o.state == s.(disk := o.state.disk, files := o.state.files, now := s.now + lag)
            && Removed(s.files, o.state.files, FilesOver(s, s.now + lag))
            && o.state.disk == set p | p in s.disk && (p in stuck || NotOver(s, p))
  {
    var t := Step(s, OfClock(SweepFiles(stuck, lag))).state;
    forall p | p in s.disk
      ensures p in t.disk <==> p in stuck || NotOver(s, p)
    {
      if i :| i in s.files && FileOver(s.files[i], s.now) && s.files[i].path == p {
        assert p in GetDeleteFilePath(s.files, s.now);
      }
    }
  }

  // ---------- boards that no job ever takes ----------

  /**
   A board that an administrator retained, that its owner deleted, or that is in use stays exactly as
   it is through every run of jobs, however long.
   */
  lemma {:induction false} KeptBoardSurvives(s: State, jobs: seq<Job>, b: nat)
    requires b in s.boards && s.boards[b].deletedBy != AdminScheduled
    ensures var t := RunJobs(s, jobs); b in t.boards && t.boards[b] == s.boards[b]
    decreases |jobs|
  {
    if jobs == [] {
    } else {
      JobKeepsBoard(s, jobs[0], b);
      KeptBoardSurvives(JobStep(s, jobs[0]).state, jobs[1..], b);
    }
  }

  lemma JobKeepsBoard(s: State, j: Job, b: nat)
    requires b in s.boards && s.boards[b].deletedBy != AdminScheduled
    ensures var t := JobStep(s, j).state; b in t.boards && t.boards[b] == s.boards[b]
  {
  }

  /** A board that an administrator scheduled goes with the first board purge 100 days later, and not before. */
  lemma ScheduledBoardGoesIff(s: State, b: nat, seconds: nat)
    requires Sound(s) && Step(s, OfSanction(AdminDeleteBoard(b, Scheduled))).reply == Done
    ensures var gone := Step(s, OfSanction(AdminDeleteBoard(b, Scheduled))).state;
            b !in RunJobs(gone, [Tick(seconds), PurgeBoards]).boards <==> seconds >= 8640000
  {
    var gone := Step(s, OfSanction(AdminDeleteBoard(b, Scheduled))).state;
    var later := gone.(now := gone.now + seconds);
    StepSound(s, OfSanction(AdminDeleteBoard(b, Scheduled)));
    PurgeBoardsEffect(later);
    assert RunJobs(gone, [Tick(seconds), PurgeBoards]) == RunJobs(later, [PurgeBoards]) by {
      assert [Tick(seconds), PurgeBoards][1..] == [PurgeBoards];
    }
    assert RunJobs(later, [PurgeBoards]) == JobStep(later, PurgeBoards).state by {
      assert [PurgeBoards][1..] == [];
    }
  }
}
