/**
 The disk sweep while other requests are served.  It reads the paths that are due, unlinks them one
 by one, and only then deletes the rows; requests may come anywhere in between.
 */
module InterruptedSweep {
  import opened Tables
  import opened FilesTable
  import opened Machine
  import opened Soundness
  import opened Disk
  import FileServices
  import AdminServices

  /** What happens after the paths are read: a request or job is served, or one path is unlinked. */
  datatype Event = Serve(op: Op) | Unlink(path: string)

  function Next(s: State, e: Event): State {
    match e
    case Serve(op) => Step(s, op).state
    case Unlink(path) => s.(disk := s.disk - {path})
  }

  function RunEvents(s: State, events: seq<Event>): State
    decreases |events|
  {
    if events == [] then s else RunEvents(Next(s, events[0]), events[1..])
  }

  /** The sweep's row delete, at whatever time it comes. */
  function RowsDeleted(s: State): State {
    s.(files := DeleteFiles(s.files, s.now))
  }

  /** The paths that the sweep, starting at s, reads and manages to unlink: all but the stuck ones. */
  function PathsRead(s: State, stuck: set<string>): set<string> {
    GetDeleteFilePath(s.files, s.now) - stuck
  }

  // ---------- which requests the sweep tolerates ----------

  /** Row i has lost its file to the sweep, or is about to. */
  predicate Doomed(s: State, doomed: set<string>, i: nat) {
    i in s.files && s.files[i].path in doomed
  }

  /** A doomed row of board b, deleted by its owner if that is asked for, within the window. */
  predicate SomeDoomed(s: State, doomed: set<string>, b: nat, ownersOnly: bool, window: int) {
    exists i :: i in s.files && Doomed(s, doomed, i) && s.files[i].board == b &&
                (ownersOnly ==> s.files[i].deletedBy.ByUser?) && Within(s.files[i].deletedAt, window, s.now)
  }

  /**
   The request restores no doomed row.  Only restores of deletions at least 30 days old can; of
   those, the account and board restores bring back what the cascade tagged, the bulk restores what
   is in their window.
   */
  predicate SparesDoomed(s: State, doomed: set<string>, op: Op) {
    match op
    case OfRecovery(AdminRestoreFile(i)) => !Doomed(s, doomed, i)
    case OfRecovery(AdminRestoreUser(u)) =>
      u in s.users && Expired(s.users[u].deletedAt, DAYS_30, s.now) ==>
        forall i :: i in s.files && Doomed(s, doomed, i) && OwnedBy(s.boards, s.files[i].board, u) ==>
          !s.files[i].deletedBy.UserCascade?
    case OfRecovery(AdminRestoreBoard(b)) =>
      b in s.boards && Expired(s.boards[b].deletedAt, DAYS_30, s.now) ==>
        forall i :: i in s.files && Doomed(s, doomed, i) && s.files[i].board == b ==>
          !s.files[i].deletedBy.BoardCascade?
    case OfRecovery(AdminRestoreAllFiles(b)) => !SomeDoomed(s, doomed, b, false, DAYS_90)
    case OfFile(RestoreAllFiles(_, _, b)) => !SomeDoomed(s, doomed, b, true, DAYS_30)
    case _ => true
  }

  /** The requests of which the guard above asks something. */
  predicate Restores(op: Op) {
    op.OfRecovery? || (op.OfFile? && op.file.RestoreAllFiles?)
  }

  /** An upload draws a path that no row, no file and none of the doomed paths is. */
  predicate FreshBeside(s: State, doomed: set<string>, op: Op) {
    FreshPath(s, op) && (op.OfFile? && op.file.Upload? ==> op.file.path !in doomed)
  }

  /** Every row is on disk, or doomed. */
  predicate OnDiskOrDoomed(s: State, doomed: set<string>) {
    UniquePaths(s.files) && forall i :: i in s.files ==> s.files[i].path in s.disk || s.files[i].path in doomed
  }

  /** Every doomed row is past its time, so that the row delete will take it. */
  predicate DoomedIsDue(s: State, doomed: set<string>) {
    forall i :: i in s.files && Doomed(s, doomed, i) ==> PurgeDue(s.files[i], s.now)
  }

  /** Doomed rows stay as they are, or go. */
  predicate DoomedKept(s: State, t: State, doomed: set<string>) {
    && s.now <= t.now
    && forall i :: i in t.files && i in s.files && Doomed(s, doomed, i) ==> t.files[i] == s.files[i]
  }

  // ---------- what each request does to doomed rows ----------

  lemma UserStepKeepsDoomed(s: State, doomed: set<string>, r: UserRequest)
    requires Provenance(s.files, s.boards, s.users) && DoomedIsDue(s, doomed)
    ensures DoomedKept(s, UserStep(s, r).state, doomed)
  {
  }

  lemma BoardStepKeepsDoomed(s: State, doomed: set<string>, r: BoardRequest)
    requires Provenance(s.files, s.boards, s.users) && DoomedIsDue(s, doomed)
    ensures DoomedKept(s, BoardStep(s, r).state, doomed)
  {
  }

  lemma RestoreFileKeepsDoomed(s: State, doomed: set<string>, r: FileRequest)
    requires r.RestoreFile? && DoomedIsDue(s, doomed)
    ensures DoomedKept(s, FileStep(s, r).state, doomed)
  {
  }

  lemma FileStepKeepsDoomed(s: State, doomed: set<string>, r: FileRequest)
    requires !r.RestoreAllFiles? && DoomedIsDue(s, doomed)
    requires forall i :: i in s.files ==> i < s.nextFile
    ensures DoomedKept(s, FileStep(s, r).state, doomed)
  {
    if r.RestoreFile? {
      RestoreFileKeepsDoomed(s, doomed, r);
    }
  }

  lemma SanctionStepKeepsDoomed(s: State, doomed: set<string>, r: SanctionRequest)
    requires DoomedIsDue(s, doomed)
    ensures DoomedKept(s, SanctionStep(s, r).state, doomed)
  {
  }

  lemma JobStepKeepsDoomed(s: State, doomed: set<string>, j: Job)
    ensures DoomedKept(s, JobStep(s, j).state, doomed)
  {
  }

  /** Only the restores by an administrator and the bulk restore by the owner can touch a doomed row. */
  lemma StepKeepsDoomed(s: State, doomed: set<string>, op: Op)
    requires FilesSound(s.files, s.boards, s.nextFile) && Provenance(s.files, s.boards, s.users)
    requires DoomedIsDue(s, doomed) && !Restores(op)
    ensures DoomedKept(s, Step(s, op).state, doomed)
  {
    match op
    case OfUser(r) => UserStepKeepsDoomed(s, doomed, r);
    case OfBoard(r) => BoardStepKeepsDoomed(s, doomed, r);
    case OfFile(r) =>
      assert forall i :: i in s.files ==> FileSound(s.files[i], i, s.boards, s.nextFile);
      FileStepKeepsDoomed(s, doomed, r);
    case OfSanction(r) => SanctionStepKeepsDoomed(s, doomed, r);
    case OfClock(j) => JobStepKeepsDoomed(s, doomed, j);
  }

  lemma AdminRestoreFileKeepsDoomedIff(s: State, doomed: set<string>, i: nat)
    requires AdminServices.RestoreFile(s, i).reply == Done
    ensures DoomedKept(s, AdminServices.RestoreFile(s, i).state, doomed) <==>
            SparesDoomed(s, doomed, OfRecovery(AdminRestoreFile(i)))
  {
  }

  lemma AdminRestoreUserKeepsDoomedIff(s: State, doomed: set<string>, u: nat)
    requires Provenance(s.files, s.boards, s.users) && DoomedIsDue(s, doomed)
    requires AdminServices.RestoreUser(s, u).reply == Done
    ensures DoomedKept(s, AdminServices.RestoreUser(s, u).state, doomed) <==>
            SparesDoomed(s, doomed, OfRecovery(AdminRestoreUser(u)))
  {
  }

  lemma AdminRestoreBoardKeepsDoomedIff(s: State, doomed: set<string>, b: nat)
    requires Provenance(s.files, s.boards, s.users) && DoomedIsDue(s, doomed)
    requires AdminServices.RestoreBoard(s, b).reply == Done
    ensures DoomedKept(s, AdminServices.RestoreBoard(s, b).state, doomed) <==>
            SparesDoomed(s, doomed, OfRecovery(AdminRestoreBoard(b)))
  {
  }

  lemma AdminRestoreAllFilesKeepsDoomedIff(s: State, doomed: set<string>, b: nat)
    requires AdminServices.RestoreAllFiles(s, b).reply == Done
    ensures DoomedKept(s, AdminServices.RestoreAllFiles(s, b).state, doomed) <==>
            SparesDoomed(s, doomed, OfRecovery(AdminRestoreAllFiles(b)))
  {
  }

  lemma RestoreAllFilesKeepsDoomedIff(s: State, doomed: set<string>, r: FileRequest)
    requires r.RestoreAllFiles? && FileStep(s, r).reply == Done
    ensures DoomedKept(s, FileStep(s, r).state, doomed) <==> SparesDoomed(s, doomed, OfFile(r))
  {
  }

  /** For each of those restores, once served, the guard is exact. */
  lemma RestoreKeepsDoomedIff(s: State, doomed: set<string>, op: Op)
    requires Provenance(s.files, s.boards, s.users) && DoomedIsDue(s, doomed)
    requires Restores(op) && Step(s, op).reply == Done
    ensures DoomedKept(s, Step(s, op).state, doomed) <==> SparesDoomed(s, doomed, op)
  {
    match op
    case OfFile(r) => RestoreAllFilesKeepsDoomedIff(s, doomed, r);
    case OfRecovery(AdminRestoreUser(u)) => AdminRestoreUserKeepsDoomedIff(s, doomed, u);
    case OfRecovery(AdminRestoreBoard(b)) => AdminRestoreBoardKeepsDoomedIff(s, doomed, b);
    case OfRecovery(AdminRestoreFile(i)) => AdminRestoreFileKeepsDoomedIff(s, doomed, i);
    case OfRecovery(AdminRestoreAllFiles(b)) => AdminRestoreAllFilesKeepsDoomedIff(s, doomed, b);
  }

  // ---------- one step ----------

  /** A restore leaves a row as it is or clears its deletion. */
  predicate OnlyClears(s: State, t: State) {
    && t.now == s.now && t.files.Keys == s.files.Keys
    && forall i :: i in s.files ==> t.files[i] == s.files[i] || t.files[i] == Clear(s.files[i])
  }

  lemma RecoveryOnlyClears(s: State, r: RecoveryRequest)
    ensures OnlyClears(s, RecoveryStep(s, r).state)
  {
  }

  lemma BulkRestoreOnlyClears(s: State, r: FileRequest)
    requires r.RestoreAllFiles?
    ensures OnlyClears(s, FileStep(s, r).state)
  {
  }

  lemma DoomedKeptIsDue(s: State, t: State, doomed: set<string>)
    requires DoomedIsDue(s, doomed) && RowsOnlyGo(s, t) && DoomedKept(s, t, doomed)
    ensures DoomedIsDue(t, doomed)
  {
    forall i | i in t.files && Doomed(t, doomed, i) ensures PurgeDue(t.files[i], t.now) {
      PurgeDueMonotone(s.files[i], s.now, t.now);
    }
  }

  lemma ClearedIsNotDue(s: State, t: State, doomed: set<string>)
    requires DoomedIsDue(t, doomed) && RowsOnlyGo(s, t) && OnlyClears(s, t)
    ensures DoomedKept(s, t, doomed)
  {
  }

  lemma UploadKeepsDoomedDue(s: State, doomed: set<string>, r: FileRequest)
    requires r.Upload? && FreshBeside(s, doomed, OfFile(r)) && DoomedIsDue(s, doomed)
    ensures DoomedIsDue(FileStep(s, r).state, doomed)
  {
  }

  lemma SweepKeepsDoomedDue(s: State, doomed: set<string>, stuck: set<string>, lag: nat)
    requires DoomedIsDue(s, doomed)
    ensures DoomedIsDue(FileServices.SweepFiles(s, stuck, lag).state, doomed)
  {
    var t := FileServices.SweepFiles(s, stuck, lag).state;
    forall i | i in t.files ensures !Doomed(t, doomed, i) {
      if Doomed(s, doomed, i) {
        PurgeDueMonotone(s.files[i], s.now, t.now);
      }
    }
  }

  /**
   A served step leaves every doomed row past its time exactly when it restores no doomed row,
   whether or not the file is unlinked already.
   */
  lemma StepKeepsDoomedDueIff(s: State, doomed: set<string>, op: Op)
    requires FilesSound(s.files, s.boards, s.nextFile) && Provenance(s.files, s.boards, s.users)
    requires DoomedIsDue(s, doomed) && FreshBeside(s, doomed, op)
    requires Step(s, op).reply == Done
    ensures DoomedIsDue(Step(s, op).state, doomed) <==> SparesDoomed(s, doomed, op)
  {
    var t := Step(s, op).state;
    if op.OfFile? && op.file.Upload? {
      UploadKeepsDoomedDue(s, doomed, op.file);
    } else if op.OfClock? && op.job.SweepFiles? {
      SweepKeepsDoomedDue(s, doomed, op.job.stuck, op.job.lag);
    } else {
      StepRowsOnlyGo(s, op);
      if Restores(op) {
        RestoreKeepsDoomedIff(s, doomed, op);
        if op.OfRecovery? {
          RecoveryOnlyClears(s, op.recovery);
        } else {
          BulkRestoreOnlyClears(s, op.file);
        }
      } else {
        StepKeepsDoomed(s, doomed, op);
      }
      if DoomedKept(s, t, doomed) {
        DoomedKeptIsDue(s, t, doomed);
      } else if DoomedIsDue(t, doomed) {
        ClearedIsNotDue(s, t, doomed);
      }
    }
  }

  lemma UploadKeepsOnDiskOrDoomed(s: State, doomed: set<string>, r: FileRequest)
    requires OnDiskOrDoomed(s, doomed) && r.Upload? && FreshBeside(s, doomed, OfFile(r))
    ensures OnDiskOrDoomed(FileStep(s, r).state, doomed)
  {
  }

  lemma SweepKeepsOnDiskOrDoomed(s: State, doomed: set<string>, stuck: set<string>, lag: nat)
    requires OnDiskOrDoomed(s, doomed)
    ensures OnDiskOrDoomed(FileServices.SweepFiles(s, stuck, lag).state, doomed)
  {
    var t := FileServices.SweepFiles(s, stuck, lag).state;
    forall i | i in t.files ensures t.files[i].path in t.disk || t.files[i].path in doomed {
      if PurgeDue(s.files[i], s.now) {
        PurgeDueMonotone(s.files[i], s.now, t.now);
      }
      assert t.files[i].path !in GetDeleteFilePath(s.files, s.now);
    }
  }

  /** Whatever is served, a second sweep included, a row is on disk or doomed. */
  lemma StepKeepsOnDiskOrDoomed(s: State, doomed: set<string>, op: Op)
    requires OnDiskOrDoomed(s, doomed) && FreshBeside(s, doomed, op)
    ensures OnDiskOrDoomed(Step(s, op).state, doomed)
  {
    if op.OfFile? && op.file.Upload? {
      UploadKeepsOnDiskOrDoomed(s, doomed, op.file);
    } else if op.OfClock? && op.job.SweepFiles? {
      SweepKeepsOnDiskOrDoomed(s, doomed, op.job.stuck, op.job.lag);
    } else {
      StepRowsOnlyGo(s, op);
    }
  }

  /** Nothing brings an unlinked doomed file back. */
  lemma StepLeavesUnlinked(s: State, doomed: set<string>, op: Op)
    requires FreshBeside(s, doomed, op)
    ensures Step(s, op).state.disk * doomed <= s.disk
  {
    if op.OfFile? && op.file.Upload? {
    } else if op.OfClock? && op.job.SweepFiles? {
    } else {
      StepRowsOnlyGo(s, op);
    }
  }

  // ---------- whole interrupted sweeps ----------

  function Unlinks(events: seq<Event>): set<string> {
    set e | e in events && e.Unlink? :: e.path
  }

  /** Unlinks of doomed paths, and requests that draw fresh paths and, if served, spare the doomed rows. */
  predicate EventsSpare(s: State, doomed: set<string>, events: seq<Event>)
    decreases |events|
  {
    events == [] ||
    (match events[0] {
       case Serve(op) => FreshBeside(s, doomed, op) && (Step(s, op).reply == Done ==> SparesDoomed(s, doomed, op))
       case Unlink(path) => path in doomed
     } && EventsSpare(Next(s, events[0]), doomed, events[1..]))
  }

  /** What holds from the read of the paths to the delete of the rows. */
  predicate Sweeping(s: State, doomed: set<string>) {
    OnDiskOrDoomed(s, doomed) && DoomedIsDue(s, doomed)
  }

  lemma ReadStartsSweeping(s: State, stuck: set<string>)
    requires DiskOk(s)
    ensures Sweeping(s, PathsRead(s, stuck))
  {
    forall i | i in s.files && Doomed(s, PathsRead(s, stuck), i) ensures PurgeDue(s.files[i], s.now) {
      var k :| k in s.files && PurgeDue(s.files[k], s.now) && s.files[k].path == s.files[i].path;
      assert k == i;
    }
  }

  lemma EventKeepsSweeping(s: State, doomed: set<string>, e: Event)
    requires Sound(s) && Sweeping(s, doomed) && EventsSpare(s, doomed, [e])
    ensures Sound(Next(s, e)) && Sweeping(Next(s, e), doomed)
  {
    match e
    case Serve(op) =>
      StepSound(s, op);
      StepKeepsOnDiskOrDoomed(s, doomed, op);
      if Step(s, op).reply == Done {
        StepKeepsDoomedDueIff(s, doomed, op);
      } else {
        RejectionChangesNothing(s, op);
      }
    case Unlink(_) =>
  }

  lemma {:induction false} EventsKeepSweeping(s: State, doomed: set<string>, events: seq<Event>)
    requires Sound(s) && Sweeping(s, doomed) && EventsSpare(s, doomed, events)
    ensures Sound(RunEvents(s, events)) && Sweeping(RunEvents(s, events), doomed)
    ensures RunEvents(s, events).disk * Unlinks(events) == {}
    ensures RunEvents(s, events).disk * doomed <= s.disk
    decreases |events|
  {
    if events == [] {
    } else {
      var t := Next(s, events[0]);
      assert EventsSpare(t, doomed, []);
      EventKeepsSweeping(s, doomed, events[0]);
      EventsKeepSweeping(t, doomed, events[1..]);
      if events[0].Serve? {
        StepLeavesUnlinked(s, doomed, events[0].op);
      }
      UnlinksSplit(events[0], events[1..]);
      assert events == [events[0]] + events[1..];
    }
  }

  lemma UnlinksSplit(e: Event, rest: seq<Event>)
    ensures Unlinks([e] + rest) == (if e.Unlink? then {e.path} else {}) + Unlinks(rest)
  {
    var all := [e] + rest;
    forall p | p in Unlinks(rest) ensures p in Unlinks(all) {
      var x :| x in rest && x.Unlink? && x.path == p;
      assert x in all;
    }
    assert e in all;
  }

  /**
   Whatever is served between the read of the paths and the delete of the rows, before, between or
   after the unlinks, restores and a second sweep included: if each request spares the rows whose
   paths were read and are not stuck, every row left has its file.
   */
  lemma InterruptedSweepKeepsDisk(s: State, stuck: set<string>, events: seq<Event>)
    requires Sound(s) && DiskOk(s)
    requires EventsSpare(s, PathsRead(s, stuck), events)
    ensures DiskOk(RowsDeleted(RunEvents(s, events)))
  {
    ReadStartsSweeping(s, stuck);
    EventsKeepSweeping(s, PathsRead(s, stuck), events);
  }

  lemma {:induction false} OnlyUnlinks(s: State, events: seq<Event>)
    requires forall e :: e in events ==> e.Unlink?
    ensures RunEvents(s, events) == s.(disk := s.disk - Unlinks(events))
    decreases |events|
  {
    if events == [] {
    } else {
      assert events == [events[0]] + events[1..];
      UnlinksSplit(events[0], events[1..]);
      OnlyUnlinks(Next(s, events[0]), events[1..]);
    }
  }

  /** With nothing served in between, the sweep in pieces is the sweep. */
  lemma QuietSweepIsSweep(s: State, stuck: set<string>, lag: nat, unlinks: seq<Event>)
    requires (forall e :: e in unlinks ==> e.Unlink?) && Unlinks(unlinks) == PathsRead(s, stuck)
    ensures RowsDeleted(RunEvents(RunEvents(s, unlinks), [Serve(OfClock(Tick(lag)))])) ==
            Step(s, OfClock(SweepFiles(stuck, lag))).state
  {
    OnlyUnlinks(s, unlinks);
    var u := RunEvents(s, unlinks);
    var tick := [Serve(OfClock(Tick(lag)))];
    assert tick[1..] == [];
    assert RunEvents(u, tick) == u.(now := s.now + lag);
  }

  /** Once all doomed files are unlinked, the row delete leaves no row without its file exactly if all doomed rows are due. */
  lemma AllUnlinkedDiskOkIff(t: State, doomed: set<string>)
    requires OnDiskOrDoomed(t, doomed) && t.disk * doomed == {}
    ensures DiskOk(RowsDeleted(t)) <==> DoomedIsDue(t, doomed)
  {
    var u := RowsDeleted(t);
    if DiskOk(u) {
      forall i | i in t.files && Doomed(t, doomed, i) ensures PurgeDue(t.files[i], t.now) {
        assert t.files[i].path in t.disk ==> t.files[i].path in t.disk * doomed;
        assert !PurgeDue(t.files[i], t.now) ==> i in u.files;
      }
    }
  }

  /**
   Let a request be served anywhere between the read and the row delete: `before` holds requests and
   unlinks in any order, `after` the remaining unlinks.  When the sweep is done, every row left has
   its file exactly if the request restored no row whose path was read and not stuck.
   */
  lemma InterruptedSweepKeepsDiskIff(s: State, stuck: set<string>, before: seq<Event>, op: Op, after: seq<Event>)
    requires Sound(s) && DiskOk(s)
    requires EventsSpare(s, PathsRead(s, stuck), before)
    requires var t := RunEvents(s, before); FreshBeside(t, PathsRead(s, stuck), op) && Step(t, op).reply == Done
    requires forall e :: e in after ==> e.Unlink?
    requires Unlinks(before) + Unlinks(after) == PathsRead(s, stuck)
    ensures var t := RunEvents(s, before);
            DiskOk(RowsDeleted(RunEvents(Step(t, op).state, after))) <==> SparesDoomed(t, PathsRead(s, stuck), op)
  {
    var doomed := PathsRead(s, stuck);
    var t := RunEvents(s, before);
    var u := Step(t, op).state;
    ReadStartsSweeping(s, stuck);
    EventsKeepSweeping(s, doomed, before);
    StepKeepsOnDiskOrDoomed(t, doomed, op);
    StepKeepsDoomedDueIff(t, doomed, op);
    StepLeavesUnlinked(t, doomed, op);
    OnlyUnlinks(u, after);
    AllUnlinkedDiskOkIff(RunEvents(u, after), doomed);
  }

  /** What a single restore leaves when the sweep goes on from it. */
  lemma RestoredRow(s: State, i: nat, disk: set<string>)
    requires AdminServices.RestoreFile(s, i).reply == Done
    ensures var o := AdminServices.RestoreFile(s, i).state;
            var t := RowsDeleted(o.(disk := disk));
            i in t.files && t.files[i] == Clear(s.files[i]) && t.disk == disk && o.disk == s.disk
  {
  }

  /**
   In particular, an administrator's single restore served anywhere in an otherwise quiet sweep
   leaves an active row without its file exactly when the file was due and could be unlinked.
   */
  lemma RestoreInTheGapDanglesIff(s: State, stuck: set<string>, before: seq<Event>, i: nat, after: seq<Event>)
    requires DiskOk(s)
    requires (forall e :: e in before ==> e.Unlink?) && (forall e :: e in after ==> e.Unlink?)
    requires Unlinks(before) + Unlinks(after) == PathsRead(s, stuck)
    requires AdminServices.RestoreFile(s, i).reply == Done
    ensures var o := AdminServices.RestoreFile(RunEvents(s, before), i);
            var t := RowsDeleted(RunEvents(o.state, after));
            && o.reply == Done
            && i in t.files && t.files[i].deletedAt.Never?
            && (t.files[i].path !in t.disk <==> PurgeDue(s.files[i], s.now) && s.files[i].path !in stuck)
  {
    var u := s.(disk := s.disk - Unlinks(before));
    var o := AdminServices.RestoreFile(u, i).state;
    OnlyUnlinks(s, before);
    OnlyUnlinks(o, after);
    RestoredRow(u, i, o.disk - Unlinks(after));
    assert o.disk - Unlinks(after) == s.disk - PathsRead(s, stuck);
    assert s.files[i].path in s.disk;
  }
}
