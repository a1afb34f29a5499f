/**
 Uploads that overlap.  An upload checks the quota, writes the file, and only then inserts the row
 and recounts; between the check and the insert other requests are served.
 */
module Uploads {
  import opened Tables
  import opened FilesTable
  import opened Machine
  import opened Soundness
  import opened Quota
  import opened Totals
  import opened Disk
  import BoardsTable
  import FileServices

  /** An upload that passed its checks and has not inserted its row. */
  datatype Flight = Flight(board: nat, size: nat, path: string)

  datatype Live = Live(state: State, flights: seq<Flight>)

  datatype Event =
    | Begin(caller: nat, board: nat, size: nat, allowedType: bool, path: string)
    | Finish(k: nat)
    | Other(op: Op)

  function BeginUpload(l: Live, caller: nat, b: nat, size: nat, allowedType: bool, path: string): Live {
    if FileServices.UploadGuard(l.state, caller, b, size, allowedType) != Done then l
    else Live(l.state.(disk := l.state.disk + {path}), l.flights + [Flight(b, size, path)])
  }

  /** The board may be gone by now, in which case the foreign key refuses the insert. */
  function Land(s: State, f: Flight): State {
    if f.board in s.boards then BoardsTable.Recount(FileServices.InsertFile(s, f.board, f.size, f.path), f.board)
    else s
  }

  function Next(l: Live, e: Event): Live {
    match e
    case Begin(caller, b, size, allowedType, path) => BeginUpload(l, caller, b, size, allowedType, path)
    case Finish(k) =>
      if k < |l.flights| then Live(Land(l.state, l.flights[k]), l.flights[..k] + l.flights[k + 1..]) else l
    case Other(op) =>
      if op.OfFile? && op.file.Upload? then l else l.(state := Step(l.state, op).state)
  }

  function RunEvents(l: Live, events: seq<Event>): Live
    decreases |events|
  {
    if events == [] then l else RunEvents(Next(l, events[0]), events[1..])
  }

  /** With nothing in between, the two halves of an upload are the upload. */
  lemma SplitUploadIsUpload(s: State, u: nat, b: nat, size: nat, allowedType: bool, path: string)
    ensures var begun := Next(Live(s, []), Begin(u, b, size, allowedType, path));
            var ended := Next(begun, Finish(0));
            && ended.flights == []
            && ended.state == Step(s, OfFile(Upload(u, b, size, allowedType, path))).state
            && (begun.flights != [] <==> Step(s, OfFile(Upload(u, b, size, allowedType, path))).reply == Done)
  {
  }

  /** Bytes and number of the uploads under way on a board. */
  function Pending(fs: seq<Flight>, b: nat): nat {
    if fs == [] then 0 else (if fs[0].board == b then fs[0].size else 0) + Pending(fs[1..], b)
  }

  function Count(fs: seq<Flight>, b: nat): nat {
    if fs == [] then 0 else (if fs[0].board == b then 1 else 0) + Count(fs[1..], b)
  }

  predicate FlightsOk(fs: seq<Flight>) {
    forall k :: 0 <= k < |fs| ==> fs[k].size <= FILE_MAX_SIZE
  }

  lemma {:induction false} PendingConcat(fs: seq<Flight>, gs: seq<Flight>, b: nat)
    ensures Pending(fs + gs, b) == Pending(fs, b) + Pending(gs, b)
    ensures Count(fs + gs, b) == Count(fs, b) + Count(gs, b)
  {
    if fs == [] {
      assert fs + gs == gs;
    } else {
      assert (fs + gs)[1..] == fs[1..] + gs;
      PendingConcat(fs[1..], gs, b);
    }
  }

  lemma PendingRemove(fs: seq<Flight>, k: nat, b: nat)
    requires k < |fs|
    ensures Pending(fs[..k] + fs[k + 1..], b) == Pending(fs, b) - (if fs[k].board == b then fs[k].size else 0)
    ensures Count(fs[..k] + fs[k + 1..], b) <= Count(fs, b)
  {
    assert fs == fs[..k] + ([fs[k]] + fs[k + 1..]);
    PendingConcat(fs[..k], [fs[k]] + fs[k + 1..], b);
    PendingConcat([fs[k]], fs[k + 1..], b);
    PendingConcat(fs[..k], fs[k + 1..], b);
    assert Pending([fs[k]], b) == if fs[k].board == b then fs[k].size else 0;
  }

  lemma {:induction false} PendingBound(fs: seq<Flight>, b: nat)
    requires FlightsOk(fs)
    ensures Pending(fs, b) <= Count(fs, b) * FILE_MAX_SIZE
  {
    if fs == [] {
    } else {
      PendingBound(fs[1..], b);
    }
  }

  // ---------- what one event does ----------

  lemma LandKeepsRows(s: State, f: Flight)
    requires BoardsSound(s.boards, s.users, s.nextBoard) && FilesSound(s.files, s.boards, s.nextFile)
    ensures var t := Land(s, f);
            BoardsSound(t.boards, t.users, t.nextBoard) && FilesSound(t.files, t.boards, t.nextFile)
  {
  }

  lemma LandKeepsProvenance(s: State, f: Flight)
    requires Provenance(s.files, s.boards, s.users)
    ensures var t := Land(s, f); Provenance(t.files, t.boards, t.users)
  {
  }

  lemma LandSound(s: State, f: Flight)
    requires Sound(s)
    ensures Sound(Land(s, f))
  {
    LandKeepsRows(s, f);
    LandKeepsProvenance(s, f);
  }

  lemma LandReserved(s: State, f: Flight, b: nat)
    requires FilesSound(s.files, s.boards, s.nextFile)
    ensures Reserved(Land(s, f), b) <= Reserved(s, b) + if f.board == b then f.size else 0
  {
    InsertAdds(s, f.board, f.size, f.path, ReservedOn(b));
  }

  lemma LandKeepsTotals(s: State, f: Flight)
    requires FilesSound(s.files, s.boards, s.nextFile)
    ensures TotalsOk(s) ==> TotalsOk(Land(s, f))
  {
    var t := Land(s, f);
    assert forall b :: BoardActive(t, b) ==> Settled(s, t, b);
    SettledKeepsTotals(s, t);
  }

  lemma NextSound(l: Live, e: Event)
    requires Sound(l.state) && FlightsOk(l.flights)
    ensures Sound(Next(l, e).state) && FlightsOk(Next(l, e).flights)
  {
    match e
    case Begin(_, _, _, _, _) =>
    case Finish(k) =>
      if k < |l.flights| {
        LandSound(l.state, l.flights[k]);
      }
    case Other(op) => StepSound(l.state, op);
  }

  lemma NextKeepsTotals(l: Live, e: Event)
    requires Sound(l.state) && TotalsOk(l.state)
    ensures TotalsOk(Next(l, e).state)
  {
    match e
    case Begin(_, _, _, _, _) =>
      assert forall b :: BoardActive(l.state, b) ==> ActiveBytes(Next(l, e).state, b) == ActiveBytes(l.state, b);
    case Finish(k) =>
      if k < |l.flights| {
        LandKeepsTotals(l.state, l.flights[k]);
      }
    case Other(op) => StepKeepsTotals(l.state, op);
  }

  /** Under any interleaving the rows stay sound, and every total on show right or over no active file. */
  lemma {:induction false} RunEventsSound(l: Live, events: seq<Event>)
    requires Sound(l.state) && TotalsOk(l.state) && FlightsOk(l.flights)
    ensures var m := RunEvents(l, events); Sound(m.state) && TotalsOk(m.state) && FlightsOk(m.flights)
    decreases |events|
  {
    if events == [] {
    } else {
      NextSound(l, events[0]);
      NextKeepsTotals(l, events[0]);
      RunEventsSound(Next(l, events[0]), events[1..]);
    }
  }

  // ---------- files on disk, with uploads under way ----------

  predicate DistinctPaths(fs: seq<Flight>) {
    forall j, k :: 0 <= j < k < |fs| ==> fs[j].path != fs[k].path
  }

  predicate FlightsApart(fs: seq<Flight>, files: Files) {
    forall k, i :: 0 <= k < |fs| && i in files ==> fs[k].path != files[i].path
  }

  predicate FlightsOnDisk(fs: seq<Flight>, disk: set<string>) {
    forall k :: 0 <= k < |fs| ==> fs[k].path in disk
  }

  /** Every row and every upload under way has a file of its own. */
  predicate LiveDiskOk(l: Live) {
    DiskOk(l.state) && DistinctPaths(l.flights) && FlightsApart(l.flights, l.state.files) && FlightsOnDisk(l.flights, l.state.disk)
  }

  /** An upload begins with a path that no row, no file and no other upload has. */
  predicate FreshBegin(l: Live, e: Event) {
    e.Begin? ==>
      && e.path !in l.state.disk
      && (forall i :: i in l.state.files ==> l.state.files[i].path != e.path)
      && (forall k :: 0 <= k < |l.flights| ==> l.flights[k].path != e.path)
  }

  lemma BeginKeepsDisk(l: Live, e: Event)
    requires LiveDiskOk(l) && e.Begin? && FreshBegin(l, e)
    ensures LiveDiskOk(Next(l, e))
  {
  }

  lemma LandKeepsDisk(s: State, f: Flight)
    requires DiskOk(s) && f.path in s.disk && forall i :: i in s.files ==> s.files[i].path != f.path
    ensures DiskOk(Land(s, f)) && Land(s, f).disk == s.disk
    ensures forall i :: i in Land(s, f).files ==>
              Land(s, f).files[i].path == f.path || (i in s.files && Land(s, f).files[i] == s.files[i])
  {
  }

  lemma FinishKeepsDisk(l: Live, k: nat)
    requires LiveDiskOk(l) && k < |l.flights|
    ensures LiveDiskOk(Next(l, Finish(k)))
  {
    LandKeepsDisk(l.state, l.flights[k]);
  }

  /** A step takes no file away but those of rows, and gives no row another path. */
  predicate RowsAndTheirFilesGo(s: State, t: State) {
    && (forall i :: i in t.files ==> i in s.files && t.files[i].path == s.files[i].path)
    && (forall p :: p in s.disk ==> p in t.disk || exists i :: i in s.files && s.files[i].path == p)
  }

  lemma OtherKeepsDisk(l: Live, op: Op)
    requires LiveDiskOk(l) && !(op.OfFile? && op.file.Upload?)
    ensures LiveDiskOk(Next(l, Other(op)))
  {
    var s, t := l.state, Step(l.state, op).state;
    StepKeepsDisk(s, op);
    assert RowsAndTheirFilesGo(s, t) by {
      if op.OfClock? && op.job.SweepFiles? {
      } else {
        StepRowsOnlyGo(s, op);
      }
    }
  }

  predicate FreshEvents(l: Live, events: seq<Event>)
    decreases |events|
  {
    events == [] || (FreshBegin(l, events[0]) && FreshEvents(Next(l, events[0]), events[1..]))
  }

  /**
   Under any interleaving, sweeps included, no row is without its file, and none will be when the
   uploads under way insert theirs.
   */
  lemma {:induction false} RunEventsKeepsDisk(l: Live, events: seq<Event>)
    requires LiveDiskOk(l) && FreshEvents(l, events)
    ensures LiveDiskOk(RunEvents(l, events))
    decreases |events|
  {
    if events == [] {
    } else {
      match events[0] {
        case Begin(_, _, _, _, _) => BeginKeepsDisk(l, events[0]);
        case Finish(k) =>
          if k < |l.flights| {
            FinishKeepsDisk(l, k);
          }
        case Other(op) =>
          if !(op.OfFile? && op.file.Upload?) {
            OtherKeepsDisk(l, op);
          }
      }
      RunEventsKeepsDisk(Next(l, events[0]), events[1..]);
    }
  }

  // ---------- the quota ----------

  /** The request restores files of board b, one or all, without looking at uploads under way. */
  predicate RestoresFilesOf(s: State, op: Op, b: nat) {
    match op
    case OfFile(RestoreFile(_, _, i)) => i in s.files && s.files[i].board == b
    case OfFile(RestoreAllFiles(_, _, c)) => c == b
    case OfRecovery(AdminRestoreFile(i)) => i in s.files && s.files[i].board == b
    case OfRecovery(AdminRestoreAllFiles(c)) => c == b
    case _ => false
  }

  /** A served restore of that kind: it may add reserved bytes to b. */
  predicate MayGrow(s: State, e: Event, b: nat) {
    e.Other? && Step(s, e.op).reply == Done && RestoresFilesOf(s, e.op, b)
  }

  /** Reserved and in-flight bytes of b stay within the quota and `extra` files of maximal size. */
  predicate Bounded(l: Live, b: nat, extra: nat) {
    Reserved(l.state, b) + Pending(l.flights, b) <= FILE_TOTAL_MAX_SIZE + extra * FILE_MAX_SIZE
  }

  /** If the event restores files of b, their bytes fit. */
  predicate EventFits(l: Live, e: Event, b: nat) {
    MayGrow(l.state, e, b) ==> Fits(l.state, e.op)
  }

  lemma FileRestoreElsewhere(s: State, r: FileRequest, b: nat)
    requires FilesSound(s.files, s.boards, s.nextFile)
    requires r.RestoreFile? || r.RestoreAllFiles?
    requires FileStep(s, r).reply == Done && !RestoresFilesOf(s, OfFile(r), b)
    ensures Reserved(FileStep(s, r).state, b) == Reserved(s, b)
  {
    if r.RestoreFile? {
      RestoreOneAdds(s, r.file, b);
    } else {
      UserBulkRestores(s, r.board, b);
    }
  }

  lemma RecoveryElsewhere(s: State, r: RecoveryRequest, b: nat)
    requires FilesSound(s.files, s.boards, s.nextFile)
    requires r.AdminRestoreFile? || r.AdminRestoreAllFiles?
    requires RecoveryStep(s, r).reply == Done && !RestoresFilesOf(s, OfRecovery(r), b)
    ensures Reserved(RecoveryStep(s, r).state, b) == Reserved(s, b)
  {
    if r.AdminRestoreFile? {
      RestoreOneAdds(s, r.file, b);
    } else {
      AdminBulkRestores(s, r.board, b);
    }
  }

  /** Nothing but an upload or a served restore of its files adds reserved bytes to board b. */
  lemma OthersAddNothing(s: State, op: Op, b: nat)
    requires FilesSound(s.files, s.boards, s.nextFile)
    requires !(op.OfFile? && op.file.Upload?) && !MayGrow(s, Other(op), b)
    ensures Reserved(Step(s, op).state, b) <= Reserved(s, b)
  {
    if Step(s, op).reply != Done {
      RejectionChangesNothing(s, op);
    } else {
      match op {
        case OfUser(r) => UserStepNoNewReserved(s, r);
        case OfBoard(r) => BoardStepNoNewReserved(s, r);
        case OfFile(r) =>
          if r.RestoreFile? || r.RestoreAllFiles? {
            FileRestoreElsewhere(s, r, b);
            return;
          }
          DeletionNoNewReserved(s, r);
        case OfSanction(r) => SanctionStepNoNewReserved(s, r);
        case OfRecovery(r) =>
          if r.AdminRestoreFile? || r.AdminRestoreAllFiles? {
            RecoveryElsewhere(s, r, b);
            return;
          }
          RecoveryNoNewReserved(s, r);
        case OfClock(j) => JobStepNoNewReserved(s, j);
      }
      ReservedShrinks(s, Step(s, op).state, b);
    }
  }

  /** What a step of another kind leaves reserved. */
  lemma OtherReserved(s: State, op: Op, b: nat)
    requires Sound(s) && (MayGrow(s, Other(op), b) ==> Fits(s, op))
    requires !(op.OfFile? && op.file.Upload?)
    ensures var t := Step(s, op).state;
            && (Reserved(t, b) <= Reserved(s, b) || Reserved(t, b) <= FILE_TOTAL_MAX_SIZE)
            && (!MayGrow(s, Other(op), b) ==> Reserved(t, b) <= Reserved(s, b))
  {
    if MayGrow(s, Other(op), b) {
      StepReserved(s, op, b);
    } else {
      OthersAddNothing(s, op, b);
    }
  }

  /** A begun upload found its bytes free beside the active ones, whatever was in flight then. */
  lemma BeginBounded(l: Live, e: Event, b: nat, n: nat)
    requires Sound(l.state) && FlightsOk(l.flights)
    requires e.Begin? && n >= 1
    requires Count(Next(l, e).flights, b) <= n
    requires Next(l, e).flights != l.flights && e.board == b
    ensures Bounded(Next(l, e), b, n - 1)
  {
    var s := l.state;
    var f := Flight(b, e.size, e.path);
    ReservedIsActive(s, b);
    PendingConcat(l.flights, [f], b);
    assert Pending([f], b) == e.size && Count([f], b) == 1;
    PendingBound(l.flights, b);
    assert Count(l.flights, b) <= n - 1;
    assert Count(l.flights, b) * FILE_MAX_SIZE <= (n - 1) * FILE_MAX_SIZE;
    assert Reserved(Next(l, e).state, b) == Reserved(s, b);
  }

  /**
   With at most n uploads in flight on b, an event keeps the bound with n - 1 extra files, or with
   n extra files where the event is a served restore of files of b.
   */
  lemma NextBounded(l: Live, e: Event, b: nat, n: nat, extra: nat)
    requires Sound(l.state) && FlightsOk(l.flights) && EventFits(l, e, b)
    requires n >= 1 && Count(Next(l, e).flights, b) <= n
    requires extra == n || (extra == n - 1 && !MayGrow(l.state, e, b))
    requires Bounded(l, b, extra)
    ensures Bounded(Next(l, e), b, extra)
  {
    match e
    case Begin(_, board, size, _, path) =>
      if Next(l, e).flights != l.flights {
        if board == b {
          BeginBounded(l, e, b, n);
        } else {
          PendingConcat(l.flights, [Flight(board, size, path)], b);
          assert Pending([Flight(board, size, path)], b) == 0;
          assert Reserved(Next(l, e).state, b) == Reserved(l.state, b);
        }
      }
    case Finish(k) =>
      if k < |l.flights| {
        LandReserved(l.state, l.flights[k], b);
        PendingRemove(l.flights, k, b);
      }
    case Other(op) =>
      if !(op.OfFile? && op.file.Upload?) {
        OtherReserved(l.state, op, b);
        PendingBound(l.flights, b);
        assert Count(l.flights, b) * FILE_MAX_SIZE <= n * FILE_MAX_SIZE;
      }
  }

  /**
   At most n uploads are in flight on b after every event, what is restored on b fits, and nothing
   is restored on b if calm.
   */
  predicate Admissible(l: Live, events: seq<Event>, b: nat, n: nat, calm: bool)
    decreases |events|
  {
    events == [] ||
    (EventFits(l, events[0], b) && Count(Next(l, events[0]).flights, b) <= n &&
     (calm ==> !MayGrow(l.state, events[0], b)) && Admissible(Next(l, events[0]), events[1..], b, n, calm))
  }

  lemma {:induction false} RunBounded(l: Live, events: seq<Event>, b: nat, n: nat, calm: bool)
    requires Sound(l.state) && FlightsOk(l.flights)
    requires n >= 1 && Admissible(l, events, b, n, calm)
    requires Bounded(l, b, if calm then n - 1 else n)
    ensures Bounded(RunEvents(l, events), b, if calm then n - 1 else n)
    decreases |events|
  {
    if events == [] {
    } else {
      NextSound(l, events[0]);
      NextBounded(l, events[0], b, n, if calm then n - 1 else n);
      RunBounded(Next(l, events[0]), events[1..], b, n, calm);
    }
  }

  /**
   From a start within the quota and with nothing in flight: the active bytes of a board never
   pass the quota by more than n - 1 maximal files, if none of its files is restored by a request
   for files meanwhile; and by more than n of them, if what is so restored fits.  One upload at a
   time keeps the quota.  Refused requests, and requests for other boards, count for nothing.
   */
  lemma ConcurrentUploadBound(s: State, events: seq<Event>, b: nat, n: nat, calm: bool)
    requires Sound(s) && QuotaOk(s)
    requires n >= 1 && Admissible(Live(s, []), events, b, n, calm)
    ensures var l := RunEvents(Live(s, []), events);
            ActiveBytes(l.state, b) + Pending(l.flights, b) <=
              FILE_TOTAL_MAX_SIZE + (if calm then n - 1 else n) * FILE_MAX_SIZE
    ensures n == 1 && calm ==> ActiveBytes(RunEvents(Live(s, []), events).state, b) <= FILE_TOTAL_MAX_SIZE
  {
    assert Reserved(s, b) <= FILE_TOTAL_MAX_SIZE;
    RunBounded(Live(s, []), events, b, n, calm);
    ActiveWithinReserved(RunEvents(Live(s, []), events).state, b);
  }

  // ---------- the bound is reached ----------

  /** One upload of a maximal file per path, all begun before any is finished. */
  function BeginMany(l: Live, u: nat, b: nat, paths: seq<string>): Live {
    if paths == [] then l
    else BeginUpload(BeginMany(l, u, b, paths[..|paths| - 1]), u, b, FILE_MAX_SIZE, true, paths[|paths| - 1])
  }

  function FinishMany(l: Live, k: nat): Live {
    if k == 0 then l else Next(FinishMany(l, k - 1), Finish(0))
  }

  predicate AllMaximalOn(fs: seq<Flight>, b: nat) {
    forall k :: 0 <= k < |fs| ==> fs[k].board == b && fs[k].size == FILE_MAX_SIZE
  }

  lemma {:induction false} BeginManyAllPass(l: Live, u: nat, b: nat, paths: seq<string>)
    requires FileServices.UploadGuard(l.state, u, b, FILE_MAX_SIZE, true) == Done
    requires AllMaximalOn(l.flights, b)
    ensures var m := BeginMany(l, u, b, paths);
            && m.state == l.state.(disk := m.state.disk)
            && |m.flights| == |l.flights| + |paths| && AllMaximalOn(m.flights, b)
  {
    if paths == [] {
    } else {
      var fewer := paths[..|paths| - 1];
      BeginManyAllPass(l, u, b, fewer);
      assert ActiveBytes(BeginMany(l, u, b, fewer).state, b) == ActiveBytes(l.state, b);
    }
  }

  lemma {:induction false} FinishManyAdds(l: Live, b: nat, k: nat)
    requires FilesSound(l.state.files, l.state.boards, l.state.nextFile)
    requires BoardsSound(l.state.boards, l.state.users, l.state.nextBoard)
    requires b in l.state.boards && k <= |l.flights| && AllMaximalOn(l.flights, b)
    ensures var m := FinishMany(l, k);
            && FilesSound(m.state.files, m.state.boards, m.state.nextFile)
            && BoardsSound(m.state.boards, m.state.users, m.state.nextBoard)
            && b in m.state.boards
            && |m.flights| == |l.flights| - k && AllMaximalOn(m.flights, b)
            && ActiveBytes(m.state, b) == ActiveBytes(l.state, b) + k * FILE_MAX_SIZE
  {
    if k == 0 {
    } else {
      FinishManyAdds(l, b, k - 1);
      var m := FinishMany(l, k - 1);
      LandKeepsRows(m.state, m.flights[0]);
      InsertAdds(m.state, b, FILE_MAX_SIZE, m.flights[0].path, ActiveOn(b));
    }
  }

  /** Uploads that start on a board with room for one all pass, and fill it to the bound. */
  lemma BoundIsReached(s: State, u: nat, b: nat, paths: seq<string>)
    requires Sound(s) && LoggedIn(s, u) && BoardActive(s, b) && s.boards[b].owner == u
    requires ActiveBytes(s, b) == FILE_TOTAL_MAX_SIZE - FILE_MAX_SIZE && paths != []
    ensures ActiveBytes(FinishMany(BeginMany(Live(s, []), u, b, paths), |paths|).state, b) ==
            FILE_TOTAL_MAX_SIZE + (|paths| - 1) * FILE_MAX_SIZE
  {
    BeginManyAllPass(Live(s, []), u, b, paths);
    var m := BeginMany(Live(s, []), u, b, paths);
    assert ActiveBytes(m.state, b) == ActiveBytes(s, b);
    FinishManyAdds(m, b, |paths|);
  }

  /** The owner's restore of one file, served while uploads are under way: it sees the active bytes only. */
  lemma RestoreMeanwhile(s: State, u: nat, b: nat, i: nat)
    requires FilesSound(s.files, s.boards, s.nextFile)
    requires LoggedIn(s, u) && BoardActive(s, b) && s.boards[b].owner == u
    requires i in s.files && s.files[i].board == b && s.files[i].size == FILE_MAX_SIZE
    requires s.files[i].deletedBy.ByUser? && Within(s.files[i].deletedAt, DAYS_7, s.now)
    requires ActiveBytes(s, b) == FILE_TOTAL_MAX_SIZE - FILE_MAX_SIZE
    ensures var o := FileServices.RestoreFile(s, u, true, i);
            && o.reply == Done && ActiveBytes(o.state, b) == FILE_TOTAL_MAX_SIZE
            && BoardActive(o.state, b)
  {
    assert FileSound(s.files[i], i, s.boards, s.nextFile);
    SumPoint(Query(s.files, ActiveOn(b), s.now), Query(RestoreOneFile(s.files, i), ActiveOn(b), s.now), i, s.nextFile);
    var t := FileServices.RestoreFile(s, u, true, i).state;
    assert ActiveBytes(t, b) == Sum(Query(RestoreOneFile(s.files, i), ActiveOn(b), s.now), s.nextFile);
  }

  /**
   The bound with n, which allows restores meanwhile, is attained too: n uploads begin on a board
   with room for one, its owner restores a file into that room, and all n are inserted.
   */
  lemma BoundWithRestoreIsReached(s: State, u: nat, b: nat, i: nat, paths: seq<string>)
    requires Sound(s) && LoggedIn(s, u) && BoardActive(s, b) && s.boards[b].owner == u
    requires i in s.files && s.files[i].board == b && s.files[i].size == FILE_MAX_SIZE
    requires s.files[i].deletedBy.ByUser? && Within(s.files[i].deletedAt, DAYS_7, s.now)
    requires ActiveBytes(s, b) == FILE_TOTAL_MAX_SIZE - FILE_MAX_SIZE
    ensures var m := Next(BeginMany(Live(s, []), u, b, paths), Other(OfFile(RestoreFile(u, true, i))));
            ActiveBytes(FinishMany(m, |paths|).state, b) == FILE_TOTAL_MAX_SIZE + |paths| * FILE_MAX_SIZE
  {
    BeginManyAllPass(Live(s, []), u, b, paths);
    var l := BeginMany(Live(s, []), u, b, paths);
    assert ActiveBytes(l.state, b) == ActiveBytes(s, b);
    RestoreThenFinish(l, u, b, i);
  }

  lemma RestoreThenFinish(l: Live, u: nat, b: nat, i: nat)
    requires FilesSound(l.state.files, l.state.boards, l.state.nextFile)
    requires BoardsSound(l.state.boards, l.state.users, l.state.nextBoard)
    requires AllMaximalOn(l.flights, b)
    requires LoggedIn(l.state, u) && BoardActive(l.state, b) && l.state.boards[b].owner == u
    requires i in l.state.files && l.state.files[i].board == b && l.state.files[i].size == FILE_MAX_SIZE
    requires l.state.files[i].deletedBy.ByUser? && Within(l.state.files[i].deletedAt, DAYS_7, l.state.now)
    requires ActiveBytes(l.state, b) == FILE_TOTAL_MAX_SIZE - FILE_MAX_SIZE
    ensures var m := Next(l, Other(OfFile(RestoreFile(u, true, i))));
            ActiveBytes(FinishMany(m, |l.flights|).state, b) == FILE_TOTAL_MAX_SIZE + |l.flights| * FILE_MAX_SIZE
  {
    var r := RestoreFile(u, true, i);
    RestoreMeanwhile(l.state, u, b, i);
    FileStepKeepsFiles(l.state, r);
    FileStepKeepsBoards(l.state, r);
    FinishManyAdds(Next(l, Other(OfFile(r))), b, |l.flights|);
  }
}
