/** What the scheduled jobs remove, and what they leave for a restore. */
module Retention {
  import opened Tables
  import opened FilesTable
  import opened Machine
  import opened Soundness
  import opened Totals
  import B = BoardsTable
  import FileServices
  import BoardServices
  import UserServices
  import AdminServices
  import RoundTrips

  predicate DeletesRows(j: Job) {
    j.PurgeUsers? || j.PurgeBoards? || j.SweepFiles?
  }

  // ---------- completeness ----------

  /** How long a deleted file is kept. */
  function Retained(r: FileRow): int {
    if r.deletedBy.AdminScheduled? then DAYS_100 else DAYS_30
  }

  /** The purge predicate covers every deleted row of a sound table. */
  lemma PurgeDueIffRetentionOver(s: State, i: nat)
    requires FilesSound(s.files, s.boards, s.nextFile)
    requires i in s.files
    ensures PurgeDue(s.files[i], s.now) <==> Expired(s.files[i].deletedAt, Retained(s.files[i]), s.now)
  {
    assert FileSound(s.files[i], i, s.boards, s.nextFile);
  }

  /** Right after a job that deletes rows, nothing is kept past its time and nothing went early. */
  lemma RetentionExact(s: State, j: Job)
    requires FilesSound(s.files, s.boards, s.nextFile)
    requires DeletesRows(j)
    ensures var t := JobStep(s, j).state;
            && (forall i :: i in t.files ==>
                  i in s.files && t.files[i] == s.files[i] && !Expired(t.files[i].deletedAt, Retained(t.files[i]), t.now))
            && (forall i :: i in s.files && !Expired(s.files[i].deletedAt, Retained(s.files[i]), t.now) ==>
                  i in t.files || (j.PurgeBoards? && B.BoardPurgeDue(s.boards[s.files[i].board], s.now)))
  {
    forall i | i in s.files ensures FileSound(s.files[i], i, s.boards, s.nextFile) {
    }
  }

  // ---------- safety ----------

  /**
   The jobs spare every board deleted less than 100 days ago (an administrator restores up to 90),
   every account deleted less than 30 days ago (its owner returns up to 7), and every active file
   of every board in use.
   */
  lemma JobLimits(s: State, j: Job)
    requires FilesSound(s.files, s.boards, s.nextFile)
    ensures var t := JobStep(s, j).state;
            && (forall b :: b in s.boards && !Expired(s.boards[b].deletedAt, DAYS_100, s.now) ==>
                  b in t.boards && t.boards[b] == s.boards[b])
            && (forall u :: u in s.users && !Expired(s.users[u].deletedAt, DAYS_30, s.now) ==>
                  u in t.users && t.users[u] == s.users[u])
            && (forall b :: BoardActive(s, b) ==> ActiveBytes(t, b) == ActiveBytes(s, b))
  {
    var t := JobStep(s, j).state;
    forall b: nat | BoardActive(s, b) ensures ActiveBytes(t, b) == ActiveBytes(s, b) {
      assert Untouched(s, t, b);
      UntouchedKeepsBytes(s, t, b);
    }
  }

  predicate OwnerRestore(op: Op) {
    (op.OfFile? && (op.file.RestoreFile? || op.file.RestoreAllFiles?)) ||
    (op.OfBoard? && op.board.RestoreBoard?) || (op.OfUser? && op.user.RestoreAccount?)
  }

  /** The owner's restore is served, and brings back the deleted file i. */
  predicate BringsBack(s: State, op: Op, i: nat) {
    && Step(s, op).reply == Done
    && i in s.files && s.files[i].deletedAt.At?
    && i in Step(s, op).state.files && Step(s, op).state.files[i].deletedAt.Never?
  }

  /** The board row under file i goes with the job, and file i with it. */
  predicate LosesBoard(s: State, j: Job, i: nat)
    requires i in s.files
  {
    j.PurgeBoards? && s.files[i].board in s.boards && B.BoardPurgeDue(s.boards[s.files[i].board], s.now)
  }

  /** The same rows at the time the job ends: what a restore would find then, had the job not run. */
  function Waited(s: State, j: Job): State {
    s.(now := JobStep(s, j).state.now)
  }

  lemma RestoreFileAfterJob(s: State, j: Job, caller: nat, i: nat)
    requires FilesSound(s.files, s.boards, s.nextFile) && BoardsSound(s.boards, s.users, s.nextBoard)
    requires FileServices.RestoreFile(Waited(s, j), caller, true, i).reply == Done
    ensures var t := JobStep(s, j).state;
            && i in t.files && t.files[i] == s.files[i]
            && FileServices.RestoreFile(t, caller, true, i).reply == Done
  {
    JobLimits(s, j);
    var b := s.files[i].board;
    assert BoardActive(s, b);
    SumEq(Query(s.files, ActiveOn(b), s.now), Query(s.files, ActiveOn(b), Waited(s, j).now), s.nextFile);
  }

  lemma RestoreBoardAfterJob(s: State, j: Job, caller: nat, b: nat, i: nat)
    requires Provenance(s.files, s.boards, s.users)
    requires BoardServices.RestoreBoard(Waited(s, j), caller, true, b).reply == Done
    requires i in s.files && s.files[i].board == b && s.files[i].deletedBy.BoardCascade?
    ensures var t := JobStep(s, j).state;
            && i in t.files && t.files[i] == s.files[i]
            && BoardServices.RestoreBoard(t, caller, true, b).reply == Done
  {
  }

  lemma RestoreAccountAfterJob(s: State, j: Job, u: nat)
    requires FilesSound(s.files, s.boards, s.nextFile)
    requires UserServices.RestoreAccount(Waited(s, j), u, true).reply == Done
    ensures UserServices.RestoreAccount(JobStep(s, j).state, u, true).reply == Done
  {
    var t := JobStep(s, j).state;
    JobLimits(s, j);
    forall b | b in t.boards && t.boards[b].owner == u
      ensures Bytes(t, ActiveOrUserCascadeOn(b)) <= FILE_TOTAL_MAX_SIZE
    {
      SumLe(Query(t.files, ActiveOrUserCascadeOn(b), t.now), Query(s.files, ActiveOrUserCascadeOn(b), t.now), s.nextFile);
      assert Bytes(Waited(s, j), ActiveOrUserCascadeOn(b)) <= FILE_TOTAL_MAX_SIZE;
    }
  }

  lemma AccountFileAfterJob(s: State, j: Job, u: nat, i: nat)
    requires FilesSound(s.files, s.boards, s.nextFile) && Provenance(s.files, s.boards, s.users)
    requires UserServices.RestoreAccount(Waited(s, j), u, true).reply == Done
    requires i in s.files && OwnedBy(s.boards, s.files[i].board, u) && s.files[i].deletedBy.UserCascade?
    ensures var t := JobStep(s, j).state;
            && (i in t.files <==> !LosesBoard(s, j, i))
            && (i in t.files ==> t.files[i] == s.files[i] && OwnedBy(t.boards, t.files[i].board, u))
  {
  }

  /** The bulk restore, whose 30 days meet the purge's, asks for file i when its time is just over. */
  predicate AtTheEdge(s: State, j: Job, op: Op, i: nat)
    requires i in s.files
  {
    DeletesRows(j) && op.OfFile? && op.file.RestoreAllFiles? && Expired(s.files[i].deletedAt, DAYS_30, Waited(s, j).now)
  }

  /** The job spares file i unless one of the two; if it spares it, op still brings the file back. */
  predicate Spared(s: State, j: Job, op: Op, i: nat)
    requires i in s.files
  {
    var t := JobStep(s, j).state;
    && (i in t.files <==> !LosesBoard(s, j, i) && !AtTheEdge(s, j, op, i))
    && (i in t.files ==> t.files[i] == s.files[i] && BringsBack(t, op, i))
  }

  lemma RestoreFileSpared(s: State, j: Job, op: Op, i: nat)
    requires FilesSound(s.files, s.boards, s.nextFile) && BoardsSound(s.boards, s.users, s.nextBoard)
    requires op.OfFile? && op.file.RestoreFile? && BringsBack(Waited(s, j), op, i)
    ensures Spared(s, j, op, i) && !LosesBoard(s, j, i)
  {
    RestoreFileAfterJob(s, j, op.file.caller, op.file.file);
  }

  lemma RestoreBoardSpared(s: State, j: Job, op: Op, i: nat)
    requires FilesSound(s.files, s.boards, s.nextFile) && Provenance(s.files, s.boards, s.users)
    requires op.OfBoard? && op.board.RestoreBoard? && BringsBack(Waited(s, j), op, i)
    ensures Spared(s, j, op, i) && !LosesBoard(s, j, i)
  {
    RestoreBoardAfterJob(s, j, op.board.caller, op.board.board, i);
  }

  lemma RestoreAccountSpared(s: State, j: Job, op: Op, i: nat)
    requires FilesSound(s.files, s.boards, s.nextFile) && Provenance(s.files, s.boards, s.users)
    requires op.OfUser? && op.user.RestoreAccount? && BringsBack(Waited(s, j), op, i)
    ensures Spared(s, j, op, i) && s.files[i].deletedBy.UserCascade?
  {
    RestoreAccountAfterJob(s, j, op.user.user);
    AccountFileAfterJob(s, j, op.user.user, i);
  }

  /** Whatever the job purges, the sums that the bulk restore checks stay as they are. */
  lemma BulkSumsAfterJob(s: State, j: Job, b: nat)
    requires FilesSound(s.files, s.boards, s.nextFile) && BoardActive(s, b)
    ensures var t := JobStep(s, j).state;
            && BoardActive(t, b) && t.boards[b] == s.boards[b] && t.nextFile == s.nextFile
            && ActiveBytes(t, b) == ActiveBytes(Waited(s, j), b)
            && Bytes(t, UserDeletedOn(b, DAYS_7)) == Bytes(Waited(s, j), UserDeletedOn(b, DAYS_7))
  {
    var t := JobStep(s, j).state;
    JobLimits(s, j);
    SumEq(Query(s.files, ActiveOn(b), s.now), Query(s.files, ActiveOn(b), t.now), s.nextFile);
    SumEq(Query(t.files, UserDeletedOn(b, DAYS_7), t.now), Query(s.files, UserDeletedOn(b, DAYS_7), t.now), s.nextFile);
  }

  lemma BulkRestoreAfterJob(s: State, j: Job, u: nat, b: nat)
    requires FilesSound(s.files, s.boards, s.nextFile)
    requires FileServices.RestoreAllFiles(Waited(s, j), u, true, b).reply == Done
    ensures FileServices.RestoreAllFiles(JobStep(s, j).state, u, true, b).reply == Done
  {
    var t := JobStep(s, j).state;
    BulkSumsAfterJob(s, j, b);
    JobStepKeepsFiles(s, j);
    JobLimits(s, j);
    RoundTrips.BulkRestoreServedIff(Waited(s, j), u, b);
    RoundTrips.BulkRestoreServedIff(t, u, b);
  }

  lemma BulkFileAfterJob(s: State, j: Job, b: nat, i: nat)
    requires BoardActive(s, b) && s.boards[b].deletedBy.Nobody?
    requires i in s.files && Selects(UserDeletedOn(b, DAYS_30), s.files[i], Waited(s, j).now)
    ensures var t := JobStep(s, j).state;
            && (i in t.files <==> !(DeletesRows(j) && Expired(s.files[i].deletedAt, DAYS_30, t.now)))
            && (i in t.files ==> t.files[i] == s.files[i])
            && !LosesBoard(s, j, i)
  {
  }

  lemma BulkRestoreSpared(s: State, j: Job, op: Op, i: nat)
    requires FilesSound(s.files, s.boards, s.nextFile) && BoardsSound(s.boards, s.users, s.nextBoard)
    requires op.OfFile? && op.file.RestoreAllFiles? && BringsBack(Waited(s, j), op, i)
    ensures Spared(s, j, op, i) && !LosesBoard(s, j, i)
  {
    var b := op.file.board;
    assert BoardSound(s.boards[b], b, s.users, s.nextBoard);
    BulkRestoreAfterJob(s, j, op.file.caller, b);
    BulkFileAfterJob(s, j, b, i);
  }

  lemma EdgeIsThirtyDays(s: State, j: Job, op: Op, i: nat)
    requires op.OfFile? && op.file.RestoreAllFiles? && BringsBack(Waited(s, j), op, i)
    ensures AtTheEdge(s, j, op, i) ==> s.files[i].deletedAt == At(Waited(s, j).now - DAYS_30)
  {
  }

  /**
   Whatever file an owner's restore would bring back at the time a job ends, that job spares, however
   long it took, and the restore still brings it back; with two exceptions, and the job takes the
   file in both.  The board purge takes a file along with its board, which can only be a file that
   came back onto an already deleted board and then went with the account.  And a job that deletes
   rows takes a file that is 30 days old when it ends, which only the bulk restore still asks for.
   */
  lemma JobSparesOwnerRestore(s: State, j: Job, op: Op, i: nat)
    requires Sound(s)
    requires OwnerRestore(op) && BringsBack(Waited(s, j), op, i)
    ensures Spared(s, j, op, i)
    ensures LosesBoard(s, j, i) ==> op.OfUser? && s.files[i].deletedBy.UserCascade?
    ensures AtTheEdge(s, j, op, i) ==> s.files[i].deletedAt == At(Waited(s, j).now - DAYS_30)
  {
    if op.OfUser? {
      RestoreAccountSpared(s, j, op, i);
    } else if op.OfBoard? {
      RestoreBoardSpared(s, j, op, i);
    } else if op.file.RestoreFile? {
      RestoreFileSpared(s, j, op, i);
    } else {
      BulkRestoreSpared(s, j, op, i);
      EdgeIsThirtyDays(s, j, op, i);
    }
  }

  /**
   The administrator's 90 days are not covered: of the files deleted at most 90 days before the end
   of a sweep, it keeps those an administrator deleted, and the others only while they are less than
   30 days old.
   */
  lemma SweepSparesAdminRestorableIff(s: State, stuck: set<string>, lag: nat, i: nat)
    requires FilesSound(s.files, s.boards, s.nextFile)
    requires i in s.files && AdminServices.RestoreFile(Waited(s, SweepFiles(stuck, lag)), i).reply == Done
    ensures i in JobStep(s, SweepFiles(stuck, lag)).state.files <==>
            s.files[i].deletedBy.AdminScheduled? || !Expired(s.files[i].deletedAt, DAYS_30, s.now + lag)
  {
    assert FileSound(s.files[i], i, s.boards, s.nextFile);
  }

  predicate Survives(s: State, t: State, i: nat)
    requires i in s.files
  {
    i in t.files && t.files[i] == s.files[i]
  }

  /** File i was put to use, or deleted, after its board b was deleted. */
  predicate TouchedSince(s: State, i: nat, b: nat)
    requires i in s.files && b in s.boards
  {
    s.files[i].deletedAt.Never? ||
    (s.boards[b].deletedAt.At? && s.files[i].deletedAt.time > s.boards[b].deletedAt.time)
  }

  /**
   A file goes with the board purge exactly if its own time is over or its board's is; all other
   rows are unchanged.  Before its own time a file goes only with its board, which is a deleted one,
   and only if the file is active or was deleted after the board was: no file that the cascade took
   goes early, and no file of a board in use does.
   */
  lemma BoardPurgeExact(s: State, i: nat)
    requires FilesSound(s.files, s.boards, s.nextFile) && BoardsSound(s.boards, s.users, s.nextBoard)
    requires Provenance(s.files, s.boards, s.users)
    requires i in s.files
    ensures var t := JobStep(s, PurgeBoards).state;
            var b := s.files[i].board;
            var own := Expired(s.files[i].deletedAt, Retained(s.files[i]), s.now);
            var scheduled := s.boards[b].deletedBy == AdminScheduled && s.boards[b].deletedAt.At? &&
                             s.boards[b].deletedAt.time <= s.now - 8640000;
            && (!Survives(s, t, i) <==> own || scheduled)
            && (b !in t.boards <==> scheduled)
            && (!Survives(s, t, i) && !own ==>
                  !BoardActive(s, b) && !s.files[i].deletedBy.BoardCascade? && TouchedSince(s, i, b))
            && t == s.(boards := t.boards, files := t.files)
            && t.files.Keys <= s.files.Keys && t.boards.Keys <= s.boards.Keys
            && (forall c :: c in t.boards ==> t.boards[c] == s.boards[c])
  {
    var b := s.files[i].board;
    assert FileSound(s.files[i], i, s.boards, s.nextFile);
    assert BoardSound(s.boards[b], b, s.users, s.nextBoard);
    assert RowProvenance(s.files[i], s.boards, s.users);
    PurgeDueIffRetentionOver(s, i);
  }

  /**
   After the anonymiser ran, an account past its time has lost its login id, except one whose owner
   chose an id that the LIKE pattern takes for an anonymised one; and no other account has.
   */
  lemma AnonymiseExact(s: State, u: nat)
    requires u in s.users && s.users[u].id.Chosen?
    ensures var r := s.users[u];
            var due := if r.deletedBy.ByUser? then Expired(r.deletedAt, DAYS_30, s.now)
                       else (r.deletedBy.AdminScheduled? || r.deletedBy.AdminRetain?) && Expired(r.deletedAt, DAYS_100, s.now);
            var t := JobStep(s, Anonymise).state;
            && (t.users[u].id == r.id <==> !due || (|r.id.name| >= 8 && "DELETED" <= r.id.name))
            && t.users[u] == r.(id := t.users[u].id)
  {
    assert "DELETED" <= s.users[u].id.name <==> |s.users[u].id.name| >= 7 && s.users[u].id.name[..7] == "DELETED";
  }

  /** Every file of board b is deleted, and has been for more than 90 days when `seconds` have passed. */
  predicate NothingRecent(s: State, b: nat, seconds: nat) {
    forall i :: i in s.files && s.files[i].board == b ==>
      s.files[i].deletedAt.At? && !Within(s.files[i].deletedAt, DAYS_90, s.now + seconds)
  }

  /**
   A board deleted by its owner comes back at the owner's request within 7 days.  At an
   administrator's, in the same state, it fails on the NULL sum exactly if, when it was deleted, the
   board had no active file and none deleted in the 90 days before; and that restore changes nothing.
   */
  lemma EmptyBoardRestoreIff(s: State, u: nat, b: nat, seconds: nat)
    requires BoardServices.DeleteBoard(s, u, true, b).reply == Done && seconds <= DAYS_7
    ensures var gone := BoardServices.DeleteBoard(s, u, true, b).state;
            var t := gone.(now := s.now + seconds);
            && BoardServices.RestoreBoard(t, u, true, b).reply == Done
            && (AdminServices.RestoreBoard(t, b) == Refuse(t, 500) <==> NothingRecent(s, b, seconds))
  {
    var gone := BoardServices.DeleteBoard(s, u, true, b).state;
    var t := gone.(now := s.now + seconds);
    if !NothingRecent(s, b, seconds) {
      var i :| i in s.files && s.files[i].board == b &&
               (s.files[i].deletedAt.At? ==> Within(s.files[i].deletedAt, DAYS_90, s.now + seconds));
      assert i in t.files && Selects(DeletedOn(b, DAYS_90), t.files[i], t.now);
    }
  }
}
