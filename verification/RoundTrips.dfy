/** Each restore undoes its own delete, row for row. */
module RoundTrips {
  import opened Tables
  import opened FilesTable
  import opened Machine
  import opened Soundness
  import opened Quota
  import opened Totals
  import opened Projection
  import T = BoardsTable
  import V = UsersTable
  import F = FileServices
  import B = BoardServices
  import U = UserServices
  import A = AdminServices

  function Later(s: State, seconds: nat): State {
    s.(now := s.now + seconds)
  }

  /** t is s again, later; of the totals, that of board b is right. */
  predicate BackAgain(s: State, t: State, b: nat, seconds: nat) {
    SameButTotals(Later(s, seconds), t) && b in t.boards && TotalExact(t, b)
  }

  lemma MarkedAndCleared(s: State, i: nat, tag: Tag, now: int)
    requires i in s.files && s.files[i].deletedAt.Never? && s.files[i].deletedBy.Nobody?
    ensures RestoreOneFile(SoftDeleteOneFile(s.files, tag, i, now), i) == s.files
  {
    assert Clear(Mark(s.files[i], tag, now)) == s.files[i];
  }

  /** A deleted file and the bytes active beside it make the bytes that were active. */
  lemma DeletedBytes(s: State, i: nat, tag: Tag)
    requires i in s.files && i < s.nextFile && s.files[i].deletedAt.Never?
    ensures var b := s.files[i].board;
            s.files[i].size + ActiveBytes(s.(files := SoftDeleteOneFile(s.files, tag, i, s.now)), b) == ActiveBytes(s, b)
  {
    var b := s.files[i].board;
    SumPoint(Query(s.files, ActiveOn(b), s.now),
             Query(SoftDeleteOneFile(s.files, tag, i, s.now), ActiveOn(b), s.now), i, s.nextFile);
  }

  /** Within the quota, a file deleted by its owner comes back within 7 days. */
  lemma FileRoundTrip(s: State, u: nat, i: nat, seconds: nat)
    requires FilesSound(s.files, s.boards, s.nextFile) && QuotaOk(s)
    requires F.DeleteFile(s, u, true, i).reply == Done && seconds <= DAYS_7
    ensures var o := F.RestoreFile(Later(F.DeleteFile(s, u, true, i).state, seconds), u, true, i);
            o.reply == Done && BackAgain(s, o.state, s.files[i].board, seconds)
  {
    var b := s.files[i].board;
    var t := Later(F.DeleteFile(s, u, true, i).state, seconds);
    assert FileSound(s.files[i], i, s.boards, s.nextFile);
    MarkedAndCleared(s, i, ByUser, s.now);
    DeletedBytes(s, i, ByUser);
    SumEq(Query(t.files, ActiveOn(b), t.now), Query(t.files, ActiveOn(b), s.now), s.nextFile);
    ActiveWithinReserved(s, b);
    assert Reserved(s, b) <= FILE_TOTAL_MAX_SIZE;
  }

  /** A file that an administrator scheduled comes back within 90 days, whatever the quota says. */
  lemma AdminFileRoundTrip(s: State, i: nat, seconds: nat)
    requires FilesSound(s.files, s.boards, s.nextFile)
    requires A.DeleteFile(s, i, FileScheduled).reply == Done && seconds <= DAYS_90
    ensures var o := A.RestoreFile(Later(A.DeleteFile(s, i, FileScheduled).state, seconds), i);
            o.reply == Done && BackAgain(s, o.state, s.files[i].board, seconds)
  {
    assert FileSound(s.files[i], i, s.boards, s.nextFile);
    MarkedAndCleared(s, i, AdminScheduled, s.now);
  }

  lemma BoardMarkedAndCleared(s: State, b: nat, window: int, seconds: nat)
    requires FilesSound(s.files, s.boards, s.nextFile) && Provenance(s.files, s.boards, s.users)
    requires BoardActive(s, b) && seconds <= window
    ensures RestoreCascadeBoardFiles(SoftDeleteAllBoardFiles(s.files, BoardCascade, b, s.now), b, window, s.now + seconds) == s.files
  {
    var files := RestoreCascadeBoardFiles(SoftDeleteAllBoardFiles(s.files, BoardCascade, b, s.now), b, window, s.now + seconds);
    forall i | i in s.files ensures files[i] == s.files[i] {
      assert FileSound(s.files[i], i, s.boards, s.nextFile);
      assert RowProvenance(s.files[i], s.boards, s.users);
    }
  }

  /** The state in which a delete with this tag leaves board b. */
  function BoardGone(s: State, tag: Tag, b: nat): State {
    s.(boards := T.SoftDeleteBoard(s.boards, tag, b, s.now),
       files := SoftDeleteAllBoardFiles(s.files, BoardCascade, b, s.now))
  }

  lemma ReinstatedBoard(s: State, tag: Tag, b: nat, window: int, seconds: nat)
    requires FilesSound(s.files, s.boards, s.nextFile) && Provenance(s.files, s.boards, s.users)
    requires BoardActive(s, b) && s.boards[b].deletedBy.Nobody? && seconds <= window
    ensures BackAgain(s, B.Reinstate(Later(BoardGone(s, tag, b), seconds), b, window), b, seconds)
  {
    BoardMarkedAndCleared(s, b, window, seconds);
  }

  lemma BoardRoundTrip(s: State, u: nat, b: nat, seconds: nat)
    requires Sound(s)
    requires B.DeleteBoard(s, u, true, b).reply == Done && seconds <= DAYS_7
    ensures var o := B.RestoreBoard(Later(B.DeleteBoard(s, u, true, b).state, seconds), u, true, b);
            o.reply == Done && BackAgain(s, o.state, b, seconds)
  {
    assert BoardSound(s.boards[b], b, s.users, s.nextBoard);
    ReinstatedBoard(s, ByUser, b, DAYS_30, seconds);
    assert B.DeleteBoard(s, u, true, b).state == BoardGone(s, ByUser, b);
  }

  /**
   A board that an administrator scheduled or retained comes back within 90 days if it has a file
   deleted in that time and all such files fit the quota; else it is refused.
   */
  lemma AdminBoardRoundTrip(s: State, b: nat, option: DeleteOption, seconds: nat)
    requires FilesSound(s.files, s.boards, s.nextFile) && Provenance(s.files, s.boards, s.users)
    requires BoardActive(s, b) && s.boards[b].deletedBy.Nobody?
    requires !option.Immediate? && seconds <= DAYS_90
    ensures A.DeleteBoard(s, b, option).reply == Done
    ensures var t := Later(A.DeleteBoard(s, b, option).state, seconds);
            var o := A.RestoreBoard(t, b);
            if Any(t, DeletedOn(b, DAYS_90)) && Bytes(t, DeletedOn(b, DAYS_90)) <= FILE_TOTAL_MAX_SIZE
            then o.reply == Done && BackAgain(s, o.state, b, seconds)
            else o.reply != Done
  {
    var tag := if option.Retain? then AdminRetain else AdminScheduled;
    ReinstatedBoard(s, tag, b, DAYS_90, seconds);
    assert A.DeleteBoard(s, b, option).state == BoardGone(s, tag, b);
    AdminRestoreServed(Later(BoardGone(s, tag, b), seconds), b);
  }

  lemma AdminRestoreServed(t: State, b: nat)
    requires b in t.boards && Within(t.boards[b].deletedAt, DAYS_90, t.now)
    ensures var o := A.RestoreBoard(t, b);
            if Any(t, DeletedOn(b, DAYS_90)) && Bytes(t, DeletedOn(b, DAYS_90)) <= FILE_TOTAL_MAX_SIZE
            then o == Commit(B.Reinstate(t, b, DAYS_90))
            else o.reply != Done
  {
  }

  lemma UserMarkedAndCleared(s: State, u: nat, window: int, seconds: nat)
    requires FilesSound(s.files, s.boards, s.nextFile) && Provenance(s.files, s.boards, s.users)
    requires LoggedIn(s, u) && seconds <= window
    ensures U.Reinstate(Later(U.Suspend(s, ByUser, u), seconds), u, window).files == s.files
  {
    var t := Later(U.Suspend(s, ByUser, u), seconds);
    var files := RestoreAllUserFiles(t.files, t.boards, u, window, t.now);
    forall i | i in s.files ensures files[i] == s.files[i] {
      assert FileSound(s.files[i], i, s.boards, s.nextFile);
      assert RowProvenance(s.files[i], s.boards, s.users);
    }
  }

  /**
   The return o is served, and but for totals the state is s again: the account's own row too, if it
   was not under a ban, and its boards with the right totals.
   */
  predicate AccountBack(s: State, u: nat, seconds: nat, o: Outcome)
    requires u in s.users
  {
    && o.reply == Done
    && SameButTotals(Later(s, seconds).(users := o.state.users), o.state)
    && o.state.users == s.users[u := s.users[u].(status := Active, banCount := 0)]
    && (o.state.users == s.users <==> s.users[u].banCount == 0)
    && (forall b :: b in s.boards && s.boards[b].owner == u ==> TotalExact(o.state, b))
  }

  /**
   Within the quota, a withdrawn account comes back within 7 days with all its files.  Its own row
   is the same again exactly when it was not under a ban: the restore wipes the ban counter.
   */
  lemma AccountRoundTrip(s: State, u: nat, seconds: nat)
    requires Sound(s) && QuotaOk(s)
    requires U.Withdraw(s, u, true).reply == Done && seconds <= DAYS_7
    ensures AccountBack(s, u, seconds, U.RestoreAccount(Later(U.Withdraw(s, u, true).state, seconds), u, true))
  {
    assert UserSound(s.users[u], u, s.nextUser);
    WithdrawnFits(s, u, seconds);
    AccountReturns(s, u, seconds);
  }

  lemma WithdrawnFits(s: State, u: nat, seconds: nat)
    requires Sound(s) && QuotaOk(s) && LoggedIn(s, u) && seconds <= DAYS_7
    ensures !U.Exceeds(Later(U.Suspend(s, ByUser, u), seconds), u)
  {
    StepKeeps(s, OfUser(Withdraw(u, true)));
    StepKeeps(U.Suspend(s, ByUser, u), OfClock(Tick(seconds)));
    ExceedsNeverFires(Later(U.Suspend(s, ByUser, u), seconds), u);
  }

  lemma AccountReturns(s: State, u: nat, seconds: nat)
    requires UniqueIds(s.users)
    requires FilesSound(s.files, s.boards, s.nextFile) && Provenance(s.files, s.boards, s.users)
    requires LoggedIn(s, u) && UserSound(s.users[u], u, s.nextUser) && seconds <= DAYS_7
    requires !U.Exceeds(Later(U.Withdraw(s, u, true).state, seconds), u)
    ensures AccountBack(s, u, seconds, U.RestoreAccount(Later(U.Withdraw(s, u, true).state, seconds), u, true))
  {
    AccountServed(s, u, seconds);
    UserMarkedAndCleared(s, u, DAYS_30, seconds);
    UserRowReturns(s, u);
    OnlyTotalsMove(s, u, DAYS_30, seconds);
  }

  lemma AccountServed(s: State, u: nat, seconds: nat)
    requires LoggedIn(s, u) && seconds <= DAYS_7
    requires !U.Exceeds(Later(U.Suspend(s, ByUser, u), seconds), u)
    ensures var t := Later(U.Suspend(s, ByUser, u), seconds);
            U.RestoreAccount(t, u, true) == Commit(U.Reinstate(t, u, DAYS_30))
  {
  }

  /** Withdrawal and return do nothing to the boards but write totals, in the end the right ones. */
  lemma OnlyTotalsMove(s: State, u: nat, window: int, seconds: nat)
    requires u in s.users
    ensures var t := U.Reinstate(Later(U.Suspend(s, ByUser, u), seconds), u, window);
            && SameButTotals(Later(s, seconds).(users := t.users, files := t.files), t)
            && (forall b :: b in s.boards && s.boards[b].owner == u ==> TotalExact(t, b))
  {
  }

  lemma UserRowReturns(s: State, u: nat)
    requires UniqueIds(s.users)
    requires LoggedIn(s, u) && UserSound(s.users[u], u, s.nextUser)
    ensures var gone := V.SoftDeleteUser(s.users, ByUser, u, s.now);
            var users := V.RestoreUserData(gone, gone[u].id);
            && users == s.users[u := s.users[u].(status := Active, banCount := 0)]
            && (users == s.users <==> s.users[u].banCount == 0)
  {
    var gone := V.SoftDeleteUser(s.users, ByUser, u, s.now);
    RestoreByIdIsByKey(gone, u);
    var users := V.RestoreUserData(gone, gone[u].id);
    assert users[u] == s.users[u].(status := Active, banCount := 0);
    assert s.users[u].banCount == 0 ==> users[u] == s.users[u];
  }

  // ---------- all files of a board at once ----------

  /** No file of board b was deleted by its owner so recently that the bulk restore would take it. */
  predicate NoEarlierDeletion(s: State, b: nat, now: int) {
    forall i :: i in s.files && s.files[i].board == b && s.files[i].deletedBy.ByUser? ==> !Within(s.files[i].deletedAt, DAYS_30, now)
  }

  /** Active files that went together come back with whatever the statement takes without them. */
  lemma AllMarkedAndCleared(s: State, b: nat, seconds: nat)
    requires FilesSound(s.files, s.boards, s.nextFile) && seconds <= DAYS_7
    ensures var gone := Later(s.(files := SoftDeleteAllBoardFiles(s.files, ByUser, b, s.now)), seconds);
            UserRestoreAllRestorableFiles(gone.files, b, gone.now) == UserRestoreAllRestorableFiles(s.files, b, gone.now)
  {
    var now := s.now + seconds;
    var back := UserRestoreAllRestorableFiles(SoftDeleteAllBoardFiles(s.files, ByUser, b, s.now), b, now);
    forall i | i in s.files ensures back[i] == UserRestoreAllRestorableFiles(s.files, b, now)[i] {
      assert FileSound(s.files[i], i, s.boards, s.nextFile);
    }
  }

  lemma AllMarkedBytes(s: State, b: nat, seconds: nat)
    requires FilesSound(s.files, s.boards, s.nextFile) && seconds <= DAYS_7
    ensures var gone := Later(s.(files := SoftDeleteAllBoardFiles(s.files, ByUser, b, s.now)), seconds);
            && ActiveBytes(gone, b) == 0
            && Bytes(gone, UserDeletedOn(b, DAYS_7)) == ActiveBytes(s, b) + Bytes(Later(s, seconds), UserDeletedOn(b, DAYS_7))
  {
    var gone := Later(s.(files := SoftDeleteAllBoardFiles(s.files, ByUser, b, s.now)), seconds);
    forall i | i in s.files ensures FileSound(s.files[i], i, s.boards, s.nextFile) {
    }
    SumZero(Query(gone.files, ActiveOn(b), gone.now), s.nextFile);
    SumAdd(Query(gone.files, UserDeletedOn(b, DAYS_7), gone.now), Query(s.files, ActiveOn(b), s.now),
           Query(s.files, UserDeletedOn(b, DAYS_7), gone.now), s.nextFile);
  }

  lemma RestoresNothingIff(s: State, b: nat, now: int)
    requires FilesSound(s.files, s.boards, s.nextFile)
    ensures UserRestoreAllRestorableFiles(s.files, b, now) == s.files <==> NoEarlierDeletion(s, b, now)
  {
    var files := UserRestoreAllRestorableFiles(s.files, b, now);
    if files == s.files {
      forall i | i in s.files && s.files[i].board == b && s.files[i].deletedBy.ByUser?
        ensures !Within(s.files[i].deletedAt, DAYS_30, now)
      {
        assert files[i] == s.files[i];
      }
    }
  }

  /** The bulk restore, once it finds something to restore, is decided by the bytes alone. */
  lemma BulkRestoreServedIff(t: State, u: nat, b: nat)
    requires FilesSound(t.files, t.boards, t.nextFile)
    requires LoggedIn(t, u) && BoardActive(t, b) && t.boards[b].owner == u
    ensures var o := F.RestoreAllFiles(t, u, true, b);
            var restorable := Bytes(t, UserDeletedOn(b, DAYS_7));
            && (o.reply == Done <==> restorable > 0 && ActiveBytes(t, b) + restorable <= FILE_TOTAL_MAX_SIZE)
            && (o.reply == Done ==> o == Commit(T.Recount(t.(files := UserRestoreAllRestorableFiles(t.files, b, t.now)), b)))
  {
    if !F.HasDeletedFile(t, b) {
      SumZero(Query(t.files, UserDeletedOn(b, DAYS_7), t.now), t.nextFile);
    }
  }

  /**
   All files of a board, deleted at once by their owner, come back at once within 7 days exactly if
   they and the owner's deletions of the last 7 days have a byte between them and fit the quota.
   With them come back the owner's other deletions of 30 days, so the files are those of the start
   exactly if there are none.
   */
  lemma AllFilesRoundTrip(s: State, u: nat, b: nat, seconds: nat)
    requires FilesSound(s.files, s.boards, s.nextFile)
    requires F.DeleteAllFiles(s, u, true, b).reply == Done && seconds <= DAYS_7
    ensures var o := F.RestoreAllFiles(Later(F.DeleteAllFiles(s, u, true, b).state, seconds), u, true, b);
            && (o.reply == Done <==>
                0 < ActiveBytes(s, b) + Bytes(Later(s, seconds), UserDeletedOn(b, DAYS_7)) <= FILE_TOTAL_MAX_SIZE)
            && (o.reply == Done ==>
                  SameButTotals(Later(s, seconds).(files := UserRestoreAllRestorableFiles(s.files, b, s.now + seconds)), o.state) &&
                  TotalExact(o.state, b) &&
                  (o.state.files == s.files <==> NoEarlierDeletion(s, b, s.now + seconds)))
  {
    var gone := Later(s.(files := SoftDeleteAllBoardFiles(s.files, ByUser, b, s.now)), seconds);
    var t := Later(F.DeleteAllFiles(s, u, true, b).state, seconds);
    AllMarkedAndCleared(s, b, seconds);
    AllMarkedBytes(s, b, seconds);
    RestoresNothingIff(s, b, s.now + seconds);
    assert ActiveBytes(t, b) == ActiveBytes(gone, b);
    assert Bytes(t, UserDeletedOn(b, DAYS_7)) == Bytes(gone, UserDeletedOn(b, DAYS_7));
    FileStepKeepsFiles(s, DeleteAllFiles(u, true, b));
    BulkRestoreServedIff(t, u, b);
  }
}
