/**
  Every handler of the coordinator keeps contents, sagas and topic coupled, and
  lets the state evolve only forward.
*/
module SagaHandlers {
  import opened Entities
  import opened Coordinator
  import opened SagaWorld
  import opened SagaCoupling

  /** Nothing finished changes, nothing removed returns, nothing logged is lost. */
  ghost predicate Evolves(st: CoordinatorState, after: CoordinatorState) {
    && (forall s :: s in st.sagas ==> s in after.sagas && RowEvolves(st.sagas[s], after.sagas[s]))
    && (forall c :: c in st.contents ==>
          c in after.contents && (st.contents[c].status == Deleted ==> after.contents[c].status == Deleted))
    && st.log <= after.log
  }

  predicate RowEvolves(row: SagaRow, after: SagaRow) {
    && after.content == row.content
    && after.createdAt == row.createdAt
    && (row.Finished() ==> after == row)
  }

  lemma EvolvesReflexive(st: CoordinatorState)
    ensures Evolves(st, st)
  {
  }

  lemma EvolvesTransitive(a: CoordinatorState, b: CoordinatorState, c: CoordinatorState)
    requires Evolves(a, b) && Evolves(b, c)
    ensures Evolves(a, c)
  {
    assert a.log == b.log[..|a.log|] == c.log[..|a.log|];
  }

  /** A response that echoes the content of its saga. */
  predicate Echoes(st: CoordinatorState, e: Response) {
    e.saga in st.sagas ==> st.sagas[e.saga].content == e.content
  }

  lemma UndoSound(st: CoordinatorState, s: Id, row: SagaRow, now: Time)
    requires CoordSound(st) && s in st.sagas && st.sagas[s].status == Started
    requires row.content == st.sagas[s].content && row.createdAt == st.sagas[s].createdAt && Undone(row)
    ensures CoordSound(Undo(st, s, row, now)) && Evolves(st, Undo(st, s, row, now))
  {
    hide Coupled, LogSound;
    UndoCoupled(st, s, row, now);
    UndoLog(st, s, row, now);
  }

  lemma CompleteSound(st: CoordinatorState, s: Id, row: SagaRow, now: Time)
    requires CoordSound(st) && s in st.sagas && st.sagas[s].status == Started
    requires row.content == st.sagas[s].content && row.createdAt == st.sagas[s].createdAt
    requires row.status == Completed && row.AllSuccess()
    ensures CoordSound(Complete(st, s, row, now)) && Evolves(st, Complete(st, s, row, now))
  {
    hide Coupled, LogSound;
    CompleteCoupled(st, s, row, now);
    SameLog(st, Complete(st, s, row, now));
  }

  lemma NoteSound(st: CoordinatorState, s: Id, row: SagaRow)
    requires CoordSound(st) && s in st.sagas && st.sagas[s].status == Started
    requires row.content == st.sagas[s].content && row.createdAt == st.sagas[s].createdAt
    requires row.status == Started && !row.AnyFailed() && !row.AllSuccess()
    ensures CoordSound(SaveSaga(st, s, row)) && Evolves(st, SaveSaga(st, s, row))
  {
    hide Coupled, LogSound;
    NoteCoupled(st, s, row);
    SameLog(st, SaveSaga(st, s, row));
  }

  lemma ProcessUnseenSound(st: CoordinatorState, now: Time, e: Response)
    requires CoordSound(st) && Echoes(st, e)
    ensures CoordSound(ProcessUnseen(st, now, e)) && Evolves(st, ProcessUnseen(st, now, e))
  {
    hide CoordSound;
    EvolvesReflexive(st);
    if e.saga in st.sagas && !st.sagas[e.saga].Finished() {
      var noted := st.sagas[e.saga].Noted(e.participant, e.answer, now);
      if e.answer == Refused || noted.AnyFailed() {
        UndoSound(st, e.saga, noted.(status := SagaStatus.Failed), now);
      } else if noted.AllSuccess() {
        CompleteSound(st, e.saga, noted.(status := Completed), now);
      } else {
        NoteSound(st, e.saga, noted);
      }
    }
  }

  /** The inbox does not matter to what is coupled. */
  lemma InboxSound(st: CoordinatorState, inbox: map<MessageId, Time>)
    requires CoordSound(st)
    ensures CoordSound(st.(inbox := inbox)) && Evolves(st, st.(inbox := inbox))
  {
    ContentsCoupled(st, st.(inbox := inbox));
    SameLog(st, st.(inbox := inbox));
  }

  lemma HandleResponseSound(st: CoordinatorState, now: Time, e: Response)
    requires CoordSound(st) && Echoes(st, e)
    ensures CoordSound(HandleResponse(st, now, e)) && Evolves(st, HandleResponse(st, now, e))
  {
    hide CoordSound, ProcessUnseen, Evolves;
    ProcessUnseenSound(st, now, e);
    EvolvesReflexive(st);
    var after := ProcessUnseen(st, now, e);
    InboxSound(after, after.inbox[e.MessageKey() := now]);
    EvolvesTransitive(st, after, after.(inbox := after.inbox[e.MessageKey() := now]));
  }

  lemma StartSound(st: CoordinatorState, c: Id, s: Id, lockedAt: Time, createdAt: Time)
    requires CoordSound(st) && s !in st.sagas
    ensures CoordSound(StartDeletion(st, c, s, lockedAt, createdAt))
    ensures Evolves(st, StartDeletion(st, c, s, lockedAt, createdAt))
  {
    hide Coupled, LogSound;
    StartCoupled(st, c, s, lockedAt, createdAt);
    StartLog(st, c, s, lockedAt, createdAt);
  }

  lemma ContentsSound(st: CoordinatorState, after: CoordinatorState)
    requires CoordSound(st) && after.sagas == st.sagas && after.log == st.log
    requires st.contents.Keys <= after.contents.Keys
    requires forall c :: c in after.contents ==>
                           after.contents[c].status == if c in st.contents then st.contents[c].status else Active
    ensures CoordSound(after) && Evolves(st, after)
  {
    hide Coupled, LogSound;
    ContentsCoupled(st, after);
    SameLog(st, after);
  }

  // ---------- The timeout scheduler ----------

  /** What the first loop does to the sagas: exactly the listed ones are timed out. */
  lemma {:induction false} TimeOutAllSagas(st: CoordinatorState, now: Time, ids: seq<Id>)
    requires forall s :: s in ids ==> s in st.sagas
    ensures TimeOutAll(st, now, ids).sagas == map s | s in st.sagas ::
              if s in ids then st.sagas[s].(status := TimedOut, updatedAt := now) else st.sagas[s]
    decreases |ids|
  {
    if ids != [] {
      var n := |ids| - 1;
      assert ids == ids[..n] + [ids[n]];
      TimeOutAllSagas(st, now, ids[..n]);
    }
  }

  lemma {:induction false} TimeOutAllInbox(st: CoordinatorState, now: Time, ids: seq<Id>)
    ensures TimeOutAll(st, now, ids).inbox == st.inbox
    decreases |ids|
  {
    if ids != [] {
      TimeOutAllInbox(st, now, ids[..|ids| - 1]);
    }
  }

  /** Timing out some started sagas, each once, in any order. */
  lemma {:induction false} TimeOutAllSound(st: CoordinatorState, now: Time, ids: seq<Id>)
    requires CoordSound(st)
    requires forall i, j :: 0 <= i < j < |ids| ==> ids[i] != ids[j]
    requires forall s :: s in ids ==> s in st.sagas && st.sagas[s].status == Started
    ensures CoordSound(TimeOutAll(st, now, ids)) && Evolves(st, TimeOutAll(st, now, ids))
    decreases |ids|
  {
    hide CoordSound, Evolves;
    EvolvesReflexive(st);
    if ids != [] {
      var n := |ids| - 1;
      var earlier, s := ids[..n], ids[n];
      assert s in ids && s !in earlier;
      assert forall t :: t in earlier ==> t in ids;
      TimeOutAllSound(st, now, earlier);
      TimeOutAllSagas(st, now, earlier);
      var mid := TimeOutAll(st, now, earlier);
      assert mid.sagas[s] == st.sagas[s];
      UndoSound(mid, s, mid.sagas[s].(status := TimedOut, updatedAt := now), now);
      EvolvesTransitive(st, mid, TimeOutAll(st, now, ids));
    }
  }

  /** Contents that no timed-out saga names are not touched by the first loop. */
  lemma {:induction false} TimeOutAllFrame(st: CoordinatorState, now: Time, ids: seq<Id>, c: Id)
    requires c in st.contents
    requires forall s :: s in ids && s in st.sagas ==> st.sagas[s].content != c
    ensures c in TimeOutAll(st, now, ids).contents && TimeOutAll(st, now, ids).contents[c] == st.contents[c]
    ensures forall s :: s in TimeOutAll(st, now, ids).sagas ==>
                          s in st.sagas && TimeOutAll(st, now, ids).sagas[s].content == st.sagas[s].content
    decreases |ids|
  {
    if ids != [] {
      var n := |ids| - 1;
      assert ids[n] in ids;
      assert forall t :: t in ids[..n] ==> t in ids;
      TimeOutAllFrame(st, now, ids[..n], c);
    }
  }

  /** After the first loop, the safety net finds work exactly where a lock is older than the threshold and its saga is not. */
  lemma FallbackFindsStraddled(st: CoordinatorState, now: Time, threshold: int, ids: seq<Id>)
    requires CoordSound(st) && ListsTimedOut(st, threshold, ids)
    ensures var after := TimeOutAll(st, now, ids);
            (exists c :: c in after.contents && Stale(after.contents[c], threshold)) <==> Straddled(st, threshold)
  {
    TimeOutAllSound(st, now, ids);
    TimeOutAllSagas(st, now, ids);
    var after := TimeOutAll(st, now, ids);
    if c :| c in after.contents && Stale(after.contents[c], threshold) {
      var s :| Drives(after, s, c, Started);
      assert s !in ids && Drives(st, s, c, Started);
      OnlyDriver(st, s, ids);
      TimeOutAllFrame(st, now, ids, c);
      assert Straddles(st, threshold, s);
    }
    if s :| Straddles(st, threshold, s) {
      var c := st.sagas[s].content;
      OnlyDriver(st, s, ids);
      TimeOutAllFrame(st, now, ids, c);
      assert Stale(after.contents[c], threshold);
    }
  }

  lemma OnlyDriver(st: CoordinatorState, s: Id, ids: seq<Id>)
    requires Coupled(st) && s in st.sagas && st.sagas[s].status == Started && s !in ids
    requires forall t :: t in ids ==> t in st.sagas && st.sagas[t].status == Started
    ensures forall t :: t in ids ==> st.sagas[t].content != st.sagas[s].content
  {
    OthersDriveOthers(st, s);
  }

  /** The safety net unlocks the content of a saga that goes on. */
  lemma StraddledBreaks(st: CoordinatorState, now: Time, ids: seq<Id>, s: Id)
    requires CoordSound(st) && ListsTimedOut(st, now - TIMEOUT, ids) && Straddles(st, now - TIMEOUT, s)
    ensures !Coupled(Sweep(st, now, ids))
  {
    hide LogSound, TimeOutAll;
    var c := st.sagas[s].content;
    var after := Sweep(st, now, ids);
    TimeOutAllSagas(st, now, ids);
    OnlyDriver(st, s, ids);
    TimeOutAllFrame(st, now, ids, c);
    assert after.contents[c].status == Active && after.sagas[s].status == Started;
  }

  lemma FallbackIdle(st: CoordinatorState, now: Time, threshold: int)
    requires forall c :: c in st.contents ==> !Stale(st.contents[c], threshold)
    ensures Fallback(st, now, threshold) == st
  {
    assert Fallback(st, now, threshold).contents == st.contents;
  }

  /**
    A run of the scheduler keeps everything coupled exactly when no lock
    straddles its threshold; then the second loop does nothing.
  */
  lemma SweepSoundIff(st: CoordinatorState, now: Time, ids: seq<Id>)
    requires CoordSound(st) && ListsTimedOut(st, now - TIMEOUT, ids)
    ensures CoordSound(Sweep(st, now, ids)) <==> !Straddled(st, now - TIMEOUT)
    ensures !Straddled(st, now - TIMEOUT) ==>
              Sweep(st, now, ids) == TimeOutAll(st, now, ids) && Evolves(st, Sweep(st, now, ids))
  {
    hide Coupled, LogSound, TimeOutAll, Fallback, Stale, Straddles, Evolves;
    var threshold := now - TIMEOUT;
    TimeOutAllSound(st, now, ids);
    FallbackFindsStraddled(st, now, threshold, ids);
    if s :| Straddles(st, threshold, s) {
      StraddledBreaks(st, now, ids, s);
    } else {
      FallbackIdle(TimeOutAll(st, now, ids), now, threshold);
    }
  }
}
