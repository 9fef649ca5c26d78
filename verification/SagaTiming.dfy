/**
  The two clocks of the start step, and how long a content can stay locked.
*/
module SagaTiming {
  import opened Entities
  import opened Coordinator
  import P = PlaylistParticipant
  import L = LiveChatParticipant
  import opened SagaWorld
  import opened SagaCoupling
  import opened SagaHandlers
  import opened SagaInvariant
  import opened SagaRuns
  import opened SagaEveryRun
  import opened SagaTheorems

  /** The scheduler runs at least this often. */
  const TICK_PERIOD: nat := 60_000

  // ---------- One instant for lock and stamp ----------

  /** No started saga is stamped after the last change of its content, nor in the future. */
  ghost predicate Stamped(w: World) {
    forall s :: s in w.coord.sagas && w.coord.sagas[s].status == Started
                && w.coord.sagas[s].content in w.coord.contents ==>
      w.coord.sagas[s].createdAt <= w.coord.contents[w.coord.sagas[s].content].updatedAt <= w.now
  }

  lemma StampedNeverStraddles(w: World, threshold: int)
    requires Stamped(w)
    ensures !Straddled(w.coord, threshold)
  {
  }

  /** A content driven by a started saga is changed by nothing but edits while the saga runs. */
  lemma ResponseLeavesOthers(st: CoordinatorState, now: Time, e: Response, s: Id)
    requires Coupled(st) && Echoes(st, e) && s in HandleResponse(st, now, e).sagas
    requires HandleResponse(st, now, e).sagas[s].status == Started
    ensures s in st.sagas && st.sagas[s].status == Started
    ensures HandleResponse(st, now, e).sagas[s].content == st.sagas[s].content
    ensures HandleResponse(st, now, e).sagas[s].createdAt == st.sagas[s].createdAt
    ensures var c := st.sagas[s].content;
            && c in st.contents && c in HandleResponse(st, now, e).contents
            && HandleResponse(st, now, e).contents[c] == st.contents[c]
  {
    if s in st.sagas {
      assert RowCoupled(st, s);
    }
    if e.saga in st.sagas && s in st.sagas && st.sagas[e.saga].status == Started {
      OthersDriveOthers(st, e.saga);
    }
  }

  lemma SweepLeavesOthers(st: CoordinatorState, now: Time, ids: seq<Id>, s: Id)
    requires CoordSound(st) && ListsTimedOut(st, now - TIMEOUT, ids) && !Straddled(st, now - TIMEOUT)
    requires s in Sweep(st, now, ids).sagas && Sweep(st, now, ids).sagas[s].status == Started
    ensures s in st.sagas && st.sagas[s] == Sweep(st, now, ids).sagas[s]
    ensures var c := st.sagas[s].content;
            c in st.contents && c in Sweep(st, now, ids).contents && Sweep(st, now, ids).contents[c] == st.contents[c]
  {
    hide LogSound;
    SweepSoundIff(st, now, ids);
    TimeOutAllSagas(st, now, ids);
    OnlyDriver(st, s, ids);
    TimeOutAllFrame(st, now, ids, st.sagas[s].content);
  }

  lemma StepStamped(w: World, a: Action)
    requires Inv(w) && Stamped(w) && (a.Delete? ==> a.delay == 0)
    ensures Stamped(Step(w, a))
  {
    hide LogSound, PlaylistSound, VotesSound, CurationsSound, Recorded, HandleResponse, Sweep;
    StampedNeverStraddles(w, w.now - TIMEOUT);
    match a
    case Deliver(e) =>
      if e in w.responses {
        ResponseStamped(w, e);
      }
    case Tick(ids) =>
      if ListsTimedOut(w.coord, w.now - TIMEOUT, ids) {
        SweepStamped(w, ids);
      }
    case _ =>
  }

  lemma ResponseStamped(w: World, e: Response)
    requires Coupled(w.coord) && Stamped(w) && Echoes(w.coord, e)
    ensures Stamped(w.(coord := HandleResponse(w.coord, w.now, e)))
  {
    hide Coupled, HandleResponse;
    var after := HandleResponse(w.coord, w.now, e);
    forall s | s in after.sagas && after.sagas[s].status == Started
      ensures s in w.coord.sagas && w.coord.sagas[s].status == Started
      ensures after.sagas[s].content == w.coord.sagas[s].content && after.sagas[s].createdAt == w.coord.sagas[s].createdAt
      ensures w.coord.sagas[s].content in w.coord.contents && w.coord.sagas[s].content in after.contents
      ensures after.contents[w.coord.sagas[s].content] == w.coord.contents[w.coord.sagas[s].content]
    {
      ResponseLeavesOthers(w.coord, w.now, e, s);
    }
  }

  lemma SweepStamped(w: World, ids: seq<Id>)
    requires CoordSound(w.coord) && Stamped(w) && ListsTimedOut(w.coord, w.now - TIMEOUT, ids)
    requires !Straddled(w.coord, w.now - TIMEOUT)
    ensures Stamped(Step(w, Tick(ids)))
  {
    hide CoordSound, Sweep;
    var after := Step(w, Tick(ids));
    forall s | s in after.coord.sagas && after.coord.sagas[s].status == Started
      && after.coord.sagas[s].content in after.coord.contents
      ensures after.coord.sagas[s].createdAt <= after.coord.contents[after.coord.sagas[s].content].updatedAt <= after.now
    {
      SweepLeavesOthers(w.coord, w.now, ids, s);
    }
  }

  /** If both clock readings of every start step agree, no tick straddles. */
  lemma {:induction false} SameInstantNeverStraddles(w: World, acts: seq<Action>)
    requires Inv(w) && Stamped(w) && SameInstant(acts)
    ensures NoTickStraddles(w, acts)
    ensures Stamped(Exec(w, acts))
    decreases |acts|
  {
    hide Inv, Step, Stamped, Straddled;
    if acts != [] {
      StampedNeverStraddles(w, w.now - TIMEOUT);
      StepSound(w, acts[0]);
      StepStamped(w, acts[0]);
      SameInstantNeverStraddles(Step(w, acts[0]), acts[1..]);
    }
  }

  /**
    In every run with one instant for lock and stamp, the saga of a locked
    content is stamped no later than the content's last change.
  */
  lemma LockIsNotOlderThanSaga(acts: seq<Action>, c: Id, s: Id)
    requires SameInstant(acts) && Drives(Exec(GENESIS, acts).coord, s, c, Started)
    ensures NoTickStraddles(GENESIS, acts)
    ensures var st := Exec(GENESIS, acts).coord;
            ContentIs(st, c, Deleting) && st.sagas[s].createdAt <= st.contents[c].updatedAt
  {
    hide Exec, NoTickStraddles, LogSound, PlaylistSound, ResponsesSound, VotesSound, CurationsSound;
    GenesisSound();
    SameInstantNeverStraddles(GENESIS, acts);
    ReachableSound(acts);
  }

  // ---------- The lock is bounded ----------

  /** Time never moves more than a period past the last run of the scheduler. */
  ghost predicate TicksInTime(w: World, acts: seq<Action>)
    decreases |acts|
  {
    acts == [] ||
    (&& (acts[0].Advance? ==> w.now + acts[0].ms <= w.lastTick + TICK_PERIOD)
     && TicksInTime(Step(w, acts[0]), acts[1..]))
  }

  /** Every started saga survived the last run of the scheduler, or began after it. */
  ghost predicate Recent(w: World) {
    && w.lastTick <= w.now <= w.lastTick + TICK_PERIOD
    && (forall s :: s in w.coord.sagas && w.coord.sagas[s].status == Started ==>
          w.lastTick <= w.coord.sagas[s].createdAt + TIMEOUT)
  }

  lemma StepRecent(w: World, a: Action)
    requires Recent(w) && (a.Advance? ==> w.now + a.ms <= w.lastTick + TICK_PERIOD)
    ensures Recent(Step(w, a))
  {
    if a.Tick? && ListsTimedOut(w.coord, w.now - TIMEOUT, a.ids) {
      TimeOutAllSagas(w.coord, w.now, a.ids);
    }
  }

  lemma {:induction false} RunRecent(w: World, acts: seq<Action>)
    requires Recent(w) && TicksInTime(w, acts)
    ensures Recent(Exec(w, acts))
    decreases |acts|
  {
    hide Step, Recent;
    if acts != [] {
      StepRecent(w, acts[0]);
      RunRecent(Step(w, acts[0]), acts[1..]);
    }
  }

  /** A saga is never still started more than 240 seconds after its creation. */
  lemma SagaEndsInTime(acts: seq<Action>, s: Id)
    requires TicksInTime(GENESIS, acts) && s in Exec(GENESIS, acts).coord.sagas
    requires Exec(GENESIS, acts).coord.sagas[s].status == Started
    ensures Exec(GENESIS, acts).now <= Exec(GENESIS, acts).coord.sagas[s].createdAt + 240_000
  {
    hide Step;
    RunRecent(GENESIS, acts);
  }

  /**
    In every run with timely sweeps a locked content is named by a started saga,
    and so is never still locked more than 240 seconds after that was created.
  */
  lemma LockEndsInTime(acts: seq<Action>, c: Id)
    requires TicksInTime(GENESIS, acts)
    requires ContentIs(Exec(GENESIS, acts).coord, c, Deleting)
    ensures exists s :: Drives(Exec(GENESIS, acts).coord, s, c, Started)
                        && Exec(GENESIS, acts).now <= Exec(GENESIS, acts).coord.sagas[s].createdAt + 240_000
  {
    hide Exec, Step, TicksInTime, Tallied, RowsNamed, PlaylistSound, ResponsesSound;
    ReachableSteady(acts);
    var s :| Drives(Exec(GENESIS, acts).coord, s, c, Started);
    SagaEndsInTime(acts, s);
  }
}
