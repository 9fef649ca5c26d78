/**
  The inbox of the coordinator does not matter: no run of the whole system goes
  differently if it is never consulted, and so none if it is purged too early.
*/
module SagaInbox {
  import opened Entities
  import opened Coordinator
  import P = PlaylistParticipant
  import L = LiveChatParticipant
  import opened SagaWorld
  import opened SagaCoupling
  import opened SagaHandlers
  import opened SagaInvariant
  import opened SagaEveryRun

  /** A step of the system whose coordinator takes every response for new. */
  ghost function UncheckedStep(w: World, a: Action): World {
    match a
    case Deliver(e) => if e !in w.responses then w else w.(coord := ProcessUnseen(w.coord, w.now, e))
    case PurgeInbox(_) => w
    case _ => Step(w, a)
  }

  ghost function UncheckedExec(w: World, acts: seq<Action>): World
    decreases |acts|
  {
    if acts == [] then w else UncheckedExec(UncheckedStep(w, acts[0]), acts[1..])
  }

  /** Equal but for the inbox and the time stamps of sagas. */
  ghost predicate SameButStamps(a: CoordinatorState, b: CoordinatorState) {
    && a.contents == b.contents
    && a.log == b.log
    && a.sagas.Keys == b.sagas.Keys
    && (forall s :: s in a.sagas ==> a.sagas[s].(updatedAt := 0) == b.sagas[s].(updatedAt := 0))
  }

  /** A record of a saga still started stands for an answer that is noted. */
  ghost predicate InboxTruthful(st: CoordinatorState) {
    forall m :: m in st.inbox && m.saga in st.sagas && st.sagas[m.saga].status == Started ==>
      NotedAlready(st.sagas[m.saga], m)
  }

  /** A started saga has neither failed nor all successes. */
  ghost predicate OpenRows(st: CoordinatorState) {
    forall s :: s in st.sagas && st.sagas[s].status == Started ==> !st.sagas[s].AnyFailed() && !st.sagas[s].AllSuccess()
  }

  predicate NotedAlready(row: SagaRow, m: MessageId) {
    && m.answer != Refused
    && (m.participant == Playlist ==> m.answer == Succeeded && row.playlist == Success)
    && (m.participant == WatchingSession ==> m.answer == Succeeded && row.watching == Success)
  }

  /** Handling a recorded response once more would only move a time stamp. */
  lemma RecordedIsIdempotent(st: CoordinatorState, now: Time, e: Response)
    requires OpenRows(st) && InboxTruthful(st) && e.MessageKey() in st.inbox
    ensures SameButStamps(st, ProcessUnseen(st, now, e))
  {
  }

  predicate SameRow(x: SagaRow, y: SagaRow) {
    x.(updatedAt := 0) == y.(updatedAt := 0)
  }

  lemma SameAfterUnlock(a: CoordinatorState, b: CoordinatorState, s: Id, x: SagaRow, y: SagaRow, c: Id, now: Time)
    requires SameButStamps(a, b) && SameRow(x, y)
    ensures SameButStamps(SaveSaga(a, s, x), SaveSaga(b, s, y))
    ensures SameButStamps(
              Publish(RestoreContent(SaveSaga(a, s, x), c, now), s, c),
              Publish(RestoreContent(SaveSaga(b, s, y), c, now), s, c))
    ensures SameButStamps(RemoveContent(SaveSaga(a, s, x), c, now), RemoveContent(SaveSaga(b, s, y), c, now))
  {
  }

  lemma SameNoted(a: CoordinatorState, b: CoordinatorState, now: Time, e: Response)
    requires SameButStamps(a, b)
    ensures e.saga in a.sagas <==> e.saga in b.sagas
    ensures e.saga in a.sagas ==>
              && a.sagas[e.saga].Finished() == b.sagas[e.saga].Finished()
              && SameRow(
                   a.sagas[e.saga].Noted(e.participant, e.answer, now),
                   b.sagas[e.saga].Noted(e.participant, e.answer, now))
  {
    if e.saga in a.sagas {
      assert SameRow(a.sagas[e.saga], b.sagas[e.saga]);
    }
  }

  lemma UnseenIsACongruence(a: CoordinatorState, b: CoordinatorState, now: Time, e: Response)
    requires SameButStamps(a, b)
    ensures SameButStamps(ProcessUnseen(a, now, e), ProcessUnseen(b, now, e))
  {
    hide SameButStamps, SaveSaga, Publish, RestoreContent, RemoveContent;
    SameNoted(a, b, now, e);
    if e.saga in a.sagas && !a.sagas[e.saga].Finished() {
      var x, y := a.sagas[e.saga].Noted(e.participant, e.answer, now), b.sagas[e.saga].Noted(e.participant, e.answer, now);
      var status := if e.answer == Refused || x.AnyFailed() then SagaStatus.Failed
                    else if x.AllSuccess() then Completed else x.status;
      SameAfterUnlock(a, b, e.saga, x.(status := status), y.(status := status), e.content, now);
      SameAfterUnlock(a, b, e.saga, x, y, e.content, now);
    }
  }

  // ---------- Every step ----------

  lemma UnseenOpen(st: CoordinatorState, now: Time, e: Response)
    requires OpenRows(st)
    ensures OpenRows(ProcessUnseen(st, now, e))
  {
  }

  /** Handling a response leaves every other saga alone, and notes it if its own saga goes on. */
  lemma UnseenNotes(st: CoordinatorState, now: Time, e: Response)
    ensures var after := ProcessUnseen(st, now, e);
            && after.inbox == st.inbox && after.sagas.Keys == st.sagas.Keys
            && (forall s :: s in st.sagas && s != e.saga ==> after.sagas[s] == st.sagas[s])
            && (e.saga in st.sagas && after.sagas[e.saga].status == Started ==>
                  && st.sagas[e.saga].status == Started
                  && e.answer != Refused && !after.sagas[e.saga].AnyFailed()
                  && after.sagas[e.saga] == st.sagas[e.saga].Noted(e.participant, e.answer, now))
  {
  }

  lemma UnseenTruthful(st: CoordinatorState, now: Time, e: Response)
    requires InboxTruthful(st) && OpenRows(st)
    ensures InboxTruthful(HandleResponse(st, now, e)) && OpenRows(HandleResponse(st, now, e))
  {
    hide ProcessUnseen;
    UnseenOpen(st, now, e);
    UnseenNotes(st, now, e);
    var after := HandleResponse(st, now, e);
    forall m | m in after.inbox && m.saga in after.sagas && after.sagas[m.saga].status == Started
      ensures NotedAlready(after.sagas[m.saga], m)
    {
      if m in st.inbox {
        assert NotedAlready(st.sagas[m.saga], m);
      }
    }
  }

  lemma SweepTruthful(st: CoordinatorState, now: Time, ids: seq<Id>)
    requires InboxTruthful(st) && OpenRows(st) && ListsTimedOut(st, now - TIMEOUT, ids)
    ensures InboxTruthful(Sweep(st, now, ids)) && OpenRows(Sweep(st, now, ids))
  {
    hide TimeOutAll, NotedAlready;
    TimeOutAllSagas(st, now, ids);
    TimeOutAllInbox(st, now, ids);
  }

  lemma StartTruthful(st: CoordinatorState, c: Id, s: Id, lockedAt: Time, createdAt: Time)
    requires InboxTruthful(st) && OpenRows(st) && InboxKnown(st) && s !in st.sagas
    ensures InboxTruthful(StartDeletion(st, c, s, lockedAt, createdAt))
    ensures OpenRows(StartDeletion(st, c, s, lockedAt, createdAt))
  {
    hide NotedAlready;
  }

  ghost predicate Truthful(w: World) {
    Steady(w) && InboxTruthful(w.coord) && OpenRows(w.coord)
  }

  lemma KnownIn(w: World)
    requires Steady(w)
    ensures InboxKnown(w.coord)
  {
  }

  lemma StepTruthful(w: World, a: Action)
    requires Truthful(w)
    ensures Truthful(Step(w, a))
  {
    hide Steady, NotedAlready, HandleResponse, Sweep, StartDeletion;
    StepSteady(w, a);
    match a
    case Deliver(e) => UnseenTruthful(w.coord, w.now, e);
    case Tick(ids) =>
      if Sweeps(w, a) {
        SweepTruthful(w.coord, w.now, ids);
      }
    case Delete(c, s, delay) =>
      KnownIn(w);
      if s !in w.coord.sagas {
        StartTruthful(w.coord, c, s, w.now, w.now + delay);
      }
    case _ =>
  }

  // ---------- Both systems step alike ----------

  lemma TimeOutOneIsACongruence(a: CoordinatorState, b: CoordinatorState, now: Time, s: Id)
    requires SameButStamps(a, b)
    ensures SameButStamps(TimeOutOne(a, now, s), TimeOutOne(b, now, s))
  {
    hide SameButStamps, SaveSaga, Publish, RestoreContent;
    SameIn(a, b, s);
    if s in a.sagas {
      var x, y := a.sagas[s], b.sagas[s];
      SameAfterUnlock(
        a, b, s, x.(status := TimedOut, updatedAt := now), y.(status := TimedOut, updatedAt := now), x.content, now);
    }
  }

  lemma SameIn(a: CoordinatorState, b: CoordinatorState, s: Id)
    requires SameButStamps(a, b)
    ensures s in a.sagas <==> s in b.sagas
    ensures s in a.sagas ==>
              && SameRow(a.sagas[s], b.sagas[s])
              && a.sagas[s].content == b.sagas[s].content && a.sagas[s].status == b.sagas[s].status
              && a.sagas[s].createdAt == b.sagas[s].createdAt
  {
    if s in a.sagas {
      assert SameRow(a.sagas[s], b.sagas[s]);
    }
  }

  lemma {:induction false} TimeOutAllIsACongruence(a: CoordinatorState, b: CoordinatorState, now: Time, ids: seq<Id>)
    requires SameButStamps(a, b)
    ensures SameButStamps(TimeOutAll(a, now, ids), TimeOutAll(b, now, ids))
    decreases |ids|
  {
    hide SameButStamps, TimeOutOne;
    if ids != [] {
      var n := |ids| - 1;
      TimeOutAllIsACongruence(a, b, now, ids[..n]);
      TimeOutOneIsACongruence(TimeOutAll(a, now, ids[..n]), TimeOutAll(b, now, ids[..n]), now, ids[n]);
    }
  }

  lemma SweepIsACongruence(a: CoordinatorState, b: CoordinatorState, now: Time, ids: seq<Id>)
    requires SameButStamps(a, b)
    ensures ListsTimedOut(a, now - TIMEOUT, ids) <==> ListsTimedOut(b, now - TIMEOUT, ids)
    ensures SameButStamps(Sweep(a, now, ids), Sweep(b, now, ids))
  {
    hide TimeOutAll;
    forall s: Id {
      SameIn(a, b, s);
    }
    TimeOutAllIsACongruence(a, b, now, ids);
  }

  lemma StartIsACongruence(a: CoordinatorState, b: CoordinatorState, c: Id, s: Id, lockedAt: Time, createdAt: Time)
    requires SameButStamps(a, b)
    ensures SameButStamps(StartDeletion(a, c, s, lockedAt, createdAt), StartDeletion(b, c, s, lockedAt, createdAt))
  {
  }

  /** Handled or passed over as recorded, a response leaves both coordinators alike. */
  lemma ResponsesAlike(a: CoordinatorState, b: CoordinatorState, now: Time, e: Response)
    requires SameButStamps(a, b) && InboxTruthful(a) && OpenRows(a)
    ensures SameButStamps(HandleResponse(a, now, e), ProcessUnseen(b, now, e))
  {
    hide InboxTruthful, OpenRows, ProcessUnseen;
    UnseenIsACongruence(a, b, now, e);
    if e.MessageKey() in a.inbox {
      RecordedIsIdempotent(a, now, e);
    }
  }

  /** Two systems that differ only in the coordinator's inbox and the time stamps of its sagas. */
  ghost predicate SameSystem(w: World, v: World) {
    SameButStamps(w.coord, v.coord) && v == w.(coord := v.coord)
  }

  lemma StepsAlike(w: World, v: World, a: Action)
    requires SameSystem(w, v) && Truthful(w)
    ensures SameSystem(Step(w, a), UncheckedStep(v, a))
  {
    hide Steady, InboxTruthful, OpenRows, HandleResponse, ProcessUnseen, Sweep, StartDeletion, ListsTimedOut;
    match a
    case Deliver(e) => ResponsesAlike(w.coord, v.coord, w.now, e);
    case Tick(ids) => SweepIsACongruence(w.coord, v.coord, w.now, ids);
    case Delete(c, s, delay) =>
      SameIn(w.coord, v.coord, s);
      StartIsACongruence(w.coord, v.coord, c, s, w.now, w.now + delay);
    case PurgeInbox(_) =>
    case _ => OthersAlike(w, v, a);
  }

  lemma OthersAlike(w: World, v: World, a: Action)
    requires SameSystem(w, v) && !a.Deliver? && !a.Tick? && !a.Delete? && !a.PurgeInbox?
    ensures SameSystem(Step(w, a), Step(v, a))
  {
    hide P.Handle, P.Answers, L.Handle, L.Answers;
  }

  lemma {:induction false} RunsAlike(w: World, v: World, acts: seq<Action>)
    requires SameSystem(w, v) && Truthful(w)
    ensures SameSystem(Exec(w, acts), UncheckedExec(v, acts))
    decreases |acts|
  {
    hide Step, UncheckedStep, SameSystem, Truthful;
    if acts != [] {
      StepTruthful(w, acts[0]);
      StepsAlike(w, v, acts[0]);
      RunsAlike(Step(w, acts[0]), UncheckedStep(v, acts[0]), acts[1..]);
    }
  }

  /**
    With or without the check, and however and whenever its inbox is purged, in
    every run the whole system ends the same but for the time stamps of sagas: same
    contents, sagas, topic, participants and responses.
  */
  lemma InboxIsIrrelevant(acts: seq<Action>)
    ensures SameSystem(Exec(GENESIS, acts), UncheckedExec(GENESIS, acts))
  {
    hide Step, UncheckedStep, Steady;
    GenesisSteady();
    RunsAlike(GENESIS, GENESIS, acts);
  }
}
