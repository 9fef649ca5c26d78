/**
  Runs that show where the promises of the saga end: two clock readings that a
  sweep falls between, and a curation its user had removed.
*/
module SagaCounterexamples {
  import opened Entities
  import opened Coordinator
  import P = PlaylistParticipant
  import L = LiveChatParticipant
  import opened SagaWorld
  import SagaCoupling
  import opened SagaTheorems
  import opened SagaLossless
  import W = WatchingSessions

  const CONTENT: Id := 7
  const SAGA: Id := 1
  const LIST: P.Key := P.Key(3, 7)
  const FILM := ContentRow(Active, 0, 0, 0, 0)

  lemma ExecSnoc(w: World, acts: seq<Action>, a: Action)
    ensures Exec(w, acts + [a]) == Step(Exec(w, acts), a)
  {
    hide Step;
    ExecAppend(w, acts, [a]);
    var before := Exec(w, acts);
    assert Exec(before, [a]) == Exec(Step(before, a), [a][1..]);
    assert [a][1..] == [];
  }

  // ---------- A sweep between the two clock readings ----------

  /** The lock reads the clock one millisecond before the saga is stamped. */
  const DELETION: seq<Action> := [CreateContent(CONTENT, FILM), Delete(CONTENT, SAGA, 1), PlaylistReads(0, P.NoFault)]

  /** The state of a deletion that playlist has carried out and chat has not read. */
  ghost predicate HalfWay(w: World, status: ContentStatus, lockedAt: Time) {
    && ContentIs(w.coord, CONTENT, status) && w.coord.contents[CONTENT].updatedAt == lockedAt
    && w.coord.sagas == map[SAGA := SagaRow(CONTENT, Started, Pending, Pending, 1, 1)]
    && w.coord.inbox == map[] && w.coord.log == [Start(SAGA, CONTENT)]
    && w.playlist.inbox == map[P.StartOf(SAGA) := P.Done] && w.playlist.curations == map[]
    && w.playlistRead == 1 && w.chatRead == 0
    && w.chat.inbox == map[]
    && w.responses == {Response(SAGA, CONTENT, Playlist, Succeeded)}
  }

  lemma DeletionRun()
    ensures HalfWay(Exec(GENESIS, DELETION), Deleting, 0) && Exec(GENESIS, DELETION).now == 0
  {
    hide Exec, HalfWay, P.Answers, Sweep, HandleResponse;
    var a0, a1, a2 := CreateContent(CONTENT, FILM), Delete(CONTENT, SAGA, 1), PlaylistReads(0, P.NoFault);
    assert [] + [a0] == [a0] && [a0] + [a1] == [a0, a1] && [a0, a1] + [a2] == DELETION;
    ExecSnoc(GENESIS, [], a0);
    ExecSnoc(GENESIS, [a0], a1);
    ExecSnoc(GENESIS, [a0, a1], a2);
    ExecNothing(GENESIS);
    FirstReads(Exec(GENESIS, [a0, a1]));
  }

  lemma ExecNothing(w: World)
    ensures Exec(w, []) == w
  {
  }

  lemma FirstReads(w: World)
    requires w.now == 0 && w.coord.log == [Start(SAGA, CONTENT)] && w.coord.inbox == map[]
    requires ContentIs(w.coord, CONTENT, Deleting) && w.coord.contents[CONTENT].updatedAt == 0
    requires w.coord.sagas == map[SAGA := SagaRow(CONTENT, Started, Pending, Pending, 1, 1)]
    requires w.playlist == GENESIS.playlist && w.playlistRead == 0 && w.chat == GENESIS.chat && w.chatRead == 0
    requires w.responses == {}
    ensures HalfWay(Step(w, PlaylistReads(0, P.NoFault)), Deleting, 0)
  {
    var after := Step(w, PlaylistReads(0, P.NoFault));
    assert P.Answers(w.playlist, w.now, w.coord.log[0], P.NoFault) == [Response(SAGA, CONTENT, Playlist, Succeeded)];
  }

  lemma SweepBetweenReadings(w: World)
    requires HalfWay(w, Deleting, 0) && w.now == 0
    ensures var late := Step(w, Advance(180_001));
            && Straddles(late.coord, late.now - TIMEOUT, SAGA)
            && HalfWay(Step(late, Tick([])), Active, 180_001)
  {
    var late := Step(w, Advance(180_001));
    assert ListsTimedOut(late.coord, 1, []);
    assert TimeOutAll(late.coord, late.now, []) == late.coord;
  }

  /** What a user and chat do next, before the two successes reach the coordinator. */
  ghost predicate Outrun(w: World) {
    && CONTENT in w.coord.contents && w.coord.inbox == map[]
    && w.coord.sagas == map[SAGA := SagaRow(CONTENT, Started, Pending, Pending, 1, 1)]
    && w.playlist.Live(LIST)
    && Response(SAGA, CONTENT, Playlist, Succeeded) in w.responses
    && Response(SAGA, CONTENT, Participant.WatchingSession, Succeeded) in w.responses
  }

  lemma CurationOutruns(w: World)
    requires HalfWay(w, Active, 180_001)
    ensures Outrun(Step(Step(w, AddCuration(LIST)), ChatReads(0, L.NoFault)))
  {
    var w1 := Step(w, AddCuration(LIST));
    assert L.Answers(w1.chat, w1.coord.log[0], L.NoFault)
        == [Response(SAGA, CONTENT, Participant.WatchingSession, Succeeded)];
  }

  lemma BothAnswersArrive(w: World)
    requires Outrun(w)
    ensures var w1 := Step(w, Deliver(Response(SAGA, CONTENT, Playlist, Succeeded)));
            var w2 := Step(w1, Deliver(Response(SAGA, CONTENT, Participant.WatchingSession, Succeeded)));
            ContentIs(w2.coord, CONTENT, Deleted) && w2.playlist.Live(LIST)
  {
    var w1 := Step(w, Deliver(Response(SAGA, CONTENT, Playlist, Succeeded)));
    assert w1.coord.sagas[SAGA] == SagaRow(CONTENT, Started, Success, Pending, 1, w.now);
  }

  const SWEPT: seq<Action> := DELETION + [Advance(180_001), Tick([])]

  const OUTRUN: seq<Action> := SWEPT + [
    AddCuration(LIST), ChatReads(0, L.NoFault),
    Deliver(Response(SAGA, CONTENT, Playlist, Succeeded)),
    Deliver(Response(SAGA, CONTENT, Participant.WatchingSession, Succeeded))]

  lemma ExecTwo(w: World, acts: seq<Action>, a: Action, b: Action)
    ensures Exec(w, acts + [a, b]) == Step(Step(Exec(w, acts), a), b)
  {
    hide Step;
    ExecSnoc(w, acts, a);
    ExecSnoc(w, acts + [a], b);
    assert acts + [a, b] == (acts + [a]) + [b];
  }

  /** Unlocked while its saga goes on: the coupling is gone, and so is the lock against new curations. */
  lemma SweptRun()
    ensures HalfWay(Exec(GENESIS, SWEPT), Active, 180_001)
    ensures !NoTickStraddles(GENESIS, SWEPT)
  {
    hide Exec, HalfWay, Step, NoTickStraddles;
    DeletionRun();
    SweepBetweenReadings(Exec(GENESIS, DELETION));
    ExecTwo(GENESIS, DELETION, Advance(180_001), Tick([]));
    if NoTickStraddles(GENESIS, SWEPT) {
      HalfWayBreaksCoupling(Exec(GENESIS, SWEPT));
      ContentFollowsSaga(SWEPT, CONTENT);
    }
  }

  lemma HalfWayBreaksCoupling(w: World)
    requires HalfWay(w, Active, 180_001)
    ensures ContentIs(w.coord, CONTENT, Active) && SagaCoupling.Drives(w.coord, SAGA, CONTENT, Started)
  {
  }

  /**
    All-or-nothing needs its condition: if a sweep falls between the two clock
    readings, a content can be removed while a curation of it is live.
  */
  lemma SweepBetweenReadingsLosesAtomicity()
    ensures var w := Exec(GENESIS, OUTRUN);
            ContentIs(w.coord, CONTENT, Deleted) && w.playlist.Live(LIST)
  {
    hide Exec, Step, HalfWay, Outrun;
    SweptRun();
    var w := Exec(GENESIS, SWEPT);
    CurationOutruns(w);
    var a, b := AddCuration(LIST), ChatReads(0, L.NoFault);
    var c, d := Deliver(Response(SAGA, CONTENT, Playlist, Succeeded)),
                Deliver(Response(SAGA, CONTENT, Participant.WatchingSession, Succeeded));
    BothAnswersArrive(Step(Step(w, a), b));
    ExecTwo(GENESIS, SWEPT, a, b);
    ExecTwo(GENESIS, SWEPT + [a, b], c, d);
    assert OUTRUN == (SWEPT + [a, b]) + [c, d];
  }

  // ---------- A curation its user had removed ----------

  const REMOVED: seq<Action> := [CreateContent(CONTENT, FILM), AddCuration(LIST), RemoveCuration(LIST)]

  const REFUSED: seq<Action> := REMOVED + [
    Delete(CONTENT, SAGA, 0), PlaylistReads(0, P.NoFault), ChatReads(0, L.Fault(W.NO_SESSIONS)),
    Deliver(Response(SAGA, CONTENT, Participant.WatchingSession, Refused)), PlaylistReads(1, P.NoFault)]

  ghost predicate Gone(w: World) {
    && ContentIs(w.coord, CONTENT, Active) && w.coord.sagas == map[] && w.coord.inbox == map[] && w.coord.log == []
    && LIST in w.playlist.curations && w.playlist.inbox == map[]
    && w.playlistRead == 0 && w.chatRead == 0 && w.chat.inbox == map[]
    && LIST !in w.wanted
  }

  lemma RemovedRun()
    ensures Gone(Exec(GENESIS, REMOVED))
  {
    hide Exec, P.Answers, Sweep, HandleResponse, P.Handle;
    var a0, a1, a2 := CreateContent(CONTENT, FILM), AddCuration(LIST), RemoveCuration(LIST);
    assert [] + [a0] == [a0] && [a0] + [a1, a2] == REMOVED;
    ExecSnoc(GENESIS, [], a0);
    ExecTwo(GENESIS, [a0], a1, a2);
    ExecNothing(GENESIS);
  }

  /** The saga has been started and read by both participants; chat refused. */
  ghost predicate ChatRefused(w: World) {
    && CONTENT in w.coord.contents && w.coord.inbox == map[] && w.coord.log == [Start(SAGA, CONTENT)]
    && SAGA in w.coord.sagas && w.coord.sagas[SAGA].content == CONTENT && w.coord.sagas[SAGA].status == Started
    && LIST in w.playlist.curations && P.CompensateOf(SAGA) !in w.playlist.inbox
    && w.playlistRead == 1 && LIST !in w.wanted
    && Response(SAGA, CONTENT, Participant.WatchingSession, Refused) in w.responses
  }

  lemma DeletionRefused(w: World)
    requires Gone(w)
    ensures ChatRefused(Step(Step(Step(w, Delete(CONTENT, SAGA, 0)), PlaylistReads(0, P.NoFault)),
                             ChatReads(0, L.Fault(W.NO_SESSIONS))))
  {
    var w1 := Step(w, Delete(CONTENT, SAGA, 0));
    assert w1.coord.log == [Start(SAGA, CONTENT)];
    var w2 := Step(w1, PlaylistReads(0, P.NoFault));
    var w3 := Step(w2, ChatReads(0, L.Fault(W.NO_SESSIONS)));
    assert L.Answers(w2.chat, w2.coord.log[0], L.Fault(W.NO_SESSIONS))
        == [Response(SAGA, CONTENT, Participant.WatchingSession, Refused)];
  }

  lemma CompensationRevives(w: World)
    requires ChatRefused(w)
    ensures var w1 := Step(w, Deliver(Response(SAGA, CONTENT, Participant.WatchingSession, Refused)));
            var w2 := Step(w1, PlaylistReads(1, P.NoFault));
            w2.playlist.Live(LIST) && LIST !in w2.wanted && LIST in w2.revived
  {
    var w1 := Step(w, Deliver(Response(SAGA, CONTENT, Participant.WatchingSession, Refused)));
    assert w1.coord.log == [Start(SAGA, CONTENT), Compensate(SAGA, CONTENT), Compensate(SAGA, CONTENT)];
    assert w1.coord.log[1] == Compensate(SAGA, CONTENT);
  }

  /** Compensation is not exact: a curation its user removed before the deletion is live again after it failed. */
  lemma CompensationRevivesRemovedCuration()
    ensures var w := Exec(GENESIS, REFUSED);
            w.playlist.Live(LIST) && LIST !in w.wanted && LIST in w.revived
  {
    hide Exec, Step, Gone, ChatRefused;
    RemovedRun();
    var w := Exec(GENESIS, REMOVED);
    DeletionRefused(w);
    var a, b, c := Delete(CONTENT, SAGA, 0), PlaylistReads(0, P.NoFault), ChatReads(0, L.Fault(W.NO_SESSIONS));
    var d, e := Deliver(Response(SAGA, CONTENT, Participant.WatchingSession, Refused)), PlaylistReads(1, P.NoFault);
    CompensationRevives(Step(Step(Step(w, a), b), c));
    ExecTwo(GENESIS, REMOVED, a, b);
    ExecSnoc(GENESIS, REMOVED + [a, b], c);
    ExecTwo(GENESIS, REMOVED + [a, b] + [c], d, e);
    assert REFUSED == (REMOVED + [a, b] + [c]) + [d, e];
  }

  // ---------- A purge between the deletion and its compensation ----------

  const CURATED: seq<Action> := [CreateContent(CONTENT, FILM), ShowView(CONTENT), AddCuration(LIST)]

  const STARTED: seq<Action> := [
    Delete(CONTENT, SAGA, 0), PlaylistReads(0, P.NoFault), ChatReads(0, L.Fault(W.NO_SESSIONS))]

  const FORESTALLED: seq<Action> := [
    Deliver(Response(SAGA, CONTENT, Participant.WatchingSession, Refused)),
    Advance(P.RETENTION + 1), PurgePlaylist, PlaylistReads(1, P.NoFault), PlaylistReads(2, P.NoFault)]

  ghost predicate Curated(w: World) {
    && ContentIs(w.coord, CONTENT, Active) && w.coord.sagas == map[] && w.coord.inbox == map[] && w.coord.log == []
    && w.now == 0 && w.playlist.Live(LIST) && w.playlist.Shown(CONTENT) && w.playlist.inbox == map[]
    && w.playlistRead == 0 && w.chatRead == 0 && w.chat.inbox == map[]
    && LIST in w.wanted && CONTENT in w.viewed
  }

  lemma ExecThree(w: World, a: Action, b: Action, c: Action)
    ensures Exec(w, [a, b, c]) == Step(Step(Step(w, a), b), c)
  {
    hide Step;
    assert [] + [a] == [a] && [a] + [b, c] == [a, b, c];
    ExecNothing(w);
    ExecSnoc(w, [], a);
    ExecTwo(w, [a], b, c);
  }

  lemma CuratedRun()
    ensures Curated(Exec(GENESIS, CURATED))
  {
    hide Exec, P.Answers, Sweep, HandleResponse, P.Handle;
    ExecThree(GENESIS, CreateContent(CONTENT, FILM), ShowView(CONTENT), AddCuration(LIST));
  }

  /** Playlist has deleted the curation and hidden the view at instant zero; chat has refused. */
  ghost predicate Doomed(w: World) {
    && CONTENT in w.coord.contents && w.coord.contents[CONTENT].status == Deleting
    && w.coord.inbox == map[] && w.coord.log == [Start(SAGA, CONTENT)]
    && SAGA in w.coord.sagas && w.coord.sagas[SAGA].content == CONTENT && w.coord.sagas[SAGA].status == Started
    && w.now == 0 && P.PurgedBy(w.playlist, LIST, 1) && P.ViewPurgedBy(w.playlist, CONTENT, 1)
    && w.playlistRead == 1 && LIST in w.wanted && CONTENT in w.viewed
    && Response(SAGA, CONTENT, Participant.WatchingSession, Refused) in w.responses
  }

  lemma DeletionDooms(w: World)
    requires Curated(w)
    ensures Doomed(Exec(w, STARTED))
  {
    hide Exec;
    ExecThree(w, Delete(CONTENT, SAGA, 0), PlaylistReads(0, P.NoFault), ChatReads(0, L.Fault(W.NO_SESSIONS)));
    var w1 := Step(w, Delete(CONTENT, SAGA, 0));
    assert w1.coord.log == [Start(SAGA, CONTENT)];
    var w2 := Step(w1, PlaylistReads(0, P.NoFault));
    assert L.Answers(w2.chat, w2.coord.log[0], L.Fault(W.NO_SESSIONS))
        == [Response(SAGA, CONTENT, Participant.WatchingSession, Refused)];
  }

  /** Unlocked and compensated in the topic, but nothing is left in playlist to restore. */
  ghost predicate Bereft(w: World) {
    && ContentIs(w.coord, CONTENT, Active)
    && w.coord.log == [Start(SAGA, CONTENT), Compensate(SAGA, CONTENT), Compensate(SAGA, CONTENT)]
    && LIST !in w.playlist.curations && CONTENT !in w.playlist.views
    && w.playlistRead == 1 && LIST in w.wanted && CONTENT in w.viewed
  }

  lemma PurgeForestalls(w: World)
    requires Doomed(w)
    ensures Bereft(Step(Step(Step(w, Deliver(Response(SAGA, CONTENT, Participant.WatchingSession, Refused))),
                             Advance(P.RETENTION + 1)), PurgePlaylist))
  {
    var w1 := Step(w, Deliver(Response(SAGA, CONTENT, Participant.WatchingSession, Refused)));
    assert w1.coord.log == [Start(SAGA, CONTENT), Compensate(SAGA, CONTENT), Compensate(SAGA, CONTENT)];
  }

  lemma NothingToRestore(w: World)
    requires Bereft(w)
    ensures var after := Step(Step(w, PlaylistReads(1, P.NoFault)), PlaylistReads(2, P.NoFault));
            && ContentIs(after.coord, CONTENT, Active) && after.playlistRead == |after.coord.log|
            && LIST in after.wanted && !after.playlist.Live(LIST)
            && CONTENT in after.viewed && !after.playlist.Shown(CONTENT)
  {
    assert w.coord.log[1] == w.coord.log[2] == Compensate(SAGA, CONTENT);
  }

  lemma {:induction false} NoTicksNoStraddle(w: World, acts: seq<Action>)
    requires forall a :: a in acts ==> !a.Tick?
    ensures NoTickStraddles(w, acts)
    decreases |acts|
  {
    hide Step, Straddled;
    if acts != [] {
      assert acts[0] in acts;
      NoTicksNoStraddle(Step(w, acts[0]), acts[1..]);
    }
  }

  /**
    Compensation is lossless only if purges spare it: in this run the COMPENSATE
    comes after the retention of what it should restore. The content is active,
    playlist has read everything, and the wanted curation and the view are gone.
  */
  lemma PurgeForestallsCompensation()
    ensures var acts := CURATED + STARTED + FORESTALLED;
            var w := Exec(GENESIS, acts);
            && NoTickStraddles(GENESIS, acts) && !PurgesSpare(GENESIS, acts)
            && ContentIs(w.coord, CONTENT, Active) && w.playlistRead == |w.coord.log|
            && LIST in w.wanted && !w.playlist.Live(LIST)
            && CONTENT in w.viewed && !w.playlist.Shown(CONTENT)
  {
    hide Exec, Step, Curated, Doomed, Bereft, PurgesSpare, NoTickStraddles;
    var acts := CURATED + STARTED + FORESTALLED;
    CuratedRun();
    DeletionDooms(Exec(GENESIS, CURATED));
    ExecAppend(GENESIS, CURATED, STARTED);
    var w := Exec(GENESIS, CURATED + STARTED);
    PurgeForestalls(w);
    var a, b, c := FORESTALLED[0], FORESTALLED[1], FORESTALLED[2];
    NothingToRestore(Step(Step(Step(w, a), b), c));
    ExecThree(w, a, b, c);
    ExecTwo(w, [a, b, c], FORESTALLED[3], FORESTALLED[4]);
    assert [a, b, c] + [FORESTALLED[3], FORESTALLED[4]] == FORESTALLED;
    ExecAppend(GENESIS, CURATED + STARTED, FORESTALLED);
    NoTicksNoStraddle(GENESIS, acts);
    if PurgesSpare(GENESIS, acts) {
      CompensationIsLossless(acts, CONTENT);
    }
  }
}
