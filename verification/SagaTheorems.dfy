/**
  The promises of the deletion saga, over every run of the whole system.
*/
module SagaTheorems {
  import opened Entities
  import opened Coordinator
  import P = PlaylistParticipant
  import L = LiveChatParticipant
  import opened SagaWorld
  import opened SagaCoupling
  import opened SagaHandlers
  import opened SagaInvariant
  import opened SagaRuns
  import opened SagaEveryRun

  lemma ReachableSound(acts: seq<Action>)
    requires NoTickStraddles(GENESIS, acts)
    ensures Inv(Exec(GENESIS, acts))
  {
    hide Step;
    GenesisSound();
    RunSound(GENESIS, acts);
  }

  // ---------- Coupling ----------

  /**
    A content is locked exactly while one started saga names it, removed exactly
    when one completed saga does, and otherwise active.
  */
  lemma ContentFollowsSaga(acts: seq<Action>, c: Id)
    requires NoTickStraddles(GENESIS, acts) && c in Exec(GENESIS, acts).coord.contents
    ensures var st := Exec(GENESIS, acts).coord;
            && (st.contents[c].status == Deleting <==> exists s :: Drives(st, s, c, Started))
            && (st.contents[c].status == Deleted <==> exists s :: Drives(st, s, c, Completed))
            && (forall s, t :: Drives(st, s, c, Started) && Drives(st, t, c, Started) ==> s == t)
            && (forall s, t :: Drives(st, s, c, Completed) && Drives(st, t, c, Completed) ==> s == t)
  {
    hide Exec, NoTickStraddles, LogSound, PlaylistSound, ResponsesSound, VotesSound, CurationsSound;
    ReachableSound(acts);
  }

  /** Every state of a run is coupled exactly if none of its sweeps straddles. */
  lemma AlwaysCoupledIff(acts: seq<Action>)
    ensures CoupledThroughout(GENESIS, acts) <==> NoTickStraddles(GENESIS, acts)
  {
    hide Step;
    GenesisSound();
    CoupledThroughoutIff(GENESIS, acts);
  }

  // ---------- All or nothing ----------

  /** A removal that every service has carried out: one completed saga, never compensated, and nothing left in playlist. */
  ghost predicate RemovedEverywhere(w: World, c: Id, s: Id) {
    && Drives(w.coord, s, c, Completed)
    && w.coord.sagas[s].AllSuccess()
    && (forall t :: Drives(w.coord, t, c, Completed) ==> t == s)
    && Compensate(s, c) !in w.coord.log
    && DoneFor(w.playlist, s)
    && s in w.chat.inbox && w.chat.inbox[s]
    && Erased(w.playlist, c)
  }

  /**
    In every reachable state a removed content is removed everywhere, whatever
    was redelivered and whichever sagas on it failed before.
  */
  lemma AllOrNothing(acts: seq<Action>, c: Id)
    requires NoTickStraddles(GENESIS, acts)
    requires ContentIs(Exec(GENESIS, acts).coord, c, Deleted)
    ensures exists s :: RemovedEverywhere(Exec(GENESIS, acts), c, s)
  {
    hide Exec, NoTickStraddles, PlaylistSound, ResponsesSound, Erased, Ordered, LogCounted;
    ReachableSound(acts);
    var w := Exec(GENESIS, acts);
    var s :| Drives(w.coord, s, c, Completed);
    assert Running(w.coord.sagas[s]);
    assert Compensate(s, c) in w.coord.log ==> Entry(w.coord.sagas, Compensate(s, c));
    assert RemovedEverywhere(w, c, s);
  }

  // ---------- Finished is finished ----------

  lemma {:induction false} ExecAppend(w: World, acts: seq<Action>, more: seq<Action>)
    ensures Exec(w, acts + more) == Exec(Exec(w, acts), more)
    ensures NoTickStraddles(w, acts + more) ==> NoTickStraddles(w, acts) && NoTickStraddles(Exec(w, acts), more)
    decreases |acts|
  {
    hide Step, SweepStraddles;
    if acts == [] {
      assert acts + more == more;
    } else {
      assert (acts + more)[1..] == acts[1..] + more;
      ExecAppend(Step(w, acts[0]), acts[1..], more);
    }
  }

  /** A finished saga never changes again, and a removed content never returns, in any run. */
  lemma FinishedForGood(acts: seq<Action>, more: seq<Action>, s: Id, c: Id)
    ensures var before, after := Exec(GENESIS, acts).coord, Exec(GENESIS, acts + more).coord;
            && (s in before.sagas && before.sagas[s].Finished() ==>
                  s in after.sagas && after.sagas[s] == before.sagas[s])
            && (ContentIs(before, c, Deleted) ==> ContentIs(after, c, Deleted))
            && before.log <= after.log
  {
    hide Exec;
    ExecAppend(GENESIS, acts, more);
    RunEvolves(Exec(GENESIS, acts), more);
  }

  // ---------- Compensation ----------

  /**
    In every run a saga is compensated once, by one send and one outbox row,
    exactly if it failed or timed out, and started by one entry.
  */
  lemma CompensatedExactlyOnce(acts: seq<Action>, s: Id)
    requires s in Exec(GENESIS, acts).coord.sagas
    ensures var st := Exec(GENESIS, acts).coord;
            var c := st.sagas[s].content;
            && multiset(st.log)[Start(s, c)] == 1
            && multiset(st.log)[Compensate(s, c)] == if Undone(st.sagas[s]) then 2 else 0
  {
    hide Exec, PlaylistSound, ResponsesSound, RowsNamed, LocksNamed;
    ReachableSteady(acts);
    var st := Exec(GENESIS, acts).coord;
    var c := st.sagas[s].content;
    assert Occurrences(st.log, Start(s, c)) == 1;
  }

  // ---------- Stable answers ----------

  /** Whatever is redelivered, in no run does a participant give two different answers for one saga. */
  lemma AnswersAreStable(acts: seq<Action>, r1: Response, r2: Response)
    requires r1 in Exec(GENESIS, acts).responses && r2 in Exec(GENESIS, acts).responses
    requires r1.saga == r2.saga && r1.participant == r2.participant
    ensures r1 == r2
    ensures Recorded(Exec(GENESIS, acts).playlist, Exec(GENESIS, acts).chat, r1)
  {
    hide Exec, Bookkept, PlaylistSound;
    ReachableSteady(acts);
    var w := Exec(GENESIS, acts);
    assert Recorded(w.playlist, w.chat, r1) && Recorded(w.playlist, w.chat, r2);
  }

  /** Reading a command again changes nothing in playlist or in live-chat, in any run. */
  lemma RedeliveryChangesNothing(acts: seq<Action>, i: nat, fault: P.Fault, chatFault: L.ChatFault)
    ensures var w := Exec(GENESIS, acts);
            && (i < w.playlistRead ==>
                  var after := Step(w, PlaylistReads(i, fault));
                  after.playlist == w.playlist && after.revived == w.revived && after.erasedAt == w.erasedAt)
            && (i < w.chatRead ==> Step(w, ChatReads(i, chatFault)).chat == w.chat)
  {
    hide Exec, Step, Tallied, PlaylistSound, ChatRecorded, ResponsesSound, RowsNamed, LocksNamed;
    ReachableSteady(acts);
    var w := Exec(GENESIS, acts);
    if i < w.playlistRead {
      PlaylistAgain(w, i, fault);
    }
    if i < w.chatRead {
      ChatAgain(w, i, chatFault);
    }
  }

  lemma PlaylistAgain(w: World, i: nat, fault: P.Fault)
    requires Tallied(w.coord) && PlaylistSound(w) && i < w.playlistRead
    ensures var after := Step(w, PlaylistReads(i, fault));
            after.playlist == w.playlist && after.revived == w.revived && after.erasedAt == w.erasedAt
  {
    hide LogCounted;
    var c := w.coord.log[i];
    assert Entry(w.coord.sagas, c);
    assert c in w.coord.log[..w.playlistRead];
  }

  lemma ChatAgain(w: World, i: nat, fault: L.ChatFault)
    requires ChatRecorded(w) && i < w.chatRead
    ensures Step(w, ChatReads(i, fault)).chat == w.chat
  {
    assert w.coord.log[i].Start? ==> w.coord.log[i].saga in w.chat.inbox;
  }

  /** The step lets the participant carry out the START of the saga. */
  predicate CarriesOut(w: World, a: Action, s: Id, who: Participant) {
    match who
    case Playlist =>
      && a.PlaylistReads? && a.index <= w.playlistRead && a.index < |w.coord.log|
      && w.coord.log[a.index].Start? && w.coord.log[a.index].saga == s
      && P.StartOf(s) !in w.playlist.inbox
    case WatchingSession =>
      && a.ChatReads? && a.index <= w.chatRead && a.index < |w.coord.log|
      && w.coord.log[a.index].Start? && w.coord.log[a.index].saga == s
      && s !in w.chat.inbox
    case OtherParticipant => false
  }

  ghost function TimesCarriedOut(w: World, acts: seq<Action>, s: Id, who: Participant): nat
    decreases |acts|
  {
    if acts == [] then 0
    else
      (if CarriesOut(w, acts[0], s, who) then 1 else 0) + TimesCarriedOut(Step(w, acts[0]), acts[1..], s, who)
  }

  predicate Remembers(w: World, s: Id, who: Participant) {
    match who
    case Playlist => P.StartOf(s) in w.playlist.inbox
    case WatchingSession => s in w.chat.inbox
    case OtherParticipant => false
  }

  /** Records are never lost, and carrying out makes one where there was none. */
  lemma RecordStays(w: World, a: Action, s: Id, who: Participant)
    ensures Remembers(w, s, who) ==> Remembers(Step(w, a), s, who)
    ensures CarriesOut(w, a, s, who) ==> !Remembers(w, s, who) && Remembers(Step(w, a), s, who)
  {
  }

  /**
    In every run, even with straddling ticks, each participant carries out the
    deletion of a saga at most once, however often START comes back and whatever
    the users do in between: rows added or a room filled again are left alone.
  */
  lemma {:induction false} DeletionCarriedOutAtMostOnce(w: World, acts: seq<Action>, s: Id, who: Participant)
    ensures TimesCarriedOut(w, acts, s, who) <= if Remembers(w, s, who) then 0 else 1
    decreases |acts|
  {
    hide Step, Remembers, CarriesOut;
    if acts != [] {
      RecordStays(w, acts[0], s, who);
      DeletionCarriedOutAtMostOnce(Step(w, acts[0]), acts[1..], s, who);
    }
  }
}
