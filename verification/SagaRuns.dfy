/**
  Runs of the whole system: what holds after any sequence of actions.
*/
module SagaRuns {
  import opened Entities
  import opened Coordinator
  import P = PlaylistParticipant
  import L = LiveChatParticipant
  import opened SagaWorld
  import opened SagaCoupling
  import opened SagaHandlers
  import opened SagaInvariant

  // ---------- One step ----------

  lemma DeliverVotes(w: World, e: Response)
    requires Inv(w) && e in w.responses
    ensures VotesSound(HandleResponse(w.coord, w.now, e).sagas, w.playlist, w.chat)
    ensures Echoes(w.coord, e)
  {
    hide CoordSound, PlaylistSound, CurationsSound;
    assert Recorded(w.playlist, w.chat, e);
  }

  lemma SameVotes(sagas: map<Id, SagaRow>, sagas': map<Id, SagaRow>, p: P.PlaylistState, chat: L.ChatState)
    requires VotesSound(sagas, p, chat)
    requires forall s :: s in sagas' ==>
                           if s in sagas then sagas'[s].playlist == sagas[s].playlist && sagas'[s].watching == sagas[s].watching
                           else sagas'[s].playlist == Pending && sagas'[s].watching == Pending
    ensures VotesSound(sagas', p, chat)
  {
  }

  lemma TickSound(w: World, ids: seq<Id>)
    requires Inv(w) && ListsTimedOut(w.coord, w.now - TIMEOUT, ids) && !Straddled(w.coord, w.now - TIMEOUT)
    ensures Inv(w.(coord := Sweep(w.coord, w.now, ids)))
    ensures Evolves(w.coord, Sweep(w.coord, w.now, ids))
  {
    hide CoordSound, PlaylistSound, ResponsesSound, VotesSound, CurationsSound, Sweep, Evolves;
    SweepSoundIff(w.coord, w.now, ids);
    TimeOutAllSagas(w.coord, w.now, ids);
    SameVotes(w.coord.sagas, Sweep(w.coord, w.now, ids).sagas, w.playlist, w.chat);
    CoordStep(w, Sweep(w.coord, w.now, ids));
  }

  lemma DeleteSound(w: World, c: Id, s: Id, delay: nat)
    requires Inv(w)
    ensures Inv(Step(w, Delete(c, s, delay))) && Evolves(w.coord, Step(w, Delete(c, s, delay)).coord)
  {
    hide CoordSound, PlaylistSound, ResponsesSound, VotesSound, CurationsSound, Evolves;
    EvolvesReflexive(w.coord);
    if s !in w.coord.sagas {
      var coord := StartDeletion(w.coord, c, s, w.now, w.now + delay);
      StartSound(w.coord, c, s, w.now, w.now + delay);
      SameVotes(w.coord.sagas, coord.sagas, w.playlist, w.chat);
      CoordStep(w, coord);
    }
  }

  lemma DeliverSound(w: World, e: Response)
    requires Inv(w)
    ensures Inv(Step(w, Deliver(e))) && Evolves(w.coord, Step(w, Deliver(e)).coord)
  {
    hide Inv, CoordSound, VotesSound, Evolves, HandleResponse;
    EvolvesReflexive(w.coord);
    if e in w.responses {
      DeliverVotes(w, e);
      CoordPart(w);
      HandleResponseSound(w.coord, w.now, e);
      CoordStep(w, HandleResponse(w.coord, w.now, e));
    }
  }

  lemma CoordPart(w: World)
    requires Inv(w)
    ensures CoordSound(w.coord)
  {
    hide CoordSound;
  }

  /** The coordinator's part of a step. */
  lemma CoordActionSound(w: World, a: Action)
    requires Inv(w) && !SweepStraddles(w, a)
    requires a.CreateContent? || a.EditContent? || a.Delete? || a.Deliver? || a.PurgeInbox? || a.Tick?
    ensures Inv(Step(w, a)) && Evolves(w.coord, Step(w, a).coord)
  {
    hide CoordSound, PlaylistSound, ResponsesSound, VotesSound, CurationsSound, Evolves, HandleResponse, StartDeletion, Sweep;
    var coord := Step(w, a).coord;
    EvolvesReflexive(w.coord);
    match a
    case Delete(c, s, delay) => DeleteSound(w, c, s, delay);
    case Deliver(e) => DeliverSound(w, e);
    case Tick(ids) =>
      if ListsTimedOut(w.coord, w.now - TIMEOUT, ids) {
        TickSound(w, ids);
        SameInv(w.(coord := coord), Step(w, a));
      }
    case PurgeInbox(threshold) =>
      InboxSound(w.coord, coord.inbox);
      CoordStep(w, coord);
    case _ =>
      ContentsSound(w.coord, coord);
      CoordStep(w, coord);
  }

  /** The clock and the history do not matter. */
  lemma SameInv(w: World, after: World)
    requires Inv(w)
    requires after.coord == w.coord && after.playlist == w.playlist && after.playlistRead == w.playlistRead
    requires after.chat.inbox == w.chat.inbox && after.responses == w.responses
    ensures Inv(after)
  {
    hide CoordSound;
    forall r | r in w.responses
      ensures Recorded(after.playlist, after.chat, r)
    {
      assert Recorded(w.playlist, w.chat, r);
    }
  }

  lemma StepSound(w: World, a: Action)
    requires Inv(w) && !SweepStraddles(w, a)
    ensures Inv(Step(w, a)) && Evolves(w.coord, Step(w, a).coord)
  {
    hide Inv, Evolves;
    EvolvesReflexive(w.coord);
    match a
    case Advance(ms) => SameInv(w, Step(w, a));
    case SessionsChange(store) => SameInv(w, Step(w, a));
    case PlaylistReads(i, fault) =>
      if i <= w.playlistRead && i < |w.coord.log| {
        PlaylistReadSound(w, i, fault);
      }
    case ChatReads(i, fault) =>
      if i <= w.chatRead && i < |w.coord.log| {
        ChatReadSound(w, i, fault);
      }
    case AddCuration(k) => CurationsStep(w, Step(w, a));
    case RemoveCuration(k) => CurationsStep(w, Step(w, a));
    case RemovePlaylist(p) => CurationsStep(w, Step(w, a));
    case ShowView(c) => CurationsStep(w, Step(w, a));
    case PurgePlaylist => CurationsStep(w, Step(w, a));
    case _ => CoordActionSound(w, a);
  }

  // ---------- Runs ----------

  /** Every run without a straddling tick keeps the invariant, finished sagas as they are, and removed contents removed. */
  lemma {:induction false} RunSound(w: World, acts: seq<Action>)
    requires Inv(w) && NoTickStraddles(w, acts)
    ensures Inv(Exec(w, acts)) && Evolves(w.coord, Exec(w, acts).coord)
    decreases |acts|
  {
    hide Inv, Evolves, Step;
    EvolvesReflexive(w.coord);
    if acts != [] {
      StepSound(w, acts[0]);
      RunSound(Step(w, acts[0]), acts[1..]);
      EvolvesTransitive(w.coord, Step(w, acts[0]).coord, Exec(w, acts).coord);
    }
  }

  /** Every state the run goes through is coupled. */
  ghost predicate CoupledThroughout(w: World, acts: seq<Action>)
    decreases |acts|
  {
    Coupled(w.coord) && (acts == [] || CoupledThroughout(Step(w, acts[0]), acts[1..]))
  }

  lemma StraddlingBreaks(w: World, a: Action)
    requires Inv(w) && SweepStraddles(w, a)
    ensures !Coupled(Step(w, a).coord)
  {
    hide Inv, CoordSound, Coupled, Straddles, Sweep;
    CoordPart(w);
    var s :| Straddles(w.coord, w.now - TIMEOUT, s);
    StraddledBreaks(w.coord, w.now, a.ids, s);
  }

  /** From a sound state, contents and sagas stay coupled through the whole run exactly if none of its sweeps straddles. */
  lemma {:induction false} CoupledThroughoutIff(w: World, acts: seq<Action>)
    requires Inv(w)
    ensures CoupledThroughout(w, acts) <==> NoTickStraddles(w, acts)
    decreases |acts|
  {
    hide Inv, Step, Coupled, CoordSound, SweepStraddles;
    CoordPart(w);
    CoupledPart(w.coord);
    if acts != [] {
      var next := Step(w, acts[0]);
      if SweepStraddles(w, acts[0]) {
        StraddlingBreaks(w, acts[0]);
        assert !CoupledThroughout(next, acts[1..]);
      } else {
        StepSound(w, acts[0]);
        CoupledThroughoutIff(next, acts[1..]);
      }
    }
  }

  lemma CoupledPart(st: CoordinatorState)
    requires CoordSound(st)
    ensures Coupled(st)
  {
  }
}
