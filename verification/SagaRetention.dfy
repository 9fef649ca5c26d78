/**
  How soon a COMPENSATE must be read for the purge of playlist to spare what it
  should restore.
*/
module SagaRetention {
  import opened Entities
  import opened Coordinator
  import P = PlaylistParticipant
  import opened SagaWorld
  import opened SagaCoupling
  import opened SagaHandlers
  import opened SagaInvariant
  import opened SagaRuns
  import opened SagaEveryRun
  import opened SagaTheorems
  import opened SagaLossless

  /** A curation of the content that is due, or its view, is marked deleted since `t`. */
  ghost predicate Marked(w: World, c: Id, t: Time) {
    || (exists k :: MarkedRow(w, k, t) && k.content == c)
    || (c in w.playlist.views && w.playlist.views[c] == Some(t))
  }

  ghost predicate MarkedRow(w: World, k: P.Key, t: Time) {
    k in Due(w) && k in w.playlist.curations && w.playlist.curations[k] == Some(t)
  }

  /** A saga whose START playlist carried out by then may still be undone. */
  ghost predicate ErasedBy(w: World, c: Id, t: Time) {
    exists s :: Unsettled(w.playlist, w.coord.sagas, s, c) && s in w.erasedAt && w.erasedAt[s] <= t
  }

  /** Whatever is due of a content not removed, and marked deleted, was so marked no earlier than by a saga still open. */
  ghost predicate Dated(w: World) {
    forall c, t :: !ContentIs(w.coord, c, Deleted) && Marked(w, c, t) ==> ErasedBy(w, c, t)
  }

  lemma SameErased(w: World, after: World, c: Id, t: Time)
    requires ErasedBy(w, c, t) && after.playlist.inbox == w.playlist.inbox && after.erasedAt == w.erasedAt
    requires Evolves(w.coord, after.coord)
    ensures ErasedBy(after, c, t)
  {
    var s :| Unsettled(w.playlist, w.coord.sagas, s, c) && s in w.erasedAt && w.erasedAt[s] <= t;
    assert Unsettled(after.playlist, after.coord.sagas, s, c);
  }

  /** Steps that mark nothing that is due, and carry out no command. */
  lemma OtherDated(w: World, after: World)
    requires Dated(w) && Evolves(w.coord, after.coord)
    requires after.playlist.inbox == w.playlist.inbox && after.erasedAt == w.erasedAt
    requires forall c, t :: Marked(after, c, t) ==> Marked(w, c, t)
    ensures Dated(after)
  {
    hide Marked, ErasedBy;
    forall c, t | !ContentIs(after.coord, c, Deleted) && Marked(after, c, t)
      ensures ErasedBy(after, c, t)
    {
      assert !ContentIs(w.coord, c, Deleted);
      SameErased(w, after, c, t);
    }
  }

  lemma UserMarksNoRow(w: World, a: Action, k: P.Key, t: Time)
    requires !a.PlaylistReads? && MarkedRow(Step(w, a), k, t)
    ensures MarkedRow(w, k, t)
  {
  }

  lemma UserMarksNoView(w: World, a: Action, c: Id, t: Time)
    requires !a.PlaylistReads? && c in Step(w, a).playlist.views && Step(w, a).playlist.views[c] == Some(t)
    ensures c in w.playlist.views && w.playlist.views[c] == Some(t)
  {
  }

  lemma UserMarksNothing(w: World, a: Action, c: Id, t: Time)
    requires !a.PlaylistReads? && Marked(Step(w, a), c, t)
    ensures Marked(w, c, t)
  {
    hide Step, MarkedRow;
    if k :| MarkedRow(Step(w, a), k, t) && k.content == c {
      UserMarksNoRow(w, a, k, t);
    } else {
      UserMarksNoView(w, a, c, t);
    }
  }

  /** Once a COMPENSATE is carried out nothing of its content is marked; the other contents keep their open sagas. */
  lemma CompensateDated(w: World, i: nat, fault: P.Fault)
    requires Dated(w) && i < |w.coord.log| && FirstUndo(w.playlist, w.coord.log[i]) && Entry(w.coord.sagas, w.coord.log[i])
    ensures Dated(AfterPlaylistRead(w, i, fault))
  {
    var after := AfterPlaylistRead(w, i, fault);
    var c0 := w.coord.log[i].content;
    forall c, t | !ContentIs(after.coord, c, Deleted) && Marked(after, c, t)
      ensures ErasedBy(after, c, t)
    {
      if k :| MarkedRow(after, k, t) && k.content == c {
        assert c != c0 && MarkedRow(w, k, t);
      }
      assert Marked(w, c, t);
      var s :| Unsettled(w.playlist, w.coord.sagas, s, c) && s in w.erasedAt && w.erasedAt[s] <= t;
      assert Unsettled(after.playlist, after.coord.sagas, s, c);
    }
  }

  lemma StartMarks(w: World, i: nat, fault: P.Fault, c: Id, t: Time)
    requires i < |w.coord.log| && w.coord.log[i].Start? && Marked(AfterPlaylistRead(w, i, fault), c, t)
    ensures Marked(w, c, t) || (c == w.coord.log[i].content && t == w.now)
  {
    if k :| MarkedRow(AfterPlaylistRead(w, i, fault), k, t) && k.content == c {
      assert MarkedRow(w, k, t) || (c == w.coord.log[i].content && t == w.now);
    }
  }

  lemma StartErases(w: World, i: nat, fault: P.Fault, c: Id, t: Time)
    requires i < |w.coord.log| && w.coord.log[i].Start? && Entry(w.coord.sagas, w.coord.log[i])
    requires P.StartOf(w.coord.log[i].saga) !in w.playlist.inbox && P.CompensateOf(w.coord.log[i].saga) !in w.playlist.inbox
    requires ErasedBy(w, c, t) || (c == w.coord.log[i].content && t == w.now)
    ensures ErasedBy(AfterPlaylistRead(w, i, fault), c, t)
  {
    var after := AfterPlaylistRead(w, i, fault);
    var s := if c == w.coord.log[i].content && t == w.now then w.coord.log[i].saga
             else var s :| Unsettled(w.playlist, w.coord.sagas, s, c) && s in w.erasedAt && w.erasedAt[s] <= t; s;
    assert Unsettled(after.playlist, after.coord.sagas, s, c);
  }

  lemma StartDated(w: World, i: nat, fault: P.Fault)
    requires Dated(w) && i < |w.coord.log| && w.coord.log[i].Start? && Entry(w.coord.sagas, w.coord.log[i])
    requires P.StartOf(w.coord.log[i].saga) !in w.playlist.inbox && P.CompensateOf(w.coord.log[i].saga) !in w.playlist.inbox
    ensures Dated(AfterPlaylistRead(w, i, fault))
  {
    hide Marked, ErasedBy, P.Handle, P.Answers;
    var after := AfterPlaylistRead(w, i, fault);
    forall c, t | !ContentIs(after.coord, c, Deleted) && Marked(after, c, t)
      ensures ErasedBy(after, c, t)
    {
      StartMarks(w, i, fault, c, t);
      StartErases(w, i, fault, c, t);
    }
  }

  lemma ReadDated(w: World, i: nat, fault: P.Fault)
    requires Inv(w) && Dated(w) && i <= w.playlistRead && i < |w.coord.log|
    ensures Dated(AfterPlaylistRead(w, i, fault))
  {
    hide Dated, ResponsesSound, VotesSound, CurationsSound, LogCounted, Ordered;
    var c := w.coord.log[i];
    assert Entry(w.coord.sagas, c);
    match c {
      case Start(s, _) =>
        if P.StartOf(s) in w.playlist.inbox {
          SameDated(w, AfterPlaylistRead(w, i, fault));
        } else {
          NotYetUndone(w, s);
          StartDated(w, i, fault);
        }
      case Compensate(s, _) =>
        if P.CompensateOf(s) in w.playlist.inbox {
          SameDated(w, AfterPlaylistRead(w, i, fault));
        } else {
          CompensateDated(w, i, fault);
        }
    }
  }

  lemma SameDated(w: World, after: World)
    requires Dated(w) && after.coord == w.coord && after.playlist == w.playlist && after.erasedAt == w.erasedAt
    requires after.wanted == w.wanted && after.revived == w.revived && after.viewed == w.viewed
    ensures Dated(after)
  {
    EvolvesReflexive(w.coord);
    forall c, t | Marked(after, c, t)
      ensures Marked(w, c, t)
    {
      if k :| MarkedRow(after, k, t) && k.content == c {
        assert MarkedRow(w, k, t);
      }
    }
    OtherDated(w, after);
  }

  lemma StepDated(w: World, a: Action)
    requires Inv(w) && Dated(w)
    ensures Dated(Step(w, a))
  {
    hide Inv, Dated, Evolves, Marked;
    if a.PlaylistReads? {
      if a.index <= w.playlistRead && a.index < |w.coord.log| {
        ReadDated(w, a.index, a.playlistFault);
      }
    } else {
      StepEvolves(w, a);
      forall c, t | Marked(Step(w, a), c, t)
        ensures Marked(w, c, t)
      {
        UserMarksNothing(w, a, c, t);
      }
      SameRecords(w, a);
      OtherDated(w, Step(w, a));
    }
  }

  lemma SameRecords(w: World, a: Action)
    requires !a.PlaylistReads?
    ensures Step(w, a).playlist.inbox == w.playlist.inbox && Step(w, a).erasedAt == w.erasedAt
  {
  }

  // ---------- Reading in time ----------

  /** No START that playlist carried out longer ago than the retention may still be undone. */
  ghost predicate UndoneInTime(w: World) {
    forall s :: s in w.erasedAt && s in w.coord.sagas && NotRemoved(w.coord, w.coord.sagas[s].content)
                && Unsettled(w.playlist, w.coord.sagas, s, w.coord.sagas[s].content) ==>
      w.now <= w.erasedAt[s] + P.RETENTION
  }

  /** Whenever the purge runs. */
  ghost predicate ReadsInTime(w: World, acts: seq<Action>)
    decreases |acts|
  {
    acts == [] ||
    ((acts[0].PurgePlaylist? ==> UndoneInTime(w)) && ReadsInTime(Step(w, acts[0]), acts[1..]))
  }

  lemma InTimeSpares(w: World)
    requires Dated(w) && UndoneInTime(w)
    ensures PurgeSpares(w)
  {
    hide Dated, UndoneInTime;
    forall k | k in Due(w) && NotRemoved(w.coord, k.content)
      ensures !P.PurgedBy(w.playlist, k, w.now - P.RETENTION)
    {
      if k in w.playlist.curations && w.playlist.curations[k].Some? {
        var t := w.playlist.curations[k].value;
        assert MarkedRow(w, k, t);
        MarkedInTime(w, k.content, t);
      }
    }
    forall c | c in w.viewed && NotRemoved(w.coord, c)
      ensures !P.ViewPurgedBy(w.playlist, c, w.now - P.RETENTION)
    {
      if c in w.playlist.views && w.playlist.views[c].Some? {
        MarkedInTime(w, c, w.playlist.views[c].value);
      }
    }
  }

  lemma MarkedInTime(w: World, c: Id, t: Time)
    requires Dated(w) && UndoneInTime(w) && NotRemoved(w.coord, c) && Marked(w, c, t)
    ensures w.now <= t + P.RETENTION
  {
    hide Marked;
    var s :| Unsettled(w.playlist, w.coord.sagas, s, c) && s in w.erasedAt && w.erasedAt[s] <= t;
  }

  lemma {:induction false} InTimePurgesSpare(w: World, acts: seq<Action>)
    requires Inv(w) && Dated(w) && NoTickStraddles(w, acts) && ReadsInTime(w, acts)
    ensures PurgesSpare(w, acts)
    decreases |acts|
  {
    hide Inv, Dated, Step, PurgeSpares, UndoneInTime, SweepStraddles;
    if acts != [] {
      if acts[0].PurgePlaylist? {
        InTimeSpares(w);
      }
      StepDated(w, acts[0]);
      StepSound(w, acts[0]);
      InTimePurgesSpare(Step(w, acts[0]), acts[1..]);
    }
  }

  /**
    If no purge runs while a START carried out longer ago than the retention may
    still be undone, purges spare all that is due, and compensation is lossless.
  */
  lemma LosslessIfReadInTime(acts: seq<Action>, c: Id)
    requires NoTickStraddles(GENESIS, acts) && ReadsInTime(GENESIS, acts)
    requires var w := Exec(GENESIS, acts);
             w.playlistRead == |w.coord.log| && ContentIs(w.coord, c, Active)
    ensures PurgesSpare(GENESIS, acts)
    ensures var w := Exec(GENESIS, acts);
            && (forall k: P.Key :: k.content == c ==> (w.playlist.Live(k) <==> k in w.wanted || k in w.revived))
            && (w.playlist.Shown(c) <==> c in w.viewed)
  {
    hide Exec, NoTickStraddles, ReadsInTime, PurgesSpare, Inv;
    GenesisSound();
    GenesisDated();
    InTimePurgesSpare(GENESIS, acts);
    CompensationIsLossless(acts, c);
  }

  lemma GenesisDated()
    ensures Dated(GENESIS)
  {
  }
}
