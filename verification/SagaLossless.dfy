/**
  What compensation gives back to playlist.
*/
module SagaLossless {
  import opened Entities
  import opened Coordinator
  import P = PlaylistParticipant
  import L = LiveChatParticipant
  import opened SagaWorld
  import opened SagaCoupling
  import opened SagaHandlers
  import opened SagaInvariant
  import opened SagaRuns
  import opened SagaTheorems

  /** What should be live were it not for sagas: the wanted curations and the revived ones. */
  ghost function Due(w: World): set<P.Key> {
    w.wanted + w.revived
  }

  /** Playlist has processed the START of a saga of this content and not yet its COMPENSATE. */
  ghost predicate UndoPending(p: P.PlaylistState, sagas: map<Id, SagaRow>, c: Id) {
    exists s :: Unsettled(p, sagas, s, c)
  }

  predicate Unsettled(p: P.PlaylistState, sagas: map<Id, SagaRow>, s: Id, c: Id) {
    s in sagas && sagas[s].content == c && P.StartOf(s) in p.inbox && P.CompensateOf(s) !in p.inbox
  }

  /**
    A curation that is due, of a content not removed, is stored, and live unless
    a saga may still be undone. Nothing else is live.
  */
  ghost predicate CurationsKept(w: World) {
    && (forall k :: k in Due(w) ==> k.content in w.coord.contents)
    && (forall k :: k in Due(w) && w.coord.contents[k.content].status != Deleted ==>
          k in w.playlist.curations
          && (w.playlist.Live(k) || UndoPending(w.playlist, w.coord.sagas, k.content)))
    && (forall k :: w.playlist.Live(k) ==> k in Due(w))
    && (forall k :: k in w.playlist.curations ==> k.content in w.coord.contents)
  }

  /** The same for the views that playlist ever had. */
  ghost predicate ViewsKept(w: World) {
    && (forall c :: c in w.viewed ==> c in w.coord.contents)
    && (forall c :: c in w.viewed && w.coord.contents[c].status != Deleted ==>
          c in w.playlist.views && (w.playlist.Shown(c) || UndoPending(w.playlist, w.coord.sagas, c)))
    && (forall c :: c in w.playlist.views ==> c in w.viewed)
  }

  ghost predicate Kept(w: World) {
    CurationsKept(w) && ViewsKept(w)
  }

  predicate NotRemoved(st: CoordinatorState, c: Id) {
    c in st.contents && st.contents[c].status != Deleted
  }

  /** The purge would take no curation and no view that is due and may still come back. */
  ghost predicate PurgeSpares(w: World) {
    && (forall k :: k in Due(w) && NotRemoved(w.coord, k.content) ==> !P.PurgedBy(w.playlist, k, w.now - P.RETENTION))
    && (forall c :: c in w.viewed && NotRemoved(w.coord, c) ==> !P.ViewPurgedBy(w.playlist, c, w.now - P.RETENTION))
  }

  ghost predicate PurgesSpare(w: World, acts: seq<Action>)
    decreases |acts|
  {
    acts == [] ||
    ((acts[0].PurgePlaylist? ==> PurgeSpares(w)) && PurgesSpare(Step(w, acts[0]), acts[1..]))
  }

  /** The purge loses nothing that is due exactly when it spares it. */
  lemma PurgeKeepsIff(w: World)
    requires Kept(w)
    ensures Kept(Step(w, PurgePlaylist)) <==> PurgeSpares(w)
  {
    var after := Step(w, PurgePlaylist);
    var threshold := w.now - P.RETENTION;
    assert Due(after) == Due(w);
    forall k: P.Key
      ensures k in after.playlist.curations <==> k in w.playlist.curations && !P.PurgedBy(w.playlist, k, threshold)
      ensures after.playlist.Live(k) <==> w.playlist.Live(k)
    {
    }
    forall c: Id
      ensures c in after.playlist.views <==> c in w.playlist.views && !P.ViewPurgedBy(w.playlist, c, threshold)
      ensures after.playlist.Shown(c) <==> w.playlist.Shown(c)
      ensures UndoPending(after.playlist, after.coord.sagas, c) <==> UndoPending(w.playlist, w.coord.sagas, c)
    {
      if UndoPending(w.playlist, w.coord.sagas, c) {
        SamePending(w.playlist, after.playlist, w.coord.sagas, after.coord.sagas, c);
      }
      if UndoPending(after.playlist, after.coord.sagas, c) {
        SamePending(after.playlist, w.playlist, after.coord.sagas, w.coord.sagas, c);
      }
    }
    hide UndoPending, P.PurgeDeletedBefore, P.PlaylistState.Live, P.PlaylistState.Shown;
  }

  /** An open undo stays open while the inbox stays and sagas keep their content. */
  lemma SamePending(p: P.PlaylistState, p': P.PlaylistState, sagas: map<Id, SagaRow>, sagas': map<Id, SagaRow>, c: Id)
    requires UndoPending(p, sagas, c) && p'.inbox == p.inbox
    requires forall s :: s in sagas ==> s in sagas' && sagas'[s].content == sagas[s].content
    ensures UndoPending(p', sagas', c)
  {
    var s :| Unsettled(p, sagas, s, c);
    assert Unsettled(p', sagas', s, c);
  }

  // ---------- Steps ----------

  lemma CoordKeeps(w: World, after: World)
    requires Kept(w) && Evolves(w.coord, after.coord)
    requires after.playlist == w.playlist
    requires after.wanted == w.wanted && after.revived == w.revived && after.viewed == w.viewed
    ensures Kept(after)
  {
    forall c | UndoPending(w.playlist, w.coord.sagas, c)
      ensures UndoPending(after.playlist, after.coord.sagas, c)
    {
      SamePending(w.playlist, after.playlist, w.coord.sagas, after.coord.sagas, c);
    }
  }

  /** Edits of curations that leave every due row stored and, if it was, live. */
  lemma EditKeeps(w: World, after: World)
    requires Kept(w) && after.coord == w.coord
    requires after.playlist.inbox == w.playlist.inbox
    requires after.playlist.views == w.playlist.views && after.viewed == w.viewed
    requires forall k :: k in Due(after) && k !in Due(w) ==> after.playlist.Live(k) && k.content in w.coord.contents
    requires forall k :: k in Due(after) && k in Due(w) && k in w.playlist.curations ==>
                           k in after.playlist.curations && (w.playlist.Live(k) ==> after.playlist.Live(k))
    requires forall k :: after.playlist.Live(k) ==> k in Due(after)
    requires forall k :: k in after.playlist.curations && k !in w.playlist.curations ==> k.content in w.coord.contents
    ensures Kept(after)
  {
    forall c | UndoPending(w.playlist, w.coord.sagas, c)
      ensures UndoPending(after.playlist, after.coord.sagas, c)
    {
      SamePending(w.playlist, after.playlist, w.coord.sagas, after.coord.sagas, c);
    }
  }

  /** A command read again, or a command already recorded, does nothing; a new one keeps what is due. */
  lemma ReadKeeps(w: World, i: nat, fault: P.Fault)
    requires Inv(w) && Kept(w) && i <= w.playlistRead && i < |w.coord.log|
    ensures Kept(AfterPlaylistRead(w, i, fault))
  {
    hide Kept, ResponsesSound, VotesSound, CurationsSound, LogCounted, Ordered;
    var c := w.coord.log[i];
    var after := AfterPlaylistRead(w, i, fault);
    assert Entry(w.coord.sagas, c);
    match c {
      case Start(s, content) =>
        if P.StartOf(s) in w.playlist.inbox {
          SameKept(w, after);
        } else {
          NotYetUndone(w, s);
          StartKeeps(w, i, fault);
        }
      case Compensate(s, content) =>
        if P.CompensateOf(s) in w.playlist.inbox {
          SameKept(w, after);
        } else {
          CompensateKeeps(w, i, fault);
        }
    }
  }

  lemma SameKept(w: World, after: World)
    requires Kept(w) && after.coord == w.coord && after.playlist == w.playlist
    requires after.wanted == w.wanted && after.revived == w.revived && after.viewed == w.viewed
    ensures Kept(after)
  {
  }

  /** A saga whose START playlist has not processed has no COMPENSATE processed either. */
  lemma NotYetUndone(w: World, s: Id)
    requires LogSound(w.coord) && PlaylistSound(w) && P.StartOf(s) !in w.playlist.inbox
    ensures P.CompensateOf(s) !in w.playlist.inbox
  {
    if P.CompensateOf(s) in w.playlist.inbox {
      OrderedPrefix(w.coord.log, w.playlistRead);
      CompensateNeedsStart(w.coord.log[..w.playlistRead], s, w.coord.sagas[s].content);
    }
  }

  lemma StartKeeps(w: World, i: nat, fault: P.Fault)
    requires Kept(w) && i < |w.coord.log| && w.coord.log[i].Start? && Entry(w.coord.sagas, w.coord.log[i])
    requires w.coord.log[i].content in w.coord.contents
    requires P.StartOf(w.coord.log[i].saga) !in w.playlist.inbox && P.CompensateOf(w.coord.log[i].saga) !in w.playlist.inbox
    ensures Kept(AfterPlaylistRead(w, i, fault))
  {
    var after := AfterPlaylistRead(w, i, fault);
    var s, c := w.coord.log[i].saga, w.coord.log[i].content;
    assert Unsettled(after.playlist, after.coord.sagas, s, c);
    forall d | UndoPending(w.playlist, w.coord.sagas, d)
      ensures UndoPending(after.playlist, after.coord.sagas, d)
    {
      var t :| Unsettled(w.playlist, w.coord.sagas, t, d);
      assert Unsettled(after.playlist, after.coord.sagas, t, d);
    }
    forall k: P.Key | k.content != c
      ensures after.playlist.Live(k) <==> w.playlist.Live(k)
    {
    }
    assert after.playlist.curations.Keys == w.playlist.curations.Keys;
  }

  lemma CompensateKeeps(w: World, i: nat, fault: P.Fault)
    requires Kept(w) && i < |w.coord.log| && FirstUndo(w.playlist, w.coord.log[i]) && Entry(w.coord.sagas, w.coord.log[i])
    ensures Kept(AfterPlaylistRead(w, i, fault))
  {
    var after := AfterPlaylistRead(w, i, fault);
    var s, c := w.coord.log[i].saga, w.coord.log[i].content;
    forall d | d != c && UndoPending(w.playlist, w.coord.sagas, d)
      ensures UndoPending(after.playlist, after.coord.sagas, d)
    {
      var t :| Unsettled(w.playlist, w.coord.sagas, t, d);
      assert Unsettled(after.playlist, after.coord.sagas, t, d);
    }
    assert after.playlist.curations.Keys == w.playlist.curations.Keys;
    forall k | k in w.playlist.curations
      ensures after.playlist.Live(k) <==> k.content == c || w.playlist.Live(k)
    {
    }
    assert Due(after) == Due(w) + RowsOf(w.playlist, c);
  }

  lemma StepKeeps(w: World, a: Action)
    requires Inv(w) && Kept(w)
    requires !SweepStraddles(w, a)
    requires a.PurgePlaylist? ==> PurgeSpares(w)
    ensures Kept(Step(w, a))
  {
    hide Inv, Kept, Evolves, PurgeSpares, UndoPending;
    StepSound(w, a);
    match a
    case PlaylistReads(i, fault) =>
      if i <= w.playlistRead && i < |w.coord.log| {
        ReadKeeps(w, i, fault);
      }
    case PurgePlaylist => PurgeKeepsIff(w);
    case ShowView(c) => ShowKeeps(w, c);
    case AddCuration(k) => AddKeeps(w, k);
    case RemoveCuration(k) => RemoveKeeps(w, k);
    case RemovePlaylist(p) => RemovePlaylistKeeps(w, p);
    case _ => CoordKeeps(w, Step(w, a));
  }

  lemma ShowKeeps(w: World, c: Id)
    requires Kept(w)
    ensures Kept(Step(w, ShowView(c)))
  {
    var after := Step(w, ShowView(c));
    forall d | UndoPending(w.playlist, w.coord.sagas, d)
      ensures UndoPending(after.playlist, after.coord.sagas, d)
    {
      SamePending(w.playlist, after.playlist, w.coord.sagas, after.coord.sagas, d);
    }
  }

  lemma AddKeeps(w: World, k: P.Key)
    requires Kept(w)
    ensures Kept(Step(w, AddCuration(k)))
  {
    LiveIsDue(w);
    hide Kept, UndoPending;
    var after := Step(w, AddCuration(k));
    if after != w {
      assert ContentIs(w.coord, k.content, Active);
      assert Due(after) == Due(w) + {k};
      forall j: P.Key
        ensures after.playlist.Live(j) <==> w.playlist.Live(j) || j == k
        ensures j in after.playlist.curations <==> j in w.playlist.curations || j == k
      {
      }
      hide Step, Due, P.PlaylistState.Live;
      EditKeeps(w, after);
    }
  }

  lemma RemoveKeeps(w: World, k: P.Key)
    requires Kept(w)
    ensures Kept(Step(w, RemoveCuration(k)))
  {
    LiveIsDue(w);
    hide Kept, UndoPending;
    var after := Step(w, RemoveCuration(k));
    if after != w {
      assert Due(after) == Due(w) - {k};
      forall j: P.Key
        ensures after.playlist.Live(j) <==> w.playlist.Live(j) && j != k
        ensures j in after.playlist.curations <==> j in w.playlist.curations
      {
      }
      hide Step, Due, P.PlaylistState.Live;
      EditKeeps(w, after);
    }
  }

  lemma RemovePlaylistKeeps(w: World, p: Id)
    requires Kept(w)
    ensures Kept(Step(w, RemovePlaylist(p)))
  {
    LiveIsDue(w);
    hide Kept, UndoPending;
    EditKeeps(w, Step(w, RemovePlaylist(p)));
  }

  lemma LiveIsDue(w: World)
    requires Kept(w)
    ensures forall k :: w.playlist.Live(k) ==> k in Due(w)
  {
  }

  lemma {:induction false} RunKeeps(w: World, acts: seq<Action>)
    requires Inv(w) && Kept(w) && NoTickStraddles(w, acts) && PurgesSpare(w, acts)
    ensures Kept(Exec(w, acts))
    decreases |acts|
  {
    hide Inv, Kept, Step, PurgeSpares, SweepStraddles;
    if acts != [] {
      StepKeeps(w, acts[0]);
      StepSound(w, acts[0]);
      RunKeeps(Step(w, acts[0]), acts[1..]);
    }
  }

  /** At every moment of the run all that is due is stored, and live or still to be restored. */
  ghost predicate KeptThroughout(w: World, acts: seq<Action>)
    decreases |acts|
  {
    Kept(w) && (acts == [] || KeptThroughout(Step(w, acts[0]), acts[1..]))
  }

  /** Runs lose nothing that is due exactly if their purges spare it. */
  lemma {:induction false} KeptThroughoutIff(w: World, acts: seq<Action>)
    requires Inv(w) && Kept(w) && NoTickStraddles(w, acts)
    ensures KeptThroughout(w, acts) <==> PurgesSpare(w, acts)
    decreases |acts|
  {
    hide Inv, Kept, Step, PurgeSpares, SweepStraddles;
    if acts != [] {
      var next := Step(w, acts[0]);
      StepSound(w, acts[0]);
      if acts[0].PurgePlaylist? {
        PurgeKeepsIff(w);
      }
      if acts[0].PurgePlaylist? && !PurgeSpares(w) {
        assert !KeptThroughout(next, acts[1..]);
      } else {
        StepKeeps(w, acts[0]);
        KeptThroughoutIff(next, acts[1..]);
      }
    }
  }

  // ---------- Compensation is lossless ----------

  /** Once playlist has read the whole topic, an active content has no undo pending. */
  lemma NothingPending(w: World, c: Id)
    requires Inv(w) && w.playlistRead == |w.coord.log| && ContentIs(w.coord, c, Active)
    ensures !UndoPending(w.playlist, w.coord.sagas, c)
  {
    hide Ordered, LogCounted, ResponsesSound, VotesSound, CurationsSound;
    assert w.coord.log[..w.playlistRead] == w.coord.log;
    forall s
      ensures !Unsettled(w.playlist, w.coord.sagas, s, c)
    {
      if s in w.coord.sagas && w.coord.sagas[s].content == c {
        assert Undone(w.coord.sagas[s]);
        assert Compensate(s, c) in w.coord.log;
      }
    }
  }

  /**
    When playlist has read the whole topic, the live curations of an active
    content are the wanted ones, all of them, and besides only those that a
    compensation revived; and its view is shown if playlist ever had one.
  */
  lemma CompensationIsLossless(acts: seq<Action>, c: Id)
    requires NoTickStraddles(GENESIS, acts) && PurgesSpare(GENESIS, acts)
    requires var w := Exec(GENESIS, acts);
             w.playlistRead == |w.coord.log| && ContentIs(w.coord, c, Active)
    ensures var w := Exec(GENESIS, acts);
            && (forall k: P.Key :: k.content == c ==> (w.playlist.Live(k) <==> k in w.wanted || k in w.revived))
            && (w.playlist.Shown(c) <==> c in w.viewed)
  {
    hide Exec, NoTickStraddles, PurgesSpare, Inv, UndoPending;
    ReachableSound(acts);
    GenesisSound();
    GenesisKept();
    RunKeeps(GENESIS, acts);
    NothingPending(Exec(GENESIS, acts), c);
  }

  lemma GenesisKept()
    ensures Kept(GENESIS)
  {
  }

  // ---------- When it is exact ----------

  /** One compensation restores exactly the wanted set precisely when no other row of the content is stored. */
  lemma RestoreIsExactIff(w: World, i: nat, fault: P.Fault)
    requires i < |w.coord.log| && FirstUndo(w.playlist, w.coord.log[i])
    requires forall k :: k in w.wanted && k.content == w.coord.log[i].content ==> k in w.playlist.curations
    ensures var c, p := w.coord.log[i].content, AfterPlaylistRead(w, i, fault).playlist;
            (forall k: P.Key :: k.content == c ==> (p.Live(k) <==> k in w.wanted)) <==>
            (RowsOf(w.playlist, c) <= w.wanted)
  {
    var c, p := w.coord.log[i].content, AfterPlaylistRead(w, i, fault).playlist;
    forall k: P.Key | k.content == c
      ensures p.Live(k) <==> k in RowsOf(w.playlist, c)
    {
    }
  }

  /** The step restores the curations of the content. */
  predicate Restores(w: World, a: Action, c: Id) {
    && a.PlaylistReads? && a.index <= w.playlistRead && a.index < |w.coord.log|
    && FirstUndo(w.playlist, w.coord.log[a.index]) && w.coord.log[a.index].content == c
  }

  /** Whenever the run restores the curations of the content, no row is stored but wanted ones. */
  ghost predicate RestoresOnlyWanted(w: World, acts: seq<Action>, c: Id)
    decreases |acts|
  {
    acts == [] ||
    (&& (Restores(w, acts[0], c) ==> RowsOf(w.playlist, c) <= w.wanted)
     && RestoresOnlyWanted(Step(w, acts[0]), acts[1..], c))
  }

  predicate NoneRevived(w: World, c: Id) {
    forall k :: k in w.revived ==> k.content != c
  }

  /** At no moment of the run is a curation of the content there that its user had removed. */
  ghost predicate NeverRevived(w: World, acts: seq<Action>, c: Id)
    decreases |acts|
  {
    NoneRevived(w, c) && (acts == [] || NeverRevived(Step(w, acts[0]), acts[1..], c))
  }

  lemma StepRevivesIff(w: World, a: Action, c: Id)
    requires NoneRevived(w, c)
    ensures NoneRevived(Step(w, a), c) <==> (Restores(w, a, c) ==> RowsOf(w.playlist, c) <= w.wanted)
  {
    if Restores(w, a, c) {
      assert Step(w, a).revived == w.revived + (RowsOf(w.playlist, c) - w.wanted);
      forall k | k in RowsOf(w.playlist, c) && k !in w.wanted
        ensures k in Step(w, a).revived && k.content == c
      {
      }
    }
  }

  /** No user's removal is undone in a run exactly if the run restores only wanted rows. */
  lemma {:induction false} NeverRevivedIff(w: World, acts: seq<Action>, c: Id)
    requires NoneRevived(w, c)
    ensures NeverRevived(w, acts, c) <==> RestoresOnlyWanted(w, acts, c)
    ensures NeverRevived(w, acts, c) ==> NoneRevived(Exec(w, acts), c)
    decreases |acts|
  {
    hide Step, NoneRevived, Restores, RowsOf;
    if acts != [] {
      var next := Step(w, acts[0]);
      StepRevivesIff(w, acts[0], c);
      if NoneRevived(next, c) {
        NeverRevivedIff(next, acts[1..], c);
      } else {
        assert !NeverRevived(next, acts[1..], c);
      }
    }
  }

  /**
    However many sagas on the content failed half-way, the live set is exactly the
    one its users asked for, if at each restore no row was stored but wanted ones.
  */
  lemma CompensationIsExact(acts: seq<Action>, c: Id)
    requires NoTickStraddles(GENESIS, acts) && PurgesSpare(GENESIS, acts)
    requires RestoresOnlyWanted(GENESIS, acts, c)
    requires var w := Exec(GENESIS, acts);
             w.playlistRead == |w.coord.log| && ContentIs(w.coord, c, Active)
    ensures var w := Exec(GENESIS, acts);
            forall k: P.Key :: k.content == c ==> (w.playlist.Live(k) <==> k in w.wanted)
  {
    hide Exec, NoTickStraddles, PurgesSpare, RestoresOnlyWanted, NeverRevived;
    CompensationIsLossless(acts, c);
    NeverRevivedIff(GENESIS, acts, c);
  }
}
