/**
  What holds in every run of the whole system, also where a sweep falls between
  the two clock readings of a deletion.
*/
module SagaEveryRun {
  import opened Entities
  import opened Coordinator
  import P = PlaylistParticipant
  import L = LiveChatParticipant
  import opened SagaWorld
  import opened SagaCoupling
  import opened SagaHandlers
  import opened SagaInvariant

  // ---------- Only forward ----------

  lemma UnseenEvolves(st: CoordinatorState, now: Time, e: Response)
    ensures Evolves(st, ProcessUnseen(st, now, e))
  {
  }

  lemma {:induction false} TimeOutAllEvolves(st: CoordinatorState, now: Time, ids: seq<Id>)
    requires forall i, j :: 0 <= i < j < |ids| ==> ids[i] != ids[j]
    requires forall s :: s in ids ==> s in st.sagas && st.sagas[s].status == Started
    ensures Evolves(st, TimeOutAll(st, now, ids))
    decreases |ids|
  {
    hide Evolves;
    EvolvesReflexive(st);
    if ids != [] {
      var n := |ids| - 1;
      var earlier, s := ids[..n], ids[n];
      assert s in ids && s !in earlier;
      assert forall t :: t in earlier ==> t in ids;
      TimeOutAllEvolves(st, now, earlier);
      TimeOutAllSagas(st, now, earlier);
      var mid := TimeOutAll(st, now, earlier);
      TimeOutOneEvolves(mid, now, s);
      EvolvesTransitive(st, mid, TimeOutAll(st, now, ids));
    }
  }

  lemma TimeOutOneEvolves(st: CoordinatorState, now: Time, s: Id)
    requires s in st.sagas && st.sagas[s].status == Started
    ensures Evolves(st, TimeOutOne(st, now, s))
  {
  }

  lemma FallbackEvolves(st: CoordinatorState, now: Time, threshold: int)
    ensures Evolves(st, Fallback(st, now, threshold))
  {
  }

  lemma SweepEvolves(st: CoordinatorState, now: Time, ids: seq<Id>)
    requires ListsTimedOut(st, now - TIMEOUT, ids)
    ensures Evolves(st, Sweep(st, now, ids))
  {
    hide Evolves, TimeOutAll, Fallback;
    TimeOutAllEvolves(st, now, ids);
    FallbackEvolves(TimeOutAll(st, now, ids), now, now - TIMEOUT);
    EvolvesTransitive(st, TimeOutAll(st, now, ids), Sweep(st, now, ids));
  }

  /** No step of any run changes a finished saga, brings a removed content back or loses an entry of the topic. */
  lemma StepEvolves(w: World, a: Action)
    ensures Evolves(w.coord, Step(w, a).coord)
  {
    hide ProcessUnseen, Sweep, TimeOutAll;
    match a
    case Deliver(e) => UnseenEvolves(w.coord, w.now, e);
    case Tick(ids) =>
      if ListsTimedOut(w.coord, w.now - TIMEOUT, ids) {
        SweepEvolves(w.coord, w.now, ids);
      }
    case _ =>
  }

  lemma {:induction false} RunEvolves(w: World, acts: seq<Action>)
    ensures Evolves(w.coord, Exec(w, acts).coord)
    decreases |acts|
  {
    hide Evolves, Step;
    EvolvesReflexive(w.coord);
    if acts != [] {
      StepEvolves(w, acts[0]);
      RunEvolves(Step(w, acts[0]), acts[1..]);
      EvolvesTransitive(w.coord, Step(w, acts[0]).coord, Exec(w, acts).coord);
    }
  }

  // ---------- What the coordinator keeps ----------

  /** A saga's content is known, and removed if the saga is completed. */
  ghost predicate RowsNamed(st: CoordinatorState) {
    forall s :: s in st.sagas ==>
      && st.sagas[s].content in st.contents
      && (st.sagas[s].status == Completed ==> st.contents[st.sagas[s].content].status == Deleted)
  }

  /** A locked content is named by some started saga. */
  ghost predicate LocksNamed(st: CoordinatorState) {
    forall c :: c in st.contents && st.contents[c].status == Deleting ==> exists s :: Drives(st, s, c, Started)
  }

  ghost predicate InboxKnown(st: CoordinatorState) {
    forall m :: m in st.inbox ==> m.saga in st.sagas
  }

  ghost predicate Bookkept(st: CoordinatorState) {
    Tallied(st) && RowsNamed(st) && LocksNamed(st) && InboxKnown(st)
  }

  /** A started saga moves on. Its content is unlocked by an undo and removed by a completion. */
  ghost predicate Shifts(st: CoordinatorState, after: CoordinatorState, s: Id, row: SagaRow) {
    && s in st.sagas && st.sagas[s].status == Started && st.sagas[s].content == row.content
    && after.sagas == st.sagas[s := row]
    && after.contents.Keys == st.contents.Keys
    && (forall c :: c in st.contents ==>
          after.contents[c].status ==
          if c != row.content || row.status == Started then st.contents[c].status
          else if row.status == Completed || st.contents[c].status == Deleted then Deleted
          else Active)
  }

  lemma ShiftNamed(st: CoordinatorState, after: CoordinatorState, s: Id, row: SagaRow)
    requires RowsNamed(st) && LocksNamed(st) && Shifts(st, after, s, row)
    ensures RowsNamed(after) && LocksNamed(after)
  {
    forall c | c in after.contents && after.contents[c].status == Deleting
      ensures exists t :: Drives(after, t, c, Started)
    {
      var t :| Drives(st, t, c, Started);
      assert Drives(after, t, c, Started);
    }
  }

  lemma UndoBook(st: CoordinatorState, s: Id, row: SagaRow, now: Time)
    requires Bookkept(st) && s in st.sagas && st.sagas[s].status == Started
    requires row.content == st.sagas[s].content && Undone(row)
    ensures Bookkept(Undo(st, s, row, now))
  {
    hide Tallied, LocksNamed;
    UndoTallied(st, s, row, now);
    ShiftNamed(st, Undo(st, s, row, now), s, row);
  }

  lemma UnseenBook(st: CoordinatorState, now: Time, e: Response)
    requires Bookkept(st) && e.saga in st.sagas && Echoes(st, e)
    ensures Bookkept(ProcessUnseen(st, now, e))
  {
    hide Bookkept;
    if !st.sagas[e.saga].Finished() {
      var noted := st.sagas[e.saga].Noted(e.participant, e.answer, now);
      if e.answer == Refused || noted.AnyFailed() {
        UndoBook(st, e.saga, noted.(status := SagaStatus.Failed), now);
      } else if noted.AllSuccess() {
        OnwardBook(st, Complete(st, e.saga, noted.(status := Completed), now), e.saga, noted.(status := Completed));
      } else {
        OnwardBook(st, SaveSaga(st, e.saga, noted), e.saga, noted);
      }
    }
  }

  /** A saga that is not undone leaves the topic as it was. */
  lemma OnwardBook(st: CoordinatorState, after: CoordinatorState, s: Id, row: SagaRow)
    requires Bookkept(st) && after.log == st.log && after.inbox == st.inbox && !Undone(row)
    requires Shifts(st, after, s, row)
    ensures Bookkept(after)
  {
    hide Tallied, LocksNamed;
    SameTally(st, after);
    ShiftNamed(st, after, s, row);
  }

  lemma UnseenKnows(st: CoordinatorState, now: Time, e: Response)
    ensures ProcessUnseen(st, now, e).sagas.Keys == st.sagas.Keys
  {
  }

  lemma ResponseBook(st: CoordinatorState, now: Time, e: Response)
    requires Bookkept(st) && e.saga in st.sagas && Echoes(st, e)
    ensures Bookkept(HandleResponse(st, now, e))
  {
    hide ProcessUnseen, Tallied, LocksNamed, RowsNamed, Evolves;
    if e.MessageKey() !in st.inbox {
      UnseenBook(st, now, e);
      UnseenKnows(st, now, e);
      ContentsBook(ProcessUnseen(st, now, e), HandleResponse(st, now, e));
    }
  }

  lemma {:induction false} TimeOutAllBook(st: CoordinatorState, now: Time, ids: seq<Id>)
    requires Bookkept(st)
    requires forall i, j :: 0 <= i < j < |ids| ==> ids[i] != ids[j]
    requires forall s :: s in ids ==> s in st.sagas && st.sagas[s].status == Started
    ensures Bookkept(TimeOutAll(st, now, ids))
    decreases |ids|
  {
    hide Bookkept;
    if ids != [] {
      var n := |ids| - 1;
      var earlier, s := ids[..n], ids[n];
      assert s in ids && s !in earlier;
      assert forall t :: t in earlier ==> t in ids;
      TimeOutAllBook(st, now, earlier);
      TimeOutAllSagas(st, now, earlier);
      var mid := TimeOutAll(st, now, earlier);
      UndoBook(mid, s, mid.sagas[s].(status := TimedOut, updatedAt := now), now);
    }
  }

  /** Contents that are added, unlocked or edited, and records of known sagas, leave the books in order. */
  lemma ContentsBook(st: CoordinatorState, after: CoordinatorState)
    requires Bookkept(st) && after.sagas == st.sagas && after.log == st.log && InboxKnown(after)
    requires st.contents.Keys <= after.contents.Keys
    requires forall c :: c in after.contents ==>
               if c in st.contents && after.contents[c].status == st.contents[c].status then true
               else after.contents[c].status == Active && (c in st.contents ==> st.contents[c].status == Deleting)
    ensures Bookkept(after)
  {
    hide Tallied;
    SameTally(st, after);
    forall c | c in after.contents && after.contents[c].status == Deleting
      ensures exists t :: Drives(after, t, c, Started)
    {
      var t :| Drives(st, t, c, Started);
      assert Drives(after, t, c, Started);
    }
  }

  lemma SweepBook(st: CoordinatorState, now: Time, ids: seq<Id>)
    requires Bookkept(st) && ListsTimedOut(st, now - TIMEOUT, ids)
    ensures Bookkept(Sweep(st, now, ids))
  {
    hide Tallied, RowsNamed, LocksNamed, TimeOutAll;
    TimeOutAllBook(st, now, ids);
    ContentsBook(TimeOutAll(st, now, ids), Sweep(st, now, ids));
  }

  lemma StartBook(st: CoordinatorState, c: Id, s: Id, lockedAt: Time, createdAt: Time)
    requires Bookkept(st) && s !in st.sagas
    ensures Bookkept(StartDeletion(st, c, s, lockedAt, createdAt))
  {
    hide Tallied;
    StartTallied(st, c, s, lockedAt, createdAt);
    var after := StartDeletion(st, c, s, lockedAt, createdAt);
    forall d | d in after.contents && after.contents[d].status == Deleting
      ensures exists t :: Drives(after, t, d, Started)
    {
      if d in st.contents && st.contents[d].status == Deleting {
        var t :| Drives(st, t, d, Started);
        assert Drives(after, t, d, Started);
      } else {
        assert Drives(after, s, d, Started);
      }
    }
  }

  // ---------- What the system keeps ----------

  /** Live-chat has a record of every START it has read. */
  ghost predicate ChatRecorded(w: World) {
    && w.chatRead <= |w.coord.log|
    && forall i :: 0 <= i < w.chatRead && w.coord.log[i].Start? ==> w.coord.log[i].saga in w.chat.inbox
  }

  /** The books of the coordinator, the participants' records of what they read, and responses that repeat those records. */
  ghost predicate Steady(w: World) {
    Bookkept(w.coord) && PlaylistSound(w) && ChatRecorded(w) && ResponsesSound(w)
  }

  lemma TalliedBook(st: CoordinatorState)
    requires Bookkept(st)
    ensures Tallied(st)
  {
  }

  lemma CoordMoves(w: World, coord: CoordinatorState)
    requires Steady(w) && Bookkept(coord) && Evolves(w.coord, coord)
    ensures Steady(w.(coord := coord))
  {
    hide Bookkept, Evolves, PlaylistSound, ResponsesSound;
    TalliedBook(w.coord);
    CoordStepPlaylist(w, coord);
    CoordStepResponses(w, coord);
    CoordStepChat(w, coord);
  }

  lemma CoordStepChat(w: World, coord: CoordinatorState)
    requires ChatRecorded(w) && Evolves(w.coord, coord)
    ensures ChatRecorded(w.(coord := coord))
  {
    assert forall i :: 0 <= i < |w.coord.log| ==> coord.log[i] == w.coord.log[i];
  }

  lemma ResponseKnown(w: World, e: Response)
    requires ResponsesSound(w) && e in w.responses
    ensures e.saga in w.coord.sagas && Echoes(w.coord, e)
  {
  }

  lemma PlaylistReadSteady(w: World, i: nat, fault: P.Fault)
    requires Steady(w) && i <= w.playlistRead && i < |w.coord.log|
    ensures Steady(AfterPlaylistRead(w, i, fault))
  {
    hide Bookkept, PlaylistSound, ResponsesSound;
    TalliedBook(w.coord);
    PlaylistReadInbox(w, i, fault);
    PlaylistReadResponses(w, i, fault);
  }

  lemma ChatReadSteady(w: World, i: nat, fault: L.ChatFault)
    requires Steady(w) && i < |w.coord.log|
    ensures Steady(AfterChatRead(w, i, fault))
  {
    hide ResponsesSound, LogCounted;
    assert Entry(w.coord.sagas, w.coord.log[i]);
    ChatReadResponses(w, i, fault);
  }

  /** Users, the purge and the clock touch none of it. */
  lemma SameSteady(w: World, after: World)
    requires Steady(w) && after.coord == w.coord && after.playlistRead == w.playlistRead && after.chatRead == w.chatRead
    requires after.playlist.inbox == w.playlist.inbox && after.chat.inbox == w.chat.inbox && after.responses == w.responses
    ensures Steady(after)
  {
    hide Bookkept;
    forall r | r in w.responses
      ensures Recorded(after.playlist, after.chat, r)
    {
      assert Recorded(w.playlist, w.chat, r);
    }
  }

  lemma CoordActionSteady(w: World, a: Action)
    requires Steady(w)
    requires a.CreateContent? || a.EditContent? || a.Delete? || a.Deliver? || a.PurgeInbox? || a.Tick?
    ensures Steady(Step(w, a))
  {
    hide Bookkept, PlaylistSound, ResponsesSound, Evolves, HandleResponse, StartDeletion, Sweep;
    StepEvolves(w, a);
    match a
    case Delete(c, s, delay) =>
      if s !in w.coord.sagas {
        StartBook(w.coord, c, s, w.now, w.now + delay);
        CoordMoves(w, StartDeletion(w.coord, c, s, w.now, w.now + delay));
      }
    case Deliver(e) =>
      if e in w.responses {
        ResponseKnown(w, e);
        ResponseBook(w.coord, w.now, e);
        CoordMoves(w, HandleResponse(w.coord, w.now, e));
      }
    case Tick(ids) =>
      if ListsTimedOut(w.coord, w.now - TIMEOUT, ids) {
        SweepBook(w.coord, w.now, ids);
        CoordMoves(w, Sweep(w.coord, w.now, ids));
        SameSteady(w.(coord := Sweep(w.coord, w.now, ids)), Step(w, a));
      }
    case PurgeInbox(threshold) => PurgeSteady(w, threshold);
    case _ =>
      KnownInbox(w.coord);
      ContentsBook(w.coord, Step(w, a).coord);
      CoordMoves(w, Step(w, a).coord);
  }

  lemma KnownInbox(st: CoordinatorState)
    requires Bookkept(st)
    ensures InboxKnown(st)
  {
  }

  lemma PurgeSteady(w: World, threshold: int)
    requires Steady(w)
    ensures Steady(Step(w, PurgeInbox(threshold)))
  {
    hide PlaylistSound, ResponsesSound, Evolves, Tallied, RowsNamed, LocksNamed;
    var coord := Step(w, PurgeInbox(threshold)).coord;
    StepEvolves(w, PurgeInbox(threshold));
    ContentsBook(w.coord, coord);
    CoordMoves(w, coord);
  }

  lemma StepSteady(w: World, a: Action)
    requires Steady(w)
    ensures Steady(Step(w, a))
  {
    hide Steady;
    match a
    case PlaylistReads(i, fault) =>
      if i <= w.playlistRead && i < |w.coord.log| {
        PlaylistReadSteady(w, i, fault);
      }
    case ChatReads(i, fault) =>
      if i <= w.chatRead && i < |w.coord.log| {
        ChatReadSteady(w, i, fault);
      }
    case Advance(_) => SameSteady(w, Step(w, a));
    case SessionsChange(_) => SameSteady(w, Step(w, a));
    case ShowView(_) => SameSteady(w, Step(w, a));
    case AddCuration(_) => SameSteady(w, Step(w, a));
    case RemoveCuration(_) => SameSteady(w, Step(w, a));
    case RemovePlaylist(_) => SameSteady(w, Step(w, a));
    case PurgePlaylist => SameSteady(w, Step(w, a));
    case _ => CoordActionSteady(w, a);
  }

  lemma {:induction false} RunSteady(w: World, acts: seq<Action>)
    requires Steady(w)
    ensures Steady(Exec(w, acts))
    decreases |acts|
  {
    hide Steady, Step;
    if acts != [] {
      StepSteady(w, acts[0]);
      RunSteady(Step(w, acts[0]), acts[1..]);
    }
  }

  /** In every reachable state, whatever its run. */
  lemma ReachableSteady(acts: seq<Action>)
    ensures Steady(Exec(GENESIS, acts))
  {
    hide Step, Exec;
    GenesisSteady();
    RunSteady(GENESIS, acts);
  }

  lemma GenesisSteady()
    ensures Steady(GENESIS)
  {
  }
}
