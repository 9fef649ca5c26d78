/**
  The invariant of the whole system, and its preservation by every step.
*/
module SagaInvariant {
  import opened Entities
  import opened Coordinator
  import P = PlaylistParticipant
  import L = LiveChatParticipant
  import opened SagaWorld
  import opened SagaCoupling
  import opened SagaHandlers

  /** Playlist has recorded exactly the commands it has read for the first time. */
  ghost predicate PlaylistSound(w: World) {
    w.playlistRead <= |w.coord.log| && RecordsMatch(w.coord.sagas, w.playlist.inbox, w.coord.log[..w.playlistRead])
  }

  ghost predicate RecordsMatch(sagas: map<Id, SagaRow>, inbox: map<P.InboxKey, P.Outcome>, read: seq<Command>) {
    && (forall s :: P.StartOf(s) in inbox <==> s in sagas && Start(s, sagas[s].content) in read)
    && (forall s :: P.CompensateOf(s) in inbox <==> s in sagas && Compensate(s, sagas[s].content) in read)
  }

  /** Every response ever sent echoes its saga and repeats what its sender recorded. */
  ghost predicate ResponsesSound(w: World) {
    forall r :: r in w.responses ==>
      && r.saga in w.coord.sagas
      && r.content == w.coord.sagas[r.saga].content
      && Recorded(w.playlist, w.chat, r)
  }

  predicate Recorded(p: P.PlaylistState, chat: L.ChatState, r: Response) {
    match r.participant
    case Playlist =>
      P.StartOf(r.saga) in p.inbox && r == P.Reply(r.saga, r.content, p.inbox[P.StartOf(r.saga)])
    case WatchingSession =>
      r.saga in chat.inbox && r == L.Reply(r.saga, r.content, chat.inbox[r.saga])
    case OtherParticipant => false
  }

  /** A success noted by the coordinator is a success recorded by the participant. */
  ghost predicate VotesSound(sagas: map<Id, SagaRow>, p: P.PlaylistState, chat: L.ChatState) {
    forall s :: s in sagas ==>
      && (sagas[s].playlist == Success ==> DoneFor(p, s))
      && (sagas[s].watching == Success ==> s in chat.inbox && chat.inbox[s])
  }

  predicate Running(row: SagaRow) {
    row.status == Started || row.status == Completed
  }

  /** Once playlist has deleted for a saga that is not undone, nothing of its content is live or shown. */
  ghost predicate CurationsSound(w: World) {
    forall s :: s in w.coord.sagas && Running(w.coord.sagas[s]) && DoneFor(w.playlist, s) ==>
      Erased(w.playlist, w.coord.sagas[s].content)
  }

  predicate DoneFor(p: P.PlaylistState, s: Id) {
    P.StartOf(s) in p.inbox && p.inbox[P.StartOf(s)] == P.Done
  }

  ghost predicate Erased(p: P.PlaylistState, content: Id) {
    !p.Shown(content) && forall k :: k in p.curations && k.content == content ==> p.curations[k].Some?
  }

  ghost predicate Inv(w: World) {
    && CoordSound(w.coord)
    && PlaylistSound(w)
    && ResponsesSound(w)
    && VotesSound(w.coord.sagas, w.playlist, w.chat)
    && CurationsSound(w)
  }

  lemma GenesisSound()
    ensures Inv(GENESIS)
  {
  }

  // ---------- The coordinator moves ----------

  lemma CoordStep(w: World, coord: CoordinatorState)
    requires Inv(w) && CoordSound(coord) && Evolves(w.coord, coord)
    requires VotesSound(coord.sagas, w.playlist, w.chat)
    ensures Inv(w.(coord := coord))
  {
    CoordStepPlaylist(w, coord);
    CoordStepResponses(w, coord);
    CoordStepCurations(w, coord);
  }

  lemma CoordStepPlaylist(w: World, coord: CoordinatorState)
    requires Tallied(w.coord) && PlaylistSound(w) && Evolves(w.coord, coord)
    ensures PlaylistSound(w.(coord := coord))
  {
    var read := w.coord.log[..w.playlistRead];
    assert coord.log[..w.playlistRead] == read;
    forall c | c in read
      ensures c in w.coord.log && Entry(w.coord.sagas, c)
    {
    }
  }

  lemma CoordStepResponses(w: World, coord: CoordinatorState)
    requires ResponsesSound(w) && Evolves(w.coord, coord)
    ensures ResponsesSound(w.(coord := coord))
  {
  }

  lemma CoordStepCurations(w: World, coord: CoordinatorState)
    requires PlaylistSound(w) && CurationsSound(w) && Evolves(w.coord, coord)
    ensures CurationsSound(w.(coord := coord))
  {
    forall s | s in coord.sagas && Running(coord.sagas[s]) && DoneFor(w.playlist, s)
      ensures Erased(w.playlist, coord.sagas[s].content)
    {
      assert s in w.coord.sagas && RowEvolves(w.coord.sagas[s], coord.sagas[s]);
      assert Running(w.coord.sagas[s]);
    }
  }

  // ---------- Playlist moves ----------

  lemma PlaylistReadSound(w: World, i: nat, fault: P.Fault)
    requires Inv(w) && i <= w.playlistRead && i < |w.coord.log|
    ensures Inv(AfterPlaylistRead(w, i, fault))
  {
    hide CoordSound, PlaylistSound, ResponsesSound, VotesSound, CurationsSound, P.Handle, P.Answers;
    LogOf(w.coord);
    RecordsStay(w.playlist, w.now, w.coord.log[i], fault);
    MoreVotes(w.coord.sagas, w.playlist, P.Handle(w.playlist, w.now, w.coord.log[i], fault), w.chat, w.chat);
    PlaylistReadInbox(w, i, fault);
    PlaylistReadResponses(w, i, fault);
    PlaylistReadCurations(w, i, fault);
  }

  lemma LogOf(st: CoordinatorState)
    requires CoordSound(st)
    ensures Coupled(st) && LogSound(st) && Tallied(st)
  {
  }

  lemma MoreVotes(sagas: map<Id, SagaRow>, p: P.PlaylistState, p': P.PlaylistState, chat: L.ChatState, chat': L.ChatState)
    requires VotesSound(sagas, p, chat)
    requires forall m :: m in p.inbox ==> m in p'.inbox && p'.inbox[m] == p.inbox[m]
    requires forall s :: s in chat.inbox ==> s in chat'.inbox && chat'.inbox[s] == chat.inbox[s]
    ensures VotesSound(sagas, p', chat')
  {
  }

  /** Records are only added. */
  lemma RecordsStay(p: P.PlaylistState, now: Time, c: Command, fault: P.Fault)
    ensures forall m :: m in p.inbox ==>
                          m in P.Handle(p, now, c, fault).inbox && P.Handle(p, now, c, fault).inbox[m] == p.inbox[m]
    ensures P.Handle(p, now, c, fault).inbox.Keys ==
            p.inbox.Keys + {if c.Start? then P.StartOf(c.saga) else P.CompensateOf(c.saga)}
  {
  }

  function RecordOf(c: Command): P.InboxKey {
    if c.Start? then P.StartOf(c.saga) else P.CompensateOf(c.saga)
  }

  lemma OneMoreRecord(p: P.PlaylistState, now: Time, c: Command, fault: P.Fault)
    ensures forall k :: k in P.Handle(p, now, c, fault).inbox <==> k in p.inbox || k == RecordOf(c)
  {
  }

  /** One command more is read and recorded. */
  lemma OneMoreMatch(
      sagas: map<Id, SagaRow>, inbox: map<P.InboxKey, P.Outcome>, inbox': map<P.InboxKey, P.Outcome>,
      read: seq<Command>, c: Command)
    requires RecordsMatch(sagas, inbox, read) && Entry(sagas, c)
    requires forall k :: k in inbox' <==> k in inbox || k == RecordOf(c)
    ensures RecordsMatch(sagas, inbox', read + [c])
  {
  }

  lemma PlaylistReadInbox(w: World, i: nat, fault: P.Fault)
    requires Tallied(w.coord) && PlaylistSound(w) && i <= w.playlistRead && i < |w.coord.log|
    ensures PlaylistSound(AfterPlaylistRead(w, i, fault))
  {
    hide LogCounted, P.Handle, P.Answers, RecordsMatch;
    var log, n := w.coord.log, w.playlistRead;
    var c := log[i];
    assert Entry(w.coord.sagas, c);
    OneMoreRecord(w.playlist, w.now, c, fault);
    if i == n {
      OneMoreMatch(w.coord.sagas, w.playlist.inbox, P.Handle(w.playlist, w.now, c, fault).inbox, log[..n], c);
      assert log[..n + 1] == log[..n] + [c];
    } else {
      assert c in log[..n];
      SameMatch(w.coord.sagas, w.playlist.inbox, P.Handle(w.playlist, w.now, c, fault).inbox, log[..n], c);
    }
  }

  /** A command read before leaves the records as they are. */
  lemma SameMatch(
      sagas: map<Id, SagaRow>, inbox: map<P.InboxKey, P.Outcome>, inbox': map<P.InboxKey, P.Outcome>,
      read: seq<Command>, c: Command)
    requires RecordsMatch(sagas, inbox, read) && Entry(sagas, c) && c in read
    requires forall k :: k in inbox' <==> k in inbox || k == RecordOf(c)
    ensures RecordsMatch(sagas, inbox', read)
  {
  }

  lemma PlaylistReadResponses(w: World, i: nat, fault: P.Fault)
    requires Tallied(w.coord) && ResponsesSound(w) && i < |w.coord.log|
    ensures ResponsesSound(AfterPlaylistRead(w, i, fault))
  {
    var c := w.coord.log[i];
    assert Entry(w.coord.sagas, c);
    RecordsStay(w.playlist, w.now, c, fault);
    var after := AfterPlaylistRead(w, i, fault);
    forall r | r in after.responses
      ensures r.saga in w.coord.sagas && r.content == w.coord.sagas[r.saga].content
      ensures Recorded(after.playlist, after.chat, r)
    {
      if r !in w.responses {
        assert r in P.Answers(w.playlist, w.now, c, fault);
      } else {
        assert Recorded(w.playlist, w.chat, r);
      }
    }
  }

  lemma PlaylistReadCurations(w: World, i: nat, fault: P.Fault)
    requires Inv(w) && i <= w.playlistRead && i < |w.coord.log|
    ensures CurationsSound(AfterPlaylistRead(w, i, fault))
  {
    hide CoordSound, PlaylistSound, ResponsesSound, VotesSound, Erased, P.Handle;
    var after := AfterPlaylistRead(w, i, fault);
    var c := w.coord.log[i];
    forall s | s in w.coord.sagas && Running(w.coord.sagas[s]) && DoneFor(after.playlist, s)
      ensures Erased(after.playlist, w.coord.sagas[s].content)
    {
      RecordsStay(w.playlist, w.now, c, fault);
      if DoneFor(w.playlist, s) {
        if c.Compensate? && c.content == w.coord.sagas[s].content {
          UndoAlreadyRead(w, i, s);
        }
        HandleErased(w.playlist, w.now, c, fault, w.coord.sagas[s].content);
      } else {
        NewlyDone(w.playlist, w.now, c, fault, s);
        EntryIsSound(w.coord, c);
      }
    }
  }

  predicate FirstUndo(p: P.PlaylistState, c: Command) {
    c.Compensate? && P.CompensateOf(c.saga) !in p.inbox
  }

  lemma EntryIsSound(st: CoordinatorState, c: Command)
    requires CoordSound(st) && c in st.log
    ensures Entry(st.sagas, c)
  {
  }

  lemma NewlyDone(p: P.PlaylistState, now: Time, c: Command, fault: P.Fault, s: Id)
    requires !DoneFor(p, s) && DoneFor(P.Handle(p, now, c, fault), s)
    ensures c.Start? && c.saga == s && Erased(P.Handle(p, now, c, fault), c.content)
  {
  }

  lemma HandleErased(p: P.PlaylistState, now: Time, c: Command, fault: P.Fault, content: Id)
    requires Erased(p, content) && !(FirstUndo(p, c) && c.content == content)
    ensures Erased(P.Handle(p, now, c, fault), content)
  {
  }

  /** A COMPENSATE on the content of a running saga that playlist has processed is an older saga's, and has been read before. */
  lemma UndoAlreadyRead(w: World, i: nat, s: Id)
    requires Inv(w) && i <= w.playlistRead && i < |w.coord.log|
    requires s in w.coord.sagas && Running(w.coord.sagas[s]) && P.StartOf(s) in w.playlist.inbox
    requires w.coord.log[i].Compensate? && w.coord.log[i].content == w.coord.sagas[s].content
    ensures P.CompensateOf(w.coord.log[i].saga) in w.playlist.inbox
  {
    hide LogCounted, Coupled, ResponsesSound, VotesSound, CurationsSound;
    var log, n := w.coord.log, w.playlistRead;
    var c := log[i];
    var earlier := log[..n];
    assert Entry(w.coord.sagas, c);
    if i < n {
      assert c in earlier;
    } else {
      OrderedPrefix(log, n);
      assert Start(c.saga, c.content) in earlier && Start(s, c.content) in earlier;
      TwoStarts(earlier, s, c.saga, c.content);
      assert Compensate(s, c.content) in earlier ==> Entry(w.coord.sagas, Compensate(s, c.content));
    }
  }

  // ---------- Live-chat moves ----------

  lemma ChatReadSound(w: World, i: nat, fault: L.ChatFault)
    requires Inv(w) && i <= w.chatRead && i < |w.coord.log|
    ensures Inv(AfterChatRead(w, i, fault))
  {
    hide CoordSound, PlaylistSound, ResponsesSound, VotesSound, CurationsSound, L.Handle, L.Answers;
    EntryIsSound(w.coord, w.coord.log[i]);
    ChatRecordsStay(w.chat, w.coord.log[i], fault);
    ChatReadResponses(w, i, fault);
    MoreVotes(w.coord.sagas, w.playlist, w.playlist, w.chat, L.Handle(w.chat, w.coord.log[i], fault));
    SamePlaylist(w, AfterChatRead(w, i, fault));
  }

  lemma ChatRecordsStay(chat: L.ChatState, c: Command, fault: L.ChatFault)
    ensures forall s :: s in chat.inbox ==>
                          s in L.Handle(chat, c, fault).inbox && L.Handle(chat, c, fault).inbox[s] == chat.inbox[s]
  {
  }

  lemma ChatReadResponses(w: World, i: nat, fault: L.ChatFault)
    requires ResponsesSound(w) && i < |w.coord.log| && Entry(w.coord.sagas, w.coord.log[i])
    ensures ResponsesSound(AfterChatRead(w, i, fault))
  {
    var c := w.coord.log[i];
    ChatRecordsStay(w.chat, c, fault);
    var after := AfterChatRead(w, i, fault);
    forall r | r in after.responses
      ensures r.saga in w.coord.sagas && r.content == w.coord.sagas[r.saga].content
      ensures Recorded(after.playlist, after.chat, r)
    {
      if r !in w.responses {
        assert r in L.Answers(w.chat, c, fault);
      } else {
        assert Recorded(w.playlist, w.chat, r);
      }
    }
  }

  /** What is said of playlist and topic does not depend on anything else. */
  lemma SamePlaylist(w: World, after: World)
    requires after.coord == w.coord && after.playlist == w.playlist && after.playlistRead == w.playlistRead
    requires PlaylistSound(w) && CurationsSound(w)
    ensures PlaylistSound(after) && CurationsSound(after)
  {
  }

  // ---------- Users and the purge move ----------

  /** Changes of curations and views keep the invariant unless they make a row of a locked or removed content live. */
  lemma CurationsStep(w: World, after: World)
    requires Inv(w)
    requires after.coord == w.coord && after.playlistRead == w.playlistRead && after.chat == w.chat
    requires after.responses == w.responses
    requires after.playlist.inbox == w.playlist.inbox
    requires forall c :: after.playlist.Shown(c) && !w.playlist.Shown(c) ==> ContentIs(w.coord, c, Active)
    requires forall k :: after.playlist.Live(k) && !w.playlist.Live(k) ==> ContentIs(w.coord, k.content, Active)
    ensures Inv(after)
  {
    CurationsStillSound(w, after);
    hide CoordSound, VotesSound, CurationsSound;
    SameResponses(w, after);
  }

  lemma SameResponses(w: World, after: World)
    requires after.coord == w.coord && after.playlistRead == w.playlistRead && after.chat == w.chat
    requires after.responses == w.responses && after.playlist.inbox == w.playlist.inbox
    requires PlaylistSound(w) && ResponsesSound(w) && VotesSound(w.coord.sagas, w.playlist, w.chat)
    ensures PlaylistSound(after) && ResponsesSound(after) && VotesSound(after.coord.sagas, after.playlist, after.chat)
  {
    forall r | r in w.responses
      ensures Recorded(after.playlist, after.chat, r)
    {
      assert Recorded(w.playlist, w.chat, r);
    }
  }

  lemma CurationsStillSound(w: World, after: World)
    requires Coupled(w.coord) && CurationsSound(w) && after.coord == w.coord
    requires after.playlist.inbox == w.playlist.inbox
    requires forall c :: after.playlist.Shown(c) && !w.playlist.Shown(c) ==> ContentIs(w.coord, c, Active)
    requires forall k :: after.playlist.Live(k) && !w.playlist.Live(k) ==> ContentIs(w.coord, k.content, Active)
    ensures CurationsSound(after)
  {
    forall s | s in w.coord.sagas && Running(w.coord.sagas[s]) && DoneFor(w.playlist, s)
      ensures Erased(after.playlist, w.coord.sagas[s].content)
    {
      var c := w.coord.sagas[s].content;
      assert Erased(w.playlist, c);
      assert !ContentIs(w.coord, c, Active);
      forall k | k in after.playlist.curations && k.content == c
        ensures after.playlist.curations[k].Some?
      {
        assert !w.playlist.Live(k) && !after.playlist.Live(k);
      }
    }
  }
}
