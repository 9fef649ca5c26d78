/**
  The whole system: the coordinator, both participants, the start topic read in
  order but redelivered at will, the responses delivered in any order any
  number of times, the users who edit playlists, and a clock.
*/
module SagaWorld {
  import opened Entities
  import opened Coordinator
  import P = PlaylistParticipant
  import L = LiveChatParticipant
  import W = WatchingSessions

  /**
    `playlistRead` and `chatRead` count the entries of the log read for the
    first time. `responses` are all responses ever sent.

    Five fields are history and steer nothing. `wanted` holds the curations
    their users added and have not removed since; `revived` those a user had
    removed and a compensation brought back; `viewed` the contents of which
    playlist ever had a view; `erasedAt` when playlist carried out the START of a
    saga; `lastTick` is when the timeout scheduler last ran.
  */
  datatype World = World(
    now: Time,
    coord: CoordinatorState,
    playlist: P.PlaylistState,
    playlistRead: nat,
    chat: L.ChatState,
    chatRead: nat,
    responses: set<Response>,
    wanted: set<P.Key>,
    revived: set<P.Key>,
    viewed: set<Id>,
    erasedAt: map<Id, Time>,
    lastTick: Time)

  datatype Action =
    | Advance(ms: nat)
    | CreateContent(content: Id, row: ContentRow)
    | EditContent(content: Id)
    | Delete(content: Id, saga: Id, delay: nat)
    | Deliver(response: Response)
    | PurgeInbox(threshold: int)
    | Tick(ids: seq<Id>)
    | PlaylistReads(index: nat, playlistFault: P.Fault)
    | ChatReads(index: nat, chatFault: L.ChatFault)
    | SessionsChange(store: W.SessionStore)
    | AddCuration(key: P.Key)
    | RemoveCuration(key: P.Key)
    | RemovePlaylist(playlist: Id)
    | ShowView(content: Id)
    | PurgePlaylist

  const GENESIS := World(
    0,
    CoordinatorState(map[], map[], map[], []),
    P.PlaylistState(map[], map[], map[]), 0,
    L.ChatState(W.NO_SESSIONS, map[]), 0,
    {}, {}, {}, {}, map[], 0)

  function ContentIs(st: CoordinatorState, c: Id, status: ContentStatus): bool {
    c in st.contents && st.contents[c].status == status
  }

  function RowsOf(p: P.PlaylistState, content: Id): set<P.Key> {
    set k | k in p.curations && k.content == content
  }

  function AfterPlaylistRead(w: World, index: nat, fault: P.Fault): World
    requires index < |w.coord.log|
  {
    var c := w.coord.log[index];
    w.(playlist := P.Handle(w.playlist, w.now, c, fault),
    playlistRead := if index == w.playlistRead then index + 1 else w.playlistRead,
    responses := w.responses + (set r | r in P.Answers(w.playlist, w.now, c, fault)),
    revived := if c.Compensate? && P.CompensateOf(c.saga) !in w.playlist.inbox
    then w.revived + (RowsOf(w.playlist, c.content) - w.wanted) else w.revived,
    erasedAt := if c.Start? && P.StartOf(c.saga) !in w.playlist.inbox
    then w.erasedAt[c.saga := w.now] else w.erasedAt)
  }

  function AfterChatRead(w: World, index: nat, fault: L.ChatFault): World
    requires index < |w.coord.log|
  {
    var c := w.coord.log[index];
    w.(chat := L.Handle(w.chat, c, fault),
    chatRead := if index == w.chatRead then index + 1 else w.chatRead,
    responses := w.responses + (set r | r in L.Answers(w.chat, c, fault)))
  }

  /** The action is a run of the timeout scheduler whose first query got this answer. */
  ghost predicate Sweeps(w: World, a: Action) {
    a.Tick? && ListsTimedOut(w.coord, w.now - TIMEOUT, a.ids)
  }

  /** One step. An action that does not apply changes nothing, so every sequence of actions is a run. */
  ghost function Step(w: World, a: Action): World {
    match a
    case Advance(ms) =>
      w.(now := w.now + ms)
    case CreateContent(c, row) =>
      if c in w.coord.contents || row.status != Active then w
      else w.(coord := SaveContent(w.coord, c, row))
    case EditContent(c) =>
      if c !in w.coord.contents then w
      else w.(coord := SaveContent(w.coord, c, w.coord.contents[c].(updatedAt := w.now)))
    case Delete(c, s, delay) =>
      // The identifier drawn for the saga is fresh.
      if s in w.coord.sagas then w
      else w.(coord := StartDeletion(w.coord, c, s, w.now, w.now + delay))
    case Deliver(e) =>
      if e !in w.responses then w else w.(coord := HandleResponse(w.coord, w.now, e))
    case PurgeInbox(threshold) =>
      w.(coord := Coordinator.PurgeInbox(w.coord, threshold))
    case Tick(ids) =>
      if !Sweeps(w, a) then w
      else w.(coord := Sweep(w.coord, w.now, ids), lastTick := w.now)
    case PlaylistReads(i, fault) =>
      // A first read, or the redelivery of anything read before.
      if i <= w.playlistRead && i < |w.coord.log| then AfterPlaylistRead(w, i, fault) else w
    case ChatReads(i, fault) =>
      if i <= w.chatRead && i < |w.coord.log| then AfterChatRead(w, i, fault) else w
    case SessionsChange(store) =>
      w.(chat := w.chat.(store := store))
    case AddCuration(k) =>
      if ContentIs(w.coord, k.content, Active) && !w.playlist.Live(k) then
        w.(playlist := P.AddCuration(w.playlist, k), wanted := w.wanted + {k})
      else w
    case RemoveCuration(k) =>
      if w.playlist.Live(k) then
        w.(playlist := P.RemoveCuration(w.playlist, k, w.now),
        wanted := w.wanted - {k}, revived := w.revived - {k})
      else w
    case RemovePlaylist(p) =>
      w.(playlist := P.DeleteAllByPlaylist(w.playlist, p, w.now),
      wanted := (set k | k in w.wanted && k.playlist != p),
      revived := (set k | k in w.revived && k.playlist != p))
    case ShowView(c) =>
      if ContentIs(w.coord, c, Active) then w.(playlist := P.AddView(w.playlist, c), viewed := w.viewed + {c}) else w
    case PurgePlaylist =>
      w.(playlist := P.PurgeDeletedBefore(w.playlist, w.now - P.RETENTION))
  }

  ghost function Exec(w: World, acts: seq<Action>): World
    decreases |acts|
  {
    if acts == [] then w else Exec(Step(w, acts[0]), acts[1..])
  }

  // ---------- What runs are assumed to do ----------

  /** A locked content whose lock is older than the threshold while its saga is not. */
  ghost predicate Straddles(st: CoordinatorState, threshold: int, s: Id) {
    && s in st.sagas && st.sagas[s].status == Started
    && st.sagas[s].content in st.contents
    && Stale(st.contents[st.sagas[s].content], threshold)
    && st.sagas[s].createdAt >= threshold
  }

  ghost predicate Straddled(st: CoordinatorState, threshold: int) {
    exists s :: Straddles(st, threshold, s)
  }

  ghost predicate SweepStraddles(w: World, a: Action) {
    Sweeps(w, a) && Straddled(w.coord, w.now - TIMEOUT)
  }

  /** No run of the timeout scheduler falls between the lock and the stamp of one deletion. */
  ghost predicate NoTickStraddles(w: World, acts: seq<Action>)
    decreases |acts|
  {
    acts == [] ||
    (!SweepStraddles(w, acts[0]) && NoTickStraddles(Step(w, acts[0]), acts[1..]))
  }

  /** The two clock readings of the start step return the same instant. */
  ghost predicate SameInstant(acts: seq<Action>) {
    forall a :: a in acts && a.Delete? ==> a.delay == 0
  }
}
