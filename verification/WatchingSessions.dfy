/**
  Watching sessions (mopl-live-chat): three redundant Redis structures, kept by
  one save and three deletes.
*/
module WatchingSessions {
  import opened Entities

  datatype WatchingSession = Session(id: Id, watcher: Id, room: Id, createdAt: Time)

  /** An entry of the sorted set of a room. A sorted set without entries does not exist in Redis. */
  datatype Membership = Membership(room: Id, watcher: Id)

  /** Sessions by watcher, watchers by session id, and the scores of the room entries. */
  datatype SessionStore = SessionStore(
    watchers: map<Id, WatchingSession>,
    ids: map<Id, Id>,
    members: map<Membership, Time>)
  {
    function WatchersOf(room: Id): set<Id> {
      set p | p in members && p.room == room :: p.watcher
    }

    function Count(room: Id): nat {
      |WatchersOf(room)|
    }

    function Saved(s: WatchingSession): SessionStore {
      SessionStore(
        watchers[s.watcher := s],
        ids[s.id := s.watcher],
        members[Membership(s.room, s.watcher) := s.createdAt])
    }

    function WithoutWatcher(w: Id): SessionStore {
      if w in watchers then
        SessionStore(
          watchers - {w},
          ids - {watchers[w].id},
          members - {Membership(watchers[w].room, w)})
      else
        this
    }

    function WithoutId(id: Id): SessionStore {
      if id in ids then WithoutWatcher(ids[id]) else this
    }

    /** Deletes the current session of every listed watcher, in whatever room it is. */
    function WithoutWatchers(gone: set<Id>): SessionStore {
      SessionStore(
        watchers - gone,
        ids - (set w | w in gone && w in watchers :: watchers[w].id),
        members - (set w | w in gone && w in watchers :: Membership(watchers[w].room, w)))
    }

    function WithoutRoom(room: Id): SessionStore {
      var st := WithoutWatchers(WatchersOf(room));
      st.(members := map p | p in st.members && p.room != room :: st.members[p])
    }

    /** Every stored session has its id entry, and its room entry with the creation time as score. */
    ghost predicate Agrees() {
      forall w :: w in watchers ==>
        var s := watchers[w];
        && s.watcher == w
        && s.id in ids && ids[s.id] == w
        && Membership(s.room, w) in members && members[Membership(s.room, w)] == s.createdAt
    }

    /** And nothing else is stored: the three structures are in bijection. */
    ghost predicate Exact() {
      && Agrees()
      && (forall id :: id in ids ==> ids[id] in watchers && watchers[ids[id]].id == id)
      && (forall p :: p in members ==> p.watcher in watchers && watchers[p.watcher].room == p.room)
    }
  }

  /** The watcher has the same session in both maps, or none in either. */
  predicate SameSession(before: map<Id, WatchingSession>, after: map<Id, WatchingSession>, w: Id) {
    (w in after <==> w in before) && (w in after ==> after[w] == before[w])
  }

  const NO_SESSIONS := SessionStore(map[], map[], map[])

  // ---------- The repository and the service ----------

  class WatchingSessionRedisRepository {
    var watchers: map<Id, WatchingSession>
    var ids: map<Id, Id>
    var members: map<Membership, Time>

    constructor ()
      ensures Store() == NO_SESSIONS
    {
      watchers, ids, members := map[], map[], map[];
    }

    function Store(): SessionStore
      reads this
    {
      SessionStore(watchers, ids, members)
    }

    method Save(s: WatchingSession)
      modifies this
      ensures Store() == old(Store()).Saved(s)
    {
      watchers := watchers[s.watcher := s];
      ids := ids[s.id := s.watcher];
      members := members[Membership(s.room, s.watcher) := s.createdAt];
    }

    predicate ExistsByLiveChatRoomIdAndWatcherId(room: Id, watcher: Id)
      reads this
    {
      Membership(room, watcher) in members
    }

    method DeleteByWatcherId(w: Id)
      modifies this
      ensures w !in watchers && forall v :: v != w ==> SameSession(old(watchers), watchers, v)
      ensures w !in old(watchers) ==> Store() == old(Store())
      ensures Store() == old(Store()).WithoutWatcher(w)
    {
      if w in watchers {
        var s := watchers[w];
        watchers := watchers - {w};
        ids := ids - {s.id};
        members := members - {Membership(s.room, w)};
      }
    }

    method DeleteById(id: Id)
      modifies this
      ensures id in old(ids) ==> old(ids)[id] !in watchers
      ensures id !in old(ids) ==> Store() == old(Store())
      ensures Store() == old(Store()).WithoutId(id)
    {
      if id in ids {
        DeleteByWatcherId(ids[id]);
      }
    }

    method DeleteByLiveChatRoomId(room: Id)
      modifies this
      ensures Store() == old(Store()).WithoutRoom(room)
    {
      var listed := set p | p in members && p.room == room :: p.watcher;
      DeleteWatchers(listed);
      members := map p | p in members && p.room != room :: members[p];
    }

    /** The loop over the members of a room. */
    method DeleteWatchers(listed: set<Id>)
      modifies this
      ensures Store() == old(Store()).WithoutWatchers(listed)
    {
      ghost var before := Store();
      ghost var gone: set<Id> := {};
      var left := listed;
      WithoutNobody(before);
      while left != {}
        invariant left + gone == listed
        invariant Store() == before.WithoutWatchers(gone)
        decreases left
      {
        var w :| w in left;
        WithoutOneMore(before, gone, w);
        DeleteByWatcherId(w);
        left := left - {w};
        gone := gone + {w};
      }
      assert gone == listed;
    }
  }

  datatype CreateResult = Created | Duplicate

  class WatchingSessionCommandService {
    const repository: WatchingSessionRedisRepository

    constructor (repository: WatchingSessionRedisRepository)
      ensures this.repository == repository
    {
      this.repository := repository;
    }

    /** Refused only when the watcher is already listed in this very room. */
    method CreateWithId(id: Id, room: Id, watcher: Id, createdAt: Time) returns (r: CreateResult)
      modifies repository
      ensures r == Duplicate <==> Membership(room, watcher) in old(repository.members)
      ensures repository.Store() ==
              if r == Duplicate then old(repository.Store())
              else old(repository.Store()).Saved(Session(id, watcher, room, createdAt))
    {
      if repository.ExistsByLiveChatRoomIdAndWatcherId(room, watcher) {
        return Duplicate;
      }
      repository.Save(Session(id, watcher, room, createdAt));
      return Created;
    }
  }

  // ---------- Lemmas ----------

  lemma WithoutNobody(st: SessionStore)
    ensures st.WithoutWatchers({}) == st
  {
    assert st.WithoutWatchers({}).ids == st.ids;
    assert st.WithoutWatchers({}).members == st.members;
  }

  lemma WithoutOneMore(st: SessionStore, gone: set<Id>, w: Id)
    ensures st.WithoutWatchers(gone).WithoutWatcher(w) == st.WithoutWatchers(gone + {w})
  {
    var a, b := st.WithoutWatchers(gone).WithoutWatcher(w), st.WithoutWatchers(gone + {w});
    assert a.watchers == b.watchers;
    assert a.ids == b.ids;
    assert a.members == b.members;
  }

  /** A save keeps the three structures in agreement exactly when its id is no other watcher's. */
  lemma SaveAgreesIff(st: SessionStore, s: WatchingSession)
    requires st.Agrees()
    ensures st.Saved(s).Agrees() <==>
            forall w :: w in st.watchers && w != s.watcher ==> st.watchers[w].id != s.id
  {
    var after := st.Saved(s);
    if w :| w in st.watchers && w != s.watcher && st.watchers[w].id == s.id {
      assert w in after.watchers && after.watchers[w] == st.watchers[w];
      assert !after.Agrees();
    }
  }

  /** A save gives the watcher this session, its id the watcher, and the room the watcher at this score; nothing else changes. */
  lemma SaveExactly(st: SessionStore, s: WatchingSession)
    ensures var after := st.Saved(s);
            && after.watchers.Keys == st.watchers.Keys + {s.watcher} && after.watchers[s.watcher] == s
            && (forall v :: v in st.watchers && v != s.watcher ==> after.watchers[v] == st.watchers[v])
            && after.ids.Keys == st.ids.Keys + {s.id} && after.ids[s.id] == s.watcher
            && (forall i :: i in st.ids && i != s.id ==> after.ids[i] == st.ids[i])
            && after.members.Keys == st.members.Keys + {Membership(s.room, s.watcher)}
            && after.members[Membership(s.room, s.watcher)] == s.createdAt
            && (forall p :: p in st.members && p != Membership(s.room, s.watcher) ==> after.members[p] == st.members[p])
  {
  }

  /** What is stored of a watcher other than this one: the session, its id entry and its room entry. */
  ghost predicate SameStored(st: SessionStore, after: SessionStore, v: Id) {
    && SameSession(st.watchers, after.watchers, v)
    && (v in st.watchers ==>
          var s := st.watchers[v];
          && s.id in after.ids && after.ids[s.id] == v
          && Membership(s.room, v) in after.members && after.members[Membership(s.room, v)] == s.createdAt)
  }

  /** Deleting by watcher takes the session, its id entry and its room entry, and leaves every other watcher alone. */
  lemma DeleteByWatcherExactly(st: SessionStore, w: Id)
    requires st.Agrees()
    ensures var after := st.WithoutWatcher(w);
            if w !in st.watchers then after == st
            else
              && w !in after.watchers && st.watchers[w].id !in after.ids
              && w !in after.WatchersOf(st.watchers[w].room)
              && (forall v :: v != w ==> SameStored(st, after, v))
              && (forall i :: i in st.ids && i != st.watchers[w].id ==> i in after.ids && after.ids[i] == st.ids[i])
              && (forall r :: r != st.watchers[w].room ==> after.WatchersOf(r) == st.WatchersOf(r))
  {
    if w in st.watchers {
      var after := st.WithoutWatcher(w);
      assert Membership(st.watchers[w].room, w) !in after.members;
      forall r, v | r != st.watchers[w].room && v in st.WatchersOf(r)
        ensures v in after.WatchersOf(r)
      {
        assert Membership(r, v) in after.members;
      }
    }
  }

  /** Deleting by session id does that for the watcher to whom the id belongs, and nothing if it belongs to nobody. */
  lemma DeleteByIdExactly(st: SessionStore, id: Id)
    requires st.Agrees()
    ensures var after := st.WithoutId(id);
            if id !in st.ids then after == st
            else
              var w := st.ids[id];
              && w !in after.watchers
              && (w in st.watchers ==>
                    && st.watchers[w].id !in after.ids
                    && w !in after.WatchersOf(st.watchers[w].room))
              && (forall v :: v != w ==> SameStored(st, after, v))
  {
    if id in st.ids {
      DeleteByWatcherExactly(st, st.ids[id]);
    }
  }

  lemma DeletesAgree(st: SessionStore, w: Id, id: Id, room: Id)
    requires st.Agrees()
    ensures st.WithoutWatcher(w).Agrees() && st.WithoutId(id).Agrees() && st.WithoutRoom(room).Agrees()
  {
    WithoutWatchersAgrees(st, st.WatchersOf(room));
    WithoutRoomAgrees(st, room);
  }

  lemma WithoutWatchersAgrees(st: SessionStore, gone: set<Id>)
    requires st.Agrees()
    ensures st.WithoutWatchers(gone).Agrees()
  {
    var after := st.WithoutWatchers(gone);
    forall w | w in after.watchers
      ensures var s := after.watchers[w];
              && s.watcher == w
              && s.id in after.ids && after.ids[s.id] == w
              && Membership(s.room, w) in after.members && after.members[Membership(s.room, w)] == s.createdAt
    {
      assert w in st.watchers && w !in gone;
    }
  }

  lemma WithoutRoomAgrees(st: SessionStore, room: Id)
    requires st.Agrees()
    ensures st.WithoutRoom(room).Agrees()
  {
    var gone := st.WatchersOf(room);
    WithoutWatchersAgrees(st, gone);
    forall w | w in st.watchers && w !in gone
      ensures st.watchers[w].room != room
    {
      assert st.watchers[w].room == room ==> Membership(room, w) in st.members;
    }
  }

  /** A watcher listed in the room has its current session elsewhere. */
  ghost predicate ListedFromElsewhere(st: SessionStore, room: Id) {
    exists w :: w in st.WatchersOf(room) && w in st.watchers && st.watchers[w].room != room
  }

  /**
    Closing a room ends the sessions of all watchers listed in it, among them all
    that are in it. It ends no session elsewhere, and takes no watcher from another
    room, exactly if no watcher listed in it has the current session elsewhere, as
    in exact structures none has.
  */
  lemma ClosedRoomIsEmpty(st: SessionStore, room: Id)
    requires st.Agrees()
    ensures var after := st.WithoutRoom(room);
            && after.Count(room) == 0
            && (forall w :: w in after.watchers <==> w in st.watchers && w !in st.WatchersOf(room))
            && (forall w :: w in after.watchers ==> after.watchers[w] == st.watchers[w] && st.watchers[w].room != room)
            && ((forall w :: w in st.watchers && st.watchers[w].room != room ==> w in after.watchers) <==>
                  !ListedFromElsewhere(st, room))
            && ((forall r :: r != room ==> after.WatchersOf(r) == st.WatchersOf(r)) <==> !ListedFromElsewhere(st, room))
            && (st.Exact() ==> !ListedFromElsewhere(st, room))
  {
    var after := st.WithoutRoom(room);
    assert after.WatchersOf(room) == {};
    forall w | w in st.watchers && st.watchers[w].room == room
      ensures w in st.WatchersOf(room)
    {
      assert Membership(room, w) in st.members;
    }
    OtherRooms(st, room);
  }

  lemma OtherRooms(st: SessionStore, room: Id)
    requires st.Agrees()
    ensures (forall r :: r != room ==> st.WithoutRoom(room).WatchersOf(r) == st.WatchersOf(r)) <==>
            !ListedFromElsewhere(st, room)
  {
    var after := st.WithoutRoom(room);
    if w :| w in st.WatchersOf(room) && w in st.watchers && st.watchers[w].room != room {
      var r := st.watchers[w].room;
      assert Membership(r, w) in st.members && Membership(r, w) !in after.members;
      assert w in st.WatchersOf(r) && w !in after.WatchersOf(r);
    } else {
      forall r, w | r != room && w in st.WatchersOf(r)
        ensures w in after.WatchersOf(r)
      {
        assert Membership(r, w) in st.members && Membership(r, w) in after.members;
      }
    }
  }

  /**
    From exact structures, a save under a fresh id keeps them exact precisely
    when the watcher has no current session.
  */
  lemma SaveExactIff(st: SessionStore, s: WatchingSession)
    requires st.Exact() && s.id !in st.ids
    ensures st.Saved(s).Exact() <==> s.watcher !in st.watchers
  {
    var after := st.Saved(s);
    if s.watcher in st.watchers {
      var dangling := st.watchers[s.watcher].id;
      assert dangling in after.ids && after.ids[dangling] == s.watcher;
      assert after.watchers[s.watcher].id != dangling;
    } else {
      forall w | w in st.watchers && w != s.watcher
        ensures st.watchers[w].id != s.id
      {
        assert st.watchers[w].id in st.ids;
      }
      SaveAgreesIff(st, s);
      assert after.Exact();
    }
  }

  lemma DeletesExact(st: SessionStore, w: Id, id: Id, room: Id)
    requires st.Exact()
    ensures st.WithoutWatcher(w).Exact() && st.WithoutId(id).Exact() && st.WithoutRoom(room).Exact()
  {
    WithoutWatcherExact(st, w);
    if id in st.ids {
      WithoutWatcherExact(st, st.ids[id]);
    }
    WithoutRoomExact(st, room);
  }

  lemma WithoutWatcherExact(st: SessionStore, w: Id)
    requires st.Exact()
    ensures st.WithoutWatcher(w).Exact()
  {
    DeletesAgree(st, w, 0, 0);
  }

  lemma WithoutRoomExact(st: SessionStore, room: Id)
    requires st.Exact()
    ensures st.WithoutRoom(room).Exact()
  {
    WithoutRoomAgrees(st, room);
    var gone := st.WatchersOf(room);
    var after := st.WithoutRoom(room);
    forall id | id in after.ids
      ensures after.ids[id] in after.watchers && after.watchers[after.ids[id]].id == id
    {
      var w := st.ids[id];
      assert st.watchers[w].id == id;
      assert w !in gone;
    }
    forall p | p in after.members
      ensures p.watcher in after.watchers && after.watchers[p.watcher].room == p.room
    {
      assert p in st.members && p.room != room;
      assert p.watcher !in gone;
    }
  }

  /** The guard of the service does not look at other rooms: a second join leaves the first entry stale. */
  lemma SecondRoomLeavesStaleEntry(id: Id, other: Id, room: Id, room': Id, w: Id, t: Time)
    requires id != other && room != room'
    ensures var st := NO_SESSIONS.Saved(Session(id, w, room, t));
            && st.Exact()
            && Membership(room', w) !in st.members
            && var st' := st.Saved(Session(other, w, room', t));
            && st'.Agrees() && !st'.Exact()
            && st'.Count(room) == 1 && st'.Count(room') == 1 && |st'.watchers| == 1
            && Membership(room, w) in st'.WithoutWatcher(w).members
  {
    assert NO_SESSIONS.Exact();
    SaveExactIff(NO_SESSIONS, Session(id, w, room, t));
    var st := NO_SESSIONS.Saved(Session(id, w, room, t));
    SaveExactIff(st, Session(other, w, room', t));
    var st' := st.Saved(Session(other, w, room', t));
    assert Membership(room, w) in st'.members && Membership(room', w) in st'.members;
    assert st'.WatchersOf(room) == {w} && st'.WatchersOf(room') == {w};
    assert st'.watchers.Keys == {w};
  }

  // ---------- Runs ----------

  datatype Op =
    | Join(session: WatchingSession)
    | LeaveByWatcher(watcher: Id)
    | LeaveById(id: Id)
    | CloseRoom(room: Id)

  /** Join goes through the guard of the service. */
  function Perform(st: SessionStore, op: Op): SessionStore {
    match op
    case Join(s) => if Membership(s.room, s.watcher) in st.members then st else st.Saved(s)
    case LeaveByWatcher(w) => st.WithoutWatcher(w)
    case LeaveById(id) => st.WithoutId(id)
    case CloseRoom(room) => st.WithoutRoom(room)
  }

  function PerformAll(st: SessionStore, ops: seq<Op>): SessionStore
    decreases |ops|
  {
    if ops == [] then st else PerformAll(Perform(st, ops[0]), ops[1..])
  }

  /** Every join of the run carries an id that no key uses at that moment. */
  ghost predicate FreshIds(st: SessionStore, ops: seq<Op>)
    decreases |ops|
  {
    ops == [] || ((ops[0].Join? ==> ops[0].session.id !in st.ids) && FreshIds(Perform(st, ops[0]), ops[1..]))
  }

  /** The guard lets the join through. */
  predicate Joins(st: SessionStore, op: Op) {
    op.Join? && Membership(op.session.room, op.session.watcher) !in st.members
  }

  /** Every join of the run that passes the guard comes from a watcher without a current session. */
  ghost predicate OneRoomAtATime(st: SessionStore, ops: seq<Op>)
    decreases |ops|
  {
    ops == [] ||
    ((Joins(st, ops[0]) ==> ops[0].session.watcher !in st.watchers) && OneRoomAtATime(Perform(st, ops[0]), ops[1..]))
  }

  lemma PerformAgrees(st: SessionStore, op: Op)
    requires st.Agrees() && (op.Join? ==> op.session.id !in st.ids)
    ensures Perform(st, op).Agrees()
  {
    match op
    case Join(s) => SaveAgreesIff(st, s);
    case LeaveByWatcher(w) => DeletesAgree(st, w, 0, 0);
    case LeaveById(id) => DeletesAgree(st, 0, id, 0);
    case CloseRoom(room) => WithoutRoomAgrees(st, room);
  }

  lemma {:induction false} EveryRunAgrees(st: SessionStore, ops: seq<Op>)
    requires st.Agrees() && FreshIds(st, ops)
    ensures PerformAll(st, ops).Agrees()
    decreases |ops|
  {
    if ops != [] {
      PerformAgrees(st, ops[0]);
      EveryRunAgrees(Perform(st, ops[0]), ops[1..]);
    }
  }

  /** An id entry whose watcher has another session, or none. */
  predicate Dangles(st: SessionStore, id: Id) {
    id in st.ids && !(st.ids[id] in st.watchers && st.watchers[st.ids[id]].id == id)
  }

  /** No operation ever removes such an entry. */
  lemma DanglingStays(st: SessionStore, op: Op, id: Id)
    requires st.Agrees() && Dangles(st, id) && (op.Join? ==> op.session.id !in st.ids)
    ensures Dangles(Perform(st, op), id)
  {
  }

  lemma {:induction false} DanglingForever(st: SessionStore, ops: seq<Op>, id: Id)
    requires st.Agrees() && Dangles(st, id) && FreshIds(st, ops)
    ensures Dangles(PerformAll(st, ops), id)
    decreases |ops|
  {
    hide Dangles, Perform;
    if ops != [] {
      DanglingStays(st, ops[0], id);
      PerformAgrees(st, ops[0]);
      DanglingForever(Perform(st, ops[0]), ops[1..], id);
    }
  }

  lemma PerformExact(st: SessionStore, op: Op)
    requires st.Exact() && (op.Join? ==> op.session.id !in st.ids)
    requires Joins(st, op) ==> op.session.watcher !in st.watchers
    ensures Perform(st, op).Exact()
  {
    match op
    case Join(s) => SaveExactIff(st, s);
    case LeaveByWatcher(w) => WithoutWatcherExact(st, w);
    case LeaveById(id) => DeletesExact(st, 0, id, 0);
    case CloseRoom(room) => WithoutRoomExact(st, room);
  }

  /**
    From exact structures a run ends with exact structures precisely when no join
    that passed the guard came from a watcher with a session: the id entry that
    such a join leaves behind is there for good.
  */
  lemma {:induction false} EveryRunIsExactIff(st: SessionStore, ops: seq<Op>)
    requires st.Exact() && FreshIds(st, ops)
    ensures PerformAll(st, ops).Exact() <==> OneRoomAtATime(st, ops)
    decreases |ops|
  {
    hide Perform;
    if ops != [] {
      if Joins(st, ops[0]) && ops[0].session.watcher in st.watchers {
        var id := st.watchers[ops[0].session.watcher].id;
        SecondJoinDangles(st, ops[0]);
        PerformAgrees(st, ops[0]);
        DanglingForever(Perform(st, ops[0]), ops[1..], id);
      } else {
        PerformExact(st, ops[0]);
        EveryRunIsExactIff(Perform(st, ops[0]), ops[1..]);
      }
    }
  }

  lemma SecondJoinDangles(st: SessionStore, op: Op)
    requires st.Exact() && Joins(st, op) && op.session.watcher in st.watchers && op.session.id !in st.ids
    ensures Dangles(Perform(st, op), st.watchers[op.session.watcher].id)
  {
  }

  // ---------- Room sizes ----------

  ghost function AnyOf(s: set<Id>): Id
    requires s != {}
  {
    var x :| x in s; x
  }

  ghost function TotalCount(st: SessionStore, rooms: set<Id>): nat {
    if rooms == {} then 0
    else st.Count(AnyOf(rooms)) + TotalCount(st, rooms - {AnyOf(rooms)})
  }

  ghost function SessionsIn(st: SessionStore, rooms: set<Id>): set<Id> {
    set w | w in st.watchers && st.watchers[w].room in rooms
  }

  lemma {:induction false} TotalCountsSessions(st: SessionStore, rooms: set<Id>)
    requires st.Exact()
    ensures TotalCount(st, rooms) == |SessionsIn(st, rooms)|
  {
    if rooms != {} {
      var r := AnyOf(rooms);
      TotalCountsSessions(st, rooms - {r});
      var here := st.WatchersOf(r);
      var elsewhere := SessionsIn(st, rooms - {r});
      forall w | w in st.watchers && st.watchers[w].room == r
        ensures w in here
      {
        assert Membership(r, w) in st.members;
      }
      assert SessionsIn(st, rooms) == here + elsewhere;
      assert here !! elsewhere;
    } else {
      assert SessionsIn(st, rooms) == {};
    }
  }

  /** Room sizes, over any rooms that include all used ones, sum to the number of sessions. */
  lemma RoomSizesSumToSessions(st: SessionStore, rooms: set<Id>)
    requires st.Exact()
    requires forall p :: p in st.members ==> p.room in rooms
    ensures TotalCount(st, rooms) == |st.watchers|
  {
    TotalCountsSessions(st, rooms);
    forall w | w in st.watchers
      ensures st.watchers[w].room in rooms
    {
      assert Membership(st.watchers[w].room, w) in st.members;
    }
    assert SessionsIn(st, rooms) == st.watchers.Keys;
  }
}
