/**
  The scheduler of mopl-live-chat that reports room sizes to mopl-content.
*/
module WatcherCountSync {
  import opened Entities
  import Coordinator
  import WatchingSessions

  /** What one run reports: the size of every scanned room, and 0 for a room active last time but not now. */
  function Report(store: WatchingSessions.SessionStore, scan: seq<Id>, previous: set<Id>): map<Id, nat> {
    map r | r in ((set r | r in scan) + (previous - ActiveRooms(store, scan))) ::
      if r in ActiveRooms(store, scan) then store.Count(r) else 0
  }

  function ActiveRooms(store: WatchingSessions.SessionStore, scan: seq<Id>): set<Id> {
    set r | r in scan && store.Count(r) > 0
  }

  /** A key scan yields every existing room key at least once, in any order, possibly beside keys gone meanwhile. */
  ghost predicate ScanCovers(store: WatchingSessions.SessionStore, scan: seq<Id>) {
    forall p :: p in store.members ==> p.room in scan
  }

  /** The counts stored by mopl-content, and the rooms the scheduler remembers. */
  datatype SyncState = SyncState(contents: map<Id, ContentRow>, previous: set<Id>)
  {
    /** Every content with a positive count is remembered. */
    ghost predicate Tracks() {
      forall c :: c in contents && contents[c].watcherCount > 0 ==> c in previous
    }

    /** Every content's count is the size of its room. */
    ghost predicate Matches(store: WatchingSessions.SessionStore) {
      forall c :: c in contents ==> contents[c].watcherCount == store.Count(c)
    }
  }

  function Synced(st: SyncState, store: WatchingSessions.SessionStore, scan: seq<Id>, rpcOk: bool): SyncState {
    var report := Report(store, scan, st.previous);
    if report == map[] then st
    else SyncState(
        if rpcOk then Coordinator.WithWatcherCounts(st.contents, report) else st.contents,
        ActiveRooms(store, scan))
  }

  class WatcherCountSyncScheduler {
    const repository: WatchingSessions.WatchingSessionRedisRepository
    const service: Coordinator.ContentCommandService
    var previousActiveRooms: set<Id>

    constructor (repository: WatchingSessions.WatchingSessionRedisRepository, service: Coordinator.ContentCommandService)
      ensures this.repository == repository && this.service == service && previousActiveRooms == {}
    {
      this.repository := repository;
      this.service := service;
      previousActiveRooms := {};
    }

    function State(): SyncState
      reads this, service.db
    {
      SyncState(service.db.contents, previousActiveRooms)
    }

    /** `scan` is what the key scan yields; `rpcOk` is whether the call to mopl-content goes through. */
    method SyncWatcherCounts(scan: seq<Id>, rpcOk: bool)
      modifies this, service.db
      ensures State() == Synced(old(State()), repository.Store(), scan, rpcOk)
      ensures service.db.State() == old(service.db.State()).(contents := service.db.contents)
    {
      var currentCounts: map<Id, nat> := map[];
      var currentlyActiveRooms: set<Id> := {};
      for i := 0 to |scan|
        invariant currentCounts == map r | r in scan[..i] :: repository.Store().Count(r)
        invariant currentlyActiveRooms == ActiveRooms(repository.Store(), scan[..i])
      {
        var currentCount := repository.Store().Count(scan[i]);
        currentCounts := currentCounts[scan[i] := currentCount];
        if currentCount > 0 {
          currentlyActiveRooms := currentlyActiveRooms + {scan[i]};
        }
        assert forall r :: r in scan[..i + 1] <==> r in scan[..i] || r == scan[i];
      }
      assert scan[..|scan|] == scan;
      currentCounts := AddEmptied(currentCounts, currentlyActiveRooms);
      assert currentCounts == Report(repository.Store(), scan, previousActiveRooms);
      if currentCounts == map[] {
        return;
      }
      if rpcOk {
        var _ := service.UpdateWatcherCounts(currentCounts);
      }
      previousActiveRooms := currentlyActiveRooms;
    }

    /** The loop over the rooms that were active last time. */
    method AddEmptied(counts: map<Id, nat>, active: set<Id>) returns (r: map<Id, nat>)
      ensures r == map c | c in counts.Keys + (previousActiveRooms - active) ::
                     if c in previousActiveRooms && c !in active then 0 else counts[c]
    {
      r := counts;
      var left := previousActiveRooms;
      while left != {}
        invariant left <= previousActiveRooms
        invariant r.Keys == counts.Keys + (previousActiveRooms - left - active)
        invariant forall c :: c in r ==>
                                r[c] == if c in previousActiveRooms - left && c !in active then 0 else counts[c]
        decreases left
      {
        var prev :| prev in left;
        if prev !in active {
          r := r[prev := 0];
        }
        left := left - {prev};
      }
    }
  }

  // ---------- Lemmas ----------

  lemma CountZeroIffUnlisted(store: WatchingSessions.SessionStore, room: Id)
    ensures store.Count(room) == 0 <==> forall p :: p in store.members ==> p.room != room
  {
    if p :| p in store.members && p.room == room {
      assert p.watcher in store.WatchersOf(room);
    } else {
      assert store.WatchersOf(room) == {};
    }
  }

  /** A sync changes no content but for its watcher count. */
  lemma SyncTouchesCounts(st: SyncState, store: WatchingSessions.SessionStore, scan: seq<Id>, rpcOk: bool)
    ensures var after := Synced(st, store, scan, rpcOk);
            && after.contents.Keys == st.contents.Keys
            && (forall c :: c in st.contents ==>
                  after.contents[c] == st.contents[c].(watcherCount := after.contents[c].watcherCount))
            && (!rpcOk ==> after.contents == st.contents)
  {
  }

  /**
    With a successful call, one sync makes every count equal to the size of the
    room at the scan, emptied rooms included, and keeps the memory complete.
  */
  lemma SyncMatchesRooms(st: SyncState, store: WatchingSessions.SessionStore, scan: seq<Id>)
    requires st.Tracks() && ScanCovers(store, scan)
    ensures Synced(st, store, scan, true).Matches(store)
    ensures Synced(st, store, scan, true).Tracks()
  {
    var report := Report(store, scan, st.previous);
    var after := Synced(st, store, scan, true);
    forall c | c in st.contents
      ensures after.contents[c].watcherCount == store.Count(c)
    {
      CountZeroIffUnlisted(store, c);
      if c !in report {
        assert c !in scan;
        assert store.Count(c) == 0 && c !in st.previous;
      }
    }
  }

  /**
    A failed call drops what it reported, yet the memory is replaced: it stays
    complete exactly when every content with a positive stored count is active now.
  */
  lemma FailedSyncTracksIff(st: SyncState, store: WatchingSessions.SessionStore, scan: seq<Id>)
    requires st.Tracks()
    ensures Synced(st, store, scan, false).contents == st.contents
    ensures Synced(st, store, scan, false).Tracks() <==> NoneForgotten(st, store, scan)
  {
    if Report(store, scan, st.previous) == map[] {
      forall c | c in st.previous
        ensures c in ActiveRooms(store, scan)
      {
        assert c !in ActiveRooms(store, scan) ==> c in Report(store, scan, st.previous);
      }
    }
  }

  /** No content with a positive stored count has lost its last watcher. */
  ghost predicate NoneForgotten(st: SyncState, store: WatchingSessions.SessionStore, scan: seq<Id>) {
    forall c :: c in st.contents && st.contents[c].watcherCount > 0 ==> c in ActiveRooms(store, scan)
  }

  /** Whatever the sessions are by then, the next successful sync makes every count right. */
  ghost predicate Repairable(st: SyncState) {
    forall later, scan :: ScanCovers(later, scan) ==> Synced(st, later, scan, true).Matches(later)
  }

  /** The next successful sync repairs a failed one, in every case, exactly if no content with a positive count was empty then. */
  lemma FailedSyncRepairedIff(st: SyncState, store: WatchingSessions.SessionStore, scan: seq<Id>)
    requires st.Tracks()
    ensures Repairable(Synced(st, store, scan, false)) <==> NoneForgotten(st, store, scan)
  {
    var failed := Synced(st, store, scan, false);
    FailedSyncTracksIff(st, store, scan);
    if NoneForgotten(st, store, scan) {
      forall later, scan' | ScanCovers(later, scan')
        ensures Synced(failed, later, scan', true).Matches(later)
      {
        SyncMatchesRooms(failed, later, scan');
      }
    } else {
      var c :| c in st.contents && st.contents[c].watcherCount > 0 && c !in ActiveRooms(store, scan);
      var empty := WatchingSessions.NO_SESSIONS;
      CountZeroIffUnlisted(empty, c);
      assert c !in failed.previous by {
        assert c in st.previous && c !in ActiveRooms(store, scan);
        assert c in Report(store, scan, st.previous);
      }
      assert ScanCovers(empty, []);
      assert c !in Report(empty, [], failed.previous);
      assert !Synced(failed, empty, [], true).Matches(empty);
    }
  }

  // ---------- Runs ----------

  /** What happens to the counts: a sync, with what its scan yields and the fate of its call, a new content, or an edit. */
  datatype Tick =
    | Sync(store: WatchingSessions.SessionStore, scan: seq<Id>, rpcOk: bool)
    | Create(content: Id, row: ContentRow)
    | Edit(content: Id, edited: ContentRow)

  /** A content starts without watchers, and no edit of a content touches its watcher count. */
  function Ticked(st: SyncState, t: Tick): SyncState {
    match t
    case Sync(store, scan, rpcOk) => Synced(st, store, scan, rpcOk)
    case Create(c, row) =>
      if c in st.contents then st else st.(contents := st.contents[c := row.(watcherCount := 0)])
    case Edit(c, row) =>
      if c !in st.contents then st
      else st.(contents := st.contents[c := row.(watcherCount := st.contents[c].watcherCount)])
  }

  function TickedAll(st: SyncState, ticks: seq<Tick>): SyncState
    decreases |ticks|
  {
    if ticks == [] then st else Ticked(TickedAll(st, ticks[..|ticks| - 1]), ticks[|ticks| - 1])
  }

  ghost predicate Succeeds(t: Tick) {
    t.Sync? ==> t.rpcOk && ScanCovers(t.store, t.scan)
  }

  /**
    After any run of successful syncs, with contents created and edited between
    them, every content with a positive count is remembered; and after each sync
    the counts are the room sizes at its scan.
  */
  lemma {:induction false} EveryRunMatches(st: SyncState, ticks: seq<Tick>)
    requires st.Tracks() && forall t :: t in ticks ==> Succeeds(t)
    ensures TickedAll(st, ticks).Tracks()
    ensures ticks != [] && ticks[|ticks| - 1].Sync? ==> TickedAll(st, ticks).Matches(ticks[|ticks| - 1].store)
    decreases |ticks|
  {
    if ticks != [] {
      var earlier, last := ticks[..|ticks| - 1], ticks[|ticks| - 1];
      assert last in ticks;
      assert forall t :: t in earlier ==> t in ticks;
      EveryRunMatches(st, earlier);
      if last.Sync? {
        SyncMatchesRooms(TickedAll(st, earlier), last.store, last.scan);
      }
    }
  }

  /** The tick is a successful sync that finds the room empty, or concerns other contents. */
  predicate LeavesEmpty(t: Tick, room: Id) {
    match t
    case Sync(_, scan, rpcOk) => rpcOk && room !in scan
    case Create(_, _) => true
    case Edit(_, _) => true
  }

  /** A room that is empty and forgotten keeps its count, however many successful syncs follow. */
  lemma {:induction false} ForgottenForGood(st: SyncState, ticks: seq<Tick>, room: Id)
    requires room in st.contents && room !in st.previous
    requires forall t :: t in ticks ==> LeavesEmpty(t, room)
    ensures var after := TickedAll(st, ticks);
            && room in after.contents && room !in after.previous
            && after.contents[room].watcherCount == st.contents[room].watcherCount
    decreases |ticks|
  {
    if ticks != [] {
      var earlier, last := ticks[..|ticks| - 1], ticks[|ticks| - 1];
      assert last in ticks;
      assert forall t :: t in earlier ==> t in ticks;
      ForgottenForGood(st, earlier, room);
    }
  }

  /** A lost update: a failed call after a room emptied leaves its count wrong for as long as the room stays empty. */
  lemma FailedCallLosesEmptiedRoom(
      st: SyncState, store: WatchingSessions.SessionStore, scan: seq<Id>, room: Id, ticks: seq<Tick>)
    requires st.Tracks() && room in st.contents && st.contents[room].watcherCount > 0 && room !in scan
    requires forall t :: t in ticks ==> LeavesEmpty(t, room)
    ensures var after := TickedAll(Synced(st, store, scan, false), ticks);
            room in after.contents && after.contents[room].watcherCount == st.contents[room].watcherCount > 0
  {
    assert room in Report(store, scan, st.previous);
    ForgottenForGood(Synced(st, store, scan, false), ticks, room);
  }
}
