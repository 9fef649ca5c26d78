/**
  What follows from the times alone: with one time to live evictions are fair in
  every run, and with strictly increasing register times the registry is a queue.
*/
module SessionTimes {
  import opened Entities
  import opened JwtRegistry
  import opened SessionQueues
  import opened SessionRefinement
  import opened SessionRuns

  // ---------- One time to live ----------

  /** A listed session's key lives until score + ttl; a listed entry without a key is that old. */
  predicate EntryAged(e: Entry, keys: map<Id, RefreshKey>, now: Time, ttl: Duration) {
    && e.score <= now
    && (if e.id in keys then keys[e.id].expiresAt == e.score + ttl else e.score + ttl <= now)
  }

  ghost predicate Aged(r: Store, now: Time, ttl: Duration) {
    forall u, e :: u in r.sets && e in r.sets[u].entries ==> EntryAged(e, r.keys, now, ttl)
  }

  /** No key outlives its time: Redis has dropped it. */
  ghost predicate KeysLive(keys: map<Id, RefreshKey>, now: Time) {
    forall id :: id in keys ==> keys[id].expiresAt > now
  }

  /** The order of the set is the order of expiry. */
  lemma AgedIsOrdered(z: seq<Entry>, keys: map<Id, RefreshKey>, user: Id, now: Time, ttl: Duration)
    requires Sorted(z) && (forall e :: e in z ==> EntryAged(e, keys, now, ttl)) && KeysLive(keys, now)
    requires forall e :: e in z && e.id in keys ==> keys[e.id].user == user
    ensures OldestFirst(z, keys) && Outlives(z, keys, user, now + ttl)
  {
    forall i | 0 <= i < |z|
      ensures EntryAged(z[i], keys, now, ttl) && z[i] in z
    {
    }
  }

  /** Registering under the one time to live keeps everything sound, wherever the new entry goes. */
  lemma RegisteredAged(r: Store, maxSession: nat, t: Token, now: Time, ttl: Duration)
    requires Sound(r, maxSession) && Unused(r, t.id) && Aged(r, now, ttl) && KeysLive(r.keys, now)
    requires t.expiresAt == now + ttl
    ensures Sound(Registered(r, maxSession, t, now), maxSession) && Aged(Registered(r, maxSession, t, now), now, ttl)
  {
    hide Sound, Registered, Insert, Unused, Sorted, OldestFirst, Outlives, Lists, Distinct;
    var after := Registered(r, maxSession, t, now);
    RegisteredShape(r, maxSession, t, now);
    OwnSetAged(r, maxSession, t, now, ttl);
    RegisteredSoundWhere(r, maxSession, t, now);
    forall u, e | u in after.sets && e in after.sets[u].entries
      ensures EntryAged(e, after.keys, now, ttl)
    {
      if u != t.user {
        assert u in r.sets - {t.user} && after.sets[u] == (after.sets - {t.user})[u] == r.sets[u];
        assert EntryAged(e, r.keys, now, ttl);
        OtherEntry(r, maxSession, t, u, e);
        SameAge(e, r.keys, after.keys, now, ttl);
      }
    }
  }

  /** The key of another user's entry is neither displaced nor set. */
  lemma OtherEntry(r: Store, maxSession: nat, t: Token, u: Id, e: Entry)
    requires Sound(r, maxSession) && Unused(r, t.id) && u in r.sets && u != t.user && e in r.sets[u].entries
    ensures e.id in KeysWith(r, maxSession, t) <==> e.id in r.keys
    ensures e.id in r.keys ==> KeysWith(r, maxSession, t)[e.id] == r.keys[e.id]
  {
    hide Sorted, OldestFirst;
    var z := r.sets[u].entries;
    var gone := r.Entries(t.user)[..Displaced(|r.Entries(t.user)|, maxSession)];
    var i :| 0 <= i < |z| && z[i] == e;
    assert e.id != t.id;
    forall x | x in gone && x.id in r.keys
      ensures x.id != e.id
    {
      assert SetSound(r.Entries(t.user), r.keys, t.user, r.sets[t.user].expiresAt, maxSession);
      NotListedElsewhere(r, maxSession, x.id, t.user, u);
    }
  }

  /** An entry that stays keeps its key, and with it its age. */
  lemma StayingAged(r: Store, maxSession: nat, t: Token, now: Time, ttl: Duration, e: Entry)
    requires Sound(r, maxSession) && Unused(r, t.id) && Aged(r, now, ttl) && e in Staying(r, maxSession, t.user)
    ensures EntryAged(e, KeysWith(r, maxSession, t), now, ttl)
    ensures e.id in KeysWith(r, maxSession, t) ==> KeysWith(r, maxSession, t)[e.id].user == t.user
  {
    hide Sorted, OldestFirst, KeysWith, EntryAged;
    var z := r.Entries(t.user);
    var k := Displaced(|z|, maxSession);
    var i :| 0 <= i < |z[k..]| && z[k..][i] == e;
    assert e == z[k + i] && e in r.sets[t.user].entries;
    assert SetSound(z, r.keys, t.user, r.sets[t.user].expiresAt, maxSession);
    RestUnlisted(r, t.id, t.user, 0);
    assert z[0..] == z;
    StayingKey(r, maxSession, t, k + i);
    assert EntryAged(e, r.keys, now, ttl);
    SameAge(e, r.keys, KeysWith(r, maxSession, t), now, ttl);
  }

  lemma StayingKey(r: Store, maxSession: nat, t: Token, i: nat)
    requires var z := r.Entries(t.user);
             Displaced(|z|, maxSession) <= i < |z| && Distinct(z) && !Lists(z, t.id)
    ensures var e := r.Entries(t.user)[i];
            && (e.id in KeysWith(r, maxSession, t) <==> e.id in r.keys)
            && (e.id in r.keys ==> KeysWith(r, maxSession, t)[e.id] == r.keys[e.id])
  {
    var z := r.Entries(t.user);
    SurvivingKeys(z, r.keys, Displaced(|z|, maxSession), t);
    assert z[i].id != t.id;
  }

  lemma KeysUnexpired(r: Store, maxSession: nat, t: Token, now: Time)
    requires KeysLive(r.keys, now) && t.expiresAt > now
    ensures KeysLive(KeysWith(r, maxSession, t), now)
  {
  }

  lemma OwnSetAged(r: Store, maxSession: nat, t: Token, now: Time, ttl: Duration)
    requires Sound(r, maxSession) && Unused(r, t.id) && Aged(r, now, ttl) && KeysLive(r.keys, now)
    requires t.expiresAt == now + ttl
    ensures var z := Insert(Staying(r, maxSession, t.user), Entry(t.id, now));
            && SetSound(z, KeysWith(r, maxSession, t), t.user, t.expiresAt, maxSession)
            && forall e :: e in z ==> EntryAged(e, KeysWith(r, maxSession, t), now, ttl)
  {
    var stay, keys := Staying(r, maxSession, t.user), KeysWith(r, maxSession, t);
    var e := Entry(t.id, now);
    assert EntryAged(e, keys, now, ttl) && keys[e.id].user == t.user;
    hide Insert, Lists, OldestFirst, Outlives, EntryAged, KeysLive, KeysWith, Aged, Unused, Before;
    RestFits(r, maxSession, t.user);
    RestUnlisted(r, t.id, t.user, Displaced(|r.Entries(t.user)|, maxSession));
    InsertMembers(stay, e);
    var _ := InsertAt(stay, e);
    KeysUnexpired(r, maxSession, t, now);
    forall x | x in Insert(stay, e)
      ensures EntryAged(x, keys, now, ttl) && (x.id in keys ==> keys[x.id].user == t.user)
    {
      if x != e {
        StayingAged(r, maxSession, t, now, ttl, x);
      }
    }
    AgedIsOrdered(Insert(stay, e), keys, t.user, now, ttl);
  }

  /** What stays is sorted, without repetition, and leaves room for one more. */
  lemma RestFits(r: Store, maxSession: nat, user: Id)
    requires Sound(r, maxSession)
    ensures var stay := Staying(r, maxSession, user);
            Sorted(stay) && Distinct(stay) && |stay| < Capacity(maxSession)
  {
    if user in r.sets {
      assert SetSound(r.sets[user].entries, r.keys, user, r.sets[user].expiresAt, maxSession);
    }
  }

  /** What a run with one time to live keeps, whatever the order of registrations. */
  ghost predicate Seasoned(w: World, maxSession: nat, ttl: Duration) {
    Good(w, maxSession) && Aged(w.redis, w.now, ttl)
  }

  lemma LiveKeys(w: World)
    requires Genuine(w)
    ensures KeysLive(w.redis.keys, w.now)
  {
  }

  lemma LoginSeasoned(w: World, maxSession: nat, user: Id, id: Id, ttl: Duration)
    requires Seasoned(w, maxSession, ttl)
    ensures Seasoned(Step(w, maxSession, Login(user, id, ttl)), maxSession, ttl)
  {
    hide Sound, Genuine, Registered, Aged, KeysLive;
    if id !in w.issued {
      var t := NewToken(w, user, id, ttl);
      NewIsUnused(w, maxSession, id);
      LiveKeys(w);
      RegisteredGenuine(w, maxSession, t);
      RegisteredAged(w.redis, maxSession, t, w.now, ttl);
    }
  }

  lemma ForgetAged(r: Store, maxSession: nat, id: Id, user: Id, now: Time, ttl: Duration)
    requires Sound(r, maxSession) && Owned(r, id, user) && Aged(r, now, ttl)
    ensures Aged(Forget(r, id, user), now, ttl)
  {
    hide SetSound, Without, EntryAged;
    var after := Forget(r, id, user);
    forall u, e | u in after.sets && e in after.sets[u].entries
      ensures EntryAged(e, after.keys, now, ttl)
    {
      var z := r.sets[u].entries;
      if u == user {
        WithoutMembers(z, id);
      } else if id in r.keys {
        NotListedElsewhere(r, maxSession, id, user, u);
        var i :| 0 <= i < |z| && z[i] == e;
        assert e.id != id;
      }
      assert e in z && EntryAged(e, r.keys, now, ttl);
      SameAge(e, r.keys, after.keys, now, ttl);
    }
  }

  lemma SameAge(e: Entry, keys: map<Id, RefreshKey>, keys': map<Id, RefreshKey>, now: Time, ttl: Duration)
    requires EntryAged(e, keys, now, ttl) && (e.id in keys <==> e.id in keys')
    requires e.id in keys ==> keys'[e.id] == keys[e.id]
    ensures EntryAged(e, keys', now, ttl)
  {
  }

  lemma LogoutSeasoned(w: World, maxSession: nat, used: Id, ttl: Duration)
    requires Seasoned(w, maxSession, ttl)
    ensures Seasoned(Step(w, maxSession, Logout(used)), maxSession, ttl)
  {
    hide SetSound, Lists, Forget, Aged;
    if used in w.issued && Valid(w.issued[used], w.now) {
      var t := w.issued[used];
      ForgetSound(w.redis, maxSession, used, t.user);
      ForgetGenuine(w, used, t.user);
      ForgetAged(w.redis, maxSession, used, t.user, w.now, ttl);
    }
  }

  lemma RotateSeasoned(w: World, maxSession: nat, used: Id, id: Id, ttl: Duration)
    requires Seasoned(w, maxSession, ttl)
    ensures Seasoned(Step(w, maxSession, Rotate(used, id, ttl)), maxSession, ttl)
  {
    hide Seasoned, Registered, Forget;
    if used in w.issued && id !in w.issued && HasActive(w.redis, w.issued[used], w.now) {
      RotateIsLogoutLogin(w, maxSession, used, id, ttl);
      LogoutSeasoned(w, maxSession, used, ttl);
      LoginSeasoned(Step(w, maxSession, Logout(used)), maxSession, w.issued[used].user, id, ttl);
    }
  }

  lemma WaitSeasoned(w: World, maxSession: nat, ms: nat, ttl: Duration)
    requires Seasoned(w, maxSession, ttl)
    ensures Seasoned(Step(w, maxSession, Wait(ms)), maxSession, ttl)
  {
    hide Sound;
    ExpiredSound(w.redis, maxSession, w.now + ms);
    ExpiredGenuine(w, w.now + ms);
    forall u, e | u in w.redis.sets && e in w.redis.sets[u].entries
      ensures EntryAged(e, Expired(w.redis, w.now + ms).keys, w.now + ms, ttl)
    {
      assert EntryAged(e, w.redis.keys, w.now, ttl);
    }
  }

  lemma LogoutAllSeasoned(w: World, maxSession: nat, user: Id, ttl: Duration)
    requires Seasoned(w, maxSession, ttl)
    ensures Seasoned(Step(w, maxSession, LogoutAll(user)), maxSession, ttl)
  {
    hide SetSound, Lists, EntryAged;
    var after := InvalidatedAll(w.redis, user);
    InvalidatedAllSound(w.redis, maxSession, user, user);
    InvalidatedKeys(w.redis, maxSession, user);
    forall u, e | u in after.sets && e in after.sets[u].entries
      ensures EntryAged(e, after.keys, w.now, ttl)
    {
      assert EntryAged(e, w.redis.keys, w.now, ttl);
      OwnKey(w.redis, maxSession, u, e);
      SameAge(e, w.redis.keys, after.keys, w.now, ttl);
    }
  }

  lemma OwnKey(r: Store, maxSession: nat, u: Id, e: Entry)
    requires Sound(r, maxSession) && u in r.sets && e in r.sets[u].entries
    ensures e.id in r.keys ==> r.keys[e.id].user == u
  {
    assert SetSound(r.sets[u].entries, r.keys, u, r.sets[u].expiresAt, maxSession);
    var i :| 0 <= i < |r.sets[u].entries| && r.sets[u].entries[i] == e;
  }

  lemma StepSeasoned(w: World, maxSession: nat, op: Op, ttl: Duration)
    requires Seasoned(w, maxSession, ttl) && HasTtl(op, ttl)
    ensures Seasoned(Step(w, maxSession, op), maxSession, ttl)
  {
    hide Seasoned, Step;
    match op
    case Wait(ms) => WaitSeasoned(w, maxSession, ms, ttl);
    case Login(user, id, _) => LoginSeasoned(w, maxSession, user, id, ttl);
    case Rotate(used, id, _) => RotateSeasoned(w, maxSession, used, id, ttl);
    case Logout(used) => LogoutSeasoned(w, maxSession, used, ttl);
    case LogoutAll(user) => LogoutAllSeasoned(w, maxSession, user, ttl);
  }

  ghost predicate OneTtl(ops: seq<Op>, ttl: Duration) {
    forall op :: op in ops ==> HasTtl(op, ttl)
  }

  lemma {:induction false} RunSeasoned(w: World, maxSession: nat, ops: seq<Op>, ttl: Duration)
    requires Seasoned(w, maxSession, ttl) && OneTtl(ops, ttl)
    ensures Seasoned(Exec(w, maxSession, ops), maxSession, ttl)
    decreases |ops|
  {
    hide Seasoned, Step;
    if ops != [] {
      assert ops[0] in ops;
      assert forall op :: op in ops[1..] ==> op in ops;
      StepSeasoned(w, maxSession, ops[0], ttl);
      RunSeasoned(Step(w, maxSession, ops[0]), maxSession, ops[1..], ttl);
    }
  }

  lemma ReachableSeasoned(maxSession: nat, ops: seq<Op>, ttl: Duration)
    requires OneTtl(ops, ttl)
    ensures Seasoned(Exec(NOBODY, maxSession, ops), maxSession, ttl)
  {
    hide Exec, Good;
    NobodyGood(maxSession);
    RunSeasoned(NOBODY, maxSession, ops, ttl);
  }

  /**
    In every run with one time to live, also with logins in one instant: a login
    ends another session only if as many as allowed are active, and then the one
    that the queue lists first.
  */
  lemma EvictionIsFairInEveryRun(maxSession: nat, ops: seq<Op>, user: Id, id: Id, ttl: Duration, s: Session)
    requires OneTtl(ops, ttl)
    requires s in Queue(Exec(NOBODY, maxSession, ops).redis, user)
    requires s !in Queue(Exec(NOBODY, maxSession, ops + [Login(user, id, ttl)]).redis, user)
    ensures var q := Queue(Exec(NOBODY, maxSession, ops).redis, user);
            |q| == Capacity(maxSession) && s == q[0]
  {
    hide Exec, Step, Good, OneTtl;
    ReachableSeasoned(maxSession, ops, ttl);
    ExecLast(NOBODY, maxSession, ops, Login(user, id, ttl));
    EvictsOnlyWhenFull(Exec(NOBODY, maxSession, ops), maxSession, user, id, ttl, s);
  }

  /** A session registered where there is room joins the queue, wherever it goes, and nobody leaves it. */
  lemma RoomForOne(r: Store, maxSession: nat, t: Token, now: Time)
    requires Sound(r, maxSession) && Unused(r, t.id) && Displaced(|r.Entries(t.user)|, maxSession) == 0
    ensures |Queue(Registered(r, maxSession, t, now), t.user)| == |Queue(r, t.user)| + 1
    ensures forall s :: s in Queue(r, t.user) ==> s in Queue(Registered(r, maxSession, t, now), t.user)
  {
    hide Alive, Registered, Insert, Sound, Unused, Lists;
    var z, e := r.Entries(t.user), Entry(t.id, now);
    assert z[0..] == z && z[..0] == [];
    RegisteredShape(r, maxSession, t, now);
    RestUnlisted(r, t.id, t.user, 0);
    RestSorted(r, maxSession, t.user, 0);
    var keys := r.keys[t.id := RefreshKey(t.user, t.expiresAt)];
    assert r.keys - Ids([]) == r.keys;
    var i := InsertAt(z, e);
    AliveAppend(z[..i] + [e], z[i..], keys);
    AliveAppend(z[..i], [e], keys);
    OneAlive(e, keys);
    assert z == z[..i] + z[i..];
    AliveAppend(z[..i], z[i..], keys);
    OtherKeysAlive(z, r.keys, t);
    forall s | s in Queue(r, t.user)
      ensures s in Queue(Registered(r, maxSession, t, now), t.user)
    {
      StayingQueued(r, maxSession, t, now, s);
    }
  }

  lemma OtherKeysAlive(z: seq<Entry>, keys: map<Id, RefreshKey>, t: Token)
    requires !Lists(z, t.id)
    ensures Alive(z, keys[t.id := RefreshKey(t.user, t.expiresAt)]) == Alive(z, keys)
  {
    assert forall i :: 0 <= i < |z| ==> z[i].id != t.id;
    AliveSame(z, keys, keys[t.id := RefreshKey(t.user, t.expiresAt)]);
  }

  /** The set of a user one of whose sessions was just invalidated has room. */
  lemma RoomAfterLogout(w: World, maxSession: nat, used: Id)
    requires Good(w, maxSession) && used in w.issued && HasActive(w.redis, w.issued[used], w.now)
    ensures var user := w.issued[used].user;
            Displaced(|Step(w, maxSession, Logout(used)).redis.Entries(user)|, maxSession) == 0
  {
    hide Sorted, OldestFirst, Outlives, Without;
    var user := w.issued[used].user;
    var z := w.redis.Entries(user);
    assert Lists(z, used);
    assert SetSound(z, w.redis.keys, user, w.redis.sets[user].expiresAt, maxSession);
    var i :| 0 <= i < |z| && z[i].id == used;
    WithoutAt(z, i);
    ForgetEffect(w.redis, used, user);
  }

  /** In every run with one time to live, a successful rotation keeps the number of sessions and ends no other. */
  lemma RotationIsFairInEveryRun(maxSession: nat, ops: seq<Op>, used: Id, id: Id, ttl: Duration, s: Session)
    requires OneTtl(ops, ttl)
    requires Registers(Exec(NOBODY, maxSession, ops), Rotate(used, id, ttl))
    ensures var w := Exec(NOBODY, maxSession, ops);
            var user := w.issued[used].user;
            var after := Queue(Exec(NOBODY, maxSession, ops + [Rotate(used, id, ttl)]).redis, user);
            && |after| == |Queue(w.redis, user)|
            && (s in Queue(w.redis, user) && s.id != used ==> s in after)
  {
    hide Exec, OneTtl, Sound, Lists, Forget, Queue, Registered, Aged, Alive;
    ReachableSeasoned(maxSession, ops, ttl);
    ExecLast(NOBODY, maxSession, ops, Rotate(used, id, ttl));
    var w := Exec(NOBODY, maxSession, ops);
    var user := w.issued[used].user;
    var mid := Step(w, maxSession, Logout(used));
    RotateIsLogoutLogin(w, maxSession, used, id, ttl);
    ForgetSound(w.redis, maxSession, used, user);
    ForgetGenuine(w, used, user);
    ForgetQueue(w.redis, maxSession, used, user, user);
    DroppedOnce(w, maxSession, used);
    DroppedMembers(Queue(w.redis, user), used);
    RoomAfterLogout(w, maxSession, used);
    NewIsUnused(mid, maxSession, id);
    RoomForOne(mid.redis, maxSession, NewToken(mid, user, id, ttl), mid.now);
  }

  lemma {:induction false} DroppedMembers(q: seq<Session>, id: Id)
    ensures forall s :: s in q && s.id != id ==> s in Dropped(q, id)
  {
    if q != [] {
      DroppedMembers(q[1..], id);
    }
  }

  lemma {:induction false} ExecLast(w: World, maxSession: nat, ops: seq<Op>, op: Op)
    ensures Exec(w, maxSession, ops + [op]) == Step(Exec(w, maxSession, ops), maxSession, op)
    decreases |ops|
  {
    hide Step;
    if ops == [] {
      assert [] + [op] == [op] && [op][1..] == [];
      assert Exec(Step(w, maxSession, op), maxSession, []) == Step(w, maxSession, op);
    } else {
      assert (ops + [op])[1..] == ops[1..] + [op];
      ExecLast(Step(w, maxSession, ops[0]), maxSession, ops[1..], op);
    }
  }

  // ---------- Strictly increasing register times ----------

  /** When sessions of the user are registered. */
  function RegisterTimes(w: World, maxSession: nat, ops: seq<Op>, user: Id): seq<Time>
    decreases |ops|
  {
    if ops == [] then []
    else
      (if Registers(w, ops[0]) && Newcomer(w, ops[0]).user == user then [w.now] else []) +
      RegisterTimes(Step(w, maxSession, ops[0]), maxSession, ops[1..], user)
  }

  ghost predicate StrictlyIncreasing(ts: seq<Time>) {
    forall i, j :: 0 <= i < j < |ts| ==> ts[i] < ts[j]
  }

  /** Everything listed for a user was registered before any of the times to come. */
  ghost predicate ScoresBefore(w: World, user: Id, ts: seq<Time>) {
    forall e, i :: e in w.redis.Entries(user) && 0 <= i < |ts| ==> e.score < ts[i]
  }

  lemma {:induction false} ForgetAllEntries(r: Store, gone: seq<Entry>, user: Id, u: Id)
    ensures forall e :: e in ForgetAll(r, gone, user).Entries(u) ==> e in r.Entries(u)
    decreases |gone|
  {
    if gone != [] {
      var n := |gone| - 1;
      ForgetAllEntries(r, gone[..n], user, u);
      ForgetEntries(ForgetAll(r, gone[..n], user), gone[n].id, user, u);
    }
  }

  lemma ForgetEntries(r: Store, id: Id, user: Id, u: Id)
    ensures forall e :: e in Forget(r, id, user).Entries(u) ==> e in r.Entries(u)
  {
    WithoutMembers(r.Entries(user), id);
  }

  lemma {:induction false} InsertSources(z: seq<Entry>, e: Entry)
    ensures forall x :: x in Insert(z, e) ==> x in z || x == e
  {
    if z != [] {
      InsertSources(z[1..], e);
    }
  }

  lemma RegisteredEntries(r: Store, maxSession: nat, t: Token, now: Time, u: Id)
    ensures forall e :: e in Registered(r, maxSession, t, now).Entries(u) ==>
                          e in r.Entries(u) || (u == t.user && e == Entry(t.id, now))
  {
    hide ForgetAll, Without, Insert;
    var z := r.Entries(t.user);
    var r1 := ForgetAll(r, z[..Displaced(|z|, maxSession)], t.user);
    ForgetAllEntries(r, z[..Displaced(|z|, maxSession)], t.user, u);
    WithoutMembers(r1.Entries(t.user), t.id);
    InsertSources(Without(r1.Entries(t.user), t.id), Entry(t.id, now));
  }

  /** A step lists nothing new but what it registers, at this instant. */
  lemma EntriesAfter(w: World, maxSession: nat, op: Op, u: Id, e: Entry)
    requires e in Step(w, maxSession, op).redis.Entries(u)
    ensures e in w.redis.Entries(u) || (Registers(w, op) && Newcomer(w, op).user == u && e.score == w.now)
  {
    hide Registered, Forget;
    match op
    case Login(user, id, ttl) =>
      if id !in w.issued {
        RegisteredEntries(w.redis, maxSession, NewToken(w, user, id, ttl), w.now, u);
      }
    case Rotate(used, id, ttl) =>
      if Registers(w, op) {
        var t := w.issued[used];
        ForgetEntries(w.redis, t.id, t.user, u);
        RegisteredEntries(Invalidated(w.redis, t, w.now), maxSession, NewToken(w, t.user, id, ttl), w.now, u);
      }
    case Logout(used) =>
      if used in w.issued {
        ForgetEntries(w.redis, w.issued[used].id, w.issued[used].user, u);
      }
    case _ =>
  }

  /** If every user's register times strictly increase, sessions are registered in the order of the sets. */
  lemma {:induction false} IncreasingTimesInOrder(w: World, maxSession: nat, ops: seq<Op>)
    requires forall id :: id in w.issued ==> w.issued[id].id == id
    requires forall u :: StrictlyIncreasing(RegisterTimes(w, maxSession, ops, u))
    requires forall u :: ScoresBefore(w, u, RegisterTimes(w, maxSession, ops, u))
    ensures RunInOrder(w, maxSession, ops)
    decreases |ops|
  {
    hide Step, ScoresBefore, StrictlyIncreasing, InOrder;
    if ops != [] {
      var next := Step(w, maxSession, ops[0]);
      NowInOrder(w, maxSession, ops);
      NamesStay(w, maxSession, ops[0]);
      forall u
        ensures StrictlyIncreasing(RegisterTimes(next, maxSession, ops[1..], u))
        ensures ScoresBefore(next, u, RegisterTimes(next, maxSession, ops[1..], u))
      {
        LaterTimes(w, maxSession, ops, u);
      }
      IncreasingTimesInOrder(next, maxSession, ops[1..]);
    }
  }

  lemma NowInOrder(w: World, maxSession: nat, ops: seq<Op>)
    requires ops != [] && forall id :: id in w.issued ==> w.issued[id].id == id
    requires forall u :: ScoresBefore(w, u, RegisterTimes(w, maxSession, ops, u))
    ensures InOrder(w, maxSession, ops[0])
  {
    hide Step, Forget;
    if Registers(w, ops[0]) {
      var t := Newcomer(w, ops[0]);
      var ts := RegisterTimes(w, maxSession, ops, t.user);
      assert ScoresBefore(w, t.user, ts);
      assert ts[0] == w.now;
      if ops[0].Rotate? {
        ForgetEntries(w.redis, ops[0].used, t.user, t.user);
      }
      var z := Found(w, ops[0]).Entries(t.user);
      forall i | 0 <= i < |z|
        ensures Before(z[i], Entry(t.id, w.now))
      {
        assert z[i] in w.redis.Entries(t.user);
      }
    }
  }

  lemma LaterTimes(w: World, maxSession: nat, ops: seq<Op>, u: Id)
    requires ops != []
    requires StrictlyIncreasing(RegisterTimes(w, maxSession, ops, u))
    requires ScoresBefore(w, u, RegisterTimes(w, maxSession, ops, u))
    ensures var next := Step(w, maxSession, ops[0]);
            var later := RegisterTimes(next, maxSession, ops[1..], u);
            StrictlyIncreasing(later) && ScoresBefore(next, u, later)
  {
    hide Step;
    var next := Step(w, maxSession, ops[0]);
    var ts, later := RegisterTimes(w, maxSession, ops, u), RegisterTimes(next, maxSession, ops[1..], u);
    var n := |ts| - |later|;
    assert 0 <= n <= 1 && forall i :: 0 <= i < |later| ==> later[i] == ts[i + n];
    forall e, i | e in next.redis.Entries(u) && 0 <= i < |later|
      ensures e.score < later[i]
    {
      EntriesAfter(w, maxSession, ops[0], u, e);
      if e !in w.redis.Entries(u) {
        assert ts[0] == w.now && n == 1;
      }
    }
  }

  /**
    With one time to live and strictly increasing register times of every user,
    the two Redis structures are one bounded first-in-first-out queue per user.
  */
  lemma IncreasingTimesRefineQueues(maxSession: nat, ops: seq<Op>, ttl: Duration, t: Token)
    requires OneTtl(ops, ttl) && forall u :: StrictlyIncreasing(RegisterTimes(NOBODY, maxSession, ops, u))
    requires var w := Exec(NOBODY, maxSession, ops); t.id in w.issued && w.issued[t.id] == t
    ensures var w := Exec(NOBODY, maxSession, ops);
            var q := SimpleExec(NO_QUEUES, Capacity(maxSession), ops).Of(t.user);
            && Queue(w.redis, t.user) == q
            && (HasActive(w.redis, t, w.now) <==> Holds(q, t.id))
            && |q| <= |w.redis.Entries(t.user)| <= Capacity(maxSession)
  {
    hide Exec, SimpleExec, RegisterTimes, Queue, StrictlyIncreasing;
    IncreasingTimesInOrder(NOBODY, maxSession, ops);
    ConstantTtlIsTimely(NOBODY, maxSession, ops, ttl);
    RegistryRefinesQueues(maxSession, ops, t);
  }
}
