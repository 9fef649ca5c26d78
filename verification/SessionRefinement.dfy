/**
  Every operation of the registry does to the queue of its user what the simple
  machine does, and nothing to the queues of other users.
*/
module SessionRefinement {
  import opened Entities
  import opened JwtRegistry
  import opened SessionQueues

  // ---------- Expiry ----------

  lemma ExpiredSound(r: Store, maxSession: nat, now: Time)
    requires Sound(r, maxSession)
    ensures Sound(Expired(r, now), maxSession)
  {
    var after := Expired(r, now);
    forall u | u in after.sets
      ensures SetSound(after.sets[u].entries, after.keys, u, after.sets[u].expiresAt, maxSession)
    {
      assert SetSound(r.sets[u].entries, r.keys, u, r.sets[u].expiresAt, maxSession);
    }
    forall id | id in after.keys
      ensures after.keys[id].user in after.sets && Lists(after.sets[after.keys[id].user].entries, id)
    {
      var u := r.keys[id].user;
      var i :| 0 <= i < |r.sets[u].entries| && r.sets[u].entries[i].id == id;
      assert Outlives(r.sets[u].entries, r.keys, u, r.sets[u].expiresAt);
      assert Lists(after.sets[u].entries, id);
    }
  }

  /** Time only drops sessions that have expired, and they are the oldest ones. */
  lemma ExpiredQueue(r: Store, maxSession: nat, now: Time, u: Id)
    requires Sound(r, maxSession)
    ensures Queue(Expired(r, now), u) == Unexpired(Queue(r, u), now)
  {
    var after := Expired(r, now);
    if u in r.sets {
      var z := r.sets[u].entries;
      AliveExpired(z, r.keys, now);
      assert after.keys == map id | id in r.keys && r.keys[id].expiresAt > now :: r.keys[id];
      if u !in after.sets {
        AliveMembers(z, r.keys);
        assert Outlives(z, r.keys, u, r.sets[u].expiresAt);
        forall s | s in Alive(z, r.keys)
          ensures s.expiresAt <= now
        {
          var i :| 0 <= i < |z| && z[i].id == s.id;
        }
        AllExpired(Queue(r, u), now);
      }
    }
  }

  // ---------- Forgetting one token ----------

  /** A key of this id, if there is one, is this user's. */
  predicate Owned(r: Store, id: Id, user: Id) {
    id in r.keys ==> r.keys[id].user == user
  }

  lemma SliceSound(z: seq<Entry>, keys: map<Id, RefreshKey>, user: Id, expiresAt: Time, maxSession: nat, i: nat, id: Id)
    requires SetSound(z, keys, user, expiresAt, maxSession) && i < |z| && z[i].id == id
    ensures SetSound(z[..i] + z[i + 1..], keys - {id}, user, expiresAt, maxSession)
    ensures forall x :: Lists(z, x) && x != id ==> Lists(z[..i] + z[i + 1..], x)
  {
    var rest := z[..i] + z[i + 1..];
    assert forall k :: 0 <= k < |rest| ==> rest[k] == if k < i then z[k] else z[k + 1];
    forall x | Lists(z, x) && x != id
      ensures Lists(rest, x)
    {
      var j :| 0 <= j < |z| && z[j].id == x;
      assert rest[if j < i then j else j - 1] == z[j];
    }
  }

  lemma LoseKey(z: seq<Entry>, keys: map<Id, RefreshKey>, user: Id, expiresAt: Time, maxSession: nat, id: Id)
    requires SetSound(z, keys, user, expiresAt, maxSession)
    requires id in keys ==> !Lists(z, id)
    ensures SetSound(z, keys - {id}, user, expiresAt, maxSession)
    ensures Alive(z, keys - {id}) == Alive(z, keys)
  {
    assert forall i :: 0 <= i < |z| && id in keys ==> z[i].id != id;
    AliveSame(z, keys, keys - {id});
  }

  /** The set of a user without one token. */
  lemma WithoutSound(z: seq<Entry>, keys: map<Id, RefreshKey>, user: Id, expiresAt: Time, maxSession: nat, id: Id)
    requires SetSound(z, keys, user, expiresAt, maxSession)
    ensures SetSound(Without(z, id), keys - {id}, user, expiresAt, maxSession)
    ensures forall x :: Lists(z, x) && x != id ==> Lists(Without(z, id), x)
  {
    if Lists(z, id) {
      var i :| 0 <= i < |z| && z[i].id == id;
      WithoutAt(z, i);
      SliceSound(z, keys, user, expiresAt, maxSession, i, id);
    } else {
      WithoutAbsent(z, id);
      LoseKey(z, keys, user, expiresAt, maxSession, id);
    }
  }

  lemma ForgetSound(r: Store, maxSession: nat, id: Id, user: Id)
    requires Sound(r, maxSession) && Owned(r, id, user)
    ensures Sound(Forget(r, id, user), maxSession)
  {
    hide SetSound, Without;
    var after := Forget(r, id, user);
    forall u | u in r.sets
      ensures u in after.sets ==> SetSound(after.sets[u].entries, after.keys, u, after.sets[u].expiresAt, maxSession)
      ensures forall x :: x != id && Lists(r.sets[u].entries, x) ==> u in after.sets && Lists(after.sets[u].entries, x)
    {
      if u == user {
        WithoutSound(r.sets[u].entries, r.keys, u, r.sets[u].expiresAt, maxSession, id);
      } else {
        NotListedElsewhere(r, maxSession, id, user, u);
        LoseKey(r.sets[u].entries, r.keys, u, r.sets[u].expiresAt, maxSession, id);
      }
    }
  }

  lemma NotListedElsewhere(r: Store, maxSession: nat, id: Id, user: Id, u: Id)
    requires Sound(r, maxSession) && Owned(r, id, user) && u in r.sets && u != user
    ensures id in r.keys ==> !Lists(r.sets[u].entries, id)
  {
    assert Outlives(r.sets[u].entries, r.keys, u, r.sets[u].expiresAt);
  }

  lemma ForgetQueue(r: Store, maxSession: nat, id: Id, user: Id, u: Id)
    requires Sound(r, maxSession) && Owned(r, id, user)
    ensures Queue(Forget(r, id, user), u) == if u == user then Dropped(Queue(r, u), id) else Queue(r, u)
  {
    if u !in r.sets {
    } else if u == user {
      AliveWithout(r.sets[u].entries, r.keys, id);
    } else {
      NotListedElsewhere(r, maxSession, id, user, u);
      LoseKey(r.sets[u].entries, r.keys, u, r.sets[u].expiresAt, maxSession, id);
    }
  }

  // ---------- Displacing the oldest ----------

  function Ids(z: seq<Entry>): set<Id> {
    set e | e in z :: e.id
  }

  /** The store with the first entries of a user forgotten, and nothing else changed. */
  ghost predicate Trimmed(r: Store, after: Store, user: Id, k: nat)
    requires k <= |r.Entries(user)|
  {
    var z := r.Entries(user);
    && after.Entries(user) == z[k..]
    && after.keys == r.keys - Ids(z[..k])
    && after.sets - {user} == r.sets - {user}
  }

  lemma ForgetEffect(r: Store, id: Id, user: Id)
    ensures var after := Forget(r, id, user);
            && after.Entries(user) == Without(r.Entries(user), id)
            && after.keys == r.keys - {id}
            && after.sets - {user} == r.sets - {user}
  {
    hide Without;
    var after := Forget(r, id, user);
    if user !in r.sets {
      assert r.Entries(user) == [];
      WithoutAbsent([], id);
    }
  }

  lemma FirstGone(z: seq<Entry>, k: nat)
    requires k < |z| && Distinct(z[k..])
    ensures Without(z[k..], z[k].id) == z[k + 1..]
    ensures Ids(z[..k + 1]) == Ids(z[..k]) + {z[k].id}
  {
    WithoutAt(z[k..], 0);
    assert z[..k + 1] == z[..k] + [z[k]];
  }

  lemma TrimOne(r: Store, mid: Store, maxSession: nat, user: Id, k: nat)
    requires k < |r.Entries(user)| && Trimmed(r, mid, user, k) && Sound(mid, maxSession)
    ensures Trimmed(r, Forget(mid, r.Entries(user)[k].id, user), user, k + 1)
    ensures Owned(mid, r.Entries(user)[k].id, user)
  {
    hide Sorted, OldestFirst, Lists, Forget, Without, Ids;
    var z := r.Entries(user);
    assert z[k..][0] == z[k];
    assert SetSound(z[k..], mid.keys, user, mid.sets[user].expiresAt, maxSession);
    FirstGone(z, k);
    ForgetEffect(mid, z[k].id, user);
  }

  lemma {:induction false} ForgetPrefix(r: Store, maxSession: nat, user: Id, k: nat)
    requires Sound(r, maxSession) && k <= |r.Entries(user)|
    ensures Sound(ForgetAll(r, r.Entries(user)[..k], user), maxSession)
    ensures Trimmed(r, ForgetAll(r, r.Entries(user)[..k], user), user, k)
  {
    hide Sound, Forget;
    var z := r.Entries(user);
    if k == 0 {
      assert z[..0] == [] && Ids([]) == {};
    } else {
      hide Trimmed;
      ForgetPrefix(r, maxSession, user, k - 1);
      assert z[..k][..k - 1] == z[..k - 1];
      var mid := ForgetAll(r, z[..k - 1], user);
      TrimOne(r, mid, maxSession, user, k - 1);
      ForgetSound(mid, maxSession, z[k - 1].id, user);
    }
  }

  // ---------- Registering ----------

  ghost predicate Unused(r: Store, id: Id) {
    id !in r.keys && forall u :: u in r.sets ==> !Lists(r.sets[u].entries, id)
  }

  /** Registered after every session of the user that is still listed. */
  ghost predicate Latest(r: Store, t: Token, now: Time) {
    forall i :: 0 <= i < |r.Entries(t.user)| ==> Before(r.Entries(t.user)[i], Entry(t.id, now))
  }

  /** Not expiring before a session of the user that stays. */
  ghost predicate Lasting(r: Store, maxSession: nat, t: Token) {
    var z := r.Entries(t.user);
    forall i :: Displaced(|z|, maxSession) <= i < |z| && z[i].id in r.keys ==> r.keys[z[i].id].expiresAt <= t.expiresAt
  }

  /** The entries that a new session leaves in the set of its user. */
  function Staying(r: Store, maxSession: nat, user: Id): seq<Entry> {
    r.Entries(user)[Displaced(|r.Entries(user)|, maxSession)..]
  }

  /** The keys once the oldest are displaced and the new one is set. */
  function KeysWith(r: Store, maxSession: nat, t: Token): map<Id, RefreshKey> {
    var z := r.Entries(t.user);
    (r.keys - Ids(z[..Displaced(|z|, maxSession)]))[t.id := RefreshKey(t.user, t.expiresAt)]
  }

  /** The store after registering, written out, wherever the new entry goes. */
  lemma RegisteredShape(r: Store, maxSession: nat, t: Token, now: Time)
    requires Sound(r, maxSession) && Unused(r, t.id)
    ensures var after := Registered(r, maxSession, t, now);
            && t.user in after.sets
            && after.sets[t.user] == SortedSet(Insert(Staying(r, maxSession, t.user), Entry(t.id, now)), t.expiresAt)
            && after.keys == KeysWith(r, maxSession, t)
            && after.sets - {t.user} == r.sets - {t.user}
  {
    hide Lists, Sound, Ids, ForgetAll, Insert, Without;
    var z := r.Entries(t.user);
    var k := Displaced(|z|, maxSession);
    ForgetPrefix(r, maxSession, t.user, k);
    RestUnlisted(r, t.id, t.user, k);
    WithoutAbsent(z[k..], t.id);
  }

  /** Registered last, it goes to the end. */
  lemma RegisteredStore(r: Store, maxSession: nat, t: Token, now: Time)
    requires Sound(r, maxSession) && Unused(r, t.id) && Latest(r, t, now)
    ensures var z := r.Entries(t.user);
            var k := Displaced(|z|, maxSession);
            var after := Registered(r, maxSession, t, now);
            && t.user in after.sets
            && after.sets[t.user] == SortedSet(z[k..] + [Entry(t.id, now)], t.expiresAt)
            && after.keys == (r.keys - Ids(z[..k]))[t.id := RefreshKey(t.user, t.expiresAt)]
            && after.sets - {t.user} == r.sets - {t.user}
  {
    hide Lists, Sound, Ids, OldestFirst, Outlives, Registered, Insert;
    var z := r.Entries(t.user);
    var k := Displaced(|z|, maxSession);
    RegisteredShape(r, maxSession, t, now);
    RestUnlisted(r, t.id, t.user, k);
    RestSorted(r, maxSession, t.user, k);
    AppendsIff(z[k..], Entry(t.id, now));
  }

  lemma RestUnlisted(r: Store, id: Id, user: Id, k: nat)
    requires Unused(r, id) && k <= |r.Entries(user)|
    ensures !Lists(r.Entries(user)[k..], id)
  {
    assert forall i :: 0 <= i < |r.Entries(user)[k..]| ==> r.Entries(user)[k..][i] == r.Entries(user)[k + i];
  }

  lemma RestSorted(r: Store, maxSession: nat, user: Id, k: nat)
    requires Sound(r, maxSession) && k <= |r.Entries(user)|
    ensures Sorted(r.Entries(user)[k..])
  {
    if user in r.sets {
      assert SetSound(r.sets[user].entries, r.keys, user, r.sets[user].expiresAt, maxSession);
    }
  }

  /** One more entry at the end of what stays. */
  lemma AppendedSound(z: seq<Entry>, keys: map<Id, RefreshKey>, maxSession: nat, expiresAt: Time, t: Token, now: Time)
    requires SetSound(z, keys, t.user, expiresAt, maxSession) || z == []
    requires !Lists(z, t.id) && forall i :: 0 <= i < |z| ==> Before(z[i], Entry(t.id, now))
    ensures var k := Displaced(|z|, maxSession);
            var keys' := (keys - Ids(z[..k]))[t.id := RefreshKey(t.user, t.expiresAt)];
            SetSound(z[k..] + [Entry(t.id, now)], keys', t.user, t.expiresAt, maxSession) <==>
            forall i :: k <= i < |z| && z[i].id in keys ==> keys[z[i].id].expiresAt <= t.expiresAt
  {
    hide Lists;
    var k := Displaced(|z|, maxSession);
    var keys' := (keys - Ids(z[..k]))[t.id := RefreshKey(t.user, t.expiresAt)];
    var after := z[k..] + [Entry(t.id, now)];
    assert forall i :: 0 <= i < |z| - k ==> after[i] == z[k + i];
    SurvivingKeys(z, keys, k, t);
    forall i | k <= i < |z| && z[i].id in keys
      ensures after[i - k] == z[i] && after[|z| - k] == Entry(t.id, now)
      ensures z[i].id in keys' && keys'[z[i].id] == keys[z[i].id]
    {
    }
  }

  lemma SurvivingKeys(z: seq<Entry>, keys: map<Id, RefreshKey>, k: nat, t: Token)
    requires k <= |z| && Distinct(z) && !Lists(z, t.id)
    ensures var keys' := (keys - Ids(z[..k]))[t.id := RefreshKey(t.user, t.expiresAt)];
            forall i :: k <= i < |z| ==>
              && z[i].id != t.id
              && (z[i].id in keys' <==> z[i].id in keys)
              && (z[i].id in keys ==> keys'[z[i].id] == keys[z[i].id])
  {
    forall i | k <= i < |z|
      ensures z[i].id != t.id && z[i].id !in Ids(z[..k])
    {
    }
  }

  /** The sets of other users do not notice. */
  lemma OthersSound(r: Store, maxSession: nat, t: Token, k: nat, u: Id)
    requires Sound(r, maxSession) && Unused(r, t.id) && k <= |r.Entries(t.user)|
    requires u in r.sets && u != t.user
    ensures var keys' := (r.keys - Ids(r.Entries(t.user)[..k]))[t.id := RefreshKey(t.user, t.expiresAt)];
            && SetSound(r.sets[u].entries, keys', u, r.sets[u].expiresAt, maxSession)
            && Alive(r.sets[u].entries, keys') == Alive(r.sets[u].entries, r.keys)
  {
    hide Sorted;
    var z := r.sets[u].entries;
    var gone := r.Entries(t.user)[..k];
    var keys' := (r.keys - Ids(gone))[t.id := RefreshKey(t.user, t.expiresAt)];
    assert SetSound(z, r.keys, u, r.sets[u].expiresAt, maxSession);
    forall i | 0 <= i < |z|
      ensures z[i].id != t.id && (z[i].id in r.keys ==> z[i].id !in Ids(gone))
    {
      forall e | e in gone && e.id in r.keys
        ensures e.id != z[i].id
      {
        assert SetSound(r.Entries(t.user), r.keys, t.user, r.sets[t.user].expiresAt, maxSession);
        NotListedElsewhere(r, maxSession, e.id, t.user, u);
      }
    }
    AliveSame(z, r.keys, keys');
  }

  /** Registering keeps the two structures sound exactly if it keeps the set of the user sound. */
  lemma RegisteredSoundWhere(r: Store, maxSession: nat, t: Token, now: Time)
    requires Sound(r, maxSession) && Unused(r, t.id)
    ensures Sound(Registered(r, maxSession, t, now), maxSession) <==>
            SetSound(Insert(Staying(r, maxSession, t.user), Entry(t.id, now)), KeysWith(r, maxSession, t), t.user,
                     t.expiresAt, maxSession)
  {
    hide Sound, SetSound, Lists, Registered, Ids, Unused, Insert;
    var k := Displaced(|r.Entries(t.user)|, maxSession);
    var after := Registered(r, maxSession, t, now);
    RegisteredShape(r, maxSession, t, now);
    StayingListed(r, maxSession, t, now);
    OthersListed(r, after, t, k, maxSession);
    forall u | u in after.sets && u != t.user
      ensures SetSound(after.sets[u].entries, after.keys, u, after.sets[u].expiresAt, maxSession)
    {
      assert u in r.sets - {t.user} && after.sets[u] == (after.sets - {t.user})[u];
      OthersSound(r, maxSession, t, k, u);
    }
    SoundButOne(after, maxSession, t.user);
  }

  /** Where keys are listed and all sets but one are sound, everything hangs on that one. */
  lemma SoundButOne(r: Store, maxSession: nat, user: Id)
    requires user in r.sets
    requires forall u :: u in r.sets && u != user ==>
               SetSound(r.sets[u].entries, r.keys, u, r.sets[u].expiresAt, maxSession)
    requires forall id :: id in r.keys ==> r.keys[id].user in r.sets && Lists(r.sets[r.keys[id].user].entries, id)
    ensures Sound(r, maxSession) <==>
            SetSound(r.sets[user].entries, r.keys, user, r.sets[user].expiresAt, maxSession)
  {
    hide SetSound, Lists;
  }

  lemma StayingListed(r: Store, maxSession: nat, t: Token, now: Time)
    requires Sound(r, maxSession) && Unused(r, t.id)
    ensures var after := Insert(Staying(r, maxSession, t.user), Entry(t.id, now));
            && Lists(after, t.id)
            && forall x :: x in Staying(r, maxSession, t.user) ==> Lists(after, x.id)
  {
    hide Sound, Unused, Insert;
    var k := Displaced(|r.Entries(t.user)|, maxSession);
    RestUnlisted(r, t.id, t.user, k);
    RestSorted(r, maxSession, t.user, k);
    InsertMembers(r.Entries(t.user)[k..], Entry(t.id, now));
    var after := Insert(Staying(r, maxSession, t.user), Entry(t.id, now));
    forall x | x in after
      ensures Lists(after, x.id)
    {
      var i :| 0 <= i < |after| && after[i] == x;
    }
  }

  /**
    Registering keeps the two structures sound exactly when the new session does
    not expire before one that stays: otherwise the set dies before a key it lists.
  */
  lemma RegisteredSoundIff(r: Store, maxSession: nat, t: Token, now: Time)
    requires Sound(r, maxSession) && Unused(r, t.id) && Latest(r, t, now)
    ensures Sound(Registered(r, maxSession, t, now), maxSession) <==> Lasting(r, maxSession, t)
  {
    hide SetSound, Lists, Registered, Ids, Unused, Latest, Sound, Insert, Lasting, KeysWith;
    RegisteredSoundWhere(r, maxSession, t, now);
    RegisteredShape(r, maxSession, t, now);
    RegisteredStore(r, maxSession, t, now);
    OwnSetSound(r, maxSession, t, now);
  }

  lemma OwnSetSound(r: Store, maxSession: nat, t: Token, now: Time)
    requires Sound(r, maxSession) && Unused(r, t.id) && Latest(r, t, now)
    ensures var z := r.Entries(t.user);
            var k := Displaced(|z|, maxSession);
            var keys' := (r.keys - Ids(z[..k]))[t.id := RefreshKey(t.user, t.expiresAt)];
            SetSound(z[k..] + [Entry(t.id, now)], keys', t.user, t.expiresAt, maxSession) <==> Lasting(r, maxSession, t)
  {
    hide SetSound, Lists, Ids, Before;
    RestUnlisted(r, t.id, t.user, 0);
    assert r.Entries(t.user)[0..] == r.Entries(t.user);
    AppendedSound(r.Entries(t.user), r.keys, maxSession, if t.user in r.sets then r.sets[t.user].expiresAt else 0, t, now);
  }

  /** Every key is still listed by the set of its user. */
  lemma OthersListed(r: Store, after: Store, t: Token, k: nat, maxSession: nat)
    requires Sound(r, maxSession) && k <= |r.Entries(t.user)| && t.user in after.sets
    requires Lists(after.sets[t.user].entries, t.id)
    requires forall x :: x in r.Entries(t.user)[k..] ==> Lists(after.sets[t.user].entries, x.id)
    requires after.keys == (r.keys - Ids(r.Entries(t.user)[..k]))[t.id := RefreshKey(t.user, t.expiresAt)]
    requires after.sets - {t.user} == r.sets - {t.user}
    ensures forall id :: id in after.keys ==>
              after.keys[id].user in after.sets && Lists(after.sets[after.keys[id].user].entries, id)
  {
    hide SetSound;
    var z := r.Entries(t.user);
    forall id | id in after.keys
      ensures after.keys[id].user in after.sets && Lists(after.sets[after.keys[id].user].entries, id)
    {
      if id != t.id {
        var u := r.keys[id].user;
        var i :| 0 <= i < |r.sets[u].entries| && r.sets[u].entries[i].id == id;
        if u == t.user {
          assert z == z[..k] + z[k..];
          assert z[i] !in z[..k];
          assert z[i] in z[k..];
        } else {
          assert u in r.sets - {t.user} && after.sets[u] == (after.sets - {t.user})[u];
        }
      }
    }
  }

  /** A full queue drops its oldest sessions for the new one; a queue with room, and every other queue, drops none. */
  lemma RegisteredQueue(r: Store, maxSession: nat, t: Token, now: Time, u: Id)
    requires Sound(r, maxSession) && Unused(r, t.id) && Latest(r, t, now)
    ensures Queue(Registered(r, maxSession, t, now), u) ==
            if u == t.user then Push(Queue(r, u), Capacity(maxSession), Session(t.id, t.expiresAt)) else Queue(r, u)
  {
    hide SetSound, Registered, Latest;
    var z := r.Entries(t.user);
    var k := Displaced(|z|, maxSession);
    var after := Registered(r, maxSession, t, now);
    RegisteredStore(r, maxSession, t, now);
    if u == t.user {
      OwnQueue(r, maxSession, t, now);
    } else {
      assert u in r.sets <==> u in r.sets - {t.user};
      assert u in after.sets <==> u in after.sets - {t.user};
      if u in r.sets {
        assert after.sets[u] == (after.sets - {t.user})[u] == (r.sets - {t.user})[u];
        OthersSound(r, maxSession, t, k, u);
      }
    }
  }

  lemma OwnQueue(r: Store, maxSession: nat, t: Token, now: Time)
    requires Sound(r, maxSession) && Unused(r, t.id)
    ensures var z := r.Entries(t.user);
            var k := Displaced(|z|, maxSession);
            var keys' := (r.keys - Ids(z[..k]))[t.id := RefreshKey(t.user, t.expiresAt)];
            Alive(z[k..] + [Entry(t.id, now)], keys') ==
            Push(Queue(r, t.user), Capacity(maxSession), Session(t.id, t.expiresAt))
  {
    hide Sorted, Outlives, Ids;
    var z := r.Entries(t.user);
    var k := Displaced(|z|, maxSession);
    var keys' := (r.keys - Ids(z[..k]))[t.id := RefreshKey(t.user, t.expiresAt)];
    RestUnlisted(r, t.id, t.user, 0);
    assert z[0..] == z;
    if z != [] {
      assert SetSound(z, r.keys, t.user, r.sets[t.user].expiresAt, maxSession);
    }
    EvictionIsFair(z, r.keys, maxSession);
    SurvivingKeys(z, r.keys, k, t);
    AliveSame(z[k..], r.keys, keys');
    AliveAppend(z[k..], [Entry(t.id, now)], keys');
    OneAlive(Entry(t.id, now), keys');
  }

  lemma OneAlive(e: Entry, keys: map<Id, RefreshKey>)
    ensures Alive([e], keys) == if e.id in keys then [Session(e.id, keys[e.id].expiresAt)] else []
  {
    assert [e][1..] == [] && Alive([], keys) == [];
  }

  // ---------- Invalidating everything ----------

  function KeysOfOthers(keys: map<Id, RefreshKey>, user: Id): map<Id, RefreshKey> {
    map id | id in keys && keys[id].user != user :: keys[id]
  }

  lemma InvalidatedKeys(r: Store, maxSession: nat, user: Id)
    requires Sound(r, maxSession)
    ensures InvalidatedAll(r, user).keys == KeysOfOthers(r.keys, user)
  {
    hide SetSound;
    forall id | id in r.keys
      ensures id in Ids(r.Entries(user)) <==> r.keys[id].user == user
    {
      var v := r.keys[id].user;
      var i :| 0 <= i < |r.sets[v].entries| && r.sets[v].entries[i].id == id;
      if id in Ids(r.Entries(user)) && v != user {
        NotListedElsewhere(r, maxSession, id, v, user);
      }
    }
    assert InvalidatedAll(r, user).keys == r.keys - Ids(r.Entries(user));
  }

  lemma OtherKept(z: seq<Entry>, r: Store, user: Id, v: Id, expiresAt: Time, maxSession: nat)
    requires SetSound(z, r.keys, v, expiresAt, maxSession) && v != user
    ensures var keys := KeysOfOthers(r.keys, user);
            SetSound(z, keys, v, expiresAt, maxSession) && Alive(z, keys) == Alive(z, r.keys)
  {
    hide Sorted;
    var keys := KeysOfOthers(r.keys, user);
    AliveSame(z, r.keys, keys);
  }

  lemma InvalidatedAllSound(r: Store, maxSession: nat, user: Id, u: Id)
    requires Sound(r, maxSession)
    ensures Sound(InvalidatedAll(r, user), maxSession)
    ensures Queue(InvalidatedAll(r, user), u) == if u == user then [] else Queue(r, u)
  {
    hide SetSound, Lists;
    InvalidatedKeys(r, maxSession, user);
    forall v | v in r.sets && v != user
      ensures var keys := InvalidatedAll(r, user).keys;
              && SetSound(r.sets[v].entries, keys, v, r.sets[v].expiresAt, maxSession)
              && Alive(r.sets[v].entries, keys) == Alive(r.sets[v].entries, r.keys)
    {
      OtherKept(r.sets[v].entries, r, user, v, r.sets[v].expiresAt, maxSession);
    }
  }
}
