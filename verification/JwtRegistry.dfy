/**
  The refresh token registry (mopl-user): one Redis key per refresh token and
  one sorted set of token ids per user, each with its own expiry. The bounded
  queue of sessions that both together stand for is in module SessionQueues.
*/
module JwtRegistry {
  import opened Entities

  /** A refresh token, well signed; its id is drawn fresh. */
  datatype Token = Token(id: Id, user: Id, expiresAt: Time)

  datatype RefreshKey = RefreshKey(user: Id, expiresAt: Time)

  datatype Entry = Entry(id: Id, score: Time)

  datatype SortedSet = SortedSet(entries: seq<Entry>, expiresAt: Time)

  datatype Store = Store(keys: map<Id, RefreshKey>, sets: map<Id, SortedSet>)
  {
    /** The members of a user's sorted set in order. A missing set is an empty one. */
    function Entries(user: Id): seq<Entry> {
      if user in sets then sets[user].entries else []
    }

    /** A sorted set that loses its last member is gone, and its expiry with it. */
    function WithEntries(user: Id, entries: seq<Entry>): Store
      requires user in sets
    {
      if entries == [] then this.(sets := sets - {user})
      else this.(sets := sets[user := sets[user].(entries := entries)])
    }
  }

  const EMPTY_STORE := Store(map[], map[])

  /** The order of a sorted set: by score, and by member where scores tie. */
  predicate Before(a: Entry, b: Entry) {
    a.score < b.score || (a.score == b.score && a.id < b.id)
  }

  function Insert(z: seq<Entry>, e: Entry): seq<Entry> {
    if z == [] then [e]
    else if Before(e, z[0]) then [e] + z
    else [z[0]] + Insert(z[1..], e)
  }

  function Without(z: seq<Entry>, id: Id): seq<Entry> {
    if z == [] then []
    else if z[0].id == id then Without(z[1..], id)
    else [z[0]] + Without(z[1..], id)
  }

  /** Redis drops every key whose time has come. */
  function Expired(r: Store, now: Time): Store {
    Store(
      map id | id in r.keys && r.keys[id].expiresAt > now :: r.keys[id],
      map u | u in r.sets && r.sets[u].expiresAt > now :: r.sets[u])
  }

  function Forget(r: Store, id: Id, user: Id): Store {
    var r1 := r.(keys := r.keys - {id});
    if user in r1.sets then r1.WithEntries(user, Without(r1.sets[user].entries, id)) else r1
  }

  function ForgetAll(r: Store, gone: seq<Entry>, user: Id): Store
    decreases |gone|
  {
    if gone == [] then r
    else Forget(ForgetAll(r, gone[..|gone| - 1], user), gone[|gone| - 1].id, user)
  }

  /** How many of `size` sessions a new one displaces. The range is cut off at the end of the set. */
  function Displaced(size: nat, maxSession: nat): nat {
    if size < maxSession then 0 else if maxSession == 0 then size else size - maxSession + 1
  }

  /** The set is full, and there is somebody in it to make room. */
  predicate CrowdsOut(z: seq<Entry>, maxSession: nat) {
    |z| >= maxSession && z != []
  }

  function Registered(r: Store, maxSession: nat, t: Token, now: Time): Store {
    var z := r.Entries(t.user);
    var r1 := ForgetAll(r, z[..Displaced(|z|, maxSession)], t.user);
    Store(
      r1.keys[t.id := RefreshKey(t.user, t.expiresAt)],
      r1.sets[t.user := SortedSet(Insert(Without(r1.Entries(t.user), t.id), Entry(t.id, now)), t.expiresAt)])
  }

  /** The signature and the type of the token are good: it is valid until it expires. */
  predicate Valid(t: Token, now: Time) {
    t.expiresAt >= now
  }

  predicate HasActive(r: Store, t: Token, now: Time) {
    Valid(t, now) && t.id in r.keys
  }

  function Invalidated(r: Store, t: Token, now: Time): Store {
    if Valid(t, now) then Forget(r, t.id, t.user) else r
  }

  function Rotated(r: Store, maxSession: nat, t: Token, next: Token, now: Time): Store {
    if HasActive(r, t, now) then Registered(Invalidated(r, t, now), maxSession, next, now) else r
  }

  function InvalidatedAll(r: Store, user: Id): Store {
    Store(r.keys - (set e | e in r.Entries(user) :: e.id), r.sets - {user})
  }

  // ---------- Key by key ----------

  /** Time takes exactly the keys and the sets whose time has come. */
  lemma ExpiredExactly(r: Store, now: Time)
    ensures var after := Expired(r, now);
            && (forall id :: id in r.keys ==> (id in after.keys <==> r.keys[id].expiresAt > now))
            && (forall id :: id in after.keys ==> id in r.keys && after.keys[id] == r.keys[id])
            && (forall u :: u in r.sets ==> (u in after.sets <==> r.sets[u].expiresAt > now))
            && (forall u :: u in after.sets ==> u in r.sets && after.sets[u] == r.sets[u])
  {
  }

  lemma {:induction false} WithoutMembers(z: seq<Entry>, id: Id)
    ensures forall e :: e in Without(z, id) <==> e in z && e.id != id
  {
    if z != [] {
      WithoutMembers(z[1..], id);
      assert z == [z[0]] + z[1..];
    }
  }

  /**
    Forgetting a token takes its key and its entry in the set of the user; a set
    that loses its last entry goes with it, and one that does not keeps its expiry.
  */
  lemma ForgetExactly(r: Store, id: Id, user: Id)
    requires user in r.sets ==> r.sets[user].entries != []
    ensures var after := Forget(r, id, user);
            && after.keys == r.keys - {id}
            && after.sets - {user} == r.sets - {user}
            && (forall e :: e in after.Entries(user) <==> e in r.Entries(user) && e.id != id)
            && (user in after.sets ==>
                  user in r.sets && after.sets[user].entries != [] && after.sets[user].expiresAt == r.sets[user].expiresAt)
  {
    WithoutMembers(r.Entries(user), id);
    assert forall e :: e in r.Entries(user) ==> user in r.sets;
  }

  /** A token can be used and invalidated up to and with the instant it expires, and not after. */
  lemma InvalidatedExactly(r: Store, t: Token, now: Time)
    ensures HasActive(r, t, now) <==> t.id in r.keys && now <= t.expiresAt
    ensures now <= t.expiresAt ==> Invalidated(r, t, now) == Forget(r, t.id, t.user)
    ensures now > t.expiresAt ==> Invalidated(r, t, now) == r
  {
  }

  /** Registering writes the key and the entry of the new token, and gives the set the token's expiry. */
  lemma RegisteredExactly(r: Store, maxSession: nat, t: Token, now: Time)
    ensures var after := Registered(r, maxSession, t, now);
            && t.id in after.keys && after.keys[t.id] == RefreshKey(t.user, t.expiresAt)
            && t.user in after.sets && after.sets[t.user].expiresAt == t.expiresAt
            && Entry(t.id, now) in after.sets[t.user].entries
            && (forall e :: e in after.sets[t.user].entries && e.id == t.id ==> e.score == now)
  {
    var z := r.Entries(t.user);
    var r1 := ForgetAll(r, z[..Displaced(|z|, maxSession)], t.user);
    WithoutMembers(r1.Entries(t.user), t.id);
    InsertExactly(Without(r1.Entries(t.user), t.id), Entry(t.id, now));
  }

  lemma {:induction false} InsertExactly(z: seq<Entry>, e: Entry)
    ensures forall x :: x in Insert(z, e) <==> x in z || x == e
  {
    if z != [] {
      InsertExactly(z[1..], e);
      assert z == [z[0]] + z[1..];
    }
  }

  // ---------- The registry itself ----------

  class Redis {
    var keys: map<Id, RefreshKey>
    var sets: map<Id, SortedSet>

    constructor ()
      ensures State() == EMPTY_STORE
    {
      keys, sets := map[], map[];
    }

    function State(): Store
      reads this
    {
      Store(keys, sets)
    }

    method Expire(now: Time)
      modifies this
      ensures State() == Expired(old(State()), now)
    {
      keys := map id | id in keys && keys[id].expiresAt > now :: keys[id];
      sets := map u | u in sets && sets[u].expiresAt > now :: sets[u];
    }

    method SetRemove(user: Id, id: Id)
      modifies this`sets
      ensures sets == if user in old(sets)
                      then old(State()).WithEntries(user, Without(old(sets)[user].entries, id)).sets else old(sets)
    {
      if user in sets {
        var rest := Without(sets[user].entries, id);
        if rest == [] {
          sets := sets - {user};
        } else {
          sets := sets[user := sets[user].(entries := rest)];
        }
      }
    }
  }

  datatype RotateResult = Rotation | InvalidToken

  class RedisJwtRegistry {
    const maxSession: nat
    const redis: Redis
    /** The users whose watching sessions are to be cleared, in the order of the requests sent. */
    var clearRequests: seq<Id>

    constructor (maxSession: nat, redis: Redis)
      ensures this.maxSession == maxSession && this.redis == redis && clearRequests == []
    {
      this.maxSession := maxSession;
      this.redis := redis;
      clearRequests := [];
    }

    method Register(t: Token, now: Time)
      modifies redis, this`clearRequests
      ensures redis.State() == Registered(old(redis.State()), maxSession, t, now)
      ensures clearRequests == old(clearRequests) +
              if CrowdsOut(old(redis.State()).Entries(t.user), maxSession) then [t.user] else []
      ensures t.id in redis.keys && redis.keys[t.id] == RefreshKey(t.user, t.expiresAt)
      ensures t.user in redis.sets && redis.sets[t.user].expiresAt == t.expiresAt
    {
      var z := redis.State().Entries(t.user);
      if |z| >= maxSession {
        var toRemove := |z| - maxSession + 1;
        var oldest := if toRemove <= |z| then z[..toRemove] else z;
        if oldest != [] {
          for i := 0 to |oldest|
            invariant redis.State() == ForgetAll(old(redis.State()), oldest[..i], t.user)
            invariant clearRequests == old(clearRequests)
          {
            assert oldest[..i + 1][..i] == oldest[..i];
            InvalidateByRefreshTokenId(oldest[i].id, t.user);
          }
          assert oldest[..|oldest|] == oldest;
          clearRequests := clearRequests + [t.user];
        }
      }
      redis.keys := redis.keys[t.id := RefreshKey(t.user, t.expiresAt)];
      var rest := Without(redis.State().Entries(t.user), t.id);
      redis.sets := redis.sets[t.user := SortedSet(Insert(rest, Entry(t.id, now)), t.expiresAt)];
    }

    predicate HasActiveRefreshToken(t: Token, now: Time)
      reads redis
    {
      Valid(t, now) && t.id in redis.keys
    }

    method InvalidateAllByUserId(user: Id)
      modifies redis
      ensures user !in redis.sets && forall e :: e in old(redis.State()).Entries(user) ==> e.id !in redis.keys
      ensures redis.State() == InvalidatedAll(old(redis.State()), user)
    {
      var z := redis.State().Entries(user);
      ghost var keys := redis.keys;
      for i := 0 to |z|
        invariant redis.keys == keys - (set e | e in z[..i] :: e.id)
        invariant redis.sets == old(redis.sets)
      {
        redis.keys := redis.keys - {z[i].id};
        assert z[..i + 1] == z[..i] + [z[i]];
      }
      assert z[..|z|] == z;
      redis.sets := redis.sets - {user};
    }

    method InvalidateToken(t: Token, now: Time)
      modifies redis
      ensures t.expiresAt >= now ==> t.id !in redis.keys
      ensures t.expiresAt < now ==> redis.State() == old(redis.State())
      ensures redis.State() == Invalidated(old(redis.State()), t, now)
    {
      if !Valid(t, now) {
        return;
      }
      InvalidateByRefreshTokenId(t.id, t.user);
    }

    method Rotate(t: Token, next: Token, now: Time) returns (r: RotateResult)
      requires next.user == t.user
      modifies redis, this`clearRequests
      ensures r == Rotation <==> t.expiresAt >= now && t.id in old(redis.keys)
      ensures r == Rotation <==> HasActive(old(redis.State()), t, now)
      ensures clearRequests == old(clearRequests) +
              if r == Rotation && CrowdsOut(Without(old(redis.State()).Entries(t.user), t.id), maxSession) then [t.user] else []
      ensures redis.State() == Rotated(old(redis.State()), maxSession, t, next, now)
    {
      if !HasActiveRefreshToken(t, now) {
        return InvalidToken;
      }
      InvalidateToken(t, now);
      Register(next, now);
      return Rotation;
    }

    method InvalidateByRefreshTokenId(id: Id, user: Id)
      modifies redis
      ensures redis.State() == Forget(old(redis.State()), id, user)
    {
      redis.keys := redis.keys - {id};
      redis.SetRemove(user, id);
    }
  }
}
