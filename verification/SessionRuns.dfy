/**
  Runs of the registry: it simulates the simple machine step for step, never
  holds more sessions than allowed, and rotates a refresh token at most once.
*/
module SessionRuns {
  import opened Entities
  import opened JwtRegistry
  import opened SessionQueues
  import opened SessionRefinement

  type Duration = d: nat | d > 0 witness 1

  /** `issued` holds every refresh token ever handed out; no other is presented. */
  datatype World = World(now: Time, redis: Store, issued: map<Id, Token>)

  datatype Op =
    | Wait(ms: nat)
    | Login(user: Id, id: Id, ttl: Duration)
    | Rotate(used: Id, id: Id, ttl: Duration)
    | Logout(used: Id)
    | LogoutAll(user: Id)

  const NOBODY := World(0, EMPTY_STORE, map[])

  function NewToken(w: World, user: Id, id: Id, ttl: Duration): Token {
    Token(id, user, w.now + ttl)
  }

  /** One step. Ids of tokens are drawn fresh; a step that would reuse one does not happen. */
  function Step(w: World, maxSession: nat, op: Op): World {
    match op
    case Wait(ms) => w.(now := w.now + ms, redis := Expired(w.redis, w.now + ms))
    case Login(user, id, ttl) =>
      if id in w.issued then w
      else
        var t := NewToken(w, user, id, ttl);
        w.(redis := Registered(w.redis, maxSession, t, w.now), issued := w.issued[id := t])
    case Rotate(used, id, ttl) =>
      if used !in w.issued || id in w.issued || !HasActive(w.redis, w.issued[used], w.now) then w
      else
        var t := w.issued[used];
        var next := NewToken(w, t.user, id, ttl);
        w.(redis := Rotated(w.redis, maxSession, t, next, w.now), issued := w.issued[id := next])
    case Logout(used) =>
      if used !in w.issued then w else w.(redis := Invalidated(w.redis, w.issued[used], w.now))
    case LogoutAll(user) => w.(redis := InvalidatedAll(w.redis, user))
  }

  function Exec(w: World, maxSession: nat, ops: seq<Op>): World
    decreases |ops|
  {
    if ops == [] then w else Exec(Step(w, maxSession, ops[0]), maxSession, ops[1..])
  }

  /** The step registers a session: a login, or a rotation that succeeds. */
  predicate Registers(w: World, op: Op) {
    match op
    case Login(_, id, _) => id !in w.issued
    case Rotate(used, id, _) => used in w.issued && id !in w.issued && HasActive(w.redis, w.issued[used], w.now)
    case _ => false
  }

  /** The token that the step registers, and the store it finds when it does. */
  function Newcomer(w: World, op: Op): Token
    requires Registers(w, op)
  {
    NewToken(w, if op.Login? then op.user else w.issued[op.used].user, op.id, op.ttl)
  }

  function Found(w: World, op: Op): Store
    requires Registers(w, op)
  {
    if op.Login? then w.redis else Forget(w.redis, op.used, w.issued[op.used].user)
  }

  /** A session is registered after, and expires no earlier than, the user's sessions that stay. */
  ghost predicate TimelyFor(r: Store, maxSession: nat, t: Token, now: Time) {
    Latest(r, t, now) && Lasting(r, maxSession, t)
  }

  ghost predicate Timely(w: World, maxSession: nat, op: Op) {
    Registers(w, op) ==> TimelyFor(Found(w, op), maxSession, Newcomer(w, op), w.now)
  }

  ghost predicate TimelyRun(w: World, maxSession: nat, ops: seq<Op>)
    decreases |ops|
  {
    ops == [] || (Timely(w, maxSession, ops[0]) && TimelyRun(Step(w, maxSession, ops[0]), maxSession, ops[1..]))
  }

  // ---------- The simple machine ----------

  datatype Simple = Simple(now: Time, queues: map<Id, seq<Session>>, issued: map<Id, Token>)
  {
    function Of(user: Id): seq<Session> {
      if user in queues then queues[user] else []
    }

    function With(user: Id, q: seq<Session>): Simple {
      this.(queues := queues[user := q])
    }
  }

  predicate Holds(q: seq<Session>, id: Id) {
    exists i :: 0 <= i < |q| && q[i].id == id
  }

  function SimpleStep(s: Simple, capacity: nat, op: Op): Simple
    requires capacity > 0
  {
    match op
    case Wait(ms) =>
      s.(now := s.now + ms, queues := map u | u in s.queues :: Unexpired(s.queues[u], s.now + ms))
    case Login(user, id, ttl) =>
      if id in s.issued then s
      else
        s.With(user, Push(s.Of(user), capacity, Session(id, s.now + ttl)))
        .(issued := s.issued[id := Token(id, user, s.now + ttl)])
    case Rotate(used, id, ttl) =>
      if used in s.issued && id !in s.issued && Holds(s.Of(s.issued[used].user), used) then
        var user := s.issued[used].user;
        s.With(user, Push(Dropped(s.Of(user), used), capacity, Session(id, s.now + ttl)))
        .(issued := s.issued[id := Token(id, user, s.now + ttl)])
      else s
    case Logout(used) =>
      if used in s.issued then s.With(s.issued[used].user, Dropped(s.Of(s.issued[used].user), used)) else s
    case LogoutAll(user) => s.With(user, [])
  }

  function SimpleExec(s: Simple, capacity: nat, ops: seq<Op>): Simple
    requires capacity > 0
    decreases |ops|
  {
    if ops == [] then s else SimpleExec(SimpleStep(s, capacity, ops[0]), capacity, ops[1..])
  }

  const NO_QUEUES := Simple(0, map[], map[])

  // ---------- The simulation ----------

  /** The keys are those of tokens issued and not expired; the sets list issued tokens only. */
  ghost predicate Genuine(w: World) {
    && (forall id :: id in w.redis.keys ==>
          && id in w.issued
          && w.redis.keys[id] == RefreshKey(w.issued[id].user, w.issued[id].expiresAt)
          && w.issued[id].expiresAt > w.now)
    && (forall u, id :: u in w.redis.sets && Lists(w.redis.sets[u].entries, id) ==> id in w.issued)
    && (forall id :: id in w.issued ==> w.issued[id].id == id)
  }

  ghost predicate Good(w: World, maxSession: nat) {
    Sound(w.redis, maxSession) && Genuine(w)
  }

  ghost predicate Matches(w: World, s: Simple) {
    w.now == s.now && w.issued == s.issued && forall u :: Queue(w.redis, u) == s.Of(u)
  }

  // What each operation does to the lists of the sets.

  lemma {:induction false} WithoutLists(z: seq<Entry>, gone: Id, id: Id)
    ensures Lists(Without(z, gone), id) ==> Lists(z, id)
  {
    if z != [] {
      WithoutLists(z[1..], gone, id);
      assert forall i :: 0 <= i < |z| - 1 ==> z[1..][i] == z[i + 1];
      assert Lists(z[1..], id) ==> Lists(z, id);
      if z[0].id != gone && Lists(Without(z, gone), id) {
        var i :| 0 <= i < |Without(z, gone)| && Without(z, gone)[i].id == id;
        assert i == 0 ==> z[0].id == id;
        assert i > 0 ==> Without(z[1..], gone)[i - 1].id == id;
      }
    }
  }

  lemma ForgetGenuine(w: World, id: Id, user: Id)
    requires Genuine(w)
    ensures Genuine(w.(redis := Forget(w.redis, id, user)))
  {
    hide Without, Lists;
    var after := Forget(w.redis, id, user);
    forall u, x | u in after.sets && Lists(after.sets[u].entries, x)
      ensures x in w.issued
    {
      WithoutLists(w.redis.sets[u].entries, id, x);
    }
  }

  /** Only listed ids and the new one are listed afterwards. */
  lemma RegisteredLists(r: Store, maxSession: nat, t: Token, now: Time, u: Id, id: Id)
    requires Sound(r, maxSession) && Unused(r, t.id)
    requires var after := Registered(r, maxSession, t, now); u in after.sets && Lists(after.sets[u].entries, id)
    ensures id == t.id || (u in r.sets && Lists(r.sets[u].entries, id))
  {
    hide Sound, Unused, Registered, Lists, Store.Entries, Insert, KeysWith;
    RegisteredShape(r, maxSession, t, now);
    var after := Registered(r, maxSession, t, now);
    if u != t.user {
      assert u in r.sets - {t.user} && after.sets[u] == (after.sets - {t.user})[u];
    } else {
      var z := r.Entries(t.user);
      var k := Displaced(|z|, maxSession);
      RestUnlisted(r, t.id, t.user, k);
      RestSorted(r, maxSession, t.user, k);
      InsertedLists(z, k, Entry(t.id, now), id);
      EntriesListed(r, u, id);
    }
  }

  lemma EntriesListed(r: Store, u: Id, id: Id)
    ensures Lists(r.Entries(u), id) ==> u in r.sets && Lists(r.sets[u].entries, id)
  {
  }

  lemma InsertedLists(z: seq<Entry>, k: nat, e: Entry, id: Id)
    requires k <= |z| && Sorted(z[k..]) && !Lists(z[k..], e.id) && Lists(Insert(z[k..], e), id)
    ensures id == e.id || Lists(z, id)
  {
    InsertMembers(z[k..], e);
    var after := Insert(z[k..], e);
    var i :| 0 <= i < |after| && after[i].id == id;
    assert after[i] in after;
    if after[i] != e {
      var j :| 0 <= j < |z[k..]| && z[k..][j] == after[i];
      assert z[k + j].id == id;
    }
  }

  lemma RegisteredGenuine(w: World, maxSession: nat, t: Token)
    requires Good(w, maxSession) && t.id !in w.issued && t.expiresAt > w.now
    ensures Genuine(w.(redis := Registered(w.redis, maxSession, t, w.now), issued := w.issued[t.id := t]))
  {
    hide Sound, Registered, Lists, Ids, Unused, Insert;
    NewIsUnused(w, maxSession, t.id);
    RegisteredShape(w.redis, maxSession, t, w.now);
    var after := Registered(w.redis, maxSession, t, w.now);
    forall u, id | u in after.sets && Lists(after.sets[u].entries, id)
      ensures id in w.issued || id == t.id
    {
      RegisteredLists(w.redis, maxSession, t, w.now, u, id);
    }
    forall id | id in after.keys
      ensures id == t.id || (id in w.redis.keys && after.keys[id] == w.redis.keys[id])
    {
    }
  }

  lemma NewIsUnused(w: World, maxSession: nat, id: Id)
    requires Genuine(w) && id !in w.issued
    ensures Unused(w.redis, id)
  {
  }

  /** A token is active exactly if the queue of its user holds it. */
  lemma ActiveIff(w: World, maxSession: nat, t: Token)
    requires Good(w, maxSession) && t.id in w.issued && w.issued[t.id] == t
    ensures HasActive(w.redis, t, w.now) <==> Holds(Queue(w.redis, t.user), t.id)
    ensures t.id in w.redis.keys <==> Holds(Queue(w.redis, t.user), t.id)
  {
    hide SetSound;
    var q := Queue(w.redis, t.user);
    AliveMembers(w.redis.Entries(t.user), w.redis.keys);
    if t.id in w.redis.keys {
      assert Session(t.id, w.redis.keys[t.id].expiresAt) in q;
    }
  }

  lemma WaitSimulates(w: World, maxSession: nat, s: Simple, ms: nat)
    requires Good(w, maxSession) && Matches(w, s)
    ensures Good(Step(w, maxSession, Wait(ms)), maxSession)
    ensures Matches(Step(w, maxSession, Wait(ms)), SimpleStep(s, Capacity(maxSession), Wait(ms)))
  {
    hide Sound, Queue;
    var later := w.now + ms;
    ExpiredSound(w.redis, maxSession, later);
    ExpiredGenuine(w, later);
    forall u
      ensures Queue(Expired(w.redis, later), u) == SimpleStep(s, Capacity(maxSession), Wait(ms)).Of(u)
    {
      ExpiredQueue(w.redis, maxSession, later, u);
      assert Unexpired([], later) == [];
    }
  }

  lemma ExpiredGenuine(w: World, later: Time)
    requires Genuine(w) && later >= w.now
    ensures Genuine(w.(now := later, redis := Expired(w.redis, later)))
  {
    hide Lists;
  }

  lemma LoginSimulates(w: World, maxSession: nat, s: Simple, user: Id, id: Id, ttl: Duration)
    requires Good(w, maxSession) && Matches(w, s) && Timely(w, maxSession, Login(user, id, ttl))
    ensures Good(Step(w, maxSession, Login(user, id, ttl)), maxSession)
    ensures Matches(Step(w, maxSession, Login(user, id, ttl)), SimpleStep(s, Capacity(maxSession), Login(user, id, ttl)))
  {
    hide Sound, Lists, Registered, Latest, Lasting, Queue, Push, Genuine;
    if id !in w.issued {
      var t := NewToken(w, user, id, ttl);
      NewIsUnused(w, maxSession, id);
      RegisteredGenuine(w, maxSession, t);
      RegisteredSoundIff(w.redis, maxSession, t, w.now);
      forall u
        ensures Queue(Registered(w.redis, maxSession, t, w.now), u) ==
                if u == user then Push(s.Of(u), Capacity(maxSession), Session(id, s.now + ttl)) else s.Of(u)
      {
        RegisteredQueue(w.redis, maxSession, t, w.now, u);
      }
    }
  }

  lemma LogoutSimulates(w: World, maxSession: nat, s: Simple, used: Id)
    requires Good(w, maxSession) && Matches(w, s)
    ensures Good(Step(w, maxSession, Logout(used)), maxSession)
    ensures Matches(Step(w, maxSession, Logout(used)), SimpleStep(s, Capacity(maxSession), Logout(used)))
  {
    hide SetSound, Lists, Forget, Queue;
    if used in w.issued {
      var t := w.issued[used];
      if Valid(t, w.now) {
        ForgetSound(w.redis, maxSession, used, t.user);
        ForgetGenuine(w, used, t.user);
        forall u
          ensures Queue(Forget(w.redis, used, t.user), u) == if u == t.user then Dropped(s.Of(u), used) else s.Of(u)
        {
          ForgetQueue(w.redis, maxSession, used, t.user, u);
        }
      } else {
        ActiveIff(w, maxSession, t);
        NotHeld(s.Of(t.user), used);
      }
    }
  }

  lemma NotHeld(q: seq<Session>, id: Id)
    requires !Holds(q, id)
    ensures Dropped(q, id) == q
  {
    forall s | s in q
      ensures s.id != id
    {
      var i :| 0 <= i < |q| && q[i] == s;
    }
    DroppedAbsent(q, id);
  }

  lemma LogoutAllSimulates(w: World, maxSession: nat, s: Simple, user: Id)
    requires Good(w, maxSession) && Matches(w, s)
    ensures Good(Step(w, maxSession, LogoutAll(user)), maxSession)
    ensures Matches(Step(w, maxSession, LogoutAll(user)), SimpleStep(s, Capacity(maxSession), LogoutAll(user)))
  {
    hide Sound, Lists, Queue;
    InvalidatedAllSound(w.redis, maxSession, user, user);
    forall u
      ensures Queue(InvalidatedAll(w.redis, user), u) == if u == user then [] else s.Of(u)
    {
      InvalidatedAllSound(w.redis, maxSession, user, u);
    }
  }

  /** A rotation is a logout followed by a login. */
  lemma RotateIsLogoutLogin(w: World, maxSession: nat, used: Id, id: Id, ttl: Duration)
    requires used in w.issued && id !in w.issued && HasActive(w.redis, w.issued[used], w.now)
    ensures Step(w, maxSession, Rotate(used, id, ttl)) ==
            Step(Step(w, maxSession, Logout(used)), maxSession, Login(w.issued[used].user, id, ttl))
  {
  }

  lemma RotateSimulates(w: World, maxSession: nat, s: Simple, used: Id, id: Id, ttl: Duration)
    requires Good(w, maxSession) && Matches(w, s) && Timely(w, maxSession, Rotate(used, id, ttl))
    ensures Good(Step(w, maxSession, Rotate(used, id, ttl)), maxSession)
    ensures Matches(Step(w, maxSession, Rotate(used, id, ttl)), SimpleStep(s, Capacity(maxSession), Rotate(used, id, ttl)))
  {
    hide Sound, Lists, Forget, Queue, Registered, TimelyFor, Push;
    if used in w.issued && id !in w.issued {
      var t := w.issued[used];
      ActiveIff(w, maxSession, t);
      if HasActive(w.redis, t, w.now) {
        RotateIsLogoutLogin(w, maxSession, used, id, ttl);
        LogoutSimulates(w, maxSession, s, used);
        var mid, smid := Step(w, maxSession, Logout(used)), SimpleStep(s, Capacity(maxSession), Logout(used));
        LoginSimulates(mid, maxSession, smid, t.user, id, ttl);
        assert SimpleStep(s, Capacity(maxSession), Rotate(used, id, ttl)).queues
            == SimpleStep(smid, Capacity(maxSession), Login(t.user, id, ttl)).queues;
      }
    }
  }

  lemma StepSimulates(w: World, maxSession: nat, s: Simple, op: Op)
    requires Good(w, maxSession) && Matches(w, s) && Timely(w, maxSession, op)
    ensures Good(Step(w, maxSession, op), maxSession)
    ensures Matches(Step(w, maxSession, op), SimpleStep(s, Capacity(maxSession), op))
  {
    hide Good, Matches, Step, SimpleStep, Timely;
    match op
    case Wait(ms) => WaitSimulates(w, maxSession, s, ms);
    case Login(user, id, ttl) => LoginSimulates(w, maxSession, s, user, id, ttl);
    case Rotate(used, id, ttl) => RotateSimulates(w, maxSession, s, used, id, ttl);
    case Logout(used) => LogoutSimulates(w, maxSession, s, used);
    case LogoutAll(user) => LogoutAllSimulates(w, maxSession, s, user);
  }

  lemma {:induction false} RunSimulates(w: World, maxSession: nat, s: Simple, ops: seq<Op>)
    requires Good(w, maxSession) && Matches(w, s) && TimelyRun(w, maxSession, ops)
    ensures Good(Exec(w, maxSession, ops), maxSession)
    ensures Matches(Exec(w, maxSession, ops), SimpleExec(s, Capacity(maxSession), ops))
    decreases |ops|
  {
    hide Good, Matches, Step, SimpleStep, Timely;
    if ops != [] {
      StepSimulates(w, maxSession, s, ops[0]);
      RunSimulates(Step(w, maxSession, ops[0]), maxSession, SimpleStep(s, Capacity(maxSession), ops[0]), ops[1..]);
    }
  }

  lemma NobodyGood(maxSession: nat)
    ensures Good(NOBODY, maxSession) && Matches(NOBODY, NO_QUEUES)
  {
  }

  /**
    Over every run, a token is active exactly if the simple machine holds its
    session: the two Redis structures with their expiries are one bounded queue.
  */
  lemma RegistryRefinesQueues(maxSession: nat, ops: seq<Op>, t: Token)
    requires TimelyRun(NOBODY, maxSession, ops)
    requires var w := Exec(NOBODY, maxSession, ops); t.id in w.issued && w.issued[t.id] == t
    ensures var w := Exec(NOBODY, maxSession, ops);
            var q := SimpleExec(NO_QUEUES, Capacity(maxSession), ops).Of(t.user);
            && Queue(w.redis, t.user) == q
            && (HasActive(w.redis, t, w.now) <==> Holds(q, t.id))
            && |q| <= |w.redis.Entries(t.user)| <= Capacity(maxSession)
  {
    hide Exec, SimpleExec, TimelyRun, SetSound;
    NobodyGood(maxSession);
    RunSimulates(NOBODY, maxSession, NO_QUEUES, ops);
    var w := Exec(NOBODY, maxSession, ops);
    ActiveIff(w, maxSession, t);
    AliveSize(w.redis.Entries(t.user), w.redis.keys);
    EntriesBounded(w.redis, maxSession, t.user);
  }

  lemma EntriesBounded(r: Store, maxSession: nat, user: Id)
    requires Sound(r, maxSession)
    ensures |r.Entries(user)| <= Capacity(maxSession)
  {
  }

  /** The sessions of the entries that stay are still queued, wherever the new entry goes. */
  lemma StayingQueued(r: Store, maxSession: nat, t: Token, now: Time, s: Session)
    requires Sound(r, maxSession) && Unused(r, t.id) && s in Alive(Staying(r, maxSession, t.user), r.keys)
    ensures s in Queue(Registered(r, maxSession, t, now), t.user)
  {
    hide Alive, Registered, Insert, Sorted, OldestFirst, Outlives;
    var z := r.Entries(t.user);
    var k := Displaced(|z|, maxSession);
    var after := Registered(r, maxSession, t, now);
    RegisteredShape(r, maxSession, t, now);
    StayingListed(r, maxSession, t, now);
    AliveMembers(z[k..], r.keys);
    AliveMembers(after.Entries(t.user), after.keys);
    RestUnlisted(r, t.id, t.user, 0);
    assert z[0..] == z;
    if z != [] {
      assert SetSound(z, r.keys, t.user, r.sets[t.user].expiresAt, maxSession);
    }
    SurvivingKeys(z, r.keys, k, t);
    var i :| 0 <= i < |z[k..]| && z[k..][i].id == s.id;
    assert z[k + i].id == s.id && z[k..][i] in z[k..];
  }

  /**
    A login ends another session only if as many as allowed are active, and then
    the oldest one only, in whatever order the set lists sessions of one instant.
  */
  lemma EvictsOnlyWhenFull(w: World, maxSession: nat, user: Id, id: Id, ttl: Duration, s: Session)
    requires Good(w, maxSession)
    requires s in Queue(w.redis, user) && s !in Queue(Step(w, maxSession, Login(user, id, ttl)).redis, user)
    ensures |Queue(w.redis, user)| == Capacity(maxSession) && s == Queue(w.redis, user)[0]
  {
    hide Lists, Registered, Alive, Distinct, Sorted, Outlives;
    if id !in w.issued {
      var t := NewToken(w, user, id, ttl);
      NewIsUnused(w, maxSession, id);
      var z := w.redis.Entries(user);
      var q := Queue(w.redis, user);
      AliveSize(z, w.redis.keys);
      EntriesBounded(w.redis, maxSession, user);
      if user in w.redis.sets {
        assert SetSound(z, w.redis.keys, user, w.redis.sets[user].expiresAt, maxSession);
      }
      EvictionIsFair(z, w.redis.keys, maxSession);
      if s in Alive(Staying(w.redis, maxSession, user), w.redis.keys) {
        StayingQueued(w.redis, maxSession, t, w.now, s);
      }
      if |q| == Capacity(maxSession) {
        assert q == [q[0]] + q[1..];
      }
    }
  }

  /** A successful rotation puts the new session in the place of the old one's user and ends no other. */
  lemma RotationReplaces(w: World, maxSession: nat, used: Id, id: Id, ttl: Duration)
    requires Good(w, maxSession) && Timely(w, maxSession, Rotate(used, id, ttl))
    requires used in w.issued && id !in w.issued && HasActive(w.redis, w.issued[used], w.now)
    ensures var user := w.issued[used].user;
            var before, after := Queue(w.redis, user), Queue(Step(w, maxSession, Rotate(used, id, ttl)).redis, user);
            && after == Dropped(before, used) + [Session(id, w.now + ttl)]
            && |after| == |before|
  {
    hide Sound, Lists, Forget, Queue, Registered, TimelyFor, Alive;
    var user := w.issued[used].user;
    var mid := Step(w, maxSession, Logout(used));
    RotateIsLogoutLogin(w, maxSession, used, id, ttl);
    ForgetSound(w.redis, maxSession, used, user);
    ForgetGenuine(w, used, user);
    ForgetQueue(w.redis, maxSession, used, user, user);
    DroppedOnce(w, maxSession, used);
    LoginAppends(mid, maxSession, user, id, ttl);
  }

  lemma LoginAppends(w: World, maxSession: nat, user: Id, id: Id, ttl: Duration)
    requires Good(w, maxSession) && id !in w.issued && Timely(w, maxSession, Login(user, id, ttl))
    requires |Queue(w.redis, user)| < Capacity(maxSession)
    ensures Queue(Step(w, maxSession, Login(user, id, ttl)).redis, user) == Queue(w.redis, user) + [Session(id, w.now + ttl)]
  {
    hide Sound, Lists, Registered, Latest, Lasting, Queue;
    NewIsUnused(w, maxSession, id);
    RegisteredQueue(w.redis, maxSession, NewToken(w, user, id, ttl), w.now, user);
  }

  /** A held session is held once: dropping it makes the queue shorter by one, and so leaves room. */
  lemma DroppedOnce(w: World, maxSession: nat, used: Id)
    requires Good(w, maxSession) && used in w.issued && HasActive(w.redis, w.issued[used], w.now)
    ensures var q := Queue(w.redis, w.issued[used].user);
            |Dropped(q, used)| == |q| - 1 < Capacity(maxSession)
  {
    hide Alive, Sorted, OldestFirst;
    var user := w.issued[used].user;
    var z := w.redis.Entries(user);
    assert Lists(z, used);
    assert SetSound(z, w.redis.keys, user, w.redis.sets[user].expiresAt, maxSession);
    var i :| 0 <= i < |z| && z[i].id == used;
    AliveSplit(z, w.redis.keys, i);
    AliveSize(z, w.redis.keys);
  }

  lemma AliveSplit(z: seq<Entry>, keys: map<Id, RefreshKey>, i: nat)
    requires i < |z| && Distinct(z) && z[i].id in keys
    ensures |Dropped(Alive(z, keys), z[i].id)| == |Alive(z, keys)| - 1
  {
    hide Alive;
    var id := z[i].id;
    var s := Session(id, keys[id].expiresAt);
    assert z == z[..i] + ([z[i]] + z[i + 1..]);
    AliveAppend(z[..i], [z[i]] + z[i + 1..], keys);
    AliveAppend([z[i]], z[i + 1..], keys);
    OneAlive(z[i], keys);
    var a, b := Alive(z[..i], keys), Alive(z[i + 1..], keys);
    AliveMembers(z[..i], keys);
    AliveMembers(z[i + 1..], keys);
    DroppedAppend(a, [s] + b, id);
    DroppedAppend([s], b, id);
    DroppedAbsent(a, id);
    DroppedAbsent(b, id);
    assert [s][1..] == [];
    assert Dropped([s], id) == [];
  }

  // ---------- Single use ----------

  lemma {:induction false} ForgetAllKeys(r: Store, gone: seq<Entry>, user: Id)
    ensures forall id :: id in ForgetAll(r, gone, user).keys ==> id in r.keys && ForgetAll(r, gone, user).keys[id] == r.keys[id]
    decreases |gone|
  {
    if gone != [] {
      ForgetAllKeys(r, gone[..|gone| - 1], user);
    }
  }

  /** The id that a step brings into being, if it does. */
  predicate Creates(op: Op, id: Id, expiresAt: Time, now: Time) {
    (op.Login? || op.Rotate?) && op.id == id && expiresAt == now + op.ttl
  }

  lemma KeysAfter(w: World, maxSession: nat, op: Op, id: Id)
    requires id in Step(w, maxSession, op).redis.keys
    ensures var key := Step(w, maxSession, op).redis.keys[id];
            || (id in w.redis.keys && key == w.redis.keys[id])
            || (id !in w.issued && Creates(op, id, key.expiresAt, w.now))
  {
    hide Without, Insert;
    match op
    case Login(user, _, _) =>
      var z := w.redis.Entries(user);
      ForgetAllKeys(w.redis, z[..Displaced(|z|, maxSession)], user);
    case Rotate(used, _, _) =>
      if used in w.issued {
        var t := w.issued[used];
        var r := Invalidated(w.redis, t, w.now);
        var z := r.Entries(t.user);
        ForgetAllKeys(r, z[..Displaced(|z|, maxSession)], t.user);
      }
    case _ =>
  }

  lemma {:induction false} StaysInactive(w: World, maxSession: nat, ops: seq<Op>, id: Id)
    requires id in w.issued && id !in w.redis.keys
    ensures id in Exec(w, maxSession, ops).issued && id !in Exec(w, maxSession, ops).redis.keys
    decreases |ops|
  {
    hide Step;
    if ops != [] {
      if id in Step(w, maxSession, ops[0]).redis.keys {
        KeysAfter(w, maxSession, ops[0], id);
      }
      IssuedStays(w, maxSession, ops[0], id);
      StaysInactive(Step(w, maxSession, ops[0]), maxSession, ops[1..], id);
    }
  }

  lemma IssuedStays(w: World, maxSession: nat, op: Op, id: Id)
    ensures id in w.issued ==> id in Step(w, maxSession, op).issued && Step(w, maxSession, op).issued[id] == w.issued[id]
  {
  }

  /** In whatever way a token stopped being active, it never is again, in any run whatever its timing. */
  lemma NeverActiveAgain(w: World, maxSession: nat, ops: seq<Op>, t: Token)
    requires t.id in w.issued && t.id !in w.redis.keys
    ensures !HasActive(Exec(w, maxSession, ops).redis, t, Exec(w, maxSession, ops).now)
  {
    StaysInactive(w, maxSession, ops, t.id);
  }

  predicate RotatesNow(w: World, op: Op, used: Id) {
    && op.Rotate? && op.used == used && op.id !in w.issued
    && used in w.issued && HasActive(w.redis, w.issued[used], w.now)
  }

  function TimesRotated(w: World, maxSession: nat, ops: seq<Op>, used: Id): nat
    decreases |ops|
  {
    if ops == [] then 0
    else (if RotatesNow(w, ops[0], used) then 1 else 0) + TimesRotated(Step(w, maxSession, ops[0]), maxSession, ops[1..], used)
  }

  lemma RotationUsesUp(w: World, maxSession: nat, op: Op, used: Id)
    requires RotatesNow(w, op, used) && w.issued[used].id == used
    ensures used !in Step(w, maxSession, op).redis.keys
  {
    hide Without, Insert;
    var t := w.issued[used];
    var r := Invalidated(w.redis, t, w.now);
    var z := r.Entries(t.user);
    ForgetAllKeys(r, z[..Displaced(|z|, maxSession)], t.user);
  }

  /** A refresh token is rotated successfully at most once in any run, and never once it is inactive. */
  lemma {:induction false} RotatedAtMostOnce(w: World, maxSession: nat, ops: seq<Op>, used: Id)
    requires forall id :: id in w.issued ==> w.issued[id].id == id
    ensures TimesRotated(w, maxSession, ops, used) <= if used in w.issued && used !in w.redis.keys then 0 else 1
    decreases |ops|
  {
    hide Step;
    if ops != [] {
      var next := Step(w, maxSession, ops[0]);
      NamesStay(w, maxSession, ops[0]);
      IssuedStays(w, maxSession, ops[0], used);
      RotatedAtMostOnce(next, maxSession, ops[1..], used);
      if RotatesNow(w, ops[0], used) {
        RotationUsesUp(w, maxSession, ops[0], used);
      }
      if used in next.redis.keys {
        KeysAfter(w, maxSession, ops[0], used);
      }
    }
  }

  lemma NamesStay(w: World, maxSession: nat, op: Op)
    requires forall id :: id in w.issued ==> w.issued[id].id == id
    ensures var next := Step(w, maxSession, op); forall id :: id in next.issued ==> next.issued[id].id == id
  {
  }

  // ---------- When runs are timely ----------

  /** Every session registered comes after the user's others in the order of the set. */
  ghost predicate InOrder(w: World, maxSession: nat, op: Op) {
    Registers(w, op) ==> Latest(Found(w, op), Newcomer(w, op), w.now)
  }

  ghost predicate RunInOrder(w: World, maxSession: nat, ops: seq<Op>)
    decreases |ops|
  {
    ops == [] || (InOrder(w, maxSession, ops[0]) && RunInOrder(Step(w, maxSession, ops[0]), maxSession, ops[1..]))
  }

  predicate HasTtl(op: Op, ttl: Duration) {
    (op.Login? || op.Rotate?) ==> op.ttl == ttl
  }

  /** With one fixed time to live, as configured, sessions never overtake each other's expiry. */
  lemma {:induction false} ConstantTtlIsTimely(w: World, maxSession: nat, ops: seq<Op>, ttl: Duration)
    requires forall op :: op in ops ==> HasTtl(op, ttl)
    requires forall id :: id in w.redis.keys ==> w.redis.keys[id].expiresAt <= w.now + ttl
    requires RunInOrder(w, maxSession, ops)
    ensures TimelyRun(w, maxSession, ops)
    decreases |ops|
  {
    hide Step, Latest, Displaced;
    if ops != [] {
      var next := Step(w, maxSession, ops[0]);
      assert HasTtl(ops[0], ttl);
      ClockRuns(w, maxSession, ops[0]);
      forall id | id in next.redis.keys
        ensures next.redis.keys[id].expiresAt <= next.now + ttl
      {
        KeysAfter(w, maxSession, ops[0], id);
      }
      ConstantTtlIsTimely(next, maxSession, ops[1..], ttl);
    }
  }

  lemma ClockRuns(w: World, maxSession: nat, op: Op)
    ensures Step(w, maxSession, op).now >= w.now
  {
  }

  /** Two logins in one millisecond: the tie is broken by id, and the newer session is evicted before the older. */
  lemma TieEvictsNewer(user: Id)
    ensures var older, newer, third := Token(5, user, 100), Token(3, user, 100), Token(8, user, 100);
            var r := Registered(Registered(EMPTY_STORE, 2, older, 10), 2, newer, 10);
            && !Latest(Registered(EMPTY_STORE, 2, older, 10), newer, 10)
            && newer.id in r.keys && older.id in r.keys
            && newer.id !in Registered(r, 2, third, 11).keys && older.id in Registered(r, 2, third, 11).keys
  {
    var older, newer, third := Token(5, user, 100), Token(3, user, 100), Token(8, user, 100);
    var r1 := Registered(EMPTY_STORE, 2, older, 10);
    assert Without([], 5) == [] && Insert([], Entry(5, 10)) == [Entry(5, 10)];
    assert r1.Entries(user) == [Entry(5, 10)];
    var r := Registered(r1, 2, newer, 10);
    assert [Entry(5, 10)][1..] == [] && [Entry(5, 10)][..0] == [];
    assert Without([Entry(5, 10)], 3) == [Entry(5, 10)];
    assert Insert([Entry(5, 10)], Entry(3, 10)) == [Entry(3, 10), Entry(5, 10)];
    var z := r.Entries(user);
    assert z == [Entry(3, 10), Entry(5, 10)];
    assert z[..1] == [Entry(3, 10)] && [Entry(3, 10)][..0] == [];
    ForgetAllKeys(r, z[..1], user);
    ForgetOne(r, Entry(3, 10), user);
  }

  lemma ForgetOne(r: Store, e: Entry, user: Id)
    ensures ForgetAll(r, [e], user) == Forget(r, e.id, user)
  {
    assert [e][..0] == [];
    assert ForgetAll(r, [], user) == r;
  }
}
