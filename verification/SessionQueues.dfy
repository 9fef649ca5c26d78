/**
  The registry refines one bounded first-in-first-out queue of sessions per
  user, and a refresh token can be rotated once.
*/
module SessionQueues {
  import opened Entities
  import opened JwtRegistry

  datatype Session = Session(id: Id, expiresAt: Time)

  // ---------- The simple machine ----------

  /** A full queue makes room by dropping its oldest sessions. */
  function Push(q: seq<Session>, capacity: nat, s: Session): seq<Session>
    requires capacity > 0
  {
    (if |q| >= capacity then q[|q| - capacity + 1..] else q) + [s]
  }

  function Dropped(q: seq<Session>, id: Id): seq<Session> {
    if q == [] then []
    else (if q[0].id == id then [] else [q[0]]) + Dropped(q[1..], id)
  }

  function Unexpired(q: seq<Session>, now: Time): seq<Session> {
    if q == [] then []
    else (if q[0].expiresAt > now then [q[0]] else []) + Unexpired(q[1..], now)
  }

  // ---------- What the two Redis structures stand for ----------

  /** The entries whose token key still exists, in the order of the sorted set. */
  function Alive(z: seq<Entry>, keys: map<Id, RefreshKey>): seq<Session> {
    if z == [] then []
    else (if z[0].id in keys then [Session(z[0].id, keys[z[0].id].expiresAt)] else []) + Alive(z[1..], keys)
  }

  function Queue(r: Store, user: Id): seq<Session> {
    Alive(r.Entries(user), r.keys)
  }

  // ---------- The invariant ----------

  ghost predicate Distinct(z: seq<Entry>) {
    forall i, j :: 0 <= i < j < |z| ==> z[i].id != z[j].id
  }

  ghost predicate Sorted(z: seq<Entry>) {
    forall i, j :: 0 <= i < j < |z| ==> Before(z[i], z[j])
  }

  /** Keys expire in the order of the sorted set: the entries without a key come first. */
  ghost predicate OldestFirst(z: seq<Entry>, keys: map<Id, RefreshKey>) {
    forall i, j :: 0 <= i < j < |z| && z[i].id in keys ==>
      z[j].id in keys && keys[z[i].id].expiresAt <= keys[z[j].id].expiresAt
  }

  /** The set does not expire before a key it lists. */
  ghost predicate Outlives(z: seq<Entry>, keys: map<Id, RefreshKey>, user: Id, expiresAt: Time) {
    forall i :: 0 <= i < |z| && z[i].id in keys ==>
      keys[z[i].id].user == user && keys[z[i].id].expiresAt <= expiresAt
  }

  ghost predicate SetSound(z: seq<Entry>, keys: map<Id, RefreshKey>, user: Id, expiresAt: Time, maxSession: nat) {
    && |z| <= Capacity(maxSession)
    && Distinct(z) && Sorted(z) && OldestFirst(z, keys) && Outlives(z, keys, user, expiresAt)
  }

  predicate Lists(z: seq<Entry>, id: Id) {
    exists i :: 0 <= i < |z| && z[i].id == id
  }

  /** Even with a limit of zero the session just registered stays. */
  function Capacity(maxSession: nat): nat {
    if maxSession == 0 then 1 else maxSession
  }

  ghost predicate Sound(r: Store, maxSession: nat) {
    && (forall u :: u in r.sets ==> SetSound(r.sets[u].entries, r.keys, u, r.sets[u].expiresAt, maxSession))
    && (forall id :: id in r.keys ==> r.keys[id].user in r.sets && Lists(r.sets[r.keys[id].user].entries, id))
  }

  // ---------- Sorted sets ----------

  lemma {:induction false} WithoutAbsent(z: seq<Entry>, id: Id)
    requires !Lists(z, id)
    ensures Without(z, id) == z
  {
    if z != [] {
      assert z[0].id != id;
      assert forall i :: 0 <= i < |z| - 1 ==> z[1..][i] == z[i + 1];
      WithoutAbsent(z[1..], id);
    }
  }

  lemma {:induction false} WithoutAt(z: seq<Entry>, i: nat)
    requires i < |z| && Distinct(z)
    ensures Without(z, z[i].id) == z[..i] + z[i + 1..]
  {
    if i == 0 {
      assert !Lists(z[1..], z[0].id) by {
        assert forall j :: 0 <= j < |z| - 1 ==> z[1..][j] == z[j + 1];
      }
      WithoutAbsent(z[1..], z[0].id);
    } else {
      assert z[1..][i - 1] == z[i];
      WithoutAt(z[1..], i - 1);
      assert z[..i] + z[i + 1..] == [z[0]] + (z[1..][..i - 1] + z[1..][i..]);
    }
  }

  /** A new entry goes to the end exactly when it comes after every other in the order of the set. */
  lemma {:induction false} AppendsIff(z: seq<Entry>, e: Entry)
    requires Sorted(z) && !Lists(z, e.id)
    ensures Insert(z, e) == z + [e] <==> forall i :: 0 <= i < |z| ==> Before(z[i], e)
  {
    if z != [] {
      assert z[0].id != e.id;
      if Before(e, z[0]) {
        assert ([e] + z)[0] == e && (z + [e])[0] == z[0];
      } else {
        assert forall i :: 0 <= i < |z| - 1 ==> z[1..][i] == z[i + 1];
        AppendsIff(z[1..], e);
        assert (z + [e])[1..] == z[1..] + [e];
        assert ([z[0]] + Insert(z[1..], e))[1..] == Insert(z[1..], e);
        assert z + [e] == [z[0]] + (z[1..] + [e]);
      }
    }
  }

  /** A new entry keeps the order of the set, wherever it goes. */
  lemma {:induction false} InsertAt(z: seq<Entry>, e: Entry) returns (i: nat)
    requires Sorted(z) && !Lists(z, e.id)
    ensures i <= |z| && Insert(z, e) == z[..i] + [e] + z[i..]
    ensures Sorted(Insert(z, e))
  {
    if z == [] {
      i := 0;
    } else if Before(e, z[0]) {
      i := 0;
      assert z[..0] + [e] + z[0..] == [e] + z;
    } else {
      assert z[0].id != e.id;
      assert forall j :: 0 <= j < |z| - 1 ==> z[1..][j] == z[j + 1];
      var k := InsertAt(z[1..], e);
      i := k + 1;
      assert [z[0]] + (z[1..][..k] + [e] + z[1..][k..]) == z[..i] + [e] + z[i..];
      FrontSorted(z[0], Insert(z[1..], e));
    }
  }

  lemma FrontSorted(a: Entry, z: seq<Entry>)
    requires Sorted(z) && forall j :: 0 <= j < |z| ==> Before(a, z[j])
    ensures Sorted([a] + z)
  {
  }

  lemma SplitDistinct(a: seq<Entry>, e: Entry, b: seq<Entry>)
    requires Distinct(a + b) && !Lists(a + b, e.id)
    ensures Distinct(a + [e] + b)
  {
    var z, after := a + b, a + [e] + b;
    forall j | 0 <= j < |z|
      ensures z[j].id != e.id && z[j] == after[if j < |a| then j else j + 1]
    {
    }
    assert after[|a|] == e;
    forall i, j | 0 <= i < j < |after|
      ensures after[i].id != after[j].id
    {
      assert i != |a| ==> after[i] == z[if i < |a| then i else i - 1];
      assert j != |a| ==> after[j] == z[if j < |a| then j else j - 1];
    }
  }

  /** Nothing is lost and nothing but the entry is added. */
  lemma InsertMembers(z: seq<Entry>, e: Entry)
    requires Sorted(z) && !Lists(z, e.id)
    ensures |Insert(z, e)| == |z| + 1
    ensures forall x :: x in Insert(z, e) <==> x in z || x == e
    ensures Distinct(z) ==> Distinct(Insert(z, e))
  {
    hide Sorted, Lists, Distinct, Insert;
    var i := InsertAt(z, e);
    var a, b := z[..i], z[i..];
    assert z == a + b;
    assert forall x :: x in a + [e] + b <==> x in a || x == e || x in b;
    assert forall x :: x in a + b <==> x in a || x in b;
    if Distinct(z) {
      SplitDistinct(a, e, b);
    }
  }

  // ---------- Queues ----------

  lemma {:induction false} AliveAppend(a: seq<Entry>, b: seq<Entry>, keys: map<Id, RefreshKey>)
    ensures Alive(a + b, keys) == Alive(a, keys) + Alive(b, keys)
  {
    if a == [] {
      assert a + b == b;
    } else {
      assert (a + b)[1..] == a[1..] + b;
      AliveAppend(a[1..], b, keys);
    }
  }

  /** The queue depends only on the keys of the entries. */
  lemma {:induction false} AliveSame(z: seq<Entry>, keys: map<Id, RefreshKey>, keys': map<Id, RefreshKey>)
    requires forall i :: 0 <= i < |z| ==>
               (z[i].id in keys <==> z[i].id in keys') && (z[i].id in keys ==> keys[z[i].id] == keys'[z[i].id])
    ensures Alive(z, keys) == Alive(z, keys')
  {
    if z != [] {
      assert forall i :: 0 <= i < |z| - 1 ==> z[1..][i] == z[i + 1];
      AliveSame(z[1..], keys, keys');
    }
  }

  lemma {:induction false} AliveSize(z: seq<Entry>, keys: map<Id, RefreshKey>)
    ensures |Alive(z, keys)| <= |z|
    ensures (forall i :: 0 <= i < |z| ==> z[i].id in keys) ==> |Alive(z, keys)| == |z|
  {
    if z != [] {
      assert forall i :: 0 <= i < |z| - 1 ==> z[1..][i] == z[i + 1];
      AliveSize(z[1..], keys);
    }
  }

  lemma DeadFirst(z: seq<Entry>, keys: map<Id, RefreshKey>)
    requires z != [] && z[0].id !in keys
    ensures Alive(z, keys) == Alive(z[1..], keys)
    ensures OldestFirst(z, keys) ==> OldestFirst(z[1..], keys)
  {
    assert forall i :: 0 <= i < |z| - 1 ==> z[1..][i] == z[i + 1];
  }

  lemma AllAlive(z: seq<Entry>, keys: map<Id, RefreshKey>)
    requires OldestFirst(z, keys) && z != [] && z[0].id in keys
    ensures forall i :: 0 <= i < |z| ==> z[i].id in keys
  {
  }

  /** Displacing the oldest entries displaces expired ones first, and sessions only when the queue is full. */
  lemma {:induction false} EvictionIsFair(z: seq<Entry>, keys: map<Id, RefreshKey>, maxSession: nat)
    requires OldestFirst(z, keys)
    ensures var q := Alive(z, keys);
            var capacity := Capacity(maxSession);
            Alive(z[Displaced(|z|, maxSession)..], keys) == if |q| >= capacity then q[|q| - capacity + 1..] else q
  {
    hide Alive, OldestFirst;
    var k := Displaced(|z|, maxSession);
    AliveSize(z, keys);
    if k == 0 {
      assert z[0..] == z;
    } else if z[0].id in keys {
      AllAlive(z, keys);
      AliveDrop(z, keys, k);
    } else {
      DeadFirst(z, keys);
      AliveSize(z[1..], keys);
      assert z[1..][k - 1..] == z[k..];
      if k > 1 {
        EvictionIsFair(z[1..], keys, maxSession);
      }
    }
  }

  lemma {:induction false} AliveDrop(z: seq<Entry>, keys: map<Id, RefreshKey>, k: nat)
    requires k <= |z| && forall i :: 0 <= i < |z| ==> z[i].id in keys
    ensures |Alive(z, keys)| == |z| && Alive(z[k..], keys) == Alive(z, keys)[k..]
  {
    AliveSize(z, keys);
    AliveSize(z[..k], keys);
    assert z == z[..k] + z[k..];
    AliveAppend(z[..k], z[k..], keys);
  }

  lemma {:induction false} DroppedAppend(a: seq<Session>, b: seq<Session>, id: Id)
    ensures Dropped(a + b, id) == Dropped(a, id) + Dropped(b, id)
  {
    if a == [] {
      assert a + b == b;
    } else {
      assert (a + b)[1..] == a[1..] + b;
      DroppedAppend(a[1..], b, id);
    }
  }

  lemma {:induction false} AliveWithout(z: seq<Entry>, keys: map<Id, RefreshKey>, id: Id)
    ensures Alive(Without(z, id), keys - {id}) == Dropped(Alive(z, keys), id)
  {
    if z != [] {
      AliveWithout(z[1..], keys, id);
      var head := if z[0].id in keys then [Session(z[0].id, keys[z[0].id].expiresAt)] else [];
      DroppedAppend(head, Alive(z[1..], keys), id);
      assert Alive(z, keys) == head + Alive(z[1..], keys);
      if z[0].id != id {
        assert ([z[0]] + Without(z[1..], id))[1..] == Without(z[1..], id);
      }
    }
  }

  lemma {:induction false} DroppedAbsent(q: seq<Session>, id: Id)
    requires forall s :: s in q ==> s.id != id
    ensures Dropped(q, id) == q
  {
    if q != [] {
      DroppedAbsent(q[1..], id);
    }
  }

  lemma {:induction false} AliveExpired(z: seq<Entry>, keys: map<Id, RefreshKey>, now: Time)
    ensures Alive(z, map id | id in keys && keys[id].expiresAt > now :: keys[id]) == Unexpired(Alive(z, keys), now)
  {
    if z != [] {
      AliveExpired(z[1..], keys, now);
      if z[0].id in keys {
        var head := Session(z[0].id, keys[z[0].id].expiresAt);
        assert Alive(z, keys) == [head] + Alive(z[1..], keys);
        assert Alive(z, keys)[1..] == Alive(z[1..], keys);
      } else {
        assert Alive(z, keys) == Alive(z[1..], keys);
      }
    }
  }

  lemma {:induction false} AllExpired(q: seq<Session>, now: Time)
    requires forall s :: s in q ==> s.expiresAt <= now
    ensures Unexpired(q, now) == []
  {
    if q != [] {
      AllExpired(q[1..], now);
    }
  }

  lemma {:induction false} AliveMembers(z: seq<Entry>, keys: map<Id, RefreshKey>)
    ensures forall s :: s in Alive(z, keys) <==> s.id in keys && s.expiresAt == keys[s.id].expiresAt && Lists(z, s.id)
  {
    if z != [] {
      AliveMembers(z[1..], keys);
      assert forall i :: 0 <= i < |z| - 1 ==> z[1..][i] == z[i + 1];
      assert forall id :: Lists(z, id) <==> z[0].id == id || Lists(z[1..], id);
    }
  }
}
