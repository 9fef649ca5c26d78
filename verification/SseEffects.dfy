/**
  What one step of one instance does to its emitters, to the routing table and
  to what its emitters received.
*/
module SseEffects {
  import opened Entities
  import opened Sse

  ghost predicate NoDup(es: seq<Id>) {
    forall j, k :: 0 <= j < k < |es| ==> es[j] != es[k]
  }

  /** The instance is listed for the user exactly while it holds an emitter of the user. */
  ghost predicate RoutedAt(l: Local, i: Id, user: Id) {
    i in Listed(l.sessions, user) <==> l.node.Of(user) != []
  }

  /** From `l` to `after` the user lost the emitters in `gone`, the table followed, and nothing else happened to either. */
  ghost predicate Shrinks(l: Local, after: Local, i: Id, user: Id, gone: set<Id>) {
    && after.node.messages == l.node.messages
    && after.published == l.published
    && (forall v :: v != user ==> after.node.Of(v) == l.node.Of(v) && Listed(after.sessions, v) == Listed(l.sessions, v))
    && (forall j :: j != i ==> (j in Listed(after.sessions, user) <==> j in Listed(l.sessions, user)))
    && RoutedAt(after, i, user)
    && NoDup(after.node.Of(user))
    && (forall x :: x in after.node.Of(user) <==> x in l.node.Of(user) && x !in gone)
  }

  lemma ShrinksCompose(a: Local, b: Local, c: Local, i: Id, user: Id, gone: set<Id>, more: set<Id>)
    requires Shrinks(a, b, i, user, gone) && Shrinks(b, c, i, user, more)
    ensures Shrinks(a, c, i, user, gone + more)
  {
  }

  lemma {:induction false} RemoveFirstEffect(es: seq<Id>, e: Id)
    requires NoDup(es)
    ensures NoDup(RemoveFirst(es, e))
    ensures forall x :: x in RemoveFirst(es, e) <==> x in es && x != e
  {
    if es != [] {
      assert NoDup(es[1..]) by {
        assert forall k :: 0 <= k < |es| - 1 ==> es[1..][k] == es[k + 1];
      }
      RemoveFirstEffect(es[1..], e);
      assert es == [es[0]] + es[1..];
      assert es[0] !in es[1..];
    }
  }

  lemma DisconnectedShrinks(l: Local, i: Id, e: Id, user: Id)
    requires NoDup(l.node.Of(user)) && RoutedAt(l, i, user)
    ensures Shrinks(l, Disconnected(l, i, e, user), i, user, {e})
    ensures Disconnected(l, i, e, user).delivered == l.delivered
  {
    hide RemoveFirst;
    if user in l.node.emitters {
      RemoveFirstEffect(l.node.emitters[user], e);
    }
    var node := l.node.WithoutEmitter(e, user);
    assert node.Of(user) == if user in l.node.emitters then RemoveFirst(l.node.emitters[user], e) else [];
    assert node.Of(user) != [] ==> node.Of(user)[0] in l.node.Of(user);
  }

  // ---------- One event to many emitters ----------

  function Received(es: seq<Id>, m: Option<Id>, broken: set<Id>): seq<Delivery>
    decreases |es|
  {
    if es == [] || m.None? then []
    else
      var n := |es| - 1;
      Received(es[..n], m, broken) + if es[n] in broken then [] else [Delivery(es[n], m.value)]
  }

  function Broken(es: seq<Id>, broken: set<Id>): set<Id> {
    set e | e in es && e in broken
  }

  lemma BrokenSplit(es: seq<Id>, broken: set<Id>)
    requires es != []
    ensures var n := |es| - 1;
            Broken(es, broken) == Broken(es[..n], broken) + if es[n] in broken then {es[n]} else {}
  {
    assert es == es[..|es| - 1] + [es[|es| - 1]];
  }

  lemma {:induction false} SentToEachShrinks(l: Local, i: Id, es: seq<Id>, user: Id, m: Option<Id>, broken: set<Id>)
    requires NoDup(l.node.Of(user)) && RoutedAt(l, i, user)
    ensures Shrinks(l, SentToEach(l, i, es, user, m, broken), i, user, Broken(es, broken))
    decreases |es|
  {
    hide Disconnected, NoDup, RoutedAt;
    if es == [] {
      NothingShrinks(l, i, user);
      assert Broken(es, broken) == {};
    } else {
      hide Shrinks, Broken;
      var n := |es| - 1;
      SentToEachShrinks(l, i, es[..n], user, m, broken);
      var mid := SentToEach(l, i, es[..n], user, m, broken);
      var gone := Broken(es[..n], broken);
      StillRouted(l, mid, i, user, gone);
      BrokenSplit(es, broken);
      if es[n] in broken {
        DisconnectedShrinks(mid, i, es[n], user);
        ShrinksCompose(l, mid, Disconnected(mid, i, es[n], user), i, user, gone, {es[n]});
      } else {
        SameShrinks(l, mid, SentTo(mid, i, es[n], user, m, true), i, user, gone);
        assert gone + {} == gone;
      }
    }
  }

  lemma {:induction false} SentToEachReceived(l: Local, i: Id, es: seq<Id>, user: Id, m: Option<Id>, broken: set<Id>)
    ensures SentToEach(l, i, es, user, m, broken).delivered == l.delivered + Received(es, m, broken)
    decreases |es|
  {
    if es != [] {
      var n := |es| - 1;
      SentToEachReceived(l, i, es[..n], user, m, broken);
      var before := Received(es[..n], m, broken);
      assert l.delivered + before + [] == l.delivered + before;
      if m.Some? {
        assert l.delivered + before + [Delivery(es[n], m.value)] == l.delivered + (before + [Delivery(es[n], m.value)]);
      }
    }
  }

  lemma SentToEachEffect(l: Local, i: Id, es: seq<Id>, user: Id, m: Option<Id>, broken: set<Id>)
    requires NoDup(l.node.Of(user)) && RoutedAt(l, i, user)
    ensures Shrinks(l, SentToEach(l, i, es, user, m, broken), i, user, Broken(es, broken))
    ensures SentToEach(l, i, es, user, m, broken).delivered == l.delivered + Received(es, m, broken)
  {
    SentToEachShrinks(l, i, es, user, m, broken);
    SentToEachReceived(l, i, es, user, m, broken);
  }

  lemma StillRouted(l: Local, after: Local, i: Id, user: Id, gone: set<Id>)
    requires Shrinks(l, after, i, user, gone)
    ensures NoDup(after.node.Of(user)) && RoutedAt(after, i, user)
  {
  }

  lemma SameShrinks(l: Local, after: Local, after': Local, i: Id, user: Id, gone: set<Id>)
    requires Shrinks(l, after, i, user, gone)
    requires after'.node == after.node && after'.sessions == after.sessions && after'.published == after.published
    ensures Shrinks(l, after', i, user, gone)
  {
  }

  /** Every emitter that takes the event receives it once. */
  lemma {:induction false} ReceivedOnce(es: seq<Id>, m: Id, broken: set<Id>, d: Delivery)
    requires NoDup(es)
    ensures multiset(Received(es, Some(m), broken))[d] ==
            if d.message == m && d.emitter in es && d.emitter !in broken then 1 else 0
    decreases |es|
  {
    if es != [] {
      var n := |es| - 1;
      assert es == es[..n] + [es[n]];
      assert es[n] !in es[..n];
      ReceivedOnce(es[..n], m, broken, d);
    }
  }

  // ---------- Many messages to one emitter ----------

  function ReplayedTo(e: Id, ms: seq<Message>): seq<Delivery>
    decreases |ms|
  {
    if ms == [] then [] else ReplayedTo(e, ms[..|ms| - 1]) + [Delivery(e, ms[|ms| - 1].id)]
  }

  function Prefix(ms: seq<Message>, n: nat): seq<Message> {
    if n < |ms| then ms[..n] else ms
  }

  /** One more message: either it gets through too, or the prefix that did stays. */
  lemma PrefixGrows(ms: seq<Message>, through: nat)
    requires ms != []
    ensures var n := |ms| - 1;
            Prefix(ms, through) == if n < through then Prefix(ms[..n], through) + [ms[n]] else Prefix(ms[..n], through)
  {
    var n := |ms| - 1;
    assert ms == ms[..n] + [ms[n]];
    assert through < n ==> ms[..n][..through] == ms[..through];
  }

  lemma {:induction false} ReplayedShrinks(l: Local, i: Id, e: Id, user: Id, ms: seq<Message>, through: nat)
    requires NoDup(l.node.Of(user)) && RoutedAt(l, i, user)
    ensures Shrinks(l, Replayed(l, i, e, user, ms, through), i, user, if through < |ms| then {e} else {})
    decreases |ms|
  {
    hide Disconnected, NoDup, RoutedAt;
    if ms == [] {
      NothingShrinks(l, i, user);
    } else {
      hide Shrinks;
      var n := |ms| - 1;
      ReplayedShrinks(l, i, e, user, ms[..n], through);
      var mid := Replayed(l, i, e, user, ms[..n], through);
      var gone: set<Id> := if through < n then {e} else {};
      StillRouted(l, mid, i, user, gone);
      if n < through {
        SameShrinks(l, mid, SentTo(mid, i, e, user, Some(ms[n].id), true), i, user, {});
      } else {
        DisconnectedShrinks(mid, i, e, user);
        ShrinksCompose(l, mid, Disconnected(mid, i, e, user), i, user, gone, {e});
        assert gone + {e} == {e};
      }
    }
  }

  lemma {:induction false} ReplayedReceived(l: Local, i: Id, e: Id, user: Id, ms: seq<Message>, through: nat)
    ensures Replayed(l, i, e, user, ms, through).delivered == l.delivered + ReplayedTo(e, Prefix(ms, through))
    decreases |ms|
  {
    if ms == [] {
      assert Prefix(ms, through) == [] && ReplayedTo(e, []) == [];
    } else {
      hide Prefix;
      var n := |ms| - 1;
      PrefixGrows(ms, through);
      ReplayedReceived(l, i, e, user, ms[..n], through);
      if n < through {
        var p := Prefix(ms[..n], through);
        assert (p + [ms[n]])[..|p|] == p;
        assert ReplayedTo(e, p + [ms[n]]) == ReplayedTo(e, p) + [Delivery(e, ms[n].id)];
      }
    }
  }

  lemma ReplayedEffect(l: Local, i: Id, e: Id, user: Id, ms: seq<Message>, through: nat)
    requires NoDup(l.node.Of(user)) && RoutedAt(l, i, user)
    ensures Shrinks(l, Replayed(l, i, e, user, ms, through), i, user, if through < |ms| then {e} else {})
    ensures Replayed(l, i, e, user, ms, through).delivered == l.delivered + ReplayedTo(e, Prefix(ms, through))
  {
    ReplayedShrinks(l, i, e, user, ms, through);
    ReplayedReceived(l, i, e, user, ms, through);
  }

  ghost predicate DistinctIds(ms: seq<Message>) {
    forall j, k :: 0 <= j < k < |ms| ==> ms[j].id != ms[k].id
  }

  predicate HasId(ms: seq<Message>, id: Id) {
    exists k :: 0 <= k < |ms| && ms[k].id == id
  }

  lemma HasIdLast(ms: seq<Message>, id: Id)
    requires ms != [] && DistinctIds(ms)
    ensures var n := |ms| - 1;
            && DistinctIds(ms[..n])
            && (HasId(ms, id) <==> HasId(ms[..n], id) || ms[n].id == id)
            && !(HasId(ms[..n], id) && ms[n].id == id)
  {
    var n := |ms| - 1;
    if HasId(ms, id) {
      var k :| 0 <= k < |ms| && ms[k].id == id;
      assert k < n ==> ms[..n][k].id == id;
    }
    if HasId(ms[..n], id) {
      var k :| 0 <= k < n && ms[..n][k].id == id;
      assert ms[k].id == id;
    }
  }

  lemma {:induction false} ReplayedOnce(e: Id, ms: seq<Message>, d: Delivery)
    requires DistinctIds(ms)
    ensures multiset(ReplayedTo(e, ms))[d] == if d.emitter == e && HasId(ms, d.message) then 1 else 0
    decreases |ms|
  {
    hide DistinctIds, HasId;
    if ms == [] {
      NoIds(d.message);
    } else {
      HasIdLast(ms, d.message);
      ReplayedOnce(e, ms[..|ms| - 1], d);
    }
  }

  lemma NoIds(id: Id)
    ensures !HasId([], id)
  {
  }

  // ---------- A new connection ----------

  /** From `l` to `after` the user may have gained the emitter, and nothing else happened to the emitters and the table. */
  ghost predicate Joins(l: Local, after: Local, i: Id, user: Id, e: Id, stays: bool) {
    && after.node.messages == l.node.messages
    && after.published == l.published
    && (forall v :: v != user ==> after.node.Of(v) == l.node.Of(v) && Listed(after.sessions, v) == Listed(l.sessions, v))
    && (forall j :: j != i ==> (j in Listed(after.sessions, user) <==> j in Listed(l.sessions, user)))
    && RoutedAt(after, i, user)
    && NoDup(after.node.Of(user))
    && (forall x :: x in after.node.Of(user) <==> x in l.node.Of(user) || (x == e && stays))
  }

  function MissedBy(l: Local, user: Id, lastSeen: Option<Id>): seq<Message> {
    if lastSeen.None? then [] else l.node.Missed(user, lastSeen.value)
  }

  lemma ConnectedEffect(l: Local, i: Id, e: Id, user: Id, lastSeen: Option<Id>, ok: bool, through: nat)
    requires NoDup(l.node.Of(user)) && e !in l.node.Of(user)
    ensures var after := Connected(l, i, e, user, lastSeen, ok, through);
            var missed := MissedBy(l, user, lastSeen);
            && after.delivered == l.delivered + ReplayedTo(e, Prefix(missed, if ok then through else 0))
            && Joins(l, after, i, user, e, ok && |missed| <= through)
  {
    hide Disconnected, Shrinks, Joins;
    var l1 := l.(node := l.node.WithEmitter(e, user), sessions := WithSession(l.sessions, user, i));
    assert l1.node.Of(user) == l.node.Of(user) + [e];
    var l2 := SentTo(l1, i, e, user, None, ok);
    var missed := MissedBy(l, user, lastSeen);
    var n := if ok then through else 0;
    var gone: set<Id> := if ok then {} else {e};
    if ok {
      NothingShrinks(l1, i, user);
    } else {
      DisconnectedShrinks(l1, i, e, user);
    }
    StillRouted(l1, l2, i, user, gone);
    SameMessages(l1, l2, i, user, gone);
    assert Prefix([], n) == [] && ReplayedTo(e, []) == [];
    var after := Connected(l, i, e, user, lastSeen, ok, through);
    if lastSeen.Some? {
      ReplayedEffect(l2, i, e, user, missed, n);
      var lost: set<Id> := if n < |missed| then {e} else {};
      ShrinksCompose(l1, l2, after, i, user, gone, lost);
      JoinThenShrink(l, l1, after, i, user, e, gone + lost);
    } else {
      JoinThenShrink(l, l1, after, i, user, e, gone);
    }
  }

  lemma NothingShrinks(l: Local, i: Id, user: Id)
    requires NoDup(l.node.Of(user)) && RoutedAt(l, i, user)
    ensures Shrinks(l, l, i, user, {})
  {
  }

  lemma SameMessages(l: Local, after: Local, i: Id, user: Id, gone: set<Id>)
    requires Shrinks(l, after, i, user, gone)
    ensures after.node.messages == l.node.messages
  {
  }

  lemma JoinThenShrink(l: Local, l1: Local, after: Local, i: Id, user: Id, e: Id, gone: set<Id>)
    requires l1 == l.(node := l.node.WithEmitter(e, user), sessions := WithSession(l.sessions, user, i))
    requires Shrinks(l1, after, i, user, gone) && gone <= {e} && e !in l.node.Of(user)
    ensures Joins(l, after, i, user, e, gone == {})
  {
    assert l1.node.Of(user) == l.node.Of(user) + [e];
  }

  // ---------- A send, whatever the table says ----------

  lemma {:induction false} SentToEachPublishes(l: Local, i: Id, es: seq<Id>, user: Id, m: Option<Id>, broken: set<Id>)
    ensures SentToEach(l, i, es, user, m, broken).published == l.published
    decreases |es|
  {
    if es != [] {
      SentToEachPublishes(l, i, es[..|es| - 1], user, m, broken);
    }
  }

  /**
    A send reaches every emitter of the user on this instance that does not break
    off, even if the table does not list the instance, and publishes one parcel for
    each other instance listed.
  */
  lemma SentExactly(l: Local, i: Id, user: Id, m: Message, broken: set<Id>)
    ensures var after := Sent(l, i, user, m, broken);
            && after.delivered == l.delivered + Received(l.node.Of(user), Some(m.id), broken)
            && after.published ==
               l.published + multiset(set j | j in Listed(l.sessions, user) && j != i :: Parcel(j, user, m))
  {
    var es := l.node.Of(user);
    var kept := Kept(l, user, m);
    assert kept.node.Of(user) == es;
    SentToEachReceived(kept, i, es, user, Some(m.id), broken);
    SentToEachPublishes(kept, i, es, user, Some(m.id), broken);
    assert Received([], Some(m.id), broken) == [];
    assert ParcelsFor(Listed(l.sessions, user) - {i}, user, m) ==
           set j | j in Listed(l.sessions, user) && j != i :: Parcel(j, user, m);
  }

  // ---------- No empty keys ----------

  /** No user is a key without an emitter, and none a key of the table without an instance. */
  ghost predicate NoEmptyKeys(l: Local) {
    && (forall u :: u in l.node.emitters ==> l.node.emitters[u] != [])
    && (forall u :: u in l.sessions ==> l.sessions[u] != {})
  }

  lemma DisconnectedKeys(l: Local, i: Id, e: Id, user: Id)
    requires NoEmptyKeys(l)
    ensures NoEmptyKeys(Disconnected(l, i, e, user))
  {
  }

  lemma {:induction false} SentToEachKeys(l: Local, i: Id, es: seq<Id>, user: Id, m: Option<Id>, broken: set<Id>)
    requires NoEmptyKeys(l)
    ensures NoEmptyKeys(SentToEach(l, i, es, user, m, broken))
    decreases |es|
  {
    if es != [] {
      var n := |es| - 1;
      SentToEachKeys(l, i, es[..n], user, m, broken);
      DisconnectedKeys(SentToEach(l, i, es[..n], user, m, broken), i, es[n], user);
    }
  }

  lemma {:induction false} ReplayedKeys(l: Local, i: Id, e: Id, user: Id, ms: seq<Message>, through: nat)
    requires NoEmptyKeys(l)
    ensures NoEmptyKeys(Replayed(l, i, e, user, ms, through))
    decreases |ms|
  {
    if ms != [] {
      var n := |ms| - 1;
      ReplayedKeys(l, i, e, user, ms[..n], through);
      DisconnectedKeys(Replayed(l, i, e, user, ms[..n], through), i, e, user);
    }
  }

  lemma ConnectedKeys(l: Local, i: Id, e: Id, user: Id, lastSeen: Option<Id>, ok: bool, through: nat)
    requires NoEmptyKeys(l)
    ensures NoEmptyKeys(Connected(l, i, e, user, lastSeen, ok, through))
  {
    hide Disconnected, Replayed;
    var l1 := l.(node := l.node.WithEmitter(e, user), sessions := WithSession(l.sessions, user, i));
    assert i in l1.sessions[user];
    DisconnectedKeys(l1, i, e, user);
    var l2 := SentTo(l1, i, e, user, None, ok);
    if lastSeen.Some? {
      ReplayedKeys(l2, i, e, user, l2.node.Missed(user, lastSeen.value), if ok then through else 0);
    }
  }
}
