/**
  Every step of the cluster keeps its invariant, and what follows for runs.
*/
module SseRuns {
  import opened Entities
  import opened Sse
  import opened SseEffects
  import opened SseCluster

  // ---------- Parts of a step ----------

  lemma MoreDeliveries(c: Cluster, after: Cluster, ds: seq<Delivery>)
    requires DeliveriesSound(c) && after.delivered == c.delivered + ds
    requires forall e :: e in c.home ==> e in after.home && after.home[e] == c.home[e]
    requires forall m :: m in c.origin ==> m in after.origin && after.origin[m] == c.origin[m]
    requires forall d :: multiset(ds)[d] <= 1
    requires forall d :: d in ds ==>
               && d !in c.delivered
               && d.emitter in after.home && d.message in after.origin
               && after.home[d.emitter].user == after.origin[d.message].user
    ensures DeliveriesSound(after)
  {
    forall d
      ensures multiset(after.delivered)[d] <= 1
    {
      assert multiset(after.delivered) == multiset(c.delivered) + multiset(ds);
      if d in ds {
        assert d !in multiset(c.delivered);
      } else {
        assert d !in multiset(ds);
      }
    }
  }

  lemma SameHistory(c: Cluster, after: Cluster)
    requires HistorySound(c)
    requires forall m :: m in c.origin ==> m in after.origin && after.origin[m] == c.origin[m]
    requires forall j, u :: after.At(j).History(u) == c.At(j).History(u)
    ensures HistorySound(after)
  {
    forall i, u
      ensures DistinctIds(after.At(i).History(u))
      ensures forall m :: m in after.At(i).History(u) ==> m.id in after.origin && after.origin[m.id] == Place(i, u)
    {
      assert after.At(i).History(u) == c.At(i).History(u);
    }
  }

  // ---------- Disconnecting and pinging ----------

  /** Fewer emitters online, and the same or more deliveries, with the channel as before. */
  lemma FewerOnline(c: Cluster, after: Cluster)
    requires AudienceSound(c) && after.channel == c.channel
    requires after.home == c.home && after.origin == c.origin && after.audience == c.audience
    requires after.delivered == c.delivered
    requires forall x :: after.Online(x) ==> c.Online(x)
    ensures AudienceSound(after)
  {
    hide Cluster.Online;
    forall m, e | m in after.audience && e in after.audience[m] && after.Online(e)
      ensures Delivery(e, m) in after.delivered || OnItsWay(after, after.home[e].instance, m)
    {
      assert c.Online(e);
      if p :| p in c.channel && p.target == c.home[e].instance && p.message.id == m {
        assert p in after.channel;
      }
    }
  }

  lemma SameDeliveries(c: Cluster, after: Cluster)
    requires DeliveriesSound(c) && ChannelSound(c)
    requires after.channel == c.channel && after.delivered == c.delivered && after.home == c.home && after.origin == c.origin
    ensures DeliveriesSound(after) && ChannelSound(after)
  {
  }

  lemma ShrinkSound(c: Cluster, i: Id, user: Id, l: Local, gone: set<Id>)
    requires Inv(c) && Shrinks(c.LocalOf(i), l, i, user, gone) && l.delivered == c.delivered && l.published == c.channel
    ensures Inv(c.With(i, l))
  {
    hide TableSound, HistorySound, DeliveriesSound, ChannelSound, AudienceSound, Shrinks, Cluster.Online;
    var after := c.With(i, l);
    ShrinkTable(c, i, user, l, gone);
    SameHistory(c, after);
    FewerOnline(c, after);
    SameDeliveries(c, after);
  }

  lemma ShrinkPublished(l: Local, after: Local, i: Id, user: Id, gone: set<Id>)
    requires Shrinks(l, after, i, user, gone)
    ensures after.published == l.published
  {
  }

  lemma DisconnectSound(c: Cluster, e: Id)
    requires Inv(c)
    ensures Inv(Step(c, Disconnect(e)))
  {
    hide TableSound, DeliveriesSound, ChannelSound, HistorySound, AudienceSound, Shrinks, Disconnected;
    if e in c.home {
      var i, user := c.home[e].instance, c.home[e].user;
      TableAt(c, i, user);
      DisconnectedShrinks(c.LocalOf(i), i, e, user);
      ShrinkPublished(c.LocalOf(i), Disconnected(c.LocalOf(i), i, e, user), i, user, {e});
      ShrinkSound(c, i, user, Disconnected(c.LocalOf(i), i, e, user), {e});
    }
  }

  lemma HeartbeatSound(c: Cluster, i: Id, user: Id, broken: set<Id>)
    requires Inv(c)
    ensures Inv(Step(c, Heartbeat(i, user, broken)))
  {
    hide TableSound, DeliveriesSound, ChannelSound, HistorySound, AudienceSound, Shrinks, SentToEach;
    var es := c.At(i).Of(user);
    TableAt(c, i, user);
    SentToEachEffect(c.LocalOf(i), i, es, user, None, broken);
    var l := SentToEach(c.LocalOf(i), i, es, user, None, broken);
    ShrinkPublished(c.LocalOf(i), l, i, user, Broken(es, broken));
    ShrinkSound(c, i, user, l, Broken(es, broken));
  }

  // ---------- Connecting ----------

  lemma {:induction false} DropDistinct(h: seq<Message>, n: nat)
    requires DistinctIds(h) && n <= |h|
    ensures DistinctIds(h[n..]) && DistinctIds(h[..n])
  {
  }

  lemma MissedSound(c: Cluster, i: Id, user: Id, lastSeen: Option<Id>, n: nat)
    requires HistorySound(c)
    ensures var ms := Prefix(MissedBy(c.LocalOf(i), user, lastSeen), n);
            && DistinctIds(ms)
            && forall m :: m in ms ==> m.id in c.origin && c.origin[m.id] == Place(i, user)
  {
    var h := c.At(i).History(user);
    var missed := MissedBy(c.LocalOf(i), user, lastSeen);
    if lastSeen.Some? {
      DropDistinct(h, SeenUpTo(h, lastSeen.value));
      assert forall m :: m in missed ==> m in h;
    }
    if n < |missed| {
      DropDistinct(missed, n);
    }
  }

  lemma ReplayedOnlyTo(e: Id, ms: seq<Message>, d: Delivery)
    requires DistinctIds(ms) && d in ReplayedTo(e, ms)
    ensures d.emitter == e && exists m :: m in ms && m.id == d.message
  {
    ReplayedOnce(e, ms, d);
    assert multiset(ReplayedTo(e, ms))[d] > 0;
    var k :| 0 <= k < |ms| && ms[k].id == d.message;
    assert ms[k] in ms;
  }

  lemma ConnectSound(c: Cluster, i: Id, user: Id, e: Id, lastSeen: Option<Id>, ok: bool, through: nat)
    requires Inv(c)
    ensures Inv(Step(c, Connect(i, user, e, lastSeen, ok, through)))
  {
    hide Connected, Joins, ReplayedTo, Prefix, MissedBy;
    if e !in c.home {
      var l := Connected(c.LocalOf(i), i, e, user, lastSeen, ok, through);
      var ms := Prefix(MissedBy(c.LocalOf(i), user, lastSeen), if ok then through else 0);
      ConnectPremises(c, i, user, e);
      ConnectedEffect(c.LocalOf(i), i, e, user, lastSeen, ok, through);
      MissedSound(c, i, user, lastSeen, if ok then through else 0);
      var stays := ok && |MissedBy(c.LocalOf(i), user, lastSeen)| <= through;
      SamePublished(c.LocalOf(i), l, i, user, e, stays);
      JoinSound(c, i, user, e, l, ms, stays);
    }
  }

  lemma ConnectPremises(c: Cluster, i: Id, user: Id, e: Id)
    requires TableSound(c) && e !in c.home
    ensures NoDup(c.At(i).Of(user)) && e !in c.At(i).Of(user)
  {
  }

  lemma SamePublished(l: Local, after: Local, i: Id, user: Id, e: Id, stays: bool)
    requires Joins(l, after, i, user, e, stays)
    ensures after.published == l.published
  {
  }

  lemma JoinSound(c: Cluster, i: Id, user: Id, e: Id, l: Local, ms: seq<Message>, stays: bool)
    requires Inv(c) && e !in c.home
    requires Joins(c.LocalOf(i), l, i, user, e, stays)
    requires l.published == c.channel && l.delivered == c.delivered + ReplayedTo(e, ms)
    requires DistinctIds(ms) && forall m :: m in ms ==> m.id in c.origin && c.origin[m.id] == Place(i, user)
    ensures Inv(c.With(i, l).(home := c.home[e := Place(i, user)]))
  {
    hide Joins, ReplayedTo, DistinctIds, TableSound, HistorySound;
    var after := c.With(i, l).(home := c.home[e := Place(i, user)]);
    JoinTable(c, i, user, l, e, stays);
    JoinEmitters(c, i, user, l, e, stays);
    assert forall j :: after.At(j) == c.With(i, l).At(j);
    SameHistory(c, after);
    forall d
      ensures multiset(ReplayedTo(e, ms))[d] <= 1
    {
      ReplayedOnce(e, ms, d);
    }
    forall d | d in ReplayedTo(e, ms)
      ensures d.emitter == e && d.message in c.origin && c.origin[d.message] == Place(i, user)
    {
      ReplayedOnlyTo(e, ms, d);
    }
    MoreDeliveries(c, after, ReplayedTo(e, ms));
    JoinChannel(c, after, i, user, e, ReplayedTo(e, ms));
    JoinAudience(c, after, e);
  }

  lemma JoinChannel(c: Cluster, after: Cluster, i: Id, user: Id, e: Id, ds: seq<Delivery>)
    requires ChannelSound(c) && DeliveriesSound(c) && after.channel == c.channel && after.origin == c.origin
    requires e !in c.home && after.home == c.home[e := Place(i, user)] && after.delivered == c.delivered + ds
    requires forall d :: d in ds ==> d.emitter == e && d.message in c.origin && c.origin[d.message] == Place(i, user)
    ensures ChannelSound(after)
  {
  }

  lemma JoinAudience(c: Cluster, after: Cluster, e: Id)
    requires AudienceSound(c) && after.channel == c.channel && after.origin == c.origin && after.audience == c.audience
    requires e !in c.home && after.home.Keys == c.home.Keys + {e} && forall x :: x in c.home ==> after.home[x] == c.home[x]
    requires forall x :: x != e && after.Online(x) ==> c.Online(x)
    requires forall d :: d in c.delivered ==> d in after.delivered
    ensures AudienceSound(after)
  {
    hide Cluster.Online;
    forall m, x | m in after.audience && x in after.audience[m] && after.Online(x)
      ensures Delivery(x, m) in after.delivered || OnItsWay(after, after.home[x].instance, m)
    {
      assert x in c.home;
    }
  }

  // ---------- Sending ----------

  /** An event goes to every emitter that does not break, once each. */
  lemma ReceivedEach(es: seq<Id>, m: Id, broken: set<Id>)
    requires NoDup(es)
    ensures forall d :: multiset(Received(es, Some(m), broken))[d] <= 1
    ensures forall d :: d in Received(es, Some(m), broken) <==> d.message == m && d.emitter in es && d.emitter !in broken
  {
    forall d
      ensures multiset(Received(es, Some(m), broken))[d] ==
              if d.message == m && d.emitter in es && d.emitter !in broken then 1 else 0
      ensures d in Received(es, Some(m), broken) <==> multiset(Received(es, Some(m), broken))[d] > 0
    {
      ReceivedOnce(es, m, broken, d);
    }
  }

  /** The cluster with the message kept for replay and nothing sent yet. */
  function KeptAt(c: Cluster, i: Id, user: Id, m: Message): Cluster {
    c.With(i, Kept(c.LocalOf(i), user, m))
  }

  function Parcels(c: Cluster, i: Id, user: Id, m: Message): set<Parcel> {
    ParcelsFor(Listed(c.sessions, user) - {i}, user, m)
  }

  lemma SentEffect(c: Cluster, i: Id, user: Id, m: Message, broken: set<Id>)
    requires TableSound(c)
    ensures var es := c.At(i).Of(user);
            var l1 := KeptAt(c, i, user, m).LocalOf(i);
            var l2 := SentLocally(l1, i, user, m.id, broken);
            && l1.node.Of(user) == es
            && Shrinks(l1, l2, i, user, Broken(es, broken))
            && l2.delivered == c.delivered + Received(es, Some(m.id), broken)
            && Sent(c.LocalOf(i), i, user, m, broken) == l2.(published := c.channel + multiset(Parcels(c, i, user, m)))
  {
    hide TableSound, NoDup, Shrinks;
    TableAt(c, i, user);
    var es := c.At(i).Of(user);
    var l1 := KeptAt(c, i, user, m).LocalOf(i);
    assert l1 == c.LocalOf(i).(node := c.At(i).WithMessage(m, user));
    SentToEachEffect(l1, i, es, user, Some(m.id), broken);
    ShrinkPublished(l1, SentLocally(l1, i, user, m.id, broken), i, user, Broken(es, broken));
  }

  lemma KeptTable(c: Cluster, i: Id, user: Id, m: Message)
    requires TableSound(c)
    ensures TableSound(KeptAt(c, i, user, m))
    ensures forall e :: KeptAt(c, i, user, m).Online(e) <==> c.Online(e)
  {
    hide Last;
    var after := KeptAt(c, i, user, m);
    assert forall j, u :: after.At(j).Of(u) == c.At(j).Of(u);
  }

  lemma LastDistinct(h: seq<Message>, m: Message)
    requires DistinctIds(h) && forall x :: x in h ==> x.id != m.id
    ensures DistinctIds(Last(h + [m], MAX_MESSAGE_HISTORY))
    ensures forall x :: x in Last(h + [m], MAX_MESSAGE_HISTORY) ==> x in h || x == m
  {
    var all := h + [m];
    assert DistinctIds(all);
    var n := if |all| <= MAX_MESSAGE_HISTORY then 0 else |all| - MAX_MESSAGE_HISTORY;
    assert Last(all, MAX_MESSAGE_HISTORY) == all[n..];
    DropDistinct(all, n);
  }

  lemma SendHistory(c: Cluster, after: Cluster, i: Id, user: Id, m: Message)
    requires HistorySound(c) && m.id !in c.origin && after.origin == c.origin[m.id := Place(i, user)]
    requires forall j, u :: after.At(j).History(u) == KeptAt(c, i, user, m).At(j).History(u)
    ensures HistorySound(after)
  {
    hide Last, DistinctIds;
    LastDistinctAt(c, i, user, m);
    forall j, u
      ensures DistinctIds(after.At(j).History(u))
      ensures forall x :: x in after.At(j).History(u) ==> x.id in after.origin && after.origin[x.id] == Place(j, u)
    {
      var h := KeptAt(c, i, user, m).At(j).History(u);
      if j == i && u == user {
        assert h == Last(c.At(i).History(user) + [m], MAX_MESSAGE_HISTORY);
      } else {
        assert h == c.At(j).History(u);
      }
    }
  }

  lemma LastDistinctAt(c: Cluster, i: Id, user: Id, m: Message)
    requires HistorySound(c) && m.id !in c.origin
    ensures var h := Last(c.At(i).History(user) + [m], MAX_MESSAGE_HISTORY);
            && DistinctIds(h)
            && forall x :: x in h ==> x == m || (x.id in c.origin && c.origin[x.id] == Place(i, user))
  {
    hide Last, DistinctIds;
    LastDistinct(c.At(i).History(user), m);
  }

  lemma SendChannel(c: Cluster, after: Cluster, i: Id, user: Id, m: Message, ds: seq<Delivery>)
    requires ChannelSound(c) && DeliveriesSound(c) && m.id !in c.origin
    requires after.channel == c.channel + multiset(Parcels(c, i, user, m))
    requires after.home == c.home && after.origin == c.origin[m.id := Place(i, user)]
    requires after.delivered == c.delivered + ds
    requires forall d :: d in ds ==> d.message == m.id && d.emitter in c.home && c.home[d.emitter].instance == i
    ensures ChannelSound(after)
  {
    var sent := Parcels(c, i, user, m);
    forall p
      ensures after.channel[p] == c.channel[p] + if p in sent then 1 else 0
      ensures p in after.channel ==> p in c.channel || p in sent
      ensures p in sent ==> p.target != i && p.user == user && p.message == m && p !in c.channel
    {
    }
  }

  lemma SendAudience(c: Cluster, after: Cluster, i: Id, user: Id, m: Message, broken: set<Id>)
    requires AudienceSound(c) && TableSound(c) && m.id !in c.origin
    requires after.channel == c.channel + multiset(Parcels(c, i, user, m))
    requires after.home == c.home && after.origin == c.origin[m.id := Place(i, user)]
    requires after.audience == c.audience[m.id := c.OnlineFor(user)]
    requires forall d :: d in c.delivered ==> d in after.delivered
    requires forall e :: e in c.At(i).Of(user) && e !in broken ==> Delivery(e, m.id) in after.delivered
    requires forall x :: after.Online(x) ==> c.Online(x)
    requires forall e :: e in c.home && c.home[e] == Place(i, user) && e in c.At(i).Of(user) && e in broken ==> !after.Online(e)
    ensures AudienceSound(after)
  {
    forall x, e | x in after.audience && e in after.audience[x] && after.Online(e)
      ensures Delivery(e, x) in after.delivered || OnItsWay(after, after.home[e].instance, x)
    {
      if x == m.id {
        ReachesOnline(c, after, i, user, m, broken, e);
      } else if p :| p in c.channel && p.target == c.home[e].instance && p.message.id == x {
        assert p in after.channel;
      }
    }
  }

  lemma ReachesOnline(c: Cluster, after: Cluster, i: Id, user: Id, m: Message, broken: set<Id>, e: Id)
    requires TableSound(c) && e in c.OnlineFor(user) && after.Online(e)
    requires after.channel == c.channel + multiset(Parcels(c, i, user, m)) && after.home == c.home
    requires forall e :: e in c.At(i).Of(user) && e !in broken ==> Delivery(e, m.id) in after.delivered
    requires forall e :: e in c.home && c.home[e] == Place(i, user) && e in c.At(i).Of(user) && e in broken ==> !after.Online(e)
    ensures Delivery(e, m.id) in after.delivered || OnItsWay(after, after.home[e].instance, m.id)
  {
    var j := c.home[e].instance;
    if j != i {
      assert c.At(j).Of(user) != [];
      assert j in Listed(c.sessions, user);
      assert Parcel(j, user, m) in Parcels(c, i, user, m);
      assert Parcel(j, user, m) in after.channel;
    } else {
      assert c.home[e] == Place(i, user);
    }
  }

  /** What a send does, but for the channel. */
  lemma SendFacts(c: Cluster, i: Id, user: Id, m: Message, broken: set<Id>)
    requires TableSound(c) && m.id !in c.origin
    ensures var after := Step(c, Send(i, user, m, broken));
            && TableSound(after)
            && after.home == c.home && after.origin == c.origin[m.id := Place(i, user)]
            && after.audience == c.audience[m.id := c.OnlineFor(user)]
            && after.channel == c.channel + multiset(Parcels(c, i, user, m))
            && after.delivered == c.delivered + Received(c.At(i).Of(user), Some(m.id), broken)
            && (forall x :: after.Online(x) ==> c.Online(x))
            && (forall e :: e in c.home && c.home[e] == Place(i, user) && e in c.At(i).Of(user) && e in broken ==>
                  !after.Online(e))
            && (forall j, u :: after.At(j).History(u) == KeptAt(c, i, user, m).At(j).History(u))
  {
    hide TableSound, Shrinks, Sent, SentLocally, Received, Parcels, Cluster.Online, NoDup, Node.WithMessage;
    var after := Step(c, Send(i, user, m, broken));
    var es := c.At(i).Of(user);
    SentEffect(c, i, user, m, broken);
    KeptTable(c, i, user, m);
    var kept := KeptAt(c, i, user, m);
    var l2 := SentLocally(kept.LocalOf(i), i, user, m.id, broken);
    ShrinkTable(kept, i, user, l2, Broken(es, broken));
    SameTable(kept.With(i, l2), after);
  }

  lemma SendSound(c: Cluster, i: Id, user: Id, m: Message, broken: set<Id>)
    requires Inv(c)
    ensures Inv(Step(c, Send(i, user, m, broken)))
  {
    hide TableSound, DeliveriesSound, ChannelSound, HistorySound, AudienceSound;
    hide Step, Received, Parcels, Cluster.Online, Cluster.OnlineFor, KeptAt, NoDup;
    if m.id !in c.origin {
      var after := Step(c, Send(i, user, m, broken));
      var es := c.At(i).Of(user);
      var ds := Received(es, Some(m.id), broken);
      TableAt(c, i, user);
      HomeOf(c, i, user);
      ReceivedEach(es, m.id, broken);
      SendFacts(c, i, user, m, broken);
      NoneOfNew(c, m.id);
      MoreDeliveries(c, after, ds);
      SendHistory(c, after, i, user, m);
      SendChannel(c, after, i, user, m, ds);
      SendAudience(c, after, i, user, m, broken);
    } else {
      SentBefore(c, i, user, m, broken);
    }
  }

  lemma SentBefore(c: Cluster, i: Id, user: Id, m: Message, broken: set<Id>)
    requires m.id in c.origin
    ensures Step(c, Send(i, user, m, broken)) == c
  {
  }

  lemma HomeOf(c: Cluster, i: Id, user: Id)
    requires TableSound(c)
    ensures forall e :: e in c.At(i).Of(user) ==> e in c.home && c.home[e] == Place(i, user)
  {
  }

  lemma NoneOfNew(c: Cluster, m: Id)
    requires DeliveriesSound(c) && m !in c.origin
    ensures forall d :: d in c.delivered ==> d.message != m
  {
  }

  /** Emitters and table do not depend on messages. */
  lemma SameTable(c: Cluster, after: Cluster)
    requires TableSound(c) && after.nodes == c.nodes && after.sessions == c.sessions && after.home == c.home
    ensures TableSound(after)
    ensures forall e :: after.Online(e) <==> c.Online(e)
    ensures forall j, u :: after.At(j).History(u) == c.At(j).History(u)
  {
    assert forall j :: after.At(j) == c.At(j);
  }

  // ---------- Receiving ----------

  lemma ReceiveChannel(c: Cluster, after: Cluster, p: Parcel, ds: seq<Delivery>)
    requires ChannelSound(c) && p in c.channel && after.channel == c.channel - multiset{p}
    requires after.home == c.home && after.origin == c.origin && after.delivered == c.delivered + ds
    requires forall d :: d in ds ==> d.message == p.message.id && d.emitter in c.home && c.home[d.emitter].instance == p.target
    ensures ChannelSound(after)
  {
    forall q | q in after.channel
      ensures q in c.channel && q != p && after.channel[q] == c.channel[q]
    {
      assert c.channel[p] == 1;
    }
  }

  lemma ReceiveAudience(c: Cluster, after: Cluster, p: Parcel, broken: set<Id>)
    requires AudienceSound(c) && p.message.id in c.origin && c.origin[p.message.id].user == p.user
    requires p in c.channel && after.channel == c.channel - multiset{p}
    requires after.home == c.home && after.origin == c.origin && after.audience == c.audience
    requires forall d :: d in c.delivered ==> d in after.delivered
    requires forall e :: e in c.At(p.target).Of(p.user) && e !in broken ==> Delivery(e, p.message.id) in after.delivered
    requires forall x :: after.Online(x) ==> c.Online(x)
    requires forall e :: e in c.home && c.home[e] == Place(p.target, p.user) && e in c.At(p.target).Of(p.user) && e in broken ==>
                           !after.Online(e)
    ensures AudienceSound(after)
  {
    forall x, e | x in after.audience && e in after.audience[x] && after.Online(e)
      ensures Delivery(e, x) in after.delivered || OnItsWay(after, after.home[e].instance, x)
    {
      if Delivery(e, x) !in c.delivered {
        var q :| q in c.channel && q.target == c.home[e].instance && q.message.id == x;
        if q == p {
          assert c.home[e] == Place(p.target, p.user);
        } else {
          assert q in after.channel;
        }
      }
    }
  }

  lemma ParcelFacts(c: Cluster, p: Parcel)
    requires ChannelSound(c) && p in c.channel
    ensures p.message.id in c.origin && c.origin[p.message.id].user == p.user
    ensures forall d :: d in c.delivered && d.message == p.message.id && d.emitter in c.home ==>
                          c.home[d.emitter].instance != p.target
  {
  }

  lemma ReceiveSound(c: Cluster, p: Parcel, broken: set<Id>)
    requires Inv(c)
    ensures Inv(Step(c, Receive(p, broken)))
  {
    hide TableSound, DeliveriesSound, ChannelSound, HistorySound, AudienceSound;
    hide Shrinks, SentToEach, Received, Cluster.Online, NoDup;
    if p in c.channel {
      var i, user, m := p.target, p.user, p.message.id;
      var after := Step(c, Receive(p, broken));
      var c1 := c.(channel := c.channel - multiset{p});
      SameTable(c, c1);
      var es := c.At(i).Of(user);
      var ds := Received(es, Some(m), broken);
      TableAt(c1, i, user);
      HomeOf(c, i, user);
      ReceivedEach(es, m, broken);
      SentToEachEffect(c1.LocalOf(i), i, es, user, Some(m), broken);
      var l := SentLocally(c1.LocalOf(i), i, user, m, broken);
      ShrinkPublished(c1.LocalOf(i), l, i, user, Broken(es, broken));
      ShrinkTable(c1, i, user, l, Broken(es, broken));
      ParcelFacts(c, p);
      MoreDeliveries(c, after, ds);
      SameHistory(c, after);
      ReceiveChannel(c, after, p, ds);
      ReceiveAudience(c, after, p, broken);
    }
  }

  // ---------- Runs ----------

  lemma StepSound(c: Cluster, a: Action)
    requires Inv(c)
    ensures Inv(Step(c, a))
  {
    hide Inv, Step;
    match a
    case Connect(i, user, e, lastSeen, ok, through) => ConnectSound(c, i, user, e, lastSeen, ok, through);
    case Disconnect(e) => DisconnectSound(c, e);
    case Send(i, user, m, broken) => SendSound(c, i, user, m, broken);
    case Receive(p, broken) => ReceiveSound(c, p, broken);
    case Heartbeat(i, user, broken) => HeartbeatSound(c, i, user, broken);
  }

  lemma {:induction false} RunSound(c: Cluster, acts: seq<Action>)
    requires Inv(c)
    ensures Inv(Exec(c, acts))
    decreases |acts|
  {
    hide Inv, Step;
    if acts != [] {
      StepSound(c, acts[0]);
      RunSound(Step(c, acts[0]), acts[1..]);
    }
  }

  lemma StartSound()
    ensures Inv(NO_CLUSTER)
  {
  }

  /** In every reachable state an instance is listed for a user exactly while it holds an emitter of the user. */
  lemma RoutingIsExact(acts: seq<Action>, i: Id, user: Id)
    ensures var c := Exec(NO_CLUSTER, acts); i in Listed(c.sessions, user) <==> c.At(i).Of(user) != []
  {
    hide Exec, DeliveriesSound, ChannelSound, HistorySound, AudienceSound;
    StartSound();
    RunSound(NO_CLUSTER, acts);
  }

  /** How often an emitter received a message. */
  ghost function Receipts(c: Cluster, e: Id, m: Id): nat {
    multiset(c.delivered)[Delivery(e, m)]
  }

  /**
    No emitter ever receives a message twice, by any combination of local send,
    forwarding and replay, nor a message for another user. And whoever was
    connected when it was sent, on whichever instance, and still is once no
    parcel of it is under way to that instance, has received it exactly once.
  */
  lemma ExactlyOnceFanOut(acts: seq<Action>, e: Id, m: Id)
    ensures var c := Exec(NO_CLUSTER, acts);
            && Receipts(c, e, m) <= 1
            && (Receipts(c, e, m) == 1 ==> e in c.home && m in c.origin && c.home[e].user == c.origin[m].user)
            && (m in c.audience && e in c.audience[m] && c.Online(e) && !OnItsWay(c, c.home[e].instance, m) ==>
                  Receipts(c, e, m) == 1)
  {
    hide Exec, TableSound, ChannelSound, HistorySound, OnItsWay, Cluster.Online;
    StartSound();
    RunSound(NO_CLUSTER, acts);
    var c := Exec(NO_CLUSTER, acts);
    var d := Delivery(e, m);
    assert d in c.delivered <==> multiset(c.delivered)[d] > 0;
  }

  // ---------- No empty keys ----------

  ghost predicate KeysUsed(c: Cluster) {
    forall i :: NoEmptyKeys(c.LocalOf(i))
  }

  lemma WithKeys(c: Cluster, j: Id, l: Local)
    requires KeysUsed(c) && NoEmptyKeys(l)
    ensures forall after: Cluster :: after.nodes == c.With(j, l).nodes && after.sessions == l.sessions ==> KeysUsed(after)
  {
    forall after: Cluster, i | after.nodes == c.With(j, l).nodes && after.sessions == l.sessions
      ensures NoEmptyKeys(after.LocalOf(i))
    {
      assert NoEmptyKeys(c.LocalOf(i));
    }
  }

  lemma StepKeysUsed(c: Cluster, a: Action)
    requires KeysUsed(c)
    ensures KeysUsed(Step(c, a))
  {
    hide NoEmptyKeys, Connected, Disconnected, Sent, SentLocally, SentToEach, Node.Of, KeysUsed;
    match a
    case Connect(i, user, e, lastSeen, ok, through) =>
      KeysAt(c, i);
      ConnectedKeys(c.LocalOf(i), i, e, user, lastSeen, ok, through);
      WithKeys(c, i, Connected(c.LocalOf(i), i, e, user, lastSeen, ok, through));
    case Disconnect(e) =>
      if e in c.home {
        var i, user := c.home[e].instance, c.home[e].user;
        KeysAt(c, i);
        DisconnectedKeys(c.LocalOf(i), i, e, user);
        WithKeys(c, i, Disconnected(c.LocalOf(i), i, e, user));
      }
    case Send(i, user, m, broken) =>
      KeysAt(c, i);
      SentKeys(c.LocalOf(i), i, user, m, broken);
      WithKeys(c, i, Sent(c.LocalOf(i), i, user, m, broken));
    case Receive(p, broken) =>
      var l := c.(channel := c.channel - multiset{p}).LocalOf(p.target);
      KeysAt(c, p.target);
      ReceivedKeys(c.LocalOf(p.target), l, p.target, p.user, p.message.id, broken);
      WithKeys(c, p.target, SentLocally(l, p.target, p.user, p.message.id, broken));
    case Heartbeat(i, user, broken) =>
      KeysAt(c, i);
      SentToEachKeys(c.LocalOf(i), i, c.At(i).Of(user), user, None, broken);
      WithKeys(c, i, SentToEach(c.LocalOf(i), i, c.At(i).Of(user), user, None, broken));
  }

  lemma KeysAt(c: Cluster, i: Id)
    requires KeysUsed(c)
    ensures NoEmptyKeys(c.LocalOf(i))
  {
  }

  lemma ReceivedKeys(before: Local, l: Local, i: Id, user: Id, m: Id, broken: set<Id>)
    requires NoEmptyKeys(before) && l.node == before.node && l.sessions == before.sessions
    ensures NoEmptyKeys(SentLocally(l, i, user, m, broken))
  {
    SentToEachKeys(l, i, l.node.Of(user), user, Some(m), broken);
  }

  lemma SentKeys(l: Local, i: Id, user: Id, m: Message, broken: set<Id>)
    requires NoEmptyKeys(l)
    ensures NoEmptyKeys(Sent(l, i, user, m, broken))
  {
    hide SentToEach, Last;
    var kept := Kept(l, user, m);
    SentToEachKeys(kept, i, kept.node.Of(user), user, Some(m.id), broken);
  }

  lemma {:induction false} RunKeysUsed(c: Cluster, acts: seq<Action>)
    requires KeysUsed(c)
    ensures KeysUsed(Exec(c, acts))
    decreases |acts|
  {
    hide KeysUsed, Step;
    if acts != [] {
      StepKeysUsed(c, acts[0]);
      RunKeysUsed(Step(c, acts[0]), acts[1..]);
    }
  }

  /** In every run a user is a key of an instance only while it has an emitter there, and of the table only while it is listed. */
  lemma KeysDisappear(acts: seq<Action>, i: Id, user: Id)
    ensures var c := Exec(NO_CLUSTER, acts);
            && (user in c.At(i).emitters <==> c.At(i).Of(user) != [])
            && (user in c.sessions <==> Listed(c.sessions, user) != {})
  {
    hide Exec;
    RunKeysUsed(NO_CLUSTER, acts);
    assert NoEmptyKeys(Exec(NO_CLUSTER, acts).LocalOf(i));
  }
}
