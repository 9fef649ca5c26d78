/**
  The messages one instance sends to one user, over every run of the cluster:
  what it keeps of them, which of them each of its emitters received, and that a
  client that comes back in time misses none.
*/
module SseStreams {
  import opened Entities
  import opened Sse
  import opened SseEffects
  import opened SseCluster
  import opened SseRuns
  import opened SseHistory

  function SentBy(c: Cluster, a: Action, i: Id, user: Id): seq<Message> {
    if a.Send? && a.instance == i && a.user == user && a.message.id !in c.origin then [a.message] else []
  }

  /** Everything sent in the run from this instance to this user, in order. */
  function SentIn(c: Cluster, acts: seq<Action>, i: Id, user: Id): seq<Message>
    decreases |acts|
  {
    if acts == [] then [] else SentBy(c, acts[0], i, user) + SentIn(Step(c, acts[0]), acts[1..], i, user)
  }

  predicate Got(c: Cluster, e: Id, m: Message) {
    Delivery(e, m.id) in c.delivered
  }

  /** The emitter received exactly the messages from `j` to `k`, and while it is online that is to the end. */
  ghost predicate Stretch(c: Cluster, ms: seq<Message>, e: Id, j: nat, k: nat) {
    && j <= k <= |ms|
    && (forall n :: 0 <= n < |ms| ==> (Got(c, e, ms[n]) <==> j <= n < k))
    && (c.Online(e) ==> k == |ms|)
  }

  ghost predicate GotStretch(c: Cluster, ms: seq<Message>, e: Id) {
    exists j, k :: Stretch(c, ms, e, j, k)
  }

  /** `ms` went from this instance to this user. */
  ghost predicate WentFrom(c: Cluster, i: Id, user: Id, ms: seq<Message>) {
    && DistinctIds(ms)
    && forall n :: 0 <= n < |ms| ==> ms[n].id in c.origin && c.origin[ms[n].id] == Place(i, user)
  }

  ghost predicate Streams(c: Cluster, i: Id, user: Id, ms: seq<Message>) {
    && c.At(i).History(user) == Last(ms, MAX_MESSAGE_HISTORY)
    && WentFrom(c, i, user, ms)
    && forall e :: e in c.home && c.home[e] == Place(i, user) ==> GotStretch(c, ms, e)
  }

  /** No emitter comes online, and nothing more is kept for replay. */
  ghost predicate Calm(c: Cluster, after: Cluster) {
    && after.home == c.home && after.origin == c.origin
    && (forall x :: after.Online(x) ==> c.Online(x))
    && (forall j, u :: after.At(j).History(u) == c.At(j).History(u))
  }

  // ---------- Steps that send nothing new ----------

  lemma DisconnectCalm(c: Cluster, e: Id)
    requires TableSound(c)
    ensures Calm(c, Step(c, Disconnect(e))) && Step(c, Disconnect(e)).delivered == c.delivered
  {
    hide TableSound, NoDup, Shrinks, Disconnected, Cluster.Online;
    if e in c.home {
      var i, user := c.home[e].instance, c.home[e].user;
      TableAt(c, i, user);
      DisconnectedShrinks(c.LocalOf(i), i, e, user);
      ShrinkTable(c, i, user, Disconnected(c.LocalOf(i), i, e, user), {e});
    }
  }

  lemma HeartbeatCalm(c: Cluster, i: Id, user: Id, broken: set<Id>)
    requires TableSound(c)
    ensures Calm(c, Step(c, Heartbeat(i, user, broken))) && Step(c, Heartbeat(i, user, broken)).delivered == c.delivered
  {
    hide TableSound, NoDup, Shrinks, SentToEach, Cluster.Online;
    var es := c.At(i).Of(user);
    TableAt(c, i, user);
    SentToEachEffect(c.LocalOf(i), i, es, user, None, broken);
    ShrinkTable(c, i, user, SentToEach(c.LocalOf(i), i, es, user, None, broken), Broken(es, broken));
    assert Received(es, None, broken) == [];
  }

  lemma ReceiveCalm(c: Cluster, p: Parcel, broken: set<Id>)
    requires TableSound(c) && p in c.channel
    ensures var after := Step(c, Receive(p, broken));
            && Calm(c, after)
            && after.delivered == c.delivered + Received(c.At(p.target).Of(p.user), Some(p.message.id), broken)
  {
    hide TableSound, NoDup, Shrinks, SentToEach, Received, Cluster.Online;
    var c1 := c.(channel := c.channel - multiset{p});
    SameTable(c, c1);
    var es := c.At(p.target).Of(p.user);
    TableAt(c1, p.target, p.user);
    SentToEachEffect(c1.LocalOf(p.target), p.target, es, p.user, Some(p.message.id), broken);
    var l := SentLocally(c1.LocalOf(p.target), p.target, p.user, p.message.id, broken);
    ShrinkTable(c1, p.target, p.user, l, Broken(es, broken));
  }

  /** Deliveries of other messages, or to other emitters, leave a stretch as it is. */
  lemma SameStretch(c: Cluster, after: Cluster, ms: seq<Message>, e: Id, ds: seq<Delivery>)
    requires GotStretch(c, ms, e) && after.delivered == c.delivered + ds
    requires forall n :: 0 <= n < |ms| ==> Delivery(e, ms[n].id) !in ds
    requires after.Online(e) ==> c.Online(e)
    ensures GotStretch(after, ms, e)
  {
    var j, k :| Stretch(c, ms, e, j, k);
    assert Stretch(after, ms, e, j, k);
  }

  lemma CalmStreams(c: Cluster, after: Cluster, i: Id, user: Id, ms: seq<Message>, ds: seq<Delivery>)
    requires Streams(c, i, user, ms) && Calm(c, after) && after.delivered == c.delivered + ds
    requires forall d :: d in ds && d.emitter in c.home && c.home[d.emitter] == Place(i, user) ==>
               !(d.message in c.origin && c.origin[d.message] == Place(i, user))
    ensures Streams(after, i, user, ms)
  {
    hide Cluster.Online, GotStretch, Last;
    forall e | e in after.home && after.home[e] == Place(i, user)
      ensures GotStretch(after, ms, e)
    {
      SameStretch(c, after, ms, e, ds);
    }
  }

  lemma ReceiveStreams(c: Cluster, p: Parcel, broken: set<Id>, i: Id, user: Id, ms: seq<Message>)
    requires Inv(c) && Streams(c, i, user, ms)
    ensures Streams(Step(c, Receive(p, broken)), i, user, ms)
  {
    hide TableSound, DeliveriesSound, ChannelSound, HistorySound, AudienceSound, Streams, Calm, NoDup;
    if p in c.channel {
      hide Step, Received;
      var es := c.At(p.target).Of(p.user);
      ReceiveCalm(c, p, broken);
      ParcelIsForeign(c, p);
      HomeOf(c, p.target, p.user);
      EmittersDiffer(c, p.target, p.user);
      ReceivedEach(es, p.message.id, broken);
      CalmStreams(c, Step(c, Receive(p, broken)), i, user, ms, Received(es, Some(p.message.id), broken));
    }
  }

  lemma EmittersDiffer(c: Cluster, i: Id, user: Id)
    requires TableSound(c)
    ensures NoDup(c.At(i).Of(user))
  {
  }

  lemma ParcelIsForeign(c: Cluster, p: Parcel)
    requires ChannelSound(c) && p in c.channel
    ensures p.message.id in c.origin && c.origin[p.message.id].instance != p.target
  {
  }

  // ---------- Sending ----------

  lemma SendStreams(c: Cluster, j: Id, v: Id, m: Message, broken: set<Id>, i: Id, user: Id, ms: seq<Message>)
    requires Inv(c) && Streams(c, i, user, ms)
    ensures var a := Send(j, v, m, broken); Streams(Step(c, a), i, user, ms + SentBy(c, a, i, user))
  {
    hide TableSound, DeliveriesSound, ChannelSound, HistorySound, AudienceSound, Cluster.Online, NoDup, Last;
    assert ms + [] == ms;
    if m.id !in c.origin {
      hide Step, Received, GotStretch;
      var a := Send(j, v, m, broken);
      var after := Step(c, a);
      var es := c.At(j).Of(v);
      var ms' := ms + SentBy(c, a, i, user);
      SendFacts(c, j, v, m, broken);
      EmittersDiffer(c, j, v);
      ReceivedEach(es, m.id, broken);
      SendKeeps(c, after, j, v, m, i, user, ms);
      forall e | e in after.home && after.home[e] == Place(i, user)
        ensures GotStretch(after, ms', e)
      {
        if j == i && v == user {
          OnlineIn(c, e);
          NoneOfNew(c, m.id);
          LongerStretch(c, after, ms, m, e, Received(es, Some(m.id), broken), e in es && e !in broken);
        } else {
          SameStretch(c, after, ms, e, Received(es, Some(m.id), broken));
        }
      }
    } else {
      SentBefore(c, j, v, m, broken);
    }
  }

  lemma OnlineIn(c: Cluster, e: Id)
    requires e in c.home
    ensures c.Online(e) <==> e in c.At(c.home[e].instance).Of(c.home[e].user)
  {
  }

  lemma SendKeeps(c: Cluster, after: Cluster, j: Id, v: Id, m: Message, i: Id, user: Id, ms: seq<Message>)
    requires c.At(i).History(user) == Last(ms, MAX_MESSAGE_HISTORY) && WentFrom(c, i, user, ms) && m.id !in c.origin
    requires after.origin == c.origin[m.id := Place(j, v)]
    requires after.At(i).History(user) == KeptAt(c, j, v, m).At(i).History(user)
    ensures var ms' := if j == i && v == user then ms + [m] else ms;
            after.At(i).History(user) == Last(ms', MAX_MESSAGE_HISTORY) && WentFrom(after, i, user, ms')
  {
    hide Last;
    LastOfLast(ms, m, MAX_MESSAGE_HISTORY);
  }

  /** An emitter that is online receives one more; one that breaks off, or is gone, no more. */
  lemma LongerStretch(c: Cluster, after: Cluster, ms: seq<Message>, m: Message, e: Id, ds: seq<Delivery>, takes: bool)
    requires GotStretch(c, ms, e) && after.delivered == c.delivered + ds
    requires forall n :: 0 <= n < |ms| ==> ms[n].id != m.id
    requires forall d :: d in c.delivered ==> d.message != m.id
    requires forall d :: d in ds && d.emitter == e ==> d.message == m.id && takes
    requires takes ==> c.Online(e) && Delivery(e, m.id) in ds
    requires after.Online(e) ==> takes
    ensures GotStretch(after, ms + [m], e)
  {
    var j: nat, k: nat :| Stretch(c, ms, e, j, k);
    assert Stretch(after, ms + [m], e, j, if takes then k + 1 else k);
  }

  // ---------- Connecting ----------

  lemma InReplay(e: Id, ms: seq<Message>, d: Delivery)
    requires DistinctIds(ms)
    ensures d in ReplayedTo(e, ms) <==> d.emitter == e && HasId(ms, d.message)
  {
    ReplayedOnce(e, ms, d);
    assert d in ReplayedTo(e, ms) <==> multiset(ReplayedTo(e, ms))[d] > 0;
  }

  /** A connection: its replay is a stretch of what was sent, to the end if it stays. */
  lemma ConnectFacts(c: Cluster, i: Id, user: Id, e: Id, lastSeen: Option<Id>, ok: bool, through: nat)
    requires TableSound(c) && e !in c.home
    ensures var after := Step(c, Connect(i, user, e, lastSeen, ok, through));
            var missed := MissedBy(c.LocalOf(i), user, lastSeen);
            && after.home == c.home[e := Place(i, user)] && after.origin == c.origin
            && after.delivered == c.delivered + ReplayedTo(e, Prefix(missed, if ok then through else 0))
            && (forall x :: x != e && after.Online(x) ==> c.Online(x))
            && (after.Online(e) <==> ok && |missed| <= through)
            && (forall j, u :: after.At(j).History(u) == c.At(j).History(u))
  {
    hide Connected, ReplayedTo, Prefix, MissedBy, NoDup, TableSound, Joins, Node.Of, Listed, Cluster.With, Cluster.At;
    var l := Connected(c.LocalOf(i), i, e, user, lastSeen, ok, through);
    ConnectPremises(c, i, user, e);
    ConnectedEffect(c.LocalOf(i), i, e, user, lastSeen, ok, through);
    var stays := ok && |MissedBy(c.LocalOf(i), user, lastSeen)| <= through;
    JoinTable(c, i, user, l, e, stays);
    JoinEmitters(c, i, user, l, e, stays);
    JoinsIff(c.LocalOf(i), l, i, user, e, stays);
    WithParts(c, i, l);
    HomeOnly(c.With(i, l), c.home[e := Place(i, user)]);
  }

  lemma WithParts(c: Cluster, i: Id, l: Local)
    ensures var after := c.With(i, l);
            after.At(i) == l.node && after.delivered == l.delivered && after.origin == c.origin
  {
  }

  lemma HomeOnly(c: Cluster, home: map<Id, Place>)
    ensures forall j :: c.(home := home).At(j) == c.At(j)
    ensures forall e :: c.(home := home).Online(e) <==> e in home && e in c.At(home[e].instance).Of(home[e].user)
  {
  }

  lemma JoinsIff(l: Local, after: Local, i: Id, user: Id, e: Id, stays: bool)
    requires Joins(l, after, i, user, e, stays) && e !in l.node.Of(user)
    ensures e in after.node.Of(user) <==> stays
  {
  }

  /** What is missed is the end of what was sent. */
  lemma MissedIsSuffix(c: Cluster, i: Id, user: Id, ms: seq<Message>, lastSeen: Option<Id>) returns (a: nat)
    requires DistinctIds(ms) && c.At(i).History(user) == Last(ms, MAX_MESSAGE_HISTORY)
    ensures a <= |ms| && MissedBy(c.LocalOf(i), user, lastSeen) == ms[a..]
    ensures lastSeen.Some? ==>
              var seen := SeenUpTo(ms, lastSeen.value);
              a == if |ms| - seen <= MAX_MESSAGE_HISTORY then seen else |ms| - MAX_MESSAGE_HISTORY
  {
    hide DistinctIds, SeenUpTo, Node.Missed;
    if lastSeen.None? {
      a := |ms|;
    } else {
      var seen := SeenUpTo(ms, lastSeen.value);
      a := if |ms| - seen <= MAX_MESSAGE_HISTORY then seen else |ms| - MAX_MESSAGE_HISTORY;
      MissedOfLast(c.At(i), user, ms, lastSeen.value);
    }
  }

  lemma HasIdOfSlice(ms: seq<Message>, a: nat, b: nat, n: nat)
    requires DistinctIds(ms) && a <= b <= |ms| && n < |ms|
    ensures HasId(ms[a..b], ms[n].id) <==> a <= n < b
  {
    if a <= n < b {
      assert ms[a..b][n - a].id == ms[n].id;
    }
    if HasId(ms[a..b], ms[n].id) {
      var k :| 0 <= k < b - a && ms[a..b][k].id == ms[n].id;
      assert ms[a + k].id == ms[n].id;
    }
  }

  lemma NewStretch(c: Cluster, after: Cluster, ms: seq<Message>, e: Id, a: nat, n: nat)
    requires DistinctIds(ms) && a <= |ms|
    requires forall d :: d in c.delivered ==> d.emitter != e
    requires after.delivered == c.delivered + ReplayedTo(e, Prefix(ms[a..], n))
    requires after.Online(e) ==> |ms| - a <= n
    ensures Stretch(after, ms, e, a, if n < |ms| - a then a + n else |ms|)
    ensures DistinctIds(Prefix(ms[a..], n))
  {
    hide ReplayedTo, HasId, Cluster.Online;
    var b := if n < |ms| - a then a + n else |ms|;
    assert Prefix(ms[a..], n) == ms[a..b];
    DropDistinct(ms, a);
    DropDistinct(ms[a..], b - a);
    forall x | 0 <= x < |ms|
      ensures Got(after, e, ms[x]) <==> a <= x < b
    {
      InReplay(e, ms[a..b], Delivery(e, ms[x].id));
      HasIdOfSlice(ms, a, b, x);
    }
  }

  lemma JoinedStretch(c: Cluster, after: Cluster, i: Id, user: Id, e: Id, lastSeen: Option<Id>, n: nat, ms: seq<Message>)
    requires DeliveriesSound(c) && e !in c.home
    requires DistinctIds(ms) && c.At(i).History(user) == Last(ms, MAX_MESSAGE_HISTORY)
    requires after.delivered == c.delivered + ReplayedTo(e, Prefix(MissedBy(c.LocalOf(i), user, lastSeen), n))
    requires after.Online(e) ==> |MissedBy(c.LocalOf(i), user, lastSeen)| <= n
    ensures GotStretch(after, ms, e)
  {
    hide Cluster.Online, DistinctIds, MissedBy, Prefix, ReplayedTo, Last, GotStretch, Stretch;
    var a := MissedIsSuffix(c, i, user, ms, lastSeen);
    NewStretch(c, after, ms, e, a, n);
    StretchIsOne(after, ms, e, a, if n < |ms| - a then a + n else |ms|);
  }

  lemma ConnectStreams(
      c: Cluster, j: Id, v: Id, e: Id, lastSeen: Option<Id>, ok: bool, through: nat, i: Id, user: Id, ms: seq<Message>)
    requires Inv(c) && Streams(c, i, user, ms)
    ensures Streams(Step(c, Connect(j, v, e, lastSeen, ok, through)), i, user, ms)
  {
    hide TableSound, DeliveriesSound, ChannelSound, AudienceSound, HistorySound, Cluster.Online;
    hide DistinctIds, MissedBy, Prefix, ReplayedTo, Last, Cluster.With, Connected;
    if e !in c.home {
      hide Step, GotStretch;
      var n := if ok then through else 0;
      var after := Step(c, Connect(j, v, e, lastSeen, ok, through));
      var replay := ReplayedTo(e, Prefix(MissedBy(c.LocalOf(j), v, lastSeen), n));
      ConnectFacts(c, j, v, e, lastSeen, ok, through);
      MissedSound(c, j, v, lastSeen, n);
      forall d | d in replay
        ensures d.emitter == e
      {
        ReplayedOnlyTo(e, Prefix(MissedBy(c.LocalOf(j), v, lastSeen), n), d);
      }
      forall x | x in after.home && after.home[x] == Place(i, user)
        ensures GotStretch(after, ms, x)
      {
        if x == e {
          JoinedStretch(c, after, i, user, e, lastSeen, n, ms);
        } else {
          SameStretch(c, after, ms, x, replay);
        }
      }
    }
  }

  lemma StretchIsOne(c: Cluster, ms: seq<Message>, e: Id, j: nat, k: nat)
    requires Stretch(c, ms, e, j, k)
    ensures GotStretch(c, ms, e)
  {
  }

  // ---------- Runs ----------

  lemma StepStreams(c: Cluster, a: Action, i: Id, user: Id, ms: seq<Message>)
    requires Inv(c) && Streams(c, i, user, ms)
    ensures Streams(Step(c, a), i, user, ms + SentBy(c, a, i, user))
  {
    hide TableSound, DeliveriesSound, ChannelSound, HistorySound, AudienceSound, Streams, Calm, Step;
    assert ms + [] == ms;
    match a
    case Connect(j, v, e, lastSeen, ok, through) => ConnectStreams(c, j, v, e, lastSeen, ok, through, i, user, ms);
    case Disconnect(e) =>
      DisconnectCalm(c, e);
      CalmStreams(c, Step(c, a), i, user, ms, []);
    case Send(j, v, m, broken) => SendStreams(c, j, v, m, broken, i, user, ms);
    case Receive(p, broken) => ReceiveStreams(c, p, broken, i, user, ms);
    case Heartbeat(j, v, broken) =>
      HeartbeatCalm(c, j, v, broken);
      CalmStreams(c, Step(c, a), i, user, ms, []);
  }

  lemma {:induction false} RunStreams(c: Cluster, acts: seq<Action>, i: Id, user: Id, ms: seq<Message>)
    requires Inv(c) && Streams(c, i, user, ms)
    ensures Streams(Exec(c, acts), i, user, ms + SentIn(c, acts, i, user))
    decreases |acts|
  {
    hide Inv, Step, Streams, SentBy;
    if acts == [] {
      assert ms + [] == ms;
    } else {
      var next, now := Step(c, acts[0]), SentBy(c, acts[0], i, user);
      StepStreams(c, acts[0], i, user, ms);
      StepSound(c, acts[0]);
      RunStreams(next, acts[1..], i, user, ms + now);
      assert ms + now + SentIn(next, acts[1..], i, user) == ms + SentIn(c, acts, i, user);
    }
  }

  lemma StartStreams(i: Id, user: Id)
    ensures Streams(NO_CLUSTER, i, user, [])
  {
  }

  lemma ReachableStreams(acts: seq<Action>, i: Id, user: Id)
    ensures Inv(Exec(NO_CLUSTER, acts))
    ensures Streams(Exec(NO_CLUSTER, acts), i, user, SentIn(NO_CLUSTER, acts, i, user))
  {
    hide Inv, Step, Streams;
    StartSound();
    StartStreams(i, user);
    RunSound(NO_CLUSTER, acts);
    RunStreams(NO_CLUSTER, acts, i, user, []);
    assert [] + SentIn(NO_CLUSTER, acts, i, user) == SentIn(NO_CLUSTER, acts, i, user);
  }

  /**
    In every run an instance keeps for replay the last ten messages sent from it to
    the user, and each emitter connected to it received of all those sent an unbroken
    stretch, which lasts to the end while the emitter is there.
  */
  lemma EveryEmitterGetsAStretch(acts: seq<Action>, i: Id, user: Id, e: Id)
    ensures var c := Exec(NO_CLUSTER, acts);
            var ms := SentIn(NO_CLUSTER, acts, i, user);
            && c.At(i).History(user) == Last(ms, MAX_MESSAGE_HISTORY)
            && (e in c.home && c.home[e] == Place(i, user) ==> GotStretch(c, ms, e))
  {
    hide Exec, SentIn, GotStretch, Last;
    ReachableStreams(acts, i, user);
  }

  /**
    A client whose connection to an instance ended with message number `k`, and
    that comes back to it before more than ten others were sent, has then received
    every message since its first exactly once, over one connection or the other.
  */
  lemma ReturnMissesNothing(acts: seq<Action>, i: Id, user: Id, old': Id, e: Id, k: nat, through: nat)
    requires var c := Exec(NO_CLUSTER, acts);
             var ms := SentIn(NO_CLUSTER, acts, i, user);
             && old' in c.home && c.home[old'] == Place(i, user) && e !in c.home
             && k < |ms| <= k + 1 + MAX_MESSAGE_HISTORY && |ms| <= k + 1 + through
             && Got(c, old', ms[k]) && (k + 1 < |ms| ==> !Got(c, old', ms[k + 1]))
    ensures var c := Exec(NO_CLUSTER, acts);
            var ms := SentIn(NO_CLUSTER, acts, i, user);
            var after := Step(c, Connect(i, user, e, Some(ms[k].id), true, through));
            && after.Online(e)
            && forall n, first :: 0 <= first <= n < |ms| && Got(c, old', ms[first]) ==>
                 Receipts(after, old', ms[n].id) + Receipts(after, e, ms[n].id) == 1
  {
    hide Exec, SentIn, Last;
    ReachableStreams(acts, i, user);
    ReturnsToAll(Exec(NO_CLUSTER, acts), i, user, SentIn(NO_CLUSTER, acts, i, user), old', e, k, through);
  }

  lemma ReturnsToAll(c: Cluster, i: Id, user: Id, ms: seq<Message>, old': Id, e: Id, k: nat, through: nat)
    requires Inv(c) && Streams(c, i, user, ms)
    requires old' in c.home && c.home[old'] == Place(i, user) && e !in c.home
    requires k < |ms| <= k + 1 + MAX_MESSAGE_HISTORY && |ms| <= k + 1 + through
    requires Got(c, old', ms[k]) && (k + 1 < |ms| ==> !Got(c, old', ms[k + 1]))
    ensures var after := Step(c, Connect(i, user, e, Some(ms[k].id), true, through));
            && after.Online(e)
            && forall n, first :: 0 <= first <= n < |ms| && Got(c, old', ms[first]) ==>
                 Receipts(after, old', ms[n].id) + Receipts(after, e, ms[n].id) == 1
  {
    hide TableSound, ChannelSound, AudienceSound, HistorySound, Cluster.Online, MissedBy, Prefix, ReplayedTo, Last, Step;
    hide DistinctIds, SeenUpTo, Receipts;
    var after := Step(c, Connect(i, user, e, Some(ms[k].id), true, through));
    SeenIs(ms, k);
    var a := MissedIsSuffix(c, i, user, ms, Some(ms[k].id));
    ConnectFacts(c, i, user, e, Some(ms[k].id), true, through);
    NewStretch(c, after, ms, e, a, through);
    ConnectSound(c, i, user, e, Some(ms[k].id), true, through);
    BothTogether(c, after, ms, old', e, k, Prefix(ms[a..], through));
  }

  /** The stretch of the old connection and that of the new one meet and do not overlap. */
  lemma BothTogether(c: Cluster, after: Cluster, ms: seq<Message>, old': Id, e: Id, k: nat, replay: seq<Message>)
    requires Inv(after) && k < |ms| && old' != e && DistinctIds(replay)
    requires GotStretch(c, ms, old') && Got(c, old', ms[k]) && (k + 1 < |ms| ==> !Got(c, old', ms[k + 1]))
    requires after.delivered == c.delivered + ReplayedTo(e, replay)
    requires Stretch(after, ms, e, k + 1, |ms|)
    ensures forall n, first :: 0 <= first <= n < |ms| && Got(c, old', ms[first]) ==>
              Receipts(after, old', ms[n].id) + Receipts(after, e, ms[n].id) == 1
  {
    hide Inv, ReplayedTo, Cluster.Online, DistinctIds, Receipts;
    var j: nat, k': nat :| Stretch(c, ms, old', j, k');
    assert k' == k + 1;
    OnceEach(after);
    forall n, first | 0 <= first <= n < |ms| && Got(c, old', ms[first])
      ensures Receipts(after, old', ms[n].id) + Receipts(after, e, ms[n].id) == 1
    {
      OtherGets(c, after, old', e, replay, ms[n]);
      assert Got(after, e, ms[n]) <==> k + 1 <= n;
    }
  }

  lemma SeenIs(ms: seq<Message>, k: nat)
    requires DistinctIds(ms) && k < |ms|
    ensures SeenUpTo(ms, ms[k].id) == k + 1
  {
    hide SeenUpTo;
    var s := SeenUpTo(ms, ms[k].id);
    assert ms[s - 1].id == ms[k].id;
  }

  lemma OnceEach(c: Cluster)
    requires Inv(c)
    ensures forall e, m :: Receipts(c, e, m) == if Delivery(e, m) in c.delivered then 1 else 0
  {
    hide TableSound, ChannelSound, HistorySound, AudienceSound;
    forall d
      ensures multiset(c.delivered)[d] == if d in c.delivered then 1 else 0
    {
      assert d in c.delivered <==> multiset(c.delivered)[d] > 0;
    }
  }

  lemma OtherGets(c: Cluster, after: Cluster, x: Id, e: Id, ms: seq<Message>, m: Message)
    requires after.delivered == c.delivered + ReplayedTo(e, ms) && x != e && DistinctIds(ms)
    ensures Got(after, x, m) <==> Got(c, x, m)
  {
    InReplay(e, ms, Delivery(x, m.id));
  }
}
