/**
  The cluster of notification instances: every message reaches every connected
  emitter of its user exactly once, whichever instance sends it and whatever
  connects and disconnects meanwhile.
*/
module SseCluster {
  import opened Entities
  import opened Sse
  import opened SseEffects

  datatype Place = Place(instance: Id, user: Id)

  /**
    `channel` holds what instances published and others have not received.
    `home`, `origin` and `audience` are history: where each emitter connected,
    where each message was sent from and to whom, and who was connected then.
  */
  datatype Cluster = Cluster(
    nodes: map<Id, Node>,
    sessions: map<Id, set<Id>>,
    delivered: seq<Delivery>,
    channel: multiset<Parcel>,
    home: map<Id, Place>,
    origin: map<Id, Place>,
    audience: map<Id, set<Id>>)
  {
    function At(i: Id): Node {
      if i in nodes then nodes[i] else EMPTY_NODE
    }

    function LocalOf(i: Id): Local {
      Local(At(i), sessions, delivered, channel)
    }

    function With(i: Id, l: Local): Cluster {
      this.(nodes := nodes[i := l.node], sessions := l.sessions, delivered := l.delivered, channel := l.published)
    }

    predicate Online(e: Id) {
      e in home && e in At(home[e].instance).Of(home[e].user)
    }

    function OnlineFor(user: Id): set<Id> {
      set e | e in home && home[e].user == user && Online(e)
    }
  }

  const NO_CLUSTER := Cluster(map[], map[], [], multiset{}, map[], map[], map[])

  datatype Action =
    | Connect(instance: Id, user: Id, emitter: Id, lastSeen: Option<Id>, ok: bool, through: nat)
    | Disconnect(emitter: Id)
    | Send(instance: Id, user: Id, message: Message, broken: set<Id>)
    | Receive(parcel: Parcel, broken: set<Id>)
    | Heartbeat(instance: Id, user: Id, broken: set<Id>)

  /** One step. Emitters and messages are new objects with fresh names; an action that does not apply changes nothing. */
  function Step(c: Cluster, a: Action): Cluster {
    match a
    case Connect(i, user, e, lastSeen, ok, through) =>
      if e in c.home then c
      else c.With(i, Connected(c.LocalOf(i), i, e, user, lastSeen, ok, through)).(home := c.home[e := Place(i, user)])
    case Disconnect(e) =>
      // Any number of times: each callback of an emitter may call it.
      if e !in c.home then c
      else c.With(c.home[e].instance, Disconnected(c.LocalOf(c.home[e].instance), c.home[e].instance, e, c.home[e].user))
    case Send(i, user, m, broken) =>
      if m.id in c.origin then c
      else
        c.With(i, Sent(c.LocalOf(i), i, user, m, broken))
        .(origin := c.origin[m.id := Place(i, user)], audience := c.audience[m.id := c.OnlineFor(user)])
    case Receive(p, broken) =>
      if p !in c.channel then c
      else
        var c1 := c.(channel := c.channel - multiset{p});
        c1.With(p.target, SentLocally(c1.LocalOf(p.target), p.target, p.user, p.message.id, broken))
    case Heartbeat(i, user, broken) =>
      c.With(i, SentToEach(c.LocalOf(i), i, c.At(i).Of(user), user, None, broken))
  }

  function Exec(c: Cluster, acts: seq<Action>): Cluster
    decreases |acts|
  {
    if acts == [] then c else Exec(Step(c, acts[0]), acts[1..])
  }

  // ---------- The invariant ----------

  ghost predicate TableSound(c: Cluster) {
    && (forall i, u :: i in Listed(c.sessions, u) <==> c.At(i).Of(u) != [])
    && (forall i, u :: NoDup(c.At(i).Of(u)))
    && (forall i, u, e :: e in c.At(i).Of(u) ==> e in c.home && c.home[e] == Place(i, u))
  }

  /** What was delivered went to emitters of the right user, and to each at most once. */
  ghost predicate DeliveriesSound(c: Cluster) {
    && (forall d :: d in c.delivered ==>
          d.emitter in c.home && d.message in c.origin && c.home[d.emitter].user == c.origin[d.message].user)
    && (forall d :: multiset(c.delivered)[d] <= 1)
  }

  /** A parcel is unique, names another instance than its sender, and nothing of it has been delivered there. */
  ghost predicate ChannelSound(c: Cluster) {
    && (forall p :: p in c.channel ==>
          && c.channel[p] == 1
          && p.message.id in c.origin
          && c.origin[p.message.id].user == p.user && c.origin[p.message.id].instance != p.target)
    && (forall p, q :: p in c.channel && q in c.channel && p.target == q.target && p.message.id == q.message.id ==> p == q)
    && (forall p, d :: p in c.channel && d in c.delivered && d.message == p.message.id && d.emitter in c.home ==>
          c.home[d.emitter].instance != p.target)
  }

  /** An instance replays only what was sent from it to this user. */
  ghost predicate HistorySound(c: Cluster) {
    forall i, u ::
      && DistinctIds(c.At(i).History(u))
      && forall m :: m in c.At(i).History(u) ==> m.id in c.origin && c.origin[m.id] == Place(i, u)
  }

  ghost predicate OnItsWay(c: Cluster, instance: Id, m: Id) {
    exists p :: p in c.channel && p.target == instance && p.message.id == m
  }

  /** Whoever was connected when a message was sent has received it, will receive it, or is gone. */
  ghost predicate AudienceSound(c: Cluster) {
    && c.audience.Keys == c.origin.Keys
    && (forall m, e :: m in c.audience && e in c.audience[m] ==> e in c.home && c.home[e].user == c.origin[m].user)
    && (forall m, e :: m in c.audience && e in c.audience[m] && c.Online(e) ==>
          Delivery(e, m) in c.delivered || OnItsWay(c, c.home[e].instance, m))
  }

  ghost predicate Inv(c: Cluster) {
    TableSound(c) && DeliveriesSound(c) && ChannelSound(c) && HistorySound(c) && AudienceSound(c)
  }

  // ---------- Emitters and table ----------

  lemma ShrinkTable(c: Cluster, i: Id, user: Id, l: Local, gone: set<Id>)
    requires TableSound(c) && Shrinks(c.LocalOf(i), l, i, user, gone)
    ensures TableSound(c.With(i, l))
    ensures forall e :: c.With(i, l).Online(e) ==> c.Online(e)
    ensures forall e :: e in c.home && c.home[e] == Place(i, user) && e in gone ==> !c.With(i, l).Online(e)
    ensures forall j, u :: c.With(i, l).At(j).History(u) == c.At(j).History(u)
  {
    var after := c.With(i, l);
    forall j
      ensures after.At(j) == if j == i then l.node else c.At(j)
    {
    }
    forall j, u, e | e in after.At(j).Of(u)
      ensures e in c.At(j).Of(u)
    {
    }
    forall j, u
      ensures j in Listed(after.sessions, u) <==> after.At(j).Of(u) != []
    {
      assert j in Listed(c.sessions, u) <==> c.At(j).Of(u) != [];
    }
  }

  lemma JoinTable(c: Cluster, i: Id, user: Id, l: Local, e: Id, stays: bool)
    requires TableSound(c) && Joins(c.LocalOf(i), l, i, user, e, stays) && e !in c.home
    ensures TableSound(c.With(i, l).(home := c.home[e := Place(i, user)]))
    ensures forall x :: x != e && c.With(i, l).(home := c.home[e := Place(i, user)]).Online(x) ==> c.Online(x)
  {
    hide NoDup, Joins, Node.Of, Cluster.With, Listed;
    var mid := c.With(i, l);
    JoinEmitters(c, i, user, l, e, stays);
    JoinListed(c, i, user, l, e, stays);
    assert mid.home == c.home by { OnlyLocal(c, i, l); }
    var after := mid.(home := c.home[e := Place(i, user)]);
    assert forall j :: after.At(j) == mid.At(j);
  }

  lemma OnlyLocal(c: Cluster, i: Id, l: Local)
    ensures var mid := c.With(i, l); mid.home == c.home && mid.origin == c.origin && mid.audience == c.audience
  {
  }

  lemma JoinListed(c: Cluster, i: Id, user: Id, l: Local, e: Id, stays: bool)
    requires TableSound(c) && Joins(c.LocalOf(i), l, i, user, e, stays)
    ensures forall j, u :: j in Listed(c.With(i, l).sessions, u) <==> c.With(i, l).At(j).Of(u) != []
  {
    hide NoDup;
    var after := c.With(i, l);
    forall j, u
      ensures j in Listed(after.sessions, u) <==> after.At(j).Of(u) != []
    {
      assert j in Listed(c.sessions, u) <==> c.At(j).Of(u) != [];
      assert after.At(j) == if j == i then l.node else c.At(j);
    }
  }

  lemma JoinEmitters(c: Cluster, i: Id, user: Id, l: Local, e: Id, stays: bool)
    requires TableSound(c) && Joins(c.LocalOf(i), l, i, user, e, stays)
    ensures forall j, u :: NoDup(c.With(i, l).At(j).Of(u))
    ensures forall j, u, x :: x in c.With(i, l).At(j).Of(u) ==> x in c.At(j).Of(u) || (x == e && j == i && u == user)
    ensures forall j, u :: c.With(i, l).At(j).History(u) == c.At(j).History(u)
  {
    hide NoDup;
    var after := c.With(i, l);
    forall j
      ensures after.At(j) == if j == i then l.node else c.At(j)
    {
    }
  }

  lemma TableAt(c: Cluster, i: Id, user: Id)
    requires TableSound(c)
    ensures NoDup(c.At(i).Of(user)) && RoutedAt(c.LocalOf(i), i, user)
  {
  }
}
