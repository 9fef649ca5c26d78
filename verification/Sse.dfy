/**
  Server-sent events (mopl-notification): the emitters and the replay history of
  one instance, the table shared by all instances that routes a user to them,
  and the service that connects, disconnects and sends.
*/
module Sse {
  import opened Entities

  /** Messages kept per user for replay. */
  const MAX_MESSAGE_HISTORY: nat := 10

  datatype Message = Message(id: Id, data: Id)

  /** What one instance keeps in memory. An emitter is named by its identity. */
  datatype Node = Node(emitters: map<Id, seq<Id>>, messages: map<Id, seq<Message>>)
  {
    function Of(user: Id): seq<Id> {
      if user in emitters then emitters[user] else []
    }

    function History(user: Id): seq<Message> {
      if user in messages then messages[user] else []
    }

    function WithEmitter(e: Id, user: Id): Node {
      this.(emitters := emitters[user := Of(user) + [e]])
    }

    /** A user whose last emitter goes is no longer a key of the map. */
    function WithoutEmitter(e: Id, user: Id): Node {
      if user !in emitters then this
      else
        var rest := RemoveFirst(emitters[user], e);
        if rest == [] then this.(emitters := emitters - {user}) else this.(emitters := emitters[user := rest])
    }

    function WithMessage(m: Message, user: Id): Node {
      this.(messages := messages[user := Last(History(user) + [m], MAX_MESSAGE_HISTORY)])
    }

    /** The history after the message of this id; all of it if no message has the id. */
    function Missed(user: Id, lastSeen: Id): seq<Message> {
      History(user)[SeenUpTo(History(user), lastSeen)..]
    }
  }

  const EMPTY_NODE := Node(map[], map[])

  function RemoveFirst(es: seq<Id>, e: Id): seq<Id> {
    if es == [] then [] else if es[0] == e then es[1..] else [es[0]] + RemoveFirst(es[1..], e)
  }

  function Last<T>(s: seq<T>, n: nat): seq<T> {
    if |s| <= n then s else s[|s| - n..]
  }

  /** How many messages stand up to and with the first of this id; none if no message has it. */
  function SeenUpTo(h: seq<Message>, id: Id): (n: nat)
    ensures n <= |h|
    ensures n == 0 <==> forall k :: 0 <= k < |h| ==> h[k].id != id
    ensures n > 0 ==> h[n - 1].id == id && forall k :: 0 <= k < n - 1 ==> h[k].id != id
  {
    if h == [] then 0
    else if h[0].id == id then 1
    else
      var n := SeenUpTo(h[1..], id);
      assert forall k :: 0 < k < |h| ==> h[k] == h[1..][k - 1];
      if n == 0 then 0 else n + 1
  }

  // ---------- The routing table ----------

  function Listed(sessions: map<Id, set<Id>>, user: Id): set<Id> {
    if user in sessions then sessions[user] else {}
  }

  function WithSession(sessions: map<Id, set<Id>>, user: Id, instance: Id): map<Id, set<Id>> {
    sessions[user := Listed(sessions, user) + {instance}]
  }

  function WithoutSession(sessions: map<Id, set<Id>>, user: Id, instance: Id): map<Id, set<Id>> {
    var rest := Listed(sessions, user) - {instance};
    if rest == {} then sessions - {user} else sessions[user := rest]
  }

  // ---------- What the service of one instance does ----------

  datatype Delivery = Delivery(emitter: Id, message: Id)

  /** A message on its way to another instance. */
  datatype Parcel = Parcel(target: Id, user: Id, message: Message)

  /** One instance, the routing table, everything its emitters received and everything it published. */
  datatype Local = Local(node: Node, sessions: map<Id, set<Id>>, delivered: seq<Delivery>, published: multiset<Parcel>)

  function Disconnected(l: Local, i: Id, e: Id, user: Id): Local {
    var node := l.node.WithoutEmitter(e, user);
    l.(node := node,
    sessions := if node.Of(user) == [] then WithoutSession(l.sessions, user, i) else l.sessions)
  }

  /** A send that breaks off disconnects the emitter. A ping carries no id and is not a delivery. */
  function SentTo(l: Local, i: Id, e: Id, user: Id, m: Option<Id>, ok: bool): Local {
    if !ok then Disconnected(l, i, e, user)
    else if m.Some? then l.(delivered := l.delivered + [Delivery(e, m.value)])
    else l
  }

  function SentToEach(l: Local, i: Id, es: seq<Id>, user: Id, m: Option<Id>, broken: set<Id>): Local
    decreases |es|
  {
    if es == [] then l
    else
      var n := |es| - 1;
      SentTo(SentToEach(l, i, es[..n], user, m, broken), i, es[n], user, m, es[n] !in broken)
  }

  function SentLocally(l: Local, i: Id, user: Id, m: Id, broken: set<Id>): Local {
    SentToEach(l, i, l.node.Of(user), user, Some(m), broken)
  }

  function ParcelsFor(targets: set<Id>, user: Id, m: Message): set<Parcel> {
    set t | t in targets :: Parcel(t, user, m)
  }

  function Kept(l: Local, user: Id, m: Message): Local {
    l.(node := l.node.WithMessage(m, user))
  }

  /** To the emitters of the user here, and to every other instance listed for the user. */
  function SentOut(l: Local, i: Id, user: Id, m: Message, broken: set<Id>): Local {
    var targets := Listed(l.sessions, user);
    var l1 := if i in targets || l.node.Of(user) != [] then SentLocally(l, i, user, m.id, broken) else l;
    l1.(published := l1.published + multiset(ParcelsFor(targets - {i}, user, m)))
  }

  function Sent(l: Local, i: Id, user: Id, m: Message, broken: set<Id>): Local {
    SentOut(Kept(l, user, m), i, user, m, broken)
  }

  datatype Post = Post(user: Id, message: Message)

  function KeptAll(l: Local, posts: seq<Post>): Local
    decreases |posts|
  {
    if posts == [] then l
    else Kept(KeptAll(l, posts[..|posts| - 1]), posts[|posts| - 1].user, posts[|posts| - 1].message)
  }

  function SentOutAll(l: Local, i: Id, posts: seq<Post>, broken: set<Id>): Local
    decreases |posts|
  {
    if posts == [] then l
    else
      var n := |posts| - 1;
      SentOut(SentOutAll(l, i, posts[..n], broken), i, posts[n].user, posts[n].message, broken)
  }

  function SentOneByOne(l: Local, i: Id, posts: seq<Post>, broken: set<Id>): Local
    decreases |posts|
  {
    if posts == [] then l
    else
      var n := |posts| - 1;
      Sent(SentOneByOne(l, i, posts[..n], broken), i, posts[n].user, posts[n].message, broken)
  }

  /** Message number k of the replay gets through if k < through. */
  function Replayed(l: Local, i: Id, e: Id, user: Id, ms: seq<Message>, through: nat): Local
    decreases |ms|
  {
    if ms == [] then l
    else
      var n := |ms| - 1;
      SentTo(Replayed(l, i, e, user, ms[..n], through), i, e, user, Some(ms[n].id), n < through)
  }

  /** A new emitter is registered, pinged, and sent what it missed. The ping gets through if `ok`. */
  function Connected(l: Local, i: Id, e: Id, user: Id, lastSeen: Option<Id>, ok: bool, through: nat): Local {
    var l1 := l.(node := l.node.WithEmitter(e, user), sessions := WithSession(l.sessions, user, i));
    var l2 := SentTo(l1, i, e, user, None, ok);
    if lastSeen.None? then l2
    else Replayed(l2, i, e, user, l2.node.Missed(user, lastSeen.value), if ok then through else 0)
  }

  lemma OneMoreParcel(targets: set<Id>, t: Id, user: Id, m: Message)
    requires t !in targets
    ensures multiset(ParcelsFor(targets + {t}, user, m)) ==
            multiset(ParcelsFor(targets, user, m)) + multiset{Parcel(t, user, m)}
  {
    assert ParcelsFor(targets + {t}, user, m) == ParcelsFor(targets, user, m) + {Parcel(t, user, m)};
    assert Parcel(t, user, m) !in ParcelsFor(targets, user, m);
  }

  // Sending neither reads nor writes the history, so it commutes with keeping a message.

  lemma {:induction false} KeptThenSentToEach(
      l: Local, i: Id, es: seq<Id>, user: Id, m: Option<Id>, broken: set<Id>, user': Id, m': Message)
    ensures SentToEach(Kept(l, user', m'), i, es, user, m, broken) == Kept(SentToEach(l, i, es, user, m, broken), user', m')
    decreases |es|
  {
    if es != [] {
      KeptThenSentToEach(l, i, es[..|es| - 1], user, m, broken, user', m');
    }
  }

  lemma {:induction false} KeptThenSentOutAll(l: Local, i: Id, posts: seq<Post>, broken: set<Id>, user: Id, m: Message)
    ensures SentOutAll(Kept(l, user, m), i, posts, broken) == Kept(SentOutAll(l, i, posts, broken), user, m)
    decreases |posts|
  {
    if posts != [] {
      var n := |posts| - 1;
      KeptThenSentOutAll(l, i, posts[..n], broken, user, m);
      var before := SentOutAll(l, i, posts[..n], broken);
      KeptThenSentToEach(before, i, before.node.Of(posts[n].user), posts[n].user, Some(posts[n].message.id), broken, user, m);
    }
  }

  /** A batch that keeps all messages first and then sends them leaves everything as sending one after the other does. */
  lemma {:induction false} BatchIsOneByOne(l: Local, i: Id, posts: seq<Post>, broken: set<Id>)
    ensures SentOutAll(KeptAll(l, posts), i, posts, broken) == SentOneByOne(l, i, posts, broken)
    decreases |posts|
  {
    if posts != [] {
      var n := |posts| - 1;
      BatchIsOneByOne(l, i, posts[..n], broken);
      KeptThenSentOutAll(KeptAll(l, posts[..n]), i, posts[..n], broken, posts[n].user, posts[n].message);
    }
  }

  lemma OneFewer(s: seq<Message>, n: nat)
    requires n < |s|
    ensures s[n..][1..] == s[n + 1..]
  {
  }

  // ---------- The components ----------

  class SseRepository {
    var emitters: map<Id, seq<Id>>
    var messages: map<Id, seq<Message>>

    constructor ()
      ensures State() == EMPTY_NODE
    {
      emitters, messages := map[], map[];
    }

    function State(): Node
      reads this
    {
      Node(emitters, messages)
    }

    method SaveEmitter(e: Id, user: Id)
      modifies this`emitters
      ensures user in emitters && emitters[user] == old(State()).Of(user) + [e]
      ensures emitters - {user} == old(emitters) - {user}
      ensures State() == old(State()).WithEmitter(e, user)
    {
      if user !in emitters {
        emitters := emitters[user := []];
      }
      emitters := emitters[user := emitters[user] + [e]];
    }

    method DeleteEmitter(e: Id, user: Id)
      modifies this`emitters
      ensures user in emitters ==> emitters[user] != []
      ensures emitters - {user} == old(emitters) - {user}
      ensures State() == old(State()).WithoutEmitter(e, user)
    {
      if user in emitters {
        emitters := emitters[user := RemoveFirst(emitters[user], e)];
        if emitters[user] == [] {
          emitters := emitters - {user};
        }
      }
    }

    method SaveMessage(m: Message, user: Id)
      modifies this`messages
      ensures user in messages && 0 < |messages[user]| <= 10 && messages[user][|messages[user]| - 1] == m
      ensures messages - {user} == old(messages) - {user}
      ensures State() == old(State()).WithMessage(m, user)
    {
      var history := State().History(user) + [m];
      ghost var all, dropped := history, 0;
      while |history| > MAX_MESSAGE_HISTORY
        invariant 0 <= dropped <= |all| && history == all[dropped..]
        invariant dropped > 0 ==> |history| >= MAX_MESSAGE_HISTORY
        modifies {}
      {
        OneFewer(all, dropped);
        history := history[1..];
        dropped := dropped + 1;
      }
      assert all[0..] == all;
      assert history == Last(all, MAX_MESSAGE_HISTORY);
      messages := messages[user := history];
    }

    method FindAllMissedMessageByUserIdAndIdAfter(user: Id, lastMessageId: Id) returns (missed: seq<Message>)
      ensures missed == State().Missed(user, lastMessageId)
    {
      var history := State().History(user);
      var lastSeenIndex := -1;
      for i := 0 to |history|
        invariant lastSeenIndex == -1
        invariant forall k :: 0 <= k < i ==> history[k].id != lastMessageId
      {
        if history[i].id == lastMessageId {
          lastSeenIndex := i;
          break;
        }
      }
      return history[lastSeenIndex + 1..];
    }
  }

  class NotificationSessionRepository {
    var sessions: map<Id, set<Id>>

    constructor ()
      ensures sessions == map[]
    {
      sessions := map[];
    }

    method AddSession(user: Id, instance: Id)
      modifies this
      ensures user in sessions && forall i :: i in sessions[user] <==> i == instance || (user in old(sessions) && i in old(sessions)[user])
      ensures sessions - {user} == old(sessions) - {user}
      ensures sessions == WithSession(old(sessions), user, instance)
    {
      if user !in sessions {
        sessions := sessions[user := {}];
      }
      sessions := sessions[user := sessions[user] + {instance}];
    }

    method RemoveSession(user: Id, instance: Id)
      modifies this
      ensures user in sessions <==> user in old(sessions) && old(sessions)[user] - {instance} != {}
      ensures user in sessions ==> sessions[user] == old(sessions)[user] - {instance}
      ensures sessions - {user} == old(sessions) - {user}
      ensures sessions == WithoutSession(old(sessions), user, instance)
    {
      if user in sessions {
        sessions := sessions[user := sessions[user] - {instance}];
        if sessions[user] == {} {
          sessions := sessions - {user};
        }
      }
    }

    function FindInstanceIds(user: Id): set<Id>
      reads this
    {
      Listed(sessions, user)
    }
  }

  class SseService {
    const repository: SseRepository
    const routes: NotificationSessionRepository
    const instance: Id
    var delivered: seq<Delivery>
    var published: multiset<Parcel>

    constructor (repository: SseRepository, routes: NotificationSessionRepository, instance: Id)
      ensures this.repository == repository && this.routes == routes && this.instance == instance
      ensures delivered == [] && published == multiset{}
    {
      this.repository, this.routes, this.instance := repository, routes, instance;
      delivered, published := [], multiset{};
    }

    function State(): Local
      reads this, repository, routes
    {
      Local(repository.State(), routes.sessions, delivered, published)
    }

    method HandleDisconnect(e: Id, user: Id)
      modifies repository, routes
      ensures State() == Disconnected(old(State()), instance, e, user)
    {
      repository.DeleteEmitter(e, user);
      if repository.State().Of(user) == [] {
        routes.RemoveSession(user, instance);
      }
    }

    method SendToClient(e: Id, user: Id, m: Option<Id>, ok: bool)
      modifies this`delivered, repository, routes
      ensures State() == SentTo(old(State()), instance, e, user, m, ok)
    {
      if !ok {
        HandleDisconnect(e, user);
      } else if m.Some? {
        delivered := delivered + [Delivery(e, m.value)];
      }
    }

    /** The loop runs over the emitters there were when it began. */
    method SendToLocalClient(user: Id, m: Id, broken: set<Id>)
      modifies this`delivered, repository, routes
      ensures State() == SentLocally(old(State()), instance, user, m, broken)
    {
      var es := repository.State().Of(user);
      for k := 0 to |es|
        invariant State() == SentToEach(old(State()), instance, es[..k], user, Some(m), broken)
      {
        assert es[..k + 1][..k] == es[..k];
        SendToClient(es[k], user, Some(m), es[k] !in broken);
      }
      assert es[..|es|] == es;
    }

    /** What the heartbeat does for one connected user. */
    method PingAll(user: Id, broken: set<Id>)
      modifies this`delivered, repository, routes
      ensures State() == SentToEach(old(State()), instance, old(State()).node.Of(user), user, None, broken)
    {
      var es := repository.State().Of(user);
      for k := 0 to |es|
        invariant State() == SentToEach(old(State()), instance, es[..k], user, None, broken)
      {
        assert es[..k + 1][..k] == es[..k];
        SendToClient(es[k], user, None, es[k] !in broken);
      }
      assert es[..|es|] == es;
    }

    method Send(user: Id, m: Message, broken: set<Id>)
      modifies this, repository, routes
      ensures State() == Sent(old(State()), instance, user, m, broken)
    {
      repository.SaveMessage(m, user);
      SendOut(user, m, broken);
    }

    /** All messages are kept for replay before the first is sent. */
    method SendAll(posts: seq<Post>, broken: set<Id>)
      modifies this, repository, routes
      ensures State() == SentOneByOne(old(State()), instance, posts, broken)
    {
      hide SentOut, SentOneByOne, Node.WithMessage;
      for k := 0 to |posts|
        invariant State() == KeptAll(old(State()), posts[..k])
      {
        assert posts[..k + 1][..k] == posts[..k];
        repository.SaveMessage(posts[k].message, posts[k].user);
      }
      ghost var kept := State();
      for k := 0 to |posts|
        invariant State() == SentOutAll(kept, instance, posts[..k], broken)
      {
        assert posts[..k + 1][..k] == posts[..k];
        SendOut(posts[k].user, posts[k].message, broken);
      }
      assert posts[..|posts|] == posts;
      BatchIsOneByOne(old(State()), instance, posts, broken);
    }

    method SendOut(user: Id, m: Message, broken: set<Id>)
      modifies this, repository, routes
      ensures State() == SentOut(old(State()), instance, user, m, broken)
    {
      var targets := routes.FindInstanceIds(user);
      if instance in targets || repository.State().Of(user) != [] {
        SendToLocalClient(user, m.id, broken);
      }
      SendToRemoteInstances(targets - {instance}, user, m);
    }

    method SendToRemoteInstances(targets: set<Id>, user: Id, m: Message)
      modifies this`published
      ensures published == old(published) + multiset(ParcelsFor(targets, user, m))
    {
      var left := targets;
      ghost var done: set<Id> := {};
      while left != {}
        invariant left + done == targets && left !! done
        invariant published == old(published) + multiset(ParcelsFor(done, user, m))
        decreases left
      {
        var t :| t in left;
        OneMoreParcel(done, t, user, m);
        published := published + multiset{Parcel(t, user, m)};
        left := left - {t};
        done := done + {t};
      }
      assert done == targets;
    }

    method Connect(e: Id, user: Id, lastSeen: Option<Id>, ok: bool, through: nat)
      modifies this`delivered, repository, routes
      ensures State() == Connected(old(State()), instance, e, user, lastSeen, ok, through)
    {
      repository.SaveEmitter(e, user);
      routes.AddSession(user, instance);
      SendToClient(e, user, None, ok);
      if lastSeen.Some? {
        var missed := repository.FindAllMissedMessageByUserIdAndIdAfter(user, lastSeen.value);
        ghost var before := State();
        for k := 0 to |missed|
          invariant State() == Replayed(before, instance, e, user, missed[..k], if ok then through else 0)
        {
          assert missed[..k + 1][..k] == missed[..k];
          SendToClient(e, user, Some(missed[k].id), ok && k < through);
        }
        assert missed[..|missed|] == missed;
      }
    }
  }
}
