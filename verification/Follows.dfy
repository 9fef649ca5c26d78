/**
  Who follows whom (mopl-user), the events that tell of it, and the replica that
  mopl-playlist builds from them under at-least-once consumption.
*/
module Follows {
  import opened Entities

  datatype FollowEvent =
    | Followed(followee: Id, follower: Id)
    | Unfollowed(followee: Id, follower: Id)

  datatype Pair = Pair(followee: Id, follower: Id)

  /** The aggregate; `events` are the events registered since it was loaded. */
  datatype FolloweeRow = FolloweeRow(followers: set<Id>, followerCount: int)

  function Added(row: FolloweeRow, id: Id, who: Id): FolloweeRow {
    if who == id || who in row.followers then row
    else FolloweeRow(row.followers + {who}, row.followerCount + 1)
  }

  function AddEvents(row: FolloweeRow, id: Id, who: Id): seq<FollowEvent> {
    if who == id || who in row.followers then [] else [Followed(id, who)]
  }

  function Removed(row: FolloweeRow, who: Id): FolloweeRow {
    if who in row.followers then FolloweeRow(row.followers - {who}, row.followerCount - 1) else row
  }

  function RemoveEvents(row: FolloweeRow, id: Id, who: Id): seq<FollowEvent> {
    if who in row.followers then [Unfollowed(id, who)] else []
  }

  class Followee {
    const id: Id
    var followers: set<Id>
    var followerCount: int
    var events: seq<FollowEvent>

    constructor Create(id: Id)
      ensures this.id == id && Row() == FolloweeRow({}, 0) && events == []
    {
      this.id := id;
      followers, followerCount, events := {}, 0, [];
    }

    function Row(): FolloweeRow
      reads this
    {
      FolloweeRow(followers, followerCount)
    }

    method AddFollower(who: Id)
      modifies this
      ensures followers == if who == id then old(followers) else old(followers) + {who}
      ensures followerCount == old(followerCount) + if who == id || who in old(followers) then 0 else 1
      ensures events == old(events) + if who == id || who in old(followers) then [] else [Followed(id, who)]
      ensures Row() == Added(old(Row()), id, who)
      ensures events == old(events) + AddEvents(old(Row()), id, who)
    {
      if id == who {
        return;
      }
      if who in followers {
        return;
      }
      followers := followers + {who};
      followerCount := followerCount + 1;
      events := events + [Followed(id, who)];
    }

    method RemoveFollower(who: Id)
      modifies this
      ensures followers == old(followers) - {who}
      ensures followerCount == old(followerCount) - if who in old(followers) then 1 else 0
      ensures events == old(events) + if who in old(followers) then [Unfollowed(id, who)] else []
      ensures Row() == Removed(old(Row()), who)
      ensures events == old(events) + RemoveEvents(old(Row()), id, who)
    {
      var removed := who in followers;
      followers := followers - {who};
      if removed {
        followerCount := followerCount - 1;
        events := events + [Unfollowed(id, who)];
      }
    }
  }

  function Applied(replica: set<Pair>, e: FollowEvent): set<Pair> {
    match e
    case Followed(f, who) => replica + {Pair(f, who)}
    case Unfollowed(f, who) => replica - {Pair(f, who)}
  }

  class FollowEventListener {
    var views: set<Pair>

    constructor ()
      ensures views == {}
    {
      views := {};
    }

    method HandleFollowEvents(e: FollowEvent)
      modifies this
      ensures views == Applied(old(views), e)
    {
      if e.Followed? {
        views := views + {Pair(e.followee, e.follower)};
      } else if e.Unfollowed? {
        views := views - {Pair(e.followee, e.follower)};
      }
    }
  }

  // ---------- The topic and its consumer ----------

  /** Partition logs, the position of the consumer in each, and the replica. A followee's events all go to one partition. */
  datatype World = World(
    followees: map<Id, FolloweeRow>,
    logs: map<nat, seq<FollowEvent>>,
    positions: map<nat, nat>,
    replica: set<Pair>)
  {
    function Log(p: nat): seq<FollowEvent> {
      if p in logs then logs[p] else []
    }

    function Position(p: nat): nat {
      if p in positions then positions[p] else 0
    }
  }

  const NO_FOLLOWS := World(map[], map[], map[], {})

  datatype Action =
    | Register(followee: Id)
    | Follow(followee: Id, follower: Id)
    | Unfollow(followee: Id, follower: Id)
    | Consume(partition: nat)
    | Rewind(partition: nat, back: nat)

  function Append(w: World, p: nat, es: seq<FollowEvent>): World {
    w.(logs := w.logs[p := w.Log(p) + es])
  }

  /** One step. A rewind goes back as far as it likes; reading goes on one event at a time from there. */
  function Step(w: World, route: Id -> nat, a: Action): World {
    match a
    case Register(f) =>
      if f in w.followees then w else w.(followees := w.followees[f := FolloweeRow({}, 0)])
    case Follow(f, who) =>
      if f !in w.followees then w
      else
        Append(w.(followees := w.followees[f := Added(w.followees[f], f, who)]), route(f), AddEvents(w.followees[f], f, who))
    case Unfollow(f, who) =>
      if f !in w.followees then w
      else
        Append(w.(followees := w.followees[f := Removed(w.followees[f], who)]), route(f), RemoveEvents(w.followees[f], f, who))
    case Consume(p) =>
      if w.Position(p) >= |w.Log(p)| then w
      else w.(positions := w.positions[p := w.Position(p) + 1], replica := Applied(w.replica, w.Log(p)[w.Position(p)]))
    case Rewind(p, back) =>
      if back > w.Position(p) then w else w.(positions := w.positions[p := w.Position(p) - back])
  }

  function Exec(w: World, route: Id -> nat, acts: seq<Action>): World
    decreases |acts|
  {
    if acts == [] then w else Exec(Step(w, route, acts[0]), route, acts[1..])
  }

  // ---------- Who follows whom ----------

  /** A follow by somebody new, and not of oneself, adds one follower and registers one event; any other does nothing. */
  lemma FollowExactly(row: FolloweeRow, f: Id, who: Id)
    ensures var after, events := Added(row, f, who), AddEvents(row, f, who);
            if who == f || who in row.followers then after == row && events == []
            else
              && who in after.followers && (forall x :: x != who ==> (x in after.followers <==> x in row.followers))
              && after.followerCount == row.followerCount + 1 && events == [Followed(f, who)]
  {
  }

  lemma UnfollowExactly(row: FolloweeRow, f: Id, who: Id)
    ensures var after, events := Removed(row, who), RemoveEvents(row, f, who);
            if who !in row.followers then after == row && events == []
            else
              && who !in after.followers && (forall x :: x != who ==> (x in after.followers <==> x in row.followers))
              && after.followerCount == row.followerCount - 1 && events == [Unfollowed(f, who)]
  {
  }

  /** After the registration of the followee came a follow of the pair, and no unfollow of it since. */
  ghost predicate LastIsFollow(acts: seq<Action>, f: Id, who: Id) {
    exists r, k :: FollowedAt(acts, f, who, r, k)
  }

  ghost predicate FollowedAt(acts: seq<Action>, f: Id, who: Id, r: nat, k: nat) {
    && r < k < |acts| && acts[r] == Register(f) && acts[k] == Follow(f, who)
    && forall j :: k < j < |acts| ==> acts[j] != Unfollow(f, who)
  }

  lemma {:induction false} ExecSnoc(w: World, route: Id -> nat, acts: seq<Action>, a: Action)
    ensures Exec(w, route, acts + [a]) == Step(Exec(w, route, acts), route, a)
    decreases |acts|
  {
    hide Step;
    if acts == [] {
      assert [a][1..] == [];
    } else {
      assert (acts + [a])[1..] == acts[1..] + [a];
      ExecSnoc(Step(w, route, acts[0]), route, acts[1..], a);
    }
  }

  lemma OneMoreAction(earlier: seq<Action>, a: Action, f: Id, who: Id)
    ensures LastIsFollow(earlier + [a], f, who) <==>
            if a == Follow(f, who) then Register(f) in earlier
            else LastIsFollow(earlier, f, who) && a != Unfollow(f, who)
  {
    var acts, n := earlier + [a], |earlier|;
    assert forall j :: 0 <= j < n ==> acts[j] == earlier[j];
    if r: nat, k: nat :| FollowedAt(acts, f, who, r, k) {
      assert earlier[r] == Register(f);
      if k < n {
        assert acts[n] == a;
        assert FollowedAt(earlier, f, who, r, k);
      }
    }
    if r: nat, k: nat :| FollowedAt(earlier, f, who, r, k) {
      if a != Unfollow(f, who) {
        assert FollowedAt(acts, f, who, r, k);
      }
    }
    if a == Follow(f, who) && Register(f) in earlier {
      var r :| 0 <= r < n && earlier[r] == Register(f);
      assert FollowedAt(acts, f, who, r, n);
    }
  }

  /**
    In every run a followee is there exactly if it was registered; and somebody
    else follows it exactly if the last follow or unfollow of the pair since was a
    follow. Nobody follows themselves.
  */
  lemma {:induction false} FollowersAreLastWords(route: Id -> nat, acts: seq<Action>, f: Id, who: Id)
    ensures var w := Exec(NO_FOLLOWS, route, acts);
            && (f in w.followees <==> Register(f) in acts)
            && (f in w.followees ==> (who in w.followees[f].followers <==> who != f && LastIsFollow(acts, f, who)))
    decreases |acts|
  {
    hide Exec, LastIsFollow;
    if acts == [] {
      NothingDone(route);
    } else {
      var n := |acts| - 1;
      var earlier, a := acts[..n], acts[n];
      assert acts == earlier + [a];
      FollowersAreLastWords(route, earlier, f, who);
      ExecSnoc(NO_FOLLOWS, route, earlier, a);
      OneMoreAction(earlier, a, f, who);
      if Register(f) !in earlier {
        NeverFollowed(earlier, f, who);
      }
    }
  }

  lemma NothingDone(route: Id -> nat)
    ensures Exec(NO_FOLLOWS, route, []) == NO_FOLLOWS
  {
  }

  lemma NeverFollowed(acts: seq<Action>, f: Id, who: Id)
    requires Register(f) !in acts
    ensures !LastIsFollow(acts, f, who)
  {
  }

  // ---------- What a log says ----------

  predicate Concerns(e: FollowEvent, k: Pair) {
    e.followee == k.followee && e.follower == k.follower
  }

  /** Whether the pair follows after the first `n` events. */
  predicate Status(log: seq<FollowEvent>, n: nat, k: Pair)
    requires n <= |log|
  {
    if n == 0 then false
    else if Concerns(log[n - 1], k) then log[n - 1].Followed?
    else Status(log, n - 1, k)
  }

  /** The events of each pair alternate, beginning with a follow: no event repeats what already holds. */
  ghost predicate Alternates(log: seq<FollowEvent>) {
    forall n :: 0 <= n < |log| ==>
      (Status(log, n, Pair(log[n].followee, log[n].follower)) <==> log[n].Unfollowed?)
  }

  /** Follows minus unfollows of one followee. */
  function Net(log: seq<FollowEvent>, f: Id): int
    decreases |log|
  {
    if log == [] then 0
    else
      Net(log[..|log| - 1], f) +
      if log[|log| - 1].followee != f then 0 else if log[|log| - 1].Followed? then 1 else -1
  }

  lemma {:induction false} StatusOfPrefix(log: seq<FollowEvent>, more: seq<FollowEvent>, n: nat, k: Pair)
    requires n <= |log|
    ensures Status(log + more, n, k) == Status(log, n, k)
  {
    if n > 0 {
      StatusOfPrefix(log, more, n - 1, k);
    }
  }

  lemma NetAppend(log: seq<FollowEvent>, e: FollowEvent, f: Id)
    ensures Net(log + [e], f) == Net(log, f) + if e.followee != f then 0 else if e.Followed? then 1 else -1
  {
    assert (log + [e])[..|log|] == log;
  }

  // ---------- The invariant ----------

  /** The aggregates: the count is the size of the set, nobody follows themselves, and the log says the same. */
  ghost predicate SourceSound(w: World, route: Id -> nat) {
    && (forall f :: f in w.followees ==> FolloweeSound(w, route, f))
    && (forall p, n :: 0 <= n < |w.Log(p)| ==> w.Log(p)[n].followee in w.followees && route(w.Log(p)[n].followee) == p)
    && (forall p :: Alternates(w.Log(p)))
  }

  ghost predicate FolloweeSound(w: World, route: Id -> nat, f: Id)
    requires f in w.followees
  {
    RowAgrees(w.followees[f], w.Log(route(f)), f)
  }

  ghost predicate RowAgrees(row: FolloweeRow, log: seq<FollowEvent>, f: Id) {
    && row.followerCount == |row.followers| == Net(log, f)
    && f !in row.followers
    && forall who :: who in row.followers <==> Status(log, |log|, Pair(f, who))
  }

  /** The replica holds a pair if some state between the consumer's position and the end of the log does. */
  ghost predicate ReplicaSound(w: World, route: Id -> nat) {
    && (forall p :: w.Position(p) <= |w.Log(p)|)
    && (forall k: Pair :: Lags(w.Log(route(k.followee)), w.Position(route(k.followee)), k, k in w.replica))
  }

  ghost predicate Lags(log: seq<FollowEvent>, position: nat, k: Pair, holds: bool) {
    exists j :: position <= j <= |log| && Status(log, j, k) == holds
  }

  /** The row that an event leaves behind. */
  function RowAfter(row: FolloweeRow, e: FollowEvent): FolloweeRow {
    if e.Followed? then FolloweeRow(row.followers + {e.follower}, row.followerCount + 1)
    else FolloweeRow(row.followers - {e.follower}, row.followerCount - 1)
  }

  lemma StatusAppend(log: seq<FollowEvent>, e: FollowEvent, k: Pair)
    ensures Status(log + [e], |log| + 1, k) == if Concerns(e, k) then e.Followed? else Status(log, |log|, k)
  {
    StatusOfPrefix(log, [e], |log|, k);
  }

  lemma RowAppend(row: FolloweeRow, log: seq<FollowEvent>, f: Id, e: FollowEvent)
    requires RowAgrees(row, log, f) && e.followee == f && e.follower != f
    requires e.Followed? <==> e.follower !in row.followers
    ensures RowAgrees(RowAfter(row, e), log + [e], f)
  {
    hide Status;
    NetAppend(log, e, f);
    forall who
      ensures Status(log + [e], |log| + 1, Pair(f, who)) <==> who in RowAfter(row, e).followers
    {
      StatusAppend(log, e, Pair(f, who));
    }
  }

  lemma OtherRowAppend(row: FolloweeRow, log: seq<FollowEvent>, g: Id, e: FollowEvent)
    requires RowAgrees(row, log, g) && e.followee != g
    ensures RowAgrees(row, log + [e], g)
  {
    hide Status;
    NetAppend(log, e, g);
    forall who
      ensures Status(log + [e], |log| + 1, Pair(g, who)) <==> who in row.followers
    {
      StatusAppend(log, e, Pair(g, who));
    }
  }

  lemma AppendedSound(w: World, route: Id -> nat, f: Id, e: FollowEvent)
    requires SourceSound(w, route) && f in w.followees && e.followee == f && e.follower != f
    requires e.Followed? <==> e.follower !in w.followees[f].followers
    ensures SourceSound(Append(w.(followees := w.followees[f := RowAfter(w.followees[f], e)]), route(f), [e]), route)
  {
    hide RowAgrees, Alternates, RowAfter;
    var after := Append(w.(followees := w.followees[f := RowAfter(w.followees[f], e)]), route(f), [e]);
    assert forall p :: after.Log(p) == if p == route(f) then w.Log(p) + [e] else w.Log(p);
    forall g | g in after.followees
      ensures FolloweeSound(after, route, g)
    {
      assert FolloweeSound(w, route, g);
      if g == f {
        RowAppend(w.followees[f], w.Log(route(f)), f, e);
      } else if route(g) == route(f) {
        OtherRowAppend(w.followees[g], w.Log(route(g)), g, e);
      }
    }
    AppendAlternates(w, route, f, e);
  }

  lemma AppendAlternates(w: World, route: Id -> nat, f: Id, e: FollowEvent)
    requires SourceSound(w, route) && f in w.followees && e.followee == f
    requires e.Followed? <==> e.follower !in w.followees[f].followers
    ensures Alternates(w.Log(route(f)) + [e])
  {
    hide Alternates, Status;
    assert FolloweeSound(w, route, f);
    OneMoreAlternates(w.Log(route(f)), e);
  }

  lemma OneMoreAlternates(log: seq<FollowEvent>, e: FollowEvent)
    requires Alternates(log) && (Status(log, |log|, Pair(e.followee, e.follower)) <==> e.Unfollowed?)
    ensures Alternates(log + [e])
  {
    hide Status;
    var more := log + [e];
    forall n | 0 <= n < |more|
      ensures Status(more, n, Pair(more[n].followee, more[n].follower)) <==> more[n].Unfollowed?
    {
      StatusOfPrefix(log, [e], n, Pair(more[n].followee, more[n].follower));
      if n < |log| {
        assert more[n] == log[n];
      }
    }
  }

  // How lag behaves on one log.

  lemma LagsOnLonger(log: seq<FollowEvent>, es: seq<FollowEvent>, position: nat, k: Pair, holds: bool)
    requires Lags(log, position, k, holds)
    ensures Lags(log + es, position, k, holds)
  {
    var j :| position <= j <= |log| && Status(log, j, k) == holds;
    StatusOfPrefix(log, es, j, k);
  }

  lemma LagsAfterReading(log: seq<FollowEvent>, c: nat, k: Pair, holds: bool)
    requires Lags(log, c, k, holds) && c < |log|
    ensures Lags(log, c + 1, k, if Concerns(log[c], k) then log[c].Followed? else holds)
  {
    var j :| c <= j <= |log| && Status(log, j, k) == holds;
    if Concerns(log[c], k) {
      assert Status(log, c + 1, k) == log[c].Followed?;
    } else if j == c {
      assert Status(log, c + 1, k) == holds;
    }
  }

  lemma LagsFurtherBack(log: seq<FollowEvent>, position: nat, back: nat, k: Pair, holds: bool)
    requires Lags(log, position, k, holds) && back <= position
    ensures Lags(log, position - back, k, holds)
  {
  }

  lemma InBounds(w: World, route: Id -> nat, p: nat)
    requires ReplicaSound(w, route)
    ensures w.Position(p) <= |w.Log(p)|
  {
  }

  lemma PairLags(w: World, route: Id -> nat, k: Pair)
    requires ReplicaSound(w, route)
    ensures Lags(w.Log(route(k.followee)), w.Position(route(k.followee)), k, k in w.replica)
  {
  }

  lemma AppendLags(w: World, route: Id -> nat, p: nat, es: seq<FollowEvent>)
    requires ReplicaSound(w, route)
    ensures ReplicaSound(Append(w, p, es), route)
  {
    hide Lags;
    var after := Append(w, p, es);
    forall q
      ensures after.Position(q) <= |after.Log(q)|
    {
      InBounds(w, route, q);
    }
    forall k: Pair
      ensures Lags(after.Log(route(k.followee)), after.Position(route(k.followee)), k, k in after.replica)
    {
      PairLags(w, route, k);
      if route(k.followee) == p {
        LagsOnLonger(w.Log(p), es, w.Position(p), k, k in w.replica);
      }
    }
  }

  lemma AppliedTo(replica: set<Pair>, e: FollowEvent, k: Pair)
    ensures k in Applied(replica, e) <==> if Concerns(e, k) then e.Followed? else k in replica
    ensures Concerns(e, k) ==> e.followee == k.followee
  {
  }

  lemma ConsumeLags(w: World, route: Id -> nat, p: nat)
    requires SourceSound(w, route) && ReplicaSound(w, route)
    ensures ReplicaSound(Step(w, route, Consume(p)), route)
  {
    hide Lags, Applied, Concerns, RowAgrees, Alternates;
    var after := Step(w, route, Consume(p));
    var c := w.Position(p);
    if c < |w.Log(p)| {
      var e := w.Log(p)[c];
      assert route(e.followee) == p;
      forall q
        ensures after.Position(q) <= |after.Log(q)|
      {
        InBounds(w, route, q);
      }
      forall k: Pair
        ensures Lags(after.Log(route(k.followee)), after.Position(route(k.followee)), k, k in after.replica)
      {
        PairLags(w, route, k);
        AppliedTo(w.replica, e, k);
        if route(k.followee) == p {
          LagsAfterReading(w.Log(p), c, k, k in w.replica);
        }
      }
    }
  }

  lemma RewindLags(w: World, route: Id -> nat, p: nat, back: nat)
    requires ReplicaSound(w, route)
    ensures ReplicaSound(Step(w, route, Rewind(p, back)), route)
  {
    hide Lags;
    var after := Step(w, route, Rewind(p, back));
    if back <= w.Position(p) {
      forall q
        ensures after.Position(q) <= |after.Log(q)|
      {
        InBounds(w, route, q);
      }
      forall k: Pair
        ensures Lags(after.Log(route(k.followee)), after.Position(route(k.followee)), k, k in after.replica)
      {
        PairLags(w, route, k);
        if route(k.followee) == p {
          LagsFurtherBack(w.Log(p), w.Position(p), back, k, k in w.replica);
        }
      }
    }
  }

  lemma {:induction false} NoEvents(log: seq<FollowEvent>, f: Id, who: Id)
    requires forall n :: 0 <= n < |log| ==> log[n].followee != f
    ensures Net(log, f) == 0 && !Status(log, |log|, Pair(f, who))
    decreases |log|
  {
    if log != [] {
      var n := |log| - 1;
      NoEvents(log[..n], f, who);
      assert log == log[..n] + [log[n]];
      StatusOfPrefix(log[..n], [log[n]], n, Pair(f, who));
    }
  }

  lemma NewAgrees(log: seq<FollowEvent>, f: Id)
    requires forall n :: 0 <= n < |log| ==> log[n].followee != f
    ensures RowAgrees(FolloweeRow({}, 0), log, f)
  {
    NoEvents(log, f, 0);
    forall who
      ensures !Status(log, |log|, Pair(f, who))
    {
      NoEvents(log, f, who);
    }
  }

  lemma RegisterSound(w: World, route: Id -> nat, f: Id)
    requires SourceSound(w, route)
    ensures SourceSound(Step(w, route, Register(f)), route)
  {
    hide Alternates, RowAgrees;
    var after := Step(w, route, Register(f));
    if f !in w.followees {
      assert forall p :: after.Log(p) == w.Log(p);
      forall g | g in after.followees
        ensures FolloweeSound(after, route, g)
      {
        if g == f {
          NewAgrees(w.Log(route(f)), f);
        } else {
          assert FolloweeSound(w, route, g);
        }
      }
    }
  }

  /** The same aggregates and the same logs, whatever the consumer did. */
  lemma SameSource(w: World, after: World, route: Id -> nat)
    requires SourceSound(w, route) && after.followees == w.followees && forall p :: after.Log(p) == w.Log(p)
    ensures SourceSound(after, route)
  {
    hide Alternates, RowAgrees;
    forall g | g in after.followees
      ensures FolloweeSound(after, route, g)
    {
      assert FolloweeSound(w, route, g);
    }
  }

  lemma NothingAppended(w: World, route: Id -> nat, p: nat)
    requires SourceSound(w, route)
    ensures SourceSound(Append(w, p, []), route)
  {
    assert w.Log(p) + [] == w.Log(p);
    SameSource(w, Append(w, p, []), route);
  }

  lemma FollowSound(w: World, route: Id -> nat, f: Id, who: Id)
    requires SourceSound(w, route) && f in w.followees
    ensures SourceSound(Step(w, route, Follow(f, who)), route)
  {
    hide SourceSound;
    var row := w.followees[f];
    if who == f || who in row.followers {
      assert w.followees[f := row] == w.followees;
      NothingAppended(w, route, route(f));
    } else {
      AppendedSound(w, route, f, Followed(f, who));
    }
  }

  lemma UnfollowSound(w: World, route: Id -> nat, f: Id, who: Id)
    requires SourceSound(w, route) && f in w.followees
    ensures SourceSound(Step(w, route, Unfollow(f, who)), route)
  {
    var row := w.followees[f];
    if who in row.followers {
      NotSelf(w, route, f);
      AppendedSound(w, route, f, Unfollowed(f, who));
    } else {
      assert w.followees[f := row] == w.followees;
      NothingAppended(w, route, route(f));
    }
  }

  lemma NotSelf(w: World, route: Id -> nat, f: Id)
    requires SourceSound(w, route) && f in w.followees
    ensures f !in w.followees[f].followers
  {
    assert FolloweeSound(w, route, f);
  }

  lemma StepSound(w: World, route: Id -> nat, a: Action)
    requires SourceSound(w, route) && ReplicaSound(w, route)
    ensures SourceSound(Step(w, route, a), route) && ReplicaSound(Step(w, route, a), route)
  {
    hide SourceSound, ReplicaSound;
    match a
    case Register(f) =>
      RegisterSound(w, route, f);
      SameReplica(w, Step(w, route, a), route);
    case Follow(f, who) =>
      if f in w.followees {
        FollowSound(w, route, f, who);
        var mid := w.(followees := w.followees[f := Added(w.followees[f], f, who)]);
        SameReplica(w, mid, route);
        AppendLags(mid, route, route(f), AddEvents(w.followees[f], f, who));
      }
    case Unfollow(f, who) =>
      if f in w.followees {
        UnfollowSound(w, route, f, who);
        var mid := w.(followees := w.followees[f := Removed(w.followees[f], who)]);
        SameReplica(w, mid, route);
        AppendLags(mid, route, route(f), RemoveEvents(w.followees[f], f, who));
      }
    case Consume(p) =>
      ConsumeLags(w, route, p);
      SameSource(w, Step(w, route, a), route);
    case Rewind(p, back) =>
      RewindLags(w, route, p, back);
      SameSource(w, Step(w, route, a), route);
  }

  lemma SameReplica(w: World, after: World, route: Id -> nat)
    requires ReplicaSound(w, route)
    requires after.logs == w.logs && after.positions == w.positions && after.replica == w.replica
    ensures ReplicaSound(after, route)
  {
    hide Lags;
    forall p
      ensures after.Log(p) == w.Log(p) && after.Position(p) == w.Position(p)
      ensures after.Position(p) <= |after.Log(p)|
    {
      InBounds(w, route, p);
    }
    forall k: Pair
      ensures Lags(after.Log(route(k.followee)), after.Position(route(k.followee)), k, k in after.replica)
    {
      PairLags(w, route, k);
    }
  }

  lemma {:induction false} RunSound(w: World, route: Id -> nat, acts: seq<Action>)
    requires SourceSound(w, route) && ReplicaSound(w, route)
    ensures SourceSound(Exec(w, route, acts), route) && ReplicaSound(Exec(w, route, acts), route)
    decreases |acts|
  {
    hide SourceSound, ReplicaSound, Step;
    if acts != [] {
      StepSound(w, route, acts[0]);
      RunSound(Step(w, route, acts[0]), route, acts[1..]);
    }
  }

  lemma NoFollowsSound(route: Id -> nat)
    ensures SourceSound(NO_FOLLOWS, route) && ReplicaSound(NO_FOLLOWS, route)
  {
    forall k: Pair
      ensures Lags([], 0, k, false)
    {
      assert !Status([], 0, k);
    }
  }

  /**
    The count of followers is the size of the set and the follows less the
    unfollows in the topic; and the events of each pair alternate, so none
    repeats what already holds.
  */
  lemma CountsAndEventsAgree(route: Id -> nat, acts: seq<Action>, f: Id)
    requires f in Exec(NO_FOLLOWS, route, acts).followees
    ensures var w := Exec(NO_FOLLOWS, route, acts);
            var row := w.followees[f];
            && row.followerCount == |row.followers| == Net(w.Log(route(f)), f)
            && f !in row.followers
            && Alternates(w.Log(route(f)))
  {
    hide Exec, Net, Alternates, ReplicaSound;
    NoFollowsSound(route);
    RunSound(NO_FOLLOWS, route, acts);
    assert FolloweeSound(Exec(NO_FOLLOWS, route, acts), route, f);
  }

  /**
    However often the consumer was set back and read events again, once it has
    reached the end of a partition the replica is right about every pair of the
    followees in it; and until then it only lags.
  */
  lemma ReplicaConverges(route: Id -> nat, acts: seq<Action>, f: Id, who: Id)
    requires f in Exec(NO_FOLLOWS, route, acts).followees
    ensures var w := Exec(NO_FOLLOWS, route, acts);
            var log := w.Log(route(f));
            var position := w.Position(route(f));
            && Lags(log, position, Pair(f, who), Pair(f, who) in w.replica)
            && (position == |log| ==> (Pair(f, who) in w.replica <==> who in w.followees[f].followers))
  {
    hide Exec, Net, Alternates, Status;
    NoFollowsSound(route);
    RunSound(NO_FOLLOWS, route, acts);
    var w := Exec(NO_FOLLOWS, route, acts);
    assert FolloweeSound(w, route, f);
    var k := Pair(f, who);
    assert Lags(w.Log(route(k.followee)), w.Position(route(k.followee)), k, k in w.replica);
  }
}
