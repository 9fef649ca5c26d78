/**
  The replay history of one instance: what is kept, and what a returning client
  is sent.
*/
module SseHistory {
  import opened Entities
  import opened Sse
  import opened SseEffects

  function SavedAll(node: Node, posts: seq<Post>): Node
    decreases |posts|
  {
    if posts == [] then node
    else SavedAll(node, posts[..|posts| - 1]).WithMessage(posts[|posts| - 1].message, posts[|posts| - 1].user)
  }

  /** Everything ever sent to the user, in order. */
  function SentFor(posts: seq<Post>, user: Id): seq<Message>
    decreases |posts|
  {
    if posts == [] then []
    else
      SentFor(posts[..|posts| - 1], user) +
      if posts[|posts| - 1].user == user then [posts[|posts| - 1].message] else []
  }

  lemma LastOfLast(s: seq<Message>, x: Message, n: nat)
    requires n > 0
    ensures Last(Last(s, n) + [x], n) == Last(s + [x], n)
  {
    if |s| >= n {
      assert Last(s, n) + [x] == s[|s| - n..] + [x] == (s + [x])[|s| - n..];
      assert Last(s + [x], n) == (s + [x])[|s| + 1 - n..] == (s + [x])[|s| - n..][1..];
    }
  }

  /** Trimming after every message keeps the last ten messages of each user. */
  lemma {:induction false} HistoryIsLastTen(posts: seq<Post>, user: Id)
    ensures SavedAll(EMPTY_NODE, posts).History(user) == Last(SentFor(posts, user), MAX_MESSAGE_HISTORY)
    decreases |posts|
  {
    hide Last;
    if posts == [] {
      LastOfNone();
    } else {
      var n := |posts| - 1;
      HistoryIsLastTen(posts[..n], user);
      var ms := SentFor(posts[..n], user);
      LastOfLast(ms, posts[n].message, MAX_MESSAGE_HISTORY);
      assert ms + [] == ms;
    }
  }

  /** Of eleven messages sent to one user the history is the last ten. */
  lemma EleventhDropsFirst(user: Id, ms: seq<Message>)
    requires |ms| == 11
    ensures SavedAll(EMPTY_NODE, seq(11, i requires 0 <= i < 11 => Post(user, ms[i]))).History(user) == ms[1..]
  {
    hide SavedAll;
    var posts := seq(11, i requires 0 <= i < 11 => Post(user, ms[i]));
    HistoryIsLastTen(posts, user);
    AllForOne(posts, user, ms);
  }

  lemma {:induction false} AllForOne(posts: seq<Post>, user: Id, ms: seq<Message>)
    requires |ms| == |posts| && forall i :: 0 <= i < |ms| ==> posts[i] == Post(user, ms[i])
    ensures SentFor(posts, user) == ms
    decreases |posts|
  {
    if posts != [] {
      var n := |posts| - 1;
      AllForOne(posts[..n], user, ms[..n]);
      assert ms == ms[..n] + [ms[n]];
    }
  }

  lemma LastOfNone()
    ensures Last<Message>([], MAX_MESSAGE_HISTORY) == []
  {
  }

  lemma SeenInSuffix(ms: seq<Message>, n: nat, id: Id)
    requires DistinctIds(ms) && n <= |ms|
    ensures SeenUpTo(ms[n..], id) == if SeenUpTo(ms, id) <= n then 0 else SeenUpTo(ms, id) - n
  {
    hide SeenUpTo;
    var a, b := SeenUpTo(ms, id), SeenUpTo(ms[n..], id);
    assert forall k :: 0 <= k < |ms| - n ==> ms[n..][k] == ms[n + k];
    assert a > n ==> ms[n..][a - 1 - n].id == id;
    if b > 0 {
      assert ms[n + b - 1].id == id;
      assert a > 0 && ms[a - 1].id == id;
    }
  }

  /** Cutting to the last ten and then after a point is cutting after the point and then to the last ten. */
  lemma LastAfter(ms: seq<Message>, n: nat, a: nat)
    requires a <= |ms| && n == if |ms| <= MAX_MESSAGE_HISTORY then 0 else |ms| - MAX_MESSAGE_HISTORY
    ensures ms[n..][if a <= n then 0 else a - n..] == Last(ms[a..], MAX_MESSAGE_HISTORY)
  {
    if a <= n {
      assert ms[n..][0..] == ms[n..] == ms[a..][n - a..];
    } else {
      assert ms[n..][a - n..] == ms[a..];
    }
  }

  /** What a node replays if it keeps the last ten of these messages. */
  lemma MissedOfLast(node: Node, user: Id, ms: seq<Message>, lastSeen: Id)
    requires DistinctIds(ms) && node.History(user) == Last(ms, MAX_MESSAGE_HISTORY)
    ensures node.Missed(user, lastSeen) == Last(ms[SeenUpTo(ms, lastSeen)..], MAX_MESSAGE_HISTORY)
  {
    hide DistinctIds, SeenUpTo;
    var n := if |ms| <= MAX_MESSAGE_HISTORY then 0 else |ms| - MAX_MESSAGE_HISTORY;
    assert Last(ms, MAX_MESSAGE_HISTORY) == ms[n..];
    SeenInSuffix(ms, n, lastSeen);
    LastAfter(ms, n, SeenUpTo(ms, lastSeen));
  }

  /**
    A client that last saw a message is sent the last ten of the messages sent
    to it after that one, never one at or before it, however long ago it was
    dropped from the history; a client that names no message ever sent here gets
    the last ten.
  */
  lemma ReplayIsSuffix(posts: seq<Post>, user: Id, lastSeen: Id)
    requires DistinctIds(SentFor(posts, user))
    ensures var ms := SentFor(posts, user);
            var after := ms[SeenUpTo(ms, lastSeen)..];
            SavedAll(EMPTY_NODE, posts).Missed(user, lastSeen) == Last(after, MAX_MESSAGE_HISTORY)
  {
    hide SavedAll, SentFor, DistinctIds, SeenUpTo, Node.Missed;
    HistoryIsLastTen(posts, user);
    MissedOfLast(SavedAll(EMPTY_NODE, posts), user, SentFor(posts, user), lastSeen);
  }
}
