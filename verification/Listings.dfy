/**
  The listings of contents, notifications and accounts, and what a client gets
  that follows their cursors.
*/
module Listings {
  import opened Entities
  import opened Keyset

  /** An answer: the rows, and the two parts of the cursor of the next page. */
  datatype Response = Response(items: seq<Id>, hasNext: bool, nextCursor: Option<int>, nextIdAfter: Option<Id>)

  function Ids(ps: seq<Position>): seq<Id> {
    seq(|ps|, i requires 0 <= i < |ps| => ps[i].id)
  }

  /** A cursor counts only if both of its parts are there. */
  function CursorOf(cursor: Option<int>, idAfter: Option<Id>): Option<Position> {
    if cursor.None? || idAfter.None? then None else Some(Position(cursor.value, idAfter.value))
  }

  function ResponseOf(dir: Direction, rows: set<Position>, cursor: Option<int>, idAfter: Option<Id>, limit: nat): Response
    requires limit > 0
  {
    var page := PageOf(dir, rows, CursorOf(cursor, idAfter), limit);
    Response(
      Ids(page.items), page.hasNext,
      if page.next.Some? then Some(page.next.value.key) else None,
      if page.next.Some? then Some(page.next.value.id) else None)
  }

  predicate StartsAt(text: string, word: string, k: nat) {
    k + |word| <= |text| && text[k..k + |word|] == word
  }

  predicate Contains(text: string, word: string) {
    exists k :: 0 <= k <= |text| && StartsAt(text, word, k)
  }

  // ---------- Contents ----------

  datatype SortContentBy = CreatedAt | Rate | WatcherCount

  datatype Catalogued = Catalogued(
    active: bool, kind: Id, title: string, createdAt: Time, averageTenths: int, watcherCount: nat)

  /** `typeEqual` is absent also when it names no type. */
  datatype ContentRequest = ContentRequest(
    typeEqual: Option<Id>,
    keywordLike: string,
    cursor: Option<int>,
    idAfter: Option<Id>,
    limit: Option<int>,
    sortBy: Option<SortContentBy>,
    direction: Option<Direction>)
  {
    function Limit(): (n: nat)
      ensures n > 0
    {
      if limit.None? || limit.value <= 0 then 20 else limit.value
    }

    function By(): SortContentBy {
      if sortBy.None? then CreatedAt else sortBy.value
    }

    function Dir(): Direction {
      if direction.None? then Descending else direction.value
    }
  }

  function ContentKey(row: Catalogued, sortBy: SortContentBy): int {
    match sortBy
    case CreatedAt => row.createdAt
    case Rate => row.averageTenths
    case WatcherCount => row.watcherCount
  }

  predicate ContentMatches(row: Catalogued, q: ContentRequest) {
    && row.active
    && (q.keywordLike == "" || Contains(row.title, q.keywordLike))
    && (q.typeEqual.None? || row.kind == q.typeEqual.value)
  }

  function ContentPositions(rows: map<Id, Catalogued>, q: ContentRequest): set<Position> {
    set id | id in rows && ContentMatches(rows[id], q) :: Position(ContentKey(rows[id], q.By()), id)
  }

  function GetContentsOf(rows: map<Id, Catalogued>, q: ContentRequest): Response {
    ResponseOf(q.Dir(), ContentPositions(rows, q), q.cursor, q.idAfter, q.Limit())
  }

  datatype Slice = Slice(content: seq<Id>, hasNext: bool)

  /** One row more than a page holds is the page and, if a page follows, one row to cut off. */
  lemma SelectsRows(dir: Direction, rows: set<Position>, cursor: Option<Position>, limit: nat)
    requires limit > 0
    ensures var found := Select(dir, rows, cursor, limit + 1);
            var page := PageOf(dir, rows, cursor, limit);
            && (forall p :: p in found ==> p in rows)
            && (page.hasNext <==> |found| > limit)
            && |found| <= limit + 1
            && page.items == if |found| > limit then found[..limit] else found
  {
    hide Sorted;
    var all := Sorted(dir, After(dir, rows, cursor));
    SortedIsSorted(dir, After(dir, rows, cursor));
    var found := Select(dir, rows, cursor, limit + 1);
    assert forall p :: p in found ==> p in all;
    assert found[..if |found| > limit then limit else 0] == all[..if |all| > limit then limit else 0];
  }

  class ContentRepository {
    var rows: map<Id, Catalogued>

    constructor ()
      ensures rows == map[]
    {
      rows := map[];
    }

    method FindAll(q: ContentRequest) returns (slice: Slice)
      ensures var page := PageOf(q.Dir(), ContentPositions(rows, q), CursorOf(q.cursor, q.idAfter), q.Limit());
              slice == Slice(Ids(page.items), page.hasNext)
      ensures forall id :: id in slice.content ==> id in rows && ContentMatches(rows[id], q)
    {
      hide PageOf, Select, ContentMatches;
      var limit := q.Limit();
      var found := Select(q.Dir(), ContentPositions(rows, q), CursorOf(q.cursor, q.idAfter), limit + 1);
      SelectsRows(q.Dir(), ContentPositions(rows, q), CursorOf(q.cursor, q.idAfter), limit);
      var contentIds := Ids(found);
      var hasNext := false;
      if |contentIds| > limit {
        contentIds := contentIds[..limit] + contentIds[limit + 1..];
        hasNext := true;
      }
      assert contentIds == Ids(if hasNext then found[..limit] else found);
      assert forall i :: 0 <= i < |contentIds| ==> contentIds[i] == found[i].id && found[i] in found;
      return Slice(contentIds, hasNext);
    }
  }

  class ContentCompositeService {
    const repository: ContentRepository

    constructor (repository: ContentRepository)
      ensures this.repository == repository
    {
      this.repository := repository;
    }

    method GetContents(q: ContentRequest) returns (r: Response)
      ensures r == GetContentsOf(repository.rows, q)
    {
      var slice := repository.FindAll(q);
      var nextCursor: Option<int> := None;
      var nextIdAfter: Option<Id> := None;
      LastOfPage(q.Dir(), ContentPositions(repository.rows, q), CursorOf(q.cursor, q.idAfter), q.Limit());
      if slice.hasNext {
        var lastItem := slice.content[|slice.content| - 1];
        var row := repository.rows[lastItem];
        match q.By() {
          case CreatedAt => nextCursor := Some(row.createdAt);
          case WatcherCount => nextCursor := Some(row.watcherCount);
          case Rate => nextCursor := Some(row.averageTenths);
        }
        nextIdAfter := Some(lastItem);
      }
      return Response(slice.content, slice.hasNext, nextCursor, nextIdAfter);
    }
  }

  /** The last item of a page that another follows is a row of the listing, and the next cursor. */
  lemma LastOfPage(dir: Direction, rows: set<Position>, cursor: Option<Position>, limit: nat)
    requires limit > 0
    ensures var page := PageOf(dir, rows, cursor, limit);
            page.hasNext ==>
              && |page.items| == limit && page.next == Some(page.items[limit - 1])
              && page.next.value in rows
  {
    var page := PageOf(dir, rows, cursor, limit);
    if page.hasNext {
      PageFacts(dir, rows, cursor, limit, page.next.value);
    }
  }

  // ---------- Notifications ----------

  datatype Notification = Notification(receiver: Id, createdAt: Time)

  datatype NotificationRequest = NotificationRequest(
    cursor: Option<int>, idAfter: Option<Id>, limit: nat, descending: bool)
  {
    function Dir(): Direction {
      if descending then Descending else Ascending
    }
  }

  function NotificationPositions(rows: map<Id, Notification>, receiver: Id): set<Position> {
    set id | id in rows && rows[id].receiver == receiver :: Position(rows[id].createdAt, id)
  }

  class NotificationQueryService {
    var rows: map<Id, Notification>

    constructor ()
      ensures rows == map[]
    {
      rows := map[];
    }

    method FindAll(q: NotificationRequest, receiver: Id) returns (content: seq<Position>, hasNext: bool)
      requires q.limit > 0
      ensures var page := PageOf(q.Dir(), NotificationPositions(rows, receiver), CursorOf(q.cursor, q.idAfter), q.limit);
              content == page.items && hasNext == page.hasNext
    {
      content := Select(q.Dir(), NotificationPositions(rows, receiver), CursorOf(q.cursor, q.idAfter), q.limit + 1);
      hasNext := false;
      if |content| > q.limit {
        content := content[..q.limit] + content[q.limit + 1..];
        hasNext := true;
      }
    }

    /** A request for less than one row is refused before it gets here. */
    method Get(q: NotificationRequest, receiver: Id) returns (r: Response)
      requires q.limit > 0
      ensures r == ResponseOf(q.Dir(), NotificationPositions(rows, receiver), q.cursor, q.idAfter, q.limit)
    {
      var data, hasNext := FindAll(q, receiver);
      var nextCursor: Option<int> := None;
      var nextIdAfter: Option<Id> := None;
      if hasNext {
        nextCursor := Some(data[q.limit - 1].key);
        nextIdAfter := Some(data[q.limit - 1].id);
      }
      return Response(Ids(data), hasNext, nextCursor, nextIdAfter);
    }
  }

  // ---------- Accounts ----------

  datatype SortAccountBy = Name | Email | JoinedAt | IsLocked | ByRole

  /** Names, addresses and roles are given by their rank in the order of the database. */
  datatype Account = Account(email: string, emailRank: int, nameRank: int, createdAt: Time, locked: bool, role: int)

  datatype AccountRequest = AccountRequest(
    emailLike: string,
    roleEqual: Option<int>,
    isLocked: Option<bool>,
    cursor: Option<int>,
    idAfter: Option<Id>,
    limit: int,
    sortBy: SortAccountBy,
    direction: Direction)

  function AccountKey(row: Account, sortBy: SortAccountBy): int {
    match sortBy
    case Name => row.nameRank
    case Email => row.emailRank
    case JoinedAt => row.createdAt
    case IsLocked => if row.locked then 1 else 0
    case ByRole => row.role
  }

  predicate AccountMatches(row: Account, q: AccountRequest) {
    && (q.emailLike == "" || Contains(row.email, q.emailLike))
    && (q.roleEqual.None? || row.role == q.roleEqual.value)
    && (q.isLocked.None? || row.locked == q.isLocked.value)
  }

  function AccountPositions(rows: map<Id, Account>, q: AccountRequest): set<Position> {
    set id | id in rows && AccountMatches(rows[id], q) :: Position(AccountKey(rows[id], q.sortBy), id)
  }

  /** The repository returns one row more than asked for. */
  function FindAllAccounts(rows: map<Id, Account>, q: AccountRequest): seq<Position>
    requires q.limit >= 0
  {
    Select(q.direction, AccountPositions(rows, q), CursorOf(q.cursor, q.idAfter), 1 + q.limit)
  }

  /** The services above it cut the row off. A limit below one is refused when the page is built. */
  function GetUsers(rows: map<Id, Account>, q: AccountRequest): Option<Response> {
    if q.limit <= 0 then None
    else
      var accounts := FindAllAccounts(rows, q);
      var hasNext := |accounts| > q.limit;
      var data := if hasNext then accounts[..q.limit] else accounts;
      var last := if hasNext then Some(data[|data| - 1]) else None;
      Some(Response(
        Ids(data), hasNext,
        if last.Some? then Some(last.value.key) else None,
        if last.Some? then Some(last.value.id) else None))
  }

  /** One row too many is as good as a look at the next page, for every sort key. */
  lemma GetUsersIsPage(rows: map<Id, Account>, q: AccountRequest)
    requires q.limit > 0
    ensures GetUsers(rows, q) ==
            Some(ResponseOf(q.direction, AccountPositions(rows, q), q.cursor, q.idAfter, q.limit))
  {
    var all := Sorted(q.direction, After(q.direction, AccountPositions(rows, q), CursorOf(q.cursor, q.idAfter)));
    if |all| > 1 + q.limit {
      assert all[..1 + q.limit][..q.limit] == all[..q.limit];
    }
  }

  // ---------- What an answer is ----------

  /** Ahead in a listing by key, the id deciding where keys tie. */
  predicate Ahead(ascending: bool, x: int, i: Id, y: int, j: Id) {
    if ascending then x < y || (x == y && i < j) else x > y || (x == y && i > j)
  }

  /** Behind the cursor, if there is a whole one. */
  predicate Behind(ascending: bool, cursor: Option<int>, idAfter: Option<Id>, x: int, i: Id) {
    cursor.Some? && idAfter.Some? ==> Ahead(ascending, cursor.value, idAfter.value, x, i)
  }

  /**
    The answer that rows with these keys should get: rows behind the cursor, in
    order, at most `limit`, none passed over; whether others follow; and then key
    and id of the last row, as the cursor of the next page.
  */
  ghost predicate IsAnswer(
      keys: map<Id, int>, ascending: bool, cursor: Option<int>, idAfter: Option<Id>, limit: nat, r: Response) {
    && |r.items| <= limit
    && (forall i :: 0 <= i < |r.items| ==>
          r.items[i] in keys && Behind(ascending, cursor, idAfter, keys[r.items[i]], r.items[i]))
    && (forall i, j :: 0 <= i < j < |r.items| ==>
          Ahead(ascending, keys[r.items[i]], r.items[i], keys[r.items[j]], r.items[j]))
    && (forall id :: PassedOver(keys, ascending, cursor, idAfter, r.items, id) ==>
          r.hasNext && forall i :: 0 <= i < |r.items| ==> Ahead(ascending, keys[r.items[i]], r.items[i], keys[id], id))
    && (r.hasNext ==> exists id :: PassedOver(keys, ascending, cursor, idAfter, r.items, id))
    && (if r.hasNext
        then
          && |r.items| == limit > 0
          && r.nextCursor == Some(keys[r.items[limit - 1]]) && r.nextIdAfter == Some(r.items[limit - 1])
        else r.nextCursor == None && r.nextIdAfter == None)
  }

  predicate PassedOver(
      keys: map<Id, int>, ascending: bool, cursor: Option<int>, idAfter: Option<Id>, items: seq<Id>, id: Id) {
    id in keys && id !in items && Behind(ascending, cursor, idAfter, keys[id], id)
  }

  function Placed(keys: map<Id, int>): set<Position> {
    set id | id in keys :: Position(keys[id], id)
  }

  lemma AheadIsPrecedes(ascending: bool, p: Position, q: Position)
    ensures Precedes(if ascending then Ascending else Descending, p, q) <==> Ahead(ascending, p.key, p.id, q.key, q.id)
  {
  }

  /** Pages are answers. */
  lemma PagesAreAnswers(keys: map<Id, int>, ascending: bool, cursor: Option<int>, idAfter: Option<Id>, limit: nat)
    requires limit > 0
    ensures IsAnswer(
              keys, ascending, cursor, idAfter, limit,
              ResponseOf(if ascending then Ascending else Descending, Placed(keys), cursor, idAfter, limit))
  {
    hide Sorted, Precedes, Ahead;
    var dir := if ascending then Ascending else Descending;
    var r := ResponseOf(dir, Placed(keys), cursor, idAfter, limit);
    var behind := After(dir, Placed(keys), CursorOf(cursor, idAfter));
    var all := Sorted(dir, behind);
    SortedIsSorted(dir, behind);
    forall p, q
      ensures Precedes(dir, p, q) <==> Ahead(ascending, p.key, p.id, q.key, q.id)
    {
      AheadIsPrecedes(ascending, p, q);
    }
    forall i | 0 <= i < |all|
      ensures all[i].id in keys && keys[all[i].id] == all[i].key
      ensures Behind(ascending, cursor, idAfter, all[i].key, all[i].id)
    {
      assert all[i] in behind;
    }
    forall id | id in keys && Behind(ascending, cursor, idAfter, keys[id], id)
      ensures Position(keys[id], id) in all
    {
      assert Position(keys[id], id) in Placed(keys);
    }
    RestIsPassedOver(keys, ascending, cursor, idAfter, limit, all, r);
  }

  /** What the page leaves of the whole listing is what it passes over. */
  lemma RestIsPassedOver(
      keys: map<Id, int>, ascending: bool, cursor: Option<int>, idAfter: Option<Id>, limit: nat,
      all: seq<Position>, r: Response)
    requires limit > 0
    requires forall i, j :: 0 <= i < j < |all| ==> Ahead(ascending, all[i].key, all[i].id, all[j].key, all[j].id)
    requires forall i :: 0 <= i < |all| ==>
               && all[i].id in keys && keys[all[i].id] == all[i].key
               && Behind(ascending, cursor, idAfter, all[i].key, all[i].id)
    requires forall id :: id in keys && Behind(ascending, cursor, idAfter, keys[id], id) ==> Position(keys[id], id) in all
    requires r.items == Ids(if |all| > limit then all[..limit] else all)
    requires r.hasNext <==> |all| > limit
    requires r.nextCursor == (if |all| > limit then Some(all[limit - 1].key) else None)
    requires r.nextIdAfter == (if |all| > limit then Some(all[limit - 1].id) else None)
    ensures IsAnswer(keys, ascending, cursor, idAfter, limit, r)
  {
    hide Behind, Ahead, PassedOver;
    PassedOverIsBehind(keys, ascending, cursor, idAfter, r.items);
    assert forall i :: 0 <= i < |r.items| ==> r.items[i] == all[i].id;
    forall id | PassedOver(keys, ascending, cursor, idAfter, r.items, id)
      ensures r.hasNext
      ensures forall i :: 0 <= i < |r.items| ==> Ahead(ascending, keys[r.items[i]], r.items[i], keys[id], id)
    {
      ComesLater(keys, ascending, cursor, idAfter, all, r.items, id);
    }
    if r.hasNext {
      NextIsPassedOver(keys, ascending, cursor, idAfter, limit, all, r.items);
    }
  }

  lemma PassedOverIsBehind(
      keys: map<Id, int>, ascending: bool, cursor: Option<int>, idAfter: Option<Id>, items: seq<Id>)
    ensures forall id :: PassedOver(keys, ascending, cursor, idAfter, items, id) ==>
                           id in keys && Behind(ascending, cursor, idAfter, keys[id], id)
  {
  }

  /** What is passed over comes after all items, and there are more rows than items. */
  lemma ComesLater(
      keys: map<Id, int>, ascending: bool, cursor: Option<int>, idAfter: Option<Id>,
      all: seq<Position>, items: seq<Id>, id: Id)
    requires forall i, j :: 0 <= i < j < |all| ==> Ahead(ascending, all[i].key, all[i].id, all[j].key, all[j].id)
    requires forall i :: 0 <= i < |all| ==> all[i].id in keys && keys[all[i].id] == all[i].key
    requires |items| <= |all| && forall i :: 0 <= i < |items| ==> items[i] == all[i].id
    requires PassedOver(keys, ascending, cursor, idAfter, items, id) && Position(keys[id], id) in all
    ensures |items| < |all|
    ensures forall i :: 0 <= i < |items| ==> Ahead(ascending, keys[items[i]], items[i], keys[id], id)
  {
    hide Behind, Ahead;
    forall i | 0 <= i < |items|
      ensures all[i].id in items
    {
      assert items[i] in items;
    }
    var k :| 0 <= k < |all| && all[k] == Position(keys[id], id);
    assert all[k].id == id && k >= |items|;
  }

  lemma NextIsPassedOver(
      keys: map<Id, int>, ascending: bool, cursor: Option<int>, idAfter: Option<Id>, limit: nat,
      all: seq<Position>, items: seq<Id>)
    requires forall i, j :: 0 <= i < j < |all| ==> Ahead(ascending, all[i].key, all[i].id, all[j].key, all[j].id)
    requires forall i :: 0 <= i < |all| ==> all[i].id in keys && keys[all[i].id] == all[i].key
    requires |all| > limit == |items| && forall i :: 0 <= i < limit ==> items[i] == all[i].id
    requires Behind(ascending, cursor, idAfter, all[limit].key, all[limit].id)
    ensures PassedOver(keys, ascending, cursor, idAfter, items, all[limit].id)
  {
    hide Behind;
    forall i | 0 <= i < limit
      ensures items[i] != all[limit].id
    {
    }
  }

  /** A keyword is in a text exactly if the text is something, the keyword, and something. */
  lemma ContainsIff(text: string, word: string)
    ensures Contains(text, word) <==> exists a: string, b: string :: a + word + b == text
  {
    if Contains(text, word) {
      var k :| 0 <= k <= |text| && StartsAt(text, word, k);
      assert text[..k] + word + text[k + |word|..] == text;
    }
    if a: string, b: string :| a + word + b == text {
      assert text[|a|..|a| + |word|] == word;
      assert StartsAt(text, word, |a|);
    }
  }

  /** The contents asked for: active, with the keyword in the title, and of the type. */
  ghost predicate Asked(row: Catalogued, q: ContentRequest) {
    && row.active
    && (q.keywordLike == "" || exists a: string, b: string :: a + q.keywordLike + b == row.title)
    && (q.typeEqual.Some? ==> row.kind == q.typeEqual.value)
  }

  lemma AskedIff(row: Catalogued, q: ContentRequest)
    ensures ContentMatches(row, q) <==> Asked(row, q)
  {
    ContainsIff(row.title, q.keywordLike);
  }

  /**
    The contents are listed by rating, by watchers, or else by creation; upward only
    if that is asked for; and twenty a page unless a positive number is asked for.
  */
  lemma ContentsAreAnswered(rows: map<Id, Catalogued>, q: ContentRequest)
    ensures var r := GetContentsOf(rows, q);
            var up := q.direction == Some(Ascending);
            var size := if q.limit.Some? && q.limit.value > 0 then q.limit.value else 20;
            var asked := set id | id in rows && Asked(rows[id], q);
            && (q.sortBy == Some(Rate) ==>
                  IsAnswer(map id | id in asked :: rows[id].averageTenths, up, q.cursor, q.idAfter, size, r))
            && (q.sortBy == Some(WatcherCount) ==>
                  IsAnswer(map id | id in asked :: rows[id].watcherCount, up, q.cursor, q.idAfter, size, r))
            && (q.sortBy == None || q.sortBy == Some(CreatedAt) ==>
                  IsAnswer(map id | id in asked :: rows[id].createdAt, up, q.cursor, q.idAfter, size, r))
  {
    hide IsAnswer, GetContentsOf, Asked;
    ContentsByKey(rows, q);
    var asked := set id | id in rows && Asked(rows[id], q);
    var keys: map<Id, int> := map id | id in asked :: ContentKey(rows[id], q.By());
    var byRate: map<Id, int> := map id | id in asked :: rows[id].averageTenths;
    var byCount: map<Id, int> := map id | id in asked :: rows[id].watcherCount;
    var byTime: map<Id, int> := map id | id in asked :: rows[id].createdAt;
    assert q.sortBy == Some(Rate) ==> byRate == keys;
    assert q.sortBy == Some(WatcherCount) ==> byCount == keys;
    assert q.sortBy == None || q.sortBy == Some(CreatedAt) ==> byTime == keys;
  }

  lemma ContentsByKey(rows: map<Id, Catalogued>, q: ContentRequest)
    ensures var asked := set id | id in rows && Asked(rows[id], q);
            IsAnswer(
              map id | id in asked :: ContentKey(rows[id], q.By()),
              q.direction == Some(Ascending), q.cursor, q.idAfter, q.Limit(), GetContentsOf(rows, q))
  {
    hide IsAnswer, ResponseOf, ContentMatches, Asked, ContentKey;
    var asked := set id | id in rows && Asked(rows[id], q);
    var keys: map<Id, int> := map id | id in asked :: ContentKey(rows[id], q.By());
    forall id | id in rows
      ensures ContentMatches(rows[id], q) <==> Asked(rows[id], q)
    {
      AskedIff(rows[id], q);
    }
    SamePlaces(ContentPositions(rows, q), keys);
    assert q.Dir() == if q.direction == Some(Ascending) then Ascending else Descending;
    PagesAreAnswers(keys, q.direction == Some(Ascending), q.cursor, q.idAfter, q.Limit());
  }

  lemma SamePlaces(rows: set<Position>, keys: map<Id, int>)
    requires forall id :: id in keys ==> Position(keys[id], id) in rows
    requires forall p :: p in rows ==> p.id in keys && keys[p.id] == p.key
    ensures rows == Placed(keys)
  {
    forall p | p in rows
      ensures p in Placed(keys)
    {
      assert p == Position(keys[p.id], p.id);
    }
  }

  /** The notifications of the receiver and of nobody else, by time. */
  lemma NotificationsAreAnswered(rows: map<Id, Notification>, receiver: Id, q: NotificationRequest)
    requires q.limit > 0
    ensures IsAnswer(
              map id | id in rows && rows[id].receiver == receiver :: rows[id].createdAt,
              !q.descending, q.cursor, q.idAfter, q.limit,
              ResponseOf(q.Dir(), NotificationPositions(rows, receiver), q.cursor, q.idAfter, q.limit))
  {
    hide IsAnswer, ResponseOf;
    var keys: map<Id, int> := map id | id in rows && rows[id].receiver == receiver :: rows[id].createdAt;
    SamePlaces(NotificationPositions(rows, receiver), keys);
    PagesAreAnswers(keys, !q.descending, q.cursor, q.idAfter, q.limit);
  }

  /** The accounts asked for: with the text in the address, of the role, locked or not. */
  ghost predicate AskedAccount(row: Account, q: AccountRequest) {
    && (q.emailLike == "" || exists a: string, b: string :: a + q.emailLike + b == row.email)
    && (q.roleEqual.Some? ==> row.role == q.roleEqual.value)
    && (q.isLocked.Some? ==> row.locked == q.isLocked.value)
  }

  lemma AskedAccountIff(row: Account, q: AccountRequest)
    ensures AccountMatches(row, q) <==> AskedAccount(row, q)
  {
    ContainsIff(row.email, q.emailLike);
  }

  /** Accounts are listed by name, address, time of joining, lock (the open ones first going up), or role. */
  lemma AccountsAreAnswered(rows: map<Id, Account>, q: AccountRequest)
    requires q.limit > 0
    ensures GetUsers(rows, q).Some?
    ensures var r := GetUsers(rows, q).value;
            var up := q.direction == Ascending;
            var asked := set id | id in rows && AskedAccount(rows[id], q);
            && (q.sortBy == Name ==>
                  IsAnswer(map id | id in asked :: rows[id].nameRank, up, q.cursor, q.idAfter, q.limit, r))
            && (q.sortBy == Email ==>
                  IsAnswer(map id | id in asked :: rows[id].emailRank, up, q.cursor, q.idAfter, q.limit, r))
            && (q.sortBy == JoinedAt ==>
                  IsAnswer(map id | id in asked :: rows[id].createdAt, up, q.cursor, q.idAfter, q.limit, r))
            && (q.sortBy == IsLocked ==>
                  IsAnswer(map id | id in asked :: if rows[id].locked then 1 else 0, up, q.cursor, q.idAfter, q.limit, r))
            && (q.sortBy == ByRole ==>
                  IsAnswer(map id | id in asked :: rows[id].role, up, q.cursor, q.idAfter, q.limit, r))
  {
    hide IsAnswer, AskedAccount;
    AccountsByKey(rows, q);
    hide GetUsers;
    var asked := set id | id in rows && AskedAccount(rows[id], q);
    var keys: map<Id, int> := map id | id in asked :: AccountKey(rows[id], q.sortBy);
    match q.sortBy {
      case Name => assert (map id | id in asked :: rows[id].nameRank) == keys;
      case Email => assert (map id | id in asked :: rows[id].emailRank) == keys;
      case JoinedAt =>
        var byTime: map<Id, int> := map id | id in asked :: rows[id].createdAt;
        assert byTime == keys;
      case IsLocked =>
        var byLock: map<Id, int> := map id | id in asked :: if rows[id].locked then 1 else 0;
        assert byLock == keys;
      case ByRole => assert (map id | id in asked :: rows[id].role) == keys;
    }
  }

  lemma AccountsByKey(rows: map<Id, Account>, q: AccountRequest)
    requires q.limit > 0
    ensures GetUsers(rows, q).Some?
    ensures var asked := set id | id in rows && AskedAccount(rows[id], q);
            IsAnswer(
              map id | id in asked :: AccountKey(rows[id], q.sortBy),
              q.direction == Ascending, q.cursor, q.idAfter, q.limit, GetUsers(rows, q).value)
  {
    hide IsAnswer, ResponseOf, GetUsers, AccountMatches, AskedAccount, AccountKey;
    var asked := set id | id in rows && AskedAccount(rows[id], q);
    var keys: map<Id, int> := map id | id in asked :: AccountKey(rows[id], q.sortBy);
    forall id | id in rows
      ensures AccountMatches(rows[id], q) <==> AskedAccount(rows[id], q)
    {
      AskedAccountIff(rows[id], q);
    }
    SamePlaces(AccountPositions(rows, q), keys);
    GetUsersIsPage(rows, q);
    PagesAreAnswers(keys, q.direction == Ascending, q.cursor, q.idAfter, q.limit);
  }

  /** A request for no account at all is refused. */
  lemma NoAccountsAsked(rows: map<Id, Account>, q: AccountRequest)
    ensures q.limit <= 0 <==> GetUsers(rows, q) == None
  {
  }

  // ---------- Clients ----------

  /** The client repeats its request with the cursor of the last answer until no page follows. */
  function ClientWalk(
      dir: Direction, tables: seq<set<Position>>, cursor: Option<int>, idAfter: Option<Id>, limit: nat): seq<Id>
    requires limit > 0
    decreases |tables|
  {
    if tables == [] then []
    else
      var r := ResponseOf(dir, tables[0], cursor, idAfter, limit);
      r.items + if r.hasNext then ClientWalk(dir, tables[1..], r.nextCursor, r.nextIdAfter, limit) else []
  }

  lemma IdsConcat(ps: seq<Position>, qs: seq<Position>)
    ensures Ids(ps + qs) == Ids(ps) + Ids(qs)
  {
  }

  lemma {:induction false} ClientWalkIsWalk(
      dir: Direction, tables: seq<set<Position>>, cursor: Option<int>, idAfter: Option<Id>, limit: nat)
    requires limit > 0
    ensures ClientWalk(dir, tables, cursor, idAfter, limit) == Ids(Walk(dir, tables, CursorOf(cursor, idAfter), limit))
    decreases |tables|
  {
    hide PageOf;
    if tables != [] {
      var page := PageOf(dir, tables[0], CursorOf(cursor, idAfter), limit);
      PageFacts(dir, tables[0], CursorOf(cursor, idAfter), limit, Position(0, 0));
      if page.hasNext {
        var next := page.next.value;
        ClientWalkIsWalk(dir, tables[1..], Some(next.key), Some(next.id), limit);
        IdsConcat(page.items, Walk(dir, tables[1..], page.next, limit));
      } else {
        assert Walk(dir, tables, CursorOf(cursor, idAfter), limit) == page.items;
      }
    }
  }

  lemma {:induction false} IdOnce(ps: seq<Position>, p: Position)
    requires forall q :: q in ps && q.id == p.id ==> q == p
    ensures multiset(Ids(ps))[p.id] == multiset(ps)[p]
    decreases |ps|
  {
    if ps != [] {
      var n := |ps| - 1;
      assert ps == ps[..n] + [ps[n]];
      IdsConcat(ps[..n], [ps[n]]);
      assert Ids([ps[n]]) == [ps[n].id];
      IdOnce(ps[..n], p);
    }
  }

  /** In this table the row of this id, if there is one, stands at this position. */
  predicate StandsAt(rows: set<Position>, p: Position) {
    forall q :: q in rows && q.id == p.id ==> q == p
  }

  /**
    However rows come and go between the fetches, a row that matches throughout
    with the same sort key is returned exactly once; and one that never moves is
    returned exactly if it is there when the fetch that covers its place is made.
  */
  lemma RowReturnedOnceIff(dir: Direction, tables: seq<set<Position>>, limit: nat, p: Position)
    requires limit > 0 && Completes(dir, tables, None, limit)
    requires forall k :: 0 <= k < |tables| ==> StandsAt(tables[k], p)
    ensures multiset(ClientWalk(dir, tables, None, None, limit))[p.id] ==
            if p in tables[CoveredBy(dir, tables, None, limit, p)] then 1 else 0
  {
    var walk := Walk(dir, tables, None, limit);
    ClientWalkIsWalk(dir, tables, None, None, limit);
    forall q | q in walk && q.id == p.id
      ensures q == p
    {
      WalkReturnsIff(dir, tables, None, limit, q);
      assert StandsAt(tables[CoveredBy(dir, tables, None, limit, q)], p);
    }
    IdOnce(walk, p);
    WalkIncreases(dir, tables, None, limit);
    IncreasingOnce(dir, walk, p);
    WalkReturnsIff(dir, tables, None, limit, p);
  }

  function PositionsOf(ps: seq<Position>, id: Id): set<Position> {
    set p | p in ps && p.id == id
  }

  lemma {:induction false} IdCounts(dir: Direction, ps: seq<Position>, id: Id)
    requires Increasing(dir, ps)
    ensures multiset(Ids(ps))[id] == |PositionsOf(ps, id)|
    decreases |ps|
  {
    if ps == [] {
      assert PositionsOf(ps, id) == {};
    } else {
      var n := |ps| - 1;
      assert ps == ps[..n] + [ps[n]];
      IdsConcat(ps[..n], [ps[n]]);
      assert Ids([ps[n]]) == [ps[n].id];
      IdCounts(dir, ps[..n], id);
      assert ps[n] !in ps[..n];
      assert PositionsOf(ps, id) == PositionsOf(ps[..n], id) + if ps[n].id == id then {ps[n]} else {};
    }
  }

  /** The positions of a row that the table has at the fetch that covers them. */
  ghost function Caught(dir: Direction, tables: seq<set<Position>>, limit: nat, id: Id): set<Position>
    requires limit > 0 && Completes(dir, tables, None, limit)
  {
    set k, p | 0 <= k < |tables| && p in tables[k] && p.id == id
               && p in tables[CoveredBy(dir, tables, None, limit, p)] :: p
  }

  /**
    However rows move, come and go between the fetches, a row is returned as often
    as there are places where it stands when the fetch that covers the place is made.
  */
  lemma RowReturnedAsOftenAsCaught(dir: Direction, tables: seq<set<Position>>, limit: nat, id: Id)
    requires limit > 0 && Completes(dir, tables, None, limit)
    ensures multiset(ClientWalk(dir, tables, None, None, limit))[id] == |Caught(dir, tables, limit, id)|
  {
    hide Completes, Walk, CoveredBy;
    var walk := Walk(dir, tables, None, limit);
    ClientWalkIsWalk(dir, tables, None, None, limit);
    WalkIncreases(dir, tables, None, limit);
    IdCounts(dir, walk, id);
    forall p
      ensures p in PositionsOf(walk, id) <==> p in Caught(dir, tables, limit, id)
    {
      WalkReturnsIff(dir, tables, None, limit, p);
    }
    assert PositionsOf(walk, id) == Caught(dir, tables, limit, id);
  }

  function ContentTables(history: seq<map<Id, Catalogued>>, q: ContentRequest): seq<set<Position>> {
    seq(|history|, k requires 0 <= k < |history| => ContentPositions(history[k], q))
  }

  /** The same for contents, in terms of the rows. */
  lemma ContentReturnedOnce(history: seq<map<Id, Catalogued>>, q: ContentRequest, id: Id, key: int)
    requires Completes(q.Dir(), ContentTables(history, q), None, q.Limit())
    requires forall k :: 0 <= k < |history| ==>
               id in history[k] && ContentMatches(history[k][id], q) && ContentKey(history[k][id], q.By()) == key
    ensures multiset(ClientWalk(q.Dir(), ContentTables(history, q), None, None, q.Limit()))[id] == 1
  {
    hide Completes, PageOf, Contains;
    var tables := ContentTables(history, q);
    var p := Position(key, id);
    forall k | 0 <= k < |tables|
      ensures StandsAt(tables[k], p) && p in tables[k]
    {
      assert tables[k] == ContentPositions(history[k], q);
    }
    RowReturnedOnceIff(q.Dir(), tables, q.Limit(), p);
  }

  lemma PageIs(dir: Direction, rows: set<Position>, cursor: Option<Position>, limit: nat, all: seq<Position>)
    requires limit > 0 && Increasing(dir, all) && forall p :: p in all <==> p in After(dir, rows, cursor)
    ensures PageOf(dir, rows, cursor, limit) ==
            if |all| > limit then Page(all[..limit], true, Some(all[limit - 1])) else Page(all, false, None)
  {
    OnlyOneSorted(dir, After(dir, rows, cursor), all);
  }

  /** A row that moves past the cursor comes twice, although the walk is complete. */
  lemma MovingRowComesTwice()
    ensures var a, b, moved := Position(9, 1), Position(5, 2), Position(1, 1);
            var tables := [{a, b}, {b, moved}, {b, moved}];
            && Completes(Descending, tables, None, 1)
            && Walk(Descending, tables, None, 1) == [a, b, moved]
  {
    hide PageOf;
    var a, b, moved := Position(9, 1), Position(5, 2), Position(1, 1);
    var tables := [{a, b}, {b, moved}, {b, moved}];
    PageIs(Descending, {a, b}, None, 1, [a, b]);
    PageIs(Descending, {b, moved}, Some(a), 1, [b, moved]);
    PageIs(Descending, {b, moved}, Some(b), 1, [moved]);
    assert tables[1..] == [{b, moved}, {b, moved}] && tables[1..][1..] == [{b, moved}];
    assert Completes(Descending, [{b, moved}], Some(b), 1) && Walk(Descending, [{b, moved}], Some(b), 1) == [moved];
    assert Completes(Descending, tables[1..], Some(a), 1) && Walk(Descending, tables[1..], Some(a), 1) == [b, moved];
  }

  /** A row that moves against the cursor is never returned, although it is there all the time. */
  lemma MovingRowIsMissed()
    ensures var a, b, moved := Position(9, 1), Position(5, 2), Position(10, 2);
            var tables := [{a, b}, {a, moved}];
            && Completes(Descending, tables, None, 1)
            && Walk(Descending, tables, None, 1) == [a]
  {
    hide PageOf;
    var a, b, moved := Position(9, 1), Position(5, 2), Position(10, 2);
    var tables := [{a, b}, {a, moved}];
    PageIs(Descending, {a, b}, None, 1, [a, b]);
    PageIs(Descending, {a, moved}, Some(a), 1, []);
    assert tables[1..] == [{a, moved}];
  }
}
