/**
  Reviews of contents (mopl-content): three commands keep a running average with
  one decimal and a review count in the content row, without ever recounting.
*/
module ReviewAverage {
  import opened Entities

  /** A deleted review stays as a tombstone, and its (content, author) pair stays taken. */
  datatype ReviewRow = ReviewRow(content: Id, author: Id, rating: int, live: bool)

  datatype ReviewState = ReviewState(contents: map<Id, ContentRow>, reviews: map<Id, ReviewRow>)

  datatype Outcome = Saved | AlreadyExists | ContentNotFound | Conflict | ReviewNotFound | NotAuthor

  predicate Reviewed(st: ReviewState, content: Id, author: Id, live: bool) {
    exists id :: id in st.reviews && st.reviews[id].content == content && st.reviews[id].author == author
                 && st.reviews[id].live == live
  }

  /** Some review of the pair of content and author is there, live or deleted. */
  ghost predicate Takes(reviews: map<Id, ReviewRow>, content: Id, author: Id, live: bool) {
    exists i :: i in reviews && reviews[i] == ReviewRow(content, author, reviews[i].rating, live)
  }

  predicate IsLive(st: ReviewState, id: Id) {
    id in st.reviews && st.reviews[id].live && st.reviews[id].content in st.contents
  }

  function CreateOutcome(st: ReviewState, content: Id, author: Id): Outcome {
    if Reviewed(st, content, author, true) then AlreadyExists
    else if content !in st.contents then ContentNotFound
    else if Reviewed(st, content, author, false) then Conflict
    else Saved
  }

  function Created(st: ReviewState, id: Id, content: Id, author: Id, rating: int): ReviewState {
    if CreateOutcome(st, content, author) == Saved && content in st.contents then
      ReviewState(
        st.contents[content := st.contents[content].WithReview(rating)],
        st.reviews[id := ReviewRow(content, author, rating, true)])
    else st
  }

  function EditOutcome(st: ReviewState, id: Id, author: Id): Outcome {
    if !IsLive(st, id) then ReviewNotFound else if st.reviews[id].author != author then NotAuthor else Saved
  }

  function Updated(st: ReviewState, id: Id, author: Id, rating: Option<int>): ReviewState {
    if EditOutcome(st, id, author) == Saved && IsLive(st, id) && rating.Some? then
      var r := st.reviews[id];
      ReviewState(
        if rating.value == r.rating then st.contents
        else st.contents[r.content := st.contents[r.content].WithChangedReview(r.rating, rating.value)],
        st.reviews[id := r.(rating := rating.value)])
    else st
  }

  function Removed(st: ReviewState, id: Id, author: Id): ReviewState {
    if EditOutcome(st, id, author) == Saved && IsLive(st, id) then
      var r := st.reviews[id];
      ReviewState(
        st.contents[r.content := st.contents[r.content].WithoutReview(r.rating)],
        st.reviews[id := r.(live := false)])
    else st
  }

  /** A request carries a rating between one and five, cut to a whole number. */
  predicate Accepted(rating: real) {
    1.0 <= rating <= 5.0
  }

  class ReviewCommandService {
    var contents: map<Id, ContentRow>
    var reviews: map<Id, ReviewRow>

    constructor ()
      ensures State() == ReviewState(map[], map[])
    {
      contents, reviews := map[], map[];
    }

    function State(): ReviewState
      reads this
    {
      ReviewState(contents, reviews)
    }

    /** The id is drawn fresh. The insert fails on the pair of a deleted review, and the transaction is rolled back. */
    method Create(id: Id, contentId: Id, author: Id, rating: real) returns (r: Outcome)
      requires id !in reviews && Accepted(rating)
      modifies this
      ensures r == AlreadyExists <==> Takes(old(reviews), contentId, author, true)
      ensures r == ContentNotFound <==> !Takes(old(reviews), contentId, author, true) && contentId !in old(contents)
      ensures r == Conflict <==>
              && !Takes(old(reviews), contentId, author, true) && contentId in old(contents)
              && Takes(old(reviews), contentId, author, false)
      ensures r == Saved <==>
              && contentId in old(contents)
              && forall i :: i in old(reviews) ==> old(reviews)[i].content != contentId || old(reviews)[i].author != author
      ensures reviews ==
              if r == Saved then old(reviews)[id := ReviewRow(contentId, author, rating.Floor, true)] else old(reviews)
      ensures r != Saved ==> State() == old(State())
      ensures r == CreateOutcome(old(State()), contentId, author)
      ensures State() == Created(old(State()), id, contentId, author, rating.Floor)
    {
      if Reviewed(State(), contentId, author, true) {
        return AlreadyExists;
      }
      if contentId !in contents {
        return ContentNotFound;
      }
      var before := contents;
      var taken := Reviewed(State(), contentId, author, false);
      var ratingInt := rating.Floor;
      var content := new Content.Load(contents[contentId]);
      content.AddReview(ratingInt);
      contents := contents[contentId := content.Row()];
      if taken {
        contents := before;
        return Conflict;
      }
      reviews := reviews[id := ReviewRow(contentId, author, ratingInt, true)];
      return Saved;
    }

    method Update(id: Id, author: Id, rating: Option<real>) returns (r: Outcome)
      requires rating.Some? ==> Accepted(rating.value)
      modifies this
      ensures r == ReviewNotFound <==>
              !(id in old(reviews) && old(reviews)[id].live && old(reviews)[id].content in old(contents))
      ensures r == NotAuthor <==>
              && id in old(reviews) && old(reviews)[id].live && old(reviews)[id].content in old(contents)
              && old(reviews)[id].author != author
      ensures r == Saved <==>
              && id in old(reviews) && old(reviews)[id].live && old(reviews)[id].content in old(contents)
              && old(reviews)[id].author == author
      ensures r != Saved ==> State() == old(State())
      ensures reviews.Keys == old(reviews).Keys && forall i :: i in reviews && i != id ==> reviews[i] == old(reviews)[i]
      ensures r == Saved ==>
                reviews[id] == if rating.Some? then old(reviews)[id].(rating := rating.value.Floor) else old(reviews)[id]
      ensures r == EditOutcome(old(State()), id, author)
      ensures State() == Updated(old(State()), id, author, if rating.Some? then Some(rating.value.Floor) else None)
    {
      if !IsLive(State(), id) {
        return ReviewNotFound;
      }
      var review := reviews[id];
      if review.author != author {
        return NotAuthor;
      }
      if rating.Some? {
        var newRating := rating.value.Floor;
        if newRating != review.rating {
          var content := new Content.Load(contents[review.content]);
          content.UpdateReview(review.rating, newRating);
          contents := contents[review.content := content.Row()];
        }
        reviews := reviews[id := review.(rating := newRating)];
      }
      return Saved;
    }

    method Delete(id: Id, author: Id) returns (r: Outcome)
      modifies this
      ensures r == ReviewNotFound <==>
              !(id in old(reviews) && old(reviews)[id].live && old(reviews)[id].content in old(contents))
      ensures r == NotAuthor <==>
              && id in old(reviews) && old(reviews)[id].live && old(reviews)[id].content in old(contents)
              && old(reviews)[id].author != author
      ensures r == Saved <==>
              && id in old(reviews) && old(reviews)[id].live && old(reviews)[id].content in old(contents)
              && old(reviews)[id].author == author
      ensures r != Saved ==> State() == old(State())
      ensures reviews.Keys == old(reviews).Keys && forall i :: i in reviews && i != id ==> reviews[i] == old(reviews)[i]
      ensures r == Saved ==> reviews[id] == old(reviews)[id].(live := false)
      ensures r == EditOutcome(old(State()), id, author)
      ensures State() == Removed(old(State()), id, author)
    {
      if !IsLive(State(), id) {
        return ReviewNotFound;
      }
      var review := reviews[id];
      if review.author != author {
        return NotAuthor;
      }
      var content := new Content.Load(contents[review.content]);
      content.RemoveReview(review.rating);
      contents := contents[review.content := content.Row()];
      reviews := reviews[id := review.(live := false)];
      return Saved;
    }
  }

  // ---------- Who may change what ----------

  /** The rows of contents but for rating and count of this one. */
  predicate SameElsewhere(before: map<Id, ContentRow>, after: map<Id, ContentRow>, c: Id) {
    && after.Keys == before.Keys
    && (forall d :: d in before && d != c ==> after[d] == before[d])
    && (c in before ==>
          after[c] == before[c].(averageTenths := after[c].averageTenths, reviewCount := after[c].reviewCount))
  }

  /** A review is added exactly if the content is known and its author has, or ever had, no other of it. */
  lemma CreateExactly(st: ReviewState, id: Id, c: Id, author: Id, rating: int)
    requires id !in st.reviews
    ensures var after := Created(st, id, c, author, rating);
            if c in st.contents && forall i :: i in st.reviews ==> st.reviews[i].content != c || st.reviews[i].author != author
            then
              && CreateOutcome(st, c, author) == Saved
              && after.reviews == st.reviews[id := ReviewRow(c, author, rating, true)]
              && SameElsewhere(st.contents, after.contents, c)
              && after.contents[c].reviewCount == st.contents[c].reviewCount + 1
            else CreateOutcome(st, c, author) != Saved && after == st
  {
  }

  /** The id names a live review of a known content, written by this author. */
  predicate Owns(st: ReviewState, id: Id, author: Id) {
    id in st.reviews && st.reviews[id].live && st.reviews[id].content in st.contents && st.reviews[id].author == author
  }

  /** Only the author changes a rating, of this review alone. */
  lemma UpdateExactly(st: ReviewState, id: Id, author: Id, rating: Option<int>)
    ensures var after := Updated(st, id, author, rating);
            && (EditOutcome(st, id, author) == Saved <==> Owns(st, id, author))
            && if Owns(st, id, author) && rating.Some?
               then
                 && after.reviews == st.reviews[id := st.reviews[id].(rating := rating.value)]
                 && SameElsewhere(st.contents, after.contents, st.reviews[id].content)
                 && after.contents[st.reviews[id].content].reviewCount == st.contents[st.reviews[id].content].reviewCount
                 && (rating.value == st.reviews[id].rating ==> after.contents == st.contents)
               else after == st
  {
  }

  /** Only the author deletes a review; it then counts no more. */
  lemma DeleteExactly(st: ReviewState, id: Id, author: Id)
    ensures var after := Removed(st, id, author);
            && (EditOutcome(st, id, author) == Saved <==> Owns(st, id, author))
            && if Owns(st, id, author)
               then
                 && after.reviews == st.reviews[id := st.reviews[id].(live := false)]
                 && SameElsewhere(st.contents, after.contents, st.reviews[id].content)
                 && after.contents[st.reviews[id].content].reviewCount ==
                    (if st.contents[st.reviews[id].content].reviewCount == 0 then 0
                     else st.contents[st.reviews[id].content].reviewCount - 1)
                 && (after.contents[st.reviews[id].content].reviewCount == 0 ==>
                       after.contents[st.reviews[id].content].averageTenths == 0)
               else after == st
  {
  }

  /** The command carries the id of the review and the id of its author. */
  predicate ByItsAuthor(a: Action, id: Id, author: Id) {
    (a.Update? || a.Delete?) && a.id == id && a.author == author
  }

  lemma StepByOthers(w: World, a: Action, id: Id)
    requires id in w.st.reviews && !ByItsAuthor(a, id, w.st.reviews[id].author)
    ensures id in Step(w, a).st.reviews && Step(w, a).st.reviews[id] == w.st.reviews[id]
  {
    hide ContentRow.WithReview, ContentRow.WithoutReview, ContentRow.WithChangedReview, Reviewed;
  }

  /** In every run a review stays as it is, rating and live mark, unless a command of its own author comes. */
  lemma {:induction false} OnlyAuthorsEdit(w: World, acts: seq<Action>, id: Id)
    requires id in w.st.reviews
    requires forall a :: a in acts ==> !ByItsAuthor(a, id, w.st.reviews[id].author)
    ensures id in Exec(w, acts).st.reviews && Exec(w, acts).st.reviews[id] == w.st.reviews[id]
    decreases |acts|
  {
    hide Step;
    if acts != [] {
      assert acts[0] in acts;
      StepByOthers(w, acts[0], id);
      OnlyAuthorsEdit(Step(w, acts[0]), acts[1..], id);
    }
  }

  /** Nothing but ratings and counts of contents is ever touched by reviews. */
  predicate SameBesides(x: ContentRow, y: ContentRow) {
    y.status == x.status && y.updatedAt == x.updatedAt && y.watcherCount == x.watcherCount
  }

  lemma StepTouchesRatings(w: World, a: Action, c: Id)
    requires c in w.st.contents
    ensures c in Step(w, a).st.contents && SameBesides(w.st.contents[c], Step(w, a).st.contents[c])
  {
    hide RoundedQuotient, Reviewed;
  }

  lemma {:induction false} ReviewsTouchRatings(w: World, acts: seq<Action>, c: Id)
    requires c in w.st.contents
    ensures c in Exec(w, acts).st.contents && SameBesides(w.st.contents[c], Exec(w, acts).st.contents[c])
    decreases |acts|
  {
    hide Step;
    if acts != [] {
      StepTouchesRatings(w, acts[0], c);
      ReviewsTouchRatings(Step(w, acts[0]), acts[1..], c);
    }
  }

  // ---------- What the row should say ----------

  /** The ratings of the live reviews of a content. */
  function Ratings(reviews: map<Id, ReviewRow>, content: Id): map<Id, int> {
    map id | id in reviews && reviews[id].live && reviews[id].content == content :: reviews[id].rating
  }

  ghost function Total(m: map<Id, int>): int
    decreases |m|
  {
    if m == map[] then 0
    else
      var k :| k in m;
      assert (m - {k}).Keys == m.Keys - {k};
      m[k] + Total(m - {k})
  }

  lemma {:induction false} TotalWithout(m: map<Id, int>, k: Id)
    requires k in m
    ensures Total(m) == m[k] + Total(m - {k})
    decreases |m|
  {
    var j :| j in m && Total(m) == m[j] + Total(m - {j});
    if j != k {
      assert (m - {j}).Keys == m.Keys - {j} && (m - {k}).Keys == m.Keys - {k};
      TotalWithout(m - {j}, k);
      TotalWithout(m - {k}, j);
      assert m - {j} - {k} == m - {k} - {j};
    }
  }

  lemma TotalWith(m: map<Id, int>, k: Id, v: int)
    ensures Total(m[k := v]) == Total(m) + v - if k in m then m[k] else 0
  {
    TotalWithout(m[k := v], k);
    assert m[k := v] - {k} == m - {k};
    if k in m {
      TotalWithout(m, k);
    } else {
      assert m - {k} == m;
    }
  }

  // ---------- Rounding ----------

  function Abs(x: int): nat {
    if x < 0 then -x else x
  }

  /** Rounding moves the remembered total by at most half of the count. */
  lemma RoundingError(total: int, n: nat)
    requires n > 0
    ensures 2 * Abs(RoundedQuotient(total, n) * n - total) <= n
  {
    var q, r := (2 * total + n) / (2 * n), (2 * total + n) % (2 * n);
    assert q * (2 * n) + r == 2 * total + n;
    assert q * (2 * n) == 2 * (q * n);
  }

  /** How far the average times the count is from the true total, in tenths. */
  function Drift(row: ContentRow, total: int): nat {
    Abs(row.RememberedTotal() - 10 * total)
  }

  lemma AddDrift(row: ContentRow, rating: int, total: int)
    ensures 2 * Drift(row.WithReview(rating), total + rating) <= 2 * Drift(row, total) + row.reviewCount + 1
  {
    RoundingError(row.RememberedTotal() + 10 * rating, row.reviewCount + 1);
  }

  lemma ChangeDrift(row: ContentRow, before: int, after: int, total: int)
    requires row.reviewCount > 0
    ensures 2 * Drift(row.WithChangedReview(before, after), total - before + after) <= 2 * Drift(row, total) + row.reviewCount
  {
    RoundingError(row.RememberedTotal() - 10 * before + 10 * after, row.reviewCount);
  }

  lemma RemoveDrift(row: ContentRow, rating: int, total: int)
    requires row.reviewCount > 1
    ensures 2 * Drift(row.WithoutReview(rating), total - rating) <= 2 * Drift(row, total) + row.reviewCount - 1
  {
    RoundingError(row.RememberedTotal() - 10 * rating, row.reviewCount - 1);
  }

  // ---------- Runs ----------

  datatype Action =
    | AddContent(content: Id, row: ContentRow)
    | Create(id: Id, content: Id, author: Id, rating: int)
    | Update(id: Id, author: Id, newRating: Option<int>)
    | Delete(id: Id, author: Id)

  /** `slack` is history: per content, the review counts after every change since its reviews were last empty, added up. */
  datatype World = World(st: ReviewState, slack: map<Id, nat>)

  const NO_REVIEWS := World(ReviewState(map[], map[]), map[])

  function Slacker(w: World, after: ReviewState, content: Id): map<Id, nat> {
    if content !in w.slack || content !in after.contents then w.slack
    else if after.contents[content].reviewCount == 0 then w.slack[content := 0]
    else w.slack[content := w.slack[content] + after.contents[content].reviewCount]
  }

  function Step(w: World, a: Action): World {
    match a
    case AddContent(c, row) =>
      if c in w.st.contents || row.reviewCount != 0 then w
      else World(w.st.(contents := w.st.contents[c := row]), w.slack[c := 0])
    case Create(id, c, author, rating) =>
      if id in w.st.reviews then w
      else
        var after := Created(w.st, id, c, author, rating);
        if after == w.st then w else World(after, Slacker(w, after, c))
    case Update(id, author, rating) =>
      var after := Updated(w.st, id, author, rating);
      if after == w.st then w else World(after, Slacker(w, after, w.st.reviews[id].content))
    case Delete(id, author) =>
      var after := Removed(w.st, id, author);
      if after == w.st then w else World(after, Slacker(w, after, w.st.reviews[id].content))
  }

  function Exec(w: World, acts: seq<Action>): World
    decreases |acts|
  {
    if acts == [] then w else Exec(Step(w, acts[0]), acts[1..])
  }

  /** The count is the number of live reviews, and the average is within its slack. */
  ghost predicate RowTracks(row: ContentRow, ratings: map<Id, int>, slack: nat) {
    && row.reviewCount == |ratings|
    && 2 * Drift(row, Total(ratings)) <= slack
  }

  ghost predicate Tracks(w: World) {
    && w.slack.Keys == w.st.contents.Keys
    && (forall id :: id in w.st.reviews ==> w.st.reviews[id].content in w.st.contents)
    && (forall c :: c in w.st.contents ==> RowTracks(w.st.contents[c], Ratings(w.st.reviews, c), w.slack[c]))
  }

  lemma EmptyTracks(row: ContentRow)
    requires row.reviewCount == 0
    ensures RowTracks(row, map[], 0)
  {
  }

  lemma AddTracks(row: ContentRow, m: map<Id, int>, slack: nat, id: Id, rating: int)
    requires RowTracks(row, m, slack) && id !in m
    ensures RowTracks(row.WithReview(rating), m[id := rating], slack + row.WithReview(rating).reviewCount)
  {
    TotalWith(m, id, rating);
    AddDrift(row, rating, Total(m));
    assert m[id := rating].Keys == m.Keys + {id};
  }

  lemma ChangeTracks(row: ContentRow, m: map<Id, int>, slack: nat, id: Id, rating: int)
    requires RowTracks(row, m, slack) && id in m
    ensures RowTracks(row.WithChangedReview(m[id], rating), m[id := rating], slack + row.reviewCount)
    ensures rating == m[id] ==> RowTracks(row, m[id := rating], slack)
    ensures row.reviewCount > 0
  {
    TotalWith(m, id, rating);
    assert m[id := rating].Keys == m.Keys;
    assert m.Keys != {};
    ChangeDrift(row, m[id], rating, Total(m));
    assert rating == m[id] ==> m[id := rating] == m;
  }

  lemma RemoveTracks(row: ContentRow, m: map<Id, int>, slack: nat, id: Id)
    requires RowTracks(row, m, slack) && id in m
    ensures var after := row.WithoutReview(m[id]);
            RowTracks(after, m - {id}, if after.reviewCount == 0 then 0 else slack + after.reviewCount)
  {
    TotalWithout(m, id);
    assert (m - {id}).Keys == m.Keys - {id};
    if row.reviewCount > 1 {
      RemoveDrift(row, m[id], Total(m));
    } else {
      assert m - {id} == map[];
    }
  }

  /** One content changed, with its reviews; the others did not. */
  lemma OneChanged(w: World, after: World, c: Id, row: ContentRow, slack: nat)
    requires Tracks(w)
    requires after.st.contents == w.st.contents[c := row] && after.slack == w.slack[c := slack]
    requires forall id :: id in after.st.reviews ==> after.st.reviews[id].content in after.st.contents
    requires forall d :: d != c ==> Ratings(after.st.reviews, d) == Ratings(w.st.reviews, d)
    requires RowTracks(row, Ratings(after.st.reviews, c), slack)
    ensures Tracks(after)
  {
    hide RowTracks, Ratings;
  }

  lemma AddContentTracks(w: World, c: Id, row: ContentRow)
    requires Tracks(w)
    ensures Tracks(Step(w, AddContent(c, row)))
  {
    if c !in w.st.contents && row.reviewCount == 0 {
      assert Ratings(w.st.reviews, c) == map[];
      EmptyTracks(row);
      OneChanged(w, Step(w, AddContent(c, row)), c, row, 0);
    }
  }

  lemma CreateTracks(w: World, id: Id, c: Id, author: Id, rating: int)
    requires Tracks(w)
    ensures Tracks(Step(w, Create(id, c, author, rating)))
  {
    hide RowTracks, ContentRow.WithReview, Ratings, Reviewed;
    var next := Step(w, Create(id, c, author, rating));
    if next != w {
      var row := w.st.contents[c].WithReview(rating);
      NotYetRated(w.st.reviews, id, c);
      AddTracks(w.st.contents[c], Ratings(w.st.reviews, c), w.slack[c], id, rating);
      AddedRatings(w.st.reviews, id, ReviewRow(c, author, rating, true));
      CountAfterAdd(w.st.contents[c], rating);
      OneChanged(w, next, c, row, w.slack[c] + row.reviewCount);
    }
  }

  lemma NotYetRated(reviews: map<Id, ReviewRow>, id: Id, c: Id)
    requires id !in reviews
    ensures id !in Ratings(reviews, c)
  {
  }

  lemma UpdateTracks(w: World, id: Id, author: Id, rating: Option<int>)
    requires Tracks(w)
    ensures Tracks(Step(w, Update(id, author, rating)))
  {
    hide RowTracks, ContentRow.WithChangedReview, Ratings;
    var next := Step(w, Update(id, author, rating));
    if next != w {
      var r := w.st.reviews[id];
      var row := w.st.contents[r.content].WithChangedReview(r.rating, rating.value);
      Rated(w.st.reviews, id);
      ChangeTracks(w.st.contents[r.content], Ratings(w.st.reviews, r.content), w.slack[r.content], id, rating.value);
      AddedRatings(w.st.reviews, id, r.(rating := rating.value));
      CountAfterChange(w.st.contents[r.content], r.rating, rating.value);
      OneChanged(w, next, r.content, row, w.slack[r.content] + row.reviewCount);
    }
  }

  lemma Rated(reviews: map<Id, ReviewRow>, id: Id)
    requires id in reviews && reviews[id].live
    ensures id in Ratings(reviews, reviews[id].content) && Ratings(reviews, reviews[id].content)[id] == reviews[id].rating
  {
  }

  lemma DeleteTracks(w: World, id: Id, author: Id)
    requires Tracks(w)
    ensures Tracks(Step(w, Delete(id, author)))
  {
    hide RowTracks, ContentRow.WithoutReview, Ratings;
    var next := Step(w, Delete(id, author));
    if next != w {
      var r := w.st.reviews[id];
      var row := w.st.contents[r.content].WithoutReview(r.rating);
      Rated(w.st.reviews, id);
      RemoveTracks(w.st.contents[r.content], Ratings(w.st.reviews, r.content), w.slack[r.content], id);
      DroppedRating(w.st.reviews, id);
      OneChanged(w, next, r.content, row, if row.reviewCount == 0 then 0 else w.slack[r.content] + row.reviewCount);
    }
  }

  lemma StepTracks(w: World, a: Action)
    requires Tracks(w)
    ensures Tracks(Step(w, a))
  {
    hide Tracks, Step;
    match a
    case AddContent(c, row) => AddContentTracks(w, c, row);
    case Create(id, c, author, rating) => CreateTracks(w, id, c, author, rating);
    case Update(id, author, rating) => UpdateTracks(w, id, author, rating);
    case Delete(id, author) => DeleteTracks(w, id, author);
  }

  lemma CountAfterAdd(row: ContentRow, rating: int)
    ensures row.WithReview(rating).reviewCount == row.reviewCount + 1
  {
  }

  lemma CountAfterChange(row: ContentRow, before: int, after: int)
    ensures row.WithChangedReview(before, after).reviewCount == row.reviewCount
  {
  }

  lemma AddedRatings(reviews: map<Id, ReviewRow>, id: Id, r: ReviewRow)
    requires r.live && (id in reviews ==> reviews[id].content == r.content)
    ensures forall c :: Ratings(reviews[id := r], c) ==
                        if c == r.content then Ratings(reviews, c)[id := r.rating] else Ratings(reviews, c)
  {
  }

  lemma DroppedRating(reviews: map<Id, ReviewRow>, id: Id)
    requires id in reviews
    ensures forall c :: Ratings(reviews[id := reviews[id].(live := false)], c) ==
                        if c == reviews[id].content then Ratings(reviews, c) - {id} else Ratings(reviews, c)
  {
  }

  lemma {:induction false} RunTracks(w: World, acts: seq<Action>)
    requires Tracks(w)
    ensures Tracks(Exec(w, acts))
    decreases |acts|
  {
    hide Tracks, Step;
    if acts != [] {
      StepTracks(w, acts[0]);
      RunTracks(Step(w, acts[0]), acts[1..]);
    }
  }

  /**
    After any commands the count is the number of live reviews, and the average
    times the count is off the true total by at most half a tenth for every
    review counted after every change since the reviews were last empty.
  */
  lemma AverageWithinSlack(acts: seq<Action>, c: Id)
    requires c in Exec(NO_REVIEWS, acts).st.contents
    ensures var w := Exec(NO_REVIEWS, acts);
            var row := w.st.contents[c];
            && row.reviewCount == |Ratings(w.st.reviews, c)|
            && c in w.slack
            && 2 * Abs(row.averageTenths * row.reviewCount - 10 * Total(Ratings(w.st.reviews, c))) <= w.slack[c]
  {
    hide Exec, Ratings, Total;
    NothingTracks();
    RunTracks(NO_REVIEWS, acts);
    var w := Exec(NO_REVIEWS, acts);
    assert RowTracks(w.st.contents[c], Ratings(w.st.reviews, c), w.slack[c]);
  }

  lemma NothingTracks()
    ensures Tracks(NO_REVIEWS)
  {
  }

  // ---------- The scale of ratings ----------

  /** The rating that an action gives to this content, if it does, is within the bounds. */
  predicate GivesWithin(a: Action, c: Id, low: int, high: int) {
    a.Create? && a.content == c ==> low <= a.rating <= high
  }

  predicate OnlyAdds(a: Action) {
    a.AddContent? || a.Create?
  }

  predicate Within(row: ContentRow, low: int, high: int) {
    row.reviewCount > 0 ==> 10 * low <= row.averageTenths <= 10 * high
  }

  lemma QuotientWithin(total: int, n: nat, low: int, high: int)
    requires n > 0 && low * n <= total <= high * n
    ensures low <= RoundedQuotient(total, n) <= high
  {
    hide RoundedQuotient;
    RoundingError(total, n);
    var q := RoundedQuotient(total, n);
    if q < low {
      StrictProduct(q, low, n);
    }
    if q > high {
      StrictProduct(high, q, n);
    }
  }

  lemma StrictProduct(a: int, b: int, n: nat)
    requires a < b
    ensures a * n + n <= b * n
  {
    Product(a + 1, b, n);
    assert (a + 1) * n == a * n + n;
  }

  lemma AddWithin(row: ContentRow, rating: int, low: int, high: int)
    requires Within(row, low, high) && low <= rating <= high
    ensures Within(row.WithReview(rating), low, high)
  {
    hide RoundedQuotient;
    var n := row.reviewCount;
    if n > 0 {
      Product(10 * low, row.averageTenths, n);
      Product(row.averageTenths, 10 * high, n);
    }
    OneMore(10 * low, n);
    OneMore(10 * high, n);
    QuotientWithin(row.RememberedTotal() + 10 * rating, n + 1, 10 * low, 10 * high);
  }

  lemma OneMore(a: int, n: nat)
    ensures a * (n + 1) == a * n + a
  {
  }

  lemma Product(a: int, b: int, n: nat)
    requires a <= b
    ensures a * n <= b * n
  {
    assert (b - a) * n >= 0;
    assert (b - a) * n == b * n - a * n;
  }

  /** As long as reviews are only added, the average stays between the lowest and the highest rating given. */
  lemma {:induction false} AddsStayWithin(w: World, acts: seq<Action>, c: Id, low: int, high: int)
    requires forall a :: a in acts ==> OnlyAdds(a) && GivesWithin(a, c, low, high)
    requires c in w.st.contents ==> Within(w.st.contents[c], low, high)
    ensures c in Exec(w, acts).st.contents ==> Within(Exec(w, acts).st.contents[c], low, high)
    decreases |acts|
  {
    hide Within, ContentRow.WithReview, Reviewed;
    if acts != [] {
      var a := acts[0];
      assert a in acts && OnlyAdds(a) && GivesWithin(a, c, low, high);
      if a.AddContent? {
        EmptyWithin(a.row, low, high);
      } else if a.content == c && c in w.st.contents {
        AddWithin(w.st.contents[c], a.rating, low, high);
      }
      AddsStayWithin(Step(w, a), acts[1..], c, low, high);
    }
  }

  lemma EmptyWithin(row: ContentRow, low: int, high: int)
    ensures row.reviewCount == 0 ==> Within(row, low, high)
  {
  }

  /**
    The bound cannot be dropped: after ratings 1, 1, 2 and 1 the average is 1.2
    where the true one rounds to 1.3, and once the 2 is withdrawn it is 0.9,
    below every rating ever given.
  */
  lemma RoundingAddsUp(row: ContentRow)
    requires row.reviewCount == 0
    ensures var four := row.WithReview(1).WithReview(1).WithReview(2).WithReview(1);
            && four.averageTenths == 12 && RoundedQuotient(10 * (1 + 1 + 2 + 1), 4) == 13
            && four.WithoutReview(2).averageTenths == 9
  {
    assert row.WithReview(1).averageTenths == 10;
    assert row.WithReview(1).WithReview(1).averageTenths == 10;
    assert row.WithReview(1).WithReview(1).WithReview(2).averageTenths == 13;
  }

  // ---------- When reviews stop counting ----------

  /** An added review leaves the average exactly if twice its distance from it is below the new count. */
  lemma AddKeepsIff(row: ContentRow, rating: int)
    ensures row.WithReview(rating).averageTenths == row.averageTenths <==>
            -(row.reviewCount + 1) <= 2 * (10 * rating - row.averageTenths) < row.reviewCount + 1
  {
    hide RoundedQuotient;
    var n: nat := row.reviewCount + 1;
    var a: int, d: int := row.averageTenths, 10 * rating - row.averageTenths;
    assert row.RememberedTotal() + 10 * rating == a * n + d;
    QuotientIsIff(a, n, d);
  }

  lemma QuotientIsIff(a: int, n: nat, d: int)
    requires n > 0
    ensures RoundedQuotient(a * n + d, n) == a <==> 0 <= 2 * d + n < 2 * n
  {
    hide RoundedQuotient;
    var q := RoundedQuotient(a * n + d, n);
    QuotientBounds(a * n + d, n);
    assert 2 * (a * n + d) == 2 * (a * n) + 2 * d;
    if q < a {
      StrictProduct(q, a, n);
    } else if q > a {
      StrictProduct(a, q, n);
    }
  }

  /** The rounded quotient is the only integer in this range. */
  lemma QuotientBounds(total: int, n: nat)
    requires n > 0
    ensures var q := RoundedQuotient(total, n); 2 * (q * n) - n <= 2 * total < 2 * (q * n) + n
  {
    var q := RoundedQuotient(total, n);
    assert q * (2 * n) == 2 * (q * n);
  }

  /** The average is within the scale of ratings. */
  predicate OnScale(row: ContentRow, low: int, high: int) {
    10 * low <= row.averageTenths <= 10 * high
  }

  /** On a scale of ratings no added review can move the average any more exactly from this count on. */
  lemma ReviewsStopCountingIff(row: ContentRow, low: int, high: int)
    requires low <= high
    ensures (forall avg, rating :: OnScale(row.(averageTenths := avg), low, high) && low <= rating <= high ==>
               row.(averageTenths := avg).WithReview(rating).averageTenths == avg) <==>
            row.reviewCount >= 20 * (high - low)
  {
    hide ContentRow.WithReview;
    forall avg, rating
      ensures row.(averageTenths := avg).WithReview(rating).averageTenths == avg <==>
              -(row.reviewCount + 1) <= 2 * (10 * rating - avg) < row.reviewCount + 1
    {
      AddKeepsIff(row.(averageTenths := avg), rating);
    }
    var lowest := row.(averageTenths := 10 * low);
    assert OnScale(lowest, low, high);
    assert lowest.WithReview(high).averageTenths == 10 * low <==> row.reviewCount >= 20 * (high - low);
  }

  /** From then on additions within the scale leave the average for good: with ratings 1 to 5, from 80 reviews on. */
  lemma {:induction false} AverageFreezes(w: World, acts: seq<Action>, c: Id, low: int, high: int)
    requires forall a :: a in acts ==> OnlyAdds(a) && GivesWithin(a, c, low, high)
    requires c in w.st.contents && OnScale(w.st.contents[c], low, high)
    requires low <= high && w.st.contents[c].reviewCount >= 20 * (high - low)
    ensures c in Exec(w, acts).st.contents
    ensures Exec(w, acts).st.contents[c].averageTenths == w.st.contents[c].averageTenths
    decreases |acts|
  {
    hide ContentRow.WithReview, Reviewed;
    if acts != [] {
      var a := acts[0];
      assert a in acts && OnlyAdds(a) && GivesWithin(a, c, low, high);
      if a.Create? && a.content == c {
        AddKeepsIff(w.st.contents[c], a.rating);
        AddCounts(w.st.contents[c], a.rating);
      }
      AverageFreezes(Step(w, a), acts[1..], c, low, high);
    }
  }

  lemma AddCounts(row: ContentRow, rating: int)
    ensures row.WithReview(rating).reviewCount == row.reviewCount + 1
  {
  }
}
