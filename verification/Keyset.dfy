/**
  Keyset pagination: rows ordered by a sort key with the id as tie-break, a page
  of at most `limit` rows after a cursor, and one row more to see whether there
  is a next page.
*/
module Keyset {
  import opened Entities

  datatype Direction = Ascending | Descending

  /** Where a row stands in a listing. Any sort column is a number that orders as the column does. */
  datatype Position = Position(key: int, id: Id)

  /** The cursor predicate and the order of the query at once: strictly after, the id deciding where keys tie. */
  predicate Precedes(dir: Direction, p: Position, q: Position) {
    match dir
    case Ascending => p.key < q.key || (p.key == q.key && p.id < q.id)
    case Descending => q.key < p.key || (q.key == p.key && q.id < p.id)
  }

  // ---------- ORDER BY ----------

  predicate IsFirst(dir: Direction, s: set<Position>, m: Position) {
    m in s && forall p :: p in s && p != m ==> Precedes(dir, m, p)
  }

  lemma {:induction false} FirstExists(dir: Direction, s: set<Position>)
    requires s != {}
    ensures exists m :: IsFirst(dir, s, m)
    decreases |s|
  {
    var p :| p in s;
    var rest := s - {p};
    assert forall q :: q in s && q != p ==> q in rest;
    if rest == {} {
      assert IsFirst(dir, s, p);
    } else {
      FirstExists(dir, rest);
      var m :| IsFirst(dir, rest, m);
      assert IsFirst(dir, s, if Precedes(dir, p, m) then p else m);
    }
  }

  function First(dir: Direction, s: set<Position>): (m: Position)
    requires s != {}
    ensures IsFirst(dir, s, m)
  {
    FirstExists(dir, s);
    var m :| m in s && forall p :: p in s && p != m ==> Precedes(dir, m, p);
    m
  }

  function Sorted(dir: Direction, s: set<Position>): seq<Position>
    decreases |s|
  {
    if s == {} then [] else var m := First(dir, s); [m] + Sorted(dir, s - {m})
  }

  ghost predicate Increasing(dir: Direction, ps: seq<Position>) {
    forall i, j :: 0 <= i < j < |ps| ==> Precedes(dir, ps[i], ps[j])
  }

  lemma {:induction false} SortedIsSorted(dir: Direction, s: set<Position>)
    ensures forall p :: p in Sorted(dir, s) <==> p in s
    ensures Increasing(dir, Sorted(dir, s)) && |Sorted(dir, s)| == |s|
    decreases |s|
  {
    if s != {} {
      var m := First(dir, s);
      var rest := s - {m};
      SortedIsSorted(dir, rest);
      FirstInFront(dir, m, Sorted(dir, rest), rest);
      assert s == rest + {m};
    }
  }

  lemma FirstInFront(dir: Direction, m: Position, ps: seq<Position>, s: set<Position>)
    requires Increasing(dir, ps) && forall p :: p in ps <==> p in s
    requires forall p :: p in s ==> Precedes(dir, m, p)
    ensures Increasing(dir, [m] + ps)
    ensures forall p :: p in [m] + ps <==> p in s || p == m
  {
    forall i, j | 0 <= i < j < |[m] + ps|
      ensures Precedes(dir, ([m] + ps)[i], ([m] + ps)[j])
    {
      assert ps[j - 1] in ps;
    }
  }

  /** An increasing sequence is the sorted listing of its elements. */
  lemma {:induction false} OnlyOneSorted(dir: Direction, s: set<Position>, ps: seq<Position>)
    requires Increasing(dir, ps) && forall p :: p in ps <==> p in s
    ensures ps == Sorted(dir, s)
    decreases |ps|
  {
    if ps == [] {
      assert s == {};
    } else {
      assert ps[0] in s;
      var m := First(dir, s);
      assert m in ps && ps[0] == m;
      forall p
        ensures p in ps[1..] <==> p in s - {m}
      {
        assert ps == [ps[0]] + ps[1..];
      }
      OnlyOneSorted(dir, s - {m}, ps[1..]);
    }
  }

  // ---------- Pages ----------

  /** `next` is the position of the last row, if a page follows. */
  datatype Page = Page(items: seq<Position>, hasNext: bool, next: Option<Position>)

  function After(dir: Direction, rows: set<Position>, cursor: Option<Position>): set<Position> {
    set p | p in rows && (cursor.None? || Precedes(dir, cursor.value, p))
  }

  /** The first rows after the cursor, at most `n` of them: the query with its LIMIT. */
  function Select(dir: Direction, rows: set<Position>, cursor: Option<Position>, n: nat): seq<Position> {
    var all := Sorted(dir, After(dir, rows, cursor));
    if |all| <= n then all else all[..n]
  }

  function PageOf(dir: Direction, rows: set<Position>, cursor: Option<Position>, limit: nat): Page
    requires limit > 0
  {
    var all := Sorted(dir, After(dir, rows, cursor));
    if |all| > limit then Page(all[..limit], true, Some(all[limit - 1])) else Page(all, false, None)
  }

  // ---------- Walks ----------

  /** What a client gets that fetches page after page, while the table changes between the fetches. */
  function Walk(dir: Direction, tables: seq<set<Position>>, cursor: Option<Position>, limit: nat): seq<Position>
    requires limit > 0
    decreases |tables|
  {
    if tables == [] then []
    else
      var page := PageOf(dir, tables[0], cursor, limit);
      page.items + if page.hasNext then Walk(dir, tables[1..], page.next, limit) else []
  }

  /** The walk ends with the last table: that page, and no earlier one, says that none follows. */
  predicate Completes(dir: Direction, tables: seq<set<Position>>, cursor: Option<Position>, limit: nat)
    requires limit > 0
    decreases |tables|
  {
    && tables != []
    && var page := PageOf(dir, tables[0], cursor, limit);
    if page.hasNext then Completes(dir, tables[1..], page.next, limit) else |tables| == 1
  }

  /** The fetch that covers a position: the first whose page reaches that far. */
  function CoveredBy(dir: Direction, tables: seq<set<Position>>, cursor: Option<Position>, limit: nat, p: Position): (k: nat)
    requires limit > 0 && Completes(dir, tables, cursor, limit)
    ensures k < |tables|
    decreases |tables|
  {
    var page := PageOf(dir, tables[0], cursor, limit);
    if page.hasNext && Precedes(dir, page.next.value, p) then 1 + CoveredBy(dir, tables[1..], page.next, limit, p) else 0
  }

  lemma PageFacts(dir: Direction, rows: set<Position>, cursor: Option<Position>, limit: nat, p: Position)
    requires limit > 0
    ensures var page := PageOf(dir, rows, cursor, limit);
            && Increasing(dir, page.items)
            && (page.hasNext <==> page.next.Some?)
            && (page.hasNext ==> |page.items| == limit && page.next.value == page.items[limit - 1])
            && (p in page.items <==> p in After(dir, rows, cursor) && !(page.hasNext && Precedes(dir, page.next.value, p)))
  {
    var s := After(dir, rows, cursor);
    var all := Sorted(dir, s);
    SortedIsSorted(dir, s);
    if |all| > limit {
      if p in s {
        var i :| 0 <= i < |all| && all[i] == p;
        if i < limit {
          assert all[..limit][i] == p;
          assert !Precedes(dir, all[limit - 1], p);
        } else {
          assert Precedes(dir, all[limit - 1], p);
        }
      }
    }
  }

  /** All rows of a walk come after its cursor. */
  lemma {:induction false} WalkAfter(
      dir: Direction, tables: seq<set<Position>>, cursor: Option<Position>, limit: nat, p: Position)
    requires limit > 0 && p in Walk(dir, tables, cursor, limit)
    ensures cursor.Some? ==> Precedes(dir, cursor.value, p)
    decreases |tables|
  {
    hide PageOf;
    var page := PageOf(dir, tables[0], cursor, limit);
    PageFacts(dir, tables[0], cursor, limit, p);
    if p !in page.items {
      WalkAfter(dir, tables[1..], page.next, limit, p);
      PageFacts(dir, tables[0], cursor, limit, page.next.value);
    }
  }

  lemma IncreasingConcat(dir: Direction, ps: seq<Position>, qs: seq<Position>)
    requires Increasing(dir, ps) && Increasing(dir, qs)
    requires forall i, q :: 0 <= i < |ps| && q in qs ==> Precedes(dir, ps[i], q)
    ensures Increasing(dir, ps + qs)
  {
    forall i, j | 0 <= i < j < |ps + qs|
      ensures Precedes(dir, (ps + qs)[i], (ps + qs)[j])
    {
      if i < |ps| <= j {
        assert (ps + qs)[j] in qs;
      }
    }
  }

  /** However the table changes, no position is returned twice, and the rows come in order. */
  lemma {:induction false} WalkIncreases(dir: Direction, tables: seq<set<Position>>, cursor: Option<Position>, limit: nat)
    requires limit > 0
    ensures Increasing(dir, Walk(dir, tables, cursor, limit))
    decreases |tables|
  {
    hide PageOf;
    if tables != [] {
      var page := PageOf(dir, tables[0], cursor, limit);
      PageFacts(dir, tables[0], cursor, limit, Position(0, 0));
      if page.hasNext {
        var rest := Walk(dir, tables[1..], page.next, limit);
        WalkIncreases(dir, tables[1..], page.next, limit);
        forall i, q | 0 <= i < |page.items| && q in rest
          ensures Precedes(dir, page.items[i], q)
        {
          WalkAfter(dir, tables[1..], page.next, limit, q);
          assert page.items[i] == page.next.value || Precedes(dir, page.items[i], page.next.value);
        }
        IncreasingConcat(dir, page.items, rest);
      } else {
        assert Walk(dir, tables, cursor, limit) == page.items;
      }
    }
  }

  /** A completed walk returns a position exactly if the table has it when the fetch that covers it is made. */
  lemma {:induction false} WalkReturnsIff(
      dir: Direction, tables: seq<set<Position>>, cursor: Option<Position>, limit: nat, p: Position)
    requires limit > 0 && Completes(dir, tables, cursor, limit)
    requires cursor.Some? ==> Precedes(dir, cursor.value, p)
    ensures p in Walk(dir, tables, cursor, limit) <==> p in tables[CoveredBy(dir, tables, cursor, limit, p)]
    decreases |tables|
  {
    hide PageOf;
    var page := PageOf(dir, tables[0], cursor, limit);
    PageFacts(dir, tables[0], cursor, limit, p);
    if page.hasNext {
      if Precedes(dir, page.next.value, p) {
        WalkReturnsIff(dir, tables[1..], page.next, limit, p);
      } else if p in Walk(dir, tables[1..], page.next, limit) {
        WalkAfter(dir, tables[1..], page.next, limit, p);
      }
    }
  }

  lemma {:induction false} IncreasingOnce(dir: Direction, ps: seq<Position>, p: Position)
    requires Increasing(dir, ps)
    ensures multiset(ps)[p] == if p in ps then 1 else 0
    decreases |ps|
  {
    if ps != [] {
      var n := |ps| - 1;
      assert ps == ps[..n] + [ps[n]];
      assert ps[n] !in ps[..n];
      IncreasingOnce(dir, ps[..n], p);
    }
  }

  // ---------- A table that stands still ----------

  function FixedWalk(dir: Direction, rows: set<Position>, cursor: Option<Position>, limit: nat): seq<Page>
    requires limit > 0
    decreases |After(dir, rows, cursor)|
  {
    var page := PageOf(dir, rows, cursor, limit);
    if page.hasNext then
      NextIsFewer(dir, rows, cursor, limit);
      [page] + FixedWalk(dir, rows, page.next, limit)
    else [page]
  }

  lemma SuffixAfter(dir: Direction, ps: seq<Position>, k: nat, p: Position)
    requires Increasing(dir, ps) && k < |ps|
    ensures p in ps[k + 1..] <==> p in ps && Precedes(dir, ps[k], p)
  {
    if p in ps && Precedes(dir, ps[k], p) {
      var i :| 0 <= i < |ps| && ps[i] == p;
      assert i > k;
      assert ps[k + 1..][i - k - 1] == p;
    }
  }

  /** What follows the next cursor is what the page left over. */
  lemma LeftOver(dir: Direction, rows: set<Position>, cursor: Option<Position>, limit: nat)
    requires limit > 0 && PageOf(dir, rows, cursor, limit).hasNext
    ensures var all := Sorted(dir, After(dir, rows, cursor));
            && |all| > limit
            && Sorted(dir, After(dir, rows, PageOf(dir, rows, cursor, limit).next)) == all[limit..]
  {
    hide Sorted;
    var s := After(dir, rows, cursor);
    var all := Sorted(dir, s);
    SortedIsSorted(dir, s);
    var next := all[limit - 1];
    assert next in s;
    var rest := After(dir, rows, Some(next));
    forall p
      ensures p in all[limit..] <==> p in rest
    {
      SuffixAfter(dir, all, limit - 1, p);
    }
    OnlyOneSorted(dir, rest, all[limit..]);
  }

  lemma NextIsFewer(dir: Direction, rows: set<Position>, cursor: Option<Position>, limit: nat)
    requires limit > 0 && PageOf(dir, rows, cursor, limit).hasNext
    ensures |After(dir, rows, PageOf(dir, rows, cursor, limit).next)| == |After(dir, rows, cursor)| - limit
    ensures |After(dir, rows, cursor)| > limit
  {
    LeftOver(dir, rows, cursor, limit);
    SortedIsSorted(dir, After(dir, rows, cursor));
    SortedIsSorted(dir, After(dir, rows, PageOf(dir, rows, cursor, limit).next));
  }

  function Rows(pages: seq<Page>): seq<Position> {
    if pages == [] then [] else pages[0].items + Rows(pages[1..])
  }

  /** As many pages as `n` rows need and no more: an empty listing still takes one fetch. */
  predicate FewestPages(k: nat, n: nat, limit: nat) {
    k > 0 && n <= k * limit && (k > 1 ==> (k - 1) * limit < n)
  }

  lemma OnePageMore(k: nat, n: nat, limit: nat)
    requires n > limit > 0 && FewestPages(k, n - limit, limit)
    ensures FewestPages(k + 1, n, limit)
  {
    assert (k + 1) * limit == k * limit + limit;
    assert (k - 1) * limit + limit == k * limit;
  }

  /** On a table that stands still the pages add up to the whole sorted listing, in the fewest fetches. */
  lemma {:induction false} FixedWalkIsListing(dir: Direction, rows: set<Position>, cursor: Option<Position>, limit: nat)
    requires limit > 0
    ensures Rows(FixedWalk(dir, rows, cursor, limit)) == Sorted(dir, After(dir, rows, cursor))
    ensures FewestPages(|FixedWalk(dir, rows, cursor, limit)|, |After(dir, rows, cursor)|, limit)
    decreases |After(dir, rows, cursor)|
  {
    hide Sorted, After, FewestPages, Rows;
    var page := PageOf(dir, rows, cursor, limit);
    var n := |After(dir, rows, cursor)|;
    SortedIsSorted(dir, After(dir, rows, cursor));
    if page.hasNext {
      LeftOver(dir, rows, cursor, limit);
      NextIsFewer(dir, rows, cursor, limit);
      FixedWalkIsListing(dir, rows, page.next, limit);
      var rest := FixedWalk(dir, rows, page.next, limit);
      OnePageMore(|rest|, n, limit);
      FirstPage(page, rest);
    } else {
      LastPage(page);
      OnePage(n, limit);
    }
  }

  lemma FirstPage(page: Page, rest: seq<Page>)
    ensures Rows([page] + rest) == page.items + Rows(rest)
  {
    assert ([page] + rest)[1..] == rest;
  }

  lemma LastPage(page: Page)
    ensures Rows([page]) == page.items
  {
    assert [page][1..] == [];
    assert Rows([]) == [];
  }

  lemma OnePage(n: nat, limit: nat)
    requires n <= limit
    ensures FewestPages(1, n, limit)
  {
  }
}
