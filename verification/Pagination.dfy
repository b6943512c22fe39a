/**
 Keyset pages over (created_at, _id), newest first, as the room, call-history and message-history
 listings take them, and the scan that a caller makes by following the cursors.
 */
module Pagination {
  import opened Wrappers

  /** A stored document, as far as its place in a listing goes. */
  datatype Row = Row(createdAt: int, id: nat)

  datatype Page = Page(items: seq<Row>, next: Option<Row>)

  predicate Newer(a: Row, b: Row) {
    a.createdAt > b.createdAt || (a.createdAt == b.createdAt && a.id > b.id)
  }

  ghost predicate Descending(xs: seq<Row>) {
    forall i, j :: 0 <= i < j < |xs| ==> Newer(xs[i], xs[j])
  }

  ghost predicate Ascending(xs: seq<Row>) {
    forall i, j :: 0 <= i < j < |xs| ==> Newer(xs[j], xs[i])
  }

  ghost predicate DistinctIds(xs: seq<Row>) {
    forall i, j :: 0 <= i < j < |xs| ==> xs[i].id != xs[j].id
  }

  // ---------- one query ----------

  /** x put in its place in xs. */
  function Insert(xs: seq<Row>, x: Row): (ys: seq<Row>)
    ensures forall y :: y in ys <==> y in xs || y == x
  {
    if |xs| == 0 then [x]
    else if Newer(x, xs[|xs| - 1]) then Insert(xs[..|xs| - 1], x) + [xs[|xs| - 1]]
    else xs + [x]
  }

  /** The rows in the order the sort asks for. */
  function Sorted(rows: seq<Row>): (xs: seq<Row>)
    ensures forall x :: x in xs <==> x in rows
  {
    if |rows| == 0 then []
    else
      assert forall x :: x in rows <==> x in rows[..|rows| - 1] || x == rows[|rows| - 1];
      Insert(Sorted(rows[..|rows| - 1]), rows[|rows| - 1])
  }

  predicate After(cursor: Option<Row>, x: Row) {
    cursor.None? || Newer(cursor.value, x)
  }

  function Matching(rows: seq<Row>, cursor: Option<Row>): (ms: seq<Row>)
    ensures forall x :: x in ms <==> x in rows && After(cursor, x)
    ensures |ms| <= |rows|
  {
    if |rows| == 0 then []
    else
      assert forall x :: x in rows <==> x in rows[..|rows| - 1] || x == rows[|rows| - 1];
      var ms := Matching(rows[..|rows| - 1], cursor);
      if After(cursor, rows[|rows| - 1]) then ms + [rows[|rows| - 1]] else ms
  }

  function Take(xs: seq<Row>, n: nat): seq<Row> {
    if n <= |xs| then xs[..n] else xs
  }

  /** One row more than the limit is fetched, to see whether there is another page. */
  function GetPage(rows: seq<Row>, limit: nat, cursor: Option<Row>): Page {
    var found := Take(Sorted(Matching(rows, cursor)), limit + 1);
    var items := Take(found, limit);
    Page(items, if |found| > limit && |items| > 0 then Some(items[|items| - 1]) else None)
  }

  // ---------- sorting ----------

  lemma {:induction false} InsertKeepsOrder(xs: seq<Row>, x: Row)
    requires Descending(xs) && forall i :: 0 <= i < |xs| ==> xs[i].id != x.id
    ensures Descending(Insert(xs, x)) && |Insert(xs, x)| == |xs| + 1
  {
    if |xs| == 0 {
    } else if Newer(x, xs[|xs| - 1]) {
      var front := xs[..|xs| - 1];
      InsertKeepsOrder(front, x);
      var ys := Insert(front, x);
      forall i | 0 <= i < |ys| ensures Newer(ys[i], xs[|xs| - 1]) {
        assert ys[i] in ys;
      }
    }
  }

  lemma {:induction false} SortedIsDescending(rows: seq<Row>)
    requires DistinctIds(rows)
    ensures Descending(Sorted(rows)) && |Sorted(rows)| == |rows|
  {
    if |rows| == 0 {
    } else {
      var front := rows[..|rows| - 1];
      SortedIsDescending(front);
      forall i | 0 <= i < |Sorted(front)| ensures Sorted(front)[i].id != rows[|rows| - 1].id {
        assert Sorted(front)[i] in front;
      }
      InsertKeepsOrder(Sorted(front), rows[|rows| - 1]);
    }
  }

  lemma {:induction false} MatchingKeepsIds(rows: seq<Row>, cursor: Option<Row>)
    requires DistinctIds(rows)
    ensures DistinctIds(Matching(rows, cursor))
  {
    if |rows| == 0 {
    } else {
      var front := rows[..|rows| - 1];
      MatchingKeepsIds(front, cursor);
      var ms := Matching(front, cursor);
      forall i | 0 <= i < |ms| ensures ms[i].id != rows[|rows| - 1].id {
        assert ms[i] in ms;
        assert ms[i] in front;
      }
    }
  }

  lemma HeadIn(ys: seq<Row>)
    requires ys != []
    ensures ys[0] in ys
  {
  }

  /** There is only one descending order of the same rows. */
  lemma {:induction false} DescendingIsUnique(xs: seq<Row>, ys: seq<Row>)
    requires Descending(xs) && Descending(ys)
    requires forall x :: x in xs <==> x in ys
    ensures xs == ys
  {
    if |xs| == 0 {
      if ys != [] {
        HeadIn(ys);
        assert false;
      }
    } else {
      assert xs[|xs| - 1] in ys;
      var i: nat :| i < |ys| && ys[i] == xs[|xs| - 1];
      assert ys[|ys| - 1] in xs;
      var j: nat :| j < |xs| && xs[j] == ys[|ys| - 1];
      assert i == |ys| - 1;
      var fx, fy := xs[..|xs| - 1], ys[..|ys| - 1];
      forall x ensures x in fx <==> x in fy {
        if x in fx { assert x in ys; }
        if x in fy { assert x in xs; }
      }
      DescendingIsUnique(fx, fy);
      assert xs == fx + [xs[|xs| - 1]] && ys == fy + [ys[|ys| - 1]];
    }
  }

  // ---------- what one page holds ----------

  /** The page ends before x. */
  predicate EndsBefore(p: Page, x: Row) {
    p.next.Some? && Newer(p.next.value, x)
  }

  ghost predicate PageOk(rows: seq<Row>, cursor: Option<Row>, p: Page) {
    && Descending(p.items)
    && (forall x :: x in p.items <==> x in rows && After(cursor, x) && !EndsBefore(p, x))
    && (p.next.Some? ==> p.next.value in rows && After(cursor, p.next.value))
  }

  /** The first n of a descending list are those that are not behind the n-th. */
  lemma FirstOnes(all: seq<Row>, n: nat, x: Row)
    requires Descending(all) && 1 <= n <= |all|
    ensures x in all[..n] <==> x in all && !Newer(all[n - 1], x)
  {
    if x in all {
      var i: nat :| i < |all| && all[i] == x;
      if i < n {
        assert all[..n][i] == x;
      } else {
        forall k | 0 <= k < n ensures all[..n][k] != x {
          assert Newer(all[k], all[i]);
        }
      }
    }
  }

  lemma TakeTwice(xs: seq<Row>, n: nat)
    ensures Take(Take(xs, n + 1), n) == Take(xs, n)
    ensures |Take(xs, n + 1)| > n <==> |xs| > n
  {
  }

  /** The page is a proper beginning of the sorted matches, or all of them. */
  lemma PageShape(rows: seq<Row>, limit: nat, cursor: Option<Row>)
    requires limit >= 1
    ensures var all := Sorted(Matching(rows, cursor));
            GetPage(rows, limit, cursor) ==
            if |all| > limit then Page(all[..limit], Some(all[limit - 1])) else Page(all, None)
  {
    TakeTwice(Sorted(Matching(rows, cursor)), limit);
  }

  lemma MatchesDescend(rows: seq<Row>, cursor: Option<Row>)
    requires DistinctIds(rows)
    ensures Descending(Sorted(Matching(rows, cursor)))
  {
    MatchingKeepsIds(rows, cursor);
    SortedIsDescending(Matching(rows, cursor));
  }

  /** A page holds exactly the rows between the cursor it was asked for and the one it gives back. */
  lemma PageHolds(rows: seq<Row>, limit: nat, cursor: Option<Row>)
    requires DistinctIds(rows) && limit >= 1
    ensures PageOk(rows, cursor, GetPage(rows, limit, cursor))
    ensures var p := GetPage(rows, limit, cursor);
            |p.items| <= limit && (p.next.Some? ==> |p.items| == limit && p.next.value == p.items[limit - 1])
  {
    PageShape(rows, limit, cursor);
    MatchesDescend(rows, cursor);
    var all := Sorted(Matching(rows, cursor));
    if |all| > limit {
      assert all[limit - 1] in all;
      forall x ensures x in all[..limit] <==> x in all && !Newer(all[limit - 1], x) {
        FirstOnes(all, limit, x);
      }
    }
  }

  /** There is another page exactly if some row behind the cursor is not on this one; it goes on from the last row. */
  lemma NextIff(rows: seq<Row>, limit: nat, cursor: Option<Row>)
    requires DistinctIds(rows) && limit >= 1
    ensures var p := GetPage(rows, limit, cursor);
            && (p.next.Some? <==> exists x :: x in rows && After(cursor, x) && x !in p.items)
            && (p.next.Some? ==> |p.items| == limit && p.next == Some(p.items[limit - 1]))
  {
    PageShape(rows, limit, cursor);
    MatchesDescend(rows, cursor);
    var all := Sorted(Matching(rows, cursor));
    if |all| > limit {
      FirstOnes(all, limit, all[limit]);
      assert all[limit] in all && Newer(all[limit - 1], all[limit]);
    }
  }

  // ---------- a whole scan ----------

  ghost predicate FetchedAt(stored: seq<seq<Row>>, limit: nat, pages: seq<Page>, k: nat)
    requires k < |pages| == |stored|
  {
    pages[k] == GetPage(stored[k], limit, CursorOf(pages, k))
  }

  /** Pages fetched one after the other, each from what is stored at that moment, to the last one. */
  ghost predicate Scan(stored: seq<seq<Row>>, limit: nat, pages: seq<Page>) {
    && |pages| == |stored| >= 1
    && (forall k :: 0 <= k < |stored| ==> DistinctIds(stored[k]))
    && (forall k :: 0 <= k < |pages| ==> FetchedAt(stored, limit, pages, k))
    && (forall k :: 0 <= k < |pages| ==> (pages[k].next.Some? <==> k < |pages| - 1))
  }

  ghost predicate OkAt(stored: seq<seq<Row>>, pages: seq<Page>, k: nat)
    requires k < |pages| == |stored|
  {
    PageOk(stored[k], CursorOf(pages, k), pages[k])
  }

  /** What the lemmas below need to know of a scan. */
  ghost predicate ScanOk(stored: seq<seq<Row>>, pages: seq<Page>) {
    && |pages| == |stored| >= 1
    && (forall k :: 0 <= k < |pages| ==> OkAt(stored, pages, k))
    && (forall k :: 0 <= k < |pages| ==> (pages[k].next.Some? <==> k < |pages| - 1))
  }

  lemma ScansAreOk(stored: seq<seq<Row>>, limit: nat, pages: seq<Page>)
    requires Scan(stored, limit, pages) && limit >= 1
    ensures ScanOk(stored, pages)
  {
    forall k | 0 <= k < |pages| ensures OkAt(stored, pages, k) {
      assert FetchedAt(stored, limit, pages, k);
      PageHolds(stored[k], limit, CursorOf(pages, k));
    }
  }

  function CursorOf(pages: seq<Page>, k: nat): Option<Row>
    requires k < |pages|
  {
    if k == 0 then None else pages[k - 1].next
  }

  function Items(pages: seq<Page>): seq<Row> {
    if |pages| == 0 then [] else Items(pages[..|pages| - 1]) + pages[|pages| - 1].items
  }

  /** The page on which x belongs: the first that does not end before x. */
  function Turn(pages: seq<Page>, x: Row): (k: nat)
    requires |pages| >= 1 && pages[|pages| - 1].next.None?
    ensures k < |pages| && !EndsBefore(pages[k], x)
    ensures forall i :: 0 <= i < k ==> EndsBefore(pages[i], x)
    decreases |pages|
  {
    if EndsBefore(pages[0], x) then
      assert pages[1..][|pages| - 2] == pages[|pages| - 1];
      var k := Turn(pages[1..], x);
      assert forall i :: 1 <= i < |pages| ==> pages[i] == pages[1..][i - 1];
      k + 1
    else 0
  }

  lemma {:induction false} CursorsDescend(stored: seq<seq<Row>>, pages: seq<Page>, i: nat, j: nat)
    requires ScanOk(stored, pages) && i < j < |pages| - 1
    ensures Newer(pages[i].next.value, pages[j].next.value)
  {
    assert OkAt(stored, pages, j);
    if i < j - 1 {
      CursorsDescend(stored, pages, i, j - 1);
    }
  }

  /** Page k holds x exactly if x was stored when its turn came and this was its turn. */
  lemma OnPage(stored: seq<seq<Row>>, pages: seq<Page>, k: nat, x: Row)
    requires ScanOk(stored, pages) && k < |pages|
    ensures x in pages[k].items <==> k == Turn(pages, x) && x in stored[k]
  {
    var t := Turn(pages, x);
    assert OkAt(stored, pages, k);
    if k < t {
      assert EndsBefore(pages[k], x);
    } else if k > t {
      assert !EndsBefore(pages[t], x) && pages[t].next.Some?;
      if k - 1 > t {
        CursorsDescend(stored, pages, t, k - 1);
      }
      assert !After(CursorOf(pages, k), x);
    } else if k > 0 {
      assert EndsBefore(pages[k - 1], x);
      assert After(CursorOf(pages, k), x);
    }
  }

  lemma {:induction false} InItems(pages: seq<Page>, x: Row)
    ensures x in Items(pages) <==> exists k: nat :: k < |pages| && x in pages[k].items
  {
    if |pages| == 0 {
    } else {
      var front := pages[..|pages| - 1];
      InItems(front, x);
      if k: nat :| k < |pages| && x in pages[k].items {
        assert k < |front| ==> front[k] == pages[k];
      }
    }
  }

  /**
   A scan over a changing collection returns a row exactly if the row was stored when the page on
   which it belongs was fetched. In particular it returns every row that was there throughout.
   */
  lemma ScanReturns(stored: seq<seq<Row>>, limit: nat, pages: seq<Page>, x: Row)
    requires Scan(stored, limit, pages) && limit >= 1
    ensures x in Items(pages) <==> x in stored[Turn(pages, x)]
    ensures (forall k :: 0 <= k < |stored| ==> x in stored[k]) ==> x in Items(pages)
  {
    ScansAreOk(stored, limit, pages);
    InItems(pages, x);
    var t := Turn(pages, x);
    OnPage(stored, pages, t, x);
    if k: nat :| k < |pages| && x in pages[k].items {
      OnPage(stored, pages, k, x);
    }
  }

  lemma {:induction false} PrefixDescends(stored: seq<seq<Row>>, pages: seq<Page>, n: nat)
    requires ScanOk(stored, pages) && n <= |pages|
    ensures Descending(Items(pages[..n]))
  {
    if n == 0 {
    } else {
      var k := n - 1;
      assert pages[..n][..k] == pages[..k];
      PrefixDescends(stored, pages, k);
      assert OkAt(stored, pages, k);
      forall x, y | x in Items(pages[..k]) && y in pages[k].items ensures Newer(x, y) {
        EarlierPagesAreNewer(stored, pages, k, x, y);
      }
      JoinDescends(Items(pages[..k]), pages[k].items);
    }
  }

  lemma JoinDescends(xs: seq<Row>, ys: seq<Row>)
    requires Descending(xs) && Descending(ys)
    requires forall x, y :: x in xs && y in ys ==> Newer(x, y)
    ensures Descending(xs + ys)
  {
    forall i, j | 0 <= i < j < |xs + ys| ensures Newer((xs + ys)[i], (xs + ys)[j]) {
      if i < |xs| <= j {
        assert xs[i] in xs && ys[j - |xs|] in ys;
      }
    }
  }

  lemma EarlierPagesAreNewer(stored: seq<seq<Row>>, pages: seq<Page>, k: nat, x: Row, y: Row)
    requires ScanOk(stored, pages) && k < |pages|
    requires x in Items(pages[..k]) && y in pages[k].items
    ensures Newer(x, y)
  {
    InItems(pages[..k], x);
    var i: nat :| i < k && x in pages[..k][i].items;
    OnPage(stored, pages, i, x);
    OnPage(stored, pages, k, y);
    assert EndsBefore(pages[i], y) && !EndsBefore(pages[i], x);
  }

  /** A scan returns rows strictly newest first, so none twice, whatever was inserted or deleted meanwhile. */
  lemma ScanDescends(stored: seq<seq<Row>>, limit: nat, pages: seq<Page>)
    requires Scan(stored, limit, pages) && limit >= 1
    ensures Descending(Items(pages))
    ensures var xs := Items(pages); forall i, j :: 0 <= i < j < |xs| ==>
              xs[i].createdAt > xs[j].createdAt || (xs[i].createdAt == xs[j].createdAt && xs[i].id > xs[j].id)
  {
    ScansAreOk(stored, limit, pages);
    PrefixDescends(stored, pages, |pages|);
    assert pages[..|pages|] == pages;
  }

  /** Over a collection that does not change, a scan returns the whole sorted listing. */
  lemma StaticScanIsTheListing(rows: seq<Row>, limit: nat, pages: seq<Page>)
    requires Scan(seq(|pages|, _ => rows), limit, pages) && limit >= 1
    ensures Items(pages) == Sorted(rows)
  {
    var stored := seq(|pages|, _ => rows);
    ScanDescends(stored, limit, pages);
    assert stored[0] == rows;
    SortedIsDescending(rows);
    forall x ensures x in Items(pages) <==> x in Sorted(rows) {
      ScanReturns(stored, limit, pages, x);
    }
    DescendingIsUnique(Items(pages), Sorted(rows));
  }

  // ---------- message history ----------

  function Reversed(xs: seq<Row>): (ys: seq<Row>)
    ensures |ys| == |xs| && forall i :: 0 <= i < |xs| ==> ys[i] == xs[|xs| - 1 - i]
  {
    seq(|xs|, i requires 0 <= i < |xs| => xs[|xs| - 1 - i])
  }

  /** History pages are served oldest first; a client puts each further page in front of what it has. */
  function History(pages: seq<Page>): seq<Row> {
    if |pages| == 0 then [] else Reversed(pages[|pages| - 1].items) + History(pages[..|pages| - 1])
  }

  lemma ReversedJoin(xs: seq<Row>, ys: seq<Row>)
    ensures Reversed(xs + ys) == Reversed(ys) + Reversed(xs)
  {
  }

  lemma {:induction false} HistoryReversesItems(pages: seq<Page>)
    ensures History(pages) == Reversed(Items(pages))
  {
    if |pages| == 0 {
    } else {
      HistoryReversesItems(pages[..|pages| - 1]);
      ReversedJoin(Items(pages[..|pages| - 1]), pages[|pages| - 1].items);
    }
  }

  lemma ReversedAscends(xs: seq<Row>)
    requires Descending(xs)
    ensures Ascending(Reversed(xs)) && forall x :: x in Reversed(xs) <==> x in xs
  {
    var ys := Reversed(xs);
    forall x ensures x in ys <==> x in xs {
      if x in xs {
        var i: nat :| i < |xs| && xs[i] == x;
        assert ys[|xs| - 1 - i] == x;
      }
    }
  }

  /** The history a client puts together is in ascending order, and holds what the scan returned. */
  lemma HistoryAscends(stored: seq<seq<Row>>, limit: nat, pages: seq<Page>)
    requires Scan(stored, limit, pages) && limit >= 1
    ensures Ascending(History(pages))
    ensures var xs := History(pages); forall i, j :: 0 <= i < j < |xs| ==> xs[i].createdAt <= xs[j].createdAt
    ensures forall x :: x in History(pages) <==> x in Items(pages)
  {
    ScanDescends(stored, limit, pages);
    HistoryReversesItems(pages);
    ReversedAscends(Items(pages));
  }

  // ---------- the loop that follows the cursors ----------

  const PAGE_SIZE := 200

  method ListAllByUser(rows: seq<Row>, limit: nat, cursor: Option<Row>) returns (items: seq<Row>, next: Option<Row>)
    ensures Page(items, next) == GetPage(rows, limit, cursor)
  {
    var found := Take(Sorted(Matching(rows, cursor)), limit + 1);
    var hasMore := |found| > limit;
    items := Take(found, limit);
    next := if hasMore && |items| > 0 then Some(items[|items| - 1]) else None;
  }

  ghost function Rest(rows: seq<Row>, cursor: Option<Row>): set<Row> {
    set x | x in rows && After(cursor, x)
  }

  /** Pages of one collection, each taken from where the one before ended. */
  ghost predicate Follows(rows: seq<Row>, limit: nat, pages: seq<Page>) {
    forall k :: 0 <= k < |pages| ==> FollowsAt(rows, limit, pages, k)
  }

  ghost predicate FollowsAt(rows: seq<Row>, limit: nat, pages: seq<Page>, k: nat)
    requires k < |pages|
  {
    pages[k] == GetPage(rows, limit, CursorOf(pages, k))
  }

  function LastCursor(pages: seq<Page>): Option<Row> {
    if |pages| == 0 then None else pages[|pages| - 1].next
  }

  lemma FollowsOn(rows: seq<Row>, limit: nat, pages: seq<Page>, p: Page)
    requires Follows(rows, limit, pages) && p == GetPage(rows, limit, LastCursor(pages))
    ensures Follows(rows, limit, pages + [p]) && Items(pages + [p]) == Items(pages) + p.items
  {
    var more := pages + [p];
    assert more[..|pages|] == pages;
    forall k | 0 <= k < |more| ensures FollowsAt(rows, limit, more, k) {
      if k < |pages| {
        assert FollowsAt(rows, limit, pages, k);
        assert CursorOf(more, k) == CursorOf(pages, k);
      } else {
        assert CursorOf(more, k) == LastCursor(pages);
      }
    }
  }

  lemma FewerRemain(rows: seq<Row>, limit: nat, cursor: Option<Row>, p: Page)
    requires DistinctIds(rows) && limit >= 1 && p == GetPage(rows, limit, cursor) && p.next.Some?
    ensures Rest(rows, p.next) < Rest(rows, cursor)
  {
    PageHolds(rows, limit, cursor);
    assert p.next.value in Rest(rows, cursor) && p.next.value !in Rest(rows, p.next);
  }

  lemma FollowedToTheEnd(rows: seq<Row>, limit: nat, pages: seq<Page>)
    requires DistinctIds(rows) && limit >= 1 && Follows(rows, limit, pages) && |pages| >= 1
    requires forall k :: 0 <= k < |pages| ==> (pages[k].next.Some? <==> k < |pages| - 1)
    ensures Items(pages) == Sorted(rows)
  {
    var stored := seq(|pages|, _ => rows);
    forall k | 0 <= k < |pages| ensures FetchedAt(stored, limit, pages, k) {
      assert FollowsAt(rows, limit, pages, k);
    }
    StaticScanIsTheListing(rows, limit, pages);
  }

  method ListAllByUserUnbounded(rows: seq<Row>) returns (all: seq<Row>)
    requires DistinctIds(rows)
    ensures all == Sorted(rows)
  {
    all := [];
    var cursor: Option<Row> := None;
    ghost var pages: seq<Page> := [];
    while true
      invariant all == Items(pages) && cursor == LastCursor(pages) && Follows(rows, PAGE_SIZE, pages)
      invariant forall k :: 0 <= k < |pages| ==> pages[k].next.Some?
      decreases Rest(rows, cursor)
    {
      var items, next := ListAllByUser(rows, PAGE_SIZE, cursor);
      all := all + items;
      FollowsOn(rows, PAGE_SIZE, pages, Page(items, next));
      pages := pages + [Page(items, next)];
      if next.None? {
        break;
      }
      FewerRemain(rows, PAGE_SIZE, cursor, Page(items, next));
      cursor := next;
    }
    FollowedToTheEnd(rows, PAGE_SIZE, pages);
  }
}
