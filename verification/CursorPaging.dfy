// Cursor paging of a conversation's messages: each call returns the newest
// `limit` messages strictly older than the cursor, oldest first, and the cursor
// for the next call. Walking the cursor to its end should return the history.

module CursorPaging {
  import opened Common

  datatype Row = Row(id: nat, createdAt: int)

  // The order a query may return rows in: by createdAt, rows with equal times in any order.
  ghost predicate Sorted(v: seq<Row>) {
    forall i, j :: 0 <= i < j < |v| ==> v[i].createdAt <= v[j].createdAt
  }

  predicate OlderThan(r: Row, before: Option<int>) {
    before.None? || r.createdAt < before.value
  }

  function Older(v: seq<Row>, before: Option<int>): seq<Row> {
    if v == [] then []
    else
      var rest := Older(v[..|v| - 1], before);
      if OlderThan(v[|v| - 1], before) then rest + [v[|v| - 1]] else rest
  }

  function Newest(v: seq<Row>, limit: nat): seq<Row> {
    if |v| <= limit then v else v[|v| - limit..]
  }

  function Reversed(v: seq<Row>): (r: seq<Row>)
    ensures |r| == |v|
  {
    if v == [] then [] else [v[|v| - 1]] + Reversed(v[..|v| - 1])
  }

  datatype Page = Page(data: seq<Row>, nextCursor: Option<int>)

  function PageAt(v: seq<Row>, limit: nat, before: Option<int>): Page
    requires limit >= 1
  {
    var data := Newest(Older(v, before), limit);
    Page(data, if |data| == limit then Some(data[0].createdAt) else None)
  }

  lemma {:induction false} ReversedAt(v: seq<Row>, i: nat)
    requires i < |v|
    ensures Reversed(v)[i] == v[|v| - 1 - i]
  {
    if i > 0 { ReversedAt(v[..|v| - 1], i - 1); }
  }

  lemma ReversedTwice(v: seq<Row>)
    ensures Reversed(Reversed(v)) == v
  {
    forall i | 0 <= i < |v| ensures Reversed(Reversed(v))[i] == v[i] {
      ReversedAt(Reversed(v), i);
      ReversedAt(v, |v| - 1 - i);
    }
  }

  // The rows at i and later have been scanned, and rows holds the older ones among them, newest first.
  ghost predicate Scanned(v: seq<Row>, before: Option<int>, i: nat, rows: seq<Row>)
    requires i <= |v|
  {
    Older(v, before) == Older(v[..i], before) + Reversed(rows)
  }

  lemma {:induction false} SnocReversed(rows: seq<Row>, r: Row)
    ensures Reversed(rows + [r]) == [r] + Reversed(rows)
  {
    assert (rows + [r])[..|rows|] == rows;
  }

  lemma ScanStep(v: seq<Row>, before: Option<int>, i: nat, rows: seq<Row>)
    requires 0 < i <= |v| && Scanned(v, before, i, rows)
    ensures Scanned(v, before, i - 1, if OlderThan(v[i - 1], before) then rows + [v[i - 1]] else rows)
  {
    assert v[..i][..i - 1] == v[..i - 1];
    SnocReversed(rows, v[i - 1]);
  }

  lemma ScanDone(v: seq<Row>, before: Option<int>, i: nat, rows: seq<Row>, limit: nat)
    requires i <= |v| && Scanned(v, before, i, rows) && |rows| <= limit
    requires i == 0 || |rows| == limit
    ensures rows == Reversed(Newest(Older(v, before), limit))
  {
    var rest, found := Older(v[..i], before), Reversed(rows);
    assert (rest + found)[|rest|..] == found;
    assert i == 0 ==> rest == [];
    ReversedTwice(rows);
  }

  /** The query: older rows, newest first, at most limit of them. */
  method FindMany(v: seq<Row>, limit: nat, before: Option<int>) returns (rows: seq<Row>)
    ensures rows == Reversed(Newest(Older(v, before), limit))
  {
    rows := [];
    var i: nat := |v|;
    assert Scanned(v, before, i, rows) by { assert v[..i] == v; }
    while i > 0 && |rows| < limit
      invariant i <= |v| && |rows| <= limit && Scanned(v, before, i, rows)
    {
      ScanStep(v, before, i, rows);
      i := i - 1;
      if OlderThan(v[i], before) { rows := rows + [v[i]]; }
    }
    ScanDone(v, before, i, rows, limit);
  }

  lemma ReversedTake(rows: seq<Row>, i: nat)
    requires i < |rows|
    ensures Reversed(rows[..i + 1]) == [rows[i]] + Reversed(rows[..i])
  {
    SnocReversed(rows[..i], rows[i]);
    assert rows[..i + 1] == rows[..i] + [rows[i]];
  }

  datatype Reply = NotFound | Found(page: Page, hasMore: bool)

  /** getMessages: reverse what the query returned; a full page carries the cursor of its oldest row. */
  method GetMessages(found: bool, v: seq<Row>, limit: nat, before: Option<int>) returns (reply: Reply)
    requires limit >= 1
    ensures !found ==> reply == NotFound
    ensures found ==> reply == Found(PageAt(v, limit, before), PageAt(v, limit, before).nextCursor.Some?)
  {
    if !found { return NotFound; }
    var messages := FindMany(v, limit, before);
    var ordered := [];
    for i := 0 to |messages|
      invariant ordered == Reversed(messages[..i])
    {
      ReversedTake(messages, i);
      ordered := [messages[i]] + ordered;
    }
    assert messages[..|messages|] == messages;
    ReversedTwice(Newest(Older(v, before), limit));
    var nextCursor := if |messages| == limit then Some(messages[|messages| - 1].createdAt) else None;
    if |messages| == limit { ReversedAt(messages, 0); }
    reply := Found(Page(ordered, nextCursor), |messages| == limit);
  }

  // ── Walking the cursor ───────────────────────────────────────────────────

  /** How many rows are older than the cursor; in a sorted view they are the first ones. */
  function Cut(v: seq<Row>, before: Option<int>): nat {
    |Older(v, before)|
  }

  lemma {:induction false} OlderAll(v: seq<Row>, before: Option<int>)
    requires forall i :: 0 <= i < |v| ==> OlderThan(v[i], before)
    ensures Older(v, before) == v
  {
    if v != [] {
      OlderAll(v[..|v| - 1], before);
      assert v[..|v| - 1] + [v[|v| - 1]] == v;
    }
  }

  lemma {:induction false} OlderIsPrefix(v: seq<Row>, before: Option<int>)
    requires Sorted(v)
    ensures Cut(v, before) <= |v| && Older(v, before) == v[..Cut(v, before)]
    ensures forall i :: 0 <= i < |v| ==> (i < Cut(v, before) <==> OlderThan(v[i], before))
  {
    if v != [] {
      if OlderThan(v[|v| - 1], before) {
        OlderAll(v, before);
      } else {
        OlderIsPrefix(v[..|v| - 1], before);
      }
    }
  }

  // A page with a cursor is full, so the cursor moves at least a page back; it moves exactly a
  // page back when the row before the page is strictly older than the page's first row.
  lemma NextCursorEarlier(v: seq<Row>, limit: nat, before: Option<int>)
    requires limit >= 1 && Sorted(v) && PageAt(v, limit, before).nextCursor.Some?
    ensures limit <= Cut(v, before) <= |v|
    ensures PageAt(v, limit, before).data == v[Cut(v, before) - limit..Cut(v, before)]
    ensures Cut(v, PageAt(v, limit, before).nextCursor) <= Cut(v, before) - limit
    ensures Cut(v, PageAt(v, limit, before).nextCursor) == Cut(v, before) - limit <==>
              (Cut(v, before) == limit ||
               v[Cut(v, before) - limit - 1].createdAt < v[Cut(v, before) - limit].createdAt)
  {
    var next := PageAt(v, limit, before).nextCursor;
    OlderIsPrefix(v, before);
    OlderIsPrefix(v, next);
    var first := Cut(v, before) - limit;
    assert PageAt(v, limit, before).data[0] == v[first];
    assert !OlderThan(v[first], next);
    if first > 0 { assert OlderThan(v[first - 1], next) <==> v[first - 1].createdAt < v[first].createdAt; }
  }

  // A walk whose successive calls see the rows in the orders listed in views: the pages in the order
  // they are fetched, newest page first.
  function Walk(views: seq<seq<Row>>, limit: nat, before: Option<int>): (pages: seq<seq<Row>>)
    requires limit >= 1
    ensures |pages| <= |views|
  {
    if views == [] then []
    else
      var page := PageAt(views[0], limit, before);
      [page.data] + if page.nextCursor.None? then [] else Walk(views[1..], limit, page.nextCursor)
  }

  ghost predicate AllSorted(views: seq<seq<Row>>) {
    forall v :: v in views ==> Sorted(v)
  }

  lemma PageIsSlice(v: seq<Row>, limit: nat, before: Option<int>)
    requires limit >= 1 && Sorted(v)
    ensures var data := PageAt(v, limit, before).data;
            |data| <= Cut(v, before) <= |v| && data == v[Cut(v, before) - |data|..Cut(v, before)]
  {
    OlderIsPrefix(v, before);
  }

  lemma InSlice(v: seq<Row>, a: nat, b: nat, r: Row) returns (i: nat)
    requires Sorted(v) && a <= b <= |v| && r in v[a..b]
    ensures a <= i < b && v[i] == r && v[a].createdAt <= r.createdAt
  {
    var n :| 0 <= n < b - a && v[a..b][n] == r;
    i := a + n;
  }

  lemma PageOlder(v: seq<Row>, limit: nat, before: Option<int>, r: Row)
    requires limit >= 1 && Sorted(v) && r in PageAt(v, limit, before).data
    ensures OlderThan(r, before)
    ensures PageAt(v, limit, before).nextCursor.Some? ==> r.createdAt >= PageAt(v, limit, before).nextCursor.value
  {
    PageIsSlice(v, limit, before);
    var i := InSlice(v, Cut(v, before) - |PageAt(v, limit, before).data|, Cut(v, before), r);
    OlderIsPrefix(v, before);
  }

  ghost predicate OnPage(pages: seq<seq<Row>>, i: nat, r: Row) {
    i < |pages| && r in pages[i]
  }

  lemma OnLaterPage(views: seq<seq<Row>>, limit: nat, before: Option<int>, i: nat, r: Row)
    requires limit >= 1 && i > 0 && OnPage(Walk(views, limit, before), i, r)
    ensures views != [] && PageAt(views[0], limit, before).nextCursor.Some?
    ensures OnPage(Walk(views[1..], limit, PageAt(views[0], limit, before).nextCursor), i - 1, r)
  {
  }

  lemma {:induction false} LaterPagesOlder(views: seq<seq<Row>>, limit: nat, before: Option<int>, i: nat, r: Row)
    requires limit >= 1 && AllSorted(views)
    requires OnPage(Walk(views, limit, before), i, r)
    ensures OlderThan(r, before)
  {
    if i == 0 {
      PageOlder(views[0], limit, before, r);
    } else {
      OnLaterPage(views, limit, before, i, r);
      var page := PageAt(views[0], limit, before);
      LaterPagesOlder(views[1..], limit, page.nextCursor, i - 1, r);
      assert page.data[0] in page.data;
      PageOlder(views[0], limit, before, page.data[0]);
    }
  }

  // A row of the first page is at least as young as its cursor, every later row is older than that.
  lemma FirstPageYounger(views: seq<seq<Row>>, limit: nat, before: Option<int>, j: nat, a: Row, b: Row)
    requires limit >= 1 && AllSorted(views) && j > 0
    requires OnPage(Walk(views, limit, before), 0, a) && OnPage(Walk(views, limit, before), j, b)
    ensures b.createdAt < a.createdAt
  {
    OnLaterPage(views, limit, before, j, b);
    LaterPagesOlder(views[1..], limit, PageAt(views[0], limit, before).nextCursor, j - 1, b);
    PageOlder(views[0], limit, before, a);
  }

  // Whatever order ties come back in, and even while messages arrive, every page is strictly
  // older than the pages before it, so no message is ever returned on two pages.
  lemma {:induction false} NeverRepeats(views: seq<seq<Row>>, limit: nat, before: Option<int>, i: nat, j: nat,
                                        a: Row, b: Row)
    requires limit >= 1 && AllSorted(views)
    requires i < j && OnPage(Walk(views, limit, before), i, a) && OnPage(Walk(views, limit, before), j, b)
    ensures b.createdAt < a.createdAt
  {
    if i == 0 {
      FirstPageYounger(views, limit, before, j, a, b);
    } else {
      OnLaterPage(views, limit, before, i, a);
      OnLaterPage(views, limit, before, j, b);
      NeverRepeats(views[1..], limit, PageAt(views[0], limit, before).nextCursor, i - 1, j - 1, a, b);
    }
  }

  // ── Walking an unchanged history ─────────────────────────────────────────

  /** The pages put back together, oldest first. */
  function Joined(pages: seq<seq<Row>>): seq<Row> {
    if pages == [] then [] else Joined(pages[1..]) + pages[0]
  }

  // Every call sees the rows of v, ties in an order of its own.
  ghost predicate OrdersOf(views: seq<seq<Row>>, v: seq<Row>) {
    forall w :: w in views ==> Sorted(w) && multiset(w) == multiset(v)
  }

  // No two rows with the same time fall on different sides of a page boundary, counted in
  // pages of `limit` from the newest of the first c rows.
  ghost predicate NoTieSplit(v: seq<Row>, limit: nat, c: nat)
    requires limit >= 1 && c <= |v|
    decreases c
  {
    c <= limit || (v[c - limit - 1].createdAt < v[c - limit].createdAt && NoTieSplit(v, limit, c - limit))
  }

  lemma {:induction false} OlderCount(v: seq<Row>, before: Option<int>, r: Row)
    ensures multiset(Older(v, before))[r] == if OlderThan(r, before) then multiset(v)[r] else 0
  {
    if v != [] {
      OlderCount(v[..|v| - 1], before, r);
      assert v == v[..|v| - 1] + [v[|v| - 1]];
    }
  }

  // What is older than a cursor does not depend on the order of ties.
  lemma SameOlder(v: seq<Row>, w: seq<Row>, before: Option<int>)
    requires multiset(v) == multiset(w)
    ensures multiset(Older(v, before)) == multiset(Older(w, before)) && Cut(v, before) == Cut(w, before)
  {
    forall r ensures multiset(Older(v, before))[r] == multiset(Older(w, before))[r] {
      OlderCount(v, before, r);
      OlderCount(w, before, r);
    }
    assert multiset(Older(v, before)) == multiset(Older(w, before));
    assert |multiset(Older(v, before))| == |multiset(Older(w, before))|;
  }

  lemma NotLater(v: seq<Row>, w: seq<Row>, i: nat)
    requires Sorted(v) && Sorted(w) && multiset(v) == multiset(w) && i < |v| == |w|
    ensures w[i].createdAt <= v[i].createdAt
  {
    var before := Some(w[i].createdAt);
    SameOlder(v, w, before);
    OlderIsPrefix(v, before);
    OlderIsPrefix(w, before);
    assert !OlderThan(w[i], before);
  }

  // Nor do the times at each place.
  lemma SameTimes(v: seq<Row>, w: seq<Row>, i: nat)
    requires Sorted(v) && Sorted(w) && multiset(v) == multiset(w) && i < |v|
    ensures |v| == |w| && v[i].createdAt == w[i].createdAt
  {
    assert |multiset(v)| == |multiset(w)|;
    NotLater(v, w, i);
    NotLater(w, v, i);
  }

  lemma WalkStep(views: seq<seq<Row>>, limit: nat, before: Option<int>)
    requires limit >= 1 && views != [] && PageAt(views[0], limit, before).nextCursor.Some?
    ensures var page := PageAt(views[0], limit, before); var rest := Walk(views[1..], limit, page.nextCursor);
            Joined(Walk(views, limit, before)) == Joined(rest) + page.data && |Walk(views, limit, before)| == |rest| + 1
  {
    assert Walk(views, limit, before)[1..] == Walk(views[1..], limit, PageAt(views[0], limit, before).nextCursor);
  }

  lemma WalkEnds(views: seq<seq<Row>>, limit: nat, before: Option<int>)
    requires limit >= 1 && views != [] && PageAt(views[0], limit, before).nextCursor.None?
    ensures Cut(views[0], before) < limit
    ensures Joined(Walk(views, limit, before)) == Older(views[0], before) && |Walk(views, limit, before)| == 1
  {
    assert Walk(views, limit, before)[1..] == [];
  }

  // The next cursor of one call, in terms of the one order v: at least a page back, and exactly a
  // page back when no tie straddles the boundary.
  lemma NextCut(v: seq<Row>, w: seq<Row>, limit: nat, before: Option<int>)
    requires limit >= 1 && Sorted(v) && Sorted(w) && multiset(w) == multiset(v)
    requires PageAt(w, limit, before).nextCursor.Some?
    ensures limit <= Cut(v, before) <= |v|
    ensures Cut(v, PageAt(w, limit, before).nextCursor) <= Cut(v, before) - limit
    ensures Cut(v, PageAt(w, limit, before).nextCursor) == Cut(v, before) - limit <==>
              (Cut(v, before) == limit ||
               v[Cut(v, before) - limit - 1].createdAt < v[Cut(v, before) - limit].createdAt)
  {
    NextCursorEarlier(w, limit, before);
    SameOlder(v, w, before);
    SameOlder(v, w, PageAt(w, limit, before).nextCursor);
    var first := Cut(w, before) - limit;
    SameTimes(w, v, first);
    if first > 0 { SameTimes(w, v, first - 1); }
  }

  lemma FirstOrder(v: seq<Row>, views: seq<seq<Row>>, before: Option<int>)
    requires OrdersOf(views, v) && views != []
    ensures Sorted(views[0]) && multiset(views[0]) == multiset(v) && OrdersOf(views[1..], v)
    ensures multiset(Older(v, before)) == multiset(Older(views[0], before)) && Cut(v, before) == Cut(views[0], before)
  {
    assert views[0] in views;
    SameOlder(v, views[0], before);
  }

  // A walk returns at most the rows older than its cursor, and not all of them if a tie is split.
  ghost predicate Bounded(v: seq<Row>, limit: nat, before: Option<int>, returned: nat)
    requires limit >= 1 && Cut(v, before) <= |v|
  {
    returned <= Cut(v, before) && (!NoTieSplit(v, limit, Cut(v, before)) ==> returned < Cut(v, before))
  }

  lemma BoundedStep(v: seq<Row>, w: seq<Row>, limit: nat, before: Option<int>, returned: nat)
    requires limit >= 1 && Sorted(v) && Sorted(w) && multiset(w) == multiset(v)
    requires PageAt(w, limit, before).nextCursor.Some? && Cut(v, PageAt(w, limit, before).nextCursor) <= |v|
    requires Bounded(v, limit, PageAt(w, limit, before).nextCursor, returned)
    ensures Cut(v, before) <= |v| && Bounded(v, limit, before, returned + limit)
  {
    NextCut(v, w, limit, before);
  }

  lemma {:induction false} WalkLength(v: seq<Row>, views: seq<seq<Row>>, limit: nat, before: Option<int>)
    requires limit >= 1 && Sorted(v) && OrdersOf(views, v)
    ensures Cut(v, before) <= |v| && Bounded(v, limit, before, |Joined(Walk(views, limit, before))|)
    decreases |views|
  {
    OlderIsPrefix(v, before);
    if views != [] {
      var page := PageAt(views[0], limit, before);
      FirstOrder(v, views, before);
      if page.nextCursor.None? {
        WalkEnds(views, limit, before);
      } else {
        WalkStep(views, limit, before);
        WalkLength(v, views[1..], limit, page.nextCursor);
        BoundedStep(v, views[0], limit, before, |Joined(Walk(views[1..], limit, page.nextCursor))|);
      }
    }
  }

  // The number of calls a walk over c rows makes when every cursor moves exactly one page back.
  function Calls(c: nat, limit: nat): nat
    requires limit >= 1
    decreases c
  {
    if c < limit then 1 else Calls(c - limit, limit) + 1
  }

  // The rows older than a cursor are the page and the rows older than the page's own cursor.
  lemma PageAndOlder(w: seq<Row>, limit: nat, before: Option<int>)
    requires limit >= 1 && Sorted(w) && PageAt(w, limit, before).nextCursor.Some?
    requires Cut(w, PageAt(w, limit, before).nextCursor) == Cut(w, before) - limit
    ensures Older(w, before) == Older(w, PageAt(w, limit, before).nextCursor) + PageAt(w, limit, before).data
  {
    NextCursorEarlier(w, limit, before);
    OlderIsPrefix(w, before);
    OlderIsPrefix(w, PageAt(w, limit, before).nextCursor);
  }

  // Following the cursor from here returns every row older than it, in as many calls as there are pages.
  ghost predicate Whole(v: seq<Row>, views: seq<seq<Row>>, limit: nat, before: Option<int>)
    requires limit >= 1
  {
    && multiset(Joined(Walk(views, limit, before))) == multiset(Older(v, before))
    && |Walk(views, limit, before)| == Calls(Cut(v, before), limit)
  }

  lemma JoinOlder(rest: seq<Row>, page: seq<Row>, older: seq<Row>, later: seq<Row>)
    requires older == later + page && multiset(rest) == multiset(later)
    ensures multiset(rest + page) == multiset(older)
  {
  }

  lemma RowsStep(v: seq<Row>, views: seq<seq<Row>>, limit: nat, before: Option<int>)
    requires limit >= 1 && Sorted(v) && OrdersOf(views, v) && views != []
    requires PageAt(views[0], limit, before).nextCursor.Some?
    requires Cut(v, PageAt(views[0], limit, before).nextCursor) == Cut(v, before) - limit
    requires var next := PageAt(views[0], limit, before).nextCursor;
             multiset(Joined(Walk(views[1..], limit, next))) == multiset(Older(v, next))
    ensures multiset(Joined(Walk(views, limit, before))) == multiset(Older(v, before))
  {
    var w, page := views[0], PageAt(views[0], limit, before);
    FirstOrder(v, views, before);
    FirstOrder(v, views, page.nextCursor);
    PageAndOlder(w, limit, before);
    WalkStep(views, limit, before);
    JoinOlder(Joined(Walk(views[1..], limit, page.nextCursor)), page.data, Older(w, before), Older(w, page.nextCursor));
  }

  lemma WholeStep(v: seq<Row>, views: seq<seq<Row>>, limit: nat, before: Option<int>)
    requires limit >= 1 && Sorted(v) && OrdersOf(views, v) && views != []
    requires PageAt(views[0], limit, before).nextCursor.Some?
    requires Cut(v, PageAt(views[0], limit, before).nextCursor) == Cut(v, before) - limit
    requires Whole(v, views[1..], limit, PageAt(views[0], limit, before).nextCursor)
    ensures Whole(v, views, limit, before)
  {
    RowsStep(v, views, limit, before);
    WalkStep(views, limit, before);
  }

  lemma WholeEnds(v: seq<Row>, views: seq<seq<Row>>, limit: nat, before: Option<int>)
    requires limit >= 1 && OrdersOf(views, v) && views != [] && PageAt(views[0], limit, before).nextCursor.None?
    ensures Whole(v, views, limit, before)
  {
    FirstOrder(v, views, before);
    WalkEnds(views, limit, before);
  }

  lemma {:induction false} WalkWhole(v: seq<Row>, views: seq<seq<Row>>, limit: nat, before: Option<int>)
    requires limit >= 1 && Sorted(v) && OrdersOf(views, v)
    requires Cut(v, before) <= |v| && NoTieSplit(v, limit, Cut(v, before)) && |views| >= Calls(Cut(v, before), limit)
    ensures Whole(v, views, limit, before)
    decreases |views|
  {
    FirstOrder(v, views, before);
    var next := PageAt(views[0], limit, before).nextCursor;
    if next.None? {
      WholeEnds(v, views, limit, before);
    } else {
      NextCut(v, views[0], limit, before);
      WalkWhole(v, views[1..], limit, next);
      WholeStep(v, views, limit, before);
    }
  }

  // In order, and older than the cursor.
  ghost predicate Before(rows: seq<Row>, before: Option<int>) {
    Sorted(rows) && forall r :: r in rows ==> OlderThan(r, before)
  }

  lemma PageIsBefore(v: seq<Row>, limit: nat, before: Option<int>)
    requires limit >= 1 && Sorted(v)
    ensures Before(PageAt(v, limit, before).data, before)
  {
    OlderIsPrefix(v, before);
    forall r | r in PageAt(v, limit, before).data ensures OlderThan(r, before) { PageOlder(v, limit, before, r); }
  }

  lemma PageFollows(v: seq<Row>, limit: nat, before: Option<int>, rest: seq<Row>)
    requires limit >= 1 && Sorted(v) && PageAt(v, limit, before).nextCursor.Some?
    requires Before(rest, PageAt(v, limit, before).nextCursor)
    ensures Before(rest + PageAt(v, limit, before).data, before)
  {
    var page := PageAt(v, limit, before).data;
    PageIsBefore(v, limit, before);
    assert page[0] in page;
    forall r | r in page ensures page[0].createdAt <= r.createdAt { PageOlder(v, limit, before, r); }
    forall i, j | 0 <= i < j < |rest + page| ensures (rest + page)[i].createdAt <= (rest + page)[j].createdAt {
      assert i < |rest| ==> (rest + page)[i] in rest;
      assert j >= |rest| ==> (rest + page)[j] in page;
    }
  }

  // The pages put together are in order, every row older than the cursor.
  lemma {:induction false} JoinedIsBefore(views: seq<seq<Row>>, limit: nat, before: Option<int>)
    requires limit >= 1 && AllSorted(views)
    ensures Before(Joined(Walk(views, limit, before)), before)
  {
    if views != [] {
      var next := PageAt(views[0], limit, before).nextCursor;
      assert Sorted(views[0]);
      if next.None? {
        assert Walk(views, limit, before)[1..] == [];
        PageIsBefore(views[0], limit, before);
      } else {
        JoinedIsBefore(views[1..], limit, next);
        WalkStep(views, limit, before);
        PageFollows(views[0], limit, before, Joined(Walk(views[1..], limit, next)));
      }
    }
  }

  lemma {:induction false} Multiples(a: nat, b: nat, n: nat)
    ensures a < b ==> a * n + n <= b * n
    decreases b
  {
    if a < b {
      Multiples(a, b - 1, n);
      assert b * n == (b - 1) * n + n;
    }
  }

  lemma Quotient(c: nat, limit: nat, q: nat, r: nat)
    requires r < limit && c == q * limit + r
    ensures c / limit == q
  {
    var k := c / limit;
    Multiples(k, q, limit);
    Multiples(q, k, limit);
  }

  lemma QuotientStep(c: nat, limit: nat)
    requires 1 <= limit <= c
    ensures (c - limit) / limit + 1 == c / limit
  {
    var q := (c - limit) / limit;
    assert c - limit == q * limit + (c - limit) % limit;
    assert (q + 1) * limit == q * limit + limit;
    Quotient(c, limit, q + 1, (c - limit) % limit);
  }

  lemma {:induction false} CallsIsQuotient(c: nat, limit: nat)
    requires limit >= 1
    ensures Calls(c, limit) == c / limit + 1
    decreases c
  {
    if c >= limit {
      CallsIsQuotient(c - limit, limit);
      QuotientStep(c, limit);
    }
  }

  // Whatever order each call gets ties in, following nextCursor returns every row of the history
  // once, oldest first, exactly when no tie straddles a page boundary; it then takes n / limit + 1 calls.
  lemma WalkReturnsHistory(v: seq<Row>, views: seq<seq<Row>>, limit: nat)
    requires limit >= 1 && Sorted(v) && OrdersOf(views, v) && |views| > |v| / limit
    ensures multiset(Joined(Walk(views, limit, None))) == multiset(v) <==> NoTieSplit(v, limit, |v|)
    ensures NoTieSplit(v, limit, |v|) ==> |Walk(views, limit, None)| == |v| / limit + 1
    ensures Sorted(Joined(Walk(views, limit, None)))
  {
    var joined := Joined(Walk(views, limit, None));
    OlderAll(v, None);
    CallsIsQuotient(|v|, limit);
    JoinedIsBefore(views, limit, None);
    WalkLength(v, views, limit, None);
    if NoTieSplit(v, limit, |v|) {
      WalkWhole(v, views, limit, None);
    } else {
      assert |multiset(joined)| < |multiset(v)|;
    }
  }

  lemma {:induction false} DistinctTimesNeverSplit(v: seq<Row>, limit: nat, c: nat)
    requires limit >= 1 && c <= |v|
    requires forall i, j :: 0 <= i < j < |v| ==> v[i].createdAt < v[j].createdAt
    ensures NoTieSplit(v, limit, c)
    decreases c
  {
    if c > limit { DistinctTimesNeverSplit(v, limit, c - limit); }
  }

  // Rows of different times have one order only.
  lemma OneOrder(v: seq<Row>, w: seq<Row>)
    requires forall i, j :: 0 <= i < j < |v| ==> v[i].createdAt < v[j].createdAt
    requires Sorted(w) && multiset(w) == multiset(v)
    ensures w == v
  {
    assert |multiset(w)| == |multiset(v)|;
    forall i | 0 <= i < |v| ensures w[i] == v[i] {
      SameTimes(v, w, i);
      assert w[i] in multiset(v);
      var j :| 0 <= j < |v| && v[j] == w[i];
    }
  }

  lemma DistinctTimesWalk(v: seq<Row>, views: seq<seq<Row>>, limit: nat)
    requires limit >= 1 && forall i, j :: 0 <= i < j < |v| ==> v[i].createdAt < v[j].createdAt
    requires OrdersOf(views, v) && |views| > |v| / limit
    ensures Joined(Walk(views, limit, None)) == v && |Walk(views, limit, None)| == |v| / limit + 1
  {
    DistinctTimesNeverSplit(v, limit, |v|);
    WalkReturnsHistory(v, views, limit);
    OneOrder(v, Joined(Walk(views, limit, None)));
  }

  // Two messages of one millisecond on a page boundary: one of them is never returned, whatever
  // order the calls get them in.
  lemma TieLosesMessage(views: seq<seq<Row>>)
    requires OrdersOf(views, [Row(1, 5), Row(2, 5)]) && |views| > 2
    ensures !NoTieSplit([Row(1, 5), Row(2, 5)], 1, 2) && |Joined(Walk(views, 1, None))| < 2
  {
    OlderAll([Row(1, 5), Row(2, 5)], None);
    WalkLength([Row(1, 5), Row(2, 5)], views, 1, None);
  }
}
