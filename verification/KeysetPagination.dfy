/**
 * The expense feed (newest by creation, or by expense date) and the comment lists (oldest or newest first): pages
 * cut from a filtered, sorted table with a one-row look-ahead, and the opaque cursors that link them.
 */
module KeysetPagination {
  import opened Sequences
  import Sorting

  /** The columns the lists read; `date` counts days, `createdAt` milliseconds. */
  datatype Row = Row(id: nat, createdAt: int, date: int, parent: Option<nat>, group: nat, owner: nat, deleted: bool)

  datatype SortKey = FeedByCreation | FeedByDate | CommentsAsc | CommentsDesc

  predicate IsFeed(sort: SortKey) {
    sort.FeedByCreation? || sort.FeedByDate?
  }

  /** A list request: its order, the parent scope of a comment list, the row filter, and the requested page size. */
  datatype Query = Query(sort: SortKey, scope: Option<nat>, where: Row -> bool, requested: Option<int>)

  const DEFAULT_LIMIT := 20
  const MAX_LIMIT := 100

  function Limit(q: Query): (l: nat)
    ensures 1 <= l <= MAX_LIMIT
  {
    Min(Max(if q.requested.Some? then q.requested.value else DEFAULT_LIMIT, 1), MAX_LIMIT)
  }

  // ---------- Order

  datatype Position = Position(key: int, id: nat)

  function PositionOf(sort: SortKey, r: Row): Position {
    Position(if sort.FeedByDate? then r.date else r.createdAt, r.id)
  }

  /** Strict list order on (key, id): ascending for `CommentsAsc`, descending otherwise. */
  predicate Before(sort: SortKey, a: Position, b: Position) {
    if sort.CommentsAsc? then a.key < b.key || (a.key == b.key && a.id < b.id)
    else b.key < a.key || (a.key == b.key && b.id < a.id)
  }

  function RowOrder(sort: SortKey): (Row, Row) -> bool {
    (a: Row, b: Row) => !Before(sort, PositionOf(sort, b), PositionOf(sort, a))
  }

  ghost predicate StrictlyOrdered(sort: SortKey, rows: seq<Row>) {
    forall i, j :: 0 <= i < j < |rows| ==> Before(sort, PositionOf(sort, rows[i]), PositionOf(sort, rows[j]))
  }

  ghost predicate UniqueIds(table: seq<Row>) {
    forall i, j :: 0 <= i < j < |table| ==> table[i].id != table[j].id
  }

  // ---------- Cursors

  datatype FeedTag = NoFeedTag | TagCreatedAt | TagExpenseDate | OtherFeedTag
  datatype SortTag = NoSortTag | TagAsc | TagDesc | OtherSortTag
  datatype ScopeTag = NullScope | Scope(parent: nat) | NotAString

  /** Fields of a decoded cursor payload; `None` is a field that is missing or not of the expected form. */
  datatype Token = Token(v: int, feed: FeedTag, c: Option<int>, d: Option<int>, i: Option<nat>, p: ScopeTag, s: SortTag)

  datatype CursorError = InvalidCursor | SortMismatch | ScopeMismatch

  function ScopeTagOf(scope: Option<nat>): ScopeTag {
    if scope.Some? then Scope(scope.value) else NullScope
  }

  function Encode(q: Query, at: Position): Token {
    match q.sort
    case FeedByDate => Token(1, TagExpenseDate, None, Some(at.key), Some(at.id), NullScope, NoSortTag)
    case FeedByCreation => Token(1, TagCreatedAt, Some(at.key), None, Some(at.id), NullScope, NoSortTag)
    case CommentsAsc => Token(1, NoFeedTag, Some(at.key), None, Some(at.id), ScopeTagOf(q.scope), TagAsc)
    case CommentsDesc => Token(1, NoFeedTag, Some(at.key), None, Some(at.id), ScopeTagOf(q.scope), TagDesc)
  }

  function DecodeFeed(t: Token, sort: SortKey): Result<Position, CursorError> {
    if t.v != 1 || t.i.None? then Err(InvalidCursor)
    else if t.feed.TagExpenseDate? then
      if !sort.FeedByDate? then Err(SortMismatch)
      else if t.d.None? then Err(InvalidCursor)
      else Ok(Position(t.d.value, t.i.value))
    else if t.feed.TagCreatedAt? then
      if !sort.FeedByCreation? then Err(SortMismatch)
      else if t.c.None? then Err(InvalidCursor)
      else Ok(Position(t.c.value, t.i.value))
    else Err(InvalidCursor)
  }

  /** A cursor without a direction is an old one, and means ascending. */
  function DecodeComment(t: Token, scope: Option<nat>, sort: SortKey): Result<Position, CursorError> {
    if t.v != 1 || t.i.None? || t.c.None? || t.p.NotAString? then Err(InvalidCursor)
    else if t.p != ScopeTagOf(scope) then Err(ScopeMismatch)
    else if t.s.OtherSortTag? then Err(InvalidCursor)
    else if (if t.s.TagDesc? then CommentsDesc else CommentsAsc) != sort then Err(SortMismatch)
    else Ok(Position(t.c.value, t.i.value))
  }

  function Decode(q: Query, t: Token): Result<Position, CursorError> {
    if IsFeed(q.sort) then DecodeFeed(t, q.sort) else DecodeComment(t, q.scope, q.sort)
  }

  /**
   * A cursor comes back as the position it was made from, and only for a request of its own order and, for
   * comments, its own scope. (A feed cursor by creation carries the fields of a top-level ascending comment cursor.)
   */
  lemma CursorRoundTrip(q: Query, other: Query, at: Position)
    ensures Decode(q, Encode(q, at)) == Ok(at)
    ensures Decode(other, Encode(q, at)).Ok? <==>
      || (q.sort == other.sort && (IsFeed(q.sort) || q.scope == other.scope))
      || (q.sort == FeedByCreation && other.sort == CommentsAsc && other.scope == None)
    ensures Decode(other, Encode(q, at)).Ok? ==> Decode(other, Encode(q, at)) == Ok(at)
  {
  }

  // ---------- Pages

  function Filter(p: Row -> bool, table: seq<Row>): seq<Row> {
    if table == [] then []
    else if p(table[0]) then [table[0]] + Filter(p, table[1..])
    else Filter(p, table[1..])
  }

  /** The filter of a request, with the cursor predicate when there is a cursor. */
  predicate Matches(q: Query, from: Option<Position>, r: Row) {
    q.where(r) && (from.Some? ==> Before(q.sort, from.value, PositionOf(q.sort, r)))
  }

  function Matching(q: Query, from: Option<Position>): Row -> bool {
    (r: Row) => Matches(q, from, r)
  }

  /** Everything a request would list from a position on, in order. */
  function Listing(q: Query, table: seq<Row>, from: Option<Position>): seq<Row> {
    Sorting.Sort(RowOrder(q.sort), Filter(Matching(q, from), table))
  }

  function FindMany(q: Query, table: seq<Row>, from: Option<Position>, take: nat): seq<Row> {
    var all := Listing(q, table, from);
    if |all| <= take then all else all[..take]
  }

  datatype Page = Page(items: seq<Row>, next: Option<Token>)

  function PageFrom(q: Query, table: seq<Row>, from: Option<Position>): Page {
    var limit := Limit(q);
    var rows := FindMany(q, table, from, limit + 1);
    var items := if |rows| <= limit then rows else rows[..limit];
    var hasMore := |rows| > limit;
    Page(items, if hasMore && items != [] then Some(Encode(q, PositionOf(q.sort, items[|items| - 1]))) else None)
  }

  function ListPage(q: Query, table: seq<Row>, cursor: Option<Token>): Result<Page, CursorError> {
    if cursor.None? then Ok(PageFrom(q, table, None))
    else
      match Decode(q, cursor.value)
      case Err(e) => Err(e)
      case Ok(at) => Ok(PageFrom(q, table, Some(at)))
  }

  // ---------- What one page holds

  lemma {:induction false} FilterFacts(p: Row -> bool, table: seq<Row>)
    requires UniqueIds(table)
    ensures UniqueIds(Filter(p, table))
    ensures forall r :: r in Filter(p, table) <==> r in table && p(r)
  {
    if table != [] {
      var rest := Filter(p, table[1..]);
      FilterFacts(p, table[1..]);
      forall i | 0 <= i < |rest| ensures rest[i].id != table[0].id {
        assert rest[i] in table[1..];
      }
      assert table == [table[0]] + table[1..];
    }
  }

  lemma RowOrderIsTotal(sort: SortKey)
    ensures Sorting.TotalPreorder(RowOrder(sort))
  {
  }

  /** A listing holds exactly the matching rows, in strict list order. */
  lemma ListingFacts(q: Query, table: seq<Row>, from: Option<Position>)
    requires UniqueIds(table)
    ensures StrictlyOrdered(q.sort, Listing(q, table, from))
    ensures forall r :: r in Listing(q, table, from) <==> r in table && Matches(q, from, r)
  {
    var rows := Filter(Matching(q, from), table);
    var all := Listing(q, table, from);
    FilterFacts(Matching(q, from), table);
    RowOrderIsTotal(q.sort);
    Sorting.SortSorts(RowOrder(q.sort), rows);
    Sorting.SortIsPermutation(RowOrder(q.sort), rows);
    IdsSurviveSorting(rows, all);
    forall i, j | 0 <= i < j < |all|
      ensures Before(q.sort, PositionOf(q.sort, all[i]), PositionOf(q.sort, all[j]))
    {
      assert RowOrder(q.sort)(all[i], all[j]) && all[i].id != all[j].id;
    }
  }

  lemma IdsSurviveSorting(rows: seq<Row>, sorted: seq<Row>)
    requires UniqueIds(rows) && multiset(rows) == multiset(sorted)
    ensures UniqueIds(sorted)
  {
    forall i, j | 0 <= i < j < |sorted| ensures sorted[i].id != sorted[j].id {
      var a, b := sorted[i], sorted[j];
      assert sorted == sorted[..i] + [a] + sorted[i + 1..j] + [b] + sorted[j + 1..];
      OccursOnce(rows, a);
      assert a != b && a in multiset(rows) && b in multiset(rows);
    }
  }

  lemma {:induction false} OccursOnce(rows: seq<Row>, r: Row)
    requires UniqueIds(rows)
    ensures multiset(rows)[r] <= 1
  {
    if rows != [] {
      assert rows == [rows[0]] + rows[1..];
      OccursOnce(rows[1..], r);
    }
  }

  /** Two strictly ordered lists with the same rows are equal. */
  lemma {:induction false} OrderedListsAreEqual(sort: SortKey, a: seq<Row>, b: seq<Row>)
    requires StrictlyOrdered(sort, a) && StrictlyOrdered(sort, b)
    requires forall r :: r in a <==> r in b
    ensures a == b
  {
    assert |a| > 0 ==> a[0] in b;
    assert |b| > 0 ==> b[0] in a;
    if a != [] {
      assert a[0] == b[0];
      forall r ensures r in a[1..] <==> r in b[1..] {
        assert r in a[1..] ==> r in b;
        assert r in b[1..] ==> r in a;
      }
      OrderedListsAreEqual(sort, a[1..], b[1..]);
    }
  }

  /** `r` lies no later than `to` in list order. */
  predicate UpTo(sort: SortKey, r: Row, to: Position) {
    !Before(sort, to, PositionOf(sort, r))
  }

  /** Where the next page starts. */
  function NextFrom(q: Query, page: Page): Option<Position> {
    if page.next.None? then None
    else match Decode(q, page.next.value)
         case Ok(at) => Some(at)
         case Err(_) => None
  }

  /** A page is the whole listing, or its first `limit` rows with the last one's position as the cursor. */
  lemma PageShape(q: Query, table: seq<Row>, from: Option<Position>)
    ensures var page, all, limit := PageFrom(q, table, from), Listing(q, table, from), Limit(q);
      && (|all| <= limit ==> page == Page(all, None))
      && (|all| > limit ==> page.items == all[..limit] && page.next.Some?
                            && NextFrom(q, page) == Some(PositionOf(q.sort, all[limit - 1])))
  {
    var all, limit := Listing(q, table, from), Limit(q);
    if |all| > limit {
      assert all[..limit + 1][..limit] == all[..limit];
      CursorRoundTrip(q, q, PositionOf(q.sort, all[limit - 1]));
    }
  }

  /** One page lists matching rows only, in strict order. */
  lemma PageIsOrdered(q: Query, table: seq<Row>, from: Option<Position>)
    requires UniqueIds(table)
    ensures StrictlyOrdered(q.sort, PageFrom(q, table, from).items)
    ensures forall r :: r in PageFrom(q, table, from).items ==> r in table && Matches(q, from, r)
  {
    ListingFacts(q, table, from);
    PageShape(q, table, from);
  }

  /** The next page starts further on. */
  lemma NextAdvances(q: Query, table: seq<Row>, from: Option<Position>)
    requires UniqueIds(table) && PageFrom(q, table, from).next.Some?
    ensures NextFrom(q, PageFrom(q, table, from)).Some?
    ensures from.Some? ==> Before(q.sort, from.value, NextFrom(q, PageFrom(q, table, from)).value)
  {
    var all := Listing(q, table, from);
    ListingFacts(q, table, from);
    PageShape(q, table, from);
    assert all[Limit(q) - 1] in all;
  }

  /** A matching row is on the page exactly when the page is the last one or the row is not past its cursor. */
  lemma PageIsComplete(q: Query, table: seq<Row>, from: Option<Position>, r: Row)
    requires UniqueIds(table) && r in table && Matches(q, from, r)
    ensures var page := PageFrom(q, table, from);
      && (page.next.Some? ==> NextFrom(q, page).Some?)
      && (r in page.items <==> (page.next.None? || UpTo(q.sort, r, NextFrom(q, page).value)))
  {
    var all, limit := Listing(q, table, from), Limit(q);
    ListingFacts(q, table, from);
    PageShape(q, table, from);
    var i :| 0 <= i < |all| && all[i] == r;
    if |all| > limit {
      assert i < limit ==> all[..limit][i] == r;
      assert forall j :: 0 <= j < limit <= i ==> Before(q.sort, PositionOf(q.sort, all[j]), PositionOf(q.sort, all[i]));
    }
  }

  // ---------- Walking the cursors of a changing table

  /** Starting position of each page of a walk. */
  function StartOf(q: Query, pages: seq<Page>, k: nat): Option<Position>
    requires k <= |pages|
  {
    if k == 0 then None else NextFrom(q, pages[k - 1])
  }

  /** Page k is requested from the table as it is then, with the previous page's cursor, until there is none. */
  ghost predicate IsWalk(q: Query, tables: seq<seq<Row>>, pages: seq<Page>) {
    && |tables| == |pages| > 0
    && ListPage(q, tables[0], None) == Ok(pages[0])
    && (forall k :: 0 <= k < |pages| ==> (pages[k].next.None? <==> k == |pages| - 1))
    && (forall k :: 0 < k < |pages| ==> ListPage(q, tables[k], pages[k - 1].next) == Ok(pages[k]))
  }

  ghost predicate AllUnique(tables: seq<seq<Row>>) {
    forall k :: 0 <= k < |tables| ==> UniqueIds(tables[k])
  }

  /** In a walk every page is the page from its starting position: no cursor handed out is ever refused. */
  lemma WalkPage(q: Query, tables: seq<seq<Row>>, pages: seq<Page>, k: nat)
    requires IsWalk(q, tables, pages) && AllUnique(tables) && k < |pages|
    ensures pages[k] == PageFrom(q, tables[k], StartOf(q, pages, k))
    ensures k > 0 ==> StartOf(q, pages, k).Some?
  {
    if k > 0 {
      assert pages[k - 1].next.Some?;
      assert ListPage(q, tables[k], pages[k - 1].next) == Ok(pages[k]);
    }
  }

  lemma BeforeIsTransitive(sort: SortKey, a: Position, b: Position, c: Position)
    requires Before(sort, a, b) && Before(sort, b, c)
    ensures Before(sort, a, c)
  {
  }

  /** Starting positions only move forward. */
  lemma {:induction false} StartsAdvance(q: Query, tables: seq<seq<Row>>, pages: seq<Page>, i: nat, j: nat)
    requires IsWalk(q, tables, pages) && AllUnique(tables) && 0 < i <= j < |pages|
    ensures StartOf(q, pages, i).Some? && StartOf(q, pages, j).Some?
    ensures i == j || Before(q.sort, StartOf(q, pages, i).value, StartOf(q, pages, j).value)
    decreases j - i
  {
    if i == j {
      NextStart(q, tables, pages, i - 1);
    } else {
      StartsAdvance(q, tables, pages, i, j - 1);
      NextStart(q, tables, pages, j - 1);
      AdvanceOneMore(q.sort, StartOf(q, pages, i).value, StartOf(q, pages, j - 1).value, StartOf(q, pages, j).value);
    }
  }

  lemma AdvanceOneMore(sort: SortKey, a: Position, b: Position, c: Position)
    requires a == b || Before(sort, a, b)
    requires Before(sort, b, c)
    ensures Before(sort, a, c)
  {
    if a != b {
      BeforeIsTransitive(sort, a, b, c);
    }
  }

  lemma NextStart(q: Query, tables: seq<seq<Row>>, pages: seq<Page>, k: nat)
    requires IsWalk(q, tables, pages) && AllUnique(tables) && k + 1 < |pages|
    ensures StartOf(q, pages, k + 1).Some?
    ensures k > 0 ==> StartOf(q, pages, k).Some?
    ensures k > 0 ==> Before(q.sort, StartOf(q, pages, k).value, StartOf(q, pages, k + 1).value)
  {
    WalkPage(q, tables, pages, k);
    assert pages[k].next.Some?;
    NextAdvances(q, tables[k], StartOf(q, pages, k));
  }

  /** A listed row lies between the starts of its page and of the next. */
  lemma RowBetweenStarts(q: Query, tables: seq<seq<Row>>, pages: seq<Page>, k: nat, r: Row)
    requires IsWalk(q, tables, pages) && AllUnique(tables) && k < |pages| && r in pages[k].items
    ensures k > 0 ==> StartOf(q, pages, k).Some? && Before(q.sort, StartOf(q, pages, k).value, PositionOf(q.sort, r))
    ensures k + 1 < |pages| ==> StartOf(q, pages, k + 1).Some? && UpTo(q.sort, r, StartOf(q, pages, k + 1).value)
  {
    WalkPage(q, tables, pages, k);
    PageIsOrdered(q, tables[k], StartOf(q, pages, k));
    if k + 1 < |pages| {
      assert pages[k].next.Some?;
      PageIsComplete(q, tables[k], StartOf(q, pages, k), r);
    }
  }

  /** Rows of a later page come strictly after rows of an earlier one, so no position is ever listed twice. */
  lemma PagesDoNotOverlap(q: Query, tables: seq<seq<Row>>, pages: seq<Page>, i: nat, j: nat, r: Row, t: Row)
    requires IsWalk(q, tables, pages) && AllUnique(tables) && i < j < |pages|
    requires r in pages[i].items && t in pages[j].items
    ensures Before(q.sort, PositionOf(q.sort, r), PositionOf(q.sort, t))
  {
    RowBetweenStarts(q, tables, pages, i, r);
    RowBetweenStarts(q, tables, pages, j, t);
    StartsAdvance(q, tables, pages, i + 1, j);
  }

  lemma {:induction false} FoundFrom(q: Query, tables: seq<seq<Row>>, pages: seq<Page>, r: Row, k: nat)
    returns (at: nat)
    requires IsWalk(q, tables, pages) && AllUnique(tables) && k < |pages|
    requires forall i :: 0 <= i < |tables| ==> r in tables[i]
    requires Matches(q, StartOf(q, pages, k), r)
    ensures at < |pages| && r in pages[at].items
    decreases |pages| - k
  {
    WalkPage(q, tables, pages, k);
    PageIsComplete(q, tables[k], StartOf(q, pages, k), r);
    if r in pages[k].items {
      at := k;
    } else {
      assert pages[k].next.Some?;
      at := FoundFrom(q, tables, pages, r, k + 1);
    }
  }

  ghost predicate OnlyOnPage(pages: seq<Page>, r: Row, at: nat) {
    && at < |pages|
    && multiset(pages[at].items)[r] == 1
    && forall k :: 0 <= k < |pages| && k != at ==> r !in pages[k].items
  }

  /**
   * Rows may be inserted and deleted between pages: a matching row that is in the table at every request is
   * returned on exactly one page, once.
   */
  lemma PersistentRowReturnedOnce(q: Query, tables: seq<seq<Row>>, pages: seq<Page>, r: Row) returns (at: nat)
    requires IsWalk(q, tables, pages) && AllUnique(tables)
    requires q.where(r) && forall i :: 0 <= i < |tables| ==> r in tables[i]
    ensures OnlyOnPage(pages, r, at)
  {
    at := FoundFrom(q, tables, pages, r, 0);
    forall k | 0 <= k < |pages| && k != at ensures r !in pages[k].items {
      if r in pages[k].items {
        PagesDoNotOverlap(q, tables, pages, Min(k, at), Max(k, at), r, r);
      }
    }
    WalkPage(q, tables, pages, at);
    PageIsOrdered(q, tables[at], StartOf(q, pages, at));
    OrderedOccursOnce(q.sort, pages[at].items, r);
    assert r in multiset(pages[at].items);
  }

  lemma {:induction false} OrderedOccursOnce(sort: SortKey, rows: seq<Row>, r: Row)
    requires StrictlyOrdered(sort, rows)
    ensures multiset(rows)[r] <= 1
  {
    if rows != [] {
      assert rows == [rows[0]] + rows[1..];
      OrderedOccursOnce(sort, rows[1..], r);
    }
  }

  // ---------- Walking a table that does not change

  function Concat(pages: seq<Page>): seq<Row> {
    if pages == [] then [] else pages[0].items + Concat(pages[1..])
  }

  /** What is left after a page is what the listing holds beyond it. */
  lemma ListingAfterPage(q: Query, table: seq<Row>, from: Option<Position>)
    requires UniqueIds(table)
    ensures var page, all := PageFrom(q, table, from), Listing(q, table, from);
      && (page.next.Some? <==> |all| > Limit(q))
      && (page.next.None? ==> page.items == all)
      && (page.next.Some? ==> page.items == all[..Limit(q)] && Listing(q, table, NextFrom(q, page)) == all[Limit(q)..])
  {
    var all, limit := Listing(q, table, from), Limit(q);
    PageShape(q, table, from);
    if |all| > limit {
      ListingBeyond(q, table, from, limit);
    }
  }

  /** Restarting the listing at the position of its k-th row leaves the rows after it. */
  lemma ListingBeyond(q: Query, table: seq<Row>, from: Option<Position>, k: nat)
    requires UniqueIds(table) && 0 < k < |Listing(q, table, from)|
    ensures Listing(q, table, Some(PositionOf(q.sort, Listing(q, table, from)[k - 1]))) == Listing(q, table, from)[k..]
  {
    var all := Listing(q, table, from);
    var last := PositionOf(q.sort, all[k - 1]);
    var rest := Listing(q, table, Some(last));
    ListingFacts(q, table, from);
    ListingFacts(q, table, Some(last));
    assert all[k - 1] in all;
    forall r ensures r in rest <==> r in all[k..] {
      BeyondIff(q.sort, all, k, r);
      assert r in rest <==> r in all && Before(q.sort, last, PositionOf(q.sort, r));
    }
    OrderedListsAreEqual(q.sort, rest, all[k..]);
  }

  lemma BeyondIff(sort: SortKey, all: seq<Row>, k: nat, r: Row)
    requires StrictlyOrdered(sort, all) && 0 < k <= |all|
    ensures r in all[k..] <==> r in all && Before(sort, PositionOf(sort, all[k - 1]), PositionOf(sort, r))
  {
    if r in all {
      var i :| 0 <= i < |all| && all[i] == r;
      assert i >= k ==> all[k..][i - k] == r;
    }
  }

  /** Follows `next` from a position until there is none. */
  function Follow(q: Query, table: seq<Row>, from: Option<Position>): (pages: seq<Page>)
    requires UniqueIds(table)
    ensures |pages| > 0
    decreases |Listing(q, table, from)|
  {
    var page := PageFrom(q, table, from);
    ListingAfterPage(q, table, from);
    if page.next.None? then [page] else [page] + Follow(q, table, NextFrom(q, page))
  }

  /** `pages` is max(1, ceil(n / limit)): n rows fit on them, and not on one fewer. */
  ghost predicate FewestPages(n: nat, limit: nat, pages: nat) {
    pages >= 1 && n <= pages * limit && (pages > 1 ==> (pages - 1) * limit < n)
  }

  lemma OneMorePage(n: nat, limit: nat, pages: nat)
    requires n > limit && FewestPages(n - limit, limit, pages)
    ensures FewestPages(n, limit, pages + 1)
  {
    assert (pages + 1) * limit == pages * limit + limit;
    assert pages * limit == (pages - 1) * limit + limit;
  }

  /** Following one page at a time: the first page, then the walk from where it ends. */
  lemma FollowUnfolds(q: Query, table: seq<Row>, from: Option<Position>)
    requires UniqueIds(table)
    ensures Follow(q, table, from)[0] == PageFrom(q, table, from)
    ensures PageFrom(q, table, from).next.None? ==>
      && Follow(q, table, from) == [PageFrom(q, table, from)]
      && Concat(Follow(q, table, from)) == PageFrom(q, table, from).items
    ensures PageFrom(q, table, from).next.Some? ==>
      var page, pages := PageFrom(q, table, from), Follow(q, table, from);
      && pages[1..] == Follow(q, table, NextFrom(q, page))
      && Concat(pages) == page.items + Concat(pages[1..])
      && ListPage(q, table, page.next) == Ok(pages[1])
    decreases |Listing(q, table, from)|
  {
    var page := PageFrom(q, table, from);
    ListingAfterPage(q, table, from);
    if page.next.None? {
      assert [page][1..] == [];
      assert page.items + [] == page.items;
    } else {
      var rest := Follow(q, table, NextFrom(q, page));
      assert ([page] + rest)[1..] == rest;
      NextAdvances(q, table, from);
      FollowUnfolds(q, table, NextFrom(q, page));
    }
  }

  lemma SplitAt(rows: seq<Row>, k: nat)
    requires k <= |rows|
    ensures rows[..k] + rows[k..] == rows
  {
  }

  /** Following the cursors from any position ends, and lists exactly what is left, in order. */
  lemma {:induction false} FollowListsTheRest(q: Query, table: seq<Row>, from: Option<Position>)
    requires UniqueIds(table)
    ensures Concat(Follow(q, table, from)) == Listing(q, table, from)
    decreases |Listing(q, table, from)|
  {
    var page, all, limit := PageFrom(q, table, from), Listing(q, table, from), Limit(q);
    ListingAfterPage(q, table, from);
    FollowUnfolds(q, table, from);
    if page.next.Some? {
      FollowListsTheRest(q, table, NextFrom(q, page));
      SplitAt(all, limit);
    }
  }

  /** It fills the fewest pages that hold what is left. */
  lemma {:induction false} FollowFillsFewestPages(q: Query, table: seq<Row>, from: Option<Position>)
    requires UniqueIds(table)
    ensures FewestPages(|Listing(q, table, from)|, Limit(q), |Follow(q, table, from)|)
    decreases |Listing(q, table, from)|
  {
    var page, all, limit := PageFrom(q, table, from), Listing(q, table, from), Limit(q);
    ListingAfterPage(q, table, from);
    FollowUnfolds(q, table, from);
    if page.next.Some? {
      FollowFillsFewestPages(q, table, NextFrom(q, page));
      OneMorePage(|all|, limit, |Follow(q, table, NextFrom(q, page))|);
    }
  }

  lemma {:induction false} FollowIsWalk(q: Query, table: seq<Row>, from: Option<Position>, k: nat)
    requires UniqueIds(table) && k < |Follow(q, table, from)|
    ensures var pages := Follow(q, table, from);
      && (pages[k].next.None? <==> k == |pages| - 1)
      && (k > 0 ==> ListPage(q, table, pages[k - 1].next) == Ok(pages[k]))
    decreases |Listing(q, table, from)|
  {
    var page, pages := PageFrom(q, table, from), Follow(q, table, from);
    ListingAfterPage(q, table, from);
    FollowUnfolds(q, table, from);
    if k > 0 {
      FollowIsWalk(q, table, NextFrom(q, page), k - 1);
      assert pages[k] == pages[1..][k - 1];
      if k > 1 { assert pages[k - 1] == pages[1..][k - 2]; }
    }
  }

  /**
   * On a fixed table, following `nextCursor` to the end is a walk that returns every matching row exactly once, in
   * order, in max(1, ceil(n / limit)) pages.
   */
  lemma WalkOfFixedTable(q: Query, table: seq<Row>)
    requires UniqueIds(table)
    ensures var pages := Follow(q, table, None);
      && IsWalk(q, seq(|pages|, _ => table), pages)
      && Concat(pages) == Listing(q, table, None)
      && FewestPages(|Filter(q.where, table)|, Limit(q), |pages|)
  {
    var pages := Follow(q, table, None);
    FollowListsTheRest(q, table, None);
    FollowFillsFewestPages(q, table, None);
    forall k | 0 <= k < |pages|
      ensures pages[k].next.None? <==> k == |pages| - 1
      ensures k > 0 ==> ListPage(q, table, pages[k - 1].next) == Ok(pages[k])
    {
      FollowIsWalk(q, table, None, k);
    }
    FollowUnfolds(q, table, None);
    SameFilter(q.where, Matching(q, None), table);
    Sorting.SortIsPermutation(RowOrder(q.sort), Filter(Matching(q, None), table));
  }

  lemma {:induction false} SameFilter(p: Row -> bool, p': Row -> bool, table: seq<Row>)
    requires forall r :: p(r) <==> p'(r)
    ensures Filter(p, table) == Filter(p', table)
  {
    if table != [] {
      SameFilter(p, p', table[1..]);
    }
  }

  // ---------- What the four orders are, column by column

  /** Newest first by creation; among rows of one moment, the larger id first. */
  ghost predicate NewestFirst(rows: seq<Row>) {
    forall i, j :: 0 <= i < j < |rows| ==>
      rows[i].createdAt > rows[j].createdAt || (rows[i].createdAt == rows[j].createdAt && rows[i].id > rows[j].id)
  }

  /** Latest expense date first; on one day, the larger id first. */
  ghost predicate LatestDateFirst(rows: seq<Row>) {
    forall i, j :: 0 <= i < j < |rows| ==>
      rows[i].date > rows[j].date || (rows[i].date == rows[j].date && rows[i].id > rows[j].id)
  }

  /** Oldest first by creation; among rows of one moment, the smaller id first. */
  ghost predicate OldestFirst(rows: seq<Row>) {
    forall i, j :: 0 <= i < j < |rows| ==>
      rows[i].createdAt < rows[j].createdAt || (rows[i].createdAt == rows[j].createdAt && rows[i].id < rows[j].id)
  }

  ghost predicate InItsOrder(sort: SortKey, rows: seq<Row>) {
    match sort
    case FeedByCreation => NewestFirst(rows)
    case FeedByDate => LatestDateFirst(rows)
    case CommentsAsc => OldestFirst(rows)
    case CommentsDesc => NewestFirst(rows)
  }

  lemma StrictOrderIsItsOrder(sort: SortKey, rows: seq<Row>)
    requires StrictlyOrdered(sort, rows)
    ensures InItsOrder(sort, rows)
  {
    forall i, j | 0 <= i < j < |rows| ensures Before(sort, PositionOf(sort, rows[i]), PositionOf(sort, rows[j])) { }
  }

  /** Every page that is returned is in its list's order. */
  lemma PagesAreInOrder(q: Query, table: seq<Row>, cursor: Option<Token>)
    requires UniqueIds(table) && ListPage(q, table, cursor).Ok?
    ensures InItsOrder(q.sort, ListPage(q, table, cursor).value.items)
  {
    var from := if cursor.None? then None else Some(Decode(q, cursor.value).value);
    PageIsOrdered(q, table, from);
    StrictOrderIsItsOrder(q.sort, PageFrom(q, table, from).items);
  }

  /** So is a whole walk over a table that changes between the pages. */
  lemma WalksAreInOrder(q: Query, tables: seq<seq<Row>>, pages: seq<Page>)
    requires IsWalk(q, tables, pages) && AllUnique(tables)
    ensures InItsOrder(q.sort, Concat(pages))
  {
    WalkIsStrictlyOrdered(q, tables, pages, |pages|);
    assert pages[..|pages|] == pages;
    StrictOrderIsItsOrder(q.sort, Concat(pages));
  }

  lemma {:induction false} ConcatOneMore(pages: seq<Page>, page: Page)
    ensures Concat(pages + [page]) == Concat(pages) + page.items
  {
    if pages == [] {
      assert Concat([page]) == page.items + Concat([]) == page.items;
      assert pages + [page] == [page];
    } else {
      assert (pages + [page])[1..] == pages[1..] + [page];
      ConcatOneMore(pages[1..], page);
    }
  }

  lemma {:induction false} ConcatMembers(pages: seq<Page>, r: Row)
    ensures r in Concat(pages) <==> exists k :: 0 <= k < |pages| && r in pages[k].items
  {
    if pages != [] {
      ConcatMembers(pages[1..], r);
      if k :| 0 <= k < |pages[1..]| && r in pages[1..][k].items {
        assert r in pages[k + 1].items;
      }
      if k :| 0 <= k < |pages| && r in pages[k].items {
        assert k > 0 ==> pages[k] == pages[1..][k - 1];
      }
    }
  }

  lemma {:induction false} WalkIsStrictlyOrdered(q: Query, tables: seq<seq<Row>>, pages: seq<Page>, n: nat)
    requires IsWalk(q, tables, pages) && AllUnique(tables) && n <= |pages|
    ensures StrictlyOrdered(q.sort, Concat(pages[..n]))
  {
    if n > 0 {
      var front, last := Concat(pages[..n - 1]), pages[n - 1].items;
      WalkIsStrictlyOrdered(q, tables, pages, n - 1);
      PageOfWalkIsOrdered(q, tables, pages, n - 1);
      assert pages[..n] == pages[..n - 1] + [pages[n - 1]];
      ConcatOneMore(pages[..n - 1], pages[n - 1]);
      forall r, t | r in front && t in last ensures Before(q.sort, PositionOf(q.sort, r), PositionOf(q.sort, t)) {
        PageFollowsEarlierOnes(q, tables, pages, n - 1, r, t);
      }
      JoinOrdered(q.sort, front, last);
    }
  }

  lemma PageOfWalkIsOrdered(q: Query, tables: seq<seq<Row>>, pages: seq<Page>, k: nat)
    requires IsWalk(q, tables, pages) && AllUnique(tables) && k < |pages|
    ensures StrictlyOrdered(q.sort, pages[k].items)
  {
    WalkPage(q, tables, pages, k);
    PageIsOrdered(q, tables[k], StartOf(q, pages, k));
  }

  lemma PageFollowsEarlierOnes(q: Query, tables: seq<seq<Row>>, pages: seq<Page>, n: nat, r: Row, t: Row)
    requires IsWalk(q, tables, pages) && AllUnique(tables) && n < |pages|
    requires r in Concat(pages[..n]) && t in pages[n].items
    ensures Before(q.sort, PositionOf(q.sort, r), PositionOf(q.sort, t))
  {
    ConcatMembers(pages[..n], r);
    var k :| 0 <= k < n && r in pages[..n][k].items;
    PagesDoNotOverlap(q, tables, pages, k, n, r, t);
  }

  lemma JoinOrdered(sort: SortKey, a: seq<Row>, b: seq<Row>)
    requires StrictlyOrdered(sort, a) && StrictlyOrdered(sort, b)
    requires forall r, t :: r in a && t in b ==> Before(sort, PositionOf(sort, r), PositionOf(sort, t))
    ensures StrictlyOrdered(sort, a + b)
  {
    var all := a + b;
    forall i, j | 0 <= i < j < |all| ensures Before(sort, PositionOf(sort, all[i]), PositionOf(sort, all[j])) {
      if i < |a| <= j {
        assert all[i] in a && all[j] in b;
      }
    }
  }

  /** The page size: what was asked for, between 1 and 100, and 20 when nothing was. */
  lemma LimitMeans(q: Query)
    ensures q.requested.None? ==> Limit(q) == 20
    ensures q.requested.Some? && 1 <= q.requested.value <= 100 ==> Limit(q) == q.requested.value
    ensures q.requested.Some? && q.requested.value < 1 ==> Limit(q) == 1
    ensures q.requested.Some? && q.requested.value > 100 ==> Limit(q) == 100
  {
  }

  /** A page holds as many of the matching rows past the cursor as there are, up to the page size. */
  lemma PageSize(q: Query, table: seq<Row>, from: Option<Position>)
    ensures |PageFrom(q, table, from).items| == Min(|Listing(q, table, from)|, Limit(q))
  {
    PageShape(q, table, from);
  }

  /** Which decoded payloads each list accepts as a cursor, and the position it then goes on from. */
  lemma CursorAcceptedIff(q: Query, t: Token, at: Position)
    ensures q.sort.FeedByCreation? ==>
      (Decode(q, t) == Ok(at) <==> t.v == 1 && t.i == Some(at.id) && t.feed.TagCreatedAt? && t.c == Some(at.key))
    ensures q.sort.FeedByDate? ==>
      (Decode(q, t) == Ok(at) <==> t.v == 1 && t.i == Some(at.id) && t.feed.TagExpenseDate? && t.d == Some(at.key))
    ensures q.sort.CommentsAsc? || q.sort.CommentsDesc? ==>
      (Decode(q, t) == Ok(at) <==>
        && t.v == 1 && t.i == Some(at.id) && t.c == Some(at.key)
        && t.p == (if q.scope.Some? then Scope(q.scope.value) else NullScope)
        && (if q.sort.CommentsDesc? then t.s.TagDesc? else t.s.TagAsc? || t.s.NoSortTag?))
  {
  }

  /** A well-formed cursor of another scope or order is refused as such. */
  lemma CursorMismatchIsNamed(q: Query, t: Token)
    requires t.v == 1 && t.i.Some? && t.c.Some?
    ensures q.sort.FeedByCreation? && t.feed.TagExpenseDate? ==> Decode(q, t) == Err(SortMismatch)
    ensures q.sort.FeedByDate? && t.feed.TagCreatedAt? ==> Decode(q, t) == Err(SortMismatch)
    ensures IsFeed(q.sort) && !t.feed.TagExpenseDate? && !t.feed.TagCreatedAt? ==> Decode(q, t) == Err(InvalidCursor)
    ensures !IsFeed(q.sort) && !t.p.NotAString? ==>
      t.p != (if q.scope.Some? then Scope(q.scope.value) else NullScope) ==> Decode(q, t) == Err(ScopeMismatch)
    ensures !IsFeed(q.sort) && t.p == (if q.scope.Some? then Scope(q.scope.value) else NullScope) ==>
      && (q.sort.CommentsAsc? && t.s.TagDesc? ==> Decode(q, t) == Err(SortMismatch))
      && (q.sort.CommentsDesc? && (t.s.TagAsc? || t.s.NoSortTag?) ==> Decode(q, t) == Err(SortMismatch))
      && (t.s.OtherSortTag? ==> Decode(q, t) == Err(InvalidCursor))
  {
  }
}
