/** Keyset pagination of an event's gallery (ListGallery in internal/media/service.go over
    ListGallery in internal/platform/database/media_repository.go), against the plain sorted list. */
module Gallery {
  import opened Tables
  import opened Sorting
  import opened MediaModel
  import opened MediaLedger

  datatype Filter = AllMedia | Photos | Videos | Favorites | HiddenOnly
  datatype Order = Newest | Oldest
  datatype Cursor = Cursor(createdAt: Time, id: Id)

  /** What stays the same from page to page; a limit outside 1..100 means 24. */
  datatype Query = Query(eventId: Id, filter: Filter, order: Order, limit: int) {
    function PageSize(): nat
      ensures PageSize() > 0
    {
      if limit < 1 || limit > 100 then 24 else limit
    }
  }

  predicate Shown(m: Media, q: Query) {
    && m.eventId == q.eventId
    && match q.filter
       case AllMedia => m.status.Ready? || m.status.Featured?
       case Photos => (m.status.Ready? || m.status.Featured?) && IsPhoto(m.mimeType)
       case Videos => (m.status.Ready? || m.status.Featured?) && IsVideo(m.mimeType)
       case Favorites => m.status.Featured?
       case HiddenOnly => m.status.Hidden?
  }

  function CursorOf(m: Media): Cursor { Cursor(m.createdAt, m.id) }

  /** (created_at, id) < (c.created_at, c.id) for newest first, > for oldest first. */
  predicate Past(order: Order, c: Cursor, d: Cursor) {
    if order.Oldest? then d.createdAt > c.createdAt || (d.createdAt == c.createdAt && d.id > c.id)
    else d.createdAt < c.createdAt || (d.createdAt == c.createdAt && d.id < c.id)
  }

  function Precedes(order: Order): (Media, Media) -> bool {
    (a: Media, b: Media) => Past(order, CursorOf(a), CursorOf(b))
  }

  function ShownPast(q: Query, cursor: Option<Cursor>): Media -> bool {
    (m: Media) => Shown(m, q) && (cursor.Some? ==> Past(q.order, cursor.value, CursorOf(m)))
  }

  /** Every row the filter shows beyond the cursor, in gallery order. */
  function Listing(rows: seq<Media>, q: Query, cursor: Option<Cursor>): seq<Media> {
    Sort(Where(rows, ShownPast(q, cursor)), Precedes(q.order))
  }

  datatype Page = Page(items: seq<Media>, next: Option<Cursor>)

  /** HasMore: the page carries a cursor exactly when rows were left over. */
  function ListPage(rows: seq<Media>, q: Query, cursor: Option<Cursor>): Page {
    var records := Limit(Listing(rows, q, cursor), q.PageSize() + 1);
    if |records| > q.PageSize() then
      Page(records[..q.PageSize()], Some(CursorOf(records[q.PageSize() - 1])))
    else Page(records, None)
  }

  /** One request: a page one row longer than asked for is fetched to learn whether there is more. */
  method ListGallery(rows: seq<Media>, q: Query, cursor: Option<Cursor>) returns (page: Page)
    ensures page == ListPage(rows, q, cursor)
    ensures |page.items| <= q.PageSize() && (page.next.Some? ==> |page.items| == q.PageSize())
  {
    var limit := if q.limit < 1 || q.limit > 100 then 24 else q.limit;
    var records := Limit(Sort(Where(rows, ShownPast(q, cursor)), Precedes(q.order)), limit + 1);
    var hasMore := |records| > limit;
    if hasMore {
      records := records[..limit];
    }
    var next := None;
    if hasMore {
      next := Some(CursorOf(records[|records| - 1]));
    }
    page := Page(records, next);
  }

  // ---- The listing is strictly ascending ----

  lemma PrecedesIsWeakOrder(order: Order)
    ensures WeakOrder(Precedes(order))
  {
  }

  lemma {:induction false} WhereDistinct(rows: seq<Media>, p: Media -> bool)
    requires forall i, j :: 0 <= i < j < |rows| ==> rows[i].id != rows[j].id
    ensures forall i, j :: 0 <= i < j < |Where(rows, p)| ==> Where(rows, p)[i].id != Where(rows, p)[j].id
  {
    if rows != [] {
      var rest := rows[..|rows| - 1];
      WhereDistinct(rest, p);
      WhereMembers(rest, p);
      forall m | m in Where(rest, p) ensures m.id != rows[|rows| - 1].id {
        var i :| 0 <= i < |rest| && rest[i] == m;
        assert rows[i] == m;
      }
      assert forall i :: 0 <= i < |Where(rest, p)| ==> Where(rest, p)[i] in Where(rest, p);
    }
  }

  ghost predicate DistinctIds(rows: seq<Media>) {
    forall i, j :: 0 <= i < j < |rows| ==> rows[i].id != rows[j].id
  }

  lemma ListingAscending(rows: seq<Media>, q: Query, cursor: Option<Cursor>)
    requires DistinctIds(rows)
    ensures Ascending(Listing(rows, q, cursor), Precedes(q.order))
    ensures forall m :: m in Listing(rows, q, cursor) <==> m in rows && ShownPast(q, cursor)(m)
  {
    PrecedesIsWeakOrder(q.order);
    WhereDistinct(rows, ShownPast(q, cursor));
    WhereMembers(rows, ShownPast(q, cursor));
    var picked := Where(rows, ShownPast(q, cursor));
    forall i, j | 0 <= i < j < |picked| ensures Comparable(picked[j], picked[i], Precedes(q.order)) {
      var a, b := CursorOf(picked[i]), CursorOf(picked[j]);
      assert a.id != b.id;
      assert Past(q.order, a, b) || Past(q.order, b, a);
    }
    SortAscending(picked, Precedes(q.order));
  }

  /** Listing past the last row of a page is what is left of the listing after that page. */
  lemma ListingResumes(rows: seq<Media>, q: Query, cursor: Option<Cursor>, n: nat)
    requires DistinctIds(rows) && 0 < n <= |Listing(rows, q, cursor)|
    ensures Listing(rows, q, Some(CursorOf(Listing(rows, q, cursor)[n - 1]))) == Listing(rows, q, cursor)[n..]
  {
    var all := Listing(rows, q, cursor);
    var last := all[n - 1];
    var rest := Listing(rows, q, Some(CursorOf(last)));
    ListingAscending(rows, q, cursor);
    ListingAscending(rows, q, Some(CursorOf(last)));
    assert last in all;
    forall m ensures m in rest <==> m in all[n..] {
      if m in all[n..] {
        var i :| n <= i < |all| && all[i] == m;
        assert Precedes(q.order)(last, m) && m in all;
      }
      if m in rest {
        assert m in all;
        var i :| 0 <= i < |all| && all[i] == m;
        assert i < n - 1 ==> Precedes(q.order)(m, last);
        assert m == all[n..][i - n];
      }
    }
    PrecedesIsWeakOrder(q.order);
    AscendingUnique(rest, all[n..], Precedes(q.order));
  }

  // ---- Following the cursor over an unchanged table ----

  /** Everything a client collects by following NextCursor until there is none. */
  ghost function Walk(rows: seq<Media>, q: Query, cursor: Option<Cursor>): seq<Media>
    requires DistinctIds(rows)
    decreases |Listing(rows, q, cursor)|
  {
    var page := ListPage(rows, q, cursor);
    if page.next.None? then page.items
    else
      ListingResumes(rows, q, cursor, q.PageSize());
      page.items + Walk(rows, q, page.next)
  }

  lemma {:induction false} WalkIsListing(rows: seq<Media>, q: Query, cursor: Option<Cursor>)
    requires DistinctIds(rows)
    ensures Walk(rows, q, cursor) == Listing(rows, q, cursor)
    decreases |Listing(rows, q, cursor)|
  {
    var all, page := Listing(rows, q, cursor), ListPage(rows, q, cursor);
    if page.next.Some? {
      ListingResumes(rows, q, cursor, q.PageSize());
      WalkIsListing(rows, q, page.next);
      assert page.items == all[..q.PageSize()];
    }
  }

  /** Page by page, the walk ends and yields the filtered rows in order, each exactly once. */
  lemma WalkIsExact(rows: seq<Media>, q: Query)
    requires DistinctIds(rows)
    ensures Ascending(Walk(rows, q, None), Precedes(q.order))
    ensures forall m :: m in Walk(rows, q, None) <==> m in rows && Shown(m, q)
    ensures Arranged(Walk(rows, q, None), q.order)
    ensures forall m :: m in Walk(rows, q, None) <==> m in rows && OnGallery(m, q.eventId, q.filter)
  {
    WalkIsListing(rows, q, None);
    ListingAscending(rows, q, None);
    ListingArranged(rows, q, None);
  }

  // ---- What a page shows, on the columns ----

  /** All shows what is ready or featured, photos and videos the part of it with that type, favorites
      what is featured, and hidden only what is hidden. */
  ghost predicate OnGallery(m: Media, e: Id, filter: Filter) {
    && m.eventId == e
    && match filter
       case AllMedia => m.status in {Ready, Featured}
       case Photos => m.status in {Ready, Featured} && "image/" <= m.mimeType
       case Videos => m.status in {Ready, Featured} && "video/" <= m.mimeType
       case Favorites => m.status == Featured
       case HiddenOnly => m.status == Hidden
  }

  /** What comes after a position: what is older, or newer, and on a tie the smaller, or larger, id. */
  ghost predicate After(order: Order, at: Time, id: Id, m: Media) {
    match order
    case Newest => m.createdAt < at || (m.createdAt == at && m.id < id)
    case Oldest => m.createdAt > at || (m.createdAt == at && m.id > id)
  }

  ghost predicate Arranged(items: seq<Media>, order: Order) {
    forall i, j :: 0 <= i < j < |items| ==> After(order, items[i].createdAt, items[i].id, items[j])
  }

  /** A row the walk gets to once it is at the cursor. */
  ghost predicate Reached(m: Media, rows: seq<Media>, q: Query, cursor: Option<Cursor>) {
    && m in rows && OnGallery(m, q.eventId, q.filter)
    && (cursor.Some? ==> After(q.order, cursor.value.createdAt, cursor.value.id, m))
  }

  lemma ListingArranged(rows: seq<Media>, q: Query, cursor: Option<Cursor>)
    requires DistinctIds(rows)
    ensures Arranged(Listing(rows, q, cursor), q.order)
    ensures forall m :: m in Listing(rows, q, cursor) <==> Reached(m, rows, q, cursor)
  {
    var all := Listing(rows, q, cursor);
    ListingAscending(rows, q, cursor);
    assert forall i, j :: 0 <= i < j < |all| ==> Precedes(q.order)(all[i], all[j]);
  }

  ghost predicate AfterAll(items: seq<Media>, order: Order, m: Media) {
    forall i :: 0 <= i < |items| ==> After(order, items[i].createdAt, items[i].id, m)
  }

  /** A page holds the first rows past the cursor, 24 of them or the number asked for up to 100, and
      leads on from its last one exactly when it left some out. */
  lemma PageStatement(rows: seq<Media>, q: Query, cursor: Option<Cursor>)
    requires DistinctIds(rows)
    ensures var page, n := ListPage(rows, q, cursor), if q.limit < 1 || q.limit > 100 then 24 else q.limit;
      && |page.items| <= n && Arranged(page.items, q.order)
      && (forall m :: m in page.items ==> Reached(m, rows, q, cursor))
      && (forall m :: Reached(m, rows, q, cursor) && m !in page.items ==> page.next.Some? && AfterAll(page.items, q.order, m))
      && (page.next.Some? ==>
           && |page.items| == n && page.next == Some(Cursor(page.items[n - 1].createdAt, page.items[n - 1].id))
           && exists m :: Reached(m, rows, q, cursor) && m !in page.items)
  {
    var all, page := Listing(rows, q, cursor), ListPage(rows, q, cursor);
    ListingArranged(rows, q, cursor);
    PageIsFirst(all, q.order, |page.items|);
    assert page.items == all[..|page.items|];
    if page.next.Some? { assert Reached(all[|page.items|], rows, q, cursor); }
  }

  lemma PageIsFirst(all: seq<Media>, order: Order, n: nat)
    requires Arranged(all, order) && n <= |all|
    ensures Arranged(all[..n], order)
    ensures forall m :: m in all[..n] ==> m in all
    ensures forall m :: m in all && m !in all[..n] ==> n < |all| && AfterAll(all[..n], order, m)
    ensures n < |all| ==> all[n] in all && all[n] !in all[..n]
  {
    forall m | m in all && m !in all[..n] ensures n < |all| && AfterAll(all[..n], order, m) {
      var k :| 0 <= k < |all| && all[k] == m;
    }
  }

  // ---- Following the cursor while the table changes ----

  /** Pages fetched one after the other until there is no cursor, each from the table as it stood
      at that moment. */
  ghost predicate WalksThrough(tables: seq<seq<Media>>, pages: seq<Page>, q: Query, cursor: Option<Cursor>)
    decreases |pages|
  {
    && |tables| == |pages| && |pages| > 0 && DistinctIds(tables[0])
    && pages[0] == ListPage(tables[0], q, cursor)
    && if |pages| == 1 then pages[0].next.None?
       else pages[0].next.Some? && WalksThrough(tables[1..], pages[1..], q, pages[0].next)
  }

  /** The row is in every table the walk reads, always shown, though its other columns may change. */
  ghost predicate PresentThroughout(tables: seq<seq<Media>>, q: Query, c: Cursor) {
    forall i :: 0 <= i < |tables| ==> Shows(tables[i], q, c)
  }

  ghost predicate Shows(rows: seq<Media>, q: Query, c: Cursor) {
    exists m :: m in rows && CursorOf(m) == c && Shown(m, q)
  }

  ghost predicate Appears(page: Page, k: int, c: Cursor) { 0 <= k < |page.items| && CursorOf(page.items[k]) == c }

  lemma PageIsPast(rows: seq<Media>, q: Query, cursor: Option<Cursor>, c: Cursor, k: int)
    requires DistinctIds(rows) && Appears(ListPage(rows, q, cursor), k, c)
    ensures cursor.Some? ==> Past(q.order, cursor.value, c)
    ensures ListPage(rows, q, cursor).next.Some? ==> !Past(q.order, ListPage(rows, q, cursor).next.value, c)
    ensures forall l :: l != k ==> !Appears(ListPage(rows, q, cursor), l, c)
  {
    var all, page := Listing(rows, q, cursor), ListPage(rows, q, cursor);
    ListingAscending(rows, q, cursor);
    assert page.items[k] == all[k] && all[k] in all;
    forall l | l != k ensures !Appears(page, l, c) {
      if 0 <= l < |page.items| {
        assert page.items[l] == all[l];
        assert l < k ==> Precedes(q.order)(all[l], all[k]);
        assert k < l ==> Precedes(q.order)(all[k], all[l]);
      }
    }
    NextIsLast(rows, q, cursor, c, k);
  }

  lemma NextIsLast(rows: seq<Media>, q: Query, cursor: Option<Cursor>, c: Cursor, k: int)
    requires DistinctIds(rows) && Appears(ListPage(rows, q, cursor), k, c)
    ensures ListPage(rows, q, cursor).next.Some? ==> !Past(q.order, ListPage(rows, q, cursor).next.value, c)
  {
    var all, page, n := Listing(rows, q, cursor), ListPage(rows, q, cursor), q.PageSize();
    ListingAscending(rows, q, cursor);
    assert page.items[k] == all[k];
    if page.next.Some? {
      assert CursorOf(all[n - 1]) == page.next.value;
      assert k < n - 1 ==> Precedes(q.order)(all[k], all[n - 1]);
    }
  }

  lemma PageHasOrLeaves(rows: seq<Media>, q: Query, cursor: Option<Cursor>, m: Media)
    requires DistinctIds(rows) && m in rows && Shown(m, q)
    requires cursor.Some? ==> Past(q.order, cursor.value, CursorOf(m))
    ensures var page := ListPage(rows, q, cursor);
      (exists k :: Appears(page, k, CursorOf(m))) || (page.next.Some? && Past(q.order, page.next.value, CursorOf(m)))
  {
    var all, page := Listing(rows, q, cursor), ListPage(rows, q, cursor);
    ListingAscending(rows, q, cursor);
    var i :| 0 <= i < |all| && all[i] == m;
    if i < |page.items| {
      assert Appears(page, i, CursorOf(m));
    } else {
      assert Precedes(q.order)(all[q.PageSize() - 1], all[i]);
    }
  }

  ghost predicate OnSomePage(pages: seq<Page>, c: Cursor) {
    exists i, k :: 0 <= i < |pages| && Appears(pages[i], k, c)
  }

  ghost predicate OnOnePlace(pages: seq<Page>, c: Cursor) {
    forall i, k, j, l ::
      0 <= i < |pages| && 0 <= j < |pages| && Appears(pages[i], k, c) && Appears(pages[j], l, c) ==> i == j && k == l
  }

  lemma LaterPages(pages: seq<Page>, c: Cursor)
    requires |pages| > 0 && OnSomePage(pages[1..], c) && OnOnePlace(pages[1..], c)
    requires forall k :: !Appears(pages[0], k, c)
    ensures OnSomePage(pages, c) && OnOnePlace(pages, c)
  {
  }

  ghost predicate Nowhere(pages: seq<Page>, c: Cursor) {
    forall i, k :: 0 <= i < |pages| ==> !Appears(pages[i], k, c)
  }

  /** The cursor only moves on: a position it has passed is never listed again. */
  lemma NextIsPast(rows: seq<Media>, q: Query, cursor: Option<Cursor>, c: Cursor)
    requires DistinctIds(rows) && cursor.Some? && !Past(q.order, cursor.value, c)
    ensures forall k :: !Appears(ListPage(rows, q, cursor), k, c)
    ensures var next := ListPage(rows, q, cursor).next; next.Some? ==> !Past(q.order, next.value, c)
  {
    var page, n := ListPage(rows, q, cursor), q.PageSize();
    forall k ensures !Appears(page, k, c) {
      if Appears(page, k, c) { PageIsPast(rows, q, cursor, c, k); }
    }
    if page.next.Some? {
      assert Appears(page, n - 1, page.next.value);
      PageIsPast(rows, q, cursor, page.next.value, n - 1);
    }
  }

  lemma {:induction false} NeverBack(tables: seq<seq<Media>>, pages: seq<Page>, q: Query, cursor: Option<Cursor>, c: Cursor)
    requires WalksThrough(tables, pages, q, cursor) && cursor.Some? && !Past(q.order, cursor.value, c)
    ensures Nowhere(pages, c)
    decreases |pages|
  {
    NextIsPast(tables[0], q, cursor, c);
    if |pages| > 1 {
      NeverBack(tables[1..], pages[1..], q, pages[0].next, c);
      assert forall i :: 0 < i < |pages| ==> pages[i] == pages[1..][i - 1];
    }
  }

  /** A row past the cursor that matches the filter throughout is listed exactly once, on one page,
      whatever is inserted or removed between the pages. */
  lemma {:induction false} StableRowListedOnce(tables: seq<seq<Media>>, pages: seq<Page>, q: Query, cursor: Option<Cursor>, c: Cursor)
    requires WalksThrough(tables, pages, q, cursor) && PresentThroughout(tables, q, c)
    requires cursor.Some? ==> Past(q.order, cursor.value, c)
    ensures OnSomePage(pages, c) && OnOnePlace(pages, c)
    decreases |pages|
  {
    assert Shows(tables[0], q, c);
    var m :| m in tables[0] && CursorOf(m) == c && Shown(m, q);
    PageHasOrLeaves(tables[0], q, cursor, m);
    if k :| Appears(pages[0], k, c) {
      PageIsPast(tables[0], q, cursor, c, k);
      if |pages| > 1 {
        NeverBack(tables[1..], pages[1..], q, pages[0].next, c);
      }
      OnlyFirst(pages, c, k);
    } else {
      StableRowListedOnce(tables[1..], pages[1..], q, pages[0].next, c);
      LaterPages(pages, c);
    }
  }

  lemma OnlyFirst(pages: seq<Page>, c: Cursor, k: int)
    requires |pages| > 0 && Appears(pages[0], k, c) && Nowhere(pages[1..], c)
    requires forall l :: l != k ==> !Appears(pages[0], l, c)
    ensures OnSomePage(pages, c) && OnOnePlace(pages, c)
  {
  }

  // ---- The counts of the first page ----

  /** GalleryCounts: how many rows each filter shows. */
  function FilterCount(rows: seq<Media>, q: Query): nat { Count(rows, ShownPast(q, None)) }

  /** The count shown on the first page is the length of the whole walk. */
  lemma CountIsWalkLength(rows: seq<Media>, q: Query)
    requires DistinctIds(rows)
    ensures |Walk(rows, q, None)| == FilterCount(rows, q)
  {
    WalkIsListing(rows, q, None);
    PrecedesIsWeakOrder(q.order);
    SortOrdered(Where(rows, ShownPast(q, None)), Precedes(q.order));
  }
}
