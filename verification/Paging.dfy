/** The paged list of feeds: keyset pages by id, with a cached first page. */
module Paging {
  import opened Types
  import Query
  import Scheduler

  type Table = Scheduler.Table

  datatype Row = Row(id: Uuid, feed: Scheduler.Feed)

  /** `WHERE id > after ORDER BY id`. */
  function Keys(rows: Table, after: Option<Uuid>): Query.Keys {
    map id | id in rows && (after.Some? ==> id > after.value) :: (0, 0)
  }

  function Ids(rows: Table, after: Option<Uuid>, limit: nat): (ids: seq<Uuid>)
    ensures forall i :: 0 <= i < |ids| ==> ids[i] in rows
  {
    assert forall id :: id in Keys(rows, after) ==> id in rows;
    Query.Select(Keys(rows, after), limit)
  }

  function Rows(rows: Table, ids: seq<Uuid>): seq<Row>
    requires forall i :: 0 <= i < |ids| ==> ids[i] in rows
  {
    seq(|ids|, i requires 0 <= i < |ids| => Row(ids[i], rows[ids[i]]))
  }

  function PageRows(rows: Table, after: Option<Uuid>, limit: nat): seq<Row> {
    Rows(rows, Ids(rows, after, limit))
  }

  const DEFAULT_SIZE := 50
  const MAX_SIZE := 100

  /** A query parameter. */
  datatype Param = Absent | Number(n: int) | Id(id: Uuid) | Garbage

  datatype CacheStatus = Hit | Miss

  datatype Response =
    | BadRequest(message: string)
    | ServerError
    | Page(feeds: seq<Row>, next: Option<Uuid>, cache: CacheStatus)

  /** A response without its `X-Cache` header. */
  function Seen(r: Response): (seq<Row>, Option<Uuid>)
    requires r.Page?
  {
    (r.feeds, r.next)
  }

  /** One row too many is asked for; the extra row only says that there is a next page. */
  function Written(feeds: seq<Row>, limit: nat, cache: CacheStatus): Response
    requires 1 <= limit
  {
    if |feeds| > limit then Page(feeds[..limit], Some(feeds[limit - 1].id), cache)
    else Page(feeds, None, cache)
  }

  /** What a client sees for one page of one state of the table. */
  function PageOf(rows: Table, after: Option<Uuid>, limit: nat): Response
    requires 1 <= limit
  {
    Written(PageRows(rows, after, limit + 1), limit, Miss)
  }

  class Handler {
    const storage: Scheduler.Feeds
    var cache: Option<seq<Row>>     // the one key, "feeds:first:50"
    ghost var filledFrom: Table     // the table as it was when the cache was last filled

    constructor (storage: Scheduler.Feeds)
      ensures Valid() && this.storage == storage && cache == None
    {
      this.storage := storage;
      cache := None;
    }

    ghost predicate Valid()
      reads this
    {
      cache.Some? ==> cache.value == PageRows(filledFrom, None, DEFAULT_SIZE + 1)
    }

    method GetFeedsPage(after: Option<Uuid>, limit: int) returns (feeds: Option<seq<Row>>)
      ensures limit < 1 || limit > 101 ==> feeds == None
      ensures 1 <= limit <= 101 ==> feeds == Some(PageRows(storage.rows, after, limit))
    {
      if limit < 1 || limit > MAX_SIZE + 1 {
        return None;
      }
      var ids := Query.Fetch(Keys(storage.rows, after), limit);
      var page: seq<Row> := [];
      for i := 0 to |ids|
        invariant page == Rows(storage.rows, Ids(storage.rows, after, limit))[..i]
      {
        page := page + [Row(ids[i], storage.rows[ids[i]])];
      }
      assert page == Rows(storage.rows, Ids(storage.rows, after, limit));
      return Some(page);
    }

    /** `cacheUp` and `databaseUp` say whether the lookup and the query are answered, `fills`
        whether the background fill of the cache goes through. */
    method GetAllFeeds(limit: Param, after: Param, cacheUp: bool, databaseUp: bool, fills: bool) returns (r: Response)
      requires Valid()
      modifies this
      ensures Valid()
      ensures var size := if limit.Absent? then 50 else if limit.Number? then limit.n else 0;
              var cursor := if after.Id? then Some(after.id) else None;
              var cached := cursor.None? && size == 50 && old(cache).Some? && cacheUp;
              if !(1 <= size <= 100) then r == BadRequest("limit must be between 1 and 100")
              else if !after.Absent? && !after.Id? then r == BadRequest("after must be a UUID")
              else if cached then r.Page? && r.cache == Hit && Seen(r) == Seen(PageOf(old(filledFrom), None, 50))
              else if !databaseUp then r == ServerError
              else r == PageOf(storage.rows, cursor, size)
      ensures if r.Page? && r.cache == Miss && !after.Id? && (limit.Absent? || limit == Number(50)) && fills
              then cache.Some? && filledFrom == storage.rows
              else cache == old(cache) && filledFrom == old(filledFrom)
    {
      var size := DEFAULT_SIZE;
      if !limit.Absent? {
        if !limit.Number? || limit.n < 1 || limit.n > MAX_SIZE {
          return BadRequest("limit must be between 1 and 100");
        }
        size := limit.n;
      }
      var cursor: Option<Uuid> := None;
      if !after.Absent? {
        if !after.Id? {
          return BadRequest("after must be a UUID");
        }
        cursor := Some(after.id);
      }
      var cacheFirstPage := cursor.None? && size == DEFAULT_SIZE;
      if cacheFirstPage && cacheUp && cache.Some? {
        return Written(cache.value, size, Hit);
      }
      if !databaseUp {
        return ServerError;
      }
      var feeds := GetFeedsPage(cursor, size + 1);
      if cacheFirstPage && fills {
        cache := feeds;
        filledFrom := storage.rows;
      }
      return Written(feeds.value, size, Miss);
    }
  }

  // ----- One page -----

  /** The ids are those after the cursor, in order; there is a next page exactly when some
      row stays behind, and then the cursor is the last id of the page. */
  lemma PageIsPrefix(rows: Table, after: Option<Uuid>, limit: nat)
    requires 1 <= limit
    ensures var r := PageOf(rows, after, limit);
            && r.Page? && r.feeds == PageRows(rows, after, limit)
            && (r.next.None? <==> |Keys(rows, after)| <= limit)
            && (r.next.Some? ==> |r.feeds| == limit && r.next.value == r.feeds[limit - 1].id)
  {
    hide Query.Select, Query.Ordered, Query.Before;
    var keys := Keys(rows, after);
    Query.SelectIsTop(keys, limit + 1);
    Query.SelectIsTop(keys, limit);
    Query.SelectContinues(keys, limit, 1);
    assert Query.Select(keys, limit) <= Query.Select(keys, limit + 1);
  }

  // ----- Walks -----

  /** A client that follows the cursor: one page of each table, with any limits, until there
      is no next page. The table may have changed between pages. */
  ghost predicate IsWalk(tables: seq<Table>, limits: seq<nat>, after: Option<Uuid>)
    decreases |tables|
  {
    && |tables| == |limits| > 0 && 1 <= limits[0] <= MAX_SIZE
    && var next := PageOf(tables[0], after, limits[0]).next;
       if next.None? then |tables| == 1 else IsWalk(tables[1..], limits[1..], next)
  }

  /** Everything the client was shown. */
  ghost function Shown(tables: seq<Table>, limits: seq<nat>, after: Option<Uuid>): seq<Row>
    requires IsWalk(tables, limits, after)
    decreases |tables|
  {
    var r := PageOf(tables[0], after, limits[0]);
    r.feeds + if r.next.None? then [] else Shown(tables[1..], limits[1..], r.next)
  }

  predicate Rising(shown: seq<Row>) {
    forall i, j :: 0 <= i < j < |shown| ==> shown[i].id < shown[j].id
  }

  predicate Shows(shown: seq<Row>, id: Uuid) {
    exists i :: 0 <= i < |shown| && shown[i].id == id
  }

  /** Position i, and no other, shows x. */
  predicate IsOnly(shown: seq<Row>, i: nat, x: Uuid) {
    i < |shown| && shown[i].id == x && forall j :: 0 <= j < |shown| && shown[j].id == x ==> j == i
  }

  ghost predicate ShownOnce(shown: seq<Row>, x: Uuid) {
    exists i :: IsOnly(shown, i, x)
  }

  predicate Beyond(id: Uuid, after: Option<Uuid>) {
    after.Some? ==> id > after.value
  }

  lemma PageRises(rows: Table, after: Option<Uuid>, limit: nat)
    requires 1 <= limit
    ensures var r := PageOf(rows, after, limit);
            && Rising(r.feeds)
            && (forall i :: 0 <= i < |r.feeds| ==> Beyond(r.feeds[i].id, after) && r.feeds[i].id in rows)
            && (forall x :: x in rows && Beyond(x, after) && (r.next.Some? ==> x <= r.next.value) ==> Shows(r.feeds, x))
  {
    PageIsPrefix(rows, after, limit);
    var keys := Keys(rows, after);
    var ids := Query.Select(keys, limit);
    var feeds := PageOf(rows, after, limit).feeds;
    Query.SelectIsTop(keys, limit);
    assert forall i :: 0 <= i < |ids| ==> feeds[i].id == ids[i];
    forall i, j | 0 <= i < j < |ids| ensures ids[i] < ids[j] {
      assert Query.Before(keys, ids[i], ids[j]);
    }
    forall x | x in rows && Beyond(x, after) && (PageOf(rows, after, limit).next.Some? ==> x <= PageOf(rows, after, limit).next.value)
      ensures Shows(feeds, x)
    {
      InPage(rows, after, limit, x);
      var i :| 0 <= i < |ids| && ids[i] == x;
      assert feeds[i].id == x;
    }
  }

  lemma InPage(rows: Table, after: Option<Uuid>, limit: nat, x: Uuid)
    requires 1 <= limit && x in rows && Beyond(x, after)
    requires var next := PageOf(rows, after, limit).next; next.Some? ==> x <= next.value
    ensures x in Query.Select(Keys(rows, after), limit)
  {
    hide Query.Select;
    var keys := Keys(rows, after);
    PageIsPrefix(rows, after, limit);
    Query.SelectIsTop(keys, limit);
    if |keys| <= limit {
      EveryRow(keys, limit, x);
    } else {
      var last := Query.Select(keys, limit)[limit - 1];
      assert last == x || !Query.Before(keys, last, x);
    }
  }

  lemma EveryRow(keys: Query.Keys, limit: nat, x: Uuid)
    requires x in keys && |keys| <= limit
    ensures x in Query.Select(keys, limit)
  {
    Query.Subset(Query.Ahead(keys, x), keys.Keys - {x});
    Query.SelectedIffFewAhead(keys, limit, x);
  }

  /** Whatever is inserted or deleted between the pages: the ids shown strictly increase,
      and every feed that is there throughout is shown exactly once. */
  lemma WalkIsSound(tables: seq<Table>, limits: seq<nat>, after: Option<Uuid>)
    requires IsWalk(tables, limits, after)
    ensures Rising(Shown(tables, limits, after))
    ensures forall x :: (forall t :: t in tables ==> x in t) && Beyond(x, after) ==> ShownOnce(Shown(tables, limits, after), x)
  {
    hide IsWalk, Shown, Beyond, ShownOnce, Shows, Rising;
    WalkRises(tables, limits, after);
    forall x | (forall t :: t in tables ==> x in t) && Beyond(x, after) ensures ShownOnce(Shown(tables, limits, after), x) {
      WalkShows(tables, limits, after, x);
      OnceOnly(Shown(tables, limits, after), x);
    }
  }

  lemma OnceOnly(shown: seq<Row>, x: Uuid)
    requires Rising(shown) && Shows(shown, x)
    ensures ShownOnce(shown, x)
  {
    var i :| 0 <= i < |shown| && shown[i].id == x;
    assert IsOnly(shown, i, x);
  }

  lemma {:induction false} WalkRises(tables: seq<Table>, limits: seq<nat>, after: Option<Uuid>)
    requires IsWalk(tables, limits, after)
    ensures Rising(Shown(tables, limits, after))
    ensures forall i :: 0 <= i < |Shown(tables, limits, after)| ==> Beyond(Shown(tables, limits, after)[i].id, after)
    decreases |tables|
  {
    hide PageOf, Rising, Beyond;
    var r := PageOf(tables[0], after, limits[0]);
    PageRises(tables[0], after, limits[0]);
    PageIsPrefix(tables[0], after, limits[0]);
    if r.next.Some? {
      WalkRises(tables[1..], limits[1..], r.next);
      Joined(r.feeds, Shown(tables[1..], limits[1..], r.next), after, r.next.value);
    } else {
      assert Shown(tables, limits, after) == r.feeds;
    }
  }

  lemma {:induction false} WalkShows(tables: seq<Table>, limits: seq<nat>, after: Option<Uuid>, x: Uuid)
    requires IsWalk(tables, limits, after) && (forall t :: t in tables ==> x in t) && Beyond(x, after)
    ensures Shows(Shown(tables, limits, after), x)
    decreases |tables|
  {
    hide PageOf, Rising;
    var r := PageOf(tables[0], after, limits[0]);
    PageRises(tables[0], after, limits[0]);
    PageIsPrefix(tables[0], after, limits[0]);
    assert tables[0] in tables;
    if r.next.Some? {
      var rest := Shown(tables[1..], limits[1..], r.next);
      assert forall t :: t in tables[1..] ==> t in tables;
      if x > r.next.value {
        WalkShows(tables[1..], limits[1..], r.next, x);
      }
      ShowsEither(r.feeds, rest, x);
    } else {
      assert Shown(tables, limits, after) == r.feeds;
    }
  }

  predicate Holds(t: Table, row: Row) {
    row.id in t && t[row.id] == row.feed
  }

  /** Every row shown is the row of one of the tables. */
  lemma {:induction false} WalkIsReal(tables: seq<Table>, limits: seq<nat>, after: Option<Uuid>, row: Row)
    requires IsWalk(tables, limits, after) && row in Shown(tables, limits, after)
    ensures exists t :: t in tables && Holds(t, row)
    decreases |tables|
  {
    hide PageOf;
    var r := PageOf(tables[0], after, limits[0]);
    PageIsPrefix(tables[0], after, limits[0]);
    assert tables[0] in tables;
    if row in r.feeds {
      assert Holds(tables[0], row);
    } else {
      WalkIsReal(tables[1..], limits[1..], r.next, row);
      var t :| t in tables[1..] && Holds(t, row);
      assert t in tables;
    }
  }

  lemma ShowsEither(page: seq<Row>, rest: seq<Row>, x: Uuid)
    requires Shows(page, x) || Shows(rest, x)
    ensures Shows(page + rest, x)
  {
    var all := page + rest;
    if i :| 0 <= i < |page| && page[i].id == x {
      assert all[i].id == x;
    } else {
      var i :| 0 <= i < |rest| && rest[i].id == x;
      assert all[|page| + i].id == x;
    }
  }

  /** A page that ends at the cursor, followed by what comes after the cursor. */
  lemma Joined(page: seq<Row>, rest: seq<Row>, after: Option<Uuid>, cursor: Uuid)
    requires Rising(page) && Rising(rest) && page != [] && page[|page| - 1].id == cursor
    requires forall i :: 0 <= i < |page| ==> Beyond(page[i].id, after)
    requires forall i :: 0 <= i < |rest| ==> Beyond(rest[i].id, Some(cursor))
    ensures Rising(page + rest) && forall i :: 0 <= i < |page + rest| ==> Beyond((page + rest)[i].id, after)
  {
    assert forall i :: 0 <= i < |page| ==> page[i].id <= cursor;
  }

  // ----- A fixed table -----

  function Same(rows: Table, pages: nat): (tables: seq<Table>)
    ensures |tables| == pages
  {
    seq(pages, i => rows)
  }

  /** What remains after a page. */
  lemma RestOf(rows: Table, after: Option<Uuid>, limit: nat)
    requires 1 <= limit < |Keys(rows, after)|
    ensures var keys := Keys(rows, after);
            var next := PageOf(rows, after, limit).next;
            && next.Some? && Keys(rows, next) == keys - Elements(Query.Select(keys, limit))
            && |Keys(rows, next)| == |keys| - limit
  {
    var keys := Keys(rows, after);
    var ids := Query.Select(keys, limit);
    PageIsPrefix(rows, after, limit);
    Query.SelectIsTop(keys, limit);
    var next := PageOf(rows, after, limit).next;
    assert next.value == ids[limit - 1];
    forall x ensures x in Keys(rows, next) <==> x in keys && x !in ids {
      if x in keys && x !in ids {
        assert Query.Before(keys, ids[limit - 1], x);
      }
      if x in ids {
        var i :| 0 <= i < |ids| && ids[i] == x;
        assert i < limit - 1 ==> Query.Before(keys, ids[i], ids[limit - 1]);
      }
      if x in Keys(rows, next) {
        assert ids[limit - 1] in keys;
      }
    }
    assert Keys(rows, next) == keys - Elements(ids);
    Scheduler.DistinctSize(ids, keys);
    assert Elements(ids) <= keys.Keys;
    assert Keys(rows, next).Keys == keys.Keys - Elements(ids);
  }

  /** Following the cursor, whatever the limits, ends after at most as many pages as there
      are rows (one, if there are none). */
  lemma {:induction false} WalkEnds(rows: Table, limits: seq<nat>, after: Option<Uuid>) returns (pages: nat)
    requires |limits| >= Max(1, |Keys(rows, after)|) && forall i :: 0 <= i < |limits| ==> 1 <= limits[i] <= MAX_SIZE
    ensures 1 <= pages <= Max(1, |Keys(rows, after)|) && IsWalk(Same(rows, pages), limits[..pages], after)
    decreases |limits|
  {
    hide PageOf, Keys;
    PageIsPrefix(rows, after, limits[0]);
    if |Keys(rows, after)| <= limits[0] {
      pages := 1;
    } else {
      RestOf(rows, after, limits[0]);
      var next := PageOf(rows, after, limits[0]).next;
      var more := WalkEnds(rows, limits[1..], next);
      pages := more + 1;
      assert Same(rows, pages)[1..] == Same(rows, more);
      assert limits[..pages][1..] == limits[1..][..more];
    }
  }

  lemma AllRows(rows: Table, after: Option<Uuid>, limit: nat)
    requires |Keys(rows, after)| <= limit
    ensures PageRows(rows, after, limit) == PageRows(rows, after, |Keys(rows, after)|)
  {
    var keys := Keys(rows, after);
    Query.SelectContinues(keys, |keys|, limit - |keys|);
    Query.SelectIsTop(keys, |keys|);
    Query.SelectIsTop(keys, limit);
  }

  lemma NextRows(rows: Table, after: Option<Uuid>, next: Option<Uuid>, limit: nat)
    requires limit <= |Keys(rows, after)|
    requires Keys(rows, next) == Keys(rows, after) - Elements(Query.Select(Keys(rows, after), limit))
    ensures var n := |Keys(rows, after)|;
            PageRows(rows, after, n) == PageRows(rows, after, limit) + PageRows(rows, next, n - limit)
  {
    hide Keys, Query.Select;
    var n := |Keys(rows, after)|;
    Query.SelectContinues(Keys(rows, after), limit, n - limit);
    RowsConcat(rows, Ids(rows, after, limit), Ids(rows, next, n - limit));
  }

  lemma RowsConcat(rows: Table, a: seq<Uuid>, b: seq<Uuid>)
    requires (forall i :: 0 <= i < |a| ==> a[i] in rows) && forall i :: 0 <= i < |b| ==> b[i] in rows
    ensures (forall i :: 0 <= i < |a + b| ==> (a + b)[i] in rows) && Rows(rows, a + b) == Rows(rows, a) + Rows(rows, b)
  {
  }

  /** On a fixed table the pages put together are the whole table after the cursor, sorted by id. */
  lemma {:induction false} WalkIsTable(rows: Table, pages: nat, limits: seq<nat>, after: Option<Uuid>)
    requires IsWalk(Same(rows, pages), limits, after)
    ensures Shown(Same(rows, pages), limits, after) == PageRows(rows, after, |Keys(rows, after)|)
    decreases pages
  {
    hide PageOf, Keys;
    var keys, limit := Keys(rows, after), limits[0];
    PageIsPrefix(rows, after, limit);
    if |keys| <= limit {
      AllRows(rows, after, limit);
    } else {
      RestOf(rows, after, limit);
      var next := PageOf(rows, after, limit).next;
      assert Same(rows, pages)[1..] == Same(rows, pages - 1);
      WalkIsTable(rows, pages - 1, limits[1..], next);
      NextRows(rows, after, next, limit);
    }
  }
}
