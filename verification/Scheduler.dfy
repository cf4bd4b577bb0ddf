/** The feed scheduler: each batch takes the feeds that were fetched longest ago. */
module Scheduler {
  import opened Types
  import Query

  datatype Feed = Feed(name: string, url: string, createdAt: Time, updatedAt: Time, lastFetchedAt: Option<Time>)

  type Table = map<Uuid, Feed>

  /** `ORDER BY last_fetched_at ASC NULLS FIRST, id ASC`. */
  function Keys(rows: Table): Query.Keys {
    map id | id in rows ::
      match rows[id].lastFetchedAt
      case None => (0, 0)
      case Some(t) => (1, t)
  }

  /** The order of the batches, written out: never fetched before fetched, then by the time
      of the last fetch, then by id. */
  predicate Sooner(rows: Table, x: Uuid, y: Uuid) {
    && x in rows && y in rows
    && var a, b := rows[x].lastFetchedAt, rows[y].lastFetchedAt;
       if a.None? || b.None? then (a.None? && b.Some?) || (a.None? && b.None? && x < y)
       else a.value < b.value || (a.value == b.value && x < y)
  }

  function SoonerThan(rows: Table, id: Uuid): set<Uuid> {
    set y | y in rows && Sooner(rows, y, id)
  }

  /** A batch is the first feeds in that order. */
  lemma BatchIs(rows: Table, limit: nat)
    ensures forall id :: id in Batch(rows, limit) <==> id in rows && |SoonerThan(rows, id)| < limit
    ensures forall i, j :: 0 <= i < j < |Batch(rows, limit)| ==> Sooner(rows, Batch(rows, limit)[i], Batch(rows, limit)[j])
  {
    hide Query.Select;
    var keys, ids := Keys(rows), Batch(rows, limit);
    KeysOf(rows);
    Query.SelectIsTop(keys, limit);
    forall id ensures id in ids <==> id in rows && |SoonerThan(rows, id)| < limit {
      if id in rows {
        Query.SelectedIffFewAhead(keys, limit, id);
        assert Query.Ahead(keys, id) == SoonerThan(rows, id);
      }
    }
    forall i, j | 0 <= i < j < |ids| ensures Sooner(rows, ids[i], ids[j]) {
      assert Query.Before(keys, ids[i], ids[j]);
    }
  }

  /** When each feed that was scraped in full was marked; the others are not marked. */
  type Marks = map<Uuid, Time>

  function Marked(rows: Table, marks: Marks): Table {
    map id | id in rows :: if id in marks then rows[id].(lastFetchedAt := Some(marks[id])) else rows[id]
  }

  /** The marks of the listed feeds. */
  function Within(marks: Marks, feeds: seq<Uuid>): Marks {
    map id | id in marks && id in feeds :: marks[id]
  }

  lemma MarkOneMore(rows: Table, marks: Marks, feeds: seq<Uuid>, i: nat)
    requires i < |feeds|
    ensures var done := Marked(rows, Within(marks, feeds[..i]));
            Marked(rows, Within(marks, feeds[..i + 1])) ==
            if feeds[i] in marks then Marked(done, map[feeds[i] := marks[feeds[i]]]) else done
  {
    var x := feeds[i];
    assert feeds[..i + 1] == feeds[..i] + [x];
    forall id | id in rows
      ensures id in Within(marks, feeds[..i + 1]) <==> id in Within(marks, feeds[..i]) || (id == x && x in marks) {
    }
  }

  function Batch(rows: Table, limit: nat): seq<Uuid> {
    Query.Select(Keys(rows), limit)
  }

  class Feeds {
    var rows: Table

    constructor ()
      ensures rows == map[]
    {
      rows := map[];
    }

    method GetNextFeedsToFetch(limit: nat) returns (feeds: seq<Uuid>)
      ensures feeds == Batch(rows, limit)
      ensures forall id :: id in feeds <==> id in rows && |SoonerThan(rows, id)| < limit
      ensures forall i, j :: 0 <= i < j < |feeds| ==> Sooner(rows, feeds[i], feeds[j])
    {
      BatchIs(rows, limit);
      feeds := Query.Fetch(Keys(rows), limit);
    }

    /** A feed that has been deleted meanwhile is no error. */
    method MarkFeedFetched(id: Uuid, now: Time)
      modifies this
      ensures rows == Marked(old(rows), map[id := now])
      ensures rows == if id in old(rows) then old(rows)[id := old(rows)[id].(lastFetchedAt := Some(now))] else old(rows)
    {
      if id in rows {
        rows := rows[id := rows[id].(lastFetchedAt := Some(now))];
      }
    }

    /** One batch. `marks` holds the feeds whose scrape succeeded, and when. The scrapes run
        side by side; they touch different feeds, so any order marks the same rows. */
    method FetchBatch(concurrency: nat, marks: Marks) returns (feeds: seq<Uuid>)
      modifies this
      ensures feeds == Batch(old(rows), concurrency)
      ensures rows == Marked(old(rows), Within(marks, feeds))
      ensures rows.Keys == old(rows).Keys
      ensures forall id :: id in rows ==>
                rows[id] == if id in feeds && id in marks then old(rows)[id].(lastFetchedAt := Some(marks[id])) else old(rows)[id]
    {
      feeds := GetNextFeedsToFetch(concurrency);
      for i := 0 to |feeds|
        invariant rows == Marked(old(rows), Within(marks, feeds[..i]))
      {
        MarkOneMore(old(rows), marks, feeds, i);
        if feeds[i] in marks {
          MarkFeedFetched(feeds[i], marks[feeds[i]]);
        }
      }
      assert feeds[..|feeds|] == feeds;
    }

    /** The loop, for as long as the context lives: `rounds` holds for each batch when the
        scrape of each feed would succeed, or None when the query for feeds fails. As long as
        the clock advances and only feeds of `failing` fail, its batches are a run, and with
        enough of them every healthy feed is fetched. */
    method Start(interval: int, concurrency: int, rounds: seq<Option<Marks>>, ghost failing: set<Uuid>)
      returns (ok: bool, ghost run: seq<Marks>)
      requires failing <= rows.Keys && Advancing(rounds)
      requires forall i :: 0 <= i < |rounds| && rounds[i].Some? ==>
                 LaterThan(rows, rounds[i].value) && rows.Keys - failing <= rounds[i].value.Keys
      modifies this
      ensures ok <==> interval > 0 && concurrency > 0
      ensures !ok ==> rows == old(rows)
      ensures ok ==> |run| == Queried(rounds) && IsRun(old(rows), concurrency, failing, run) && rows == AfterRun(old(rows), run)
      ensures ok && |failing| < concurrency && |run| >= CeilDiv(|old(rows)| - |failing|, concurrency - |failing|) ==>
                forall x :: x in old(rows) && x !in failing ==> exists i :: 0 <= i < |run| && x in run[i]
    {
      run := [];
      if interval <= 0 || concurrency <= 0 {
        return false, run;
      }
      for i := 0 to |rounds|
        invariant rows == AfterRun(old(rows), run) && rows.Keys == old(rows).Keys
        invariant IsRun(old(rows), concurrency, failing, run) && |run| == Queried(rounds[..i])
        invariant forall j :: i <= j < |rounds| && rounds[j].Some? ==> LaterThan(rows, rounds[j].value)
      {
        assert rounds[..i + 1][..i] == rounds[..i];
        if rounds[i].Some? {
          ghost var before := rows;
          var feeds := FetchBatch(concurrency, rounds[i].value);
          BatchIsPossible(before, concurrency, failing, rounds[i].value);
          RunGrows(old(rows), concurrency, failing, run, Within(rounds[i].value, feeds));
          StillLater(before, rounds, i, Within(rounds[i].value, feeds));
          run := run + [Within(rounds[i].value, feeds)];
        }
      }
      assert rounds[..|rounds|] == rounds;
      if |failing| < concurrency && |run| >= CeilDiv(|old(rows)| - |failing|, concurrency - |failing|) {
        forall x | x in old(rows) && x !in failing ensures exists i :: 0 <= i < |run| && x in run[i] {
          Fairness(old(rows), concurrency, failing, run, x);
        }
      }
      ok := true;
    }
  }

  // ----- Runs of batches -----

  /** A batch in which only feeds of `failing` may fail, on a clock past every earlier mark. */
  ghost predicate Possible(rows: Table, limit: nat, failing: set<Uuid>, marks: Marks) {
    && (forall id :: id in marks ==> id in Batch(rows, limit))
    && (forall id :: id in Batch(rows, limit) && id !in failing ==> id in marks)
    && (forall id, y :: id in marks && y in rows && rows[y].lastFetchedAt.Some? ==> rows[y].lastFetchedAt.value < marks[id])
  }

  ghost predicate IsRun(rows: Table, limit: nat, failing: set<Uuid>, run: seq<Marks>)
    decreases |run|
  {
    run == [] || (Possible(rows, limit, failing, run[0]) && IsRun(Marked(rows, run[0]), limit, failing, run[1..]))
  }

  /** The table after a run of batches. */
  function AfterRun(rows: Table, run: seq<Marks>): Table
    decreases |run|
  {
    if run == [] then rows else AfterRun(Marked(rows, run[0]), run[1..])
  }

  predicate LaterThan(rows: Table, marks: Marks) {
    forall id, y :: id in marks && y in rows && rows[y].lastFetchedAt.Some? ==> rows[y].lastFetchedAt.value < marks[id]
  }

  predicate AllBefore(a: Marks, b: Marks) {
    forall x, y :: x in a && y in b ==> a[x] < b[y]
  }

  /** Every batch is later than those before it. */
  predicate Advancing(rounds: seq<Option<Marks>>) {
    forall i, j :: 0 <= i < j < |rounds| && rounds[i].Some? && rounds[j].Some? ==> AllBefore(rounds[i].value, rounds[j].value)
  }

  function Queried(rounds: seq<Option<Marks>>): nat {
    if rounds == [] then 0 else Queried(rounds[..|rounds| - 1]) + if rounds[|rounds| - 1].Some? then 1 else 0
  }

  lemma BatchIsPossible(rows: Table, limit: nat, failing: set<Uuid>, marks: Marks)
    requires LaterThan(rows, marks) && rows.Keys - failing <= marks.Keys
    ensures Possible(rows, limit, failing, Within(marks, Batch(rows, limit)))
  {
    hide Query.Select;
    KeysOf(rows);
  }

  lemma StillLater(rows: Table, rounds: seq<Option<Marks>>, i: nat, marks: Marks)
    requires i < |rounds| && rounds[i].Some? && Advancing(rounds)
    requires forall id :: id in marks ==> id in rounds[i].value && marks[id] == rounds[i].value[id]
    requires forall j :: i <= j < |rounds| && rounds[j].Some? ==> LaterThan(rows, rounds[j].value)
    ensures forall j :: i < j < |rounds| && rounds[j].Some? ==> LaterThan(Marked(rows, marks), rounds[j].value)
  {
    forall j | i < j < |rounds| && rounds[j].Some? ensures LaterThan(Marked(rows, marks), rounds[j].value) {
      assert AllBefore(rounds[i].value, rounds[j].value);
    }
  }

  lemma {:induction false} RunGrows(rows: Table, limit: nat, failing: set<Uuid>, run: seq<Marks>, marks: Marks)
    requires IsRun(rows, limit, failing, run) && Possible(AfterRun(rows, run), limit, failing, marks)
    ensures IsRun(rows, limit, failing, run + [marks])
    ensures AfterRun(rows, run + [marks]) == Marked(AfterRun(rows, run), marks)
    decreases |run|
  {
    hide Possible, Marked;
    if run == [] {
      assert ([] + [marks])[0] == marks && ([] + [marks])[1..] == [];
    } else {
      RunGrows(Marked(rows, run[0]), limit, failing, run[1..], marks);
      assert (run + [marks])[0] == run[0] && (run + [marks])[1..] == run[1..] + [marks];
    }
  }

  /** The healthy feeds that come before x. */
  function HealthyAhead(rows: Table, failing: set<Uuid>, x: Uuid): set<Uuid>
    requires x in rows
  {
    Query.Ahead(Keys(rows), x) - failing
  }

  function CeilDiv(a: int, b: int): int
    requires 0 < b
  {
    (a + b - 1) / b
  }

  // ----- Fairness -----

  /** With fewer than `limit` failing feeds, every other feed is fetched within
      ceil((n - f) / (limit - f)) batches, from any table. */
  lemma Fairness(rows: Table, limit: nat, failing: set<Uuid>, run: seq<Marks>, x: Uuid)
    requires IsRun(rows, limit, failing, run) && failing <= rows.Keys && |failing| < limit
    requires x in rows && x !in failing
    requires |run| >= CeilDiv(|rows| - |failing|, limit - |failing|)
    ensures exists i :: 0 <= i < |run| && x in run[i]
  {
    var ahead, healthy := HealthyAhead(rows, failing, x), rows.Keys - failing;
    assert ahead <= healthy - {x};
    Query.Subset(ahead, healthy - {x});
    assert |healthy| == |rows| - |failing|;
    var step := limit - |failing|;
    CeilDivCovers(|rows| - |failing|, step, |run|);
    Reached(rows, limit, failing, run, x);
  }

  lemma CeilDivCovers(a: int, b: int, k: int)
    requires 0 < b && k >= CeilDiv(a, b)
    ensures k * b >= a
  {
    var q := CeilDiv(a, b);
    assert q * b >= a;
    assert (k - q) * b >= 0;
    assert k * b == q * b + (k - q) * b;
  }

  /** Every batch that does not take x takes at least limit - f healthy feeds ahead of it,
      and puts them behind it. */
  lemma {:induction false} Reached(rows: Table, limit: nat, failing: set<Uuid>, run: seq<Marks>, x: Uuid)
    requires IsRun(rows, limit, failing, run) && failing <= rows.Keys && |failing| < limit
    requires x in rows && x !in failing
    requires |HealthyAhead(rows, failing, x)| < |run| * (limit - |failing|)
    ensures exists i :: 0 <= i < |run| && x in run[i]
    decreases |run|
  {
    hide Possible, HealthyAhead, Marked;
    OneLess(|run|, limit - |failing|);
    if x !in run[0] {
      var next := Marked(rows, run[0]);
      NotTaken(rows, limit, failing, run[0], x);
      MarkedKeys(rows, run[0]);
      Reached(next, limit, failing, run[1..], x);
      var i :| 0 <= i < |run[1..]| && x in run[1..][i];
      assert x in run[i + 1];
    }
  }

  lemma OneLess(k: int, step: int)
    ensures k * step == (k - 1) * step + step
  {
  }

  lemma NotTaken(rows: Table, limit: nat, failing: set<Uuid>, marks: Marks, x: Uuid)
    requires Possible(rows, limit, failing, marks) && failing <= rows.Keys && |failing| < limit
    requires x in rows && x !in failing && x !in marks
    ensures |HealthyAhead(Marked(rows, marks), failing, x)| + (limit - |failing|) <= |HealthyAhead(rows, failing, x)|
  {
    hide Query.Select, Query.Before, Keys;
    var ids := Batch(rows, limit);
    var healthy := Elements(ids) - failing;
    TakenWasAhead(rows, limit, failing, x);
    var before, after := HealthyAhead(rows, failing, x), HealthyAhead(Marked(rows, marks), failing, x);
    KeysOf(rows);
    KeysOf(Marked(rows, marks));
    forall y | y in after ensures y in before - healthy {
      Behind(rows, marks, x, y);
    }
    Query.Subset(after, before - healthy);
    assert before == (before - healthy) + healthy;
  }

  /** A batch without x takes `limit` feeds, all from before x. */
  lemma TakenWasAhead(rows: Table, limit: nat, failing: set<Uuid>, x: Uuid)
    requires x in rows && x !in Batch(rows, limit)
    ensures var healthy := Elements(Batch(rows, limit)) - failing;
            healthy <= HealthyAhead(rows, failing, x) && |healthy| >= limit - |failing|
  {
    hide Query.Select, Keys;
    var keys, ids := Keys(rows), Batch(rows, limit);
    assert keys.Keys == rows.Keys by { KeysOf(rows); }
    Query.SelectedIffFewAhead(keys, limit, x);
    AheadSize(keys, x);
    Query.SelectIsTop(keys, limit);
    DistinctSize(ids, keys);
    TakenHealthy(Elements(ids), failing);
    forall y | y in Elements(ids) - failing ensures y in HealthyAhead(rows, failing, x) {
      var i :| 0 <= i < |ids| && ids[i] == y;
      assert Query.Before(keys, ids[i], x);
    }
  }

  lemma MarkedKeys(rows: Table, marks: Marks)
    ensures Marked(rows, marks).Keys == rows.Keys
  {
  }

  lemma KeysOf(rows: Table)
    ensures Keys(rows).Keys == rows.Keys
  {
  }

  /** Only a feed that was ahead and not marked is still ahead. */
  lemma Behind(rows: Table, marks: Marks, x: Uuid, y: Uuid)
    requires x in rows && x !in marks && y in rows
    requires forall id, z :: id in marks && z in rows && rows[z].lastFetchedAt.Some? ==> rows[z].lastFetchedAt.value < marks[id]
    requires Query.Before(Keys(Marked(rows, marks)), y, x)
    ensures y !in marks && Query.Before(Keys(rows), y, x)
  {
  }

  lemma AheadSize(keys: Query.Keys, x: Uuid)
    requires x in keys
    ensures |Query.Ahead(keys, x)| <= |keys|
  {
    Query.Subset(Query.Ahead(keys, x), keys.Keys);
  }

  lemma {:induction false} DistinctSize(ids: seq<Uuid>, keys: Query.Keys)
    requires Query.Ordered(keys, ids)
    ensures |Elements(ids)| == |ids|
    decreases |ids|
  {
    if ids == [] {
      assert Elements(ids) == {};
    } else {
      var last, front := ids[|ids| - 1], ids[..|ids| - 1];
      DistinctSize(front, keys);
      assert ids == front + [last];
      assert Elements(ids) == Elements(front) + {last};
    }
  }

  lemma TakenHealthy(taken: set<Uuid>, failing: set<Uuid>)
    ensures |taken - failing| >= |taken| - |failing|
  {
    assert taken == (taken - failing) + (taken * failing);
    Query.Subset(taken * failing, failing);
  }

  /** Batches in which nothing is marked. */
  function Fruitless(n: nat): (run: seq<Marks>)
    ensures |run| == n
  {
    seq(n, i => map[])
  }

  /** The bound on failing feeds is needed: if as many feeds as a batch holds stand before x
      and keep failing, x is never fetched, however many batches there are. */
  lemma {:induction false} Starvation(rows: Table, limit: nat, x: Uuid, n: nat)
    requires x in rows && limit <= |Query.Ahead(Keys(rows), x)|
    ensures var failing := Query.Ahead(Keys(rows), x);
            failing <= rows.Keys && x !in failing && IsRun(rows, limit, failing, Fruitless(n))
    decreases n
  {
    hide Query.Select;
    if n > 0 {
      var failing := Query.Ahead(Keys(rows), x);
      Query.SelectedIffFewAhead(Keys(rows), limit, x);
      TakenWasAhead(rows, limit, {}, x);
      assert Marked(rows, map[]) == rows;
      forall id | id in Batch(rows, limit) ensures id in failing {
        assert id in Elements(Batch(rows, limit)) - {};
      }
      Starvation(rows, limit, x, n - 1);
      assert Fruitless(n)[1..] == Fruitless(n - 1);
    }
  }
}
