/** The outbox relay: moves committed outbox rows into Kafka, at least once. */
module Relay {
  import opened Types
  import Contract
  import Query
  import Rules

  datatype Source = RequestsSource | DispatchSource

  predicate Eligible(source: Source, row: OutboxRow, now: Time) {
    row.publishedAt.None? && row.availableAt <= now && (source.RequestsSource? ==> row.route.Some?)
  }

  /** `ORDER BY created_at, id` for requests; `ORDER BY available_at, created_at, id` for dispatch. */
  function SortColumns(source: Source, row: OutboxRow): (int, int) {
    match source
    case RequestsSource => (row.createdAt, 0)
    case DispatchSource => (row.availableAt, row.createdAt)
  }

  /** The rows the selection may return; rows locked by another relay are skipped. */
  function Candidates(source: Source, rows: Outbox, locked: set<Uuid>, now: Time): Query.Keys {
    map id | id in rows && id !in locked && Eligible(source, rows[id], now) :: SortColumns(source, rows[id])
  }

  function RecordOf(id: Uuid, row: OutboxRow): Record {
    Record(row.key, Contract.WireHeaders(id, row.eventType, row.version), row.payload)
  }

  /** How one publication ended: whether Kafka appended the record, whether it acknowledged
      it in time, and whether the transaction committed. A record can be appended without
      an acknowledgement, and acknowledged without a commit. */
  datatype Outcome = Outcome(appended: bool, acked: bool, committed: bool) {
    predicate Possible() { acked ==> appended }
  }

  const DELIVERED := Outcome(true, true, true)

  function BackoffTime(attempts: nat): Time {
    Pow2(Min(attempts, 6)) * SECOND
  }

  function Marked(row: OutboxRow, now: Time): OutboxRow {
    row.(publishedAt := Some(now), attempts := row.attempts + 1)
  }

  function Postponed(row: OutboxRow, now: Time): OutboxRow {
    row.(availableAt := now + BackoffTime(row.attempts), attempts := row.attempts + 1)
  }

  /** What one publication of row id does to the table. */
  function Settle(rows: Outbox, id: Uuid, now: Time, o: Outcome): Outbox
    requires id in rows
  {
    if !o.committed then rows
    else rows[id := if o.acked then Marked(rows[id], now) else Postponed(rows[id], now)]
  }

  function AppendedIf(log: Log, p: Part, r: Record, appended: bool): Log {
    if appended then Appended(log, p, r) else log
  }

  /** An outbox table. */
  class Table {
    var rows: Outbox

    constructor ()
      ensures rows == map[]
    {
      rows := map[];
    }
  }

  /** The Kafka cluster: append-only partitions and the group's committed offsets. */
  class Broker {
    var log: Log
    var committed: map<Part, nat>

    constructor ()
      ensures log == map[] && committed == map[]
    {
      log, committed := map[], map[];
    }

    method Publish(p: Part, record: Record, o: Outcome) returns (ok: bool)
      requires o.Possible()
      modifies this`log
      ensures log == AppendedIf(old(log), p, record, o.appended)
      ensures ok == o.acked
    {
      if o.appended {
        log := Appended(log, p, record);
      }
      ok := o.acked;
    }

    /** Confirms every record of the partition below `offset`. */
    method Commit(p: Part, offset: nat)
      modifies this`committed
      ensures committed == old(committed)[p := offset]
    {
      committed := committed[p := offset];
    }
  }

  datatype Report = Idle | InvalidPayload | PublishFailed | CommitFailed | Published

  class Publisher {
    const table: Table
    const broker: Broker
    const source: Source

    constructor (table: Table, broker: Broker, source: Source)
      ensures this.table == table && this.broker == broker && this.source == source
    {
      this.table, this.broker, this.source := table, broker, source;
    }

    /** Publishes the first eligible row, before marking it. `partitioner` is the producer's
        choice of partition by key and `o` how the publication goes. */
    method PublishOne(now: Time, locked: set<Uuid>, partitioner: Text -> nat, o: Outcome) returns (report: Report)
      requires o.Possible()
      requires forall id :: id in table.rows && source.DispatchSource? ==> table.rows[id].route.Some?
      modifies table, broker`log
      ensures var keys := Candidates(source, old(table.rows), locked, now);
              report == Idle <==> keys == map[]
      ensures var keys := Candidates(source, old(table.rows), locked, now);
              keys != map[] ==>
                var id := Query.First(keys);
                var row := old(table.rows)[id];
                if row.payload.NotJson? then
                  report == InvalidPayload && table.rows == old(table.rows) && broker.log == old(broker.log)
                else
                  && table.rows == Settle(old(table.rows), id, now, o)
                  && broker.log == AppendedIf(old(broker.log), Target(row, partitioner), RecordOf(id, row), o.appended)
                  && (report == Published <==> o.acked && o.committed)
      ensures report == Idle ==> table.rows == old(table.rows) && broker.log == old(broker.log)
      ensures report == Idle <==> Rules.NoneToPublish(source.RequestsSource?, old(table.rows), locked, now)
      ensures report != Idle ==>
                exists id :: Rules.IsNext(source.RequestsSource?, old(table.rows), locked, now, id)
                             && RelaysRow(source, old(table.rows), old(broker.log), table.rows, broker.log, id, now, partitioner, o, report)
    {
      hide Rules.IsNext, Rules.NoneToPublish, Query.IsFirst, Rules.LogGrew;
      var keys := Candidates(source, table.rows, locked, now);
      NoneIsEmpty(source, table.rows, locked, now);
      if keys == map[] {
        return Idle;
      }
      var id := Query.First(keys);
      Query.FirstIn(keys);
      NextIsFirst(source, table.rows, locked, now);
      AppendGrows(broker.log, table.rows, id, partitioner, o.appended);
      var row := table.rows[id];
      if row.payload.NotJson? {
        return InvalidPayload;
      }
      var ok := broker.Publish(Target(row, partitioner), RecordOf(id, row), o);
      if !ok {
        if !o.committed {
          return CommitFailed;
        }
        BackoffIs(row.attempts);
        table.rows := table.rows[id := Postponed(row, now)];
        return PublishFailed;
      }
      if !o.committed {
        return CommitFailed;
      }
      table.rows := table.rows[id := Marked(row, now)];
      return Published;
    }

    /** The busy phase of `Run`: publishes without a pause for as long as something is
        published. With a working broker and a fixed clock it ends, and by then every
        eligible row has been published exactly once, in the declared order. */
    method RunUntilIdle(now: Time, locked: set<Uuid>, partitioner: Text -> nat)
      requires forall id :: id in table.rows ==>
                 !table.rows[id].payload.NotJson? && (source.DispatchSource? ==> table.rows[id].route.Some?)
      modifies table, broker`log
      ensures var ids := Listing(source, old(table.rows), locked, now);
              && table.rows == MarkedAll(old(table.rows), ids, now)
              && broker.log == AppendedAll(old(broker.log), old(table.rows), ids, partitioner)
    {
      ghost var rows0, log0 := table.rows, broker.log;
      ghost var ids := Listing(source, rows0, locked, now);
      ghost var n := 0;
      assert Drained(rows0, log0, locked, now, partitioner, 0) by {
        assert ids[..0] == [];
        assert MarkedAll(rows0, [], now) == rows0;
      }
      var busy := true;
      while busy
        invariant n <= |ids| && Drained(rows0, log0, locked, now, partitioner, n)
        invariant !busy ==> n == |ids|
        decreases |ids| - n, busy
      {
        busy := PublishNext(now, locked, partitioner, rows0, log0, n);
        n := if busy then n + 1 else n;
      }
      assert ids[..n] == ids;
    }

    /** The first n rows of the listing taken from rows0 have been published, and nothing else. */
    ghost predicate Drained(rows0: Outbox, log0: Log, locked: set<Uuid>, now: Time, partitioner: Text -> nat, n: nat)
      requires forall id :: id in rows0 && source.DispatchSource? ==> rows0[id].route.Some?
      requires n <= |Listing(source, rows0, locked, now)|
      reads table, broker
    {
      var done := Listing(source, rows0, locked, now)[..n];
      table.rows == MarkedAll(rows0, done, now) && broker.log == AppendedAll(log0, rows0, done, partitioner)
    }

    /** One round of the busy phase. */
    method PublishNext(now: Time, locked: set<Uuid>, partitioner: Text -> nat, ghost rows0: Outbox, ghost log0: Log, ghost n: nat)
      returns (busy: bool)
      requires forall id :: id in rows0 ==>
                 !rows0[id].payload.NotJson? && (source.DispatchSource? ==> rows0[id].route.Some?)
      requires n <= |Listing(source, rows0, locked, now)| && Drained(rows0, log0, locked, now, partitioner, n)
      modifies table, broker`log
      ensures busy <==> n < |Listing(source, rows0, locked, now)|
      ensures Drained(rows0, log0, locked, now, partitioner, if busy then n + 1 else n)
    {
      Progress(source, rows0, log0, locked, now, n, partitioner);
      var report := PublishOne(now, locked, partitioner, DELIVERED);
      busy := report == Published;
    }
  }

  /** What one publication of row id comes to. */
  ghost predicate RelaysRow(
    source: Source, before: Outbox, log: Log, after: Outbox, log2: Log, id: Uuid, now: Time, partitioner: Text -> nat,
    o: Outcome, report: Report)
  {
    && id in before
    && var row := before[id];
       if row.payload.NotJson? then report == InvalidPayload && after == before && log2 == log
       else
         && row.route.Some?
         && after == before[id := Rules.Relayed(row, o.acked, o.committed, now)]
         && Rules.LogGrew(log, log2, Part(row.route.value, partitioner(row.key)), Rules.Wire(id, row), o.appended)
         && (report == Published <==> o.acked && o.committed)
  }

  lemma NoneIsEmpty(source: Source, rows: Outbox, locked: set<Uuid>, now: Time)
    ensures Candidates(source, rows, locked, now) == map[] <==> Rules.NoneToPublish(source.RequestsSource?, rows, locked, now)
  {
    var keys := Candidates(source, rows, locked, now);
    if keys == map[] {
      forall id | id in rows && id !in locked ensures !Rules.CanPublish(source.RequestsSource?, rows[id], now) {
        assert id !in keys;
      }
    } else {
      var id :| id in keys;
      assert Rules.CanPublish(source.RequestsSource?, rows[id], now);
    }
  }

  lemma NextIsFirst(source: Source, rows: Outbox, locked: set<Uuid>, now: Time)
    requires Candidates(source, rows, locked, now) != map[]
    ensures Rules.IsNext(source.RequestsSource?, rows, locked, now, Query.First(Candidates(source, rows, locked, now)))
  {
    var keys := Candidates(source, rows, locked, now);
    var id := Query.First(keys);
    forall x | x in rows && x !in locked && x != id && Rules.CanPublish(source.RequestsSource?, rows[x], now)
      ensures Rules.PublishedSooner(source.RequestsSource?, rows, id, x)
    {
      assert x in keys && Query.Before(keys, id, x);
    }
  }

  lemma AppendGrows(log: Log, rows: Outbox, id: Uuid, partitioner: Text -> nat, appended: bool)
    requires id in rows && rows[id].route.Some?
    ensures RecordOf(id, rows[id]) == Rules.Wire(id, rows[id])
    ensures Rules.LogGrew(log, AppendedIf(log, Target(rows[id], partitioner), RecordOf(id, rows[id]), appended),
                          Target(rows[id], partitioner), Rules.Wire(id, rows[id]), appended)
  {
  }

  /** A row that could not be published is left alone for 2^n seconds, at most 64. */
  lemma BackoffHolds(source: Source, rows: Outbox, id: Uuid, now: Time, o: Outcome, later: Time)
    requires id in rows && o.committed && !o.acked && later < now + Rules.Backoff(rows[id].attempts)
    ensures !Eligible(source, Settle(rows, id, now, o)[id], later)
  {
    BackoffIs(rows[id].attempts);
  }

  lemma BackoffIs(n: nat)
    ensures BackoffTime(n) == Rules.Backoff(n)
  {
    assert Pow2(6) == 2 * Pow2(5) && Pow2(5) == 2 * Pow2(4) && Pow2(4) == 2 * Pow2(3)
        && Pow2(3) == 2 * Pow2(2) && Pow2(2) == 2 * Pow2(1) && Pow2(1) == 2 * Pow2(0);
  }

  function Target(row: OutboxRow, partitioner: Text -> nat): Part
    requires row.route.Some?
  {
    Part(row.route.value, partitioner(row.key))
  }

  // ----- The drain, on values -----

  /** Every eligible row, in the declared order. */
  function Listing(source: Source, rows: Outbox, locked: set<Uuid>, now: Time): (ids: seq<Uuid>)
    ensures forall i :: 0 <= i < |ids| ==> ids[i] in rows && ids[i] !in locked && Eligible(source, rows[ids[i]], now)
  {
    var keys := Candidates(source, rows, locked, now);
    Query.Select(keys, |keys|)
  }

  /** The listing is exactly the eligible rows, each once, sorted by the declared columns. */
  lemma ListingIsExact(source: Source, rows: Outbox, locked: set<Uuid>, now: Time)
    ensures var ids := Listing(source, rows, locked, now);
            && (forall id :: id in ids <==> id in rows && id !in locked && Eligible(source, rows[id], now))
            && (forall i, j :: 0 <= i < j < |ids| ==> ids[i] != ids[j])
            && Query.Ordered(Candidates(source, rows, locked, now), ids)
  {
    var keys := Candidates(source, rows, locked, now);
    Query.SelectAll(keys);
    Query.SelectIsTop(keys, |keys|);
    assert forall id :: id in keys <==> id in rows && id !in locked && Eligible(source, rows[id], now);
  }

  /** The table with the listed rows published, each once. */
  function MarkedAll(rows: Outbox, ids: seq<Uuid>, now: Time): Outbox {
    map id | id in rows :: if id in ids then Marked(rows[id], now) else rows[id]
  }

  /** The log with one record for each listed row, in that order. */
  function AppendedAll(log: Log, rows: Outbox, ids: seq<Uuid>, partitioner: Text -> nat): Log
    requires forall id :: id in ids ==> id in rows && rows[id].route.Some?
  {
    if ids == [] then log
    else
      var id := ids[|ids| - 1];
      Appended(AppendedAll(log, rows, ids[..|ids| - 1], partitioner), Target(rows[id], partitioner), RecordOf(id, rows[id]))
  }

  lemma NextMarked(rows: Outbox, ids: seq<Uuid>, n: nat, now: Time)
    requires n < |ids| && ids[n] in rows && ids[n] !in ids[..n]
    ensures var before := MarkedAll(rows, ids[..n], now);
            before[ids[n]] == rows[ids[n]] && Settle(before, ids[n], now, DELIVERED) == MarkedAll(rows, ids[..n + 1], now)
  {
    assert ids[..n + 1] == ids[..n] + [ids[n]];
  }

  lemma NextAppended(log: Log, rows: Outbox, ids: seq<Uuid>, n: nat, partitioner: Text -> nat)
    requires n < |ids| && forall id :: id in ids ==> id in rows && rows[id].route.Some?
    ensures AppendedAll(log, rows, ids[..n + 1], partitioner) ==
            Appended(AppendedAll(log, rows, ids[..n], partitioner), Target(rows[ids[n]], partitioner), RecordOf(ids[n], rows[ids[n]]))
  {
    assert ids[..n + 1][..n] == ids[..n] && ids[..n + 1][n] == ids[n];
  }

  /** After the first n rows of the listing, the candidates are the rest of it. */
  lemma RemainingCandidates(source: Source, rows: Outbox, locked: set<Uuid>, now: Time, n: nat)
    requires n <= |Listing(source, rows, locked, now)|
    ensures var ids := Listing(source, rows, locked, now);
            var rest := Candidates(source, MarkedAll(rows, ids[..n], now), locked, now);
            && (rest == map[] <==> n == |ids|)
            && (n < |ids| ==> rest != map[] && Query.First(rest) == ids[n] && ids[n] !in ids[..n])
  {
    var keys := Candidates(source, rows, locked, now);
    var ids := Query.Select(keys, |keys|);
    var rest := Candidates(source, MarkedAll(rows, ids[..n], now), locked, now);
    assert rest == keys - Elements(ids[..n]);
    Query.SelectAll(keys);
    if n < |ids| {
      Query.SelectNth(keys, |keys|, n);
    } else {
      assert ids[..n] == ids;
    }
  }

  /** One more publication extends the drained prefix of the listing by one row. */
  lemma Progress(source: Source, rows: Outbox, log: Log, locked: set<Uuid>, now: Time, n: nat, partitioner: Text -> nat)
    requires n <= |Listing(source, rows, locked, now)|
    requires forall id :: id in rows && source.DispatchSource? ==> rows[id].route.Some?
    ensures var ids := Listing(source, rows, locked, now);
            var before := MarkedAll(rows, ids[..n], now);
            var rest := Candidates(source, before, locked, now);
            && (rest == map[] <==> n == |ids|)
            && (n < |ids| ==>
                  && rest != map[] && Query.First(rest) == ids[n] && before[ids[n]] == rows[ids[n]]
                  && Settle(before, ids[n], now, DELIVERED) == MarkedAll(rows, ids[..n + 1], now)
                  && AppendedAll(log, rows, ids[..n + 1], partitioner) ==
                     Appended(AppendedAll(log, rows, ids[..n], partitioner),
                              Target(rows[ids[n]], partitioner), RecordOf(ids[n], rows[ids[n]])))
  {
    RemainingCandidates(source, rows, locked, now, n);
    var ids := Listing(source, rows, locked, now);
    if n < |ids| {
      NextMarked(rows, ids, n, now);
      NextAppended(log, rows, ids, n, partitioner);
    }
  }

  // ----- What publication keeps -----

  /** A failed publication waits 2^min(n, 6) seconds, at most 64. */
  lemma BackoffCapped(n: nat)
    ensures BackoffTime(n) == if n >= 6 then 64 * SECOND else Pow2(n) * SECOND
  {
    assert Pow2(6) == 2 * Pow2(5) && Pow2(5) == 2 * Pow2(4) && Pow2(4) == 2 * Pow2(3)
        && Pow2(3) == 2 * Pow2(2) && Pow2(2) == 2 * Pow2(1);
  }

  /** One publication of a selected row: it never becomes available earlier, what it says
      never changes, a marked row is in the log and is never selected again. */
  lemma SettleKeeps(source: Source, rows: Outbox, id: Uuid, log: Log, p: Part, now: Time, o: Outcome)
    requires o.Possible() && id in rows && Eligible(source, rows[id], now)
    ensures var after := Settle(rows, id, now, o);
            && after.Keys == rows.Keys
            && (forall x :: x in rows && x != id ==> after[x] == rows[x])
            && after[id] == rows[id].(availableAt := after[id].availableAt, attempts := after[id].attempts,
                                      publishedAt := after[id].publishedAt)
            && rows[id].availableAt <= after[id].availableAt
            && RecordOf(id, after[id]) == RecordOf(id, rows[id])
            && Origins(after) == Origins(rows)
            && (after[id].publishedAt.Some? ==>
                  && !Eligible(source, after[id], now)
                  && var tail := LogAt(AppendedIf(log, p, RecordOf(id, rows[id]), o.appended), p);
                     tail == LogAt(log, p) + [RecordOf(id, after[id])])
  {
    var after := Settle(rows, id, now, o);
    forall x ensures x in Origins(after) <==> x in Origins(rows) {
      if x in Origins(rows) {
        var y :| y in rows && rows[y].origin == x;
        assert after[y].origin == x;
      }
      if x in Origins(after) {
        var y :| y in after && after[y].origin == x;
        assert rows[y].origin == x;
      }
    }
  }
}
