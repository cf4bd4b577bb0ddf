/** The repository of the notification database: its transactions, on tables updated in place. */
module Postgres {
  import opened Types
  import opened Store
  import Query
  import Relay
  import Rules

  /** `claimed`: the rows of ids claimed one after another. */
  function ClaimAll(db: Db, ids: seq<Uuid>, tokens: Uuid -> Uuid, lease: Time): Db
    requires forall i :: 0 <= i < |ids| ==> ids[i] in db.deliveries
    decreases |ids|
  {
    if ids == [] then db else ClaimAll(ClaimOne(db, ids[0], tokens(ids[0]), lease), ids[1..], tokens, lease)
  }

  /** The recovery loop. */
  function RecoverAll(db: Db, ids: seq<Uuid>, maxAttempts: int, rowIds: Uuid -> Uuid, now: Time): Db
    requires forall i :: 0 <= i < |ids| ==> ids[i] in db.deliveries
    decreases |ids|
  {
    if ids == [] then db
    else RecoverAll(RecoverOne(db, ids[0], maxAttempts, rowIds(ids[0]), now), ids[1..], maxAttempts, rowIds, now)
  }

  function LeaseEnd(now: Time, lease: int): Time {
    now + (lease / MILLISECOND) * MILLISECOND
  }

  ghost predicate Distinct(ids: seq<Uuid>) {
    forall i, j :: 0 <= i < j < |ids| ==> ids[i] != ids[j]
  }

  /** Claiming distinct rows one by one is the one UPDATE that claims them all. */
  lemma {:induction false} ClaimAllAt(db: Db, ids: seq<Uuid>, tokens: Uuid -> Uuid, lease: Time)
    requires Distinct(ids) && forall i :: 0 <= i < |ids| ==> ids[i] in db.deliveries
    ensures ClaimAll(db, ids, tokens, lease) ==
            db.(deliveries := map id | id in db.deliveries ::
                  if id in ids then Claimed(db.deliveries[id], tokens(id), lease) else db.deliveries[id])
    decreases |ids|
  {
    if ids == [] {
      assert db.deliveries == map id | id in db.deliveries :: db.deliveries[id];
    } else {
      var next := ClaimOne(db, ids[0], tokens(ids[0]), lease);
      ClaimAllAt(next, ids[1..], tokens, lease);
      assert forall id :: id in ids <==> id == ids[0] || id in ids[1..];
    }
  }

  lemma {:induction false} RecoverAllSnoc(db: Db, ids: seq<Uuid>, n: nat, maxAttempts: int, rowIds: Uuid -> Uuid, now: Time)
    requires n < |ids| && forall i :: 0 <= i < |ids| ==> ids[i] in db.deliveries
    ensures ids[n] in RecoverAll(db, ids[..n], maxAttempts, rowIds, now).deliveries
    ensures RecoverAll(db, ids[..n + 1], maxAttempts, rowIds, now) ==
            RecoverOne(RecoverAll(db, ids[..n], maxAttempts, rowIds, now), ids[n], maxAttempts, rowIds(ids[n]), now)
    decreases n
  {
    hide RecoverOne;
    if n == 0 {
      assert ids[..1] == [ids[0]] && ids[..1][1..] == [];
    } else {
      RecoverKeepsKeys(db, ids[0], maxAttempts, rowIds(ids[0]), now);
      var next := RecoverOne(db, ids[0], maxAttempts, rowIds(ids[0]), now);
      RecoverAllSnoc(next, ids[1..], n - 1, maxAttempts, rowIds, now);
      assert ids[..n][1..] == ids[1..][..n - 1] && ids[..n + 1][1..] == ids[1..][..n];
    }
  }

  lemma RecoverKeepsKeys(db: Db, id: Uuid, maxAttempts: int, row: Uuid, now: Time)
    requires id in db.deliveries
    ensures RecoverOne(db, id, maxAttempts, row, now).deliveries.Keys == db.deliveries.Keys
    ensures RecoverOne(db, id, maxAttempts, row, now).channels == db.channels
    ensures forall x :: x in db.deliveries && x != id ==>
              RecoverOne(db, id, maxAttempts, row, now).deliveries[x] == db.deliveries[x]
  {
    hide Insert, DispatchRow;
  }

  /** Exactly one row was added for the channel of d, and it is d. */
  ghost predicate OneNew(before: map<Uuid, Delivery>, after: map<Uuid, Delivery>, d: Delivery) {
    exists id :: IsOnlyNew(before, after, id, d)
  }

  predicate IsOnlyNew(before: map<Uuid, Delivery>, after: map<Uuid, Delivery>, id: Uuid, d: Delivery) {
    && id in after && id !in before && after[id] == d
    && forall x :: x in after && x !in before && after[x].channel == d.channel ==> x == id
  }

  lemma AcceptedOnce(before: map<Uuid, Delivery>, event: Uuid, user: Uuid, ids: map<Uuid, Uuid>, targets: set<Uuid>, now: Time)
    requires Assigns(ids, targets)
    ensures var after := before + map i | i in ids :: NewDelivery(event, user, ids[i], now);
            ids.Keys !! before.Keys ==>
              forall c :: c in targets ==>
                OneNew(before, after, Delivery(event, user, c, Pending, 0, now, None, None, None, None, now))
  {
    var after := before + map i | i in ids :: NewDelivery(event, user, ids[i], now);
    if ids.Keys !! before.Keys {
      forall c | c in targets ensures OneNew(before, after, NewDelivery(event, user, c, now)) {
        var id :| id in ids && ids[id] == c;
        assert IsOnlyNew(before, after, id, NewDelivery(event, user, c, now));
      }
    }
  }

  // ----- Which rows a statement selects -----

  function ClaimedSet(db: Db, types: set<ChannelType>, locked: set<Uuid>, limit: int, now: Time): set<Uuid> {
    set id | id in db.deliveries && Rules.IsClaimed(db.channels, db.deliveries, types, locked, limit, now, id)
  }

  lemma ClaimSelects(db: Db, types: set<ChannelType>, locked: set<Uuid>, limit: nat, now: Time)
    ensures var ids := Query.Select(ClaimKeys(db, types, locked, now), limit);
            && (forall id :: id in ids <==> Rules.IsClaimed(db.channels, db.deliveries, types, locked, limit, now, id))
            && ClaimedSet(db, types, locked, limit, now) == Elements(ids)
            && |ids| == |ClaimedSet(db, types, locked, limit, now)|
  {
    hide Query.Select;
    var keys := ClaimKeys(db, types, locked, now);
    var ids := Query.Select(keys, limit);
    forall id ensures id in ids <==> Rules.IsClaimed(db.channels, db.deliveries, types, locked, limit, now, id) {
      if id in keys {
        Query.SelectedIffFewAhead(keys, limit, id);
        assert Query.Ahead(keys, id) == Rules.ClaimQueue(db.channels, db.deliveries, types, locked, now, id);
      }
    }
    SelectedDistinct(keys, limit);
    ElementsSize(ids);
  }

  lemma {:induction false} ElementsSize(ids: seq<Uuid>)
    requires Distinct(ids)
    ensures |Elements(ids)| == |ids|
    decreases |ids|
  {
    if ids == [] {
      assert Elements(ids) == {};
    } else {
      ElementsSize(ids[1..]);
      assert ids == [ids[0]] + ids[1..];
      assert Elements(ids) == {ids[0]} + Elements(ids[1..]);
    }
  }

  lemma ClaimTakes(db: Db, types: set<ChannelType>, locked: set<Uuid>, limit: nat, now: Time, tokens: Uuid -> Uuid, lease: int)
    requires lease > 0
    ensures var ids := Query.Select(ClaimKeys(db, types, locked, now), limit);
            Rules.AllTaken(db.channels, db.deliveries, ClaimAll(db, ids, tokens, LeaseEnd(now, lease)).deliveries,
                           types, locked, limit, now, tokens, lease)
  {
    var ids := Query.Select(ClaimKeys(db, types, locked, now), limit);
    SelectedDistinct(ClaimKeys(db, types, locked, now), limit);
    ClaimSelects(db, types, locked, limit, now);
    ClaimAllAt(db, ids, tokens, LeaseEnd(now, lease));
    WholeMilliseconds(now, lease);
    hide Query.Select, ClaimAll, ClaimKeys, Rules.IsClaimed, LeaseEnd;
  }

  lemma WholeMilliseconds(now: Time, lease: int)
    requires lease > 0
    ensures LeaseEnd(now, lease) == now + lease - lease % 1_000_000
  {
  }

  lemma ClaimHands(
    db: Db, types: set<ChannelType>, locked: set<Uuid>, limit: nat, now: Time, tokens: Uuid -> Uuid, lease: int, tasks: seq<Task>)
    requires lease > 0
    requires var ids := Query.Select(ClaimKeys(db, types, locked, now), limit);
             && |tasks| == |ids|
             && forall i :: 0 <= i < |ids| ==>
                  IsTaskOf(ClaimAll(db, ids, tokens, LeaseEnd(now, lease)), ids[i], tokens(ids[i]), tasks[i])
    ensures Rules.AllHanded(db.channels, db.inbox, db.deliveries, types, locked, limit, now, tokens, tasks)
  {
    var ids := Query.Select(ClaimKeys(db, types, locked, now), limit);
    var after := ClaimAll(db, ids, tokens, LeaseEnd(now, lease));
    SelectedDistinct(ClaimKeys(db, types, locked, now), limit);
    ClaimSelects(db, types, locked, limit, now);
    ClaimAllAt(db, ids, tokens, LeaseEnd(now, lease));
    ClaimTakes(db, types, locked, limit, now, tokens, lease);
    hide Query.Select, ClaimAll, ClaimKeys, Rules.IsClaimed, LeaseEnd;
    forall task ensures task in tasks <==>
      Rules.IsHanded(db.channels, db.inbox, db.deliveries, types, locked, limit, now, tokens, task)
    {
      if task in tasks {
        var i :| 0 <= i < |tasks| && tasks[i] == task;
        assert IsTaskOf(after, ids[i], tokens(ids[i]), task) && ids[i] in ids;
      }
      if Rules.IsHanded(db.channels, db.inbox, db.deliveries, types, locked, limit, now, tokens, task) {
        var i :| 0 <= i < |ids| && ids[i] == task.id;
        assert IsTaskOf(after, ids[i], tokens(ids[i]), tasks[i]);
      }
    }
  }

  predicate IsTaskOf(db: Db, id: Uuid, token: Uuid, task: Task) {
    && id in db.deliveries && db.deliveries[id].channel in db.channels && db.deliveries[id].event in db.inbox
    && db.inbox[db.deliveries[id].event].payload.RequestedJson?
    && task == TaskOf(db, id, token)
  }

  lemma RecoverySelects(db: Db, locked: set<Uuid>, limit: nat, now: Time)
    ensures var ids := Query.Select(RecoveryKeys(db, locked, now), limit);
            && Distinct(ids)
            && (forall id :: id in ids <==> Rules.IsRecovered(db.deliveries, locked, limit, now, id))
            && |ids| == |set id | id in db.deliveries && Rules.IsRecovered(db.deliveries, locked, limit, now, id)|
  {
    hide Query.Select;
    var keys := RecoveryKeys(db, locked, now);
    var ids := Query.Select(keys, limit);
    forall id ensures id in ids <==> Rules.IsRecovered(db.deliveries, locked, limit, now, id) {
      if id in keys {
        Query.SelectedIffFewAhead(keys, limit, id);
        assert Query.Ahead(keys, id) == Rules.RecoveryQueue(db.deliveries, locked, now, id);
      }
    }
    SelectedDistinct(keys, limit);
    ElementsSize(ids);
    assert (set id | id in db.deliveries && Rules.IsRecovered(db.deliveries, locked, limit, now, id)) == Elements(ids);
  }

  /** The generated row ids are new, and no two alike. */
  ghost predicate NewRows(rows: Outbox, deliveries: map<Uuid, Delivery>, rowIds: Uuid -> Uuid) {
    && (forall id :: id in deliveries ==> rowIds(id) !in rows)
    && (forall x, y :: x in deliveries && y in deliveries && rowIds(x) == rowIds(y) ==> x == y)
  }

  lemma NothingRecovered(db: Db, ids: seq<Uuid>, maxAttempts: int, rowIds: Uuid -> Uuid, now: Time)
    ensures RecoverAll(db, ids[..0], maxAttempts, rowIds, now) == db
  {
  }

  lemma OneBack(db: Db, id: Uuid, maxAttempts: int, row: Uuid, now: Time)
    requires id in db.deliveries
    ensures var after := RecoverOne(db, id, maxAttempts, row, now);
            var d := db.deliveries[id];
            && after.channels == db.channels && after.inbox == db.inbox
            && after.deliveries == db.deliveries[id := Rules.Back(db.channels, d, maxAttempts, now)]
            && if Rules.GivenUp(db.channels, d, maxAttempts)
               then Rules.Inserted(db.dispatch, after.dispatch, row, Rules.DeadRow(id, d.event, d.user, d.attempts, "lease_expired", now))
               else after.dispatch == db.dispatch
  {
  }

  /** The deliveries among ids that are given up. */
  function GivenUpOf(db: Db, ids: seq<Uuid>, maxAttempts: int): set<Uuid> {
    set id | id in ids && id in db.deliveries && Rules.GivenUp(db.channels, db.deliveries[id], maxAttempts)
  }

  lemma {:induction false} AllBackAt(db: Db, ids: seq<Uuid>, maxAttempts: int, rowIds: Uuid -> Uuid, now: Time)
    requires Distinct(ids) && forall i :: 0 <= i < |ids| ==> ids[i] in db.deliveries
    ensures RecoverAll(db, ids, maxAttempts, rowIds, now).deliveries ==
            map id | id in db.deliveries ::
              if id in ids then Rules.Back(db.channels, db.deliveries[id], maxAttempts, now) else db.deliveries[id]
    decreases |ids|
  {
    hide RecoverOne, Rules.Back, Rules.Inserted;
    if ids == [] {
      assert db.deliveries == map id | id in db.deliveries :: db.deliveries[id];
    } else {
      OneBack(db, ids[0], maxAttempts, rowIds(ids[0]), now);
      AllBackAt(RecoverOne(db, ids[0], maxAttempts, rowIds(ids[0]), now), ids[1..], maxAttempts, rowIds, now);
      assert forall id :: id in ids <==> id == ids[0] || id in ids[1..];
    }
  }

  lemma {:induction false} DeadLettersOf(db: Db, ids: seq<Uuid>, maxAttempts: int, rowIds: Uuid -> Uuid, now: Time)
    requires Distinct(ids) && forall i :: 0 <= i < |ids| ==> ids[i] in db.deliveries
    requires forall i :: 0 <= i < |ids| ==> rowIds(ids[i]) !in db.dispatch
    requires forall i, j :: 0 <= i < j < |ids| ==> rowIds(ids[i]) != rowIds(ids[j])
    ensures Rules.DeadLettered(db.deliveries, GivenUpOf(db, ids, maxAttempts), rowIds, now,
                               db.dispatch, RecoverAll(db, ids, maxAttempts, rowIds, now).dispatch)
    decreases |ids|
  {
    hide RecoverOne, Rules.Back, Rules.DeadLettered, Rules.GivenUp, GivenUpOf;
    if ids == [] {
      NoDeadLetters(db, maxAttempts, rowIds, now);
    } else {
      var id := ids[0];
      var next := RecoverOne(db, id, maxAttempts, rowIds(id), now);
      OneBack(db, id, maxAttempts, rowIds(id), now);
      InsertedKeys(db, next, id, maxAttempts, rowIds, now);
      DeadLettersOf(next, ids[1..], maxAttempts, rowIds, now);
      OneMoreDeadLetter(db, next, RecoverAll(db, ids, maxAttempts, rowIds, now).dispatch, ids, maxAttempts, rowIds, now);
    }
  }

  lemma NoDeadLetters(db: Db, maxAttempts: int, rowIds: Uuid -> Uuid, now: Time)
    ensures Rules.DeadLettered(db.deliveries, GivenUpOf(db, [], maxAttempts), rowIds, now, db.dispatch, db.dispatch)
  {
  }

  lemma InsertedKeys(db: Db, next: Db, id: Uuid, maxAttempts: int, rowIds: Uuid -> Uuid, now: Time)
    requires id in db.deliveries && next == RecoverOne(db, id, maxAttempts, rowIds(id), now)
    ensures next.dispatch.Keys <= db.dispatch.Keys + {rowIds(id)}
  {
    OneBack(db, id, maxAttempts, rowIds(id), now);
    hide RecoverOne;
  }

  lemma OneMoreDeadLetter(
    db: Db, next: Db, after: Outbox, ids: seq<Uuid>, maxAttempts: int, rowIds: Uuid -> Uuid, now: Time)
    requires ids != [] && Distinct(ids) && (forall i :: 0 <= i < |ids| ==> ids[i] in db.deliveries) && rowIds(ids[0]) !in db.dispatch
    requires next == RecoverOne(db, ids[0], maxAttempts, rowIds(ids[0]), now)
    requires Rules.DeadLettered(next.deliveries, GivenUpOf(next, ids[1..], maxAttempts), rowIds, now, next.dispatch, after)
    ensures Rules.DeadLettered(db.deliveries, GivenUpOf(db, ids, maxAttempts), rowIds, now, db.dispatch, after)
  {
    var id := ids[0];
    var lost := Rules.GivenUp(db.channels, db.deliveries[id], maxAttempts);
    OneBack(db, id, maxAttempts, rowIds(id), now);
    OneDeadLetter(db, next.dispatch, id, rowIds, now, lost);
    GivenUpFirst(db, next, ids, maxAttempts);
    DeadLettersJoin(
      db.deliveries, next.deliveries, id, lost, GivenUpOf(next, ids[1..], maxAttempts), rowIds, now, db.dispatch, next.dispatch, after);
  }

  lemma GivenUpFirst(db: Db, next: Db, ids: seq<Uuid>, maxAttempts: int)
    requires ids != [] && Distinct(ids) && (forall i :: 0 <= i < |ids| ==> ids[i] in db.deliveries)
    requires next.channels == db.channels && next.deliveries.Keys == db.deliveries.Keys
    requires forall x :: x in db.deliveries && x != ids[0] ==> next.deliveries[x] == db.deliveries[x]
    ensures GivenUpOf(db, ids, maxAttempts) ==
            GivenUpOf(next, ids[1..], maxAttempts) + if Rules.GivenUp(db.channels, db.deliveries[ids[0]], maxAttempts) then {ids[0]} else {}
    ensures ids[0] !in GivenUpOf(next, ids[1..], maxAttempts)
  {
    assert forall x :: x in ids <==> x == ids[0] || x in ids[1..];
  }

  lemma OneDeadLetter(db: Db, dispatch: Outbox, id: Uuid, rowIds: Uuid -> Uuid, now: Time, lost: bool)
    requires id in db.deliveries && rowIds(id) !in db.dispatch
    requires var d := db.deliveries[id];
             if lost then Rules.Inserted(db.dispatch, dispatch, rowIds(id), Rules.DeadRow(id, d.event, d.user, d.attempts, "lease_expired", now))
             else dispatch == db.dispatch
    ensures Rules.DeadLettered(db.deliveries, if lost then {id} else {}, rowIds, now, db.dispatch, dispatch)
  {
    var row := Rules.DeadRow(id, db.deliveries[id].event, db.deliveries[id].user, db.deliveries[id].attempts, "lease_expired", now);
    if lost {
      if r :| r in db.dispatch && db.dispatch[r].origin == row.origin {
        assert dispatch[r].origin == row.origin;
      } else {
        assert dispatch[rowIds(id)].origin == row.origin;
        assert Rules.IsDeadRow(db.deliveries, id, rowIds(id), now, rowIds(id), row);
      }
    }
  }

  lemma DeadLettersJoin(
    before: map<Uuid, Delivery>, between: map<Uuid, Delivery>, id: Uuid, lost: bool, rest: set<Uuid>, rowIds: Uuid -> Uuid, now: Time,
    a: Outbox, b: Outbox, c: Outbox)
    requires id !in rest && before.Keys == between.Keys
    requires forall x :: x in before && x != id ==> between[x] == before[x]
    requires Rules.DeadLettered(before, if lost then {id} else {}, rowIds, now, a, b)
    requires Rules.DeadLettered(between, rest, rowIds, now, b, c)
    ensures Rules.DeadLettered(before, rest + if lost then {id} else {}, rowIds, now, a, c)
  {
    var given := rest + if lost then {id} else {};
    forall r | r in c && r !in a
      ensures exists x :: x in given && Rules.IsDeadRow(before, x, rowIds(x), now, r, c[r])
    {
      if r in b {
        var x :| x in (if lost then {id} else {}) && Rules.IsDeadRow(before, x, rowIds(x), now, r, b[r]);
        assert x in given && Rules.IsDeadRow(before, x, rowIds(x), now, r, c[r]);
      } else {
        var x :| x in rest && Rules.IsDeadRow(between, x, rowIds(x), now, r, c[r]);
        assert x in given && Rules.IsDeadRow(before, x, rowIds(x), now, r, c[r]);
      }
    }
    forall x | x in given ensures x in before && Rules.Reported(c, x, before[x].attempts) {
      if x == id {
        assert Rules.Reported(b, x, before[x].attempts);
        var r :| r in b && b[r].origin == DispatchOf(x, before[x].attempts, DlqKind);
        assert c[r].origin == b[r].origin;
      } else {
        assert Rules.Reported(c, x, between[x].attempts);
      }
    }
  }

  /** What one recovery transaction does, row by row. */
  lemma RecoveryMeans(db: Db, locked: set<Uuid>, limit: nat, maxAttempts: int, rowIds: Uuid -> Uuid, now: Time)
    ensures var ids := Query.Select(RecoveryKeys(db, locked, now), limit);
            var after := RecoverAll(db, ids, maxAttempts, rowIds, now);
            && |ids| == |set id | id in db.deliveries && Rules.IsRecovered(db.deliveries, locked, limit, now, id)|
            && Rules.AllBack(db.channels, db.deliveries, after.deliveries, locked, limit, maxAttempts, now)
            && (NewRows(db.dispatch, db.deliveries, rowIds) ==>
                  Rules.DeadLettered(db.deliveries,
                                     Rules.AllGivenUp(db.channels, db.deliveries, locked, limit, maxAttempts, now),
                                     rowIds, now, db.dispatch, after.dispatch))
  {
    hide Query.Select, RecoverAll, Rules.IsRecovered, Rules.GivenUp, Rules.Back, Rules.DeadLettered;
    var ids := Query.Select(RecoveryKeys(db, locked, now), limit);
    RecoverySelects(db, locked, limit, now);
    AllBackAt(db, ids, maxAttempts, rowIds, now);
    if NewRows(db.dispatch, db.deliveries, rowIds) {
      DeadLettersOf(db, ids, maxAttempts, rowIds, now);
      assert GivenUpOf(db, ids, maxAttempts) == Rules.AllGivenUp(db.channels, db.deliveries, locked, limit, maxAttempts, now);
    }
  }

  class Repository {
    var channels: map<Uuid, Channel>
    var inbox: map<Uuid, InboxRow>
    var deliveries: map<Uuid, Delivery>
    const dispatch: Relay.Table

    constructor (dispatch: Relay.Table)
      ensures this.dispatch == dispatch && channels == map[] && inbox == map[] && deliveries == map[]
    {
      this.dispatch := dispatch;
      channels, inbox, deliveries := map[], map[], map[];
    }

    function State(): Db
      reads this, dispatch
    {
      Db(channels, inbox, deliveries, dispatch.rows)
    }

    // ----- Channels -----

    method CreateChannel(id: Uuid, c: Channel) returns (reply: Reply)
      modifies this`channels
      ensures (State(), reply) == Store.CreateChannel(old(State()), id, c)
      ensures reply == Conflict <==>
                id in old(channels) || exists x :: x in old(channels) && old(channels)[x].user == c.user
                                        && old(channels)[x].kind == c.kind && old(channels)[x].destination == c.destination
      ensures channels == if reply == Conflict then old(channels) else old(channels)[id := c.(enabled := true)]
    {
      if ChannelClash(channels, id, c) {
        return Conflict;
      }
      channels := channels[id := c.(enabled := true)];
      return Done;
    }

    method SetChannelEnabled(user: Uuid, channel: Uuid, enabled: bool) returns (reply: Reply)
      modifies this`channels, this`deliveries
      ensures (State(), reply) == Store.SetChannelEnabled(old(State()), user, channel, enabled)
      ensures reply == if channel in old(channels) && old(channels)[channel].user == user then Done else NotFound
      ensures channels == if reply == NotFound then old(channels)
                          else old(channels)[channel := old(channels)[channel].(enabled := enabled)]
      ensures if reply == NotFound || enabled then deliveries == old(deliveries)
              else Rules.AllCut(old(deliveries), deliveries, user, channel)
    {
      if channel !in channels || channels[channel].user != user {
        return NotFound;
      }
      channels := channels[channel := channels[channel].(enabled := enabled)];
      if !enabled {
        CancelChannelDeliveries(user, channel);
      }
      return Done;
    }

    /** Cancels first; when the channel turns out not to be the user's, the transaction rolls back. */
    method DeleteChannel(user: Uuid, channel: Uuid) returns (reply: Reply)
      modifies this`channels, this`deliveries
      ensures (State(), reply) == Store.DeleteChannel(old(State()), user, channel)
      ensures reply == if channel in old(channels) && old(channels)[channel].user == user then Done else NotFound
      ensures channels == if reply == NotFound then old(channels) else old(channels) - {channel}
      ensures if reply == NotFound then deliveries == old(deliveries)
              else Rules.AllCut(old(deliveries), deliveries, user, channel)
    {
      var saved := deliveries;
      CancelChannelDeliveries(user, channel);
      if channel !in channels || channels[channel].user != user {
        deliveries := saved;
        return NotFound;
      }
      channels := channels - {channel};
      return Done;
    }

    /** `UPDATE ... SET status = 'cancelled' WHERE ... status IN ('pending', 'retry_wait')`, row by row. */
    method CancelChannelDeliveries(user: Uuid, channel: Uuid)
      modifies this`deliveries
      ensures deliveries == CancelWaiting(old(deliveries), user, channel)
      ensures Rules.AllCut(old(deliveries), deliveries, user, channel)
    {
      var left := deliveries.Keys;
      while left != {}
        invariant left <= deliveries.Keys && deliveries.Keys == old(deliveries).Keys
        invariant forall id :: id in deliveries ==>
                    deliveries[id] == if id in left then old(deliveries)[id] else Rules.Cut(old(deliveries)[id], user, channel)
        decreases left
      {
        var id :| id in left;
        var d := deliveries[id];
        if d.channel == channel && d.user == user && (d.status == Pending || d.status == RetryWait) {
          deliveries := deliveries[id := d.(status := Cancelled)];
        }
        left := left - {id};
      }
    }

    // ----- Accepting and resuming -----

    /** `ids` are the ids the database generates for the new deliveries, each with its channel. */
    method AcceptRequest(event: Requested, payload: Payload, ids: map<Uuid, Uuid>, now: Time) returns (reply: Reply)
      requires event.eventId !in inbox ==> Assigns(ids, Targets(channels, event.userId))
      modifies this`inbox, this`deliveries
      ensures (State(), reply) == Store.AcceptRequest(old(State()), event, payload, ids, now)
      ensures reply == IdentityConflict <==>
                event.eventId in old(inbox) && old(inbox)[event.eventId] != InboxRow(event.userId, payload)
      ensures event.eventId in old(inbox) ==> inbox == old(inbox) && deliveries == old(deliveries)
      ensures event.eventId !in old(inbox) ==>
                inbox == old(inbox)[event.eventId := InboxRow(event.userId, payload)] && reply == Done
      ensures event.eventId !in old(inbox) && ids.Keys !! old(deliveries).Keys ==>
                && (forall id :: id in old(deliveries) ==> id in deliveries && deliveries[id] == old(deliveries)[id])
                && (forall c :: c in channels && channels[c].enabled && channels[c].user == event.userId ==>
                      OneNew(old(deliveries), deliveries,
                             Delivery(event.eventId, event.userId, c, Pending, 0, now, None, None, None, None, now)))
                && (forall id :: id in deliveries && id !in old(deliveries) ==>
                      var c := deliveries[id].channel;
                      c in channels && channels[c].enabled && channels[c].user == event.userId)
    {
      if event.eventId in inbox {
        var same := inbox[event.eventId].user == event.userId && inbox[event.eventId].payload == payload;
        if !same {
          return IdentityConflict;
        }
      } else {
        AcceptedOnce(deliveries, event.eventId, event.userId, ids, Targets(channels, event.userId), now);
        inbox := inbox[event.eventId := InboxRow(event.userId, payload)];
        deliveries := deliveries + map i | i in ids :: NewDelivery(event.eventId, event.userId, ids[i], now);
      }
      return Done;
    }

    /** The delivery changes exactly when the event is about its current attempt, it waits
        for it, and its channel is there, its user's and enabled. */
    method ResumeRetry(event: Retry, now: Time)
      modifies this`deliveries
      ensures State() == Store.ResumeRetry(old(State()), event, now)
      ensures deliveries.Keys == old(deliveries).Keys
      ensures forall id :: id in deliveries && id != event.deliveryId ==> deliveries[id] == old(deliveries)[id]
      ensures deliveries != old(deliveries) <==>
                event.deliveryId in old(deliveries) &&
                var d := old(deliveries)[event.deliveryId];
                && d.event == event.eventId && d.user == event.userId && d.attempts == event.attemptNo && d.status == RetryWait
                && d.channel in channels && channels[d.channel].user == d.user && channels[d.channel].enabled
      ensures deliveries != old(deliveries) ==>
                deliveries[event.deliveryId] == old(deliveries)[event.deliveryId].(status := Pending, availableAt := now)
    {
      if event.deliveryId in deliveries {
        var d := deliveries[event.deliveryId];
        if d.event == event.eventId && d.user == event.userId && d.attempts == event.attemptNo && d.status == RetryWait
           && d.channel in channels && channels[d.channel].enabled && channels[d.channel].user == d.user {
          deliveries := deliveries[event.deliveryId := d.(status := Pending, availableAt := now)];
          assert deliveries[event.deliveryId] != d;
        }
      }
    }

    // ----- Claiming -----

    /** Claims the first `limit` claimable rows that no other transaction has locked; `lease`
        is in nanoseconds and is applied in whole milliseconds. The tasks come in no
        particular order. None stands for an error: a bad argument, or a stored payload
        that does not decode (the rows stay claimed then). */
    method Claim(limit: int, lease: int, types: set<ChannelType>, locked: set<Uuid>, tokens: Uuid -> Uuid, now: Time)
      returns (tasks: Option<seq<Task>>)
      requires forall id :: id in deliveries ==> deliveries[id].event in inbox
      modifies this`deliveries
      ensures limit <= 0 || lease <= 0 ==> tasks.None? && State() == old(State())
      ensures limit > 0 && lease > 0 ==>
                var ids := Query.Select(ClaimKeys(old(State()), types, locked, now), limit);
                && State() == ClaimAll(old(State()), ids, tokens, LeaseEnd(now, lease))
                && Collected(ids, tokens, tasks)
      ensures limit > 0 && lease > 0 ==>
                Rules.AllTaken(channels, old(deliveries), deliveries, types, locked, limit, now, tokens, lease)
      ensures tasks.Some? ==>
                Rules.AllHanded(channels, inbox, old(deliveries), types, locked, limit, now, tokens, tasks.value)
    {
      hide ClaimAll, Rules.AllTaken, Rules.AllHanded;
      if limit <= 0 || lease <= 0 {
        return None;
      }
      ghost var before := State();
      var keys := ClaimKeys(State(), types, locked, now);
      var ids := Query.Select(keys, limit);
      SelectedDistinct(keys, limit);
      ClaimRows(ids, tokens, LeaseEnd(now, lease));
      ClaimTakes(before, types, locked, limit, now, tokens, lease);
      tasks := Collect(ids, tokens);
      if tasks.Some? {
        ClaimHands(before, types, locked, limit, now, tokens, lease, tasks.value);
      }
    }

    /** `UPDATE ... SET status = 'processing', attempts = attempts + 1, ...` on the selected rows. */
    method ClaimRows(ids: seq<Uuid>, tokens: Uuid -> Uuid, leaseEnd: Time)
      requires Distinct(ids) && forall i :: 0 <= i < |ids| ==> ids[i] in deliveries
      modifies this`deliveries
      ensures State() == ClaimAll(old(State()), ids, tokens, leaseEnd)
      ensures deliveries.Keys == old(deliveries).Keys
      ensures forall id :: id in deliveries ==>
                deliveries[id].event == old(deliveries)[id].event && deliveries[id].channel == old(deliveries)[id].channel
    {
      ClaimAllAt(State(), ids, tokens, leaseEnd);
      deliveries := map id | id in deliveries ::
        if id in ids then Claimed(deliveries[id], tokens(id), leaseEnd) else deliveries[id];
    }

    /** One task for each row, as the claim's final join reads it, unless a payload does not decode. */
    ghost predicate Collected(ids: seq<Uuid>, tokens: Uuid -> Uuid, tasks: Option<seq<Task>>)
      reads this, dispatch
    {
      && (forall i :: 0 <= i < |ids| ==> ids[i] in deliveries && deliveries[ids[i]].event in inbox)
      && (tasks.None? <==> exists i :: 0 <= i < |ids| && !inbox[deliveries[ids[i]].event].payload.RequestedJson?)
      && (tasks.Some? ==>
            |tasks.value| == |ids| && forall i :: 0 <= i < |ids| ==> IsTaskOf(State(), ids[i], tokens(ids[i]), tasks.value[i]))
    }

    /** The loop over the returned rows. */
    method Collect(ids: seq<Uuid>, tokens: Uuid -> Uuid) returns (tasks: Option<seq<Task>>)
      requires forall i :: 0 <= i < |ids| ==>
                 ids[i] in deliveries && deliveries[ids[i]].channel in channels && deliveries[ids[i]].event in inbox
      ensures Collected(ids, tokens, tasks)
    {
      var rows: seq<Task> := [];
      for i := 0 to |ids|
        invariant |rows| == i
        invariant forall j :: 0 <= j < i ==> IsTaskOf(State(), ids[j], tokens(ids[j]), rows[j])
      {
        var payload := inbox[deliveries[ids[i]].event].payload;
        if !payload.RequestedJson? {
          return None;
        }
        rows := rows + [TaskOf(State(), ids[i], tokens(ids[i]))];
      }
      return Some(rows);
    }

    // ----- Settling -----

    method MarkSent(task: Task, now: Time) returns (reply: Reply)
      modifies this`deliveries
      ensures (State(), reply) == Store.MarkSent(old(State()), task, now)
      ensures reply == if Rules.Holds(old(deliveries), task) then Done else StaleClaim
      ensures deliveries == if reply == StaleClaim then old(deliveries)
                else old(deliveries)[task.id := old(deliveries)[task.id].(
                       status := Sent, sentAt := Some(now), token := None, lease := None, lastError := None)]
    {
      if task.id !in deliveries || deliveries[task.id].token != Some(task.token) || deliveries[task.id].status != Processing {
        return StaleClaim;
      }
      deliveries := deliveries[task.id :=
        deliveries[task.id].(status := Sent, sentAt := Some(now), token := None, lease := None, lastError := None)];
      return Done;
    }

    /** Whether the delivery's channel is there and enabled. */
    method ChannelActive(id: Uuid) returns (active: bool)
      ensures active <==>
                && id in deliveries && deliveries[id].channel in channels
                && channels[deliveries[id].channel].user == deliveries[id].user && channels[deliveries[id].channel].enabled
    {
      if id !in deliveries {
        return false;
      }
      var d := deliveries[id];
      if d.channel !in channels || channels[d.channel].user != d.user {
        return false;
      }
      return channels[d.channel].enabled;
    }

    method MarkFailed(task: Task, delay: int, code: string, rowId: Uuid, now: Time) returns (reply: Reply)
      modifies this`deliveries, dispatch
      ensures (State(), reply) == Store.MarkFailed(old(State()), task, delay, code, rowId, now)
      ensures reply == if Rules.Holds(old(deliveries), task) then Done else StaleClaim
      ensures reply == StaleClaim ==> deliveries == old(deliveries) && dispatch.rows == old(dispatch.rows)
      ensures reply == Done ==>
                var d := old(deliveries)[task.id];
                var short := Rules.ShortCode(code);
                if !Rules.On(channels, d) then
                  && deliveries == old(deliveries)[task.id := Rules.Left(d, Cancelled, "channel_disabled")]
                  && dispatch.rows == old(dispatch.rows)
                else if delay > 0 then
                  && deliveries == old(deliveries)[task.id := Rules.Left(d, RetryWait, short)]
                  && Rules.Inserted(old(dispatch.rows), dispatch.rows, rowId, Rules.RetryRow(task, delay, short, now))
                else
                  && deliveries == old(deliveries)[task.id := Rules.Left(d, Failed, short)]
                  && Rules.Inserted(old(dispatch.rows), dispatch.rows, rowId,
                                    Rules.DeadRow(task.id, task.event, task.user, task.attempts, short, now))
    {
      var errorCode := if |code| > 100 then "provider_error" else code;
      var active := ChannelActive(task.id);
      var mine := task.id in deliveries && deliveries[task.id].token == Some(task.token) && deliveries[task.id].status == Processing;
      if !active {
        if !mine {
          return StaleClaim;
        }
        deliveries := deliveries[task.id := Stopped(deliveries[task.id], Cancelled, "channel_disabled")];
        return Done;
      }
      var status, kind, topic, availableAt := Failed, DlqKind, DeadLetters, now;
      if delay > 0 {
        status, kind, topic := RetryWait, RetryKind, RetryTopic(delay);
        availableAt := availableAt + delay;
      }
      if !mine {
        return StaleClaim;
      }
      deliveries := deliveries[task.id := Stopped(deliveries[task.id], status, errorCode)];
      var row := DispatchRow(task, kind, topic, errorCode, availableAt, now);
      if row.origin !in Origins(dispatch.rows) {
        dispatch.rows := dispatch.rows[rowId := row];
      }
      return Done;
    }

    // ----- Recovery -----

    method RecoverExpired(limit: int, maxAttempts: int, locked: set<Uuid>, rowIds: Uuid -> Uuid, now: Time)
      returns (count: Option<nat>)
      modifies this`deliveries, dispatch
      ensures limit <= 0 || maxAttempts <= 0 ==> count.None? && State() == old(State())
      ensures limit > 0 && maxAttempts > 0 ==>
                var ids := Query.Select(RecoveryKeys(old(State()), locked, now), limit);
                count == Some(|ids|) && State() == RecoverAll(old(State()), ids, maxAttempts, rowIds, now)
      ensures count.Some? ==>
                && count.value == |set id | id in old(deliveries) && Rules.IsRecovered(old(deliveries), locked, limit, now, id)|
                && Rules.AllBack(channels, old(deliveries), deliveries, locked, limit, maxAttempts, now)
      ensures count.Some? && NewRows(old(dispatch.rows), old(deliveries), rowIds) ==>
                Rules.DeadLettered(
                  old(deliveries), Rules.AllGivenUp(channels, old(deliveries), locked, limit, maxAttempts, now),
                  rowIds, now, old(dispatch.rows), dispatch.rows)
    {
      hide RecoverAll, Rules.AllBack, Rules.DeadLettered, Rules.AllGivenUp, NewRows;
      if limit <= 0 || maxAttempts <= 0 {
        return None;
      }
      ghost var before := State();
      var ids := Query.Select(RecoveryKeys(State(), locked, now), limit);
      NothingRecovered(before, ids, maxAttempts, rowIds, now);
      for i := 0 to |ids|
        invariant State() == RecoverAll(before, ids[..i], maxAttempts, rowIds, now)
      {
        RecoverAllSnoc(before, ids, i, maxAttempts, rowIds, now);
        RecoverRow(ids[i], maxAttempts, rowIds(ids[i]), now);
      }
      assert ids[..|ids|] == ids;
      RecoveryMeans(before, locked, limit, maxAttempts, rowIds, now);
      return Some(|ids|);
    }

    /** One round: what becomes of an expired claim, and its dead letter if it failed. */
    method RecoverRow(id: Uuid, maxAttempts: int, rowId: Uuid, now: Time)
      requires id in deliveries
      modifies this`deliveries, dispatch
      ensures State() == RecoverOne(old(State()), id, maxAttempts, rowId, now)
      ensures deliveries == old(deliveries)[id := Rules.Back(channels, old(deliveries)[id], maxAttempts, now)]
      ensures var d := old(deliveries)[id];
              if Rules.GivenUp(channels, d, maxAttempts)
              then Rules.Inserted(old(dispatch.rows), dispatch.rows, rowId,
                                  Rules.DeadRow(id, d.event, d.user, d.attempts, "lease_expired", now))
              else dispatch.rows == old(dispatch.rows)
    {
      var d := deliveries[id];
      var active := ChannelActive(id);
      var status := Pending;
      if !active {
        status := Cancelled;
      } else if d.attempts >= maxAttempts {
        status := Failed;
      }
      var code := "lease_expired";
      if !active {
        code := "channel_disabled";
      }
      deliveries := deliveries[id := Stopped(d, status, code).(availableAt := now)];
      if status == Failed {
        var task := Task(id, d.event, d.user, NIL, d.attempts, Telegram, Message("", "", "", ""));
        var row := DispatchRow(task, DlqKind, DeadLetters, "lease_expired", now, now);
        if row.origin !in Origins(dispatch.rows) {
          dispatch.rows := dispatch.rows[rowId := row];
        }
      }
    }
  }

  lemma SelectedDistinct(keys: Query.Keys, n: nat)
    ensures Distinct(Query.Select(keys, n))
    ensures forall x :: x in keys ==> (x in Query.Select(keys, n) <==> |Query.Ahead(keys, x)| < n)
  {
    Query.SelectIsTop(keys, n);
    forall x | x in keys ensures x in Query.Select(keys, n) <==> |Query.Ahead(keys, x)| < n {
      Query.SelectedIffFewAhead(keys, n, x);
    }
  }
}
