/** What the operations promise, row by row, written out on the columns and fields.
    No operation uses these definitions; only contracts and lemmas do. */
module Rules {
  import opened Types

  type Channels = map<Uuid, Channel>
  type Deliveries = map<Uuid, Delivery>

  /** The joined channel: there, the user's own, and enabled. */
  predicate On(channels: Channels, d: Delivery) {
    d.channel in channels && channels[d.channel].user == d.user && channels[d.channel].enabled
  }

  // ----- Cancelling -----

  /** The row after the channel of a user was turned off or deleted. */
  function Cut(d: Delivery, user: Uuid, channel: Uuid): Delivery {
    if d.channel == channel && d.user == user && (d.status == Pending || d.status == RetryWait)
    then d.(status := Cancelled)
    else d
  }

  ghost predicate AllCut(before: Deliveries, after: Deliveries, user: Uuid, channel: Uuid) {
    after.Keys == before.Keys && forall id :: id in before ==> after[id] == Cut(before[id], user, channel)
  }

  // ----- Claiming -----

  predicate CanClaim(channels: Channels, d: Delivery, types: set<ChannelType>, now: Time) {
    d.status == Pending && d.availableAt <= now && On(channels, d) && channels[d.channel].kind in types
  }

  predicate ClaimedSooner(deliveries: Deliveries, x: Uuid, y: Uuid)
    requires x in deliveries && y in deliveries
  {
    var d, e := deliveries[x], deliveries[y];
    || d.availableAt < e.availableAt
    || (d.availableAt == e.availableAt && d.createdAt < e.createdAt)
    || (d.availableAt == e.availableAt && d.createdAt == e.createdAt && x < y)
  }

  /** The claimable rows, unlocked, that come before a row. */
  function ClaimQueue(
    channels: Channels, deliveries: Deliveries, types: set<ChannelType>, locked: set<Uuid>, now: Time, id: Uuid): set<Uuid>
    requires id in deliveries
  {
    set x | x in deliveries && x !in locked && CanClaim(channels, deliveries[x], types, now) && ClaimedSooner(deliveries, x, id)
  }

  /** The row is one of the first `limit` claimable ones. */
  predicate IsClaimed(
    channels: Channels, deliveries: Deliveries, types: set<ChannelType>, locked: set<Uuid>, limit: int, now: Time, id: Uuid)
  {
    && id in deliveries && id !in locked && CanClaim(channels, deliveries[id], types, now)
    && |ClaimQueue(channels, deliveries, types, locked, now, id)| < limit
  }

  /** A claimed row: the next attempt, under its token, for a lease of whole milliseconds. */
  function Taken(d: Delivery, token: Uuid, lease: int, now: Time): Delivery {
    d.(status := Processing, attempts := d.attempts + 1, token := Some(token), lease := Some(now + lease - lease % 1_000_000))
  }

  /** The task of a claimed row, with the channel's destination and the request's text. */
  function Handed(c: Channel, event: Requested, id: Uuid, d: Delivery, token: Uuid): Task {
    Task(id, d.event, d.user, token, d.attempts + 1, c.kind,
         Message(c.destination, event.data.title, event.data.body, event.data.url.text))
  }

  /** Exactly the chosen rows are claimed, each under its own token; the others are as they were. */
  ghost predicate AllTaken(
    channels: Channels, before: Deliveries, after: Deliveries, types: set<ChannelType>, locked: set<Uuid>,
    limit: int, now: Time, tokens: Uuid -> Uuid, lease: int)
  {
    && after.Keys == before.Keys
    && forall id :: id in before ==>
         after[id] == if IsClaimed(channels, before, types, locked, limit, now, id)
           then Taken(before[id], tokens(id), lease, now) else before[id]
  }

  /** The task of one of the claimed rows. */
  ghost predicate IsHanded(
    channels: Channels, inbox: map<Uuid, InboxRow>, deliveries: Deliveries, types: set<ChannelType>, locked: set<Uuid>,
    limit: int, now: Time, tokens: Uuid -> Uuid, task: Task)
  {
    && IsClaimed(channels, deliveries, types, locked, limit, now, task.id)
    && var d := deliveries[task.id];
       && d.event in inbox && inbox[d.event].payload.RequestedJson?
       && task == Handed(channels[d.channel], inbox[d.event].payload.event, task.id, d, tokens(task.id))
  }

  /** One task for each claimed row, in some order. */
  ghost predicate AllHanded(
    channels: Channels, inbox: map<Uuid, InboxRow>, deliveries: Deliveries, types: set<ChannelType>, locked: set<Uuid>,
    limit: int, now: Time, tokens: Uuid -> Uuid, tasks: seq<Task>)
  {
    && |tasks| == |set id | id in deliveries && IsClaimed(channels, deliveries, types, locked, limit, now, id)|
    && forall task :: task in tasks <==> IsHanded(channels, inbox, deliveries, types, locked, limit, now, tokens, task)
  }

  // ----- Settling -----

  /** The task holds the claim its delivery is processed under. */
  predicate Holds(deliveries: Deliveries, task: Task) {
    && task.id in deliveries && deliveries[task.id].status == Processing
    && deliveries[task.id].token == Some(task.token)
  }

  /** The topic of a retry: within a minute, within ten minutes, or later. */
  function DelayTopic(delay: int): Topic {
    if delay <= 60_000_000_000 then Retry1m else if delay <= 600_000_000_000 then Retry10m else Retry1h
  }

  function ShortCode(code: string): string {
    if |code| <= 100 then code else "provider_error"
  }

  function Left(d: Delivery, status: Status, code: string): Delivery {
    d.(status := status, token := None, lease := None, lastError := Some(code))
  }

  /** The retry of a failed attempt: available after exactly the delay. */
  function RetryRow(task: Task, delay: int, code: string, now: Time): OutboxRow {
    OutboxRow(
      DispatchOf(task.id, task.attempts, RetryKind), Some(DelayTopic(delay)), UuidText(task.user),
      DispatchJson(Retry(task.id, task.event, task.user, task.attempts), code),
      "notification.retry", 1, 0, now + delay, now, None)
  }

  /** The dead letter of a delivery that has failed, available at once. */
  function DeadRow(id: Uuid, event: Uuid, user: Uuid, attempt: int, code: string, now: Time): OutboxRow {
    OutboxRow(
      DispatchOf(id, attempt, DlqKind), Some(DeadLetters), UuidText(user),
      DispatchJson(Retry(id, event, user, attempt), code),
      "notification.dlq", 1, 0, now, now, None)
  }

  /** The row was inserted, unless one of the same delivery, kind and attempt was there. */
  ghost predicate Inserted(before: Outbox, after: Outbox, id: Uuid, row: OutboxRow) {
    after == if exists r :: r in before && before[r].origin == row.origin then before else before[id := row]
  }

  // ----- Recovering -----

  predicate LeaseOver(d: Delivery, now: Time) {
    d.status == Processing && d.lease.Some? && d.lease.value < now
  }

  predicate OverSooner(deliveries: Deliveries, x: Uuid, y: Uuid)
    requires x in deliveries && y in deliveries && deliveries[x].lease.Some? && deliveries[y].lease.Some?
  {
    var a, b := deliveries[x].lease.value, deliveries[y].lease.value;
    a < b || (a == b && x < y)
  }

  function RecoveryQueue(deliveries: Deliveries, locked: set<Uuid>, now: Time, id: Uuid): set<Uuid>
    requires id in deliveries && deliveries[id].lease.Some?
  {
    set x | x in deliveries && x !in locked && LeaseOver(deliveries[x], now) && OverSooner(deliveries, x, id)
  }

  /** The row is one of the first `limit` whose lease is over. */
  predicate IsRecovered(deliveries: Deliveries, locked: set<Uuid>, limit: int, now: Time, id: Uuid) {
    && id in deliveries && id !in locked && LeaseOver(deliveries[id], now)
    && |RecoveryQueue(deliveries, locked, now, id)| < limit
  }

  /** The recovery gives up: there is nothing wrong with the channel, but no attempt is left. */
  predicate GivenUp(channels: Channels, d: Delivery, maxAttempts: int) {
    On(channels, d) && d.attempts >= maxAttempts
  }

  /** A recovered row: cut off with its channel, given up, or pending again from now on. */
  function Back(channels: Channels, d: Delivery, maxAttempts: int, now: Time): Delivery {
    if !On(channels, d) then Left(d, Cancelled, "channel_disabled").(availableAt := now)
    else if d.attempts >= maxAttempts then Left(d, Failed, "lease_expired").(availableAt := now)
    else Left(d, Pending, "lease_expired").(availableAt := now)
  }

  /** Exactly the chosen rows are recovered; the others are as they were. */
  ghost predicate AllBack(
    channels: Channels, before: Deliveries, after: Deliveries, locked: set<Uuid>, limit: int, maxAttempts: int, now: Time)
  {
    && after.Keys == before.Keys
    && forall id :: id in before ==>
         after[id] == if IsRecovered(before, locked, limit, now, id) then Back(channels, before[id], maxAttempts, now) else before[id]
  }

  /** The deliveries that the recovery gives up. */
  function AllGivenUp(
    channels: Channels, deliveries: Deliveries, locked: set<Uuid>, limit: int, maxAttempts: int, now: Time): set<Uuid>
  {
    set id | id in deliveries && IsRecovered(deliveries, locked, limit, now, id) && GivenUp(channels, deliveries[id], maxAttempts)
  }

  ghost predicate RowsKept(before: Outbox, after: Outbox) {
    forall r :: r in before ==> r in after && after[r] == before[r]
  }

  ghost predicate OnlyDeadRows(deliveries: Deliveries, given: set<Uuid>, rowIds: Uuid -> Uuid, now: Time, before: Outbox, after: Outbox) {
    forall r :: r in after && r !in before ==> exists id :: id in given && IsDeadRow(deliveries, id, rowIds(id), now, r, after[r])
  }

  predicate IsDeadRow(deliveries: Deliveries, id: Uuid, rowId: Uuid, now: Time, r: Uuid, row: OutboxRow) {
    && id in deliveries && r == rowId
    && row == DeadRow(id, deliveries[id].event, deliveries[id].user, deliveries[id].attempts, "lease_expired", now)
  }

  ghost predicate AllReported(deliveries: Deliveries, given: set<Uuid>, after: Outbox) {
    forall id :: id in given ==> id in deliveries && Reported(after, id, deliveries[id].attempts)
  }

  /** The rows that the recovery adds: one for each delivery it gives up, and no other. */
  ghost predicate DeadLettered(
    deliveries: Deliveries, given: set<Uuid>, rowIds: Uuid -> Uuid, now: Time, before: Outbox, after: Outbox)
  {
    RowsKept(before, after) && OnlyDeadRows(deliveries, given, rowIds, now, before, after) && AllReported(deliveries, given, after)
  }

  predicate Reported(rows: Outbox, id: Uuid, attempt: int) {
    exists r :: r in rows && rows[r].origin == DispatchOf(id, attempt, DlqKind)
  }

  // ----- Relaying -----

  /** `requests` is true for the intents, false for the dispatch outbox. */
  predicate CanPublish(requests: bool, row: OutboxRow, now: Time) {
    row.publishedAt == None && row.availableAt <= now && (requests ==> row.route != None)
  }

  predicate PublishedSooner(requests: bool, rows: Outbox, x: Uuid, y: Uuid)
    requires x in rows && y in rows
  {
    var a, b := rows[x], rows[y];
    if requests then a.createdAt < b.createdAt || (a.createdAt == b.createdAt && x < y)
    else
      || a.availableAt < b.availableAt
      || (a.availableAt == b.availableAt && a.createdAt < b.createdAt)
      || (a.availableAt == b.availableAt && a.createdAt == b.createdAt && x < y)
  }

  ghost predicate NoneToPublish(requests: bool, rows: Outbox, locked: set<Uuid>, now: Time) {
    forall id :: id in rows && id !in locked ==> !CanPublish(requests, rows[id], now)
  }

  /** The row to publish next. */
  ghost predicate IsNext(requests: bool, rows: Outbox, locked: set<Uuid>, now: Time, id: Uuid) {
    && id in rows && id !in locked && CanPublish(requests, rows[id], now)
    && forall x :: x in rows && x !in locked && x != id && CanPublish(requests, rows[x], now) ==>
         PublishedSooner(requests, rows, id, x)
  }

  /** One, two, four, ... and at most 64 seconds. */
  function Backoff(failures: nat): Time {
    [1, 2, 4, 8, 16, 32, 64][if failures < 6 then failures else 6] * 1_000_000_000
  }

  /** The row after a publication: untouched without a commit, published if acknowledged,
      and otherwise put off by the backoff for the attempts it had. */
  function Relayed(row: OutboxRow, acked: bool, committed: bool, now: Time): OutboxRow {
    if !committed then row
    else if acked then row.(publishedAt := Some(now), attempts := row.attempts + 1)
    else row.(availableAt := now + Backoff(row.attempts), attempts := row.attempts + 1)
  }

  /** The record of a row. */
  function Wire(id: Uuid, row: OutboxRow): Record {
    Record(row.key,
           [("event_id", UuidText(id)), ("event_type", Plain(row.eventType)),
            ("schema_version", Decimal(row.version)), ("content-type", Plain("application/json"))],
           row.payload)
  }

  /** The record was appended to its partition, if at all, and nothing else changed. */
  ghost predicate LogGrew(before: Log, after: Log, p: Part, rec: Record, appended: bool) {
    forall q :: LogAt(after, q) == LogAt(before, q) + if q == p && appended then [rec] else []
  }

  // ----- Consuming -----

  /** The dead letter of a record that was not accepted. */
  function InvalidLetter(source: Part, offset: nat, reason: string, digest: Uuid): Record {
    Record(UuidText(digest),
           [("event_id", UuidText(digest)), ("event_type", Plain("notification.invalid")),
            ("schema_version", Decimal(1)), ("content-type", Plain("application/json"))],
           InvalidJson(source, offset, reason))
  }

  /** The event id is taken by another user's request, or by one with another payload. */
  predicate Conflicts(inbox: map<Uuid, InboxRow>, event: Requested, payload: Payload) {
    event.eventId in inbox && !(inbox[event.eventId].user == event.userId && inbox[event.eventId].payload == payload)
  }
}
