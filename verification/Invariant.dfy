/** What every reachable state of the pipeline satisfies. */
module Invariant {
  import opened Types
  import opened Store
  import opened Machine
  import Contract
  import Relay

  // ----- One delivery -----

  /** Endings after which nothing happens any more, and the status they leave. */
  predicate IsFinal(e: Ending) { e == DeadLettered || e == CutOff || e == Delivered }

  function FinalStatus(e: Ending): Status
    requires IsFinal(e)
  {
    match e case DeadLettered => Failed case CutOff => Cancelled case Delivered => Sent
  }

  predicate EndsWith(t: Trail, e: Ending) {
    |t.ended| > 0 && t.ended[|t.ended| - 1] == e
  }

  /** A delivery row against its trail: the lease and sent checks of the schema, every
      attempt accounted for, and the attempt limit. */
  ghost predicate LifeOk(d: Delivery, t: Trail, limit: int) {
    && d.attempts == |t.ended| + (if d.status == Processing then 1 else 0)
    && (d.token.Some? <==> d.status == Processing)
    && (d.lease.Some? <==> d.status == Processing)
    && (d.sentAt.Some? <==> d.status == Sent)
    && (forall k :: 0 <= k < |t.ended| && IsFinal(t.ended[k]) ==>
          k == |t.ended| - 1 && d.status == FinalStatus(t.ended[k]))
    && (d.status == RetryWait ==> EndsWith(t, Retried))
    && (d.status == Sent ==> EndsWith(t, Delivered))
    && (d.status == Failed ==> EndsWith(t, DeadLettered))
    && (d.status == Pending ==> t.due <= d.availableAt)
    && d.attempts <= limit && (Waiting(d) ==> d.attempts < limit)
  }

  type Deliveries = map<Uuid, Delivery>
  type Trails = map<Uuid, Trail>

  ghost predicate LivesOk(deliveries: Deliveries, trail: Trails, limit: int) {
    && trail.Keys == deliveries.Keys
    && (forall id :: id in deliveries ==> LifeOk(deliveries[id], trail[id], limit))
  }

  /** The foreign key to the inbox, and an enabled channel for everything that waits. */
  ghost predicate AnchorOk(channels: map<Uuid, Channel>, inbox: map<Uuid, InboxRow>, d: Delivery) {
    && d.event in inbox && inbox[d.event].user == d.user
    && (Waiting(d) ==> Active(channels, d))
  }

  ghost predicate AnchorsOk(channels: map<Uuid, Channel>, inbox: map<Uuid, InboxRow>, deliveries: Deliveries) {
    forall id :: id in deliveries ==> AnchorOk(channels, inbox, deliveries[id])
  }

  predicate SamePair(d: Delivery, e: Delivery) {
    d.event == e.event && d.channel == e.channel
  }

  /** `UNIQUE (event_id, channel_id)`. */
  ghost predicate PairsUnique(deliveries: Deliveries) {
    forall x, y :: x in deliveries && y in deliveries && SamePair(deliveries[x], deliveries[y]) ==> x == y
  }

  /** An accepted request is stored under its own id and user, and is complete. */
  ghost predicate InboxOk(inbox: map<Uuid, InboxRow>) {
    forall e :: e in inbox ==>
      && inbox[e].payload.RequestedJson? && inbox[e].payload.event.eventId == e
      && inbox[e].payload.event.userId == inbox[e].user && e != NIL && inbox[e].user != NIL
  }

  // ----- Dispatch rows -----

  predicate EndedAs(t: Trail, attempt: int, e: Ending) {
    1 <= attempt <= |t.ended| && t.ended[attempt - 1] == e
  }

  function EndingOf(kind: Kind): Ending {
    match kind case RetryKind => Retried case DlqKind => DeadLettered
  }

  predicate TopicFits(kind: Kind, topic: Topic) {
    match kind case RetryKind => Contract.IsRetryTopic(topic) case DlqKind => topic == DeadLetters
  }

  /** A dispatch row against the delivery it is about: the checks of the schema, the
      attempt it reports, and an unpublished retry not being available before it is due, and
      exactly then as long as the relay has not tried it. */
  ghost predicate RowOk(row: OutboxRow, deliveries: Deliveries, trail: Trails) {
    && row.origin.DispatchOf?
    && var id, attempt, kind := row.origin.delivery, row.origin.attempt, row.origin.kind;
       && id in deliveries && id in trail
       && EndedAs(trail[id], attempt, EndingOf(kind))
       && row.key == UuidText(deliveries[id].user)
       && row.payload.DispatchJson?
       && row.payload.retry == Retry(id, deliveries[id].event, deliveries[id].user, attempt)
       && row.eventType == (if kind.RetryKind? then Contract.NOTIFICATION_RETRY else Contract.NOTIFICATION_DLQ)
       && row.version == Contract.SCHEMA_V1
       && row.route.Some? && TopicFits(kind, row.route.value)
       && (kind.RetryKind? && row.publishedAt.None? && attempt == deliveries[id].attempts ==>
             trail[id].due <= row.availableAt && (row.attempts == 0 ==> row.availableAt == trail[id].due))
  }

  ghost predicate RowsOk(dispatch: Outbox, deliveries: Deliveries, trail: Trails) {
    forall r :: r in dispatch ==> RowOk(dispatch[r], deliveries, trail)
  }

  /** `UNIQUE (delivery_id, kind, attempt_no)`. */
  ghost predicate OriginsUnique(dispatch: Outbox) {
    forall r, q :: r in dispatch && q in dispatch && dispatch[r].origin == dispatch[q].origin ==> r == q
  }

  /** Every attempt that ended in a retry or in the dead letters has its row. */
  ghost predicate RowsComplete(dispatch: Outbox, trail: Trails) {
    forall id, attempt, kind :: id in trail && EndedAs(trail[id], attempt, EndingOf(kind)) ==>
      DispatchOf(id, attempt, kind) in Origins(dispatch)
  }

  // ----- Tasks and identifiers -----

  ghost predicate TaskOk(task: Task, deliveries: Deliveries, used: set<Uuid>) {
    && task.id in deliveries && task.token in used
    && task.event == deliveries[task.id].event && task.user == deliveries[task.id].user
    && 1 <= task.attempts <= deliveries[task.id].attempts
    && (deliveries[task.id].token == Some(task.token) ==> task.attempts == deliveries[task.id].attempts)
  }

  ghost predicate TasksOk(tasks: set<Task>, deliveries: Deliveries, used: set<Uuid>) {
    && (forall t :: t in tasks ==> TaskOk(t, deliveries, used))
    && (forall t, u :: t in tasks && u in tasks && t.token == u.token ==> t == u)
  }

  ghost predicate UsedOk(deliveries: Deliveries, dispatch: Outbox, events: Outbox, used: set<Uuid>) {
    && NIL in used
    && (forall id :: id in deliveries ==> id in used && id != NIL)
    && (forall id :: id in deliveries && deliveries[id].token.Some? ==> deliveries[id].token.value in used)
    && (forall id :: id in dispatch ==> id in used)
    && (forall id :: id in events ==> id in used)
  }

  // ----- Kafka -----

  /** An intent row: routed to the request topic, keyed by its user, and about itself. */
  ghost predicate EventOk(id: Uuid, row: OutboxRow) {
    && row.route == Some(RequestsTopic) && row.payload.RequestedJson? && row.payload.event.eventId == id
    && row.payload.event.notificationId == id && row.key == UuidText(row.payload.event.userId)
    && row.eventType == Contract.NOTIFICATION_REQUESTED && row.version == Contract.SCHEMA_V1
  }

  ghost predicate EventsOk(events: Outbox) {
    forall id :: id in events ==> EventOk(id, events[id])
  }

  /** The retry of an attempt that did end in a retry; if no later attempt has started, it is due. */
  ghost predicate RetryDue(r: Retry, deliveries: Deliveries, trail: Trails, now: Time) {
    && r.deliveryId in deliveries && r.deliveryId in trail
    && deliveries[r.deliveryId].event == r.eventId && deliveries[r.deliveryId].user == r.userId
    && EndedAs(trail[r.deliveryId], r.attemptNo, Retried)
    && (r.attemptNo == deliveries[r.deliveryId].attempts ==> trail[r.deliveryId].due <= now)
  }

  /** A record of a retry topic routes to such a retry. */
  ghost predicate RetryRecordOk(topic: Topic, rec: Record, deliveries: Deliveries, trail: Trails, now: Time) {
    && rec.value.DispatchJson?
    && Contract.RouteRecord(topic, rec) == Contract.Resume(rec.value.retry)
    && RetryDue(rec.value.retry, deliveries, trail, now)
  }

  ghost predicate RetryLogOk(log: Log, deliveries: Deliveries, trail: Trails, now: Time) {
    forall p, i :: p in log && Contract.IsRetryTopic(p.topic) && 0 <= i < |log[p]| ==>
      RetryRecordOk(p.topic, log[p][i], deliveries, trail, now)
  }

  ghost predicate OffsetsOk(log: Log, committed: Offsets) {
    forall p :: p in committed ==> committed[p] <= |LogAt(log, p)|
  }

  ghost predicate InLog(log: Log, topic: Topic, rec: Record) {
    exists p, i :: p in log && p.topic == topic && 0 <= i < |log[p]| && log[p][i] == rec
  }

  /** The record is in the log, at or after the committed offset of its partition. */
  ghost predicate Ahead(log: Log, committed: Offsets, topic: Topic, rec: Record) {
    exists p, i :: p in log && p.topic == topic && CommittedAt(committed, p) <= i < |log[p]| && log[p][i] == rec
  }

  /** A row marked published is in the log. */
  ghost predicate PublishedOk(rows: Outbox, log: Log) {
    forall id :: id in rows && rows[id].publishedAt.Some? ==>
      rows[id].route.Some? && InLog(log, rows[id].route.value, Relay.RecordOf(id, rows[id]))
  }

  // ----- Nothing is lost -----

  /** Row r carries the retry of the attempt, and that retry can still be consumed. */
  ghost predicate Carries(r: Uuid, dispatch: Outbox, log: Log, committed: Offsets, id: Uuid, attempt: int) {
    && r in dispatch && dispatch[r].origin == DispatchOf(id, attempt, RetryKind) && dispatch[r].route.Some?
    && (dispatch[r].publishedAt.None? || Ahead(log, committed, dispatch[r].route.value, Relay.RecordOf(r, dispatch[r])))
  }

  ghost predicate RetryAlive(dispatch: Outbox, log: Log, committed: Offsets, id: Uuid, attempt: int) {
    exists r :: Carries(r, dispatch, log, committed, id, attempt)
  }

  /** Whatever waits for a retry has one coming. */
  ghost predicate NoLostRetry(deliveries: Deliveries, dispatch: Outbox, log: Log, committed: Offsets) {
    forall id :: id in deliveries && deliveries[id].status == RetryWait ==>
      RetryAlive(dispatch, log, committed, id, deliveries[id].attempts)
  }

  ghost predicate Reported(log: Log, p: Part, offset: nat) {
    exists q, j :: q in log && q.topic == DeadLetters && 0 <= j < |log[q]| && log[q][j].value.InvalidJson?
                   && log[q][j].value.source == p && log[q][j].value.offset == offset
  }

  /** The request was accepted with exactly this payload. */
  predicate Accepted(inbox: map<Uuid, InboxRow>, payload: Payload) {
    payload.RequestedJson? && payload.event.eventId in inbox && inbox[payload.event.eventId].payload == payload
  }

  /** Every request the group has moved past was accepted, or reported to the dead letters. */
  ghost predicate RequestsSettled(log: Log, committed: Offsets, inbox: map<Uuid, InboxRow>) {
    forall p, i :: p in log && p.topic == RequestsTopic && 0 <= i < CommittedAt(committed, p) && i < |log[p]| ==>
      Accepted(inbox, log[p][i].value) || Reported(log, p, i)
  }

  // ----- Together -----

  ghost predicate DbInv(cfg: Config, s: Sys) {
    && LivesOk(s.db.deliveries, s.trail, cfg.Limit())
    && AnchorsOk(s.db.channels, s.db.inbox, s.db.deliveries)
    && PairsUnique(s.db.deliveries)
    && InboxOk(s.db.inbox)
    && TasksOk(s.tasks, s.db.deliveries, s.used)
    && UsedOk(s.db.deliveries, s.db.dispatch, s.events, s.used)
  }

  ghost predicate RowInv(s: Sys) {
    && RowsOk(s.db.dispatch, s.db.deliveries, s.trail)
    && OriginsUnique(s.db.dispatch)
    && RowsComplete(s.db.dispatch, s.trail)
    && EventsOk(s.events)
  }

  ghost predicate LogInv(s: Sys) {
    && RetryLogOk(s.log, s.db.deliveries, s.trail, s.now)
    && OffsetsOk(s.log, s.committed)
    && PublishedOk(s.events, s.log)
    && PublishedOk(s.db.dispatch, s.log)
    && NoLostRetry(s.db.deliveries, s.db.dispatch, s.log, s.committed)
    && RequestsSettled(s.log, s.committed, s.db.inbox)
  }

  ghost predicate Inv(cfg: Config, s: Sys) {
    cfg.Valid() && DbInv(cfg, s) && RowInv(s) && LogInv(s)
  }

  lemma InitInv(cfg: Config)
    requires cfg.Valid()
    ensures Inv(cfg, INIT)
  {
  }
}
