/** The notification database: what each transaction of the repository does to its
    tables, as functions on values. `Repository` in Postgres.dfy is proved against them. */
module Store {
  import opened Types
  import Contract
  import Query

  datatype Db = Db(
    channels: map<Uuid, Channel>, inbox: map<Uuid, InboxRow>, deliveries: map<Uuid, Delivery>, dispatch: Outbox)

  datatype Reply = Done | IdentityConflict | StaleClaim | NotFound | Conflict

  // ----- Channels -----

  /** The delivery's channel exists, belongs to its user and is enabled. */
  predicate Active(channels: map<Uuid, Channel>, d: Delivery) {
    d.channel in channels && channels[d.channel].user == d.user && channels[d.channel].enabled
  }

  /** Primary key and the (user, type, destination) key. */
  predicate ChannelClash(channels: map<Uuid, Channel>, id: Uuid, c: Channel) {
    id in channels || exists x :: x in channels && channels[x].user == c.user && channels[x].kind == c.kind
                                  && channels[x].destination == c.destination
  }

  function CreateChannel(db: Db, id: Uuid, c: Channel): (Db, Reply) {
    if ChannelClash(db.channels, id, c) then (db, Conflict)
    else (db.(channels := db.channels[id := c.(enabled := true)]), Done)
  }

  predicate Waiting(d: Delivery) {
    d.status == Pending || d.status == RetryWait
  }

  /** Cancels what waits on one channel of one user; claimed and finished rows are untouched. */
  function CancelWaiting(deliveries: map<Uuid, Delivery>, user: Uuid, channel: Uuid): map<Uuid, Delivery> {
    map id | id in deliveries ::
      var d := deliveries[id];
      if d.channel == channel && d.user == user && Waiting(d) then d.(status := Cancelled) else d
  }

  predicate Owns(db: Db, user: Uuid, channel: Uuid) {
    channel in db.channels && db.channels[channel].user == user
  }

  function SetChannelEnabled(db: Db, user: Uuid, channel: Uuid, enabled: bool): (Db, Reply) {
    if !Owns(db, user, channel) then (db, NotFound)
    else
      var switched := db.(channels := db.channels[channel := db.channels[channel].(enabled := enabled)]);
      if enabled then (switched, Done)
      else (switched.(deliveries := CancelWaiting(db.deliveries, user, channel)), Done)
  }

  function DeleteChannel(db: Db, user: Uuid, channel: Uuid): (Db, Reply) {
    if !Owns(db, user, channel) then (db, NotFound)
    else (db.(deliveries := CancelWaiting(db.deliveries, user, channel), channels := db.channels - {channel}), Done)
  }

  // ----- Accepting a request -----

  function Targets(channels: map<Uuid, Channel>, user: Uuid): set<Uuid> {
    set c | c in channels && channels[c].user == user && channels[c].enabled
  }

  /** One fresh delivery id for every target channel. */
  predicate Assigns(ids: map<Uuid, Uuid>, targets: set<Uuid>) {
    && (forall i :: i in ids ==> ids[i] in targets)
    && (forall c :: c in targets ==> exists i :: i in ids && ids[i] == c)
    && (forall i, j :: i in ids && j in ids && ids[i] == ids[j] ==> i == j)
  }

  function NewDelivery(event: Uuid, user: Uuid, channel: Uuid, now: Time): Delivery {
    Delivery(event, user, channel, Pending, 0, now, None, None, None, None, now)
  }

  /** Inbox row first; deliveries only when the inbox row is new. `ids` are the generated
      delivery ids, each with its channel. */
  function AcceptRequest(db: Db, event: Requested, payload: Payload, ids: map<Uuid, Uuid>, now: Time): (Db, Reply) {
    if event.eventId in db.inbox then
      if db.inbox[event.eventId] == InboxRow(event.userId, payload) then (db, Done) else (db, IdentityConflict)
    else
      (db.(inbox := db.inbox[event.eventId := InboxRow(event.userId, payload)],
           deliveries := db.deliveries + map i | i in ids :: NewDelivery(event.eventId, event.userId, ids[i], now)),
       Done)
  }

  // ----- Resuming a retry -----

  predicate Resumable(db: Db, event: Retry) {
    event.deliveryId in db.deliveries &&
    var d := db.deliveries[event.deliveryId];
    d.event == event.eventId && d.user == event.userId && d.attempts == event.attemptNo
    && d.status == RetryWait && Active(db.channels, d)
  }

  function ResumeRetry(db: Db, event: Retry, now: Time): Db {
    if !Resumable(db, event) then db
    else
      var d := db.deliveries[event.deliveryId];
      db.(deliveries := db.deliveries[event.deliveryId := d.(status := Pending, availableAt := now)])
  }

  // ----- Claiming -----

  predicate Claimable(db: Db, d: Delivery, types: set<ChannelType>, now: Time) {
    d.status == Pending && d.availableAt <= now && Active(db.channels, d) && db.channels[d.channel].kind in types
  }

  function ClaimKeys(db: Db, types: set<ChannelType>, locked: set<Uuid>, now: Time): Query.Keys {
    map id | id in db.deliveries && id !in locked && Claimable(db, db.deliveries[id], types, now) ::
      (db.deliveries[id].availableAt, db.deliveries[id].createdAt)
  }

  function Claimed(d: Delivery, token: Uuid, lease: Time): Delivery {
    d.(status := Processing, attempts := d.attempts + 1, token := Some(token), lease := Some(lease))
  }

  function ClaimOne(db: Db, id: Uuid, token: Uuid, lease: Time): Db
    requires id in db.deliveries
  {
    db.(deliveries := db.deliveries[id := Claimed(db.deliveries[id], token, lease)])
  }

  /** The task handed out for a claimed row; the payload was decoded when it was accepted. */
  function TaskOf(db: Db, id: Uuid, token: Uuid): Task
    requires id in db.deliveries && db.deliveries[id].channel in db.channels
    requires db.deliveries[id].event in db.inbox && db.inbox[db.deliveries[id].event].payload.RequestedJson?
  {
    var d := db.deliveries[id];
    var c := db.channels[d.channel];
    var data := db.inbox[d.event].payload.event.data;
    Task(id, d.event, d.user, token, d.attempts, c.kind, Message(c.destination, data.title, data.body, data.url.text))
  }

  // ----- Settling -----

  /** The claim under which a task was handed out is the current one. */
  predicate Current(db: Db, task: Task) {
    task.id in db.deliveries && db.deliveries[task.id].status == Processing
    && db.deliveries[task.id].token == Some(task.token)
  }

  function MarkSent(db: Db, task: Task, now: Time): (Db, Reply) {
    if !Current(db, task) then (db, StaleClaim)
    else
      var d := db.deliveries[task.id];
      (db.(deliveries := db.deliveries[task.id :=
             d.(status := Sent, sentAt := Some(now), token := None, lease := None, lastError := None)]), Done)
  }

  function RetryTopic(delay: int): Topic {
    if delay <= MINUTE then Retry1m else if delay <= 10 * MINUTE then Retry10m else Retry1h
  }

  function SafeCode(code: string): string {
    if |code| > 100 then "provider_error" else code
  }

  /** A dispatch row; `eventType` and `version` are what the relay derives from `kind`. */
  function DispatchRow(task: Task, kind: Kind, topic: Topic, code: string, availableAt: Time, now: Time): OutboxRow {
    OutboxRow(
      DispatchOf(task.id, task.attempts, kind), Some(topic), UuidText(task.user),
      DispatchJson(Retry(task.id, task.event, task.user, task.attempts), code),
      if kind.RetryKind? then Contract.NOTIFICATION_RETRY else Contract.NOTIFICATION_DLQ,
      Contract.SCHEMA_V1, 0, availableAt, now, None)
  }

  /** `ON CONFLICT (delivery_id, kind, attempt_no) DO NOTHING`. */
  function Insert(rows: Outbox, id: Uuid, row: OutboxRow): Outbox {
    if row.origin in Origins(rows) then rows else rows[id := row]
  }

  function Stopped(d: Delivery, status: Status, code: string): Delivery {
    d.(status := status, token := None, lease := None, lastError := Some(code))
  }

  function MarkFailed(db: Db, task: Task, delay: int, code: string, rowId: Uuid, now: Time): (Db, Reply) {
    if !Current(db, task) then (db, StaleClaim)
    else
      var d := db.deliveries[task.id];
      if !Active(db.channels, d) then
        (db.(deliveries := db.deliveries[task.id := Stopped(d, Cancelled, "channel_disabled")]), Done)
      else
        var again := delay > 0;
        var row := if again
          then DispatchRow(task, RetryKind, RetryTopic(delay), SafeCode(code), now + delay, now)
          else DispatchRow(task, DlqKind, DeadLetters, SafeCode(code), now, now);
        (db.(deliveries := db.deliveries[task.id := Stopped(d, if again then RetryWait else Failed, SafeCode(code))],
             dispatch := Insert(db.dispatch, rowId, row)), Done)
  }

  // ----- Recovering expired claims -----

  predicate Expired(d: Delivery, now: Time) {
    d.status == Processing && d.lease.Some? && d.lease.value < now
  }

  function RecoveryKeys(db: Db, locked: set<Uuid>, now: Time): Query.Keys {
    map id | id in db.deliveries && id !in locked && Expired(db.deliveries[id], now) ::
      (db.deliveries[id].lease.value, 0)
  }

  function Verdict(channels: map<Uuid, Channel>, d: Delivery, maxAttempts: int): Status {
    if !Active(channels, d) then Cancelled else if d.attempts >= maxAttempts then Failed else Pending
  }

  /** One round of the recovery loop. */
  function RecoverOne(db: Db, id: Uuid, maxAttempts: int, rowId: Uuid, now: Time): Db
    requires id in db.deliveries
  {
    var d := db.deliveries[id];
    var status := Verdict(db.channels, d, maxAttempts);
    var code := if status == Cancelled then "channel_disabled" else "lease_expired";
    var moved := db.(deliveries := db.deliveries[id := Stopped(d, status, code).(availableAt := now)]);
    if status != Failed then moved
    else
      var task := Task(id, d.event, d.user, NIL, d.attempts, Telegram, Message("", "", "", ""));
      moved.(dispatch := Insert(db.dispatch, rowId, DispatchRow(task, DlqKind, DeadLetters, "lease_expired", now, now)))
  }
}
