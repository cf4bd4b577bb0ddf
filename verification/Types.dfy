/** The rows, messages and identifiers that the notification services share.

    Identifiers are 128-bit UUIDs ordered as numbers; `NIL` is the all-zero one.
    Times are instants of one logical clock, in nanoseconds; `ZERO_TIME` is the
    zero value of a Go time. */
module Types {

  datatype Option<+T> = None | Some(value: T)

  type Uuid = nat
  const NIL: Uuid := 0

  type Time = int
  const ZERO_TIME: Time := 0
  const MILLISECOND: Time := 1_000_000
  const SECOND: Time := 1_000_000_000
  const MINUTE: Time := 60 * SECOND

  /** The text of a record key or header: the canonical form of a UUID, the
      decimal form of a number, or any other text. */
  datatype Text = UuidText(id: Uuid) | Decimal(n: int) | Plain(s: string)

  datatype Topic = RequestsTopic | Retry1m | Retry10m | Retry1h | DeadLetters

  /** One partition of one Kafka topic. */
  datatype Part = Part(topic: Topic, index: nat)

  /** What `url.Parse` says about a link. */
  datatype UrlParse = Malformed | Parsed(scheme: string, host: string)
  datatype Url = Url(text: string, parse: UrlParse)

  datatype RequestedData = RequestedData(
    postId: Uuid, feedId: Uuid, title: string, body: string, url: Url, publishedAt: Time)

  datatype Requested = Requested(
    eventId: Uuid, eventType: string, schemaVersion: int, occurredAt: Time, producer: string,
    notificationId: Uuid, userId: Uuid, template: string, data: RequestedData)

  datatype Retry = Retry(deliveryId: Uuid, eventId: Uuid, userId: Uuid, attemptNo: int)

  /** A JSON payload by the kind of object it holds; `NotJson` is anything that
      does not decode, trailing data included. */
  datatype Payload =
    | RequestedJson(event: Requested)
    | DispatchJson(retry: Retry, errorCode: string)
    | InvalidJson(source: Part, offset: nat, reason: string)
    | NotJson

  /** A record as Kafka stores it: header order is kept. */
  datatype Record = Record(key: Text, headers: seq<(string, Text)>, value: Payload)

  type Log = map<Part, seq<Record>>

  function LogAt(log: Log, p: Part): seq<Record> {
    if p in log then log[p] else []
  }

  function Appended(log: Log, p: Part, r: Record): Log {
    log[p := LogAt(log, p) + [r]]
  }

  datatype Kind = RetryKind | DlqKind

  /** What an outbox row reports: a request for one (post, user), or the end of
      one attempt of one delivery. */
  datatype Origin =
    | IntentOf(post: Uuid, user: Uuid)
    | DispatchOf(delivery: Uuid, attempt: int, kind: Kind)

  /** A row of `outbox_events` (an intent) or `notification_dispatch_outbox`. */
  datatype OutboxRow = OutboxRow(
    origin: Origin, route: Option<Topic>, key: Text, payload: Payload, eventType: string, version: int,
    attempts: nat, availableAt: Time, createdAt: Time, publishedAt: Option<Time>)

  type Outbox = map<Uuid, OutboxRow>

  function Origins(rows: Outbox): set<Origin> {
    set id | id in rows :: rows[id].origin
  }

  datatype ChannelType = Telegram | Email

  datatype Channel = Channel(user: Uuid, kind: ChannelType, destination: string, enabled: bool, createdAt: Time)

  datatype InboxRow = InboxRow(user: Uuid, payload: Payload)

  datatype Status = Pending | Processing | RetryWait | Sent | Failed | Cancelled

  datatype Delivery = Delivery(
    event: Uuid, user: Uuid, channel: Uuid, status: Status, attempts: nat, availableAt: Time,
    token: Option<Uuid>, lease: Option<Time>, sentAt: Option<Time>, lastError: Option<string>, createdAt: Time)

  datatype Message = Message(recipient: string, title: string, body: string, url: string)

  /** A claimed delivery in a worker's hands; it outlives the claim. */
  datatype Task = Task(
    id: Uuid, event: Uuid, user: Uuid, token: Uuid, attempts: nat, channelType: ChannelType, message: Message)

  function Elements<T>(s: seq<T>): set<T> {
    set x | x in s
  }

  function Min(a: int, b: int): int { if a <= b then a else b }

  function Max(a: int, b: int): int { if a <= b then b else a }

  function Pow2(n: nat): (r: nat)
    ensures r >= 1
  {
    if n == 0 then 1 else 2 * Pow2(n - 1)
  }
}
