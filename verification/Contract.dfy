/** The wire contract: which Kafka records the notifier accepts, and as what. */
module Contract {
  import opened Types

  const NOTIFICATION_REQUESTED := "notification.requested"
  const NOTIFICATION_RETRY := "notification.retry"
  const NOTIFICATION_DLQ := "notification.dlq"
  const NOTIFICATION_INVALID := "notification.invalid"
  const SCHEMA_V1 := 1
  const TEMPLATE_NEW_POST := "new_post"
  const JSON := "application/json"

  type Headers = map<string, Text>

  predicate IsSpace(c: char) {
    var u := c as int;
    (9 <= u <= 13) || u == 0x20 || u == 0x85 || u == 0xA0 || u == 0x1680 || (0x2000 <= u <= 0x200a)
    || u == 0x2028 || u == 0x2029 || u == 0x202f || u == 0x205f || u == 0x3000
  }

  /** `strings.TrimSpace`. */
  function TrimSpace(s: string): (t: string)
    ensures |t| <= |s|
    ensures t == "" <==> forall i :: 0 <= i < |s| ==> IsSpace(s[i])
    ensures t != "" ==> !IsSpace(t[0]) && !IsSpace(t[|t| - 1])
    decreases |s|
  {
    if s == "" then s
    else if IsSpace(s[0]) then
      assert forall i :: 0 < i < |s| ==> s[i] == s[1..][i - 1];
      TrimSpace(s[1..])
    else if IsSpace(s[|s| - 1]) then
      assert s[..|s| - 1][0] == s[0];
      TrimSpace(s[..|s| - 1])
    else s
  }

  /** A missing header reads as the empty text, which none of the wanted values is. */
  predicate HeaderIs(headers: Headers, name: string, want: Text) {
    name in headers && headers[name] == want
  }

  predicate Complete(event: Requested) {
    && event.eventId != NIL && event.notificationId == event.eventId && event.userId != NIL
    && event.eventType == NOTIFICATION_REQUESTED && event.schemaVersion == SCHEMA_V1
    && event.template == TEMPLATE_NEW_POST && event.occurredAt != ZERO_TIME && TrimSpace(event.producer) != ""
    && event.data.postId != NIL && event.data.feedId != NIL
    && TrimSpace(event.data.title) != "" && event.data.publishedAt != ZERO_TIME
  }

  predicate AbsoluteHttp(url: Url) {
    match url.parse
    case Malformed => false
    case Parsed(scheme, host) => (scheme == "http" || scheme == "https") && host != ""
  }

  function DecodeRequested(key: Text, headers: Headers, payload: Payload): (r: Option<Requested>)
    ensures r.Some? ==> payload == RequestedJson(r.value) && key == UuidText(r.value.userId)
  {
    match payload
    case RequestedJson(event) =>
      if !Complete(event) || key != UuidText(event.userId) then None
      else if !AbsoluteHttp(event.data.url) then None
      else if
        && HeaderIs(headers, "event_id", UuidText(event.eventId))
        && HeaderIs(headers, "event_type", Plain(NOTIFICATION_REQUESTED))
        && HeaderIs(headers, "schema_version", Decimal(SCHEMA_V1))
        && HeaderIs(headers, "content-type", Plain(JSON))
      then Some(event)
      else None
    case _ => None
  }

  function DecodeRetry(key: Text, payload: Payload): (r: Option<Retry>)
    ensures r.Some? ==> payload.DispatchJson? && payload.retry == r.value && r.value.attemptNo > 0
  {
    match payload
    case DispatchJson(event, _) =>
      if event.deliveryId == NIL || event.eventId == NIL || event.userId == NIL || event.attemptNo <= 0
         || key != UuidText(event.userId) then None
      else Some(event)
    case _ => None
  }

  predicate IsRetryTopic(topic: Topic) {
    topic.Retry1m? || topic.Retry10m? || topic.Retry1h?
  }

  /** The headers the relay sets, in the order the broker client writes them. */
  function WireHeaders(id: Uuid, eventType: string, version: int): seq<(string, Text)> {
    [("event_id", UuidText(id)), ("event_type", Plain(eventType)),
     ("schema_version", Decimal(version)), ("content-type", Plain(JSON))]
  }

  /** The header list read into a map: a later duplicate wins. */
  function HeaderMap(list: seq<(string, Text)>): Headers {
    if list == [] then map[]
    else HeaderMap(list[..|list| - 1])[list[|list| - 1].0 := list[|list| - 1].1]
  }

  lemma WireHeadersRoundTrip(id: Uuid, eventType: string, version: int)
    ensures HeaderMap(WireHeaders(id, eventType, version)) ==
            map["event_id" := UuidText(id), "event_type" := Plain(eventType),
                "schema_version" := Decimal(version), "content-type" := Plain(JSON)]
  {
    var list := WireHeaders(id, eventType, version);
    assert list[..3][..2] == list[..2] && list[..3][2] == list[2];
    assert list[..2][..1] == list[..1] && list[..2][1] == list[1];
    assert list[..1][..0] == [] && list[..1][0] == list[0];
    assert HeaderMap(list[..1]) == map["event_id" := UuidText(id)];
    assert HeaderMap(list[..2]) == map["event_id" := UuidText(id), "event_type" := Plain(eventType)];
  }

  /** What the consumer does with a record. */
  datatype Verdict = Accept(event: Requested) | Resume(retry: Retry) | Reject(reason: string)

  function Route(topic: Topic, key: Text, headers: Headers, payload: Payload): Verdict {
    if topic == RequestsTopic then
      match DecodeRequested(key, headers, payload)
      case Some(event) => Accept(event)
      case None => Reject("invalid_request")
    else if !IsRetryTopic(topic) then Reject("invalid_topic")
    else if
      || !HeaderIs(headers, "event_type", Plain(NOTIFICATION_RETRY))
      || !HeaderIs(headers, "schema_version", Decimal(SCHEMA_V1))
      || !HeaderIs(headers, "content-type", Plain(JSON))
    then Reject("invalid_retry")
    else if "event_id" !in headers || !headers["event_id"].UuidText? then Reject("invalid_retry")
    else
      match DecodeRetry(key, payload)
      case Some(event) => Resume(event)
      case None => Reject("invalid_retry")
  }

  function RouteRecord(topic: Topic, record: Record): Verdict {
    Route(topic, record.key, HeaderMap(record.headers), record.value)
  }

  // ----- What these decide -----

  /** The trimmed text is the text between the outermost characters that are not space. */
  lemma {:induction false} TrimmedIs(s: string)
    ensures exists i, j :: 0 <= i <= j <= |s| && IsTrimmed(s, i, j)
    decreases |s|
  {
    hide IsSpace;
    if s == "" {
      assert IsTrimmed(s, 0, 0);
    } else if IsSpace(s[0]) {
      TrimmedIs(s[1..]);
      var i, j :| 0 <= i <= j <= |s[1..]| && IsTrimmed(s[1..], i, j);
      TrimmedFront(s, i, j);
    } else if IsSpace(s[|s| - 1]) {
      TrimmedIs(s[..|s| - 1]);
      var i, j :| 0 <= i <= j <= |s[..|s| - 1]| && IsTrimmed(s[..|s| - 1], i, j);
      TrimmedBack(s, i, j);
    } else {
      assert IsTrimmed(s, 0, |s|);
    }
  }

  lemma TrimmedFront(s: string, i: nat, j: nat)
    requires s != "" && IsSpace(s[0]) && IsTrimmed(s[1..], i, j)
    ensures IsTrimmed(s, i + 1, j + 1)
  {
    hide IsSpace;
    assert s[1..][i..j] == s[i + 1..j + 1];
    assert forall k :: 0 < k < |s| ==> s[k] == s[1..][k - 1];
  }

  lemma TrimmedBack(s: string, i: nat, j: nat)
    requires s != "" && !IsSpace(s[0]) && IsSpace(s[|s| - 1]) && IsTrimmed(s[..|s| - 1], i, j)
    ensures IsTrimmed(s, i, j)
  {
    hide IsSpace;
    assert s[..|s| - 1][i..j] == s[i..j];
  }

  predicate IsTrimmed(s: string, i: nat, j: nat) {
    && i <= j <= |s| && TrimSpace(s) == s[i..j]
    && (forall k :: 0 <= k < i ==> IsSpace(s[k])) && (forall k :: j <= k < |s| ==> IsSpace(s[k]))
  }

  /** What counts as space: the Unicode characters with the White_Space property. */
  lemma SpacesAre(c: char)
    ensures IsSpace(c) <==>
              c as int in {9, 10, 11, 12, 13, 32, 0x85, 0xA0, 0x1680, 0x2000, 0x2001, 0x2002, 0x2003, 0x2004, 0x2005, 0x2006,
                           0x2007, 0x2008, 0x2009, 0x200a, 0x2028, 0x2029, 0x202f, 0x205f, 0x3000}
  {
  }

  predicate NotBlank(s: string) {
    exists i :: 0 <= i < |s| && !IsSpace(s[i])
  }

  /** A header reads as its last occurrence in the list, and is missing if it does not occur. */
  lemma {:induction false} LastHeaderCounts(list: seq<(string, Text)>, name: string)
    ensures name in HeaderMap(list) <==> exists i :: 0 <= i < |list| && list[i].0 == name
    ensures name in HeaderMap(list) ==>
              exists i :: 0 <= i < |list| && list[i] == (name, HeaderMap(list)[name])
                          && forall j :: i < j < |list| ==> list[j].0 != name
    decreases |list|
  {
    if list != [] {
      var front, last := list[..|list| - 1], list[|list| - 1];
      LastHeaderCounts(front, name);
      assert list == front + [last];
      if last.0 == name {
        assert list[|list| - 1] == (name, HeaderMap(list)[name]);
      } else if name in HeaderMap(front) {
        var i :| 0 <= i < |front| && front[i] == (name, HeaderMap(front)[name]) && forall j :: i < j < |front| ==> front[j].0 != name;
        assert list[i] == (name, HeaderMap(list)[name]);
      }
    }
  }

  /** A request is accepted, as what its payload says, exactly when it is complete, its link
      absolute, its key its user, and its headers are those of the event. */
  lemma RequestAcceptedIff(key: Text, headers: Headers, payload: Payload)
    ensures var r := DecodeRequested(key, headers, payload);
            if payload.RequestedJson? &&
               var e := payload.event;
               && e.eventId != NIL && e.notificationId == e.eventId && e.userId != NIL
               && e.eventType == "notification.requested" && e.schemaVersion == 1 && e.template == "new_post"
               && e.occurredAt != ZERO_TIME && NotBlank(e.producer) && e.data.postId != NIL && e.data.feedId != NIL
               && NotBlank(e.data.title) && e.data.publishedAt != ZERO_TIME && key == UuidText(e.userId)
               && e.data.url.parse.Parsed? && e.data.url.parse.scheme in {"http", "https"} && e.data.url.parse.host != ""
               && "event_id" in headers && headers["event_id"] == UuidText(e.eventId)
               && "event_type" in headers && headers["event_type"] == Plain("notification.requested")
               && "schema_version" in headers && headers["schema_version"] == Decimal(1)
               && "content-type" in headers && headers["content-type"] == Plain("application/json")
            then r == Some(payload.event) else r == None
  {
    hide TrimSpace, IsSpace;
    if payload.RequestedJson? {
      Blank(payload.event.producer);
      Blank(payload.event.data.title);
    }
  }

  lemma Blank(s: string)
    ensures TrimSpace(s) != "" <==> NotBlank(s)
  {
  }

  /** A retry is accepted exactly when it is complete and its key is its user. */
  lemma RetryAcceptedIff(key: Text, payload: Payload)
    ensures var r := DecodeRetry(key, payload);
            if payload.DispatchJson? &&
               var e := payload.retry;
               e.deliveryId != NIL && e.eventId != NIL && e.userId != NIL && e.attemptNo > 0 && key == UuidText(e.userId)
            then r == Some(payload.retry) else r == None
  {
  }

  /** Which records are accepted, which resume a retry, and why the others are rejected. */
  lemma RoutesExactly(topic: Topic, key: Text, headers: Headers, payload: Payload)
    ensures var v := Route(topic, key, headers, payload);
            match topic
            case RequestsTopic =>
              var r := DecodeRequested(key, headers, payload);
              v == if r.Some? then Accept(r.value) else Reject("invalid_request")
            case DeadLetters => v == Reject("invalid_topic")
            case _ =>
              var r := DecodeRetry(key, payload);
              if && "event_type" in headers && headers["event_type"] == Plain("notification.retry")
                 && "schema_version" in headers && headers["schema_version"] == Decimal(1)
                 && "content-type" in headers && headers["content-type"] == Plain("application/json")
                 && "event_id" in headers && headers["event_id"].UuidText? && r.Some?
              then v == Resume(r.value) else v == Reject("invalid_retry")
  {
    hide DecodeRequested, DecodeRetry;
  }
}
