/** One run, spelled out: a post is announced, delivered once in vain, and waits for its
    retry. The statements over reachable states and runs speak about states like these. */
module Example {
  import opened Types
  import opened Store
  import opened Machine
  import Contract
  import Ingest
  import Invariant
  import Relay
  import Requests
  import RetryPolicy
  import opened Runtime
  import Worker

  const USER: Uuid := 7
  const CHANNEL_ID: Uuid := 10
  const INTENT: Uuid := 20
  const DELIVERY: Uuid := 50
  const TOKEN: Uuid := 60
  const ROW: Uuid := 70
  const CHANNEL := Channel(USER, Email, "reader@example.org", true, 5)
  const POST := Ingest.Post(30, 40, "News", None, 3, Url("http://example.org/1", Parsed("http", "example.org")))
  const REQUESTS := Part(RequestsTopic, 0)
  const OUTAGE := RetryPolicy.Failure(Some(true), false, None)

  const ANNOUNCED := Ingest.NewIntent(INTENT, USER, POST, 5)
  const TASK := Task(DELIVERY, INTENT, USER, TOKEN, 1, Email, Message("reader@example.org", "News", "", "http://example.org/1"))

  const ACCEPTED := Delivery(INTENT, USER, CHANNEL_ID, Pending, 0, 5, None, None, None, None, 5)

  /** From the empty system to an announced post. */
  lemma Announces() returns (s: Sys)
    ensures Reaches(WIRED, INIT, s)
    ensures s == INIT.(now := 5, db := INIT.db.(channels := map[CHANNEL_ID := CHANNEL]),
                       events := map[INTENT := ANNOUNCED], used := {NIL, INTENT})
  {
    hide Reaches, Ingest.NewIntent;
    ReachesStep(WIRED, INIT, Tick(5));
    var a := Apply(WIRED, INIT, Tick(5));
    ReachesStep(WIRED, a, AddChannel(CHANNEL_ID, CHANNEL));
    var b := Apply(WIRED, a, AddChannel(CHANNEL_ID, CHANNEL));
    ReachesStep(WIRED, b, Intend(INTENT, USER, POST));
    s := Apply(WIRED, b, Intend(INTENT, USER, POST));
    assert s.events == map[INTENT := ANNOUNCED];
    ReachesTrans(WIRED, INIT, a, b);
    ReachesTrans(WIRED, INIT, b, s);
  }

  /** The relay publishes it. */
  lemma Publishes(s: Sys) returns (t: Sys)
    requires s.now == 5 && s.events == map[INTENT := ANNOUNCED] && s.log == map[]
    ensures Reaches(WIRED, s, t)
    ensures t == s.(events := t.events, log := map[REQUESTS := [Relay.RecordOf(INTENT, ANNOUNCED)]])
  {
    hide Reaches, Relay.RecordOf;
    var publish := RelayRequest(INTENT, 0, Relay.DELIVERED);
    var rec := Relay.RecordOf(INTENT, ANNOUNCED);
    assert s.events[INTENT] == ANNOUNCED && ANNOUNCED.route == Some(RequestsTopic);
    ReachesStep(WIRED, s, publish);
    t := Apply(WIRED, s, publish);
    assert LogAt(s.log, REQUESTS) + [rec] == [rec];
  }

  lemma Verdict(s: Sys)
    requires s.log == map[REQUESTS := [Relay.RecordOf(INTENT, ANNOUNCED)]]
    ensures VerdictAt(s, REQUESTS, 0) == Contract.Accept(ANNOUNCED.payload.event)
    ensures LogAt(s.log, REQUESTS)[0].value == ANNOUNCED.payload
    ensures ANNOUNCED.payload.event.eventId == INTENT && ANNOUNCED.payload.event.userId == USER
  {
    assert Contract.TrimSpace(POST.title) != "" by { assert POST.title[0] == 'N'; }
    Requests.IntentRoundTrip(INTENT, USER, POST, 5);
    hide Contract.RouteRecord;
  }

  /** Accepting the first record of a partition. */
  lemma AcceptReaches(cfg: Config, s: Sys, p: Part, ids: map<Uuid, Uuid>) returns (t: Sys)
    requires p.topic == RequestsTopic && s.committed == map[] && LogAt(s.log, p) != []
    requires VerdictAt(s, p, 0).Accept? && VerdictAt(s, p, 0).event.eventId !in s.db.inbox
    requires Assigns(ids, Targets(s.db.channels, VerdictAt(s, p, 0).event.userId)) && forall i :: i in ids ==> Fresh(s, i)
    ensures Reaches(cfg, s, t)
    ensures t.db == AcceptRequest(s.db, VerdictAt(s, p, 0).event, LogAt(s.log, p)[0].value, ids, s.now).0
    ensures t.now == s.now && t.tasks == s.tasks && t.used == s.used + ids.Keys && ids.Keys <= t.trail.Keys
  {
    hide Reaches, Contract.RouteRecord, Assigns, Targets;
    var consume := Consume(p, 0, ids, NIL, 0, Relay.DELIVERED, true);
    ReachesStep(cfg, s, consume);
    t := Apply(cfg, s, consume);
  }

  /** The consumer accepts it: one pending delivery. */
  lemma Accepts(s: Sys) returns (t: Sys)
    requires s.now == 5 && s.db == INIT.db.(channels := map[CHANNEL_ID := CHANNEL])
    requires s.log == map[REQUESTS := [Relay.RecordOf(INTENT, ANNOUNCED)]]
    requires s.used == {NIL, INTENT} && s.committed == map[] && s.tasks == {} && s.trail == map[]
    ensures Reaches(WIRED, s, t)
    ensures t.db == s.db.(inbox := map[INTENT := InboxRow(USER, ANNOUNCED.payload)], deliveries := map[DELIVERY := ACCEPTED])
    ensures t.now == 5 && t.tasks == {} && t.used == {NIL, INTENT, DELIVERY} && DELIVERY in t.trail
  {
    Verdict(s);
    hide Reaches, Relay.RecordOf, VerdictAt, Ingest.NewIntent;
    var ids := map[DELIVERY := CHANNEL_ID];
    OneTarget(s.db.channels);
    hide Assigns, Targets;
    t := AcceptReaches(WIRED, s, REQUESTS, ids);
    assert t.db.deliveries == map[DELIVERY := ACCEPTED];
  }

  lemma OneTarget(channels: map<Uuid, Channel>)
    requires channels == map[CHANNEL_ID := CHANNEL]
    ensures Assigns(map[DELIVERY := CHANNEL_ID], Targets(channels, USER))
  {
    var ids := map[DELIVERY := CHANNEL_ID];
    assert Targets(channels, USER) == {CHANNEL_ID} && ids[DELIVERY] == CHANNEL_ID;
  }

  /** A worker claims it. */
  lemma Claims(s: Sys) returns (t: Sys)
    requires s.db == Db(map[CHANNEL_ID := CHANNEL], map[INTENT := InboxRow(USER, ANNOUNCED.payload)],
                        map[DELIVERY := ACCEPTED], map[])
    requires s.now == 5 && s.tasks == {} && s.used == {NIL, INTENT, DELIVERY}
    ensures Reaches(WIRED, s, t)
    ensures t == s.(db := ClaimOne(s.db, DELIVERY, TOKEN, 65), tasks := {TASK}, used := s.used + {TOKEN})
  {
    hide Reaches;
    var claim := Machine.Claim(DELIVERY, TOKEN, 65, {Email});
    ReachesStep(WIRED, s, claim);
    t := Apply(WIRED, s, claim);
    assert t.tasks == {TASK};
  }

  /** The provider is down: it waits for its retry. */
  lemma Fails(s: Sys) returns (t: Sys)
    requires s.db.channels == map[CHANNEL_ID := CHANNEL] && s.db.deliveries == map[DELIVERY := Claimed(ACCEPTED, TOKEN, 65)]
    requires s.db.dispatch == map[] && s.tasks == {TASK} && s.used == {NIL, INTENT, DELIVERY, TOKEN} && DELIVERY in s.trail
    ensures Reaches(WIRED, s, t)
    ensures DELIVERY in t.db.deliveries && t.db.deliveries[DELIVERY].status == RetryWait && t.db.deliveries[DELIVERY].attempts == 1
    ensures ROW in t.db.dispatch && t.db.dispatch[ROW].origin == DispatchOf(DELIVERY, 1, RetryKind)
  {
    RetryPolicy.SentinelHolds(WIRED.policy, 1, OUTAGE, 0.5);
    hide Reaches, RetryPolicy.Policy.DelayOf;
    assert FailDelay(WIRED, 1, OUTAGE, 0.5) > 0;
    hide FailDelay, RetryTopic;
    var fail := Fail(TASK, OUTAGE, 0.5, "smtp_transient_error", ROW);
    ReachesStep(WIRED, s, fail);
    t := Apply(WIRED, s, fail);
  }

  /** So a delivery that waits for its retry, with its outbox row, is reached. */
  lemma RetryHappens() returns (s: Sys)
    ensures Reaches(WIRED, INIT, s) && Invariant.Inv(WIRED, s)
    ensures DELIVERY in s.db.deliveries && s.db.deliveries[DELIVERY].status == RetryWait
    ensures ROW in s.db.dispatch && s.db.dispatch[ROW].origin == DispatchOf(DELIVERY, 1, RetryKind)
  {
    Invariant.InitInv(WIRED);
    hide Reaches, Invariant.Inv;
    var a := Announces();
    var p := Publishes(a);
    ReachesTrans(WIRED, INIT, a, p);
    var b := Accepts(p);
    ReachesTrans(WIRED, INIT, p, b);
    var c := Claims(b);
    ReachesTrans(WIRED, INIT, b, c);
    s := Fails(c);
    ReachesTrans(WIRED, INIT, c, s);
    Worker.ReachesKeeps(WIRED, INIT, s);
  }
}
