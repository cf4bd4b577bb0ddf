/** Requests end to end: no intent is lost, none is delivered twice to a channel. */
module Requests {
  import opened Types
  import opened Store
  import opened Machine
  import opened Invariant
  import opened Preservation
  import opened Steps
  import Contract
  import Ingest
  import Relay

  /** The record at the position was reported to the dead letters. */
  ghost predicate ReportedAt(log: Log, p: Part, i: nat, rec: Record) {
    p in log && p.topic == RequestsTopic && i < |log[p]| && log[p][i] == rec && Reported(log, p, i)
  }

  /** Where a request can be: still in the outbox, in the log where the consumer has yet to
      pass, accepted as it was written, or reported. */
  ghost predicate Located(s: Sys, id: Uuid)
    requires id in s.events
  {
    var rec := Relay.RecordOf(id, s.events[id]);
    || s.events[id].publishedAt.None?
    || Ahead(s.log, s.committed, RequestsTopic, rec)
    || Accepted(s.db.inbox, s.events[id].payload)
    || exists p, i :: ReportedAt(s.log, p, i, rec)
  }

  /** No intent is ever lost, in any reachable state. */
  lemma NoLostRequest(cfg: Config, s: Sys, id: Uuid)
    requires Inv(cfg, s) && id in s.events
    ensures Located(s, id)
  {
    hide DbInv, RowInv, RetryLogOk, NoLostRetry, Reported, Accepted;
    if s.events[id].publishedAt.Some? {
      assert s.events[id].route == Some(RequestsTopic) by { IntentRouted(cfg, s, id); }
      var rec := Relay.RecordOf(id, s.events[id]);
      assert rec.value == s.events[id].payload;
      hide Relay.RecordOf;
      var p, i :| p in s.log && p.topic == RequestsTopic && 0 <= i < |s.log[p]| && s.log[p][i] == rec;
      if CommittedAt(s.committed, p) <= i {
        assert Ahead(s.log, s.committed, RequestsTopic, rec);
      } else {
        assert Accepted(s.db.inbox, rec.value) || ReportedAt(s.log, p, i, rec);
      }
    }
  }

  lemma IntentRouted(cfg: Config, s: Sys, id: Uuid)
    requires Inv(cfg, s) && id in s.events
    ensures s.events[id].route == Some(RequestsTopic)
  {
    hide DbInv, LogInv;
    assert EventOk(id, s.events[id]);
  }

  // ----- Exactly one delivery per channel, fixed at the first accept -----

  /** The deliveries made for an event. */
  function MadeFor(deliveries: Deliveries, event: Uuid): set<Uuid> {
    set id | id in deliveries && deliveries[id].event == event
  }

  /** The first accept makes exactly one delivery, pending, for each enabled channel of the user. */
  lemma FirstAccept(cfg: Config, s: Sys, event: Requested, ids: map<Uuid, Uuid>)
    requires Inv(cfg, s) && event.eventId !in s.db.inbox
    requires Assigns(ids, Targets(s.db.channels, event.userId)) && forall i :: i in ids ==> Fresh(s, i)
    ensures var after := Accepting(s, event, ids).db.deliveries;
            && MadeFor(after, event.eventId) == ids.Keys
            && (forall i :: i in ids ==> after[i] == NewDelivery(event.eventId, event.userId, ids[i], s.now))
            && (forall c :: c in Targets(s.db.channels, event.userId) <==> exists i :: i in ids && after[i].channel == c)
            && (forall x, y :: x in ids && y in ids && after[x].channel == after[y].channel ==> x == y)
  {
    hide Inv, Targets;
    NothingMadeYet(cfg, s, event.eventId);
    var after := Accepting(s, event, ids).db.deliveries;
    assert forall i :: i in ids ==> after[i] == NewDelivery(event.eventId, event.userId, ids[i], s.now);
    assert forall id :: id in after && after[id].event == event.eventId ==> id in ids;
  }

  lemma NothingMadeYet(cfg: Config, s: Sys, event: Uuid)
    requires Inv(cfg, s) && event !in s.db.inbox
    ensures forall id :: id in s.db.deliveries ==> s.db.deliveries[id].event != event
    ensures forall i :: Fresh(s, i) ==> i !in s.db.deliveries
  {
    hide RowInv, LogInv;
    forall id | id in s.db.deliveries ensures s.db.deliveries[id].event != event {
      Running(cfg, s, id);
    }
  }

  /** In every reachable state: at most one delivery per (event, channel). */
  lemma OneDeliveryPerChannel(cfg: Config, s: Sys, x: Uuid, y: Uuid)
    requires Inv(cfg, s) && x in s.db.deliveries && y in s.db.deliveries
    requires s.db.deliveries[x].event == s.db.deliveries[y].event && s.db.deliveries[x].channel == s.db.deliveries[y].channel
    ensures x == y
  {
    assert SamePair(s.db.deliveries[x], s.db.deliveries[y]);
  }

  /** What is accepted stays, with its deliveries. */
  ghost predicate Kept(db: Db, db2: Db, event: Uuid) {
    event in db.inbox ==> event in db2.inbox && db2.inbox[event] == db.inbox[event]
                          && MadeFor(db2.deliveries, event) == MadeFor(db.deliveries, event)
  }

  lemma KeptBySame(db: Db, db2: Db, event: Uuid)
    requires db2.inbox == db.inbox && db2.deliveries.Keys == db.deliveries.Keys
    requires forall id :: id in db.deliveries ==> db2.deliveries[id].event == db.deliveries[id].event
    ensures Kept(db, db2, event)
  {
    assert forall id :: id in MadeFor(db2.deliveries, event) <==> id in MadeFor(db.deliveries, event);
  }

  lemma KeptByAccept(s: Sys, event: Requested, ids: map<Uuid, Uuid>, e: Uuid)
    requires event.eventId !in s.db.inbox && forall i :: i in ids ==> i !in s.db.deliveries
    ensures Kept(s.db, Accepting(s, event, ids).db, e)
  {
    if e in s.db.inbox {
      var after := Accepting(s, event, ids).db;
      assert forall id :: id in MadeFor(after.deliveries, e) <==> id in MadeFor(s.db.deliveries, e);
    }
  }

  lemma KeptByStored(cfg: Config, s: Sys, p: Part, offset: nat, ids: map<Uuid, Uuid>, e: Uuid)
    requires Inv(cfg, s) && Consumable(s, p, offset, ids)
    ensures Kept(s.db, Stored(s, p, offset, ids).db, e)
  {
    FreshIsNew(cfg, s);
    hide DbInv, RowInv, RetryLogOk, Contract.RouteRecord, Kept, Stored, Assigns, Targets;
    if p.topic == RequestsTopic {
      StoredRequest(s, p, offset, ids);
      var v := VerdictAt(s, p, offset);
      if AcceptsNew(s, v) {
        KeptByAccept(s, v.event, ids, e);
      } else {
        KeptBySame(s.db, s.db, e);
      }
    } else {
      StoredRetry(s, p, offset, ids);
      KeptByResume(s.db, LogAt(s.log, p)[offset].value.retry, s.now, e);
    }
  }

  lemma FreshIsNew(cfg: Config, s: Sys)
    requires Inv(cfg, s)
    ensures forall i :: Fresh(s, i) ==> i !in s.db.deliveries
  {
    hide RowInv, LogInv;
  }

  lemma KeptByResume(db: Db, r: Retry, now: Time, e: Uuid)
    ensures Kept(db, ResumeRetry(db, r, now), e)
  {
    hide Active, Kept;
    KeptBySame(db, ResumeRetry(db, r, now), e);
  }

  // Every other transaction updates rows in place: the inbox and the set of deliveries stay.

  lemma KeptByCancel(db: Db, user: Uuid, channel: Uuid, db2: Db, e: Uuid)
    requires db2.inbox == db.inbox && db2.deliveries == CancelWaiting(db.deliveries, user, channel)
    ensures Kept(db, db2, e)
  {
    hide Kept;
    KeptBySame(db, db2, e);
  }

  lemma KeptByStop(db: Db, task: Task, delay: int, code: string, row: Uuid, now: Time, e: Uuid)
    ensures Kept(db, MarkFailed(db, task, delay, code, row, now).0, e) && Kept(db, MarkSent(db, task, now).0, e)
  {
    hide Insert, DispatchRow, SafeCode, RetryTopic, Active, Kept;
    KeptBySame(db, MarkFailed(db, task, delay, code, row, now).0, e);
    KeptBySame(db, MarkSent(db, task, now).0, e);
  }

  lemma KeptByRecovery(db: Db, id: Uuid, maxAttempts: int, row: Uuid, now: Time, e: Uuid)
    requires id in db.deliveries
    ensures Kept(db, RecoverOne(db, id, maxAttempts, row, now), e)
  {
    hide Insert, DispatchRow, Active, Kept;
    KeptBySame(db, RecoverOne(db, id, maxAttempts, row, now), e);
  }

  lemma KeptByStep(cfg: Config, s: Sys, a: Action, e: Uuid)
    requires Inv(cfg, s) && Enabled(s, a)
    ensures Kept(s.db, Apply(cfg, s, a).db, e)
  {
    hide Inv, Kept, Contract.RouteRecord, Processed, MarkFailed, MarkSent, RecoverOne, CancelWaiting, ChannelClash, Relay.Settle;
    match a
    case Consume(p, offset, ids, _, _, _, _) => KeptByStored(cfg, s, p, offset, ids, e);
    case SetEnabled(user, channel, enabled) =>
      if enabled || !Owns(s.db, user, channel) {
        KeptBySame(s.db, Apply(cfg, s, a).db, e);
      } else {
        KeptByCancel(s.db, user, channel, Apply(cfg, s, a).db, e);
      }
    case DropChannel(user, channel) =>
      if Owns(s.db, user, channel) {
        KeptByCancel(s.db, user, channel, Apply(cfg, s, a).db, e);
      } else {
        KeptBySame(s.db, s.db, e);
      }
    case Deliver(task) => KeptByStop(s.db, task, 0, "", NIL, s.now, e);
    case Fail(task, failure, random, code, row) =>
      KeptByStop(s.db, task, FailDelay(cfg, task.attempts, failure, random), code, row, s.now, e);
    case Recover(id, row) => KeptByRecovery(s.db, id, cfg.recoveryLimit, row, s.now, e);
    case _ => KeptBySame(s.db, Apply(cfg, s, a).db, e);
  }

  /** Over any run: an accepted request keeps its payload and exactly the deliveries made
      for it at its first accept, however often it is republished or processed again and
      whatever channels are added or enabled later. */
  lemma {:induction false} DeliverySetFixed(cfg: Config, s: Sys, run: seq<Action>, e: Uuid)
    requires Inv(cfg, s) && IsRun(cfg, s, run)
    ensures Kept(s.db, After(cfg, s, run).db, e)
    decreases |run|
  {
    hide Inv, Enabled, Apply;
    if run != [] {
      KeptByStep(cfg, s, run[0], e);
      StepKeeps(cfg, s, run[0]);
      DeliverySetFixed(cfg, Apply(cfg, s, run[0]), run[1..], e);
    }
  }

  lemma Replayed(cfg: Config, s: Sys, p: Part, offset: nat, ids: map<Uuid, Uuid>)
    requires Inv(cfg, s) && p.topic == RequestsTopic && offset < |LogAt(s.log, p)|
    requires VerdictAt(s, p, offset).Accept? && VerdictAt(s, p, offset).event.eventId in s.db.inbox
    ensures var value := LogAt(s.log, p)[offset].value;
            Processed(s.db, VerdictAt(s, p, offset), value, ids, s.now) ==
            (s.db, if Accepted(s.db.inbox, value) then None else Some("identity_conflict"))
  {
    RequestVerdict(s, p, offset);
    assert InboxOk(s.db.inbox);
    hide Contract.RouteRecord, Inv;
  }

  /** Processing an accepted event again leaves the database as it is, whatever user and
      payload the record names. It is a conflict exactly when the payload is not the
      accepted one, and then one dead letter is published, as far as the broker takes it. */
  lemma ReplayIsHarmless(
    cfg: Config, s: Sys, p: Part, offset: nat, ids: map<Uuid, Uuid>, digest: Uuid, index: nat, o: Relay.Outcome, commit: bool)
    requires Inv(cfg, s) && p.topic == RequestsTopic && offset < |LogAt(s.log, p)|
    requires VerdictAt(s, p, offset).Accept? && VerdictAt(s, p, offset).event.eventId in s.db.inbox
    ensures var same := Accepted(s.db.inbox, LogAt(s.log, p)[offset].value);
            ConsumeStep(s, p, offset, ids, digest, index, o, commit) ==
            s.(log := if same then s.log
                 else Relay.AppendedIf(s.log, Part(DeadLetters, index),
                                       InvalidRecord(p, offset, "identity_conflict", digest), o.appended),
               committed := if (same || o.acked) && commit then s.committed[p := offset + 1] else s.committed)
  {
    Replayed(cfg, s, p, offset, ids);
    assert !AcceptsNew(s, VerdictAt(s, p, offset));
    hide Inv, VerdictAt, Processed, Accepted, InvalidRecord, Relay.AppendedIf, AcceptsNew, ConsumeStep;
    var reason := if Accepted(s.db.inbox, LogAt(s.log, p)[offset].value) then None else Some("identity_conflict");
    NothingNew(s, p, offset, ids, digest, index, o, commit, s.db, reason);
  }

  /** What the relay publishes for an intent is accepted exactly when the post has a
      title that is not blank, an absolute http(s) link and a publication date (and its
      identifiers and the clock are not the zero ones); then it decodes to the intent. */
  lemma IntentRoundTrip(id: Uuid, user: Uuid, post: Ingest.Post, now: Time)
    ensures var row := Ingest.NewIntent(id, user, post, now);
            var v := Contract.RouteRecord(RequestsTopic, Relay.RecordOf(id, row));
            var link := post.url.parse;
            if id != NIL && user != NIL && post.id != NIL && post.feed != NIL && now != ZERO_TIME
               && post.publishedAt != ZERO_TIME && (exists i :: 0 <= i < |post.title| && !Contract.IsSpace(post.title[i]))
               && link.Parsed? && (link.scheme == "http" || link.scheme == "https") && link.host != ""
            then v == Contract.Accept(Requested(
                        id, "notification.requested", 1, now, "feedflow-monolith", id, user, "new_post",
                        RequestedData(post.id, post.feed, post.title, BodyOf(post), post.url, post.publishedAt)))
            else v == Contract.Reject("invalid_request")
  {
    var row := Ingest.NewIntent(id, user, post, now);
    Contract.WireHeadersRoundTrip(id, row.eventType, row.version);
    assert Contract.TrimSpace(Ingest.PRODUCER) != "" by { assert Ingest.PRODUCER[0] == 'f'; }
    hide Contract.WireHeaders, Contract.HeaderMap, Contract.TrimSpace;
  }

  /** The description, or nothing. */
  function BodyOf(post: Ingest.Post): string {
    if post.description == None then "" else post.description.value
  }
}
