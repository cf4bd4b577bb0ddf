/** From post to channel: over whole runs, a post is delivered to a channel at most once. */
module EndToEnd {
  import opened Types
  import opened Store
  import opened Machine
  import opened Invariant
  import opened Preservation
  import opened Steps
  import Contract
  import Ingest
  import Relay
  import Requests

  // ----- Where requests come from -----

  /** The row announces the post and user of its origin. */
  predicate Announces(row: OutboxRow) {
    && row.payload.RequestedJson?
    && row.origin == IntentOf(row.payload.event.data.postId, row.payload.event.userId)
  }

  /** `UNIQUE (aggregate_id, partition_key)`: one intent for each post and user. */
  ghost predicate IntentsOk(events: Outbox) {
    && (forall e :: e in events ==> Announces(events[e]))
    && (forall e, f :: e in events && f in events && events[e].origin == events[f].origin ==> e == f)
  }

  /** The payload is, word for word, that of an intent. */
  predicate FromIntent(payload: Payload, events: Outbox) {
    payload.RequestedJson? && payload.event.eventId in events && events[payload.event.eventId].payload == payload
  }

  ghost predicate LogFromIntents(log: Log, events: Outbox) {
    forall p, i :: p in log && p.topic == RequestsTopic && 0 <= i < |log[p]| ==> FromIntent(log[p][i].value, events)
  }

  ghost predicate InboxFromIntents(inbox: map<Uuid, InboxRow>, events: Outbox) {
    forall e :: e in inbox ==> e in events && events[e].payload == inbox[e].payload
  }

  /** Every request in the log and in the inbox goes back to the one intent for its post and user. */
  ghost predicate Sourced(s: Sys) {
    IntentsOk(s.events) && LogFromIntents(s.log, s.events) && InboxFromIntents(s.db.inbox, s.events)
  }

  /** Intents are added, never changed in what they announce. */
  ghost predicate EventsGrow(events: Outbox, events2: Outbox) {
    forall e :: e in events ==>
      e in events2 && events2[e].payload == events[e].payload && events2[e].origin == events[e].origin
  }

  lemma GrowKeeps(log: Log, inbox: map<Uuid, InboxRow>, events: Outbox, events2: Outbox)
    requires EventsGrow(events, events2) && LogFromIntents(log, events) && InboxFromIntents(inbox, events)
    ensures LogFromIntents(log, events2) && InboxFromIntents(inbox, events2)
  {
    forall p, i | p in log && p.topic == RequestsTopic && 0 <= i < |log[p]| ensures FromIntent(log[p][i].value, events2) {
      assert FromIntent(log[p][i].value, events);
    }
  }

  lemma AppendKeeps(log: Log, p: Part, rec: Record, events: Outbox)
    requires LogFromIntents(log, events) && (p.topic == RequestsTopic ==> FromIntent(rec.value, events))
    ensures LogFromIntents(Appended(log, p, rec), events)
  {
    hide FromIntent;
  }

  lemma IntendSources(cfg: Config, s: Sys, a: Action)
    requires Sourced(s) && Inv(cfg, s) && a.Intend? && Enabled(s, a)
    ensures Sourced(Apply(cfg, s, a))
  {
    NewEvent(cfg, s, a.intentId);
    hide Inv;
    var row := Ingest.NewIntent(a.intentId, a.user, a.post, s.now);
    var events2 := s.events[a.intentId := row];
    assert forall e :: e in s.events ==> s.events[e].origin in Origins(s.events);
    assert IntentsOk(events2);
    assert EventsGrow(s.events, events2);
    GrowKeeps(s.log, s.db.inbox, s.events, events2);
  }

  lemma NewEvent(cfg: Config, s: Sys, id: Uuid)
    requires Inv(cfg, s) && Fresh(s, id)
    ensures id !in s.events
  {
    hide RowInv, LogInv, LivesOk, AnchorsOk, PairsUnique, InboxOk, TasksOk;
  }

  lemma RelayRequestSources(cfg: Config, s: Sys, a: Action)
    requires Sourced(s) && Inv(cfg, s) && a.RelayRequest? && Enabled(s, a)
    ensures Sourced(Apply(cfg, s, a))
  {
    var row := s.events[a.rowId];
    EventRow(cfg, s, a.rowId);
    SettleSources(s.events, a.rowId, s.now, a.outcome);
    hide Inv, LogFromIntents, InboxFromIntents, IntentsOk, EventsGrow, Relay.Settle, Relay.RecordOf, Relay.AppendedIf, FromIntent;
    var events2 := Relay.Settle(s.events, a.rowId, s.now, a.outcome);
    var p := Part(row.route.value, a.index);
    AppendedIfKeeps(s.log, p, Relay.RecordOf(a.rowId, row), s.events, a.outcome.appended);
    GrowKeeps(Relay.AppendedIf(s.log, p, Relay.RecordOf(a.rowId, row), a.outcome.appended), s.db.inbox, s.events, events2);
  }

  lemma SettleSources(events: Outbox, id: Uuid, now: Time, o: Relay.Outcome)
    requires id in events && IntentsOk(events)
    ensures var events2 := Relay.Settle(events, id, now, o); EventsGrow(events, events2) && IntentsOk(events2)
  {
  }

  lemma AppendedIfKeeps(log: Log, p: Part, rec: Record, events: Outbox, appended: bool)
    requires LogFromIntents(log, events) && (p.topic == RequestsTopic ==> FromIntent(rec.value, events))
    ensures LogFromIntents(Relay.AppendedIf(log, p, rec, appended), events)
  {
    hide FromIntent;
    AppendKeeps(log, p, rec, events);
  }

  lemma EventRow(cfg: Config, s: Sys, id: Uuid)
    requires Inv(cfg, s) && id in s.events
    ensures FromIntent(Relay.RecordOf(id, s.events[id]).value, s.events)
  {
    hide DbInv, LogInv;
    assert EventOk(id, s.events[id]);
  }

  lemma RelayDispatchSources(cfg: Config, s: Sys, a: Action)
    requires Sourced(s) && Inv(cfg, s) && a.RelayDispatch? && Enabled(s, a)
    ensures Sourced(Apply(cfg, s, a))
  {
    DispatchTopic(cfg, s, a.rowId);
    hide Inv, LogFromIntents, InboxFromIntents, IntentsOk, Relay.RecordOf, Relay.Settle;
    var row := s.db.dispatch[a.rowId];
    AppendKeeps(s.log, Part(row.route.value, a.index), Relay.RecordOf(a.rowId, row), s.events);
  }

  lemma DispatchTopic(cfg: Config, s: Sys, r: Uuid)
    requires Inv(cfg, s) && r in s.db.dispatch
    ensures s.db.dispatch[r].route.Some? && s.db.dispatch[r].route.value != RequestsTopic
  {
    hide DbInv, LogInv;
    assert RowOk(s.db.dispatch[r], s.db.deliveries, s.trail);
  }

  lemma StoredSources(cfg: Config, s: Sys, p: Part, offset: nat, ids: map<Uuid, Uuid>)
    requires Sourced(s) && Inv(cfg, s) && Consumable(s, p, offset, ids)
    ensures InboxFromIntents(Stored(s, p, offset, ids).db.inbox, s.events)
  {
    hide Inv, Contract.RouteRecord, Stored, IntentsOk;
    RetryLog(cfg, s);
    if p.topic == RequestsTopic {
      StoredRequest(s, p, offset, ids);
      RequestVerdict(s, p, offset);
      assert FromIntent(LogAt(s.log, p)[offset].value, s.events);
    } else {
      StoredRetry(s, p, offset, ids);
      ResumeLeavesInbox(s.db, LogAt(s.log, p)[offset].value.retry, s.now);
    }
  }

  lemma RetryLog(cfg: Config, s: Sys)
    requires Inv(cfg, s)
    ensures RetryLogOk(s.log, s.db.deliveries, s.trail, s.now)
  {
    hide DbInv, RowInv;
  }

  lemma ResumeLeavesInbox(db: Db, r: Retry, now: Time)
    ensures ResumeRetry(db, r, now).inbox == db.inbox
  {
  }

  lemma ConsumeSources(cfg: Config, s: Sys, a: Action)
    requires Sourced(s) && Inv(cfg, s) && a.Consume? && Enabled(s, a)
    ensures Sourced(Apply(cfg, s, a))
  {
    StoredSources(cfg, s, a.part, a.offset, a.ids);
    hide Inv, LogFromIntents, InboxFromIntents, IntentsOk, Contract.RouteRecord, InvalidRecord, Processed;
    var reason := Reason(s, a.part, a.offset, a.ids);
    if reason.Some? {
      AppendKeeps(s.log, Part(DeadLetters, a.index), InvalidRecord(a.part, a.offset, reason.value, a.digest), s.events);
    }
  }

  lemma MarksLeaveInbox(db: Db, task: Task, delay: int, code: string, row: Uuid, now: Time)
    ensures MarkSent(db, task, now).0.inbox == db.inbox && MarkFailed(db, task, delay, code, row, now).0.inbox == db.inbox
  {
    hide Insert, DispatchRow, Active, SafeCode, RetryTopic;
  }

  lemma RecoveryLeavesInbox(db: Db, id: Uuid, maxAttempts: int, row: Uuid, now: Time)
    requires id in db.deliveries
    ensures RecoverOne(db, id, maxAttempts, row, now).inbox == db.inbox
  {
    hide Insert, DispatchRow, Active;
  }

  lemma RestSources(cfg: Config, s: Sys, a: Action)
    requires Enabled(s, a) && !a.Intend? && !a.RelayRequest? && !a.RelayDispatch? && !a.Consume?
    ensures var t := Apply(cfg, s, a); t.events == s.events && t.log == s.log && t.db.inbox == s.db.inbox
  {
    hide MarkSent, MarkFailed, RecoverOne, FailDelay, Active, Current, Store.Verdict, CancelWaiting, ChannelClash, HandedOut;
    match a
    case Deliver(task) => MarksLeaveInbox(s.db, task, 0, "", NIL, s.now);
    case Fail(task, failure, random, code, row) =>
      MarksLeaveInbox(s.db, task, FailDelay(cfg, task.attempts, failure, random), code, row, s.now);
    case Recover(id, row) => RecoveryLeavesInbox(s.db, id, cfg.recoveryLimit, row, s.now);
    case _ =>
  }

  lemma StepSources(cfg: Config, s: Sys, a: Action)
    requires Sourced(s) && Inv(cfg, s) && Enabled(s, a)
    ensures Sourced(Apply(cfg, s, a))
  {
    hide Inv, Enabled, Apply, IntentsOk, LogFromIntents, InboxFromIntents;
    if a.Intend? {
      IntendSources(cfg, s, a);
    } else if a.RelayRequest? {
      RelayRequestSources(cfg, s, a);
    } else if a.RelayDispatch? {
      RelayDispatchSources(cfg, s, a);
    } else if a.Consume? {
      ConsumeSources(cfg, s, a);
    } else {
      RestSources(cfg, s, a);
    }
  }

  /** Over any run, every request in the log and the inbox stays traceable to its one intent. */
  lemma {:induction false} RunSources(cfg: Config, s: Sys, run: seq<Action>)
    requires Sourced(s) && Inv(cfg, s) && IsRun(cfg, s, run)
    ensures Sourced(After(cfg, s, run))
    decreases |run|
  {
    hide Inv, Enabled, Apply, Sourced;
    if run != [] {
      StepSources(cfg, s, run[0]);
      StepKeeps(cfg, s, run[0]);
      RunSources(cfg, Apply(cfg, s, run[0]), run[1..]);
    }
  }

  /** The delivery is about this post, for this user. */
  predicate Concerns(db: Db, id: Uuid, post: Uuid, user: Uuid) {
    && id in db.deliveries && db.deliveries[id].event in db.inbox
    && var payload := db.inbox[db.deliveries[id].event].payload;
       payload.RequestedJson? && payload.event.data.postId == post && payload.event.userId == user
  }

  /** In every state of every run from the empty system, however often intents are
      published and records consumed: a post has at most one delivery for a channel. */
  lemma OneDeliveryPerPost(cfg: Config, run: seq<Action>, post: Uuid, user: Uuid, x: Uuid, y: Uuid)
    requires cfg.Valid() && IsRun(cfg, INIT, run)
    requires var db := After(cfg, INIT, run).db;
             && Concerns(db, x, post, user) && Concerns(db, y, post, user)
             && db.deliveries[x].channel == db.deliveries[y].channel
    ensures x == y
  {
    InitInv(cfg);
    assert Sourced(INIT);
    var s := After(cfg, INIT, run);
    RunSources(cfg, INIT, run);
    RunKeeps(cfg, INIT, run);
    SameIntent(s, post, user, x, y);
    hide Inv, IsRun, After, Concerns, Sourced;
    Requests.OneDeliveryPerChannel(cfg, s, x, y);
  }

  lemma SameIntent(s: Sys, post: Uuid, user: Uuid, x: Uuid, y: Uuid)
    requires Sourced(s) && Concerns(s.db, x, post, user) && Concerns(s.db, y, post, user)
    ensures s.db.deliveries[x].event == s.db.deliveries[y].event
  {
    var e, f := s.db.deliveries[x].event, s.db.deliveries[y].event;
    assert Announces(s.events[e]) && Announces(s.events[f]);
  }
}
