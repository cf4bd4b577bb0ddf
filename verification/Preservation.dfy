/** Each kind of change a step makes keeps the invariant; every step is a few of them. */
module Preservation {
  import opened Types
  import opened Store
  import opened Machine
  import opened Invariant
  import Contract
  import Relay

  // ----- The log grows -----

  lemma StillInLog(log: Log, p: Part, rec: Record, topic: Topic, r: Record)
    requires InLog(log, topic, r)
    ensures InLog(Appended(log, p, rec), topic, r)
  {
    var q, i :| q in log && q.topic == topic && 0 <= i < |log[q]| && log[q][i] == r;
    assert Appended(log, p, rec)[q][i] == r;
  }

  lemma StillAhead(log: Log, committed: Offsets, p: Part, rec: Record, topic: Topic, r: Record)
    requires Ahead(log, committed, topic, r)
    ensures Ahead(Appended(log, p, rec), committed, topic, r)
  {
    var q, i :| q in log && q.topic == topic && CommittedAt(committed, q) <= i < |log[q]| && log[q][i] == r;
    assert Appended(log, p, rec)[q][i] == r;
  }

  lemma StillReported(log: Log, p: Part, rec: Record, q: Part, offset: nat)
    requires Reported(log, q, offset)
    ensures Reported(Appended(log, p, rec), q, offset)
  {
    var d, j :| d in log && d.topic == DeadLetters && 0 <= j < |log[d]| && log[d][j].value.InvalidJson?
                && log[d][j].value.source == q && log[d][j].value.offset == offset;
    assert Appended(log, p, rec)[d][j] == log[d][j];
  }

  lemma StillCarries(r: Uuid, dispatch: Outbox, log: Log, committed: Offsets, id: Uuid, attempt: int, p: Part, rec: Record)
    requires Carries(r, dispatch, log, committed, id, attempt)
    ensures Carries(r, dispatch, Appended(log, p, rec), committed, id, attempt)
  {
    hide Relay.RecordOf;
    if dispatch[r].publishedAt.Some? {
      StillAhead(log, committed, p, rec, dispatch[r].route.value, Relay.RecordOf(r, dispatch[r]));
    }
  }

  lemma AppendKeepsPublished(rows: Outbox, log: Log, p: Part, rec: Record)
    requires PublishedOk(rows, log)
    ensures PublishedOk(rows, Appended(log, p, rec))
  {
    hide Relay.RecordOf;
    forall id | id in rows && rows[id].publishedAt.Some?
      ensures InLog(Appended(log, p, rec), rows[id].route.value, Relay.RecordOf(id, rows[id]))
    {
      StillInLog(log, p, rec, rows[id].route.value, Relay.RecordOf(id, rows[id]));
    }
  }

  lemma AppendKeepsAlive(deliveries: Deliveries, dispatch: Outbox, log: Log, committed: Offsets, p: Part, rec: Record)
    requires NoLostRetry(deliveries, dispatch, log, committed)
    ensures NoLostRetry(deliveries, dispatch, Appended(log, p, rec), committed)
  {
    hide Carries;
    forall id | id in deliveries && deliveries[id].status == RetryWait
      ensures RetryAlive(dispatch, Appended(log, p, rec), committed, id, deliveries[id].attempts)
    {
      var r :| Carries(r, dispatch, log, committed, id, deliveries[id].attempts);
      StillCarries(r, dispatch, log, committed, id, deliveries[id].attempts, p, rec);
    }
  }

  lemma AppendKeepsSettled(log: Log, committed: Offsets, inbox: map<Uuid, InboxRow>, p: Part, rec: Record)
    requires OffsetsOk(log, committed) && RequestsSettled(log, committed, inbox)
    ensures RequestsSettled(Appended(log, p, rec), committed, inbox)
  {
    var after := Appended(log, p, rec);
    forall q, i | q in after && q.topic == RequestsTopic && 0 <= i < CommittedAt(committed, q) && i < |after[q]|
      ensures Accepted(inbox, after[q][i].value) || Reported(after, q, i)
    {
      assert q in log && i < |log[q]| && after[q][i] == log[q][i];
      if !Accepted(inbox, log[q][i].value) {
        StillReported(log, p, rec, q, i);
      }
    }
  }

  lemma AppendKeeps(cfg: Config, s: Sys, p: Part, rec: Record)
    requires Inv(cfg, s)
    requires Contract.IsRetryTopic(p.topic) ==> RetryRecordOk(p.topic, rec, s.db.deliveries, s.trail, s.now)
    ensures Inv(cfg, s.(log := Appended(s.log, p, rec)))
  {
    hide RetryRecordOk, NoLostRetry, PublishedOk, RequestsSettled;
    AppendKeepsPublished(s.events, s.log, p, rec);
    AppendKeepsPublished(s.db.dispatch, s.log, p, rec);
    AppendKeepsAlive(s.db.deliveries, s.db.dispatch, s.log, s.committed, p, rec);
    AppendKeepsSettled(s.log, s.committed, s.db.inbox, p, rec);
  }

  // ----- Publication outcomes -----

  lemma SettleKeepsPublished(source: Relay.Source, rows: Outbox, log: Log, id: Uuid, now: Time, o: Relay.Outcome)
    requires PublishedOk(rows, log) && o.Possible()
    requires id in rows && Relay.Eligible(source, rows[id], now) && rows[id].route.Some?
    requires o.acked ==> InLog(log, rows[id].route.value, Relay.RecordOf(id, rows[id]))
    ensures PublishedOk(Relay.Settle(rows, id, now, o), log)
  {
    Relay.SettleKeeps(source, rows, id, log, Part(RequestsTopic, 0), now, o);
    hide Relay.RecordOf, InLog;
    var after := Relay.Settle(rows, id, now, o);
    assert after[id].publishedAt.Some? ==> o.acked;
  }

  lemma SettleKeepsAlive(deliveries: Deliveries, dispatch: Outbox, log: Log, committed: Offsets,
                         id: Uuid, now: Time, o: Relay.Outcome)
    requires NoLostRetry(deliveries, dispatch, log, committed) && o.Possible()
    requires id in dispatch && Relay.Eligible(Relay.DispatchSource, dispatch[id], now) && dispatch[id].route.Some?
    requires o.acked ==> Ahead(log, committed, dispatch[id].route.value, Relay.RecordOf(id, dispatch[id]))
    ensures NoLostRetry(deliveries, Relay.Settle(dispatch, id, now, o), log, committed)
  {
    var after := Relay.Settle(dispatch, id, now, o);
    Relay.SettleKeeps(Relay.DispatchSource, dispatch, id, log, Part(RequestsTopic, 0), now, o);
    hide Relay.RecordOf, Ahead;
    forall x | x in deliveries && deliveries[x].status == RetryWait
      ensures RetryAlive(after, log, committed, x, deliveries[x].attempts)
    {
      var r :| Carries(r, dispatch, log, committed, x, deliveries[x].attempts);
      assert after[id].publishedAt.Some? ==> o.acked;
      assert Carries(r, after, log, committed, x, deliveries[x].attempts);
    }
  }

  lemma SettleKeepsRows(dispatch: Outbox, deliveries: Deliveries, trail: Trails, id: Uuid, now: Time, o: Relay.Outcome)
    requires RowsOk(dispatch, deliveries, trail) && OriginsUnique(dispatch) && o.Possible()
    requires id in dispatch && Relay.Eligible(Relay.DispatchSource, dispatch[id], now)
    ensures RowsOk(Relay.Settle(dispatch, id, now, o), deliveries, trail)
    ensures OriginsUnique(Relay.Settle(dispatch, id, now, o))
  {
    var after := Relay.Settle(dispatch, id, now, o);
    Relay.SettleKeeps(Relay.DispatchSource, dispatch, id, map[], Part(RequestsTopic, 0), now, o);
    hide Relay.RecordOf;
    assert RowOk(dispatch[id], deliveries, trail);
    forall r | r in after ensures RowOk(after[r], deliveries, trail) {
      if r != id {
        assert after[r] == dispatch[r];
      }
    }
  }

  lemma SettleDispatchKeeps(cfg: Config, s: Sys, id: Uuid, o: Relay.Outcome)
    requires Inv(cfg, s) && o.Possible() && Publishable(Relay.DispatchSource, s.db.dispatch, id, s.now)
    requires o.acked ==> Ahead(s.log, s.committed, s.db.dispatch[id].route.value, Relay.RecordOf(id, s.db.dispatch[id]))
    ensures Inv(cfg, s.(db := s.db.(dispatch := Relay.Settle(s.db.dispatch, id, s.now, o))))
  {
    hide Relay.RecordOf, RowsOk, RetryLogOk, NoLostRetry, RequestsSettled, PublishedOk;
    SettleKeepsRows(s.db.dispatch, s.db.deliveries, s.trail, id, s.now, o);
    SettleKeepsAlive(s.db.deliveries, s.db.dispatch, s.log, s.committed, id, s.now, o);
    SettleKeepsPublished(Relay.DispatchSource, s.db.dispatch, s.log, id, s.now, o);
    Relay.SettleKeeps(Relay.DispatchSource, s.db.dispatch, id, s.log, Part(RequestsTopic, 0), s.now, o);
  }

  lemma SettleEventKeeps(cfg: Config, s: Sys, id: Uuid, o: Relay.Outcome)
    requires Inv(cfg, s) && o.Possible() && Publishable(Relay.RequestsSource, s.events, id, s.now)
    requires o.acked ==> InLog(s.log, s.events[id].route.value, Relay.RecordOf(id, s.events[id]))
    ensures Inv(cfg, s.(events := Relay.Settle(s.events, id, s.now, o)))
  {
    hide Relay.RecordOf, RowsOk, RetryLogOk, NoLostRetry, RequestsSettled, PublishedOk;
    SettleKeepsPublished(Relay.RequestsSource, s.events, s.log, id, s.now, o);
    Relay.SettleKeeps(Relay.RequestsSource, s.events, id, s.log, Part(RequestsTopic, 0), s.now, o);
    assert EventOk(id, s.events[id]);
  }

  // ----- Commits -----

  /** Moving past a record loses nothing: a request is settled, and no delivery still
      waits for the retry it carries. */
  predicate SafeToPass(s: Sys, p: Part, offset: nat)
    requires offset < |LogAt(s.log, p)|
  {
    var value := LogAt(s.log, p)[offset].value;
    Contract.IsRetryTopic(p.topic) && value.DispatchJson? && value.retry.deliveryId in s.db.deliveries
    && s.db.deliveries[value.retry.deliveryId].status == RetryWait ==>
      value.retry.attemptNo != s.db.deliveries[value.retry.deliveryId].attempts
  }

  lemma CommitKeepsAlive(s: Sys, p: Part, offset: nat)
    requires RowsOk(s.db.dispatch, s.db.deliveries, s.trail)
    requires NoLostRetry(s.db.deliveries, s.db.dispatch, s.log, s.committed)
    requires offset < |LogAt(s.log, p)| && offset <= CommittedAt(s.committed, p) && SafeToPass(s, p, offset)
    ensures NoLostRetry(s.db.deliveries, s.db.dispatch, s.log, s.committed[p := offset + 1])
  {
    var after := s.committed[p := offset + 1];
    forall id | id in s.db.deliveries && s.db.deliveries[id].status == RetryWait
      ensures RetryAlive(s.db.dispatch, s.log, after, id, s.db.deliveries[id].attempts)
    {
      var r :| Carries(r, s.db.dispatch, s.log, s.committed, id, s.db.deliveries[id].attempts);
      var row := s.db.dispatch[r];
      assert RowOk(row, s.db.deliveries, s.trail);
      if row.publishedAt.Some? {
        var rec := Relay.RecordOf(r, row);
        assert rec.value == row.payload;
        hide Relay.RecordOf;
        var q, i :| q in s.log && q.topic == row.route.value && CommittedAt(s.committed, q) <= i < |s.log[q]| && s.log[q][i] == rec;
        assert q != p || i != offset;
        assert Ahead(s.log, after, row.route.value, rec);
      }
      assert Carries(r, s.db.dispatch, s.log, after, id, s.db.deliveries[id].attempts);
    }
  }

  lemma CommitKeeps(cfg: Config, s: Sys, p: Part, offset: nat)
    requires Inv(cfg, s)
    requires offset < |LogAt(s.log, p)| && offset <= CommittedAt(s.committed, p) && SafeToPass(s, p, offset)
    requires p.topic == RequestsTopic ==> Accepted(s.db.inbox, LogAt(s.log, p)[offset].value) || Reported(s.log, p, offset)
    ensures Inv(cfg, s.(committed := s.committed[p := offset + 1]))
  {
    hide RowsOk, RetryLogOk, NoLostRetry, PublishedOk, Reported, Accepted;
    CommitKeepsAlive(s, p, offset);
  }

  // ----- Deliveries move forward -----

  /** One delivery and its trail before and after a step: its identity is fixed, its
      attempts and endings only grow, and a retry already granted keeps its due time. */
  ghost predicate Advances(d: Delivery, t: Trail, d2: Delivery, t2: Trail) {
    && d2.event == d.event && d2.user == d.user && d2.channel == d.channel
    && d.attempts <= d2.attempts && t.ended <= t2.ended
    && (d2.attempts <= |t.ended| ==> d2.attempts == d.attempts && t2.due == t.due)
  }

  ghost predicate AllAdvance(deliveries: Deliveries, trail: Trails, deliveries2: Deliveries, trail2: Trails) {
    forall id :: id in deliveries && id in trail ==>
      id in deliveries2 && id in trail2 && Advances(deliveries[id], trail[id], deliveries2[id], trail2[id])
  }

  lemma AdvanceKeepsRows(dispatch: Outbox, deliveries: Deliveries, trail: Trails, deliveries2: Deliveries, trail2: Trails)
    requires RowsOk(dispatch, deliveries, trail) && AllAdvance(deliveries, trail, deliveries2, trail2)
    ensures RowsOk(dispatch, deliveries2, trail2)
  {
    forall r | r in dispatch ensures RowOk(dispatch[r], deliveries2, trail2) {
      assert RowOk(dispatch[r], deliveries, trail);
    }
  }

  lemma AdvanceKeepsRetryLog(log: Log, deliveries: Deliveries, trail: Trails, deliveries2: Deliveries, trail2: Trails, now: Time)
    requires RetryLogOk(log, deliveries, trail, now) && AllAdvance(deliveries, trail, deliveries2, trail2)
    ensures RetryLogOk(log, deliveries2, trail2, now)
  {
    hide Contract.RouteRecord;
    forall p, i | p in log && Contract.IsRetryTopic(p.topic) && 0 <= i < |log[p]|
      ensures RetryRecordOk(p.topic, log[p][i], deliveries2, trail2, now)
    {
      assert RetryRecordOk(p.topic, log[p][i], deliveries, trail, now);
    }
  }

  /** A delivery that waits for a retry afterwards already did, for the same attempt. */
  ghost predicate NoNewWait(deliveries: Deliveries, deliveries2: Deliveries) {
    forall id :: id in deliveries2 && deliveries2[id].status == RetryWait ==> id in deliveries && deliveries2[id] == deliveries[id]
  }

  lemma NoNewWaitKeepsAlive(deliveries: Deliveries, deliveries2: Deliveries, dispatch: Outbox, log: Log, committed: Offsets)
    requires NoLostRetry(deliveries, dispatch, log, committed) && NoNewWait(deliveries, deliveries2)
    ensures NoLostRetry(deliveries2, dispatch, log, committed)
  {
    hide RetryAlive;
  }

  /** What is left of the invariant when a step changes only deliveries and trails. */
  lemma MoveKeeps(s: Sys, deliveries2: Deliveries, trail2: Trails)
    requires RowInv(s) && LogInv(s)
    requires AllAdvance(s.db.deliveries, s.trail, deliveries2, trail2) && NoNewWait(s.db.deliveries, deliveries2)
    ensures RowsOk(s.db.dispatch, deliveries2, trail2)
    ensures RetryLogOk(s.log, deliveries2, trail2, s.now)
    ensures NoLostRetry(deliveries2, s.db.dispatch, s.log, s.committed)
  {
    hide RowsOk, RetryLogOk, NoLostRetry, PublishedOk, RequestsSettled, AllAdvance, NoNewWait;
    AdvanceKeepsRows(s.db.dispatch, s.db.deliveries, s.trail, deliveries2, trail2);
    AdvanceKeepsRetryLog(s.log, s.db.deliveries, s.trail, deliveries2, trail2, s.now);
    NoNewWaitKeepsAlive(s.db.deliveries, deliveries2, s.db.dispatch, s.log, s.committed);
  }

  /** Tasks survive any change under which claims are only dropped. */
  lemma TasksSurvive(tasks: set<Task>, deliveries: Deliveries, deliveries2: Deliveries, used: set<Uuid>, used2: set<Uuid>)
    requires TasksOk(tasks, deliveries, used) && used <= used2
    requires forall id :: id in deliveries ==>
               && id in deliveries2
               && deliveries2[id].event == deliveries[id].event && deliveries2[id].user == deliveries[id].user
               && deliveries2[id].attempts == deliveries[id].attempts
               && (deliveries2[id].token == deliveries[id].token || deliveries2[id].token.None?)
    ensures TasksOk(tasks, deliveries2, used2)
  {
    forall t | t in tasks ensures TaskOk(t, deliveries2, used2) {
      assert TaskOk(t, deliveries, used);
    }
  }

  // ----- Cancelling -----

  lemma CancelKeepsLives(deliveries: Deliveries, trail: Trails, limit: int, user: Uuid, channel: Uuid)
    requires LivesOk(deliveries, trail, limit)
    ensures LivesOk(CancelWaiting(deliveries, user, channel), trail, limit)
  {
    var after := CancelWaiting(deliveries, user, channel);
    forall id | id in after ensures LifeOk(after[id], trail[id], limit) {
      assert LifeOk(deliveries[id], trail[id], limit);
    }
  }

  lemma CancelKeepsAnchors(channels: map<Uuid, Channel>, inbox: map<Uuid, InboxRow>, deliveries: Deliveries,
                           user: Uuid, channel: Uuid, channels2: map<Uuid, Channel>)
    requires AnchorsOk(channels, inbox, deliveries)
    requires forall c :: c in channels && c != channel ==> c in channels2 && channels2[c] == channels[c]
    requires channel in channels && channels[channel].user == user
    ensures AnchorsOk(channels2, inbox, CancelWaiting(deliveries, user, channel))
  {
    var after := CancelWaiting(deliveries, user, channel);
    forall id | id in after ensures AnchorOk(channels2, inbox, after[id]) {
      assert AnchorOk(channels, inbox, deliveries[id]);
    }
  }

  lemma CancelAdvances(deliveries: Deliveries, trail: Trails, user: Uuid, channel: Uuid)
    ensures AllAdvance(deliveries, trail, CancelWaiting(deliveries, user, channel), trail)
    ensures NoNewWait(deliveries, CancelWaiting(deliveries, user, channel))
  {
  }

  lemma CancelKeepsRest(deliveries: Deliveries, dispatch: Outbox, events: Outbox, used: set<Uuid>, tasks: set<Task>,
                        user: Uuid, channel: Uuid)
    requires PairsUnique(deliveries) && UsedOk(deliveries, dispatch, events, used) && TasksOk(tasks, deliveries, used)
    ensures PairsUnique(CancelWaiting(deliveries, user, channel))
    ensures UsedOk(CancelWaiting(deliveries, user, channel), dispatch, events, used)
    ensures TasksOk(tasks, CancelWaiting(deliveries, user, channel), used)
  {
    TasksSurvive(tasks, deliveries, CancelWaiting(deliveries, user, channel), used, used);
  }

  lemma CancelKeeps(cfg: Config, s: Sys, user: Uuid, channel: Uuid, channels2: map<Uuid, Channel>)
    requires Inv(cfg, s)
    requires forall c :: c in s.db.channels && c != channel ==> c in channels2 && channels2[c] == s.db.channels[c]
    requires channel in s.db.channels && s.db.channels[channel].user == user
    ensures Inv(cfg, s.(db := s.db.(channels := channels2, deliveries := CancelWaiting(s.db.deliveries, user, channel))))
  {
    var after := CancelWaiting(s.db.deliveries, user, channel);
    CancelAdvances(s.db.deliveries, s.trail, user, channel);
    CancelKeepsLives(s.db.deliveries, s.trail, cfg.Limit(), user, channel);
    CancelKeepsAnchors(s.db.channels, s.db.inbox, s.db.deliveries, user, channel, channels2);
    CancelKeepsRest(s.db.deliveries, s.db.dispatch, s.events, s.used, s.tasks, user, channel);
    hide LivesOk, AnchorsOk, PairsUnique, TasksOk, UsedOk, RowsOk, RetryLogOk, NoLostRetry, PublishedOk, RequestsSettled,
      AllAdvance, NoNewWait, CancelWaiting;
    MoveKeeps(s, after, s.trail);
  }

  // ----- Accepting -----

  function NewDeliveries(event: Requested, ids: map<Uuid, Uuid>, now: Time): Deliveries {
    map i | i in ids :: NewDelivery(event.eventId, event.userId, ids[i], now)
  }

  function NewTrails(ids: map<Uuid, Uuid>, now: Time): Trails {
    map i | i in ids :: Trail(now, [])
  }

  lemma AcceptKeepsLives(deliveries: Deliveries, trail: Trails, limit: int, event: Requested, ids: map<Uuid, Uuid>, now: Time)
    requires LivesOk(deliveries, trail, limit) && 0 < limit
    requires forall i :: i in ids ==> i !in deliveries
    ensures LivesOk(deliveries + NewDeliveries(event, ids, now), trail + NewTrails(ids, now), limit)
  {
    var deliveries2, trail2 := deliveries + NewDeliveries(event, ids, now), trail + NewTrails(ids, now);
    assert trail2.Keys == deliveries2.Keys;
    forall id | id in deliveries2 ensures LifeOk(deliveries2[id], trail2[id], limit) {
      if id in deliveries {
        assert LifeOk(deliveries[id], trail[id], limit);
      }
    }
  }

  lemma AcceptKeepsAnchors(channels: map<Uuid, Channel>, inbox: map<Uuid, InboxRow>, deliveries: Deliveries,
                           event: Requested, ids: map<Uuid, Uuid>, now: Time)
    requires AnchorsOk(channels, inbox, deliveries) && PairsUnique(deliveries) && event.eventId !in inbox
    requires Assigns(ids, Targets(channels, event.userId)) && forall i :: i in ids ==> i !in deliveries
    ensures AnchorsOk(channels, inbox[event.eventId := InboxRow(event.userId, RequestedJson(event))],
                      deliveries + NewDeliveries(event, ids, now))
    ensures PairsUnique(deliveries + NewDeliveries(event, ids, now))
  {
    var deliveries2 := deliveries + NewDeliveries(event, ids, now);
    var inbox2 := inbox[event.eventId := InboxRow(event.userId, RequestedJson(event))];
    forall id | id in deliveries2 ensures AnchorOk(channels, inbox2, deliveries2[id]) {
      if id in deliveries {
        assert AnchorOk(channels, inbox, deliveries[id]);
      }
    }
    forall x, y | x in deliveries2 && y in deliveries2 && SamePair(deliveries2[x], deliveries2[y]) ensures x == y {
      assert x in deliveries ==> AnchorOk(channels, inbox, deliveries[x]);
      assert y in deliveries ==> AnchorOk(channels, inbox, deliveries[y]);
    }
  }

  lemma AcceptKeepsSettled(log: Log, committed: Offsets, inbox: map<Uuid, InboxRow>, e: Uuid, row: InboxRow)
    requires RequestsSettled(log, committed, inbox) && e !in inbox
    ensures RequestsSettled(log, committed, inbox[e := row])
  {
    hide Reported;
  }

  lemma AcceptKeepsRowsComplete(dispatch: Outbox, trail: Trails, ids: map<Uuid, Uuid>, now: Time)
    requires RowsComplete(dispatch, trail)
    ensures RowsComplete(dispatch, trail + NewTrails(ids, now))
  {
    var trail2 := trail + NewTrails(ids, now);
    forall id, attempt, kind | id in trail2 && EndedAs(trail2[id], attempt, EndingOf(kind))
      ensures DispatchOf(id, attempt, kind) in Origins(dispatch)
    {
      assert id in trail && EndedAs(trail[id], attempt, EndingOf(kind));
    }
  }

  lemma AcceptAdvances(deliveries: Deliveries, trail: Trails, event: Requested, ids: map<Uuid, Uuid>, now: Time)
    requires forall i :: i in ids ==> i !in deliveries
    requires trail.Keys == deliveries.Keys
    ensures AllAdvance(deliveries, trail, deliveries + NewDeliveries(event, ids, now), trail + NewTrails(ids, now))
    ensures NoNewWait(deliveries, deliveries + NewDeliveries(event, ids, now))
  {
  }

  lemma AcceptKeepsRest(deliveries: Deliveries, dispatch: Outbox, events: Outbox, used: set<Uuid>, tasks: set<Task>,
                        event: Requested, ids: map<Uuid, Uuid>, now: Time)
    requires UsedOk(deliveries, dispatch, events, used) && TasksOk(tasks, deliveries, used)
    requires forall i :: i in ids ==> i !in used
    ensures UsedOk(deliveries + NewDeliveries(event, ids, now), dispatch, events, used + ids.Keys)
    ensures TasksOk(tasks, deliveries + NewDeliveries(event, ids, now), used + ids.Keys)
  {
    TasksSurvive(tasks, deliveries, deliveries + NewDeliveries(event, ids, now), used, used + ids.Keys);
  }

  function Accepting(s: Sys, event: Requested, ids: map<Uuid, Uuid>): Sys {
    s.(db := AcceptRequest(s.db, event, RequestedJson(event), ids, s.now).0,
       used := s.used + ids.Keys, trail := s.trail + NewTrails(ids, s.now))
  }

  lemma FreshApart(deliveries: Deliveries, dispatch: Outbox, events: Outbox, used: set<Uuid>, ids: map<Uuid, Uuid>)
    requires UsedOk(deliveries, dispatch, events, used) && forall i :: i in ids ==> i !in used
    ensures forall i :: i in ids ==> i !in deliveries
  {
  }

  lemma AcceptKeepsInbox(inbox: map<Uuid, InboxRow>, event: Requested)
    requires InboxOk(inbox) && event.eventId != NIL && event.userId != NIL
    ensures InboxOk(inbox[event.eventId := InboxRow(event.userId, RequestedJson(event))])
  {
  }

  lemma AcceptKeepsDb(cfg: Config, s: Sys, event: Requested, ids: map<Uuid, Uuid>)
    requires cfg.Valid() && DbInv(cfg, s) && event.eventId !in s.db.inbox
    requires event.eventId != NIL && event.userId != NIL
    requires Assigns(ids, Targets(s.db.channels, event.userId)) && forall i :: i in ids ==> Fresh(s, i)
    ensures DbInv(cfg, Accepting(s, event, ids))
  {
    hide LivesOk, AnchorsOk, PairsUnique, InboxOk, TasksOk, UsedOk, NewTrails, Assigns, Targets;
    FreshApart(s.db.deliveries, s.db.dispatch, s.events, s.used, ids);
    AcceptKeepsInbox(s.db.inbox, event);
    AcceptKeepsLives(s.db.deliveries, s.trail, cfg.Limit(), event, ids, s.now);
    AcceptKeepsAnchors(s.db.channels, s.db.inbox, s.db.deliveries, event, ids, s.now);
    AcceptKeepsRest(s.db.deliveries, s.db.dispatch, s.events, s.used, s.tasks, event, ids, s.now);
  }

  lemma AcceptKeeps(cfg: Config, s: Sys, event: Requested, ids: map<Uuid, Uuid>)
    requires Inv(cfg, s) && event.eventId !in s.db.inbox
    requires event.eventId != NIL && event.userId != NIL
    requires Assigns(ids, Targets(s.db.channels, event.userId)) && forall i :: i in ids ==> Fresh(s, i)
    ensures Inv(cfg, Accepting(s, event, ids))
  {
    AcceptKeepsDb(cfg, s, event, ids);
    AcceptAdvances(s.db.deliveries, s.trail, event, ids, s.now);
    AcceptKeepsSettled(s.log, s.committed, s.db.inbox, event.eventId, InboxRow(event.userId, RequestedJson(event)));
    AcceptKeepsRowsComplete(s.db.dispatch, s.trail, ids, s.now);
    hide DbInv, RowsOk, RowsComplete, RetryLogOk, NoLostRetry, PublishedOk, RequestsSettled, AllAdvance, NoNewWait, NewTrails;
    MoveKeeps(s, s.db.deliveries + NewDeliveries(event, ids, s.now), s.trail + NewTrails(ids, s.now));
  }

  // ----- One delivery changes -----

  lemma UpdateKeepsLives(deliveries: Deliveries, trail: Trails, limit: int, id: Uuid, d2: Delivery, t2: Trail)
    requires LivesOk(deliveries, trail, limit) && id in deliveries && LifeOk(d2, t2, limit)
    ensures LivesOk(deliveries[id := d2], trail[id := t2], limit)
  {
    hide LifeOk;
  }

  lemma UpdateKeepsPlace(channels: map<Uuid, Channel>, inbox: map<Uuid, InboxRow>, deliveries: Deliveries, id: Uuid, d2: Delivery)
    requires AnchorsOk(channels, inbox, deliveries) && PairsUnique(deliveries)
    requires id in deliveries && d2.user == deliveries[id].user && SamePair(d2, deliveries[id])
    requires Waiting(d2) ==> Active(channels, d2)
    ensures AnchorsOk(channels, inbox, deliveries[id := d2]) && PairsUnique(deliveries[id := d2])
  {
    assert AnchorOk(channels, inbox, deliveries[id]);
    var after := deliveries[id := d2];
    forall x, y | x in after && y in after && SamePair(after[x], after[y]) ensures x == y {
      assert SamePair(deliveries[x], deliveries[y]);
    }
  }

  lemma UpdateAdvances(deliveries: Deliveries, trail: Trails, id: Uuid, d2: Delivery, t2: Trail)
    requires id in deliveries && id in trail && Advances(deliveries[id], trail[id], d2, t2)
    ensures AllAdvance(deliveries, trail, deliveries[id := d2], trail[id := t2])
    ensures d2.status != RetryWait ==> NoNewWait(deliveries, deliveries[id := d2])
  {
  }

  lemma UpdateKeepsUsed(deliveries: Deliveries, dispatch: Outbox, events: Outbox, used: set<Uuid>, used2: set<Uuid>,
                        id: Uuid, d2: Delivery)
    requires UsedOk(deliveries, dispatch, events, used) && used <= used2
    requires id in deliveries && (d2.token.Some? ==> d2.token.value in used2)
    ensures UsedOk(deliveries[id := d2], dispatch, events, used2)
  {
  }

  // ----- Resuming -----

  lemma LifeResumes(deliveries: Deliveries, trail: Trails, limit: int, id: Uuid, now: Time)
    requires LivesOk(deliveries, trail, limit) && id in deliveries && deliveries[id].status == RetryWait
    requires id in trail && trail[id].due <= now
    ensures LifeOk(deliveries[id].(status := Pending, availableAt := now), trail[id], limit)
  {
    assert LifeOk(deliveries[id], trail[id], limit);
  }

  lemma ResumeKeepsDb(cfg: Config, s: Sys, r: Retry)
    requires DbInv(cfg, s) && RetryDue(r, s.db.deliveries, s.trail, s.now) && Resumable(s.db, r)
    ensures DbInv(cfg, s.(db := ResumeRetry(s.db, r, s.now)))
  {
    var id := r.deliveryId;
    var d2 := s.db.deliveries[id].(status := Pending, availableAt := s.now);
    LifeResumes(s.db.deliveries, s.trail, cfg.Limit(), id, s.now);
    hide LivesOk, LifeOk, AnchorsOk, PairsUnique, InboxOk, TasksOk, UsedOk;
    UpdateKeepsLives(s.db.deliveries, s.trail, cfg.Limit(), id, d2, s.trail[id]);
    UpdateKeepsPlace(s.db.channels, s.db.inbox, s.db.deliveries, id, d2);
    UpdateKeepsUsed(s.db.deliveries, s.db.dispatch, s.events, s.used, s.used, id, d2);
    TasksSurvive(s.tasks, s.db.deliveries, s.db.deliveries[id := d2], s.used, s.used);
    assert s.trail[id := s.trail[id]] == s.trail;
  }

  lemma ResumeKeeps(cfg: Config, s: Sys, r: Retry)
    requires Inv(cfg, s) && RetryDue(r, s.db.deliveries, s.trail, s.now)
    ensures Inv(cfg, s.(db := ResumeRetry(s.db, r, s.now)))
  {
    hide DbInv, RowsOk, RowsComplete, RetryLogOk, NoLostRetry, PublishedOk, RequestsSettled, AllAdvance, NoNewWait;
    if Resumable(s.db, r) {
      ResumeKeepsDb(cfg, s, r);
      ResumeMoves(s, r);
    }
  }

  lemma ResumeMoves(s: Sys, r: Retry)
    requires Resumable(s.db, r) && r.deliveryId in s.trail && RowInv(s) && LogInv(s)
    ensures RowInv(s.(db := ResumeRetry(s.db, r, s.now))) && LogInv(s.(db := ResumeRetry(s.db, r, s.now)))
  {
    hide RowsOk, RowsComplete, RetryLogOk, NoLostRetry, PublishedOk, RequestsSettled, AllAdvance, NoNewWait;
    var id := r.deliveryId;
    var d2 := s.db.deliveries[id].(status := Pending, availableAt := s.now);
    UpdateAdvances(s.db.deliveries, s.trail, id, d2, s.trail[id]);
    assert s.trail[id := s.trail[id]] == s.trail;
    MoveKeeps(s, s.db.deliveries[id := d2], s.trail);
  }

  // ----- Claiming -----

  function Claiming(s: Sys, id: Uuid, token: Uuid, lease: Time): Sys
    requires id in s.db.deliveries
  {
    var db := ClaimOne(s.db, id, token, lease);
    s.(db := db, tasks := s.tasks + HandedOut(db, id, token), used := s.used + {token})
  }

  lemma ClaimKeepsTasks(s: Sys, id: Uuid, token: Uuid, lease: Time)
    requires TasksOk(s.tasks, s.db.deliveries, s.used) && token !in s.used
    requires id in s.db.deliveries && s.db.deliveries[id].token.None?
    ensures var after := Claiming(s, id, token, lease); TasksOk(after.tasks, after.db.deliveries, after.used)
  {
    var after := Claiming(s, id, token, lease);
    forall t | t in after.tasks ensures TaskOk(t, after.db.deliveries, after.used) {
      if t in s.tasks {
        assert TaskOk(t, s.db.deliveries, s.used);
      }
    }
  }

  lemma LifeClaims(deliveries: Deliveries, trail: Trails, limit: int, id: Uuid, token: Uuid, lease: Time)
    requires LivesOk(deliveries, trail, limit) && id in deliveries && deliveries[id].status == Pending
    ensures id in trail && deliveries[id].token.None?
    ensures LifeOk(Claimed(deliveries[id], token, lease), trail[id], limit)
  {
    assert LifeOk(deliveries[id], trail[id], limit);
  }

  lemma ClaimKeepsDb(cfg: Config, s: Sys, id: Uuid, token: Uuid, lease: Time)
    requires DbInv(cfg, s) && token !in s.used
    requires id in s.db.deliveries && s.db.deliveries[id].status == Pending
    ensures DbInv(cfg, Claiming(s, id, token, lease))
  {
    var d2 := Claimed(s.db.deliveries[id], token, lease);
    LifeClaims(s.db.deliveries, s.trail, cfg.Limit(), id, token, lease);
    hide LivesOk, LifeOk, AnchorsOk, PairsUnique, InboxOk, TasksOk, UsedOk, HandedOut;
    ClaimKeepsTasks(s, id, token, lease);
    UpdateKeepsLives(s.db.deliveries, s.trail, cfg.Limit(), id, d2, s.trail[id]);
    UpdateKeepsPlace(s.db.channels, s.db.inbox, s.db.deliveries, id, d2);
    UpdateKeepsUsed(s.db.deliveries, s.db.dispatch, s.events, s.used, s.used + {token}, id, d2);
    assert s.trail[id := s.trail[id]] == s.trail;
  }

  lemma ClaimAdvances(cfg: Config, s: Sys, id: Uuid, token: Uuid, lease: Time)
    requires DbInv(cfg, s) && id in s.db.deliveries && s.db.deliveries[id].status == Pending
    ensures var after := s.db.deliveries[id := Claimed(s.db.deliveries[id], token, lease)];
            AllAdvance(s.db.deliveries, s.trail, after, s.trail) && NoNewWait(s.db.deliveries, after)
  {
    LifeClaims(s.db.deliveries, s.trail, cfg.Limit(), id, token, lease);
    assert LifeOk(s.db.deliveries[id], s.trail[id], cfg.Limit());
    hide LivesOk, LifeOk, AnchorsOk, PairsUnique, InboxOk, TasksOk, UsedOk, AllAdvance, NoNewWait;
    UpdateAdvances(s.db.deliveries, s.trail, id, Claimed(s.db.deliveries[id], token, lease), s.trail[id]);
    assert s.trail[id := s.trail[id]] == s.trail;
  }

  lemma ClaimKeeps(cfg: Config, s: Sys, id: Uuid, token: Uuid, lease: Time)
    requires Inv(cfg, s) && token !in s.used
    requires id in s.db.deliveries && s.db.deliveries[id].status == Pending
    ensures Inv(cfg, Claiming(s, id, token, lease))
  {
    hide DbInv, RowsOk, RowsComplete, RetryLogOk, NoLostRetry, PublishedOk, RequestsSettled, AllAdvance, NoNewWait, HandedOut, Claimed;
    ClaimKeepsDb(cfg, s, id, token, lease);
    ClaimAdvances(cfg, s, id, token, lease);
    MoveKeeps(s, s.db.deliveries[id := Claimed(s.db.deliveries[id], token, lease)], s.trail);
  }

  // ----- Ending an attempt -----

  /** The state after delivery id's running attempt ended as e: its new row and trail, and
      the dispatch row the ending calls for. */
  function Ended(s: Sys, id: Uuid, d2: Delivery, t2: Trail, newRow: Uuid, row: Option<OutboxRow>): Sys {
    s.(db := s.db.(deliveries := s.db.deliveries[id := d2],
                   dispatch := if row.Some? then s.db.dispatch[newRow := row.value] else s.db.dispatch),
       trail := s.trail[id := t2],
       used := if row.Some? then s.used + {newRow} else s.used)
  }

  ghost predicate Ends(cfg: Config, s: Sys, id: Uuid, d2: Delivery, t2: Trail, e: Ending) {
    && id in s.db.deliveries && id in s.trail
    && var d := s.db.deliveries[id];
       && d.status == Processing && d2.event == d.event && d2.user == d.user && d2.channel == d.channel
       && d2.attempts == d.attempts && d2.token.None?
       && t2.ended == s.trail[id].ended + [e]
       && LifeOk(d, s.trail[id], cfg.Limit()) && LifeOk(d2, t2, cfg.Limit())
       && (Waiting(d2) ==> Active(s.db.channels, d))
  }

  /** The row is there exactly when the ending is one that is reported, and it reports it. */
  ghost predicate Reports(s: Sys, id: Uuid, d2: Delivery, t2: Trail, e: Ending, newRow: Uuid, row: Option<OutboxRow>) {
    && (row.Some? ==> Fresh(s, newRow))
    && (row.Some? <==> e == Retried || e == DeadLettered)
    && (row.Some? ==>
          && row.value.publishedAt.None?
          && row.value.origin == DispatchOf(id, d2.attempts, if e == Retried then RetryKind else DlqKind)
          && RowOk(row.value, s.db.deliveries[id := d2], s.trail[id := t2]))
  }

  lemma EndKeepsDb(cfg: Config, s: Sys, id: Uuid, d2: Delivery, t2: Trail, e: Ending, newRow: Uuid, row: Option<OutboxRow>)
    requires DbInv(cfg, s) && Ends(cfg, s, id, d2, t2, e)
    ensures DbInv(cfg, Ended(s, id, d2, t2, newRow, row))
  {
    hide LifeOk, LivesOk, AnchorsOk, PairsUnique, TasksOk;
    var after := Ended(s, id, d2, t2, newRow, row);
    UpdateKeepsLives(s.db.deliveries, s.trail, cfg.Limit(), id, d2, t2);
    UpdateKeepsPlace(s.db.channels, s.db.inbox, s.db.deliveries, id, d2);
    UpdateKeepsUsed(s.db.deliveries, s.db.dispatch, s.events, s.used, after.used, id, d2);
    TasksSurvive(s.tasks, s.db.deliveries, after.db.deliveries, s.used, after.used);
  }

  lemma EndAdvances(cfg: Config, s: Sys, id: Uuid, d2: Delivery, t2: Trail, e: Ending)
    requires Ends(cfg, s, id, d2, t2, e)
    ensures AllAdvance(s.db.deliveries, s.trail, s.db.deliveries[id := d2], s.trail[id := t2])
  {
    UpdateAdvances(s.db.deliveries, s.trail, id, d2, t2);
  }

  /** No row of the attempt exists yet, so the insertion never meets a conflict. */
  lemma EndIsNews(cfg: Config, s: Sys, id: Uuid, d2: Delivery, t2: Trail, e: Ending, kind: Kind)
    requires RowsOk(s.db.dispatch, s.db.deliveries, s.trail) && Ends(cfg, s, id, d2, t2, e)
    ensures DispatchOf(id, d2.attempts, kind) !in Origins(s.db.dispatch)
  {
  }

  lemma InsertedOrigins(rows: Outbox, id: Uuid, row: OutboxRow)
    requires id !in rows
    ensures Origins(rows[id := row]) == Origins(rows) + {row.origin}
  {
    forall o | o in Origins(rows) + {row.origin} ensures o in Origins(rows[id := row]) {
      if o == row.origin {
        assert rows[id := row][id].origin == o;
      } else {
        var r :| r in rows && rows[r].origin == o;
        assert rows[id := row][r].origin == o;
      }
    }
  }

  lemma EndKeepsComplete(cfg: Config, s: Sys, id: Uuid, d2: Delivery, t2: Trail, e: Ending, newRow: Uuid, row: Option<OutboxRow>)
    requires RowsComplete(s.db.dispatch, s.trail) && (row.Some? ==> newRow !in s.db.dispatch)
    requires Ends(cfg, s, id, d2, t2, e) && Reports(s, id, d2, t2, e, newRow, row)
    ensures RowsComplete(Ended(s, id, d2, t2, newRow, row).db.dispatch, s.trail[id := t2])
  {
    var dispatch := Ended(s, id, d2, t2, newRow, row).db.dispatch;
    if row.Some? {
      InsertedOrigins(s.db.dispatch, newRow, row.value);
    }
    assert d2.attempts == |t2.ended|;
    hide RowOk, LifeOk, Origins;
    forall x, attempt, kind | x in s.trail[id := t2] && EndedAs(s.trail[id := t2][x], attempt, EndingOf(kind))
      ensures DispatchOf(x, attempt, kind) in Origins(dispatch)
    {
      if x != id || attempt < |t2.ended| {
        assert EndedAs(s.trail[x], attempt, EndingOf(kind));
      }
    }
  }

  lemma EndKeepsRowsOk(cfg: Config, s: Sys, id: Uuid, d2: Delivery, t2: Trail, e: Ending, newRow: Uuid, row: Option<OutboxRow>)
    requires RowsOk(s.db.dispatch, s.db.deliveries, s.trail)
    requires Ends(cfg, s, id, d2, t2, e) && Reports(s, id, d2, t2, e, newRow, row)
    ensures RowsOk(Ended(s, id, d2, t2, newRow, row).db.dispatch, s.db.deliveries[id := d2], s.trail[id := t2])
  {
    EndAdvances(cfg, s, id, d2, t2, e);
    AdvanceKeepsRows(s.db.dispatch, s.db.deliveries, s.trail, s.db.deliveries[id := d2], s.trail[id := t2]);
    hide RowOk, LifeOk, AllAdvance;
  }

  lemma EndKeepsOrigins(cfg: Config, s: Sys, id: Uuid, d2: Delivery, t2: Trail, e: Ending, newRow: Uuid, row: Option<OutboxRow>)
    requires RowsOk(s.db.dispatch, s.db.deliveries, s.trail) && OriginsUnique(s.db.dispatch)
    requires Ends(cfg, s, id, d2, t2, e) && Reports(s, id, d2, t2, e, newRow, row)
    ensures OriginsUnique(Ended(s, id, d2, t2, newRow, row).db.dispatch)
  {
    EndIsNews(cfg, s, id, d2, t2, e, if e == Retried then RetryKind else DlqKind);
    hide RowsOk, RowOk, LifeOk;
  }

  lemma EndKeepsRows(cfg: Config, s: Sys, id: Uuid, d2: Delivery, t2: Trail, e: Ending, newRow: Uuid, row: Option<OutboxRow>)
    requires RowInv(s) && (row.Some? ==> newRow !in s.db.dispatch)
    requires Ends(cfg, s, id, d2, t2, e) && Reports(s, id, d2, t2, e, newRow, row)
    ensures RowInv(Ended(s, id, d2, t2, newRow, row))
  {
    hide RowsOk, OriginsUnique, RowsComplete, Ends, Reports;
    EndKeepsRowsOk(cfg, s, id, d2, t2, e, newRow, row);
    EndKeepsOrigins(cfg, s, id, d2, t2, e, newRow, row);
    EndKeepsComplete(cfg, s, id, d2, t2, e, newRow, row);
  }

  lemma EndKeepsAlive(cfg: Config, s: Sys, id: Uuid, d2: Delivery, t2: Trail, e: Ending, newRow: Uuid, row: Option<OutboxRow>)
    requires NoLostRetry(s.db.deliveries, s.db.dispatch, s.log, s.committed) && (row.Some? ==> newRow !in s.db.dispatch)
    requires Ends(cfg, s, id, d2, t2, e) && Reports(s, id, d2, t2, e, newRow, row)
    ensures var after := Ended(s, id, d2, t2, newRow, row);
            NoLostRetry(after.db.deliveries, after.db.dispatch, s.log, s.committed)
  {
    hide Relay.RecordOf, Ahead;
    var after := Ended(s, id, d2, t2, newRow, row);
    forall x | x in after.db.deliveries && after.db.deliveries[x].status == RetryWait
      ensures RetryAlive(after.db.dispatch, s.log, s.committed, x, after.db.deliveries[x].attempts)
    {
      if x == id {
        assert Carries(newRow, after.db.dispatch, s.log, s.committed, id, d2.attempts);
      } else {
        var r :| Carries(r, s.db.dispatch, s.log, s.committed, x, s.db.deliveries[x].attempts);
        assert Carries(r, after.db.dispatch, s.log, s.committed, x, s.db.deliveries[x].attempts);
      }
    }
  }

  lemma EndKeepsPublished(rows: Outbox, log: Log, newRow: Uuid, row: OutboxRow)
    requires PublishedOk(rows, log) && newRow !in rows && row.publishedAt.None?
    ensures PublishedOk(rows[newRow := row], log)
  {
    hide InLog, Relay.RecordOf;
  }

  lemma EndKeeps(cfg: Config, s: Sys, id: Uuid, d2: Delivery, t2: Trail, e: Ending, newRow: Uuid, row: Option<OutboxRow>)
    requires Inv(cfg, s) && Ends(cfg, s, id, d2, t2, e) && Reports(s, id, d2, t2, e, newRow, row)
    ensures Inv(cfg, Ended(s, id, d2, t2, newRow, row))
  {
    assert row.Some? ==> newRow !in s.db.dispatch;
    EndKeepsDb(cfg, s, id, d2, t2, e, newRow, row);
    hide DbInv, Ends, NoLostRetry, RetryLogOk, PublishedOk, RequestsSettled, AllAdvance;
    EndKeepsRows(cfg, s, id, d2, t2, e, newRow, row);
    EndAdvances(cfg, s, id, d2, t2, e);
    AdvanceKeepsRetryLog(s.log, s.db.deliveries, s.trail, s.db.deliveries[id := d2], s.trail[id := t2], s.now);
    EndKeepsAlive(cfg, s, id, d2, t2, e, newRow, row);
    if row.Some? {
      EndKeepsPublished(s.db.dispatch, s.log, newRow, row.value);
    }
    hide RowInv, Reports;
  }
}
