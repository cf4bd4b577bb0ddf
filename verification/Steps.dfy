/** Every step keeps the invariant, so every reachable state satisfies it. */
module Steps {
  import opened Types
  import opened Store
  import opened Machine
  import opened Invariant
  import opened Preservation
  import Contract
  import Ingest
  import Relay

  // ----- Time and channels -----

  lemma TickKeeps(cfg: Config, s: Sys, elapsed: nat)
    requires Inv(cfg, s)
    ensures Inv(cfg, s.(now := s.now + elapsed))
  {
    hide LivesOk, AnchorsOk, PairsUnique, InboxOk, TasksOk, UsedOk, RowsOk, OriginsUnique, RowsComplete, EventsOk,
      NoLostRetry, PublishedOk, RequestsSettled, Contract.RouteRecord;
    forall p, i | p in s.log && Contract.IsRetryTopic(p.topic) && 0 <= i < |s.log[p]|
      ensures RetryRecordOk(p.topic, s.log[p][i], s.db.deliveries, s.trail, s.now + elapsed)
    {
      assert RetryRecordOk(p.topic, s.log[p][i], s.db.deliveries, s.trail, s.now);
    }
  }

  /** Adding a channel, or enabling one, takes no delivery's channel away. */
  lemma ChannelsKeep(cfg: Config, s: Sys, channels2: map<Uuid, Channel>)
    requires Inv(cfg, s)
    requires forall c :: c in s.db.channels ==>
               c in channels2 && channels2[c].user == s.db.channels[c].user && (s.db.channels[c].enabled ==> channels2[c].enabled)
    ensures Inv(cfg, s.(db := s.db.(channels := channels2)))
  {
    hide LivesOk, PairsUnique, InboxOk, TasksOk, UsedOk, RowsOk, OriginsUnique, RowsComplete, EventsOk,
      RetryLogOk, NoLostRetry, PublishedOk, RequestsSettled;
    forall id | id in s.db.deliveries ensures AnchorOk(channels2, s.db.inbox, s.db.deliveries[id]) {
      assert AnchorOk(s.db.channels, s.db.inbox, s.db.deliveries[id]);
    }
  }

  lemma SetEnabledKeeps(cfg: Config, s: Sys, user: Uuid, channel: Uuid, enabled: bool)
    requires Inv(cfg, s)
    ensures Inv(cfg, s.(db := SetChannelEnabled(s.db, user, channel, enabled).0))
  {
    hide DbInv, RowInv, LogInv;
    if Owns(s.db, user, channel) {
      var channels2 := s.db.channels[channel := s.db.channels[channel].(enabled := enabled)];
      if enabled {
        ChannelsKeep(cfg, s, channels2);
      } else {
        CancelKeeps(cfg, s, user, channel, channels2);
      }
    }
  }

  lemma DropChannelKeeps(cfg: Config, s: Sys, user: Uuid, channel: Uuid)
    requires Inv(cfg, s)
    ensures Inv(cfg, s.(db := DeleteChannel(s.db, user, channel).0))
  {
    hide DbInv, RowInv, LogInv;
    if Owns(s.db, user, channel) {
      CancelKeeps(cfg, s, user, channel, s.db.channels - {channel});
    }
  }

  // ----- Identifiers and intents -----

  lemma UseKeeps(cfg: Config, s: Sys, id: Uuid)
    requires Inv(cfg, s)
    ensures Inv(cfg, s.(used := s.used + {id}))
  {
    hide LivesOk, AnchorsOk, PairsUnique, InboxOk, RowsOk, OriginsUnique, RowsComplete, EventsOk,
      RetryLogOk, NoLostRetry, PublishedOk, RequestsSettled;
    TasksSurvive(s.tasks, s.db.deliveries, s.db.deliveries, s.used, s.used + {id});
  }

  lemma IntendKeeps(cfg: Config, s: Sys, id: Uuid, user: Uuid, post: Ingest.Post)
    requires Inv(cfg, s) && Fresh(s, id)
    ensures Inv(cfg, s.(events := s.events[id := Ingest.NewIntent(id, user, post, s.now)], used := s.used + {id}))
  {
    UseKeeps(cfg, s, id);
    assert id !in s.events;
    hide LivesOk, AnchorsOk, PairsUnique, InboxOk, TasksOk, RowsOk, RowsComplete, RetryLogOk, NoLostRetry, RequestsSettled, PublishedOk;
    EndKeepsPublished(s.events, s.log, id, Ingest.NewIntent(id, user, post, s.now));
  }

  // ----- Publications -----

  /** A record just appended is ahead of every committed offset. */
  lemma AppendedAhead(log: Log, committed: Offsets, p: Part, rec: Record)
    requires OffsetsOk(log, committed)
    ensures Ahead(Appended(log, p, rec), committed, p.topic, rec)
    ensures InLog(Appended(log, p, rec), p.topic, rec)
  {
    var i := |LogAt(log, p)|;
    assert Appended(log, p, rec)[p][i] == rec;
  }

  lemma RelayRequestKeeps(cfg: Config, s: Sys, id: Uuid, index: nat, o: Relay.Outcome)
    requires Inv(cfg, s) && o.Possible() && Publishable(Relay.RequestsSource, s.events, id, s.now)
    ensures Inv(cfg, s.(events := Relay.Settle(s.events, id, s.now, o),
                        log := Relay.AppendedIf(s.log, Part(s.events[id].route.value, index), Relay.RecordOf(id, s.events[id]), o.appended)))
  {
    assert EventOk(id, s.events[id]);
    hide DbInv, RowInv, Relay.RecordOf, RetryLogOk, NoLostRetry, PublishedOk, RequestsSettled;
    var p, rec := Part(s.events[id].route.value, index), Relay.RecordOf(id, s.events[id]);
    if o.appended {
      AppendedAhead(s.log, s.committed, p, rec);
      AppendKeeps(cfg, s, p, rec);
    }
    var t := s.(log := Relay.AppendedIf(s.log, p, rec, o.appended));
    SettleEventKeeps(cfg, t, id, o);
  }

  /** The wire round trip of a retry: the row's record routes back to the same retry. */
  lemma RetryRowRoutes(id: Uuid, row: OutboxRow, r: Retry, topic: Topic)
    requires row.eventType == Contract.NOTIFICATION_RETRY && row.version == Contract.SCHEMA_V1
    requires row.key == UuidText(r.userId) && row.payload.DispatchJson? && row.payload.retry == r
    requires r.deliveryId != NIL && r.eventId != NIL && r.userId != NIL && r.attemptNo > 0
    requires Contract.IsRetryTopic(topic)
    ensures Contract.RouteRecord(topic, Relay.RecordOf(id, row)) == Contract.Resume(r)
  {
    Contract.WireHeadersRoundTrip(id, row.eventType, row.version);
    hide Contract.WireHeaders, Contract.HeaderMap;
  }

  lemma DispatchedRecordOk(cfg: Config, s: Sys, id: Uuid, index: nat)
    requires Inv(cfg, s) && Publishable(Relay.DispatchSource, s.db.dispatch, id, s.now)
    requires Contract.IsRetryTopic(s.db.dispatch[id].route.value)
    ensures RetryRecordOk(s.db.dispatch[id].route.value, Relay.RecordOf(id, s.db.dispatch[id]), s.db.deliveries, s.trail, s.now)
  {
    hide LogInv, Contract.RouteRecord;
    var row := s.db.dispatch[id];
    assert RowOk(row, s.db.deliveries, s.trail);
    var d := s.db.deliveries[row.origin.delivery];
    assert AnchorOk(s.db.channels, s.db.inbox, d);
    assert row.origin.kind == RetryKind;
    RetryRowRoutes(id, row, row.payload.retry, row.route.value);
  }

  lemma RelayDispatchKeeps(cfg: Config, s: Sys, id: Uuid, index: nat, o: Relay.Outcome)
    requires Inv(cfg, s) && o.Possible() && Publishable(Relay.DispatchSource, s.db.dispatch, id, s.now)
    ensures Inv(cfg, s.(db := s.db.(dispatch := Relay.Settle(s.db.dispatch, id, s.now, o)),
                        log := Relay.AppendedIf(s.log, Part(s.db.dispatch[id].route.value, index),
                                                Relay.RecordOf(id, s.db.dispatch[id]), o.appended)))
  {
    hide DbInv, RowInv, Relay.RecordOf, RetryRecordOk, RetryLogOk, NoLostRetry, PublishedOk, RequestsSettled;
    var p, rec := Part(s.db.dispatch[id].route.value, index), Relay.RecordOf(id, s.db.dispatch[id]);
    if Contract.IsRetryTopic(p.topic) {
      DispatchedRecordOk(cfg, s, id, index);
    }
    if o.appended {
      AppendedAhead(s.log, s.committed, p, rec);
      AppendKeeps(cfg, s, p, rec);
    }
    var t := s.(log := Relay.AppendedIf(s.log, p, rec, o.appended));
    SettleDispatchKeeps(cfg, t, id, o);
  }

  // ----- Consumption -----

  /** The state once the database part of processing a record has committed. */
  function Stored(s: Sys, p: Part, offset: nat, ids: map<Uuid, Uuid>): Sys
    requires offset < |LogAt(s.log, p)|
  {
    var v := VerdictAt(s, p, offset);
    var news := if AcceptsNew(s, v) then ids else map[];
    s.(db := Processed(s.db, v, LogAt(s.log, p)[offset].value, ids, s.now).0,
       used := s.used + news.Keys, trail := s.trail + NewTrails(news, s.now))
  }

  ghost predicate Consumable(s: Sys, p: Part, offset: nat, ids: map<Uuid, Uuid>) {
    && (p.topic == RequestsTopic || Contract.IsRetryTopic(p.topic))
    && offset < |LogAt(s.log, p)|
    && var v := VerdictAt(s, p, offset);
       AcceptsNew(s, v) ==> Assigns(ids, Targets(s.db.channels, v.event.userId)) && forall i :: i in ids ==> Fresh(s, i)
  }

  lemma RequestVerdict(s: Sys, p: Part, offset: nat)
    requires p.topic == RequestsTopic && offset < |LogAt(s.log, p)|
    ensures var v := VerdictAt(s, p, offset);
            && !v.Resume?
            && (v.Accept? ==> LogAt(s.log, p)[offset].value == RequestedJson(v.event) && v.event.eventId != NIL && v.event.userId != NIL)
  {
    hide Contract.HeaderMap, Contract.HeaderIs, Contract.TrimSpace, Contract.AbsoluteHttp;
  }

  lemma RetryVerdict(s: Sys, p: Part, offset: nat)
    requires RetryLogOk(s.log, s.db.deliveries, s.trail, s.now)
    requires Contract.IsRetryTopic(p.topic) && offset < |LogAt(s.log, p)|
    ensures var value := LogAt(s.log, p)[offset].value;
            && value.DispatchJson? && VerdictAt(s, p, offset) == Contract.Resume(value.retry)
            && RetryDue(value.retry, s.db.deliveries, s.trail, s.now)
  {
    hide Contract.RouteRecord, RetryDue;
    assert RetryRecordOk(p.topic, s.log[p][offset], s.db.deliveries, s.trail, s.now);
  }

  lemma StoredRequest(s: Sys, p: Part, offset: nat, ids: map<Uuid, Uuid>)
    requires p.topic == RequestsTopic && Consumable(s, p, offset, ids)
    ensures var v := VerdictAt(s, p, offset);
            Stored(s, p, offset, ids) == if AcceptsNew(s, v) then Accepting(s, v.event, ids) else s
  {
    RequestVerdict(s, p, offset);
    hide Contract.RouteRecord, Assigns;
    var none: map<Uuid, Uuid> := map[];
    assert s.trail + NewTrails(none, s.now) == s.trail && s.used + none.Keys == s.used;
  }

  lemma StoredRetry(s: Sys, p: Part, offset: nat, ids: map<Uuid, Uuid>)
    requires RetryLogOk(s.log, s.db.deliveries, s.trail, s.now)
    requires Contract.IsRetryTopic(p.topic) && offset < |LogAt(s.log, p)|
    ensures LogAt(s.log, p)[offset].value.DispatchJson?
    ensures var r := LogAt(s.log, p)[offset].value.retry;
            RetryDue(r, s.db.deliveries, s.trail, s.now) && Stored(s, p, offset, ids) == s.(db := ResumeRetry(s.db, r, s.now))
  {
    RetryVerdict(s, p, offset);
    hide Contract.RouteRecord, RetryDue, RetryLogOk, ResumeRetry;
    var none: map<Uuid, Uuid> := map[];
    assert s.trail + NewTrails(none, s.now) == s.trail && s.used + none.Keys == s.used;
  }

  lemma StoredKeeps(cfg: Config, s: Sys, p: Part, offset: nat, ids: map<Uuid, Uuid>)
    requires Inv(cfg, s) && Consumable(s, p, offset, ids)
    ensures Inv(cfg, Stored(s, p, offset, ids))
  {
    hide DbInv, RowInv, RetryLogOk, Contract.RouteRecord, Stored;
    if p.topic == RequestsTopic {
      StoredRequest(s, p, offset, ids);
      RequestVerdict(s, p, offset);
      var v := VerdictAt(s, p, offset);
      if AcceptsNew(s, v) {
        AcceptKeeps(cfg, s, v.event, ids);
      }
    } else {
      StoredRetry(s, p, offset, ids);
      ResumeKeeps(cfg, s, LogAt(s.log, p)[offset].value.retry);
    }
  }

  // What processing leaves behind, by topic: nobody waits for a consumed retry, and a
  // request that needs no report has been accepted as it is.

  lemma StoredRetryIsSafe(cfg: Config, s: Sys, p: Part, offset: nat, ids: map<Uuid, Uuid>)
    requires Inv(cfg, s) && Contract.IsRetryTopic(p.topic) && offset < |LogAt(s.log, p)|
    ensures var after := Stored(s, p, offset, ids); after.log == s.log && SafeToPass(after, p, offset)
  {
    StoredRetry(s, p, offset, ids);
    hide Stored, RowInv, LogInv, Contract.RouteRecord, LivesOk, PairsUnique, TasksOk, UsedOk;
    var r := LogAt(s.log, p)[offset].value.retry;
    assert AnchorOk(s.db.channels, s.db.inbox, s.db.deliveries[r.deliveryId]);
  }

  lemma StoredRequestIsSafe(s: Sys, p: Part, offset: nat, ids: map<Uuid, Uuid>)
    requires p.topic == RequestsTopic && Consumable(s, p, offset, ids)
    ensures var after := Stored(s, p, offset, ids);
            && after.log == s.log
            && (Reason(s, p, offset, ids).None? ==> Accepted(after.db.inbox, LogAt(s.log, p)[offset].value))
  {
    StoredRequest(s, p, offset, ids);
    RequestVerdict(s, p, offset);
    hide Stored, Contract.RouteRecord, Assigns;
  }

  function Reason(s: Sys, p: Part, offset: nat, ids: map<Uuid, Uuid>): Option<string>
    requires offset < |LogAt(s.log, p)|
  {
    Processed(s.db, VerdictAt(s, p, offset), LogAt(s.log, p)[offset].value, ids, s.now).1
  }

  lemma ConsumeKeeps(cfg: Config, s: Sys, p: Part, offset: nat, ids: map<Uuid, Uuid>, digest: Uuid, index: nat,
                     o: Relay.Outcome, commit: bool)
    requires Inv(cfg, s) && Consumable(s, p, offset, ids) && o.Possible()
    requires commit ==> offset <= CommittedAt(s.committed, p)
    ensures Inv(cfg, ConsumeStep(s, p, offset, ids, digest, index, o, commit))
  {
    var stored := Stored(s, p, offset, ids);
    var reason := Reason(s, p, offset, ids);
    StoredKeeps(cfg, s, p, offset, ids);
    if p.topic == RequestsTopic {
      StoredRequestIsSafe(s, p, offset, ids);
    } else {
      StoredRetryIsSafe(cfg, s, p, offset, ids);
    }
    hide DbInv, RowInv, LogInv, Contract.RouteRecord, Consumable, Processed, AcceptsNew, Accepted;
    var told := stored;
    if reason.Some? && o.appended {
      var q, rec := Part(DeadLetters, index), InvalidRecord(p, offset, reason.value, digest);
      AppendKeeps(cfg, stored, q, rec);
      told := stored.(log := Appended(s.log, q, rec));
      ReportAppended(s.log, q, p, offset, reason.value, digest);
    }
    if (reason.None? || o.acked) && commit {
      CommitKeeps(cfg, told, p, offset);
    }
  }

  /** A record that makes no deliveries changes the database, the log and the offset only. */
  lemma NothingNew(
    s: Sys, p: Part, offset: nat, ids: map<Uuid, Uuid>, digest: Uuid, index: nat, o: Relay.Outcome, commit: bool,
    db: Db, reason: Option<string>)
    requires offset < |LogAt(s.log, p)| && !AcceptsNew(s, VerdictAt(s, p, offset))
    requires Processed(s.db, VerdictAt(s, p, offset), LogAt(s.log, p)[offset].value, ids, s.now) == (db, reason)
    ensures ConsumeStep(s, p, offset, ids, digest, index, o, commit) ==
            s.(db := db,
               log := if reason.Some?
                 then Relay.AppendedIf(s.log, Part(DeadLetters, index), InvalidRecord(p, offset, reason.value, digest), o.appended)
                 else s.log,
               committed := if (reason.None? || o.acked) && commit then s.committed[p := offset + 1] else s.committed)
  {
    hide VerdictAt, Processed, InvalidRecord, Relay.AppendedIf, AcceptsNew;
    var none: map<Uuid, Uuid> := map[];
    assert s.used + none.Keys == s.used;
    assert s.trail + (map i | i in none :: Trail(s.now, [])) == s.trail;
  }

  lemma ReportAppended(log: Log, q: Part, p: Part, offset: nat, reason: string, digest: Uuid)
    requires q.topic == DeadLetters
    ensures Reported(Appended(log, q, InvalidRecord(p, offset, reason, digest)), p, offset)
    ensures p != q ==> LogAt(Appended(log, q, InvalidRecord(p, offset, reason, digest)), p) == LogAt(log, p)
  {
    var after: Log := Appended(log, q, InvalidRecord(p, offset, reason, digest));
    var j := |LogAt(log, q)|;
    var last: Record := after[q][j];
    assert last.value == InvalidJson(p, offset, reason);
  }

  // ----- Endings -----

  /** A claimed delivery and its trail, as the endings below need them. */
  lemma Running(cfg: Config, s: Sys, id: Uuid)
    requires Inv(cfg, s) && id in s.db.deliveries
    ensures id in s.trail && LifeOk(s.db.deliveries[id], s.trail[id], cfg.Limit())
    ensures AnchorOk(s.db.channels, s.db.inbox, s.db.deliveries[id])
  {
  }

  /** A task whose claim is current matches its delivery. */
  lemma RunningTask(cfg: Config, s: Sys, task: Task)
    requires Inv(cfg, s) && task in s.tasks && Current(s.db, task)
    ensures task.id in s.trail && LifeOk(s.db.deliveries[task.id], s.trail[task.id], cfg.Limit())
    ensures var d := s.db.deliveries[task.id];
            task.event == d.event && task.user == d.user && task.attempts == d.attempts
  {
    assert TaskOk(task, s.db.deliveries, s.used);
    hide TaskOk, RowInv, LogInv;
    Running(cfg, s, task.id);
  }

  function StatusAfter(e: Ending): Status {
    match e
    case Retried => RetryWait
    case Recovered => Pending
    case DeadLettered => Failed
    case CutOff => Cancelled
    case Delivered => Sent
  }

  /** Ending the running attempt as e, with the row columns that go with it. */
  lemma Finishes(cfg: Config, s: Sys, id: Uuid, d2: Delivery, t2: Trail, e: Ending)
    requires id in s.db.deliveries && id in s.trail && LifeOk(s.db.deliveries[id], s.trail[id], cfg.Limit())
    requires var d := s.db.deliveries[id];
             && d.status == Processing && d2.event == d.event && d2.user == d.user && d2.channel == d.channel
             && d2.attempts == d.attempts && d2.token.None? && d2.lease.None? && (d2.sentAt.Some? <==> e == Delivered)
    requires d2.status == StatusAfter(e) && t2.ended == s.trail[id].ended + [e]
    requires e == Retried || e == Recovered ==> d2.attempts < cfg.Limit() && Active(s.db.channels, d2)
    requires e == Recovered ==> t2.due <= d2.availableAt
    ensures Ends(cfg, s, id, d2, t2, e)
  {
    assert LifeOk(d2, t2, cfg.Limit());
    hide LifeOk;
  }

  lemma DeliverKeeps(cfg: Config, s: Sys, task: Task)
    requires Inv(cfg, s) && task in s.tasks
    ensures Inv(cfg, DeliverStep(s, task))
  {
    if Current(s.db, task) {
      var id := task.id;
      Running(cfg, s, id);
      var d2 := s.db.deliveries[id].(status := Sent, sentAt := Some(s.now), token := None, lease := None, lastError := None);
      var t2 := EndedWith(s.trail[id], Delivered);
      Finishes(cfg, s, id, d2, t2, Delivered);
      hide Inv, Ends, LifeOk;
      EndKeeps(cfg, s, id, d2, t2, Delivered, NIL, None);
    }
  }

  lemma StaleFailKeeps(cfg: Config, s: Sys, task: Task, delay: int, code: string, newRow: Uuid)
    requires Inv(cfg, s) && !Current(s.db, task)
    ensures Inv(cfg, FailStep(cfg, s, task, delay, code, newRow))
  {
    hide Inv;
    UseKeeps(cfg, s, newRow);
  }

  lemma CutOffKeeps(cfg: Config, s: Sys, id: Uuid, newRow: Uuid, d2: Delivery, t2: Trail)
    requires Inv(cfg, s) && Ends(cfg, s, id, d2, t2, CutOff)
    ensures Inv(cfg, s.(db := s.db.(deliveries := s.db.deliveries[id := d2]), trail := s.trail[id := t2], used := s.used + {newRow}))
  {
    EndKeeps(cfg, s, id, d2, t2, CutOff, NIL, None);
    hide Inv, Ends;
    UseKeeps(cfg, Ended(s, id, d2, t2, NIL, None), newRow);
  }

  lemma RecoveredKeeps(cfg: Config, s: Sys, id: Uuid, newRow: Uuid, d2: Delivery, t2: Trail)
    requires Inv(cfg, s) && Ends(cfg, s, id, d2, t2, Recovered)
    ensures Inv(cfg, s.(db := s.db.(deliveries := s.db.deliveries[id := d2]), trail := s.trail[id := t2], used := s.used + {newRow}))
  {
    EndKeeps(cfg, s, id, d2, t2, Recovered, NIL, None);
    hide Inv, Ends;
    UseKeeps(cfg, Ended(s, id, d2, t2, NIL, None), newRow);
  }

  /** An ending that is reported: the row is inserted, for the conflict cannot arise. */
  lemma ReportedKeeps(cfg: Config, s: Sys, task: Task, newRow: Uuid, d2: Delivery, t2: Trail, e: Ending, row: OutboxRow)
    requires Inv(cfg, s) && Ends(cfg, s, task.id, d2, t2, e) && Reports(s, task.id, d2, t2, e, newRow, Some(row))
    ensures Insert(s.db.dispatch, newRow, row) == s.db.dispatch[newRow := row]
    ensures Inv(cfg, s.(db := s.db.(deliveries := s.db.deliveries[task.id := d2], dispatch := Insert(s.db.dispatch, newRow, row)),
                        trail := s.trail[task.id := t2], used := s.used + {newRow}))
  {
    NewsOfReport(cfg, s, task.id, newRow, d2, t2, e, row);
    hide Inv, Ends, Reports, Insert;
    EndKeeps(cfg, s, task.id, d2, t2, e, newRow, Some(row));
  }

  lemma NewsOfReport(cfg: Config, s: Sys, id: Uuid, newRow: Uuid, d2: Delivery, t2: Trail, e: Ending, row: OutboxRow)
    requires RowInv(s) && Ends(cfg, s, id, d2, t2, e) && Reports(s, id, d2, t2, e, newRow, Some(row))
    ensures Insert(s.db.dispatch, newRow, row) == s.db.dispatch[newRow := row]
  {
    hide RowOk, LifeOk, Origins;
    EndIsNews(cfg, s, id, d2, t2, e, if e == Retried then RetryKind else DlqKind);
  }

  /** The rows `MarkFailed` and the recovery write are well formed for their attempt. */
  lemma WrittenRowReports(s: Sys, task: Task, e: Ending, topic: Topic, code: string, availableAt: Time, newRow: Uuid,
                          d2: Delivery, t2: Trail)
    requires task.id in s.db.deliveries && task.attempts == d2.attempts == |t2.ended| && Fresh(s, newRow)
    requires task.event == d2.event && task.user == d2.user
    requires (e == Retried || e == DeadLettered) && EndedAs(t2, d2.attempts, e)
    requires TopicFits(if e == Retried then RetryKind else DlqKind, topic)
    requires e == Retried ==> t2.due == availableAt
    ensures var row := DispatchRow(task, if e == Retried then RetryKind else DlqKind, topic, code, availableAt, s.now);
            Reports(s, task.id, d2, t2, e, newRow, Some(row))
  {
  }

  lemma RetriedKeeps(cfg: Config, s: Sys, task: Task, delay: int, code: string, newRow: Uuid)
    requires Inv(cfg, s) && task in s.tasks && Fresh(s, newRow) && Current(s.db, task)
    requires Active(s.db.channels, s.db.deliveries[task.id]) && delay > 0 && task.attempts < cfg.Limit()
    ensures Inv(cfg, FailStep(cfg, s, task, delay, code, newRow))
  {
    hide Inv, Ends, SafeCode, Insert;
    RunningTask(cfg, s, task);
    var d, t := s.db.deliveries[task.id], s.trail[task.id];
    var d2, t2 := Stopped(d, RetryWait, SafeCode(code)), EndedWith(t, Retried).(due := s.now + delay);
    Finishes(cfg, s, task.id, d2, t2, Retried);
    WrittenRowReports(s, task, Retried, RetryTopic(delay), SafeCode(code), s.now + delay, newRow, d2, t2);
    hide Reports, LifeOk;
    ReportedKeeps(cfg, s, task, newRow, d2, t2, Retried,
                  DispatchRow(task, RetryKind, RetryTopic(delay), SafeCode(code), s.now + delay, s.now));
  }

  lemma DeadLetteredKeeps(cfg: Config, s: Sys, task: Task, delay: int, code: string, newRow: Uuid)
    requires Inv(cfg, s) && task in s.tasks && Fresh(s, newRow) && Current(s.db, task)
    requires Active(s.db.channels, s.db.deliveries[task.id]) && delay <= 0
    ensures Inv(cfg, FailStep(cfg, s, task, delay, code, newRow))
  {
    hide Inv, Ends, SafeCode, Insert;
    RunningTask(cfg, s, task);
    var d, t := s.db.deliveries[task.id], s.trail[task.id];
    var d2, t2 := Stopped(d, Failed, SafeCode(code)), EndedWith(t, DeadLettered);
    Finishes(cfg, s, task.id, d2, t2, DeadLettered);
    WrittenRowReports(s, task, DeadLettered, DeadLetters, SafeCode(code), s.now, newRow, d2, t2);
    hide Reports, LifeOk;
    ReportedKeeps(cfg, s, task, newRow, d2, t2, DeadLettered,
                  DispatchRow(task, DlqKind, DeadLetters, SafeCode(code), s.now, s.now));
  }

  lemma FailKeeps(cfg: Config, s: Sys, task: Task, delay: int, code: string, newRow: Uuid)
    requires Inv(cfg, s) && task in s.tasks && Fresh(s, newRow)
    requires delay > 0 ==> task.attempts < cfg.Limit()
    ensures Inv(cfg, FailStep(cfg, s, task, delay, code, newRow))
  {
    if !Current(s.db, task) {
      StaleFailKeeps(cfg, s, task, delay, code, newRow);
    } else if !Active(s.db.channels, s.db.deliveries[task.id]) {
      Running(cfg, s, task.id);
      var d2 := Stopped(s.db.deliveries[task.id], Cancelled, "channel_disabled");
      var t2 := EndedWith(s.trail[task.id], CutOff);
      Finishes(cfg, s, task.id, d2, t2, CutOff);
      hide Inv, Ends, LifeOk;
      CutOffKeeps(cfg, s, task.id, newRow, d2, t2);
    } else if delay > 0 {
      RetriedKeeps(cfg, s, task, delay, code, newRow);
    } else {
      DeadLetteredKeeps(cfg, s, task, delay, code, newRow);
    }
  }

  lemma RecoverFailedKeeps(cfg: Config, s: Sys, id: Uuid, newRow: Uuid)
    requires Inv(cfg, s) && id in s.db.deliveries && Expired(s.db.deliveries[id], s.now) && Fresh(s, newRow)
    requires Store.Verdict(s.db.channels, s.db.deliveries[id], cfg.recoveryLimit) == Failed
    ensures Inv(cfg, RecoverStep(cfg, s, id, newRow))
  {
    Running(cfg, s, id);
    hide Inv, Ends, Reports, Insert, DispatchRow, Expired, Active;
    var d, t2 := s.db.deliveries[id], EndedWith(s.trail[id], DeadLettered);
    var d2 := Stopped(d, Failed, "lease_expired").(availableAt := s.now);
    var task := Task(id, d.event, d.user, NIL, d.attempts, Telegram, Message("", "", "", ""));
    Finishes(cfg, s, id, d2, t2, DeadLettered);
    WrittenRowReports(s, task, DeadLettered, DeadLetters, "lease_expired", s.now, newRow, d2, t2);
    hide LifeOk;
    ReportedKeeps(cfg, s, task, newRow, d2, t2, DeadLettered, DispatchRow(task, DlqKind, DeadLetters, "lease_expired", s.now, s.now));
  }

  lemma RecoverCancelledKeeps(cfg: Config, s: Sys, id: Uuid, newRow: Uuid)
    requires Inv(cfg, s) && id in s.db.deliveries && Expired(s.db.deliveries[id], s.now) && Fresh(s, newRow)
    requires Store.Verdict(s.db.channels, s.db.deliveries[id], cfg.recoveryLimit) == Cancelled
    ensures Inv(cfg, RecoverStep(cfg, s, id, newRow))
  {
    Running(cfg, s, id);
    hide Inv, Ends, LifeOk, Active;
    var d2 := Stopped(s.db.deliveries[id], Cancelled, "channel_disabled").(availableAt := s.now);
    Finishes(cfg, s, id, d2, EndedWith(s.trail[id], CutOff), CutOff);
    CutOffKeeps(cfg, s, id, newRow, d2, EndedWith(s.trail[id], CutOff));
  }

  lemma RecoverPendingKeeps(cfg: Config, s: Sys, id: Uuid, newRow: Uuid)
    requires Inv(cfg, s) && id in s.db.deliveries && Expired(s.db.deliveries[id], s.now) && Fresh(s, newRow)
    requires Store.Verdict(s.db.channels, s.db.deliveries[id], cfg.recoveryLimit) == Pending
    ensures Inv(cfg, RecoverStep(cfg, s, id, newRow))
  {
    Running(cfg, s, id);
    hide Inv, Ends, LifeOk;
    var d2 := Stopped(s.db.deliveries[id], Pending, "lease_expired").(availableAt := s.now);
    var t2 := EndedWith(s.trail[id], Recovered).(due := s.now);
    Finishes(cfg, s, id, d2, t2, Recovered);
    RecoveredKeeps(cfg, s, id, newRow, d2, t2);
  }

  lemma RecoverKeeps(cfg: Config, s: Sys, id: Uuid, newRow: Uuid)
    requires Inv(cfg, s) && id in s.db.deliveries && Expired(s.db.deliveries[id], s.now) && Fresh(s, newRow)
    ensures Inv(cfg, RecoverStep(cfg, s, id, newRow))
  {
    hide Inv, RecoverStep, Expired;
    match Store.Verdict(s.db.channels, s.db.deliveries[id], cfg.recoveryLimit)
    case Cancelled => RecoverCancelledKeeps(cfg, s, id, newRow);
    case Failed => RecoverFailedKeeps(cfg, s, id, newRow);
    case _ => RecoverPendingKeeps(cfg, s, id, newRow);
  }

  // ----- All steps, all runs -----

  lemma StepKeeps(cfg: Config, s: Sys, a: Action)
    requires Inv(cfg, s) && Enabled(s, a)
    ensures Inv(cfg, Apply(cfg, s, a))
  {
    hide Inv;
    match a
    case Tick(elapsed) => TickKeeps(cfg, s, elapsed);
    case AddChannel(id, c) =>
      if ChannelClash(s.db.channels, id, c) {
        assert Apply(cfg, s, a) == s;
      } else {
        ChannelsKeep(cfg, s, s.db.channels[id := c.(enabled := true)]);
      }
    case SetEnabled(user, channel, enabled) => SetEnabledKeeps(cfg, s, user, channel, enabled);
    case DropChannel(user, channel) => DropChannelKeeps(cfg, s, user, channel);
    case Intend(id, user, post) => IntendKeeps(cfg, s, id, user, post);
    case RelayRequest(id, index, o) => RelayRequestKeeps(cfg, s, id, index, o);
    case RelayDispatch(id, index, o) => RelayDispatchKeeps(cfg, s, id, index, o);
    case Consume(p, offset, ids, digest, index, o, commit) => ConsumeKeeps(cfg, s, p, offset, ids, digest, index, o, commit);
    case Claim(id, token, lease, types) => ClaimKeeps(cfg, s, id, token, lease);
    case Deliver(task) => DeliverKeeps(cfg, s, task);
    case Fail(task, failure, random, code, row) =>
      FailKeeps(cfg, s, task, FailDelay(cfg, task.attempts, failure, random), code, row);
    case Recover(id, row) => RecoverKeeps(cfg, s, id, row);
  }

  /** Every state of every run, with any number of workers, relays and consumers, under
      any crashes, duplications and replays, satisfies the invariant. */
  lemma {:induction false} RunKeeps(cfg: Config, s: Sys, run: seq<Action>)
    requires Inv(cfg, s) && IsRun(cfg, s, run)
    ensures Inv(cfg, After(cfg, s, run))
    decreases |run|
  {
    hide Inv;
    if run != [] {
      StepKeeps(cfg, s, run[0]);
      RunKeeps(cfg, Apply(cfg, s, run[0]), run[1..]);
    }
  }
}
