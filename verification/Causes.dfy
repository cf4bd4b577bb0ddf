/** What each step does to each delivery, and so why a delivery is where it is. */
module Causes {
  import opened Types
  import opened Store
  import opened Machine
  import opened Invariant
  import opened Preservation
  import opened Steps
  import opened Jobs
  import Contract
  import Relay
  import RetryPolicy
  import Rules

  predicate OwnsChannel(db: Db, user: Uuid, channel: Uuid) {
    channel in db.channels && db.channels[channel].user == user
  }

  /** The retry is about the current attempt of the row, which waits for it on a good channel. */
  predicate IsResumedBy(db: Db, id: Uuid, r: Retry) {
    && r.deliveryId == id && id in db.deliveries
    && var d := db.deliveries[id];
       d.event == r.eventId && d.user == r.userId && d.attempts == r.attemptNo && d.status == RetryWait && Rules.On(db.channels, d)
  }

  /** The row of a delivery after a step, written out on its columns. */
  function RowAfter(cfg: Config, s: Sys, a: Action, id: Uuid): Delivery
    requires Enabled(s, a) && id in s.db.deliveries
  {
    var d := s.db.deliveries[id];
    match a
    case SetEnabled(user, channel, enabled) =>
      if OwnsChannel(s.db, user, channel) && !enabled then Rules.Cut(d, user, channel) else d
    case DropChannel(user, channel) =>
      if OwnsChannel(s.db, user, channel) then Rules.Cut(d, user, channel) else d
    case Consume(p, offset, _, _, _, _, _) =>
      var v := VerdictAt(s, p, offset);
      if v.Resume? && IsResumedBy(s.db, id, v.retry) then d.(status := Pending, availableAt := s.now) else d
    case Claim(x, token, lease, _) =>
      if x == id then d.(status := Processing, attempts := d.attempts + 1, token := Some(token), lease := Some(lease)) else d
    case Deliver(task) =>
      if task.id == id && Rules.Holds(s.db.deliveries, task)
      then d.(status := Sent, sentAt := Some(s.now), token := None, lease := None, lastError := None) else d
    case Fail(task, failure, random, code, _) =>
      if task.id != id || !Rules.Holds(s.db.deliveries, task) then d
      else if !Rules.On(s.db.channels, d) then Rules.Left(d, Cancelled, "channel_disabled")
      else if FailDelay(cfg, task.attempts, failure, random) > 0 then Rules.Left(d, RetryWait, Rules.ShortCode(code))
      else Rules.Left(d, Failed, Rules.ShortCode(code))
    case Recover(x, _) => if x == id then Rules.Back(s.db.channels, d, cfg.recoveryLimit, s.now) else d
    case _ => d
  }

  lemma ChannelRow(cfg: Config, s: Sys, a: Action, id: Uuid)
    requires Enabled(s, a) && id in s.db.deliveries && (a.AddChannel? || a.SetEnabled? || a.DropChannel?)
    ensures id in Apply(cfg, s, a).db.deliveries && Apply(cfg, s, a).db.deliveries[id] == RowAfter(cfg, s, a, id)
  {
    hide ChannelClash;
  }

  lemma SettledRow(db: Db, task: Task, delay: int, code: string, row: Uuid, now: Time, id: Uuid)
    requires id in db.deliveries
    ensures var after := MarkSent(db, task, now).0.deliveries;
            id in after && after[id] ==
              if task.id == id && Rules.Holds(db.deliveries, task)
              then db.deliveries[id].(status := Sent, sentAt := Some(now), token := None, lease := None, lastError := None)
              else db.deliveries[id]
    ensures var after := MarkFailed(db, task, delay, code, row, now).0.deliveries;
            var d := db.deliveries[id];
            id in after && after[id] ==
              if task.id != id || !Rules.Holds(db.deliveries, task) then d
              else if !Rules.On(db.channels, d) then Rules.Left(d, Cancelled, "channel_disabled")
              else if delay > 0 then Rules.Left(d, RetryWait, Rules.ShortCode(code))
              else Rules.Left(d, Failed, Rules.ShortCode(code))
  {
    hide Insert, DispatchRow, RetryTopic;
  }

  lemma RecoveredRow(db: Db, x: Uuid, maxAttempts: int, row: Uuid, now: Time, id: Uuid)
    requires x in db.deliveries && id in db.deliveries
    ensures var after := RecoverOne(db, x, maxAttempts, row, now).deliveries;
            id in after && after[id] == if x == id then Rules.Back(db.channels, db.deliveries[id], maxAttempts, now) else db.deliveries[id]
  {
    hide Insert, DispatchRow;
  }

  lemma SettlementRow(cfg: Config, s: Sys, a: Action, id: Uuid)
    requires Enabled(s, a) && id in s.db.deliveries && (a.Deliver? || a.Fail? || a.Recover?)
    ensures id in Apply(cfg, s, a).db.deliveries && Apply(cfg, s, a).db.deliveries[id] == RowAfter(cfg, s, a, id)
  {
    hide MarkSent, MarkFailed, RecoverOne, FailDelay, Active, Current, Store.Verdict, Rules.Holds, Rules.On, Rules.Back, Expired;
    match a
    case Deliver(task) => SettledRow(s.db, task, 0, "", NIL, s.now, id);
    case Fail(task, failure, random, code, row) =>
      SettledRow(s.db, task, FailDelay(cfg, task.attempts, failure, random), code, row, s.now, id);
    case Recover(x, row) => RecoveredRow(s.db, x, cfg.recoveryLimit, row, s.now, id);
  }

  lemma ResumedRow(db: Db, r: Retry, now: Time, id: Uuid)
    requires id in db.deliveries
    ensures var after := ResumeRetry(db, r, now).deliveries;
            id in after && after[id] ==
              if IsResumedBy(db, id, r) then db.deliveries[id].(status := Pending, availableAt := now) else db.deliveries[id]
  {
  }

  lemma ProcessedRow(db: Db, v: Contract.Verdict, payload: Payload, ids: map<Uuid, Uuid>, now: Time, id: Uuid)
    requires id in db.deliveries && (v.Accept? && v.event.eventId !in db.inbox ==> id !in ids)
    ensures var after := Processed(db, v, payload, ids, now).0.deliveries;
            id in after && after[id] ==
              if v.Resume? && IsResumedBy(db, id, v.retry) then db.deliveries[id].(status := Pending, availableAt := now)
              else db.deliveries[id]
  {
    hide ResumeRetry, IsResumedBy;
    if v.Resume? {
      ResumedRow(db, v.retry, now, id);
    }
  }

  lemma ConsumedRow(cfg: Config, s: Sys, a: Action, id: Uuid)
    requires Inv(cfg, s) && Enabled(s, a) && id in s.db.deliveries && a.Consume?
    ensures id in Apply(cfg, s, a).db.deliveries && Apply(cfg, s, a).db.deliveries[id] == RowAfter(cfg, s, a, id)
  {
    Unclaimed(cfg, s);
    hide Inv, VerdictAt, Processed, InvalidRecord, Relay.AppendedIf, Assigns, Targets, IsResumedBy;
    var value := LogAt(s.log, a.part)[a.offset].value;
    ProcessedRow(s.db, VerdictAt(s, a.part, a.offset), value, a.ids, s.now, id);
  }

  /** Every step, seen on one row. */
  lemma StepRow(cfg: Config, s: Sys, a: Action, id: Uuid)
    requires Inv(cfg, s) && Enabled(s, a) && id in s.db.deliveries
    ensures id in Apply(cfg, s, a).db.deliveries && Apply(cfg, s, a).db.deliveries[id] == RowAfter(cfg, s, a, id)
  {
    if a.AddChannel? || a.SetEnabled? || a.DropChannel? {
      hide Inv, Enabled, Apply, RowAfter;
      ChannelRow(cfg, s, a, id);
    } else if a.Deliver? || a.Fail? || a.Recover? {
      hide Inv, Enabled, Apply, RowAfter;
      SettlementRow(cfg, s, a, id);
    } else if a.Consume? {
      hide Inv, Enabled, Apply, RowAfter;
      ConsumedRow(cfg, s, a, id);
    } else {
      hide Inv, Claimable, HandedOut, Relay.Settle, Relay.RecordOf, Relay.AppendedIf;
    }
  }

  // ----- Why -----

  lemma OnlyRunningRecovers(s: Sys, a: Action)
    requires Enabled(s, a) && a.Recover?
    ensures a.id in s.db.deliveries && Rules.LeaseOver(s.db.deliveries[a.id], s.now)
  {
  }

  lemma OnlyDueClaimed(s: Sys, a: Action)
    requires Enabled(s, a) && a.Claim?
    ensures a.id in s.db.deliveries && Rules.CanClaim(s.db.channels, s.db.deliveries[a.id], a.types, s.now)
  {
  }

  /** What a change of status takes. */
  predicate Caused(cfg: Config, s: Sys, a: Action, id: Uuid, status: Status)
    requires id in s.db.deliveries
  {
    var d := s.db.deliveries[id];
    var failed := a.Fail? && a.task.id == id && Rules.Holds(s.db.deliveries, a.task);
    var lost := a.Recover? && a.id == id && Rules.LeaseOver(d, s.now);
    var again := a.Fail? && FailDelay(cfg, a.task.attempts, a.failure, a.random) > 0;
    match status
    case Processing => a.Claim? && a.id == id && Rules.CanClaim(s.db.channels, d, a.types, s.now)
    case Sent => a.Deliver? && a.task.id == id && Rules.Holds(s.db.deliveries, a.task)
    case RetryWait => failed && Rules.On(s.db.channels, d) && again
    case Failed => Rules.On(s.db.channels, d) && ((failed && !again) || (lost && d.attempts >= cfg.recoveryLimit))
    case Pending =>
      || (a.Consume? && d.status == RetryWait && Rules.On(s.db.channels, d))
      || (lost && Rules.On(s.db.channels, d) && d.attempts < cfg.recoveryLimit)
    case Cancelled =>
      if d.status == Processing then (failed || lost) && !Rules.On(s.db.channels, d)
      else
        && (a == SetEnabled(d.user, d.channel, false) || a == DropChannel(d.user, d.channel))
        && OwnsChannel(s.db, d.user, d.channel)
  }

  /** A delivery changes its status only for its cause. In particular: one that waits is
      cancelled only by a step that turns off or deletes its own channel; one is failed only
      by a failure that is not to be retried, or by the recovery at its limit. */
  lemma StatusIsCaused(cfg: Config, s: Sys, a: Action, id: Uuid)
    requires Inv(cfg, s) && Enabled(s, a) && id in s.db.deliveries
    ensures id in Apply(cfg, s, a).db.deliveries
    ensures var status := Apply(cfg, s, a).db.deliveries[id].status;
            status != s.db.deliveries[id].status ==> Caused(cfg, s, a, id, status)
  {
    StepRow(cfg, s, a, id);
    if a.Recover? {
      OnlyRunningRecovers(s, a);
    }
    if a.Claim? {
      OnlyDueClaimed(s, a);
    }
    hide Inv, Enabled, Apply, Caused;
    RowIsCaused(cfg, s, a, id);
  }

  lemma RowIsCaused(cfg: Config, s: Sys, a: Action, id: Uuid)
    requires Enabled(s, a) && id in s.db.deliveries
    requires a.Recover? && a.id == id ==> Rules.LeaseOver(s.db.deliveries[id], s.now)
    requires a.Claim? && a.id == id ==> Rules.CanClaim(s.db.channels, s.db.deliveries[id], a.types, s.now)
    ensures var status := RowAfter(cfg, s, a, id).status;
            status != s.db.deliveries[id].status ==> Caused(cfg, s, a, id, status)
  {
    hide Enabled, Apply, VerdictAt, FailDelay, Rules.On;
  }

  /** When a failure is retried: an attempt is left, the failure is retryable by its own word
      or else a network error, and the policy's delay is not zero. */
  lemma RetriedIff(cfg: Config, attempts: nat, failure: RetryPolicy.Failure, random: real)
    ensures FailDelay(cfg, attempts, failure, random) > 0 <==>
              && 0 < attempts < cfg.policy.maxAttempts
              && (failure.classified == Some(true) || (failure.classified == None && failure.network))
              && cfg.policy.DelayOf(attempts, failure, cfg.policy.Factor(random)) > 0
    ensures FailDelay(cfg, attempts, failure, random) > 0 ==>
              FailDelay(cfg, attempts, failure, random) == cfg.policy.DelayOf(attempts, failure, cfg.policy.Factor(random))
  {
  }
}
