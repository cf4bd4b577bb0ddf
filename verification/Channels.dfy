/** Channels: nothing waits on a channel that is gone or off, and cancelling is for good. */
module Channels {
  import opened Types
  import opened Store
  import opened Machine
  import opened Invariant
  import opened Preservation
  import opened Steps
  import opened Jobs
  import Contract
  import Relay

  /** Every pending or retrying delivery has an existing, enabled channel of its user. */
  lemma WaitingIsActive(cfg: Config, s: Sys, id: Uuid)
    requires Inv(cfg, s) && id in s.db.deliveries && Waiting(s.db.deliveries[id])
    ensures Active(s.db.channels, s.db.deliveries[id])
  {
    Running(cfg, s, id);
  }

  /** Turns the channel off or deletes it. */
  predicate TurnsOff(a: Action, user: Uuid, channel: Uuid) {
    a == SetEnabled(user, channel, false) || a == DropChannel(user, channel)
  }

  lemma TurnOffCancels(cfg: Config, s: Sys, a: Action, user: Uuid, channel: Uuid, id: Uuid)
    requires Enabled(s, a) && TurnsOff(a, user, channel) && Owns(s.db, user, channel)
    requires id in s.db.deliveries && s.db.deliveries[id].user == user && s.db.deliveries[id].channel == channel
    requires Waiting(s.db.deliveries[id])
    ensures id in Apply(cfg, s, a).db.deliveries && Apply(cfg, s, a).db.deliveries[id].status == Cancelled
  {
  }

  /** After a disable or delete commits, what waited on the channel is cancelled in every
      later state of every run; enabling the channel again resurrects none of it. */
  lemma CancelledForGood(cfg: Config, s: Sys, a: Action, t: Sys, run: seq<Action>, user: Uuid, channel: Uuid, id: Uuid)
    requires id in s.db.deliveries && s.db.deliveries[id].user == user && s.db.deliveries[id].channel == channel
    requires Waiting(s.db.deliveries[id]) && TurnsOff(a, user, channel) && Owns(s.db, user, channel)
    requires Inv(cfg, s) && Enabled(s, a) && t == Apply(cfg, s, a) && IsRun(cfg, t, run)
    ensures var after := After(cfg, t, run).db.deliveries;
            id in t.db.deliveries && id in after && after[id] == t.db.deliveries[id] && after[id].status == Cancelled
  {
    TurnOffCancels(cfg, s, a, user, channel, id);
    StepKeeps(cfg, s, a);
    hide Inv, Enabled, Apply, Active, TurnsOff, Owns;
    RunMoves(cfg, t, run, id);
  }

  // ----- In flight when the channel goes -----

  /** The delivery's channel is off, gone or another user's. */
  predicate Off(s: Sys, id: Uuid) {
    id in s.db.deliveries && !Active(s.db.channels, s.db.deliveries[id])
  }

  /** Off in every state of a run. */
  ghost predicate StaysOff(cfg: Config, s: Sys, run: seq<Action>, id: Uuid)
    requires IsRun(cfg, s, run)
    decreases |run|
  {
    Off(s, id) && (run == [] || StaysOff(cfg, Apply(cfg, s, run[0]), run[1..], id))
  }

  /** The ways a claimed delivery can stand while its channel is off. */
  predicate InFlightOrOver(status: Status) {
    status == Processing || status == Sent || status == Cancelled
  }

  /** The dispatch rows about a delivery. */
  function RowsAbout(dispatch: Outbox, id: Uuid): set<Uuid> {
    set r | r in dispatch && dispatch[r].origin.DispatchOf? && dispatch[r].origin.delivery == id
  }

  /** A failure is cut off: cancelled whatever the failure and the delay, and no row is written. */
  lemma InFlightFailureCancels(cfg: Config, s: Sys, task: Task, delay: int, code: string, row: Uuid)
    requires Current(s.db, task) && !Active(s.db.channels, s.db.deliveries[task.id])
    ensures var after := FailStep(cfg, s, task, delay, code, row);
            after.db.deliveries[task.id].status == Cancelled && after.db.dispatch == s.db.dispatch
  {
  }

  /** So is a claim whose lease runs out, whatever its attempts. */
  lemma InFlightRecoveryCancels(cfg: Config, s: Sys, id: Uuid, row: Uuid)
    requires Off(s, id)
    ensures var after := RecoverStep(cfg, s, id, row);
            after.db.deliveries[id].status == Cancelled && after.db.dispatch == s.db.dispatch
  {
  }

  /** What a delivery that was claimed at attempt n may have become, with the rows about it
      that there were. */
  predicate CutOffOnly(s: Sys, id: Uuid, n: nat, rows: set<Uuid>) {
    && id in s.db.deliveries && InFlightOrOver(s.db.deliveries[id].status)
    && s.db.deliveries[id].attempts == n && RowsAbout(s.db.dispatch, id) == rows
  }

  /** As long as its channel stays off, a claimed delivery is in flight, sent or cancelled in
      every later state: it is never failed, pending or waiting for a retry, never claimed
      again, and no dispatch row is written about it. */
  lemma {:induction false} InFlightWhileOff(cfg: Config, s: Sys, run: seq<Action>, id: Uuid, n: nat, rows: set<Uuid>)
    requires Inv(cfg, s) && IsRun(cfg, s, run) && StaysOff(cfg, s, run, id) && CutOffOnly(s, id, n, rows)
    ensures CutOffOnly(After(cfg, s, run), id, n, rows)
    decreases |run|
  {
    hide Inv, Enabled, Apply, Active, RowsAbout;
    if run != [] {
      StepWhileOff(cfg, s, run[0], id);
      StepKeeps(cfg, s, run[0]);
      InFlightWhileOff(cfg, Apply(cfg, s, run[0]), run[1..], id, n, rows);
    }
  }

  /** A transaction leaves a delivery whose channel is off on its way out, and writes no row about it. */
  ghost predicate Quiet(db: Db, db2: Db, id: Uuid) {
    id in db.deliveries ==>
      && id in db2.deliveries && db2.deliveries[id].attempts == db.deliveries[id].attempts
      && (InFlightOrOver(db.deliveries[id].status) ==> InFlightOrOver(db2.deliveries[id].status))
      && RowsAbout(db2.dispatch, id) == RowsAbout(db.dispatch, id)
  }

  predicate Idle(db: Db, id: Uuid) {
    id in db.deliveries ==> !Active(db.channels, db.deliveries[id])
  }

  lemma QuietCancel(db: Db, user: Uuid, channel: Uuid, db2: Db, id: Uuid)
    requires db2.deliveries == CancelWaiting(db.deliveries, user, channel) && db2.dispatch == db.dispatch
    ensures Quiet(db, db2, id)
  {
    hide RowsAbout;
  }

  lemma QuietAccept(s: Sys, event: Requested, ids: map<Uuid, Uuid>, id: Uuid)
    requires forall i :: i in ids ==> i !in s.db.deliveries
    ensures Quiet(s.db, Accepting(s, event, ids).db, id)
  {
    hide RowsAbout;
  }

  lemma QuietResume(db: Db, r: Retry, now: Time, id: Uuid)
    ensures Quiet(db, ResumeRetry(db, r, now), id)
  {
    hide RowsAbout, Active;
  }

  lemma QuietStored(cfg: Config, s: Sys, p: Part, offset: nat, ids: map<Uuid, Uuid>, id: Uuid)
    requires Inv(cfg, s) && Consumable(s, p, offset, ids)
    ensures Quiet(s.db, Stored(s, p, offset, ids).db, id)
  {
    Unclaimed(cfg, s);
    hide DbInv, RowInv, RetryLogOk, Contract.RouteRecord, Quiet, Stored, Assigns, Targets;
    if p.topic == RequestsTopic {
      StoredRequest(s, p, offset, ids);
      var v := VerdictAt(s, p, offset);
      if AcceptsNew(s, v) {
        QuietAccept(s, v.event, ids, id);
      } else {
        Undisturbed(s.db, s.db, id);
      }
    } else {
      StoredRetry(s, p, offset, ids);
      QuietResume(s.db, LogAt(s.log, p)[offset].value.retry, s.now, id);
    }
  }

  lemma Undisturbed(db: Db, db2: Db, id: Uuid)
    requires db2.deliveries == db.deliveries && RowsAbout(db2.dispatch, id) == RowsAbout(db.dispatch, id)
    ensures Quiet(db, db2, id)
  {
  }

  lemma QuietRelay(db: Db, row: Uuid, now: Time, o: Relay.Outcome, id: Uuid)
    requires row in db.dispatch
    ensures Quiet(db, db.(dispatch := Relay.Settle(db.dispatch, row, now, o)), id)
  {
    assert RowsAbout(Relay.Settle(db.dispatch, row, now, o), id) == RowsAbout(db.dispatch, id);
  }

  /** Only the claim, which needs an active channel, starts an attempt. */
  lemma QuietClaim(db: Db, claimed: Uuid, token: Uuid, lease: Time, id: Uuid)
    requires claimed in db.deliveries && Active(db.channels, db.deliveries[claimed]) && Idle(db, id)
    ensures Quiet(db, ClaimOne(db, claimed, token, lease), id)
  {
    hide RowsAbout;
  }

  lemma InsertedElsewhere(dispatch: Outbox, row: Uuid, r: OutboxRow, id: Uuid)
    requires row !in dispatch && r.origin.DispatchOf? && r.origin.delivery != id
    ensures RowsAbout(Insert(dispatch, row, r), id) == RowsAbout(dispatch, id)
  {
  }

  lemma QuietSent(db: Db, task: Task, now: Time, id: Uuid)
    ensures Quiet(db, MarkSent(db, task, now).0, id)
  {
    hide RowsAbout;
  }

  lemma QuietFailed(db: Db, task: Task, delay: int, code: string, row: Uuid, now: Time, id: Uuid)
    requires Idle(db, id) && row !in db.dispatch
    ensures Quiet(db, MarkFailed(db, task, delay, code, row, now).0, id)
  {
    hide RowsAbout, Insert, SafeCode, RetryTopic;
    if task.id != id {
      forall r: OutboxRow | r.origin.DispatchOf? && r.origin.delivery == task.id
        ensures RowsAbout(Insert(db.dispatch, row, r), id) == RowsAbout(db.dispatch, id)
      {
        InsertedElsewhere(db.dispatch, row, r, id);
      }
    }
  }

  lemma QuietRecovery(db: Db, recovered: Uuid, maxAttempts: int, row: Uuid, now: Time, id: Uuid)
    requires recovered in db.deliveries && Idle(db, id) && row !in db.dispatch
    ensures Quiet(db, RecoverOne(db, recovered, maxAttempts, row, now), id)
  {
    hide RowsAbout, Insert;
    if recovered != id {
      forall r: OutboxRow | r.origin.DispatchOf? && r.origin.delivery == recovered
        ensures RowsAbout(Insert(db.dispatch, row, r), id) == RowsAbout(db.dispatch, id)
      {
        InsertedElsewhere(db.dispatch, row, r, id);
      }
    }
  }

  lemma FreshRow(cfg: Config, s: Sys, row: Uuid)
    requires Inv(cfg, s) && Fresh(s, row)
    ensures row !in s.db.dispatch
  {
    hide RowInv, LogInv, LivesOk, AnchorsOk, PairsUnique, InboxOk, TasksOk;
  }

  lemma QuietChannels(cfg: Config, s: Sys, a: Action, id: Uuid)
    requires a.AddChannel? || a.SetEnabled? || a.DropChannel?
    requires Enabled(s, a)
    ensures Quiet(s.db, Apply(cfg, s, a).db, id)
  {
    hide Quiet, RowsAbout, CancelWaiting, ChannelClash;
    match a
    case SetEnabled(user, channel, enabled) =>
      if enabled || !Owns(s.db, user, channel) {
        Undisturbed(s.db, Apply(cfg, s, a).db, id);
      } else {
        QuietCancel(s.db, user, channel, Apply(cfg, s, a).db, id);
      }
    case DropChannel(user, channel) =>
      if Owns(s.db, user, channel) {
        QuietCancel(s.db, user, channel, Apply(cfg, s, a).db, id);
      } else {
        Undisturbed(s.db, s.db, id);
      }
    case AddChannel(_, _) => Undisturbed(s.db, Apply(cfg, s, a).db, id);
  }

  lemma QuietDelivery(s: Sys, task: Task, id: Uuid)
    ensures Quiet(s.db, DeliverStep(s, task).db, id)
  {
    QuietSent(s.db, task, s.now, id);
    hide Quiet, Store.MarkSent, Current;
  }

  lemma QuietFailure(cfg: Config, s: Sys, task: Task, delay: int, code: string, row: Uuid, id: Uuid)
    requires Inv(cfg, s) && Fresh(s, row) && Idle(s.db, id)
    ensures Quiet(s.db, FailStep(cfg, s, task, delay, code, row).db, id)
  {
    FreshRow(cfg, s, row);
    QuietFailed(s.db, task, delay, code, row, s.now, id);
    hide Inv, Quiet, Idle, Store.MarkFailed, Current, Active;
  }

  lemma QuietExpiry(cfg: Config, s: Sys, recovered: Uuid, row: Uuid, id: Uuid)
    requires Inv(cfg, s) && Fresh(s, row) && Idle(s.db, id) && recovered in s.db.deliveries
    ensures Quiet(s.db, RecoverStep(cfg, s, recovered, row).db, id)
  {
    FreshRow(cfg, s, row);
    QuietRecovery(s.db, recovered, cfg.recoveryLimit, row, s.now, id);
    hide Inv, Quiet, Idle, RecoverOne, Store.Verdict;
  }

  lemma QuietSettlement(cfg: Config, s: Sys, a: Action, id: Uuid)
    requires a.Deliver? || a.Fail? || a.Recover?
    requires Inv(cfg, s) && Enabled(s, a) && Idle(s.db, id)
    ensures Quiet(s.db, Apply(cfg, s, a).db, id)
  {
    hide Inv, Quiet, Idle, FailDelay, DeliverStep, FailStep, RecoverStep, Expired;
    match a
    case Deliver(task) => QuietDelivery(s, task, id);
    case Fail(task, failure, random, code, row) =>
      QuietFailure(cfg, s, task, FailDelay(cfg, task.attempts, failure, random), code, row, id);
    case Recover(recovered, row) => QuietExpiry(cfg, s, recovered, row, id);
  }

  lemma StepWhileOff(cfg: Config, s: Sys, a: Action, id: Uuid)
    requires Inv(cfg, s) && Enabled(s, a) && Idle(s.db, id)
    ensures Quiet(s.db, Apply(cfg, s, a).db, id)
  {
    if a.AddChannel? || a.SetEnabled? || a.DropChannel? {
      hide Inv, Quiet, Enabled, Apply;
      QuietChannels(cfg, s, a, id);
    } else if a.Deliver? || a.Fail? || a.Recover? {
      hide Inv, Quiet, Enabled, Apply;
      QuietSettlement(cfg, s, a, id);
    } else if a.Claim? {
      hide Inv, Quiet, Active, HandedOut, ClaimOne;
      QuietClaim(s.db, a.id, a.token, a.lease, id);
    } else {
      QuietRest(cfg, s, a, id);
    }
  }

  lemma QuietRest(cfg: Config, s: Sys, a: Action, id: Uuid)
    requires Inv(cfg, s) && Enabled(s, a)
    requires a.Tick? || a.Intend? || a.RelayRequest? || a.RelayDispatch? || a.Consume?
    ensures Quiet(s.db, Apply(cfg, s, a).db, id)
  {
    hide Inv, Quiet, RowsAbout, Contract.RouteRecord, Processed, Relay.Settle, Relay.RecordOf;
    match a
    case Consume(p, offset, ids, _, _, _, _) => QuietStored(cfg, s, p, offset, ids, id);
    case RelayDispatch(row, _, o) => QuietRelay(s.db, row, s.now, o, id);
    case _ => Undisturbed(s.db, s.db, id);
  }

  // ----- Orphans -----

  /** The same rows, tried as often. */
  ghost predicate SameTries(db: Db, db2: Db) {
    db2.deliveries.Keys == db.deliveries.Keys
    && forall id :: id in db.deliveries ==> db2.deliveries[id].attempts == db.deliveries[id].attempts
  }

  lemma ChannelTries(db: Db, user: Uuid, channel: Uuid, c: Channel, enabled: bool)
    ensures SameTries(db, Store.CreateChannel(db, channel, c).0)
    ensures SameTries(db, Store.SetChannelEnabled(db, user, channel, enabled).0)
    ensures SameTries(db, Store.DeleteChannel(db, user, channel).0)
  {
    hide ChannelClash;
  }

  lemma MarkTries(db: Db, task: Task, delay: int, code: string, row: Uuid, now: Time)
    ensures SameTries(db, MarkSent(db, task, now).0) && SameTries(db, MarkFailed(db, task, delay, code, row, now).0)
  {
    hide Insert, DispatchRow, Active, SafeCode, RetryTopic;
  }

  lemma RecoveryTries(db: Db, id: Uuid, maxAttempts: int, row: Uuid, now: Time)
    requires id in db.deliveries
    ensures SameTries(db, RecoverOne(db, id, maxAttempts, row, now))
  {
    hide Insert, DispatchRow, Active;
  }

  lemma ProcessedTries(db: Db, v: Contract.Verdict, payload: Payload, ids: map<Uuid, Uuid>, now: Time)
    requires v.Accept? && v.event.eventId !in db.inbox ==> ids.Keys !! db.deliveries.Keys
    ensures var after := Processed(db, v, payload, ids, now).0.deliveries;
            && (forall id :: id in db.deliveries ==> id in after && after[id].attempts == db.deliveries[id].attempts)
            && after.Keys <= db.deliveries.Keys + if v.Accept? && v.event.eventId !in db.inbox then ids.Keys else {}
  {
    hide Active;
  }

  /** Identifiers of deliveries are taken, and this one has been tried n times. */
  ghost predicate TriedOnly(s: Sys, id: Uuid, n: nat) {
    s.db.deliveries.Keys <= s.used && id in s.db.deliveries && s.db.deliveries[id].attempts == n
  }

  lemma OrphanConsume(cfg: Config, s: Sys, a: Action, id: Uuid, n: nat)
    requires a.Consume? && Enabled(s, a) && TriedOnly(s, id, n)
    ensures TriedOnly(Apply(cfg, s, a), id, n)
  {
    hide Processed, VerdictAt, InvalidRecord, Relay.AppendedIf, Assigns, Targets;
    ProcessedTries(s.db, VerdictAt(s, a.part, a.offset), LogAt(s.log, a.part)[a.offset].value, a.ids, s.now);
  }

  lemma OrphanSettlement(cfg: Config, s: Sys, a: Action, id: Uuid, n: nat)
    requires (a.Deliver? || a.Fail? || a.Recover?) && Enabled(s, a) && TriedOnly(s, id, n)
    ensures TriedOnly(Apply(cfg, s, a), id, n)
  {
    hide MarkSent, MarkFailed, RecoverOne, Active, Current, Store.Verdict, FailDelay;
    match a
    case Deliver(task) => MarkTries(s.db, task, 0, "", NIL, s.now);
    case Fail(task, failure, random, code, row) =>
      MarkTries(s.db, task, FailDelay(cfg, task.attempts, failure, random), code, row, s.now);
    case Recover(recovered, row) => RecoveryTries(s.db, recovered, cfg.recoveryLimit, row, s.now);
  }

  lemma OrphanStep(cfg: Config, s: Sys, a: Action, id: Uuid, n: nat)
    requires Enabled(s, a) && Off(s, id) && TriedOnly(s, id, n)
    ensures TriedOnly(Apply(cfg, s, a), id, n)
  {
    hide Active, HandedOut, Store.CreateChannel, Store.SetChannelEnabled, Store.DeleteChannel;
    hide Relay.Settle, Relay.RecordOf, Relay.AppendedIf;
    match a
    case AddChannel(channel, c) => ChannelTries(s.db, NIL, channel, c, true);
    case SetEnabled(user, channel, enabled) => ChannelTries(s.db, user, channel, Channel(NIL, Email, "", true, 0), enabled);
    case DropChannel(user, channel) => ChannelTries(s.db, user, channel, Channel(NIL, Email, "", true, 0), true);
    case Consume(_, _, _, _, _, _, _) => OrphanConsume(cfg, s, a, id, n);
    case Deliver(_) => OrphanSettlement(cfg, s, a, id, n);
    case Fail(_, _, _, _, _) => OrphanSettlement(cfg, s, a, id, n);
    case Recover(_, _) => OrphanSettlement(cfg, s, a, id, n);
    case _ =>
  }

  /** A delivery without a channel is never claimed, from any state at all: not even one that
      the invariant excludes, in which it waits although its channel is gone. */
  lemma {:induction false} OrphanIsNeverClaimed(cfg: Config, s: Sys, run: seq<Action>, id: Uuid, n: nat)
    requires IsRun(cfg, s, run) && StaysOff(cfg, s, run, id) && TriedOnly(s, id, n)
    ensures TriedOnly(After(cfg, s, run), id, n)
    decreases |run|
  {
    hide Enabled, Apply, Active, TriedOnly;
    if run != [] {
      OrphanStep(cfg, s, run[0], id, n);
      OrphanIsNeverClaimed(cfg, Apply(cfg, s, run[0]), run[1..], id, n);
    }
  }
}
