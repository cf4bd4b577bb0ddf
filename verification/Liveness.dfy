/** Nothing gets stuck: every unfinished delivery has a way on. */
module Liveness {
  import opened Types
  import opened Store
  import opened Machine
  import opened Invariant
  import opened Preservation
  import opened Steps
  import opened Jobs
  import Contract
  import Relay
  import Retries

  /** There is always another UUID. */
  lemma {:induction false} Unused(used: set<Uuid>) returns (u: Uuid)
    ensures forall x :: x in used ==> x < u
  {
    if used == {} {
      u := 0;
    } else {
      var x :| x in used;
      var v := Unused(used - {x});
      u := Max(v, x + 1);
      forall y | y in used ensures y < u {
        assert y == x || y in used - {x};
      }
    }
  }

  lemma PendingIsClaimed(cfg: Config, s: Sys, id: Uuid, types: set<ChannelType>) returns (run: seq<Action>)
    requires Inv(cfg, s) && id in s.db.deliveries && s.db.deliveries[id].status == Pending
    requires Active(s.db.channels, s.db.deliveries[id]) && s.db.channels[s.db.deliveries[id].channel].kind in types
    ensures forall a :: a in run ==> a.Tick? || (a.Claim? && a.types == types)
    ensures IsRun(cfg, s, run) && id in After(cfg, s, run).db.deliveries
    ensures After(cfg, s, run).db.deliveries[id].status == Processing
    ensures After(cfg, s, run).db.deliveries[id].attempts == s.db.deliveries[id].attempts + 1
  {
    hide Inv;
    var elapsed := Max(0, s.db.deliveries[id].availableAt - s.now);
    var token := Unused(s.used);
    var t := s.(now := s.now + elapsed);
    var claim := Claim(id, token, t.now, types);
    Retries.Ticks(cfg, s, elapsed);
    assert Enabled(t, claim);
    run := [Tick(elapsed)] + ([claim] + []);
    Retries.Prepend(cfg, t, claim, []);
    Retries.Prepend(cfg, s, Tick(elapsed), [claim] + []);
  }

  lemma ClaimIsRecovered(cfg: Config, s: Sys, id: Uuid) returns (run: seq<Action>)
    requires Inv(cfg, s) && id in s.db.deliveries && s.db.deliveries[id].status == Processing
    ensures forall a :: a in run ==> a.Tick? || a.Recover?
    ensures IsRun(cfg, s, run) && id in After(cfg, s, run).db.deliveries
    ensures Progress(s.db.deliveries[id]) < Progress(After(cfg, s, run).db.deliveries[id])
  {
    hide Inv, Apply, Enabled, IsRun, After, Progress;
    LeaseKnown(cfg, s, id);
    var elapsed := Max(0, s.db.deliveries[id].lease.value + 1 - s.now);
    var row := Unused(s.used);
    var t := s.(now := s.now + elapsed);
    var recover := Recover(id, row);
    CanRecover(t, id, row);
    Recovers(cfg, t, id, row);
    Retries.Ticks(cfg, s, elapsed);
    Retries.NoSteps(cfg, Apply(cfg, t, recover));
    Retries.Prepend(cfg, t, recover, []);
    Retries.Prepend(cfg, s, Tick(elapsed), [recover] + []);
    run := [Tick(elapsed)] + ([recover] + []);
  }

  lemma CanRecover(s: Sys, id: Uuid, row: Uuid)
    requires id in s.db.deliveries && Expired(s.db.deliveries[id], s.now) && Fresh(s, row)
    ensures Enabled(s, Recover(id, row))
  {
  }

  lemma LeaseKnown(cfg: Config, s: Sys, id: Uuid)
    requires Inv(cfg, s) && id in s.db.deliveries && s.db.deliveries[id].status == Processing
    ensures s.db.deliveries[id].lease.Some?
  {
    Running(cfg, s, id);
  }

  lemma Recovers(cfg: Config, s: Sys, id: Uuid, row: Uuid)
    requires id in s.db.deliveries && s.db.deliveries[id].status == Processing
    requires Enabled(s, Recover(id, row))
    ensures var after := Apply(cfg, s, Recover(id, row)).db.deliveries;
            id in after && Progress(s.db.deliveries[id]) < Progress(after[id])
  {
    hide Insert, DispatchRow, Active;
  }

  /** Nothing happens but time, publications, consumed records, recoveries, and claims by
      workers with these senders. */
  predicate ByServices(run: seq<Action>, types: set<ChannelType>) {
    forall a :: a in run ==>
      a.Tick? || a.RelayDispatch? || a.Consume? || a.Recover? || (a.Claim? && a.types == types)
  }

  /** From every reachable state, every unfinished delivery whose channel has a registered
      sender can be moved on, by time, the relay, the consumer and the workers alone.
      (That a waiting one has an enabled channel is part of the invariant.) */
  lemma NeverStuck(cfg: Config, s: Sys, id: Uuid, types: set<ChannelType>) returns (run: seq<Action>)
    requires Inv(cfg, s) && id in s.db.deliveries && !IsTerminal(s.db.deliveries[id])
    requires var c := s.db.deliveries[id].channel; c in s.db.channels ==> s.db.channels[c].kind in types
    ensures ByServices(run, types)
    ensures IsRun(cfg, s, run) && id in After(cfg, s, run).db.deliveries
    ensures Progress(s.db.deliveries[id]) < Progress(After(cfg, s, run).db.deliveries[id])
  {
    hide Inv, IsRun, After;
    match s.db.deliveries[id].status
    case Pending =>
      Running(cfg, s, id);
      run := PendingIsClaimed(cfg, s, id, types);
    case RetryWait =>
      var row;
      run, row := Retries.WaitingIsResumed(cfg, s, id);
    case Processing =>
      run := ClaimIsRecovered(cfg, s, id);
  }

  // ----- To the end -----

  lemma ChannelsStay(cfg: Config, s: Sys, a: Action)
    requires Enabled(s, a) && (a.Tick? || a.RelayDispatch? || a.Consume? || a.Recover? || a.Claim?)
    ensures Apply(cfg, s, a).db.channels == s.db.channels
  {
    hide Contract.RouteRecord, Relay.Settle, Relay.RecordOf, Relay.AppendedIf, InvalidRecord, HandedOut, AcceptsNew, Assigns;
    match a
    case Consume(p, offset, ids, _, _, _, _) => ProcessedLeavesChannels(s.db, VerdictAt(s, p, offset), LogAt(s.log, p)[offset].value, ids, s.now);
    case Recover(id, row) => RecoveryLeavesChannels(s.db, id, cfg.recoveryLimit, row, s.now);
    case _ =>
  }

  lemma ProcessedLeavesChannels(db: Db, v: Contract.Verdict, payload: Payload, ids: map<Uuid, Uuid>, now: Time)
    ensures Processed(db, v, payload, ids, now).0.channels == db.channels
  {
    hide Active;
  }

  lemma RecoveryLeavesChannels(db: Db, id: Uuid, maxAttempts: int, row: Uuid, now: Time)
    requires id in db.deliveries
    ensures RecoverOne(db, id, maxAttempts, row, now).channels == db.channels
  {
    hide Insert, DispatchRow, Active;
  }

  lemma {:induction false} ServicesLeaveChannels(cfg: Config, s: Sys, run: seq<Action>, types: set<ChannelType>)
    requires IsRun(cfg, s, run) && ByServices(run, types)
    ensures After(cfg, s, run).db.channels == s.db.channels
    decreases |run|
  {
    hide Enabled, Apply;
    if run != [] {
      assert run[0] in run && forall a :: a in run[1..] ==> a in run;
      ChannelsStay(cfg, s, run[0]);
      ServicesLeaveChannels(cfg, Apply(cfg, s, run[0]), run[1..], types);
    }
  }

  predicate HasSender(s: Sys, id: Uuid, types: set<ChannelType>)
    requires id in s.db.deliveries
  {
    var c := s.db.deliveries[id].channel; c in s.db.channels ==> s.db.channels[c].kind in types
  }

  /** From every reachable state, every delivery whose channel has a registered sender can be
      brought to its end: sent, failed or cancelled. */
  lemma {:induction false} CanFinish(cfg: Config, s: Sys, id: Uuid, types: set<ChannelType>) returns (run: seq<Action>)
    requires Inv(cfg, s) && id in s.db.deliveries && HasSender(s, id, types)
    ensures ByServices(run, types) && IsRun(cfg, s, run)
    ensures id in After(cfg, s, run).db.deliveries && IsTerminal(After(cfg, s, run).db.deliveries[id])
    decreases 4 * cfg.Limit() + 3 - Progress(s.db.deliveries[id])
  {
    hide Inv, IsRun, After;
    AttemptsLimited(cfg, s, id);
    if IsTerminal(s.db.deliveries[id]) {
      run := [];
      Retries.NoSteps(cfg, s);
    } else {
      var first := NeverStuck(cfg, s, id, types);
      var t := After(cfg, s, first);
      RunKeeps(cfg, s, first);
      RunMoves(cfg, s, first, id);
      ServicesLeaveChannels(cfg, s, first, types);
      AttemptsLimited(cfg, t, id);
      var rest := CanFinish(cfg, t, id, types);
      RunJoin(cfg, s, first, rest);
      run := first + rest;
    }
  }

  // ----- Without a sender -----

  /** No claim is made for channels of this kind. */
  predicate NobodySends(run: seq<Action>, kind: ChannelType) {
    forall a :: a in run && a.Claim? ==> kind !in a.types
  }

  /** Not attempted again since attempt n: still pending on a channel of the kind, or cancelled. */
  predicate Parked(db: Db, id: Uuid, n: nat, kind: ChannelType) {
    && id in db.deliveries && db.deliveries[id].attempts == n
    && var d := db.deliveries[id];
       d.status == Cancelled || (d.status == Pending && d.channel in db.channels && db.channels[d.channel].kind == kind)
  }

  /** The sender is needed: while no worker has one for the channel's kind, a pending delivery
      is not attempted, and stays pending unless it is cancelled with its channel. */
  lemma {:induction false} NoSenderNoAttempt(cfg: Config, s: Sys, run: seq<Action>, id: Uuid, n: nat, kind: ChannelType)
    requires Inv(cfg, s) && IsRun(cfg, s, run) && NobodySends(run, kind) && Parked(s.db, id, n, kind)
    ensures Parked(After(cfg, s, run).db, id, n, kind)
    decreases |run|
  {
    hide Inv, Enabled, Apply, Parked;
    if run != [] {
      assert run[0] in run && forall a :: a in run[1..] ==> a in run;
      ParkedStep(cfg, s, run[0], id, n, kind);
      StepKeeps(cfg, s, run[0]);
      NoSenderNoAttempt(cfg, Apply(cfg, s, run[0]), run[1..], id, n, kind);
    }
  }

  lemma ParkedSame(db: Db, db2: Db, id: Uuid, n: nat, kind: ChannelType)
    requires Parked(db, id, n, kind) && id in db2.deliveries && db2.deliveries[id] == db.deliveries[id]
    requires db2.channels == db.channels
    ensures Parked(db2, id, n, kind)
  {
  }

  lemma ParkedCreate(db: Db, channel: Uuid, c: Channel, id: Uuid, n: nat, kind: ChannelType)
    requires Parked(db, id, n, kind)
    ensures Parked(Store.CreateChannel(db, channel, c).0, id, n, kind)
  {
  }

  lemma ParkedSwitch(db: Db, user: Uuid, channel: Uuid, enabled: bool, id: Uuid, n: nat, kind: ChannelType)
    requires Parked(db, id, n, kind)
    ensures Parked(Store.SetChannelEnabled(db, user, channel, enabled).0, id, n, kind)
  {
  }

  /** Deleting the channel cancels what is parked on it. */
  lemma ParkedDelete(db: Db, user: Uuid, channel: Uuid, id: Uuid, n: nat, kind: ChannelType)
    requires Parked(db, id, n, kind) && (Waiting(db.deliveries[id]) ==> Active(db.channels, db.deliveries[id]))
    ensures Parked(Store.DeleteChannel(db, user, channel).0, id, n, kind)
  {
  }

  lemma ParkedChannels(cfg: Config, s: Sys, a: Action, id: Uuid, n: nat, kind: ChannelType)
    requires Inv(cfg, s) && Enabled(s, a) && Parked(s.db, id, n, kind)
    requires a.AddChannel? || a.SetEnabled? || a.DropChannel?
    ensures Parked(Apply(cfg, s, a).db, id, n, kind)
  {
    Running(cfg, s, id);
    hide Inv, LifeOk, Parked, Active, Store.CreateChannel, Store.SetChannelEnabled, Store.DeleteChannel;
    match a
    case AddChannel(channel, c) => ParkedCreate(s.db, channel, c, id, n, kind);
    case SetEnabled(user, channel, enabled) => ParkedSwitch(s.db, user, channel, enabled, id, n, kind);
    case DropChannel(user, channel) => ParkedDelete(s.db, user, channel, id, n, kind);
  }

  lemma ParkedAccept(s: Sys, event: Requested, ids: map<Uuid, Uuid>, id: Uuid, n: nat, kind: ChannelType)
    requires Parked(s.db, id, n, kind) && forall i :: i in ids ==> i !in s.db.deliveries
    ensures Parked(Accepting(s, event, ids).db, id, n, kind)
  {
  }

  lemma ParkedResume(db: Db, r: Retry, now: Time, id: Uuid, n: nat, kind: ChannelType)
    requires Parked(db, id, n, kind)
    ensures Parked(ResumeRetry(db, r, now), id, n, kind)
  {
    hide Active;
  }

  lemma ParkedStored(cfg: Config, s: Sys, p: Part, offset: nat, ids: map<Uuid, Uuid>, id: Uuid, n: nat, kind: ChannelType)
    requires Inv(cfg, s) && Consumable(s, p, offset, ids) && Parked(s.db, id, n, kind)
    ensures Parked(Stored(s, p, offset, ids).db, id, n, kind)
  {
    Unclaimed(cfg, s);
    hide DbInv, RowInv, RetryLogOk, Contract.RouteRecord, Stored, Assigns, Targets, Parked;
    if p.topic == RequestsTopic {
      StoredRequest(s, p, offset, ids);
      var v := VerdictAt(s, p, offset);
      if AcceptsNew(s, v) {
        ParkedAccept(s, v.event, ids, id, n, kind);
      }
    } else {
      StoredRetry(s, p, offset, ids);
      ParkedResume(s.db, LogAt(s.log, p)[offset].value.retry, s.now, id, n, kind);
    }
  }

  /** Only a claimed row is settled or recovered. */
  lemma ParkedMarks(db: Db, task: Task, delay: int, code: string, row: Uuid, now: Time, id: Uuid, n: nat, kind: ChannelType)
    requires Parked(db, id, n, kind)
    ensures Parked(MarkSent(db, task, now).0, id, n, kind)
    ensures Parked(MarkFailed(db, task, delay, code, row, now).0, id, n, kind)
  {
    hide Insert, DispatchRow, Active, SafeCode, RetryTopic;
  }

  lemma ParkedRecovery(db: Db, recovered: Uuid, maxAttempts: int, row: Uuid, now: Time, id: Uuid, n: nat, kind: ChannelType)
    requires Parked(db, id, n, kind) && recovered in db.deliveries && db.deliveries[recovered].status == Processing
    ensures Parked(RecoverOne(db, recovered, maxAttempts, row, now), id, n, kind)
  {
    hide Insert, DispatchRow, Active;
  }

  lemma ParkedSettlement(cfg: Config, s: Sys, a: Action, id: Uuid, n: nat, kind: ChannelType)
    requires Enabled(s, a) && Parked(s.db, id, n, kind) && (a.Deliver? || a.Fail? || a.Recover?)
    ensures Parked(Apply(cfg, s, a).db, id, n, kind)
  {
    hide Parked, MarkSent, MarkFailed, RecoverOne, FailDelay, Active, Current, Store.Verdict;
    match a
    case Deliver(task) => ParkedMarks(s.db, task, 0, "", NIL, s.now, id, n, kind);
    case Fail(task, failure, random, code, row) =>
      ParkedMarks(s.db, task, FailDelay(cfg, task.attempts, failure, random), code, row, s.now, id, n, kind);
    case Recover(recovered, row) => ParkedRecovery(s.db, recovered, cfg.recoveryLimit, row, s.now, id, n, kind);
  }

  lemma ParkedStep(cfg: Config, s: Sys, a: Action, id: Uuid, n: nat, kind: ChannelType)
    requires Inv(cfg, s) && Enabled(s, a) && Parked(s.db, id, n, kind) && (a.Claim? ==> kind !in a.types)
    ensures Parked(Apply(cfg, s, a).db, id, n, kind)
  {
    hide Inv, Contract.RouteRecord, Processed, Relay.Settle, Relay.RecordOf;
    if a.AddChannel? || a.SetEnabled? || a.DropChannel? {
      ParkedChannels(cfg, s, a, id, n, kind);
    } else if a.Deliver? || a.Fail? || a.Recover? {
      ParkedSettlement(cfg, s, a, id, n, kind);
    } else if a.Consume? {
      ParkedStored(cfg, s, a.part, a.offset, a.ids, id, n, kind);
    } else {
      ParkedSame(s.db, Apply(cfg, s, a).db, id, n, kind);
    }
  }
}
