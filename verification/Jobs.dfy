/** What one delivery goes through, whatever the rest of the system does. */
module Jobs {
  import opened Types
  import opened Store
  import opened Machine
  import opened Invariant
  import opened Preservation
  import opened Steps
  import Contract
  import Relay

  /** The simple job a delivery implements: it waits until a time, runs, and is done. */
  datatype Job = Absent | Waits(ran: nat, notBefore: Time) | Runs(attempt: nat) | Ended(status: Status)

  function JobFrom(d: Delivery, t: Trail): Job {
    match d.status
    case Pending => Waits(d.attempts, t.due)
    case RetryWait => Waits(d.attempts, t.due)
    case Processing => Runs(d.attempts)
    case _ => Ended(d.status)
  }

  function JobOf(s: Sys, id: Uuid): Job {
    if id in s.db.deliveries && id in s.trail then JobFrom(s.db.deliveries[id], s.trail[id]) else Absent
  }

  /** Who moves a job. */
  datatype Mover = ByRequest | ByClaim | BySending | ByFailure(delay: int) | ByRecovery | ByChannel | ByNobody

  function MoverOf(cfg: Config, a: Action): Mover {
    match a
    case Consume(_, _, _, _, _, _, _) => ByRequest
    case Claim(_, _, _, _) => ByClaim
    case Deliver(_) => BySending
    case Fail(task, failure, random, _, _) => ByFailure(FailDelay(cfg, task.attempts, failure, random))
    case Recover(_, _) => ByRecovery
    case SetEnabled(_, _, _) => ByChannel
    case DropChannel(_, _) => ByChannel
    case _ => ByNobody
  }

  /** The moves of the job at time now, each with who makes it. */
  ghost predicate JobNext(cfg: Config, j: Job, m: Mover, k: Job, now: Time) {
    match j
    case Absent => m == ByRequest && k == Waits(0, now)
    case Waits(ran, notBefore) =>
      || (m == ByClaim && k == Runs(ran + 1) && notBefore <= now)
      || (m == ByChannel && k == Ended(Cancelled))
    case Runs(n) =>
      || (m == BySending && k == Ended(Sent))
      || (m.ByFailure? && m.delay > 0 && n < cfg.policy.maxAttempts && k == Waits(n, now + m.delay))
      || (m.ByFailure? && m.delay <= 0 && k == Ended(Failed))
      || (m == ByRecovery && n < cfg.recoveryLimit && k == Waits(n, now))
      || (m == ByRecovery && n >= cfg.recoveryLimit && k == Ended(Failed))
      || ((m.ByFailure? || m == ByRecovery) && k == Ended(Cancelled))
    case Ended(_) => false
  }

  ghost predicate Refines(cfg: Config, s: Sys, m: Mover, t: Sys, id: Uuid) {
    JobOf(t, id) == JobOf(s, id) || JobNext(cfg, JobOf(s, id), m, JobOf(t, id), s.now)
  }

  // ----- Each step is a move of the job, or leaves it alone -----

  /** Steps that never move a job. */
  predicate Stutters(a: Action) {
    a.Tick? || a.AddChannel? || a.Intend? || a.RelayRequest? || a.RelayDispatch?
  }

  lemma OneMoves(cfg: Config, s: Sys, m: Mover, t: Sys, x: Uuid, d2: Delivery, t2: Trail, id: Uuid)
    requires x in s.db.deliveries && x in s.trail
    requires t.db.deliveries == s.db.deliveries[x := d2] && t.trail == s.trail[x := t2]
    requires var j, k := JobFrom(s.db.deliveries[x], s.trail[x]), JobFrom(d2, t2); k == j || JobNext(cfg, j, m, k, s.now)
    ensures Refines(cfg, s, m, t, id)
  {
    hide JobNext, JobFrom;
  }

  lemma AcceptRefines(cfg: Config, s: Sys, event: Requested, ids: map<Uuid, Uuid>, id: Uuid)
    requires event.eventId !in s.db.inbox && s.trail.Keys == s.db.deliveries.Keys
    requires forall i :: i in ids ==> i !in s.db.deliveries
    ensures Refines(cfg, s, ByRequest, Accepting(s, event, ids), id)
    ensures id in s.db.deliveries ==> JobOf(Accepting(s, event, ids), id) == JobOf(s, id)
  {
    var after := Accepting(s, event, ids);
    assert id in ids ==> after.db.deliveries[id] == NewDelivery(event.eventId, event.userId, ids[id], s.now);
  }

  lemma ResumeRefines(s: Sys, r: Retry, id: Uuid)
    ensures JobOf(s.(db := ResumeRetry(s.db, r, s.now)), id) == JobOf(s, id)
  {
  }

  lemma SameJob(cfg: Config, s: Sys, m: Mover, t: Sys, id: Uuid)
    requires JobOf(t, id) == JobOf(s, id)
    ensures Refines(cfg, s, m, t, id)
  {
  }

  lemma Unclaimed(cfg: Config, s: Sys)
    requires Inv(cfg, s)
    ensures s.trail.Keys == s.db.deliveries.Keys && forall i :: Fresh(s, i) ==> i !in s.db.deliveries
  {
    hide RowInv, LogInv, LifeOk, AnchorsOk, PairsUnique, InboxOk, TasksOk;
  }

  lemma StoredRefines(cfg: Config, s: Sys, p: Part, offset: nat, ids: map<Uuid, Uuid>, id: Uuid)
    requires Inv(cfg, s) && Consumable(s, p, offset, ids)
    ensures Refines(cfg, s, ByRequest, Stored(s, p, offset, ids), id)
    ensures id in s.db.deliveries ==> JobOf(Stored(s, p, offset, ids), id) == JobOf(s, id)
  {
    Unclaimed(cfg, s);
    hide DbInv, RowInv, RetryLogOk, Contract.RouteRecord, Refines, JobOf, Stored;
    if p.topic == RequestsTopic {
      StoredRequest(s, p, offset, ids);
      var v := VerdictAt(s, p, offset);
      if AcceptsNew(s, v) {
        AcceptRefines(cfg, s, v.event, ids, id);
      } else {
        SameJob(cfg, s, ByRequest, s, id);
      }
    } else {
      StoredRetry(s, p, offset, ids);
      ResumeRefines(s, LogAt(s.log, p)[offset].value.retry, id);
      SameJob(cfg, s, ByRequest, Stored(s, p, offset, ids), id);
    }
  }

  lemma ConsumeRefines(cfg: Config, s: Sys, p: Part, offset: nat, ids: map<Uuid, Uuid>, digest: Uuid, index: nat,
                       o: Relay.Outcome, commit: bool, id: Uuid)
    requires Inv(cfg, s) && Consumable(s, p, offset, ids)
    ensures var after := ConsumeStep(s, p, offset, ids, digest, index, o, commit);
            Refines(cfg, s, ByRequest, after, id) && (id in s.db.deliveries ==> JobOf(after, id) == JobOf(s, id))
  {
    StoredRefines(cfg, s, p, offset, ids, id);
    hide Inv, Consumable, Contract.RouteRecord, Processed, AcceptsNew, JobNext, JobFrom;
  }

  lemma CancelRefines(cfg: Config, s: Sys, user: Uuid, channel: Uuid, db2: Db, id: Uuid)
    requires db2.deliveries == CancelWaiting(s.db.deliveries, user, channel)
    ensures Refines(cfg, s, ByChannel, s.(db := db2), id)
  {
  }

  lemma ClaimRefines(cfg: Config, s: Sys, id: Uuid, token: Uuid, lease: Time, types: set<ChannelType>, x: Uuid)
    requires Inv(cfg, s) && Enabled(s, Claim(id, token, lease, types))
    ensures Refines(cfg, s, ByClaim, Claiming(s, id, token, lease), x)
  {
    Running(cfg, s, id);
    hide Inv, HandedOut, Refines;
    OneMoves(cfg, s, ByClaim, s.(db := ClaimOne(s.db, id, token, lease)), id, Claimed(s.db.deliveries[id], token, lease), s.trail[id], x);
    ByTables(cfg, s, ByClaim, s.(db := ClaimOne(s.db, id, token, lease)), Claiming(s, id, token, lease), x);
  }

  /** A job depends on the deliveries and trails only. */
  lemma ByTables(cfg: Config, s: Sys, m: Mover, t: Sys, u: Sys, id: Uuid)
    requires Refines(cfg, s, m, t, id) && u.db.deliveries == t.db.deliveries && u.trail == t.trail
    ensures Refines(cfg, s, m, u, id)
  {
    hide JobNext;
  }

  lemma DeliverRefines(cfg: Config, s: Sys, task: Task, x: Uuid)
    requires Inv(cfg, s) && task in s.tasks
    ensures Refines(cfg, s, BySending, DeliverStep(s, task), x)
  {
    if Current(s.db, task) {
      RunningTask(cfg, s, task);
      hide Inv, Refines, LifeOk;
      OneMoves(cfg, s, BySending, DeliverStep(s, task), task.id, DeliverStep(s, task).db.deliveries[task.id],
               EndedWith(s.trail[task.id], Delivered), x);
    } else {
      hide Inv;
      SameJob(cfg, s, BySending, DeliverStep(s, task), x);
    }
  }

  lemma FailMoves(cfg: Config, s: Sys, task: Task, delay: int, code: string, row: Uuid)
    requires Current(s.db, task) && task.id in s.trail && task.attempts == s.db.deliveries[task.id].attempts
    requires delay > 0 ==> task.attempts < cfg.policy.maxAttempts
    ensures var after := FailStep(cfg, s, task, delay, code, row);
            && task.id in after.db.deliveries && task.id in after.trail
            && after.db.deliveries == s.db.deliveries[task.id := after.db.deliveries[task.id]]
            && after.trail == s.trail[task.id := after.trail[task.id]]
            && JobNext(cfg, JobFrom(s.db.deliveries[task.id], s.trail[task.id]), ByFailure(delay),
                       JobFrom(after.db.deliveries[task.id], after.trail[task.id]), s.now)
  {
    hide Insert, DispatchRow, SafeCode, RetryTopic;
  }

  lemma RecoverMoves(cfg: Config, s: Sys, id: Uuid, row: Uuid)
    requires id in s.db.deliveries && id in s.trail && s.db.deliveries[id].status == Processing
    ensures var after := RecoverStep(cfg, s, id, row);
            && id in after.db.deliveries && id in after.trail
            && after.db.deliveries == s.db.deliveries[id := after.db.deliveries[id]]
            && after.trail == s.trail[id := after.trail[id]]
            && JobNext(cfg, JobFrom(s.db.deliveries[id], s.trail[id]), ByRecovery, JobFrom(after.db.deliveries[id], after.trail[id]), s.now)
  {
    hide Insert, DispatchRow;
  }

  lemma FailRefines(cfg: Config, s: Sys, task: Task, delay: int, code: string, row: Uuid, x: Uuid)
    requires Inv(cfg, s) && task in s.tasks
    requires delay > 0 ==> task.attempts < cfg.policy.maxAttempts
    ensures Refines(cfg, s, ByFailure(delay), FailStep(cfg, s, task, delay, code, row), x)
  {
    var after := FailStep(cfg, s, task, delay, code, row);
    if Current(s.db, task) {
      RunningTask(cfg, s, task);
      hide Inv, Refines, LifeOk, JobNext, JobFrom;
      FailMoves(cfg, s, task, delay, code, row);
      hide FailStep;
      OneMoves(cfg, s, ByFailure(delay), after, task.id, after.db.deliveries[task.id], after.trail[task.id], x);
    } else {
      hide Inv, Insert, DispatchRow;
      SameJob(cfg, s, ByFailure(delay), after, x);
    }
  }

  lemma RecoverRefines(cfg: Config, s: Sys, id: Uuid, row: Uuid, x: Uuid)
    requires Inv(cfg, s) && id in s.db.deliveries && Expired(s.db.deliveries[id], s.now)
    ensures Refines(cfg, s, ByRecovery, RecoverStep(cfg, s, id, row), x)
  {
    Running(cfg, s, id);
    hide Inv, Refines, LifeOk, JobNext, JobFrom;
    RecoverMoves(cfg, s, id, row);
    hide RecoverStep;
    var after := RecoverStep(cfg, s, id, row);
    OneMoves(cfg, s, ByRecovery, after, id, after.db.deliveries[id], after.trail[id], x);
  }

  /** Refinement, step by step: whatever step is taken, each delivery's job makes one of
      its moves or stays; relaying, time and duplicate or replayed records never move it. */
  lemma StepRefines(cfg: Config, s: Sys, a: Action, id: Uuid)
    requires Inv(cfg, s) && Enabled(s, a)
    ensures Refines(cfg, s, MoverOf(cfg, a), Apply(cfg, s, a), id)
    ensures Stutters(a) || (a.Consume? && id in s.db.deliveries) ==> JobOf(Apply(cfg, s, a), id) == JobOf(s, id)
  {
    hide Inv, Refines, JobOf, JobNext;
    match a
    case Tick(elapsed) => Untouched(cfg, s, MoverOf(cfg, a), Apply(cfg, s, a), id);
    case AddChannel(_, _) => Untouched(cfg, s, MoverOf(cfg, a), Apply(cfg, s, a), id);
    case SetEnabled(user, channel, enabled) =>
      if enabled || !Owns(s.db, user, channel) {
        Untouched(cfg, s, MoverOf(cfg, a), Apply(cfg, s, a), id);
      } else {
        CancelRefines(cfg, s, user, channel, Apply(cfg, s, a).db, id);
      }
    case DropChannel(user, channel) =>
      if Owns(s.db, user, channel) {
        CancelRefines(cfg, s, user, channel, Apply(cfg, s, a).db, id);
      } else {
        Untouched(cfg, s, MoverOf(cfg, a), Apply(cfg, s, a), id);
      }
    case Intend(_, _, _) => Untouched(cfg, s, MoverOf(cfg, a), Apply(cfg, s, a), id);
    case RelayRequest(_, _, _) => Untouched(cfg, s, MoverOf(cfg, a), Apply(cfg, s, a), id);
    case RelayDispatch(_, _, _) => Untouched(cfg, s, MoverOf(cfg, a), Apply(cfg, s, a), id);
    case Consume(p, offset, ids, digest, index, o, commit) => ConsumeRefines(cfg, s, p, offset, ids, digest, index, o, commit, id);
    case Claim(x, token, lease, types) => ClaimRefines(cfg, s, x, token, lease, types, id);
    case Deliver(task) => DeliverRefines(cfg, s, task, id);
    case Fail(task, failure, random, code, row) =>
      FailRefines(cfg, s, task, FailDelay(cfg, task.attempts, failure, random), code, row, id);
    case Recover(x, row) => RecoverRefines(cfg, s, x, row, id);
  }

  lemma Untouched(cfg: Config, s: Sys, m: Mover, t: Sys, id: Uuid)
    requires t.db.deliveries == s.db.deliveries && t.trail == s.trail
    ensures JobOf(t, id) == JobOf(s, id) && Refines(cfg, s, m, t, id)
  {
  }

  ghost predicate RefinesAt(cfg: Config, s: Sys, run: seq<Action>, i: nat, id: Uuid) {
    && i < |run| && IsRun(cfg, s, run[..i]) && IsRun(cfg, s, run[..i + 1])
    && Refines(cfg, After(cfg, s, run[..i]), MoverOf(cfg, run[i]), After(cfg, s, run[..i + 1]), id)
  }

  /** Refinement over whole runs: the states of a run, seen through one delivery, are a
      run of the job. */
  lemma RunRefines(cfg: Config, s: Sys, run: seq<Action>, id: Uuid)
    requires Inv(cfg, s) && IsRun(cfg, s, run)
    ensures forall i: nat :: i < |run| ==> RefinesAt(cfg, s, run, i, id)
  {
    hide Inv, Refines, Enabled, Apply, IsRun, After;
    forall i: nat | i < |run| ensures RefinesAt(cfg, s, run, i, id) {
      StepOfRun(cfg, s, run, i);
      RunKeeps(cfg, s, run[..i]);
      StepRefines(cfg, After(cfg, s, run[..i]), run[i], id);
    }
  }

  // ----- Progress -----

  predicate IsTerminal(d: Delivery) {
    d.status == Sent || d.status == Failed || d.status == Cancelled
  }

  function Rank(status: Status): nat {
    match status
    case Processing => 0
    case RetryWait => 1
    case Pending => 2
    case _ => 3
  }

  /** Grows with every change of status: attempts first, then the place within the attempt. */
  function Progress(d: Delivery): nat {
    4 * d.attempts + Rank(d.status)
  }

  /** A delivery before and after a step. */
  ghost predicate Moved(d: Delivery, d2: Delivery, used: set<Uuid>) {
    && d2.event == d.event && d2.user == d.user && d2.channel == d.channel
    && ((d2.status == d.status && d2.attempts == d.attempts) || Progress(d) < Progress(d2))
    && (IsTerminal(d) ==> d2 == d)
    && (d2.token.Some? ==> d2.token == d.token || d2.token.value !in used)
  }

  ghost predicate AllMoved(deliveries: Deliveries, deliveries2: Deliveries, used: set<Uuid>) {
    forall id :: id in deliveries ==> id in deliveries2 && Moved(deliveries[id], deliveries2[id], used)
  }

  lemma CancelMoves(deliveries: Deliveries, user: Uuid, channel: Uuid, used: set<Uuid>)
    ensures AllMoved(deliveries, CancelWaiting(deliveries, user, channel), used)
  {
  }

  lemma AcceptMoves(db: Db, event: Requested, payload: Payload, ids: map<Uuid, Uuid>, now: Time, used: set<Uuid>)
    requires forall i :: i in ids ==> i !in db.deliveries
    ensures AllMoved(db.deliveries, AcceptRequest(db, event, payload, ids, now).0.deliveries, used)
  {
  }

  lemma ResumptionMoves(db: Db, retry: Retry, now: Time, used: set<Uuid>)
    ensures AllMoved(db.deliveries, ResumeRetry(db, retry, now).deliveries, used)
  {
  }

  lemma SentMoves(db: Db, task: Task, now: Time, used: set<Uuid>)
    ensures AllMoved(db.deliveries, MarkSent(db, task, now).0.deliveries, used)
  {
  }

  lemma StopMoves(db: Db, task: Task, delay: int, code: string, row: Uuid, now: Time, used: set<Uuid>)
    ensures AllMoved(db.deliveries, MarkFailed(db, task, delay, code, row, now).0.deliveries, used)
  {
    hide Insert, DispatchRow, SafeCode, RetryTopic, Active;
  }

  lemma RecoveryMoves(db: Db, id: Uuid, maxAttempts: int, row: Uuid, now: Time, used: set<Uuid>)
    requires id in db.deliveries && db.deliveries[id].status == Processing
    ensures AllMoved(db.deliveries, RecoverOne(db, id, maxAttempts, row, now).deliveries, used)
  {
    hide Insert, DispatchRow, Active;
  }

  lemma ClaimMoves(db: Db, id: Uuid, token: Uuid, lease: Time, used: set<Uuid>)
    requires id in db.deliveries && db.deliveries[id].status == Pending && token !in used
    ensures AllMoved(db.deliveries, ClaimOne(db, id, token, lease).deliveries, used)
  {
  }

  lemma StoredMoves(cfg: Config, s: Sys, p: Part, offset: nat, ids: map<Uuid, Uuid>)
    requires Inv(cfg, s) && Consumable(s, p, offset, ids)
    ensures AllMoved(s.db.deliveries, Stored(s, p, offset, ids).db.deliveries, s.used)
  {
    assert forall i :: Fresh(s, i) ==> i !in s.db.deliveries;
    hide DbInv, RowInv, RetryLogOk, Contract.RouteRecord, AllMoved, Stored;
    if p.topic == RequestsTopic {
      StoredRequest(s, p, offset, ids);
      var v := VerdictAt(s, p, offset);
      if AcceptsNew(s, v) {
        AcceptMoves(s.db, v.event, RequestedJson(v.event), ids, s.now, s.used);
      } else {
        NothingMoves(s.db.deliveries, s.used);
      }
    } else {
      StoredRetry(s, p, offset, ids);
      ResumptionMoves(s.db, LogAt(s.log, p)[offset].value.retry, s.now, s.used);
    }
  }

  lemma NothingMoves(deliveries: Deliveries, used: set<Uuid>)
    ensures AllMoved(deliveries, deliveries, used)
  {
  }

  /** Every step moves every delivery forward or not at all, leaves finished ones as they
      are, and puts no token back into use. */
  lemma StepMoves(cfg: Config, s: Sys, a: Action)
    requires Inv(cfg, s) && Enabled(s, a)
    ensures AllMoved(s.db.deliveries, Apply(cfg, s, a).db.deliveries, s.used)
    ensures s.used <= Apply(cfg, s, a).used && s.tasks <= Apply(cfg, s, a).tasks && s.now <= Apply(cfg, s, a).now
  {
    NothingMoves(s.db.deliveries, s.used);
    hide Inv, AllMoved, Contract.RouteRecord, Processed, Relay.Settle, Relay.RecordOf, HandedOut, Active, Current, FailDelay;
    hide MarkSent, MarkFailed, RecoverOne, ClaimOne, CancelWaiting, ChannelClash, Store.Verdict;
    match a
    case SetEnabled(user, channel, _) => CancelMoves(s.db.deliveries, user, channel, s.used);
    case DropChannel(user, channel) => CancelMoves(s.db.deliveries, user, channel, s.used);
    case Consume(p, offset, ids, _, _, _, _) => StoredMoves(cfg, s, p, offset, ids);
    case Claim(id, token, lease, _) => ClaimMoves(s.db, id, token, lease, s.used);
    case Deliver(task) => SentMoves(s.db, task, s.now, s.used);
    case Fail(task, failure, random, code, row) =>
      StopMoves(s.db, task, FailDelay(cfg, task.attempts, failure, random), code, row, s.now, s.used);
    case Recover(id, row) => RecoveryMoves(s.db, id, cfg.recoveryLimit, row, s.now, s.used);
    case _ =>
  }

  // ----- Over runs -----

  /** A delivery before and after a run. */
  ghost predicate Later(d: Delivery, d2: Delivery) {
    && d2.event == d.event && d2.user == d.user && d2.channel == d.channel
    && ((d2.status == d.status && d2.attempts == d.attempts) || Progress(d) < Progress(d2))
    && (IsTerminal(d) ==> d2 == d)
  }

  lemma LaterTransitive(d: Delivery, d2: Delivery, d3: Delivery)
    requires Later(d, d2) && Later(d2, d3)
    ensures Later(d, d3)
  {
  }

  /** Over any run: deliveries are never removed or repointed, progress never goes back,
      and sent, failed and cancelled rows never change again. */
  lemma {:induction false} RunMoves(cfg: Config, s: Sys, run: seq<Action>, id: Uuid)
    requires Inv(cfg, s) && IsRun(cfg, s, run) && id in s.db.deliveries
    ensures id in After(cfg, s, run).db.deliveries
    ensures Later(s.db.deliveries[id], After(cfg, s, run).db.deliveries[id])
    decreases |run|
  {
    if run != [] {
      var t := Apply(cfg, s, run[0]);
      StepMoves(cfg, s, run[0]);
      StepKeeps(cfg, s, run[0]);
      hide Inv, Enabled, Apply;
      RunMoves(cfg, t, run[1..], id);
      LaterTransitive(s.db.deliveries[id], t.db.deliveries[id], After(cfg, s, run).db.deliveries[id]);
    }
  }

  /** How often a delivery's status or attempt count changes in a run. */
  ghost function Changes(cfg: Config, s: Sys, run: seq<Action>, id: Uuid): nat
    requires IsRun(cfg, s, run)
    decreases |run|
  {
    if run == [] then 0
    else
      var t := Apply(cfg, s, run[0]);
      var changed := id in s.db.deliveries && id in t.db.deliveries
                     && Progress(t.db.deliveries[id]) != Progress(s.db.deliveries[id]);
      (if changed then 1 else 0) + Changes(cfg, t, run[1..], id)
  }

  lemma AttemptsLimited(cfg: Config, s: Sys, id: Uuid)
    requires Inv(cfg, s) && id in s.db.deliveries
    ensures s.db.deliveries[id].attempts <= cfg.Limit()
  {
    Running(cfg, s, id);
  }

  /** Runs terminate for each delivery: attempts never exceed the limit, and no run, however
      long, changes a delivery more often than the limit allows. */
  lemma {:induction false} ChangesBounded(cfg: Config, s: Sys, run: seq<Action>, id: Uuid)
    requires Inv(cfg, s) && IsRun(cfg, s, run) && id in s.db.deliveries
    ensures id in After(cfg, s, run).db.deliveries && After(cfg, s, run).db.deliveries[id].attempts <= cfg.Limit()
    ensures Progress(s.db.deliveries[id]) + Changes(cfg, s, run, id) <= 4 * cfg.Limit() + 3
    decreases |run|
  {
    hide Inv, Enabled, Apply;
    if run == [] {
      AttemptsLimited(cfg, s, id);
    } else {
      StepMoves(cfg, s, run[0]);
      StepKeeps(cfg, s, run[0]);
      ChangesBounded(cfg, Apply(cfg, s, run[0]), run[1..], id);
    }
  }

  /** As wired, every delivery is tried at most eight times. */
  lemma WiredLimit()
    ensures WIRED.Valid() && WIRED.Limit() == WIRED.policy.maxAttempts == WIRED.recoveryLimit == 8
  {
  }
}
