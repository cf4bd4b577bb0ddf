/** The whole notification pipeline as one state machine. Every committed transaction,
    publication and commit is one step; crashes are the steps that do not happen. Any
    interleaving of any number of relays, consumers and workers is a run of it. */
module Machine {
  import opened Types
  import opened Store
  import Contract
  import Ingest
  import Relay
  import RetryPolicy

  datatype Config = Config(policy: RetryPolicy.Policy, recoveryLimit: int) {
    predicate Valid() { policy.Valid() && 0 < recoveryLimit }

    function Limit(): int { Max(policy.maxAttempts, recoveryLimit) }
  }

  /** As wired in the notifier: the default policy, and 8 for the recovery. */
  const WIRED := Config(RetryPolicy.DEFAULT, 8)

  /** How an attempt ended. */
  datatype Ending = Retried | DeadLettered | Recovered | CutOff | Delivered

  /** What has happened to a delivery so far: how each ended attempt ended, and the time
      before which the next attempt must not start. No step reads it. */
  datatype Trail = Trail(due: Time, ended: seq<Ending>)

  datatype Sys = Sys(
    now: Time,
    db: Db,                     // the notification database
    events: Outbox,             // the monolith's outbox
    log: Log,                   // Kafka
    committed: Offsets,  // offsets committed by the consumer group
    tasks: set<Task>,           // every task ever handed to a worker
    used: set<Uuid>,            // every UUID ever generated
    trail: map<Uuid, Trail>)

  const INIT := Sys(0, Db(map[], map[], map[], map[]), map[], map[], map[], {}, {NIL}, map[])

  type Offsets = map<Part, nat>

  function CommittedAt(committed: Offsets, p: Part): nat {
    if p in committed then committed[p] else 0
  }

  datatype Action =
    | Tick(elapsed: nat)
    | AddChannel(channelId: Uuid, channel: Channel)
    | SetEnabled(user: Uuid, channelId: Uuid, enabled: bool)
    | DropChannel(user: Uuid, channelId: Uuid)
    | Intend(intentId: Uuid, user: Uuid, post: Ingest.Post)
    | RelayRequest(rowId: Uuid, index: nat, outcome: Relay.Outcome)
    | RelayDispatch(rowId: Uuid, index: nat, outcome: Relay.Outcome)
    | Consume(part: Part, offset: nat, ids: map<Uuid, Uuid>, digest: Uuid, index: nat, outcome: Relay.Outcome, commit: bool)
    | Claim(id: Uuid, token: Uuid, lease: Time, types: set<ChannelType>)
    | Deliver(task: Task)
    | Fail(task: Task, failure: RetryPolicy.Failure, random: real, code: string, newRow: Uuid)
    | Recover(id: Uuid, newRow: Uuid)

  predicate Fresh(s: Sys, id: Uuid) { id !in s.used }

  predicate Publishable(source: Relay.Source, rows: Outbox, id: Uuid, now: Time) {
    id in rows && Relay.Eligible(source, rows[id], now) && rows[id].route.Some? && !rows[id].payload.NotJson?
  }

  /** The consumer's verdict on the record at an offset. */
  function VerdictAt(s: Sys, part: Part, offset: nat): Contract.Verdict
    requires offset < |LogAt(s.log, part)|
  {
    Contract.RouteRecord(part.topic, LogAt(s.log, part)[offset])
  }

  predicate AcceptsNew(s: Sys, v: Contract.Verdict) {
    v.Accept? && v.event.eventId !in s.db.inbox
  }

  predicate Enabled(s: Sys, a: Action) {
    match a
    case Tick(_) => true
    case AddChannel(_, _) => true
    case SetEnabled(_, _, _) => true
    case DropChannel(_, _) => true
    case Intend(id, user, post) => Fresh(s, id) && IntentOf(post.id, user) !in Origins(s.events)
    case RelayRequest(id, _, o) => o.Possible() && Publishable(Relay.RequestsSource, s.events, id, s.now)
    case RelayDispatch(id, _, o) => o.Possible() && Publishable(Relay.DispatchSource, s.db.dispatch, id, s.now)
    case Consume(p, offset, ids, _, _, o, commit) =>
      // Any record may be processed again at any time; a commit may only confirm the
      // record at the committed offset or an earlier one.
      && o.Possible() && (p.topic == RequestsTopic || Contract.IsRetryTopic(p.topic))
      && offset < |LogAt(s.log, p)| && (commit ==> offset <= CommittedAt(s.committed, p))
      && var v := VerdictAt(s, p, offset);
         AcceptsNew(s, v) ==>
           && Assigns(ids, Targets(s.db.channels, v.event.userId))
           && (forall i :: i in ids ==> Fresh(s, i))
    case Claim(id, token, lease, types) =>
      id in s.db.deliveries && Claimable(s.db, s.db.deliveries[id], types, s.now) && Fresh(s, token) && s.now <= lease
    case Deliver(task) => task in s.tasks
    case Fail(task, _, _, _, row) => task in s.tasks && Fresh(s, row)
    case Recover(id, row) => id in s.db.deliveries && Expired(s.db.deliveries[id], s.now) && Fresh(s, row)
  }

  /** The delay a worker passes to `MarkFailed`: the policy's, or zero when it gives up. */
  function FailDelay(cfg: Config, attempts: nat, failure: RetryPolicy.Failure, random: real): int {
    if cfg.policy.Retries(true, attempts, failure)
    then cfg.policy.DelayOf(attempts, failure, cfg.policy.Factor(random))
    else 0
  }

  /** The tasks a claim returns: one, unless the joined rows are missing or undecodable. */
  function HandedOut(db: Db, id: Uuid, token: Uuid): set<Task>
    requires id in db.deliveries
  {
    var d := db.deliveries[id];
    if d.channel in db.channels && d.event in db.inbox && db.inbox[d.event].payload.RequestedJson?
    then {TaskOf(db, id, token)} else {}
  }

  function InvalidRecord(source: Part, offset: nat, reason: string, digest: Uuid): Record {
    Record(UuidText(digest), Contract.WireHeaders(digest, Contract.NOTIFICATION_INVALID, Contract.SCHEMA_V1),
           InvalidJson(source, offset, reason))
  }

  /** `Consumer.Process`: the database after it, and the reason to report, if any. */
  function Processed(db: Db, v: Contract.Verdict, payload: Payload, ids: map<Uuid, Uuid>, now: Time): (Db, Option<string>) {
    match v
    case Accept(event) =>
      var (after, reply) := AcceptRequest(db, event, payload, ids, now);
      (after, if reply == IdentityConflict then Some("identity_conflict") else None)
    case Resume(event) => (ResumeRetry(db, event, now), None)
    case Reject(reason) => (db, Some(reason))
  }

  function ConsumeStep(s: Sys, p: Part, offset: nat, ids: map<Uuid, Uuid>, digest: Uuid, index: nat,
                       o: Relay.Outcome, commit: bool): Sys
    requires offset < |LogAt(s.log, p)|
  {
    var v := VerdictAt(s, p, offset);
    var (db, reason) := Processed(s.db, v, LogAt(s.log, p)[offset].value, ids, s.now);
    var log := if reason.Some?
      then Relay.AppendedIf(s.log, Part(DeadLetters, index), InvalidRecord(p, offset, reason.value, digest), o.appended)
      else s.log;
    var ok := reason.None? || o.acked;
    var news := if AcceptsNew(s, v) then ids else map[];
    s.(db := db, log := log,
       committed := if ok && commit then s.committed[p := offset + 1] else s.committed,
       used := s.used + news.Keys,
       trail := s.trail + map i | i in news :: Trail(s.now, []))
  }

  function EndedWith(t: Trail, e: Ending): Trail {
    t.(ended := t.ended + [e])
  }

  function DeliverStep(s: Sys, task: Task): Sys {
    var after := s.(db := MarkSent(s.db, task, s.now).0);
    if !Current(s.db, task) || task.id !in s.trail then after
    else after.(trail := s.trail[task.id := EndedWith(s.trail[task.id], Delivered)])
  }

  function FailStep(cfg: Config, s: Sys, task: Task, delay: int, code: string, row: Uuid): Sys {
    var after := s.(db := MarkFailed(s.db, task, delay, code, row, s.now).0, used := s.used + {row});
    if !Current(s.db, task) || task.id !in s.trail then after
    else
      var t := s.trail[task.id];
      after.(trail := s.trail[task.id :=
        if !Active(s.db.channels, s.db.deliveries[task.id]) then EndedWith(t, CutOff)
        else if delay > 0 then EndedWith(t, Retried).(due := s.now + delay)
        else EndedWith(t, DeadLettered)])
  }

  function RecoverStep(cfg: Config, s: Sys, id: Uuid, row: Uuid): Sys
    requires id in s.db.deliveries
  {
    var after := s.(db := RecoverOne(s.db, id, cfg.recoveryLimit, row, s.now), used := s.used + {row});
    if id !in s.trail then after
    else
      var t := s.trail[id];
      var v := Store.Verdict(s.db.channels, s.db.deliveries[id], cfg.recoveryLimit);
      after.(trail := s.trail[id :=
        if v == Cancelled then EndedWith(t, CutOff)
        else if v == Failed then EndedWith(t, DeadLettered)
        else EndedWith(t, Recovered).(due := s.now)])
  }

  function Apply(cfg: Config, s: Sys, a: Action): Sys
    requires Enabled(s, a)
  {
    match a
    case Tick(elapsed) => s.(now := s.now + elapsed)
    case AddChannel(id, c) => s.(db := CreateChannel(s.db, id, c).0)
    case SetEnabled(user, channel, enabled) => s.(db := SetChannelEnabled(s.db, user, channel, enabled).0)
    case DropChannel(user, channel) => s.(db := DeleteChannel(s.db, user, channel).0)
    case Intend(id, user, post) =>
      s.(events := s.events[id := Ingest.NewIntent(id, user, post, s.now)], used := s.used + {id})
    case RelayRequest(id, index, o) =>
      var row := s.events[id];
      s.(events := Relay.Settle(s.events, id, s.now, o),
         log := Relay.AppendedIf(s.log, Part(row.route.value, index), Relay.RecordOf(id, row), o.appended))
    case RelayDispatch(id, index, o) =>
      var row := s.db.dispatch[id];
      s.(db := s.db.(dispatch := Relay.Settle(s.db.dispatch, id, s.now, o)),
         log := Relay.AppendedIf(s.log, Part(row.route.value, index), Relay.RecordOf(id, row), o.appended))
    case Consume(p, offset, ids, digest, index, o, commit) => ConsumeStep(s, p, offset, ids, digest, index, o, commit)
    case Claim(id, token, lease, types) =>
      var db := ClaimOne(s.db, id, token, lease);
      s.(db := db, tasks := s.tasks + HandedOut(db, id, token), used := s.used + {token})
    case Deliver(task) => DeliverStep(s, task)
    case Fail(task, failure, random, code, row) =>
      FailStep(cfg, s, task, FailDelay(cfg, task.attempts, failure, random), code, row)
    case Recover(id, row) => RecoverStep(cfg, s, id, row)
  }

  // ----- Runs -----

  /** Every step of the run is enabled where it is taken. */
  ghost predicate IsRun(cfg: Config, s: Sys, run: seq<Action>)
    decreases |run|
  {
    run == [] || (Enabled(s, run[0]) && IsRun(cfg, Apply(cfg, s, run[0]), run[1..]))
  }

  ghost function After(cfg: Config, s: Sys, run: seq<Action>): Sys
    requires IsRun(cfg, s, run)
    decreases |run|
  {
    if run == [] then s else After(cfg, Apply(cfg, s, run[0]), run[1..])
  }

  /** A run can be cut anywhere. */
  lemma {:induction false} RunSplit(cfg: Config, s: Sys, run: seq<Action>, n: nat)
    requires IsRun(cfg, s, run) && n <= |run|
    ensures IsRun(cfg, s, run[..n]) && IsRun(cfg, After(cfg, s, run[..n]), run[n..])
    ensures After(cfg, After(cfg, s, run[..n]), run[n..]) == After(cfg, s, run)
    decreases n
  {
    hide Apply, Enabled;
    if n == 0 {
      assert run[..0] == [] && run[0..] == run;
    } else {
      RunSplit(cfg, Apply(cfg, s, run[0]), run[1..], n - 1);
      TailSlices(run, n);
    }
  }

  lemma TailSlices(run: seq<Action>, n: nat)
    requires 0 < n <= |run|
    ensures run[..n] != [] && run[..n][0] == run[0] && run[..n][1..] == run[1..][..n - 1] && run[n..] == run[1..][n - 1..]
  {
  }

  /** Two runs can be put together. */
  lemma {:induction false} RunJoin(cfg: Config, s: Sys, a: seq<Action>, b: seq<Action>)
    requires IsRun(cfg, s, a) && IsRun(cfg, After(cfg, s, a), b)
    ensures IsRun(cfg, s, a + b) && After(cfg, s, a + b) == After(cfg, After(cfg, s, a), b)
    decreases |a|
  {
    hide Apply, Enabled;
    if a == [] {
      assert a + b == b;
    } else {
      RunJoin(cfg, Apply(cfg, s, a[0]), a[1..], b);
      assert (a + b)[0] == a[0] && (a + b)[1..] == a[1..] + b;
    }
  }

  /** The state before step i of a run, and the step itself. */
  lemma StepOfRun(cfg: Config, s: Sys, run: seq<Action>, i: nat)
    requires IsRun(cfg, s, run) && i < |run|
    ensures IsRun(cfg, s, run[..i]) && IsRun(cfg, s, run[..i + 1])
    ensures var at := After(cfg, s, run[..i]);
            Enabled(at, run[i]) && After(cfg, s, run[..i + 1]) == Apply(cfg, at, run[i])
  {
    hide Apply, Enabled;
    RunSplit(cfg, s, run, i);
    RunSplit(cfg, s, run, i + 1);
    var at := After(cfg, s, run[..i]);
    assert run[i..][0] == run[i];
    RunJoin(cfg, s, run[..i], [run[i]]);
    assert run[..i] + [run[i]] == run[..i + 1];
    assert IsRun(cfg, Apply(cfg, at, run[i]), []) && After(cfg, at, [run[i]]) == After(cfg, Apply(cfg, at, run[i]), []);
  }
}
