/** The delivery worker: claim, send, settle, and periodically recover expired claims. */
module Worker {
  import opened Types
  import opened Store
  import opened Machine
  import opened Postgres
  import opened Runtime
  import Query
  import Rules
  import opened Invariant
  import opened Jobs
  import Fencing
  import RetryPolicy
  import Steps

  /** What the provider answers. */
  datatype Sending = Accepted | Rejected(failure: RetryPolicy.Failure, code: string)

  const UNREGISTERED := Rejected(RetryPolicy.Failure(None, false, None), "sender_unconfigured")

  /** How a task is settled: whether the context is still live after the send, and still
      live when the policy is asked; the random number of the jitter; the store call. */
  datatype Settling = Settling(sending: Sending, live: bool, stillLive: bool, random: real, call: Call) {
    /** A call on a cancelled context is not executed. */
    predicate Possible() {
      && (stillLive ==> live)
      && (!(if sending.Accepted? then live else stillLive) ==> call.Refused?)
    }
  }

  /** One round: what all other services do before the recovery, before the claim and while
      the claimed task is being sent; the recovery ticker; the rows other transactions have
      locked; and what becomes of the claim and of the task. */
  datatype Round = Round(
    before: seq<Action>, recovers: bool, between: seq<Action>, locked: set<Uuid>, claim: Call,
    during: seq<Action>, settling: Settling)

  /** A refused sending is to be tried again: an attempt is left, the provider's answer says
      so or else the network failed, and the policy's delay is not zero. */
  predicate Again(policy: RetryPolicy.Policy, attempts: nat, settling: Settling) {
    && settling.sending.Rejected? && 0 < attempts < policy.maxAttempts
    && var failure := settling.sending.failure;
       && (failure.classified == Some(true) || (failure.classified == None && failure.network))
       && policy.DelayOf(attempts, failure, policy.Factor(settling.random)) > 0
  }

  datatype Report = Settled | Stale | Errored

  class Worker {
    const cluster: Cluster
    const senders: set<ChannelType>
    const policy: RetryPolicy.Policy

    constructor (cluster: Cluster, senders: set<ChannelType>, policy: RetryPolicy.Policy)
      ensures this.cluster == cluster && this.senders == senders && this.policy == policy
    {
      this.cluster, this.senders, this.policy := cluster, senders, policy;
    }

    /** Sends one task and settles it. */
    method Process(task: Task, settling: Settling, ghost cfg: Config, ghost s: Sys) returns (report: Report, ghost t: Sys)
      requires cluster.Shows(s) && cfg.policy == policy && policy.Valid() && settling.Possible() && task in s.tasks
      modifies cluster.store`deliveries, cluster.store.dispatch, cluster.ids
      ensures cluster.Shows(t) && Reaches(cfg, s, t) && t.tasks == s.tasks
      ensures settling.call.Refused? ==> report == Errored && t == s
      ensures !Current(s.db, task) ==> report != Settled && t.db == s.db
      ensures !settling.call.Refused? ==>
                var sending := if task.channelType in senders then settling.sending else UNREGISTERED;
                match sending
                case Accepted => t == DeliverStep(s, task)
                case Rejected(failure, code) =>
                  exists row :: Fresh(s, row) &&
                    t == FailStep(cfg, s, task, FailDelay(cfg, task.attempts, failure, settling.random), code, row)
      ensures !settling.call.Refused? && Rules.Holds(s.db.deliveries, task) ==>
                && task.id in cluster.store.deliveries
                && cluster.store.deliveries[task.id].status ==
                     if task.channelType in senders && settling.sending.Accepted? then Sent
                     else if !Rules.On(s.db.channels, s.db.deliveries[task.id]) then Cancelled
                     else if task.channelType in senders && Again(policy, task.attempts, settling) then RetryWait
                     else Failed
      ensures !settling.call.Refused? ==> !Current(t.db, task)
    {
      hide Reaches, DeliverStep, FailStep, Store.MarkSent, Store.MarkFailed, Current, RetryPolicy.Policy.DelayOf;
      var sending := UNREGISTERED;
      if task.channelType in senders {
        sending := settling.sending;
      }
      t := s;
      ReachesSelf(cfg, s);
      if sending.Accepted? {
        if settling.call.Refused? {
          return Errored, t;
        }
        var reply := cluster.store.MarkSent(task, cluster.now);
        Delivering(cfg, s, task);
        Fencing.DeliveredIsStale(s, task);
        t := DeliverStep(s, task);
        return ReportOf(reply, settling.call), t;
      }
      if !settling.live {
        return Errored, t;
      }
      var delay, again := policy.NextDelay(settling.stillLive, task.attempts, Some(sending.failure), settling.random);
      if !again {
        delay := 0;
      }
      if settling.call.Refused? {
        return Errored, t;
      }
      var row := cluster.ids.One();
      var reply := cluster.store.MarkFailed(task, delay as int, sending.code, row, cluster.now);
      Failing(cfg, s, task, sending.failure, settling.random, sending.code, row);
      Fencing.FailedIsStale(cfg, s, task, delay as int, sending.code, row);
      t := FailStep(cfg, s, task, delay as int, sending.code, row);
      report := ReportOf(reply, settling.call);
    }

    /** The recovery the worker asks for: up to 100 rows, up to 8 attempts. */
    method RecoverExpired(locked: set<Uuid>, ghost cfg: Config, ghost s: Sys) returns (ghost t: Sys)
      requires cluster.Shows(s) && cfg.recoveryLimit == 8 && s.db.deliveries.Keys <= s.used
      modifies cluster.store`deliveries, cluster.store.dispatch, cluster.ids
      ensures cluster.Shows(t) && Reaches(cfg, s, t)
      ensures t.tasks == s.tasks
      ensures Rules.AllBack(s.db.channels, s.db.deliveries, t.db.deliveries, locked, 100, 8, s.now)
    {
      hide Reaches, RecoverAll, RecoveryKeys, Query.Select, Rules.AllBack;
      var rows := cluster.ids.Block();
      var count := cluster.store.RecoverExpired(100, 8, locked, rows, cluster.now);
      t := RecoveryBatch(cfg, s, locked, rows, cluster.ids.next, 100);
    }

    /** Claims one row for a minute, if there is one to claim. */
    method Claim(locked: set<Uuid>, ghost cfg: Config, ghost s: Sys)
      returns (tasks: Option<seq<Task>>, ghost t: Sys, ghost tokens: Uuid -> Uuid)
      requires cluster.Shows(s) && s.db.deliveries.Keys <= s.used
      requires forall id :: id in s.db.deliveries ==> s.db.deliveries[id].event in s.db.inbox
      modifies cluster`handed, cluster.store`deliveries, cluster.ids
      ensures cluster.Shows(t) && Reaches(cfg, s, t)
      ensures t.tasks == s.tasks + if tasks.Some? then Elements(tasks.value) else {}
      ensures tasks.Some? ==> |tasks.value| <= 1 && forall task :: task in tasks.value ==>
                Current(t.db, task) && NextAttempt(s.db, task) && task.channelType in senders
      ensures Rules.AllTaken(s.db.channels, s.db.deliveries, t.db.deliveries, senders, locked, 1, s.now, tokens, 60_000_000_000)
      ensures tasks.Some? ==> |tasks.value| == if CanHand(s, locked, senders) then 1 else 0
      ensures tasks.None? ==> exists id :: id in s.db.inbox && !s.db.inbox[id].payload.RequestedJson?
    {
      hide Reaches, ClaimAll, ClaimKeys, Query.Select, HandedAll, Current, NextAttempt, ClaimedAs, CanHand;
      hide Repository.Collected, LeaseEnd, Elements, Rules.AllTaken, Rules.AllHanded;
      var block := cluster.ids.Block();
      tokens := block;
      tasks := cluster.store.Claim(1, MINUTE, senders, locked, block, cluster.now);
      t := ClaimBatch(cfg, s, locked, tokens, cluster.ids.next, 1, senders);
      assert cluster.store.State() == t.db;
      OneCollected(s.db, cluster.store, Query.Select(ClaimKeys(s.db, senders, locked, s.now), 1), tokens, tasks, senders);
      HandsIfAny(s, cluster.store, locked, senders, tokens, tasks);
      if tasks.Some? {
        cluster.handed := cluster.handed + Elements(tasks.value);
      }
    }

    /** The loop, for as long as the context lives: `rounds` is what the environment does,
        `sends` the tasks handed to a provider, in order. Whatever all other services do at
        the same time, other workers included, this one takes only steps of the machine, and
        hands every attempt of a delivery over at most once. It does hand one over in every
        round whose claim is answered and finds a row, `seen` being the states in which the
        claims are made; and unless the store refuses, each is settled by its round. It
        recovers once at the start and then in every round that is to. */
    method Run(locked: set<Uuid>, rounds: seq<Round>, cfg: Config, ghost s: Sys)
      returns (ghost sends: seq<Task>, ghost seen: seq<Sys>, ghost recoveries: seq<Recovery>, ghost t: Sys)
      requires cluster.Shows(s) && cfg == Config(policy, 8) && Inv(cfg, s)
      requires forall i :: 0 <= i < |rounds| ==> rounds[i].settling.Possible()
      modifies cluster, cluster.events, cluster.store, cluster.store.dispatch, cluster.broker, cluster.ids
      ensures cluster.Shows(t) && Reaches(cfg, s, t) && s.tasks <= t.tasks
      ensures SentBetween(s, t, sends) && forall i :: 0 <= i < |sends| ==> 1 <= sends[i].attempts <= cfg.Limit()
      ensures |seen| == |rounds| && (forall i :: 0 <= i < |seen| ==> Reaches(cfg, s, seen[i]))
      ensures |sends| == HandingRounds(rounds, seen, senders)
      ensures (forall i :: 0 <= i < |rounds| ==> !rounds[i].settling.call.Refused?) ==>
                forall i :: 0 <= i < |sends| ==> !Current(t.db, sends[i])
      ensures |recoveries| == 1 + RecoveringRounds(rounds) && AllHappened(cfg, s, recoveries)
    {
      hide Reaches, Inv, CanHand, Current, Rules.AllBack, AllHappened, HandingRounds, Hands, SentBetween, Rising, Newer;
      Anchored(cfg, s);
      sends, seen := [], [];
      t := RecoverExpired(locked, cfg, s);
      recoveries := [Recovery(s, t, locked)];
      ReachesSelf(cfg, s);
      NoRecovery(cfg, s);
      OneMoreRecovery(cfg, s, [], Recovery(s, t, locked));
      assert [] + [Recovery(s, t, locked)] == recoveries;
      NoRounds(rounds, senders);
      NoSend(s, t);
      for i := 0 to |rounds|
        invariant cluster.Shows(t) && Reaches(cfg, s, t) && s.tasks <= t.tasks
        invariant SentBetween(s, t, sends)
        invariant |seen| == i && (forall j :: 0 <= j < i ==> Reaches(cfg, s, seen[j]))
        invariant |sends| == HandingRounds(rounds[..i], seen, senders)
        invariant |recoveries| == 1 + RecoveringRounds(rounds[..i]) && AllHappened(cfg, s, recoveries)
        invariant (forall j :: 0 <= j < |rounds| ==> !rounds[j].settling.call.Refused?) ==>
                    forall j :: 0 <= j < |sends| ==> !Current(t.db, sends[j])
      {
        ReachesKeeps(cfg, s, t);
        assert rounds[..i + 1][..i] == rounds[..i];
        ghost var task, at, recovery, next := Turn(rounds[i], cfg, t);
        if recovery.Some? {
          ReachesTrans(cfg, s, t, recovery.value.before);
          OneMoreRecovery(cfg, s, recoveries, recovery.value);
          recoveries := recoveries + [recovery.value];
        }
        ReachesTrans(cfg, s, t, next);
        ReachesTrans(cfg, s, t, at);
        SentAreTasks(s, t, sends);
        StaleStay(cfg, t, next, sends);
        OneMoreRound(rounds, seen, at, senders, i);
        seen := seen + [at];
        OneMoreSend(s, t, next, sends, task);
        if task.Some? {
          sends := sends + [task.value];
        }
        t := next;
      }
      assert rounds[..|rounds|] == rounds;
      ReachesKeeps(cfg, s, t);
      Numbered(cfg, t);
      assert forall i :: 0 <= i < |sends| ==> sends[i] in t.tasks by { SentAreTasks(s, t, sends); }
    }

    /** One round of the loop. */
    method Turn(round: Round, cfg: Config, ghost s: Sys)
      returns (ghost sent: Option<Task>, ghost at: Sys, ghost recovery: Option<Recovery>, ghost t: Sys)
      requires cluster.Shows(s) && cfg == Config(policy, 8) && Inv(cfg, s) && round.settling.Possible()
      modifies cluster, cluster.events, cluster.store, cluster.store.dispatch, cluster.broker, cluster.ids
      ensures cluster.Shows(t) && Reaches(cfg, s, t) && s.tasks <= t.tasks
      ensures sent.Some? ==> sent.value in t.tasks && sent.value !in s.tasks && Newer(sent.value, s.tasks)
      ensures Reaches(cfg, s, at) && (sent.Some? <==> Hands(round, at, senders))
      ensures sent.Some? && !round.settling.call.Refused? ==> !Current(t.db, sent.value)
      ensures recovery.Some? <==> round.recovers
      ensures recovery.Some? ==> Reaches(cfg, s, recovery.value.before) && recovery.value.Happened()
    {
      hide Reaches, Inv, Newer, CanHand, Current, Rules.AllBack;
      sent, recovery := None, None;
      t := Meanwhile(round.before, cfg, s);
      if round.recovers {
        Anchored(cfg, t);
        ghost var recovered := RecoverExpired(round.locked, cfg, t);
        recovery := Some(Recovery(t, recovered, round.locked));
        ReachesTrans(cfg, s, t, recovered);
        t := recovered;
        ReachesKeeps(cfg, s, t);
      }
      ghost var next := Meanwhile(round.between, cfg, t);
      ReachesTrans(cfg, s, t, next);
      t := next;
      at := t;
      if round.claim.Refused? {
        return;
      }
      var tasks, claimed := ClaimNext(round.locked, cfg, t);
      NewerThanEarlier(tasks, s.tasks, t.tasks);
      ReachesTrans(cfg, s, t, claimed);
      ReachesKeeps(cfg, s, claimed);
      t := claimed;
      if round.claim.Unanswered? || tasks.None? {
        return;
      }
      var task := tasks.value;
      next := Meanwhile(round.during, cfg, t);
      ReachesTrans(cfg, s, t, next);
      t := next;
      Anchored(cfg, t);
      var report, settled := Process(task, round.settling, cfg, t);
      ReachesTrans(cfg, s, t, settled);
      sent := Some(task);
      t := settled;
    }

    /** What the other services do meanwhile keeps the invariant and takes no task back. */
    method Meanwhile(steps: seq<Action>, cfg: Config, ghost s: Sys) returns (ghost t: Sys)
      requires cluster.Shows(s) && Inv(cfg, s)
      modifies cluster, cluster.events, cluster.store, cluster.store.dispatch, cluster.broker, cluster.ids
      ensures cluster.Shows(t) && Reaches(cfg, s, t) && Inv(cfg, t) && s.tasks <= t.tasks
    {
      hide Inv, IsRun, After;
      ghost var run;
      run, t := cluster.Others(steps, cfg, s);
      Steps.RunKeeps(cfg, s, run);
      TasksStay(cfg, s, run);
    }

    /** The claim, in a state of the invariant: at most one task, of a later attempt than any
        handed out before. */
    method ClaimNext(locked: set<Uuid>, ghost cfg: Config, ghost s: Sys) returns (task: Option<Task>, ghost t: Sys)
      requires cluster.Shows(s) && Inv(cfg, s)
      modifies cluster`handed, cluster.store`deliveries, cluster.ids
      ensures cluster.Shows(t) && Reaches(cfg, s, t) && s.tasks <= t.tasks
      ensures task.Some? ==> task.value in t.tasks && Newer(task.value, s.tasks)
      ensures task.Some? <==> CanHand(s, locked, senders)
    {
      hide Inv, Reaches, Newer, Current, CanHand, Rules.AllTaken;
      Anchored(cfg, s);
      Decodable(cfg, s);
      var tasks;
      ghost var tokens;
      tasks, t, tokens := Claim(locked, cfg, s);
      if tasks.None? || tasks.value == [] {
        return None, t;
      }
      task := Some(tasks.value[0]);
      NextIsNewer(cfg, s, task.value);
    }
  }

  /** There is a row for a worker with these senders to claim. */
  ghost predicate CanHand(s: Sys, locked: set<Uuid>, senders: set<ChannelType>) {
    exists id :: id in s.db.deliveries && id !in locked && Rules.CanClaim(s.db.channels, s.db.deliveries[id], senders, s.now)
  }

  /** The states before and after a recovery. */
  datatype Recovery = Recovery(before: Sys, after: Sys, locked: set<Uuid>) {
    /** Exactly the first hundred rows whose lease was over were recovered, with a limit of eight attempts. */
    ghost predicate Happened() {
      Rules.AllBack(before.db.channels, before.db.deliveries, after.db.deliveries, locked, 100, 8, before.now)
    }
  }

  /** Each of them happened, in a state of the run. */
  ghost predicate AllHappened(cfg: Config, s: Sys, recoveries: seq<Recovery>) {
    forall i :: 0 <= i < |recoveries| ==> Reaches(cfg, s, recoveries[i].before) && recoveries[i].Happened()
  }

  lemma NoRecovery(cfg: Config, s: Sys)
    ensures AllHappened(cfg, s, [])
  {
  }

  lemma OneMoreRecovery(cfg: Config, s: Sys, recoveries: seq<Recovery>, next: Recovery)
    requires AllHappened(cfg, s, recoveries) && Reaches(cfg, s, next.before) && next.Happened()
    ensures AllHappened(cfg, s, recoveries + [next])
  {
    hide Reaches, Rules.AllBack;
  }

  lemma NoRounds(rounds: seq<Round>, senders: set<ChannelType>)
    ensures HandingRounds(rounds[..0], [], senders) == 0 && RecoveringRounds(rounds[..0]) == 0
  {
  }

  function RecoveringRounds(rounds: seq<Round>): nat {
    if rounds == [] then 0
    else RecoveringRounds(rounds[..|rounds| - 1]) + if rounds[|rounds| - 1].recovers then 1 else 0
  }

  ghost predicate Hands(round: Round, at: Sys, senders: set<ChannelType>) {
    round.claim.Answered? && CanHand(at, round.locked, senders)
  }

  /** How many rounds get an answer and find a row. */
  ghost function HandingRounds(rounds: seq<Round>, seen: seq<Sys>, senders: set<ChannelType>): nat
    requires |rounds| == |seen|
  {
    if rounds == [] then 0
    else
      var n := |rounds| - 1;
      HandingRounds(rounds[..n], seen[..n], senders) + if Hands(rounds[n], seen[n], senders) then 1 else 0
  }

  lemma OneMoreRound(rounds: seq<Round>, seen: seq<Sys>, at: Sys, senders: set<ChannelType>, i: nat)
    requires i < |rounds| && |seen| == i
    ensures HandingRounds(rounds[..i + 1], seen + [at], senders) ==
            HandingRounds(rounds[..i], seen, senders) + if Hands(rounds[i], at, senders) then 1 else 0
  {
    assert rounds[..i + 1][..i] == rounds[..i] && (seen + [at])[..i] == seen;
  }

  lemma HandsIfAny(
    s: Sys, store: Repository, locked: set<Uuid>, senders: set<ChannelType>, tokens: Uuid -> Uuid, tasks: Option<seq<Task>>)
    requires store.Collected(Query.Select(ClaimKeys(s.db, senders, locked, s.now), 1), tokens, tasks)
    requires store.State().inbox == s.db.inbox
    ensures tasks.Some? ==> |tasks.value| == if CanHand(s, locked, senders) then 1 else 0
    ensures tasks.None? ==> exists id :: id in s.db.inbox && !s.db.inbox[id].payload.RequestedJson?
  {
    hide Query.Select;
    var keys := ClaimKeys(s.db, senders, locked, s.now);
    Query.SelectIsTop(keys, 1);
    if CanHand(s, locked, senders) {
      var id :| id in s.db.deliveries && id !in locked && Rules.CanClaim(s.db.channels, s.db.deliveries[id], senders, s.now);
      assert id in keys && |keys| > 0;
    } else {
      assert keys == map[];
    }
  }

  lemma Decodable(cfg: Config, s: Sys)
    requires Inv(cfg, s)
    ensures forall id :: id in s.db.inbox ==> s.db.inbox[id].payload.RequestedJson?
  {
    hide LivesOk, AnchorsOk, PairsUnique, TasksOk, UsedOk, RowInv, LogInv;
  }

  lemma StaleStay(cfg: Config, s: Sys, t: Sys, sends: seq<Task>)
    requires Inv(cfg, s) && Reaches(cfg, s, t) && forall i :: 0 <= i < |sends| ==> sends[i] in s.tasks
    ensures forall i :: 0 <= i < |sends| && !Current(s.db, sends[i]) ==> !Current(t.db, sends[i])
  {
    hide Inv, IsRun, After, Current;
    var run :| IsRun(cfg, s, run) && After(cfg, s, run) == t;
    forall i | 0 <= i < |sends| && !Current(s.db, sends[i]) ensures !Current(t.db, sends[i]) {
      Fencing.StaleForever(cfg, s, run, sends[i]);
    }
  }

  lemma NewerThanEarlier(task: Option<Task>, earlier: set<Task>, tasks: set<Task>)
    requires earlier <= tasks && (task.Some? ==> Newer(task.value, tasks))
    ensures task.Some? ==> Newer(task.value, earlier) && task.value !in earlier
  {
  }

  lemma {:induction false} TasksStay(cfg: Config, s: Sys, run: seq<Action>)
    requires Inv(cfg, s) && IsRun(cfg, s, run)
    ensures s.tasks <= After(cfg, s, run).tasks
    decreases |run|
  {
    hide Inv, Enabled, Apply;
    if run != [] {
      StepMoves(cfg, s, run[0]);
      Steps.StepKeeps(cfg, s, run[0]);
      TasksStay(cfg, Apply(cfg, s, run[0]), run[1..]);
    }
  }

  // ----- At most once for each attempt -----

  predicate NextAttempt(db: Db, task: Task) {
    task.id in db.deliveries && task.attempts == db.deliveries[task.id].attempts + 1
  }

  /** The task is a later attempt than every task of the same delivery. */
  ghost predicate Newer(task: Task, tasks: set<Task>) {
    forall u :: u in tasks && u.id == task.id ==> u.attempts < task.attempts
  }

  ghost predicate Rising(sends: seq<Task>) {
    forall i, j :: 0 <= i < j < |sends| && sends[i].id == sends[j].id ==> sends[i].attempts < sends[j].attempts
  }

  /** The sends are tasks handed out between two states, no attempt of a delivery twice. */
  ghost predicate SentBetween(s: Sys, t: Sys, sends: seq<Task>) {
    Rising(sends) && forall j :: 0 <= j < |sends| ==> sends[j] in t.tasks && sends[j] !in s.tasks
  }

  lemma SentAreTasks(s: Sys, t: Sys, sends: seq<Task>)
    requires SentBetween(s, t, sends)
    ensures forall i :: 0 <= i < |sends| ==> sends[i] in t.tasks
  {
  }

  lemma NoSend(s: Sys, t: Sys)
    ensures SentBetween(s, t, [])
  {
  }

  lemma OneMoreSend(s: Sys, t: Sys, u: Sys, sends: seq<Task>, task: Option<Task>)
    requires SentBetween(s, t, sends) && s.tasks <= t.tasks <= u.tasks
    requires task.Some? ==> task.value in u.tasks && task.value !in t.tasks && Newer(task.value, t.tasks)
    ensures SentBetween(s, u, if task.Some? then sends + [task.value] else sends)
  {
  }

  lemma NextIsNewer(cfg: Config, s: Sys, task: Task)
    requires Inv(cfg, s) && NextAttempt(s.db, task)
    ensures Newer(task, s.tasks)
  {
    hide LivesOk, AnchorsOk, PairsUnique, InboxOk, UsedOk, RowInv, LogInv;
  }

  lemma Numbered(cfg: Config, s: Sys)
    requires Inv(cfg, s)
    ensures forall task :: task in s.tasks ==> 1 <= task.attempts <= cfg.Limit()
  {
    hide AnchorsOk, PairsUnique, InboxOk, UsedOk, RowInv, LogInv;
    forall task | task in s.tasks ensures 1 <= task.attempts <= cfg.Limit() {
      assert TaskOk(task, s.db.deliveries, s.used);
      assert LifeOk(s.db.deliveries[task.id], s.trail[task.id], cfg.Limit());
    }
  }

  lemma Anchored(cfg: Config, s: Sys)
    requires Inv(cfg, s)
    ensures cfg.policy.Valid() && s.db.deliveries.Keys <= s.used
    ensures forall id :: id in s.db.deliveries ==> s.db.deliveries[id].event in s.db.inbox
  {
    hide LivesOk, PairsUnique, InboxOk, TasksOk, RowInv, LogInv;
    forall id | id in s.db.deliveries ensures s.db.deliveries[id].event in s.db.inbox {
      assert AnchorOk(s.db.channels, s.db.inbox, s.db.deliveries[id]);
    }
  }

  lemma ReachesKeeps(cfg: Config, s: Sys, t: Sys)
    requires Inv(cfg, s) && Reaches(cfg, s, t)
    ensures Inv(cfg, t)
  {
    hide Inv;
    var run :| IsRun(cfg, s, run) && After(cfg, s, run) == t;
    Steps.RunKeeps(cfg, s, run);
  }

  function SendsOf(sends: seq<Task>, id: Uuid): nat {
    if sends == [] then 0
    else SendsOf(sends[..|sends| - 1], id) + if sends[|sends| - 1].id == id then 1 else 0
  }

  /** So no delivery is sent more often than its attempts are limited. */
  lemma {:induction false} SendsBounded(sends: seq<Task>, id: Uuid, limit: nat)
    requires Rising(sends)
    requires forall i :: 0 <= i < |sends| && sends[i].id == id ==> 1 <= sends[i].attempts <= limit
    ensures SendsOf(sends, id) <= limit
    decreases |sends|
  {
    if sends != [] {
      var front, last := sends[..|sends| - 1], sends[|sends| - 1];
      SendsBounded(front, id, if last.id == id then last.attempts - 1 else limit);
    }
  }

  lemma Delivering(cfg: Config, s: Sys, task: Task)
    requires task in s.tasks
    ensures var t := DeliverStep(s, task);
            Reaches(cfg, s, t) && t == s.(db := Store.MarkSent(s.db, task, s.now).0, trail := t.trail)
    ensures !Current(s.db, task) ==> Store.MarkSent(s.db, task, s.now) == (s.db, StaleClaim)
  {
    ReachesStep(cfg, s, Deliver(task));
  }

  lemma Failing(cfg: Config, s: Sys, task: Task, failure: RetryPolicy.Failure, random: real, code: string, row: Uuid)
    requires task in s.tasks && Fresh(s, row)
    ensures var delay := FailDelay(cfg, task.attempts, failure, random);
            var t := FailStep(cfg, s, task, delay, code, row);
            && Reaches(cfg, s, t)
            && t == s.(db := Store.MarkFailed(s.db, task, delay, code, row, s.now).0, used := s.used + {row}, trail := t.trail)
            && (!Current(s.db, task) ==> Store.MarkFailed(s.db, task, delay, code, row, s.now) == (s.db, StaleClaim))
  {
    hide DispatchRow, Insert, FailDelay;
    ReachesStep(cfg, s, Fail(task, failure, random, code, row));
  }

  // ----- Batches -----

  /** What `Block` gives: no two alike, and none of an identifier in use is in use. */
  ghost predicate NewNames(f: Uuid -> Uuid, used: set<Uuid>, bound: Uuid) {
    && (forall id :: id in used ==> id < bound && f(id) !in used && f(id) < bound)
    && (forall i: Uuid, j: Uuid :: f(i) == f(j) ==> i == j)
  }

  /** Row id was claimed under the token, for its next attempt, and its channel is of one of the types. */
  predicate ClaimedAs(before: Db, db: Db, id: Uuid, token: Uuid, types: set<ChannelType>) {
    && id in before.deliveries && id in db.deliveries && db.deliveries[id].status == Processing
    && db.deliveries[id].token == Some(token) && db.deliveries[id].attempts == before.deliveries[id].attempts + 1
    && db.deliveries[id].channel in db.channels && db.channels[db.deliveries[id].channel].kind in types
  }

  lemma OneCollected(before: Db, store: Repository, ids: seq<Uuid>, tokens: Uuid -> Uuid, tasks: Option<seq<Task>>, types: set<ChannelType>)
    requires store.Collected(ids, tokens, tasks) && |ids| <= 1
    requires forall i :: 0 <= i < |ids| ==>
               ids[i] in store.State().deliveries && ClaimedAs(before, store.State(), ids[i], tokens(ids[i]), types)
    ensures HandedAll(store.State(), ids, tokens) == if tasks.Some? then Elements(tasks.value) else {}
    ensures tasks.Some? ==> |tasks.value| <= 1 && forall task :: task in tasks.value ==>
              Current(store.State(), task) && NextAttempt(before, task) && task.channelType in types
  {
    hide HandedOut, TaskOf, Current;
    if ids != [] {
      assert HandedAll(store.State(), ids[1..], tokens) == {};
      if tasks.Some? {
        assert IsTaskOf(store.State(), ids[0], tokens(ids[0]), tasks.value[0]);
        TaskIsCurrent(store.State(), ids[0], tokens(ids[0]));
        assert tasks.value == [TaskOf(store.State(), ids[0], tokens(ids[0]))];
      } else {
        NothingHanded(store.State(), ids[0], tokens(ids[0]));
      }
    }
  }

  lemma NothingHanded(db: Db, id: Uuid, token: Uuid)
    requires id in db.deliveries && db.deliveries[id].event in db.inbox
    requires !db.inbox[db.deliveries[id].event].payload.RequestedJson?
    ensures HandedOut(db, id, token) == {}
  {
  }

  lemma TaskIsCurrent(db: Db, id: Uuid, token: Uuid)
    requires id in db.deliveries && db.deliveries[id].channel in db.channels && db.deliveries[id].event in db.inbox
    requires db.inbox[db.deliveries[id].event].payload.RequestedJson?
    requires db.deliveries[id].status == Processing && db.deliveries[id].token == Some(token)
    ensures HandedOut(db, id, token) == {TaskOf(db, id, token)} && Current(db, TaskOf(db, id, token))
    ensures TaskOf(db, id, token).channelType == db.channels[db.deliveries[id].channel].kind
    ensures TaskOf(db, id, token).id == id && TaskOf(db, id, token).attempts == db.deliveries[id].attempts
  {
  }

  lemma RecoveryBatch(cfg: Config, s: Sys, locked: set<Uuid>, rows: Uuid -> Uuid, bound: Uuid, limit: nat) returns (t: Sys)
    requires s.db.deliveries.Keys <= s.used && NewNames(rows, s.used, bound)
    ensures Reaches(cfg, s, t)
    ensures var ids := Query.Select(RecoveryKeys(s.db, locked, s.now), limit);
            t == s.(db := RecoverAll(s.db, ids, cfg.recoveryLimit, rows, s.now), used := t.used, trail := t.trail)
    ensures forall id :: id in t.used ==> id < bound
  {
    hide Reaches, RecoverAll, Expired;
    var keys := RecoveryKeys(s.db, locked, s.now);
    SelectedDistinct(keys, limit);
    t := RecoverAllReaches(cfg, s, Query.Select(keys, limit), rows);
  }

  lemma ClaimBatch(cfg: Config, s: Sys, locked: set<Uuid>, tokens: Uuid -> Uuid, bound: Uuid, limit: nat, types: set<ChannelType>)
    returns (t: Sys)
    requires s.db.deliveries.Keys <= s.used && NewNames(tokens, s.used, bound)
    ensures Reaches(cfg, s, t)
    ensures var ids := Query.Select(ClaimKeys(s.db, types, locked, s.now), limit);
            && t == s.(db := ClaimAll(s.db, ids, tokens, LeaseEnd(s.now, MINUTE)), tasks := t.tasks, used := t.used)
            && |ids| <= limit && (forall i :: 0 <= i < |ids| ==> ids[i] in t.db.deliveries)
            && t.tasks == s.tasks + HandedAll(t.db, ids, tokens)
            && forall i :: 0 <= i < |ids| ==> ClaimedAs(s.db, t.db, ids[i], tokens(ids[i]), types)
    ensures forall id :: id in t.used ==> id < bound
  {
    hide Reaches, ClaimAll, Claimable, HandedOut, HandedAll, ClaimedAs, Query.Select, Claimed, ClaimKeys;
    var ids := Query.Select(ClaimKeys(s.db, types, locked, s.now), limit);
    var leaseEnd := LeaseEnd(s.now, MINUTE);
    SelectedClaimable(s.db, types, locked, s.now, limit);
    t := ClaimAllReaches(cfg, s, ids, tokens, leaseEnd, types);
    ClaimedRows(s.db, ids, tokens, leaseEnd, types, s.now);
  }

  lemma SelectedClaimable(db: Db, types: set<ChannelType>, locked: set<Uuid>, now: Time, limit: nat)
    ensures var ids := Query.Select(ClaimKeys(db, types, locked, now), limit);
            && Distinct(ids) && |ids| <= limit
            && forall i :: 0 <= i < |ids| ==> ids[i] in db.deliveries && Claimable(db, db.deliveries[ids[i]], types, now)
  {
    hide Claimable, Query.Select;
    var keys := ClaimKeys(db, types, locked, now);
    SelectedDistinct(keys, limit);
    Query.SelectIsTop(keys, limit);
  }

  lemma ClaimedRows(db: Db, ids: seq<Uuid>, tokens: Uuid -> Uuid, lease: Time, types: set<ChannelType>, now: Time)
    requires Distinct(ids)
    requires forall i :: 0 <= i < |ids| ==> ids[i] in db.deliveries && Claimable(db, db.deliveries[ids[i]], types, now)
    ensures forall i :: 0 <= i < |ids| ==> ClaimedAs(db, ClaimAll(db, ids, tokens, lease), ids[i], tokens(ids[i]), types)
  {
    ClaimAllAt(db, ids, tokens, lease);
    hide ClaimAll;
  }

  function ReportOf(reply: Reply, call: Call): Report {
    if !call.Answered? then Errored else if reply == Done then Settled else Stale
  }
}
