/** Stale workers are fenced: only the current claim of a delivery can settle it. */
module Fencing {
  import opened Types
  import opened Store
  import opened Machine
  import opened Invariant
  import opened Steps
  import Contract
  import Jobs
  import Relay

  /** Settling with a claim that is not current is refused and changes nothing in the
      database: no delivery, no outbox row. */
  lemma StaleSettleRefused(cfg: Config, s: Sys, task: Task, delay: int, code: string, row: Uuid)
    requires !Current(s.db, task)
    ensures MarkSent(s.db, task, s.now) == (s.db, StaleClaim)
    ensures MarkFailed(s.db, task, delay, code, row, s.now) == (s.db, StaleClaim)
    ensures DeliverStep(s, task) == s
    ensures FailStep(cfg, s, task, delay, code, row) == s.(used := s.used + {row})
  {
  }

  /** At most one of all the tasks ever handed out is current for a delivery. */
  lemma OneCurrent(cfg: Config, s: Sys, t: Task, u: Task)
    requires Inv(cfg, s) && t in s.tasks && u in s.tasks && t.id == u.id
    requires Current(s.db, t) && Current(s.db, u)
    ensures t == u
  {
  }

  lemma StaleAfterStep(cfg: Config, s: Sys, a: Action, task: Task)
    requires Inv(cfg, s) && Enabled(s, a) && task in s.tasks && !Current(s.db, task)
    ensures task in Apply(cfg, s, a).tasks && !Current(Apply(cfg, s, a).db, task)
  {
    Jobs.StepMoves(cfg, s, a);
    StepKeeps(cfg, s, a);
    TaskIsKnown(cfg, s, task);
    TokenIffProcessing(cfg, s, task.id);
    hide Inv, Enabled, Apply;
    assert Jobs.Moved(s.db.deliveries[task.id], Apply(cfg, s, a).db.deliveries[task.id], s.used);
  }

  lemma TaskIsKnown(cfg: Config, s: Sys, task: Task)
    requires Inv(cfg, s) && task in s.tasks
    ensures task.id in s.db.deliveries && task.token in s.used && task.attempts <= s.db.deliveries[task.id].attempts
  {
    assert TaskOk(task, s.db.deliveries, s.used);
  }

  lemma TokenIffProcessing(cfg: Config, s: Sys, id: Uuid)
    requires Inv(cfg, s) && id in s.db.deliveries
    ensures s.db.deliveries[id].token.Some? <==> s.db.deliveries[id].status == Processing
  {
    Running(cfg, s, id);
  }

  /** Fencing over runs: once a claim is not current, no run makes it current again,
      whatever other workers, recoveries and claims do. */
  lemma {:induction false} StaleForever(cfg: Config, s: Sys, run: seq<Action>, task: Task)
    requires Inv(cfg, s) && IsRun(cfg, s, run) && task in s.tasks && !Current(s.db, task)
    ensures task in After(cfg, s, run).tasks && !Current(After(cfg, s, run).db, task)
    decreases |run|
  {
    hide Inv, Enabled, Apply;
    if run != [] {
      StaleAfterStep(cfg, s, run[0], task);
      StepKeeps(cfg, s, run[0]);
      StaleForever(cfg, Apply(cfg, s, run[0]), run[1..], task);
    }
  }

  // Settling and recovering both end the claim.

  lemma DeliveredIsStale(s: Sys, task: Task)
    ensures !Current(DeliverStep(s, task).db, task)
  {
  }

  lemma FailedIsStale(cfg: Config, s: Sys, task: Task, delay: int, code: string, row: Uuid)
    ensures !Current(FailStep(cfg, s, task, delay, code, row).db, task)
  {
    hide Insert, DispatchRow, SafeCode, RetryTopic;
  }

  lemma RecoveredIsStale(cfg: Config, s: Sys, task: Task, row: Uuid)
    requires task.id in s.db.deliveries
    ensures !Current(RecoverStep(cfg, s, task.id, row).db, task)
  {
    hide Insert, DispatchRow;
  }

  /** Settles the task, or recovers its claim. */
  predicate EndsClaim(a: Action, task: Task) {
    a == Deliver(task) || (a.Fail? && a.task == task) || (a.Recover? && a.id == task.id)
  }

  lemma EndedIsStale(cfg: Config, s: Sys, a: Action, task: Task)
    requires Enabled(s, a) && EndsClaim(a, task)
    ensures !Current(Apply(cfg, s, a).db, task)
  {
    hide Current, DeliverStep, FailStep, RecoverStep, FailDelay, Expired;
    match a
    case Deliver(_) => DeliveredIsStale(s, task);
    case Fail(_, failure, random, code, row) =>
      FailedIsStale(cfg, s, task, FailDelay(cfg, task.attempts, failure, random), code, row);
    case Recover(_, row) => RecoveredIsStale(cfg, s, task, row);
  }

  /** So in any run a claim is settled at most once, by one worker or by the recovery:
      after that, every later settlement with it is refused. */
  lemma SettlesOnce(cfg: Config, s: Sys, a: Action, run: seq<Action>, task: Task)
    requires Inv(cfg, s) && Enabled(s, a) && IsRun(cfg, Apply(cfg, s, a), run) && task in s.tasks && EndsClaim(a, task)
    ensures !Current(After(cfg, Apply(cfg, s, a), run).db, task)
  {
    hide Inv, Enabled, Apply, Current, EndsClaim;
    EndedIsStale(cfg, s, a, task);
    StepKeeps(cfg, s, a);
    Jobs.StepMoves(cfg, s, a);
    StaleForever(cfg, Apply(cfg, s, a), run, task);
  }

  /** A claim handed out under an earlier attempt is never current: superseded means stale. */
  lemma SupersededIsStale(cfg: Config, s: Sys, task: Task)
    requires Inv(cfg, s) && task in s.tasks && task.id in s.db.deliveries
    requires task.attempts < s.db.deliveries[task.id].attempts
    ensures !Current(s.db, task)
  {
    assert TaskOk(task, s.db.deliveries, s.used);
  }

  // ----- One task for each attempt -----

  /** No attempt was ever handed out twice. */
  ghost predicate AttemptsApart(tasks: set<Task>) {
    forall t, u :: t in tasks && u in tasks && t.id == u.id && t.attempts == u.attempts ==> t == u
  }

  /** The claim hands out at most one task, of a later attempt than all before. */
  lemma ClaimApart(cfg: Config, s: Sys, a: Action)
    requires Inv(cfg, s) && a.Claim? && Enabled(s, a) && AttemptsApart(s.tasks)
    ensures AttemptsApart(Apply(cfg, s, a).tasks)
  {
    hide Active, RowInv, LogInv, LivesOk, AnchorsOk, PairsUnique, InboxOk, UsedOk;
    var db := ClaimOne(s.db, a.id, a.token, a.lease);
    assert forall t :: t in HandedOut(db, a.id, a.token) ==> t.id == a.id && t.attempts == s.db.deliveries[a.id].attempts + 1;
    assert forall t, u :: t in HandedOut(db, a.id, a.token) && u in HandedOut(db, a.id, a.token) ==> t == u;
    assert forall t :: t in s.tasks ==> TaskOk(t, s.db.deliveries, s.used);
    hide HandedOut;
  }

  lemma OnlyClaimsHandOut(cfg: Config, s: Sys, a: Action)
    requires Enabled(s, a) && !a.Claim?
    ensures Apply(cfg, s, a).tasks == s.tasks
  {
    hide Contract.RouteRecord, Processed, InvalidRecord, Relay.RecordOf, Relay.Settle, Assigns, Targets, AcceptsNew;
    hide Store.MarkSent, Store.MarkFailed, RecoverOne, FailDelay, Current, Active, Store.Verdict;
    hide Store.CreateChannel, Store.SetChannelEnabled, Store.DeleteChannel;
  }

  /** In every state of every run, with any number of workers and whatever the recovery and
      the others do, an attempt of a delivery has been handed out at most once. */
  lemma {:induction false} OneTaskPerAttempt(cfg: Config, s: Sys, run: seq<Action>)
    requires Inv(cfg, s) && AttemptsApart(s.tasks) && IsRun(cfg, s, run)
    ensures AttemptsApart(After(cfg, s, run).tasks)
    decreases |run|
  {
    hide Inv, Enabled, Apply, AttemptsApart;
    if run != [] {
      if run[0].Claim? {
        ClaimApart(cfg, s, run[0]);
      } else {
        OnlyClaimsHandOut(cfg, s, run[0]);
      }
      StepKeeps(cfg, s, run[0]);
      OneTaskPerAttempt(cfg, Apply(cfg, s, run[0]), run[1..]);
    }
  }

  function TasksOf(tasks: set<Task>, id: Uuid): set<Task> {
    set t | t in tasks && t.id == id
  }

  /** Starting from the empty system, all workers together are handed a delivery at most as
      often as its attempts are limited, so its message goes out no more often than that. */
  lemma HandedOutBounded(cfg: Config, run: seq<Action>, id: Uuid)
    requires cfg.Valid() && IsRun(cfg, INIT, run)
    ensures |TasksOf(After(cfg, INIT, run).tasks, id)| <= cfg.Limit()
  {
    InitInv(cfg);
    assert AttemptsApart(INIT.tasks);
    hide Inv, Enabled, Apply, AttemptsApart, TasksOf;
    OneTaskPerAttempt(cfg, INIT, run);
    RunKeeps(cfg, INIT, run);
    var s := After(cfg, INIT, run);
    TasksNumbered(cfg, s, id);
    CountByAttempt(TasksOf(s.tasks, id), cfg.Limit());
  }

  lemma TasksNumbered(cfg: Config, s: Sys, id: Uuid)
    requires Inv(cfg, s) && AttemptsApart(s.tasks)
    ensures forall t :: t in TasksOf(s.tasks, id) ==> 1 <= t.attempts <= cfg.Limit()
    ensures forall t, u :: t in TasksOf(s.tasks, id) && u in TasksOf(s.tasks, id) && t.attempts == u.attempts ==> t == u
  {
    hide AnchorsOk, PairsUnique, InboxOk, UsedOk, RowInv, LogInv;
    forall t | t in TasksOf(s.tasks, id) ensures 1 <= t.attempts <= cfg.Limit() {
      assert TaskOk(t, s.db.deliveries, s.used);
      assert LifeOk(s.db.deliveries[t.id], s.trail[t.id], cfg.Limit());
    }
  }

  lemma {:induction false} CountByAttempt(tasks: set<Task>, limit: nat)
    requires forall t :: t in tasks ==> 1 <= t.attempts <= limit
    requires forall t, u :: t in tasks && u in tasks && t.attempts == u.attempts ==> t == u
    ensures |tasks| <= limit
    decreases limit
  {
    if tasks != {} {
      var top := set t | t in tasks && t.attempts == limit;
      if top != {} {
        var x :| x in top;
        assert top == {x};
      }
      CountByAttempt(tasks - top, limit - 1);
    }
  }
}
