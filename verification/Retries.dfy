/** Retries: never early, never twice, never lost. */
module Retries {
  import opened Types
  import opened Store
  import opened Machine
  import opened Invariant
  import opened Preservation
  import opened Steps
  import opened Jobs
  import Contract
  import Relay

  // ----- Never early -----

  predicate Beyond(j: Job, ran: nat) {
    match j
    case Waits(n, _) => n > ran
    case Runs(n) => n > ran
    case Ended(_) => true
    case Absent => false
  }

  lemma WaitStep(cfg: Config, j: Job, m: Mover, k: Job, now: Time, ran: nat, notBefore: Time)
    requires j == Waits(ran, notBefore) || Beyond(j, ran)
    requires k == j || JobNext(cfg, j, m, k, now)
    ensures k == Waits(ran, notBefore) || Beyond(k, ran)
  {
  }

  /** A job that waits until a time keeps waiting until that time, or has moved beyond it. */
  lemma {:induction false} WaitHolds(cfg: Config, s: Sys, run: seq<Action>, id: Uuid, ran: nat, notBefore: Time)
    requires Inv(cfg, s) && IsRun(cfg, s, run)
    requires JobOf(s, id) == Waits(ran, notBefore) || Beyond(JobOf(s, id), ran)
    ensures JobOf(After(cfg, s, run), id) == Waits(ran, notBefore) || Beyond(JobOf(After(cfg, s, run), id), ran)
    decreases |run|
  {
    hide Inv, Enabled, Apply, JobNext, JobOf, Beyond, MoverOf;
    if run != [] {
      StepRefines(cfg, s, run[0], id);
      StepKeeps(cfg, s, run[0]);
      WaitStep(cfg, JobOf(s, id), MoverOf(cfg, run[0]), JobOf(Apply(cfg, s, run[0]), id), s.now, ran, notBefore);
      WaitHolds(cfg, Apply(cfg, s, run[0]), run[1..], id, ran, notBefore);
    }
  }

  /** A claimable delivery is past the time its job waits for. */
  lemma ClaimIsDue(cfg: Config, s: Sys, id: Uuid)
    requires Inv(cfg, s) && id in s.db.deliveries
    requires s.db.deliveries[id].status == Pending && s.db.deliveries[id].availableAt <= s.now
    ensures JobOf(s, id).Waits? && JobOf(s, id).ran == s.db.deliveries[id].attempts && JobOf(s, id).notBefore <= s.now
  {
    Running(cfg, s, id);
  }

  lemma FailureWaits(cfg: Config, s: Sys, task: Task, delay: int, code: string, row: Uuid)
    requires Inv(cfg, s) && task in s.tasks && Current(s.db, task) && delay > 0
    requires Active(s.db.channels, s.db.deliveries[task.id])
    ensures JobOf(FailStep(cfg, s, task, delay, code, row), task.id) == Waits(task.attempts, s.now + delay)
  {
    RunningTask(cfg, s, task);
    hide Inv, LifeOk, Insert, DispatchRow, SafeCode, RetryTopic;
  }

  /** No early retry, over any run: when attempt k fails at time t and is to be retried after
      d > 0, then whatever happens in between, the next attempt is not claimed before t + d. */
  lemma NoEarlyRetry(cfg: Config, s: Sys, failed: Action, t: Sys, run: seq<Action>, claim: Action)
    requires failed.Fail? && Current(s.db, failed.task) && Active(s.db.channels, s.db.deliveries[failed.task.id])
    requires FailDelay(cfg, failed.task.attempts, failed.failure, failed.random) > 0
    requires Inv(cfg, s) && Enabled(s, failed) && t == Apply(cfg, s, failed) && IsRun(cfg, t, run)
    requires claim.Claim? && claim.id == failed.task.id && claim.id in After(cfg, t, run).db.deliveries
    requires After(cfg, t, run).db.deliveries[claim.id].attempts == failed.task.attempts
    requires Enabled(After(cfg, t, run), claim)
    ensures After(cfg, t, run).now >= s.now + FailDelay(cfg, failed.task.attempts, failed.failure, failed.random)
  {
    hide Inv, Apply, IsRun, After, FailStep, FailDelay, JobOf, Active, Current;
    var delay := FailDelay(cfg, failed.task.attempts, failed.failure, failed.random);
    FailApplies(cfg, s, failed);
    FailureWaits(cfg, s, failed.task, delay, failed.code, failed.newRow);
    StepKeeps(cfg, s, failed);
    hide Enabled;
    WaitHolds(cfg, t, run, claim.id, failed.task.attempts, s.now + delay);
    RunKeeps(cfg, t, run);
    ClaimNeedsDue(cfg, After(cfg, t, run), claim);
  }

  lemma FailApplies(cfg: Config, s: Sys, a: Action)
    requires a.Fail? && Enabled(s, a)
    ensures a.task in s.tasks
    ensures Apply(cfg, s, a) ==
            FailStep(cfg, s, a.task, FailDelay(cfg, a.task.attempts, a.failure, a.random), a.code, a.newRow)
  {
    hide FailStep, FailDelay;
  }

  lemma ClaimNeedsDue(cfg: Config, s: Sys, a: Action)
    requires Inv(cfg, s) && a.Claim? && Enabled(s, a)
    ensures a.id in s.db.deliveries
    ensures JobOf(s, a.id).Waits? && JobOf(s, a.id).ran == s.db.deliveries[a.id].attempts && JobOf(s, a.id).notBefore <= s.now
  {
    hide Inv, Active, JobOf;
    ClaimIsDue(cfg, s, a.id);
  }

  // ----- Never twice -----

  /** A retry event resumes its delivery at most once: after it did, in every later state
      the same event finds nothing to resume, however often and late it is replayed. */
  lemma ResumesOnce(cfg: Config, s: Sys, r: Retry, t: Sys, run: seq<Action>)
    requires Inv(cfg, t) && IsRun(cfg, t, run) && Resumable(s.db, r) && t.db == ResumeRetry(s.db, r, s.now)
    ensures !Resumable(After(cfg, t, run).db, r)
    ensures ResumeRetry(After(cfg, t, run).db, r, After(cfg, t, run).now) == After(cfg, t, run).db
  {
    RunMoves(cfg, t, run, r.deliveryId);
    hide Inv, IsRun, After, Active;
  }

  /** An event of an older attempt never does anything, now or later. */
  lemma OlderEventIgnored(cfg: Config, s: Sys, r: Retry, run: seq<Action>)
    requires Inv(cfg, s) && IsRun(cfg, s, run)
    requires r.deliveryId in s.db.deliveries && r.attemptNo < s.db.deliveries[r.deliveryId].attempts
    ensures ResumeRetry(After(cfg, s, run).db, r, After(cfg, s, run).now) == After(cfg, s, run).db
  {
    RunMoves(cfg, s, run, r.deliveryId);
    hide Inv, IsRun, After, Active;
  }

  // ----- The wire -----

  /** Round trip: the record of any retry row of a reachable state is accepted, and decodes
      to the delivery, event, user and attempt it was written for. */
  lemma RetryRoundTrip(cfg: Config, s: Sys, r: Uuid)
    requires Inv(cfg, s) && r in s.db.dispatch && s.db.dispatch[r].origin.DispatchOf? && s.db.dispatch[r].origin.kind == RetryKind
    ensures var row := s.db.dispatch[r]; var id := row.origin.delivery;
            && id in s.db.deliveries && row.route.Some? && row.key == UuidText(s.db.deliveries[id].user)
            && Contract.RouteRecord(row.route.value, Relay.RecordOf(r, row)) ==
               Contract.Resume(Retry(id, s.db.deliveries[id].event, s.db.deliveries[id].user, row.origin.attempt))
  {
    hide LogInv, Contract.RouteRecord;
    var row := s.db.dispatch[r];
    assert RowOk(row, s.db.deliveries, s.trail);
    assert AnchorOk(s.db.channels, s.db.inbox, s.db.deliveries[row.origin.delivery]);
    RetryRowRoutes(r, row, row.payload.retry, row.route.value);
  }

  // ----- Never lost -----

  /** Consuming one retry record and committing it, without a fault. */
  function ReadAt(p: Part, offset: nat): Action {
    Consume(p, offset, map[], NIL, 0, Relay.DELIVERED, true)
  }

  /** Reading on in one partition: the records from one offset up to another, committed in turn. */
  function ReadOn(p: Part, lo: nat, hi: nat): seq<Action>
    decreases hi - lo
  {
    if lo >= hi then [] else [ReadAt(p, lo)] + ReadOn(p, lo + 1, hi)
  }

  /** The delivery waits for the retry of its attempt k. */
  predicate WaitsFor(s: Sys, id: Uuid, k: nat) {
    id in s.db.deliveries && s.db.deliveries[id].status == RetryWait && s.db.deliveries[id].attempts == k
  }

  /** It has been resumed, ready for attempt k + 1. */
  predicate Resumed(s: Sys, id: Uuid, k: nat) {
    id in s.db.deliveries && s.db.deliveries[id].status == Pending && s.db.deliveries[id].attempts == k
  }

  lemma ReadEnabled(cfg: Config, s: Sys, p: Part)
    requires Inv(cfg, s) && Contract.IsRetryTopic(p.topic) && CommittedAt(s.committed, p) < |LogAt(s.log, p)|
    ensures Enabled(s, ReadAt(p, CommittedAt(s.committed, p)))
  {
    RetryVerdict(s, p, CommittedAt(s.committed, p));
    hide Inv, Contract.RouteRecord, RetryDue, Assigns, Targets;
  }

  lemma ReadProcessed(s: Sys, p: Part, c: nat)
    requires c < |LogAt(s.log, p)| && LogAt(s.log, p)[c].value.DispatchJson?
    requires VerdictAt(s, p, c) == Contract.Resume(LogAt(s.log, p)[c].value.retry)
    ensures !AcceptsNew(s, VerdictAt(s, p, c))
    ensures Processed(s.db, VerdictAt(s, p, c), LogAt(s.log, p)[c].value, map[], s.now) ==
            (ResumeRetry(s.db, LogAt(s.log, p)[c].value.retry, s.now), None)
  {
    hide Contract.RouteRecord, ResumeRetry;
  }

  lemma ReadStep(cfg: Config, s: Sys, p: Part, c: nat)
    requires Inv(cfg, s) && Contract.IsRetryTopic(p.topic) && c < |LogAt(s.log, p)|
    ensures LogAt(s.log, p)[c].value.DispatchJson?
    ensures ConsumeStep(s, p, c, map[], NIL, 0, Relay.DELIVERED, true) ==
            s.(db := ResumeRetry(s.db, LogAt(s.log, p)[c].value.retry, s.now), committed := s.committed[p := c + 1])
  {
    RetryVerdict(s, p, c);
    ReadProcessed(s, p, c);
    hide Inv, VerdictAt, RetryDue, ResumeRetry, Processed, AcceptsNew, ConsumeStep, Contract.IsRetryTopic;
    NothingNew(s, p, c, map[], NIL, 0, Relay.DELIVERED, true, ResumeRetry(s.db, LogAt(s.log, p)[c].value.retry, s.now), None);
  }

  lemma ReadApplies(cfg: Config, s: Sys, p: Part)
    requires Inv(cfg, s) && Contract.IsRetryTopic(p.topic) && CommittedAt(s.committed, p) < |LogAt(s.log, p)|
    ensures var c := CommittedAt(s.committed, p);
            && LogAt(s.log, p)[c].value.DispatchJson? && Enabled(s, ReadAt(p, c))
            && Apply(cfg, s, ReadAt(p, c)) ==
               s.(db := ResumeRetry(s.db, LogAt(s.log, p)[c].value.retry, s.now), committed := s.committed[p := c + 1])
  {
    var c := CommittedAt(s.committed, p);
    hide Inv, Enabled, RetryDue, ResumeRetry, ConsumeStep, Contract.IsRetryTopic;
    ReadEnabled(cfg, s, p);
    ReadStep(cfg, s, p, c);
  }

  lemma ResumeCases(s: Sys, r: Retry, id: Uuid, k: nat)
    requires WaitsFor(s, id, k) || Resumed(s, id, k)
    ensures var t := s.(db := ResumeRetry(s.db, r, s.now)); Resumed(t, id, k) || (WaitsFor(t, id, k) && WaitsFor(s, id, k))
  {
    hide Active;
  }

  lemma ReadOne(cfg: Config, s: Sys, p: Part, id: Uuid, k: nat)
    requires Inv(cfg, s) && Contract.IsRetryTopic(p.topic) && CommittedAt(s.committed, p) < |LogAt(s.log, p)|
    requires WaitsFor(s, id, k) || Resumed(s, id, k)
    ensures var c := CommittedAt(s.committed, p);
            && Enabled(s, ReadAt(p, c))
            && var t := Apply(cfg, s, ReadAt(p, c));
               && t.log == s.log && CommittedAt(t.committed, p) == c + 1
               && (Resumed(t, id, k) || WaitsFor(t, id, k)) && SafeToPass(t, p, c)
  {
    var c := CommittedAt(s.committed, p);
    hide Inv, Enabled, Apply, ResumeRetry;
    ReadApplies(cfg, s, p);
    ResumeCases(s, LogAt(s.log, p)[c].value.retry, id, k);
    StoredRetrySafe(cfg, s, p, c);
  }

  lemma StoredRetrySafe(cfg: Config, s: Sys, p: Part, c: nat)
    requires Inv(cfg, s) && Contract.IsRetryTopic(p.topic) && c < |LogAt(s.log, p)| && LogAt(s.log, p)[c].value.DispatchJson?
    ensures SafeToPass(s.(db := ResumeRetry(s.db, LogAt(s.log, p)[c].value.retry, s.now)), p, c)
  {
    StoredRetry(s, p, c, map[]);
    StoredRetryIsSafe(cfg, s, p, c, map[]);
    hide Inv, Stored;
  }

  /** The consumer, reading its partition in order, resumes a delivery whose retry record
      lies ahead, by the time it has passed that record. */
  lemma {:induction false} ReadingResumes(cfg: Config, s: Sys, p: Part, i: nat, id: Uuid, k: nat)
    requires Inv(cfg, s) && Contract.IsRetryTopic(p.topic) && CommittedAt(s.committed, p) <= i < |LogAt(s.log, p)|
    requires WaitsFor(s, id, k) || Resumed(s, id, k)
    requires LogAt(s.log, p)[i].value.DispatchJson? && LogAt(s.log, p)[i].value.retry.deliveryId == id
    requires LogAt(s.log, p)[i].value.retry.attemptNo == k
    ensures var run := ReadOn(p, CommittedAt(s.committed, p), i + 1);
            IsRun(cfg, s, run) && Resumed(After(cfg, s, run), id, k)
    decreases i - CommittedAt(s.committed, p)
  {
    hide Inv, Enabled, Apply;
    var c := CommittedAt(s.committed, p);
    var a := ReadAt(p, c);
    ReadOne(cfg, s, p, id, k);
    StepKeeps(cfg, s, a);
    var t := Apply(cfg, s, a);
    var rest := ReadOn(p, c + 1, i + 1);
    assert ReadOn(p, c, i + 1) == [a] + rest;
    if c < i {
      ReadingResumes(cfg, t, p, i, id, k);
    } else {
      assert rest == [] && IsRun(cfg, t, rest) && After(cfg, t, rest) == t;
    }
    Prepend(cfg, s, a, rest);
  }

  lemma NoSteps(cfg: Config, s: Sys)
    ensures IsRun(cfg, s, []) && After(cfg, s, []) == s
  {
  }

  lemma Prepend(cfg: Config, s: Sys, a: Action, rest: seq<Action>)
    requires Enabled(s, a) && IsRun(cfg, Apply(cfg, s, a), rest)
    ensures IsRun(cfg, s, [a] + rest) && After(cfg, s, [a] + rest) == After(cfg, Apply(cfg, s, a), rest)
  {
    hide Enabled, Apply;
    assert ([a] + rest)[0] == a && ([a] + rest)[1..] == rest;
  }

  /** The retry record of a carried retry, found in the log. */
  lemma CarriedRecord(cfg: Config, s: Sys, id: Uuid, k: nat, r: Uuid) returns (p: Part, i: nat)
    requires Inv(cfg, s) && r in s.db.dispatch && s.db.dispatch[r].route.Some?
    requires s.db.dispatch[r].origin == DispatchOf(id, k, RetryKind)
    requires Ahead(s.log, s.committed, s.db.dispatch[r].route.value, Relay.RecordOf(r, s.db.dispatch[r]))
    ensures Contract.IsRetryTopic(p.topic) && CommittedAt(s.committed, p) <= i < |LogAt(s.log, p)|
    ensures var value := LogAt(s.log, p)[i].value;
            value.DispatchJson? && value.retry.deliveryId == id && value.retry.attemptNo == k
  {
    var row := s.db.dispatch[r];
    assert RowOk(row, s.db.deliveries, s.trail);
    var rec := Relay.RecordOf(r, row);
    assert rec.value == row.payload;
    hide Inv, Relay.RecordOf;
    p, i :| p in s.log && p.topic == row.route.value && CommittedAt(s.committed, p) <= i < |s.log[p]| && s.log[p][i] == rec;
  }

  /** No retry is lost: from every reachable state, a delivery that waits for a retry is
      resumed by a run in which time passes, the relay publishes one row, and the consumer
      reads on; no other help is needed. It takes no longer than until the row r that
      carries the retry is available, which is when the retry is due if the relay has not
      tried it yet. */
  lemma WaitingIsResumed(cfg: Config, s: Sys, id: Uuid) returns (run: seq<Action>, r: Uuid)
    requires Inv(cfg, s) && id in s.db.deliveries && s.db.deliveries[id].status == RetryWait
    ensures forall a :: a in run ==> a.Tick? || a.RelayDispatch? || (a.Consume? && a.commit)
    ensures IsRun(cfg, s, run) && Resumed(After(cfg, s, run), id, s.db.deliveries[id].attempts)
    ensures r in s.db.dispatch && s.db.dispatch[r].origin == DispatchOf(id, s.db.deliveries[id].attempts, RetryKind)
    ensures var row := s.db.dispatch[r];
            && After(cfg, s, run).now == (if row.publishedAt.Some? then s.now else Max(s.now, row.availableAt))
            && (Untried(row) && JobOf(s, id).Waits? ==> row.availableAt == JobOf(s, id).notBefore)
  {
    hide Inv, Ahead, Enabled, Apply, IsRun, After, Relay.RecordOf, JobOf, Untried;
    var k := s.db.deliveries[id].attempts;
    r := CarryingRow(cfg, s, id);
    UntriedIsDue(cfg, s, id, r);
    if s.db.dispatch[r].publishedAt.Some? {
      run := AheadIsResumed(cfg, s, id, k, r);
    } else {
      var elapsed := Max(0, s.db.dispatch[r].availableAt - s.now);
      var t := s.(now := s.now + elapsed);
      Ticks(cfg, s, elapsed);
      TickKeeps(cfg, s, elapsed);
      var u := PublishWaiting(cfg, t, id, k, r);
      var rest := AheadIsResumed(cfg, u, id, k, r);
      Prepend(cfg, t, RelayDispatch(r, 0, Relay.DELIVERED), rest);
      Prepend(cfg, s, Tick(elapsed), [RelayDispatch(r, 0, Relay.DELIVERED)] + rest);
      run := [Tick(elapsed)] + ([RelayDispatch(r, 0, Relay.DELIVERED)] + rest);
    }
  }

  /** The relay has not tried the row. */
  predicate Untried(row: OutboxRow) {
    row.publishedAt.None? && row.attempts == 0
  }

  lemma UntriedIsDue(cfg: Config, s: Sys, id: Uuid, r: Uuid)
    requires Inv(cfg, s) && id in s.db.deliveries && r in s.db.dispatch
    requires s.db.dispatch[r].origin == DispatchOf(id, s.db.deliveries[id].attempts, RetryKind)
    ensures Untried(s.db.dispatch[r]) && JobOf(s, id).Waits? ==> s.db.dispatch[r].availableAt == JobOf(s, id).notBefore
  {
    hide DbInv, LogInv;
    assert RowOk(s.db.dispatch[r], s.db.deliveries, s.trail);
  }

  lemma {:induction false} TimeStands(cfg: Config, s: Sys, run: seq<Action>)
    requires IsRun(cfg, s, run) && forall a :: a in run ==> a.Consume?
    ensures After(cfg, s, run).now == s.now
    decreases |run|
  {
    hide Enabled, Apply;
    if run != [] {
      assert run[0] in run && forall a :: a in run[1..] ==> a in run;
      ConsumeTakesNoTime(cfg, s, run[0]);
      TimeStands(cfg, Apply(cfg, s, run[0]), run[1..]);
    }
  }

  lemma ConsumeTakesNoTime(cfg: Config, s: Sys, a: Action)
    requires Enabled(s, a) && a.Consume?
    ensures Apply(cfg, s, a).now == s.now
  {
    hide Contract.RouteRecord, Processed, InvalidRecord, Relay.AppendedIf, Assigns, Targets;
  }

  /** No late retry, over any run: when an attempt fails at time t and is to be retried after
      d > 0, then at whatever later time, as long as the delivery waits and the relay has not
      tried its row, it can be resumed at t + d, or at once if that is past. */
  lemma RetryOnTime(cfg: Config, s: Sys, failed: Action, t: Sys, run: seq<Action>, u: Sys) returns (rest: seq<Action>)
    requires failed.Fail? && Current(s.db, failed.task) && Active(s.db.channels, s.db.deliveries[failed.task.id])
    requires FailDelay(cfg, failed.task.attempts, failed.failure, failed.random) > 0
    requires Inv(cfg, s) && Enabled(s, failed) && t == Apply(cfg, s, failed) && IsRun(cfg, t, run) && u == After(cfg, t, run)
    requires failed.task.id in u.db.deliveries && u.db.deliveries[failed.task.id].status == RetryWait
    requires u.db.deliveries[failed.task.id].attempts == failed.task.attempts
    requires forall r :: r in u.db.dispatch && u.db.dispatch[r].origin == DispatchOf(failed.task.id, failed.task.attempts, RetryKind) ==>
               Untried(u.db.dispatch[r])
    ensures forall a :: a in rest ==> a.Tick? || a.RelayDispatch? || (a.Consume? && a.commit)
    ensures IsRun(cfg, u, rest) && Resumed(After(cfg, u, rest), failed.task.id, failed.task.attempts)
    ensures After(cfg, u, rest).now ==
            Max(u.now, s.now + FailDelay(cfg, failed.task.attempts, failed.failure, failed.random))
  {
    hide Inv, Apply, IsRun, After, FailStep, FailDelay, Active, Current;
    var delay := FailDelay(cfg, failed.task.attempts, failed.failure, failed.random);
    FailApplies(cfg, s, failed);
    FailureWaits(cfg, s, failed.task, delay, failed.code, failed.newRow);
    StepKeeps(cfg, s, failed);
    hide Enabled;
    WaitHolds(cfg, t, run, failed.task.id, failed.task.attempts, s.now + delay);
    RunKeeps(cfg, t, run);
    StillWaits(cfg, u, failed.task.id, failed.task.attempts, s.now + delay);
    hide JobOf;
    var r;
    rest, r := WaitingIsResumed(cfg, u, failed.task.id);
  }

  lemma StillWaits(cfg: Config, u: Sys, id: Uuid, k: nat, notBefore: Time)
    requires Inv(cfg, u) && id in u.db.deliveries && u.db.deliveries[id].status == RetryWait && u.db.deliveries[id].attempts == k
    requires JobOf(u, id) == Waits(k, notBefore) || Beyond(JobOf(u, id), k)
    ensures JobOf(u, id) == Waits(k, notBefore)
  {
    Running(cfg, u, id);
    hide Inv, LifeOk;
  }

  lemma CarryingRow(cfg: Config, s: Sys, id: Uuid) returns (r: Uuid)
    requires Inv(cfg, s) && id in s.db.deliveries && s.db.deliveries[id].status == RetryWait
    ensures Carries(r, s.db.dispatch, s.log, s.committed, id, s.db.deliveries[id].attempts)
  {
    hide Carries;
    r :| Carries(r, s.db.dispatch, s.log, s.committed, id, s.db.deliveries[id].attempts);
  }

  lemma AheadIsResumed(cfg: Config, s: Sys, id: Uuid, k: nat, r: Uuid) returns (run: seq<Action>)
    requires Inv(cfg, s) && WaitsFor(s, id, k) && r in s.db.dispatch && s.db.dispatch[r].route.Some?
    requires s.db.dispatch[r].origin == DispatchOf(id, k, RetryKind)
    requires Ahead(s.log, s.committed, s.db.dispatch[r].route.value, Relay.RecordOf(r, s.db.dispatch[r]))
    ensures forall a :: a in run ==> a.Consume? && a.commit
    ensures IsRun(cfg, s, run) && Resumed(After(cfg, s, run), id, k) && After(cfg, s, run).now == s.now
  {
    hide Inv, Ahead, IsRun, After, Relay.RecordOf;
    var p, i := CarriedRecord(cfg, s, id, k, r);
    ReadingResumes(cfg, s, p, i, id, k);
    run := ReadOn(p, CommittedAt(s.committed, p), i + 1);
    ReadsOnly(p, CommittedAt(s.committed, p), i + 1);
    TimeStands(cfg, s, run);
  }

  lemma Ticks(cfg: Config, s: Sys, elapsed: nat)
    ensures Enabled(s, Tick(elapsed)) && Apply(cfg, s, Tick(elapsed)) == s.(now := s.now + elapsed)
  {
  }

  lemma {:induction false} ReadsOnly(p: Part, lo: nat, hi: nat)
    ensures forall a :: a in ReadOn(p, lo, hi) ==> a.Consume? && a.commit
    decreases hi - lo
  {
    if lo < hi {
      ReadsOnly(p, lo + 1, hi);
    }
  }

  lemma PublishWaiting(cfg: Config, s: Sys, id: Uuid, k: nat, r: Uuid) returns (t: Sys)
    requires Inv(cfg, s) && WaitsFor(s, id, k) && r in s.db.dispatch && s.db.dispatch[r].route.Some?
    requires s.db.dispatch[r].origin == DispatchOf(id, k, RetryKind)
    requires s.db.dispatch[r].publishedAt.None? && s.db.dispatch[r].availableAt <= s.now
    ensures var a := RelayDispatch(r, 0, Relay.DELIVERED); Enabled(s, a) && t == Apply(cfg, s, a) && t.now == s.now
    ensures Inv(cfg, t) && WaitsFor(t, id, k) && r in t.db.dispatch && t.db.dispatch[r].route.Some?
    ensures t.db.dispatch[r].origin == DispatchOf(id, k, RetryKind)
    ensures Ahead(t.log, t.committed, t.db.dispatch[r].route.value, Relay.RecordOf(r, t.db.dispatch[r]))
  {
    var row := s.db.dispatch[r];
    PublishApplies(cfg, s, r);
    StepKeeps(cfg, s, RelayDispatch(r, 0, Relay.DELIVERED));
    OffsetsFrom(cfg, s);
    hide Inv, Relay.RecordOf, Ahead, Enabled, Apply;
    Relay.SettleKeeps(Relay.DispatchSource, s.db.dispatch, r, s.log, Part(row.route.value, 0), s.now, Relay.DELIVERED);
    AppendedAhead(s.log, s.committed, Part(row.route.value, 0), Relay.RecordOf(r, row));
    t := Apply(cfg, s, RelayDispatch(r, 0, Relay.DELIVERED));
  }

  lemma OffsetsFrom(cfg: Config, s: Sys)
    requires Inv(cfg, s)
    ensures OffsetsOk(s.log, s.committed)
  {
  }

  lemma PublishApplies(cfg: Config, s: Sys, r: Uuid)
    requires Inv(cfg, s) && r in s.db.dispatch && s.db.dispatch[r].publishedAt.None? && s.db.dispatch[r].availableAt <= s.now
    ensures var a := RelayDispatch(r, 0, Relay.DELIVERED);
            && s.db.dispatch[r].route.Some? && Enabled(s, a)
            && Apply(cfg, s, a) ==
               s.(db := s.db.(dispatch := Relay.Settle(s.db.dispatch, r, s.now, Relay.DELIVERED)),
                  log := Appended(s.log, Part(s.db.dispatch[r].route.value, 0), Relay.RecordOf(r, s.db.dispatch[r])))
  {
    hide Inv, Relay.RecordOf, Relay.Settle;
    RowRouted(cfg, s, r);
  }

  lemma RowRouted(cfg: Config, s: Sys, r: Uuid)
    requires Inv(cfg, s) && r in s.db.dispatch
    ensures s.db.dispatch[r].route.Some? && s.db.dispatch[r].payload.DispatchJson?
  {
    hide DbInv, LogInv;
    assert RowOk(s.db.dispatch[r], s.db.deliveries, s.trail);
  }
}
