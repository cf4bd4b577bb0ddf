/** What the notification services share: the database, Kafka, the clock and the source
    of fresh identifiers. Every service is proved to take only steps of the machine. */
module Runtime {
  import opened Types
  import opened Store
  import opened Machine
  import opened Postgres
  import Contract
  import Invariant
  import Query
  import Relay

  // ----- Reachability -----

  /** Some run of the machine leads from s to t. */
  ghost predicate Reaches(cfg: Config, s: Sys, t: Sys) {
    exists run :: IsRun(cfg, s, run) && After(cfg, s, run) == t
  }

  lemma ReachesSelf(cfg: Config, s: Sys)
    ensures Reaches(cfg, s, s)
  {
    assert IsRun(cfg, s, []) && After(cfg, s, []) == s;
  }

  lemma ReachesStep(cfg: Config, s: Sys, a: Action)
    requires Enabled(s, a)
    ensures Reaches(cfg, s, Apply(cfg, s, a))
  {
    hide Enabled, Apply;
    var t := Apply(cfg, s, a);
    assert IsRun(cfg, t, []) && After(cfg, t, []) == t;
    assert [a][0] == a && [a][1..] == [];
    assert IsRun(cfg, s, [a]) && After(cfg, s, [a]) == t;
  }

  lemma ReachesTrans(cfg: Config, s: Sys, t: Sys, u: Sys)
    requires Reaches(cfg, s, t) && Reaches(cfg, t, u)
    ensures Reaches(cfg, s, u)
  {
    hide Enabled, Apply;
    var a :| IsRun(cfg, s, a) && After(cfg, s, a) == t;
    var b :| IsRun(cfg, t, b) && After(cfg, t, b) == u;
    RunJoin(cfg, s, a, b);
    assert IsRun(cfg, s, a + b);
  }

  // ----- Batches -----

  /** Each id gets an identifier of its own that was never used before. */
  ghost predicate FreshFor(f: Uuid -> Uuid, ids: seq<Uuid>, used: set<Uuid>) {
    && (forall i :: 0 <= i < |ids| ==> f(ids[i]) !in used)
    && (forall i, j :: 0 <= i < j < |ids| ==> f(ids[i]) != f(ids[j]))
  }

  function Images(f: Uuid -> Uuid, ids: seq<Uuid>): set<Uuid> {
    set i | 0 <= i < |ids| :: f(ids[i])
  }

  lemma ClaimStep(cfg: Config, s: Sys, id: Uuid, token: Uuid, lease: Time, types: set<ChannelType>)
    requires id in s.db.deliveries && Claimable(s.db, s.db.deliveries[id], types, s.now) && Fresh(s, token) && s.now <= lease
    ensures var db := ClaimOne(s.db, id, token, lease);
            Reaches(cfg, s, s.(db := db, tasks := s.tasks + HandedOut(db, id, token), used := s.used + {token}))
  {
    hide Claimable, HandedOut;
    ReachesStep(cfg, s, Claim(id, token, lease, types));
  }

  /** Claiming in one statement is claiming one row after another. */
  lemma {:induction false} ClaimAllReaches(
    cfg: Config, s: Sys, ids: seq<Uuid>, tokens: Uuid -> Uuid, lease: Time, types: set<ChannelType>) returns (t: Sys)
    requires Distinct(ids) && FreshFor(tokens, ids, s.used) && s.now <= lease
    requires forall i :: 0 <= i < |ids| ==>
               ids[i] in s.db.deliveries && Claimable(s.db, s.db.deliveries[ids[i]], types, s.now)
    ensures Reaches(cfg, s, t)
    ensures t == s.(db := ClaimAll(s.db, ids, tokens, lease), tasks := t.tasks, used := s.used + Images(tokens, ids))
    ensures forall i :: 0 <= i < |ids| ==> ids[i] in t.db.deliveries
    ensures t.tasks == s.tasks + HandedAll(t.db, ids, tokens)
    decreases |ids|
  {
    hide Reaches, Claimable, HandedOut, Claimed, Images;
    if ids == [] {
      ReachesSelf(cfg, s);
      t := s;
      assert s.used + Images(tokens, ids) == s.used by { NoImages(tokens); }
    } else {
      var id, token := ids[0], tokens(ids[0]);
      var db := ClaimOne(s.db, id, token, lease);
      var next := s.(db := db, tasks := s.tasks + HandedOut(db, id, token), used := s.used + {token});
      ClaimStep(cfg, s, id, token, lease, types);
      assert FreshFor(tokens, ids[1..], next.used);
      StillClaimable(s.db, ids, token, lease, types, s.now);
      t := ClaimAllReaches(cfg, next, ids[1..], tokens, lease, types);
      ReachesTrans(cfg, s, next, t);
      ImagesCons(tokens, ids);
      ClaimAllAt(next.db, ids[1..], tokens, lease);
      assert t.db.deliveries[id] == db.deliveries[id];
      HandsOutSame(t.db, db, id, token);
      assert forall i :: 0 < i < |ids| ==> ids[i] == ids[1..][i - 1];
    }
  }

  /** The tasks a batch hands out. */
  function HandedAll(db: Db, ids: seq<Uuid>, tokens: Uuid -> Uuid): set<Task>
    requires forall i :: 0 <= i < |ids| ==> ids[i] in db.deliveries
    decreases |ids|
  {
    if ids == [] then {} else HandedOut(db, ids[0], tokens(ids[0])) + HandedAll(db, ids[1..], tokens)
  }

  /** Claiming one row leaves the others claimable. */
  lemma StillClaimable(db: Db, ids: seq<Uuid>, token: Uuid, lease: Time, types: set<ChannelType>, now: Time)
    requires Distinct(ids) && ids != []
    requires forall i :: 0 <= i < |ids| ==> ids[i] in db.deliveries && Claimable(db, db.deliveries[ids[i]], types, now)
    ensures var next := ClaimOne(db, ids[0], token, lease);
            forall i :: 0 <= i < |ids[1..]| ==>
              ids[1..][i] in next.deliveries && Claimable(next, next.deliveries[ids[1..][i]], types, now)
  {
  }

  lemma HandsOutSame(a: Db, b: Db, id: Uuid, token: Uuid)
    requires id in a.deliveries && id in b.deliveries && a.deliveries[id] == b.deliveries[id]
    requires a.channels == b.channels && a.inbox == b.inbox
    ensures HandedOut(a, id, token) == HandedOut(b, id, token)
  {
  }

  lemma NoImages(f: Uuid -> Uuid)
    ensures Images(f, []) == {}
  {
  }

  lemma ImagesCons(f: Uuid -> Uuid, ids: seq<Uuid>)
    requires ids != []
    ensures Images(f, ids) == {f(ids[0])} + Images(f, ids[1..])
  {
    forall x | x in Images(f, ids) ensures x in {f(ids[0])} + Images(f, ids[1..]) {
      var i :| 0 <= i < |ids| && x == f(ids[i]);
      if i > 0 { assert ids[1..][i - 1] == ids[i]; }
    }
    forall x | x in Images(f, ids[1..]) ensures x in Images(f, ids) {
      var i :| 0 <= i < |ids[1..]| && x == f(ids[1..][i]);
      assert ids[i + 1] == ids[1..][i];
    }
  }

  lemma RecoverReaches(cfg: Config, s: Sys, id: Uuid, row: Uuid)
    requires id in s.db.deliveries && Expired(s.db.deliveries[id], s.now) && Fresh(s, row)
    ensures Reaches(cfg, s, RecoverStep(cfg, s, id, row))
    ensures var t := RecoverStep(cfg, s, id, row);
            t == s.(db := RecoverOne(s.db, id, cfg.recoveryLimit, row, s.now), used := s.used + {row}, trail := t.trail)
  {
    hide Expired, RecoverOne;
    ReachesStep(cfg, s, Recover(id, row));
  }

  /** One recovery transaction is one recovery step after another. */
  lemma {:induction false} RecoverAllReaches(cfg: Config, s: Sys, ids: seq<Uuid>, rows: Uuid -> Uuid) returns (t: Sys)
    requires Distinct(ids) && FreshFor(rows, ids, s.used)
    requires forall i :: 0 <= i < |ids| ==> ids[i] in s.db.deliveries && Expired(s.db.deliveries[ids[i]], s.now)
    ensures Reaches(cfg, s, t)
    ensures t == s.(db := RecoverAll(s.db, ids, cfg.recoveryLimit, rows, s.now), used := s.used + Images(rows, ids), trail := t.trail)
    decreases |ids|
  {
    hide RecoverOne, RecoverStep, Expired;
    if ids == [] {
      ReachesSelf(cfg, s);
      t := s;
      assert Images(rows, ids) == {};
    } else {
      RecoverReaches(cfg, s, ids[0], rows(ids[0]));
      RecoverKeepsKeys(s.db, ids[0], cfg.recoveryLimit, rows(ids[0]), s.now);
      var next := RecoverStep(cfg, s, ids[0], rows(ids[0]));
      assert FreshFor(rows, ids[1..], next.used);
      t := RecoverAllReaches(cfg, next, ids[1..], rows);
      ReachesTrans(cfg, s, next, t);
      ImagesCons(rows, ids);
    }
  }

  // ----- The shared objects -----

  /** A database or broker call over the network: executed and confirmed, not executed, or
      executed but with the confirmation lost. */
  datatype Call = Answered | Refused | Unanswered

  /** `gen_random_uuid()`: identifiers that were never handed out before. */
  class Generator {
    var next: Uuid

    constructor ()
      ensures next == NIL + 1
    {
      next := NIL + 1;
    }

    /** One identifier. */
    method One() returns (id: Uuid)
      modifies this
      ensures id == old(next) && next == id + 1
    {
      id := next;
      next := next + 1;
    }

    /** One identifier for every element. */
    method ForEach(elements: set<Uuid>) returns (ids: map<Uuid, Uuid>)
      modifies this
      ensures Assigns(ids, elements)
      ensures old(next) <= next && forall i :: i in ids ==> old(next) <= i < next
    {
      ids := map[];
      var left := elements;
      while left != {}
        invariant left <= elements && Assigns(ids, elements - left)
        invariant old(next) <= next && forall i :: i in ids ==> old(next) <= i < next
        decreases left
      {
        var x :| x in left;
        ghost var before, done := ids, elements - left;
        ids := ids[next := x];
        assert elements - (left - {x}) == done + {x};
        forall c | c in done + {x} ensures exists i :: i in ids && ids[i] == c {
          if c == x {
            assert ids[next] == x;
          } else {
            var i :| i in before && before[i] == c;
            assert ids[i] == c;
          }
        }
        left := left - {x};
        next := next + 1;
      }
      assert elements - left == elements;
    }

    /** Takes note of identifiers that others have generated. */
    method Reserve(taken: set<Uuid>)
      modifies this
      ensures old(next) <= next && forall id :: id in taken ==> id < next
    {
      var left := taken;
      while left != {}
        invariant left <= taken && old(next) <= next
        invariant forall id :: id in taken ==> id in left || id < next
        decreases left
      {
        var id :| id in left;
        next := Max(next, id + 1);
        left := left - {id};
      }
    }

    /** One identifier for every identifier handed out so far. */
    method Block() returns (f: Uuid -> Uuid)
      modifies this
      ensures forall id: Uuid :: id < old(next) ==> old(next) <= f(id) < next
      ensures forall i: Uuid, j: Uuid :: f(i) == f(j) ==> i == j
      ensures old(next) <= next
    {
      var base := next;
      f := (id: Uuid) => base + id;
      next := 2 * base;
    }
  }

  class Cluster {
    const events: Relay.Table
    const store: Repository
    const broker: Relay.Broker
    const ids: Generator
    var now: Time
    var handed: set<Task>   // what the workers have been handed so far

    constructor (events: Relay.Table, store: Repository, broker: Relay.Broker, ids: Generator)
      ensures this.events == events && this.store == store && this.broker == broker && this.ids == ids
      ensures now == 0 && handed == {}
    {
      this.events, this.store, this.broker, this.ids := events, store, broker, ids;
      now, handed := 0, {};
    }

    /** The shared objects are in the state s of the machine. */
    ghost predicate Shows(s: Sys)
      reads this, events, store, store.dispatch, broker, ids
    {
      && events != store.dispatch && events.rows == s.events
      && store.State() == s.db && broker.log == s.log && broker.committed == s.committed && now == s.now
      && handed == s.tasks
      && forall id :: id in s.used ==> id < ids.next
    }

    /** Everything there is to see. */
    function View(): Sys
      reads this, events, store, store.dispatch, broker
    {
      Sys(now, store.State(), events.rows, broker.log, broker.committed, handed, {}, map[])
    }

    /** What other services do meanwhile: any steps of the machine, on the shared objects. A
        step that is not possible, or that would use an identifier twice, is left out. */
    method Others(steps: seq<Action>, cfg: Config, ghost s: Sys) returns (ghost run: seq<Action>, ghost t: Sys)
      requires Shows(s)
      modifies this, events, store, store.dispatch, broker, ids
      ensures Shows(t) && IsRun(cfg, s, run) && After(cfg, s, run) == t
      ensures forall a :: a in run ==> a in steps
    {
      hide IsRun, After, Apply, Enabled;
      run, t := [], s;
      NoSteps(cfg, s);
      for i := 0 to |steps|
        invariant Shows(t) && IsRun(cfg, s, run) && After(cfg, s, run) == t
        invariant forall a :: a in run ==> a in steps
      {
        var done := Other(steps[i], cfg, t);
        if done {
          OneMoreStep(cfg, s, run, steps[i]);
          run, t := run + [steps[i]], Apply(cfg, t, steps[i]);
        }
      }
    }

    method Other(a: Action, cfg: Config, ghost s: Sys) returns (done: bool)
      requires Shows(s)
      modifies this, events, store, store.dispatch, broker, ids
      ensures if done then Enabled(s, a) && Shows(Apply(cfg, s, a)) else Shows(s)
    {
      hide Apply, Enabled;
      var x := View();
      done := Enabled(x, a) && forall id :: id in NewIds(a) ==> id >= ids.next;
      if done {
        Observed(cfg, s, x, a);
        var y := Apply(cfg, x, a);
        events.rows, broker.log, broker.committed, now, handed := y.events, y.log, y.committed, y.now, y.tasks;
        store.channels, store.inbox, store.deliveries := y.db.channels, y.db.inbox, y.db.deliveries;
        store.dispatch.rows := y.db.dispatch;
        ids.Reserve(NewIds(a));
      }
    }

    /** One publication by the monolith's relay is one step of the machine, or none. */
    method PublishRequest(relay: Relay.Publisher, locked: set<Uuid>, partitioner: Text -> nat, o: Relay.Outcome,
                  ghost cfg: Config, ghost s: Sys) returns (report: Relay.Report, ghost t: Sys)
      requires Shows(s) && o.Possible() && Routed(s.events)
      requires relay.broker == broker && relay.table == events && relay.source == Relay.RequestsSource
      modifies events, broker`log
      ensures Shows(t) && Reaches(cfg, s, t)
    {
      hide Reaches, Relay.RecordOf, Relay.Settle, Relay.Candidates, Relay.Target, Relay.AppendedIf;
      report := relay.PublishOne(now, locked, partitioner, o);
      if report == Relay.Idle {
        t := s;
        ReachesSelf(cfg, s);
      } else {
        t := RequestRelayed(cfg, s, locked, partitioner, o);
      }
    }

    /** One publication by the notifier's relay is one step of the machine, or none. */
    method PublishDispatch(relay: Relay.Publisher, locked: set<Uuid>, partitioner: Text -> nat, o: Relay.Outcome,
                  ghost cfg: Config, ghost s: Sys) returns (report: Relay.Report, ghost t: Sys)
      requires Shows(s) && o.Possible() && Routed(s.db.dispatch)
      requires relay.broker == broker && relay.table == store.dispatch && relay.source == Relay.DispatchSource
      modifies store.dispatch, broker`log
      ensures Shows(t) && Reaches(cfg, s, t)
    {
      hide Reaches, Relay.RecordOf, Relay.Settle, Relay.Candidates, Relay.Target, Relay.AppendedIf;
      report := relay.PublishOne(now, locked, partitioner, o);
      if report == Relay.Idle {
        t := s;
        ReachesSelf(cfg, s);
      } else {
        t := DispatchRelayed(cfg, s, locked, partitioner, o);
      }
    }
  }

  lemma NoSteps(cfg: Config, s: Sys)
    ensures IsRun(cfg, s, []) && After(cfg, s, []) == s
  {
  }

  lemma OneMoreStep(cfg: Config, s: Sys, run: seq<Action>, a: Action)
    requires IsRun(cfg, s, run) && Enabled(After(cfg, s, run), a)
    ensures IsRun(cfg, s, run + [a]) && After(cfg, s, run + [a]) == Apply(cfg, After(cfg, s, run), a)
  {
    hide Enabled, Apply;
    var t := Apply(cfg, After(cfg, s, run), a);
    assert IsRun(cfg, t, []) && After(cfg, t, []) == t;
    assert [a][0] == a && [a][1..] == [];
    RunJoin(cfg, s, run, [a]);
  }

  // ----- What a step can see -----

  /** The identifiers a step brings into use. */
  function NewIds(a: Action): set<Uuid> {
    match a
    case Intend(id, _, _) => {id}
    case Consume(_, _, ids, _, _, _, _) => ids.Keys
    case Claim(_, token, _, _) => {token}
    case Fail(_, _, _, _, row) => {row}
    case Recover(_, row) => {row}
    case _ => {}
  }

  /** Equal but for the identifiers in use and the trails. */
  predicate SameView(s: Sys, x: Sys) {
    s == x.(used := s.used, trail := s.trail)
  }

  /** No step reads a trail, and the identifiers in use only to avoid them. */
  lemma Observed(cfg: Config, s: Sys, x: Sys, a: Action)
    requires SameView(s, x) && Enabled(x, a) && NewIds(a) !! s.used
    ensures Enabled(s, a) && SameView(Apply(cfg, s, a), Apply(cfg, x, a))
    ensures Apply(cfg, s, a).used <= s.used + NewIds(a)
  {
    ObservedEnabled(s, x, a);
    if a.Consume? {
      hide Enabled, Apply;
      ObservedConsume(cfg, s, x, a);
    } else if a.Deliver? || a.Fail? || a.Recover? {
      hide Enabled, Apply;
      ObservedSettlement(cfg, s, x, a);
    } else {
      hide Enabled;
      hide ConsumeStep, DeliverStep, FailStep, RecoverStep, ClaimOne, HandedOut, Relay.Settle, Relay.RecordOf, Relay.AppendedIf;
      hide Store.CreateChannel, Store.SetChannelEnabled, Store.DeleteChannel;
    }
  }

  lemma ObservedSettlement(cfg: Config, s: Sys, x: Sys, a: Action)
    requires SameView(s, x) && Enabled(x, a) && Enabled(s, a) && (a.Deliver? || a.Fail? || a.Recover?)
    ensures SameView(Apply(cfg, s, a), Apply(cfg, x, a)) && Apply(cfg, s, a).used <= s.used + NewIds(a)
  {
    hide MarkSent, MarkFailed, RecoverOne, Current, Active, Store.Verdict, EndedWith, FailDelay, Expired;
  }

  lemma ObservedEnabled(s: Sys, x: Sys, a: Action)
    requires SameView(s, x) && Enabled(x, a) && NewIds(a) !! s.used
    ensures Enabled(s, a)
  {
    hide Contract.RouteRecord, Assigns, Targets, Claimable, Publishable, Expired;
  }

  lemma ObservedConsume(cfg: Config, s: Sys, x: Sys, a: Action)
    requires SameView(s, x) && Enabled(x, a) && Enabled(s, a) && a.Consume?
    ensures SameView(Apply(cfg, s, a), Apply(cfg, x, a)) && Apply(cfg, s, a).used <= s.used + NewIds(a)
  {
    hide Contract.RouteRecord, Assigns, Targets, Processed, InvalidRecord, Relay.AppendedIf;
  }

  /** Every row names its topic and holds a decodable payload. */
  ghost predicate Routed(rows: Outbox) {
    forall id :: id in rows ==> rows[id].route.Some? && !rows[id].payload.NotJson?
  }

  lemma RoutedAlways(cfg: Config, s: Sys)
    requires Invariant.Inv(cfg, s)
    ensures Routed(s.events) && Routed(s.db.dispatch)
  {
    hide Invariant.DbInv, Invariant.LogInv, Invariant.OriginsUnique, Invariant.RowsComplete;
    forall id | id in s.events ensures s.events[id].route.Some? && !s.events[id].payload.NotJson? {
      assert Invariant.EventOk(id, s.events[id]);
    }
    forall id | id in s.db.dispatch ensures s.db.dispatch[id].route.Some? && !s.db.dispatch[id].payload.NotJson? {
      assert Invariant.RowOk(s.db.dispatch[id], s.db.deliveries, s.trail);
    }
  }

  lemma RequestRelayed(cfg: Config, s: Sys, locked: set<Uuid>, partitioner: Text -> nat, o: Relay.Outcome) returns (t: Sys)
    requires o.Possible() && Relay.Candidates(Relay.RequestsSource, s.events, locked, s.now) != map[] && Routed(s.events)
    ensures Reaches(cfg, s, t)
    ensures var id := Query.First(Relay.Candidates(Relay.RequestsSource, s.events, locked, s.now));
            && id in s.events && !s.events[id].payload.NotJson?
            && t == s.(events := Relay.Settle(s.events, id, s.now, o),
                       log := Relay.AppendedIf(s.log, Relay.Target(s.events[id], partitioner),
                                               Relay.RecordOf(id, s.events[id]), o.appended))
  {
    hide Relay.RecordOf, Relay.Settle;
    var id := Query.First(Relay.Candidates(Relay.RequestsSource, s.events, locked, s.now));
    var a := RelayRequest(id, partitioner(s.events[id].key), o);
    ReachesStep(cfg, s, a);
    t := Apply(cfg, s, a);
  }

  lemma DispatchRelayed(cfg: Config, s: Sys, locked: set<Uuid>, partitioner: Text -> nat, o: Relay.Outcome) returns (t: Sys)
    requires o.Possible() && Relay.Candidates(Relay.DispatchSource, s.db.dispatch, locked, s.now) != map[] && Routed(s.db.dispatch)
    ensures Reaches(cfg, s, t)
    ensures var rows := s.db.dispatch;
            var id := Query.First(Relay.Candidates(Relay.DispatchSource, rows, locked, s.now));
            && id in rows && !rows[id].payload.NotJson?
            && t == s.(db := s.db.(dispatch := Relay.Settle(rows, id, s.now, o)),
                       log := Relay.AppendedIf(s.log, Relay.Target(rows[id], partitioner), Relay.RecordOf(id, rows[id]), o.appended))
  {
    hide Relay.RecordOf, Relay.Settle;
    var id := Query.First(Relay.Candidates(Relay.DispatchSource, s.db.dispatch, locked, s.now));
    var a := RelayDispatch(id, partitioner(s.db.dispatch[id].key), o);
    ReachesStep(cfg, s, a);
    t := Apply(cfg, s, a);
  }
}
