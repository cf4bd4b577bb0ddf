/** The books: the schema's constraints, and where every attempt went. */
module Accounting {
  import opened Types
  import opened Store
  import opened Machine
  import opened Invariant
  import opened Preservation
  import opened Steps
  import Contract

  // ----- The constraints of the migrations, as the schema states them -----

  predicate LeaseCheck(d: Delivery) {
    d.status == Processing <==> d.token.Some? && d.lease.Some?
  }

  predicate SentCheck(d: Delivery) {
    d.status == Sent <==> d.sentAt.Some?
  }

  predicate TopicKindCheck(row: OutboxRow) {
    row.origin.DispatchOf? && row.route.Some? &&
    match row.origin.kind
    case DlqKind => row.route.value == DeadLetters
    case RetryKind => row.route.value in {Retry1m, Retry10m, Retry1h}
  }

  ghost predicate DeliveriesSchema(db: Db) {
    && (forall id :: id in db.deliveries ==> LeaseCheck(db.deliveries[id]) && SentCheck(db.deliveries[id]))
    && (forall id :: id in db.deliveries ==>
          db.deliveries[id].event in db.inbox && db.inbox[db.deliveries[id].event].user == db.deliveries[id].user)
    && (forall x, y ::
          (x in db.deliveries && y in db.deliveries && db.deliveries[x].event == db.deliveries[y].event
           && db.deliveries[x].channel == db.deliveries[y].channel) ==> x == y)
  }

  ghost predicate InboxSchema(db: Db) {
    forall e :: e in db.inbox ==>
      && db.inbox[e].payload.RequestedJson? && db.inbox[e].payload.event.eventId == e
      && db.inbox[e].payload.event.userId == db.inbox[e].user
  }

  ghost predicate DispatchSchema(db: Db) {
    && (forall r :: r in db.dispatch ==>
          && TopicKindCheck(db.dispatch[r]) && db.dispatch[r].origin.attempt > 0
          && db.dispatch[r].origin.delivery in db.deliveries
          && db.dispatch[r].key == UuidText(db.deliveries[db.dispatch[r].origin.delivery].user))
    && (forall r, q :: r in db.dispatch && q in db.dispatch && db.dispatch[r].origin == db.dispatch[q].origin ==> r == q)
  }

  lemma DeliveriesSchemaHolds(cfg: Config, s: Sys)
    requires Inv(cfg, s)
    ensures DeliveriesSchema(s.db)
  {
    forall id | id in s.db.deliveries
      ensures LeaseCheck(s.db.deliveries[id]) && SentCheck(s.db.deliveries[id])
      ensures s.db.deliveries[id].event in s.db.inbox && s.db.inbox[s.db.deliveries[id].event].user == s.db.deliveries[id].user
    {
      Running(cfg, s, id);
    }
    hide RowInv, LogInv, LivesOk, AnchorsOk, TasksOk, UsedOk, InboxOk;
    forall x, y | x in s.db.deliveries && y in s.db.deliveries && SamePair(s.db.deliveries[x], s.db.deliveries[y])
      ensures x == y
    {
    }
  }

  lemma DispatchSchemaHolds(cfg: Config, s: Sys)
    requires Inv(cfg, s)
    ensures DispatchSchema(s.db)
  {
    hide DbInv, LogInv, RowsComplete, EventsOk;
    forall r | r in s.db.dispatch
      ensures TopicKindCheck(s.db.dispatch[r]) && s.db.dispatch[r].origin.attempt > 0
      ensures s.db.dispatch[r].origin.delivery in s.db.deliveries
      ensures s.db.dispatch[r].key == UuidText(s.db.deliveries[s.db.dispatch[r].origin.delivery].user)
    {
      assert RowOk(s.db.dispatch[r], s.db.deliveries, s.trail);
    }
  }

  /** Every state of every run meets the schema, so no update of any step is rejected by it. */
  lemma SchemaHolds(cfg: Config, s: Sys, run: seq<Action>)
    requires Inv(cfg, s) && IsRun(cfg, s, run)
    ensures var db := After(cfg, s, run).db; DeliveriesSchema(db) && InboxSchema(db) && DispatchSchema(db)
  {
    RunKeeps(cfg, s, run);
    var t := After(cfg, s, run);
    hide After, IsRun, DeliveriesSchema, DispatchSchema, RowInv, LogInv;
    DeliveriesSchemaHolds(cfg, t);
    DispatchSchemaHolds(cfg, t);
  }

  // ----- Where every attempt went -----

  function Count(ended: seq<Ending>, e: Ending): nat {
    if ended == [] then 0
    else Count(ended[..|ended| - 1], e) + (if ended[|ended| - 1] == e then 1 else 0)
  }

  /** Every ended attempt is counted under exactly one ending. */
  lemma {:induction false} CountsAddUp(ended: seq<Ending>)
    ensures |ended| == Count(ended, Retried) + Count(ended, DeadLettered) + Count(ended, Recovered)
                       + Count(ended, CutOff) + Count(ended, Delivered)
  {
    if ended != [] {
      CountsAddUp(ended[..|ended| - 1]);
    }
  }

  /** The dispatch rows of one kind about the first n attempts of a delivery. */
  function RowsUpTo(dispatch: Outbox, id: Uuid, kind: Kind, n: nat): set<Uuid> {
    set r | r in dispatch && dispatch[r].origin.DispatchOf? && dispatch[r].origin.delivery == id
            && dispatch[r].origin.kind == kind && 1 <= dispatch[r].origin.attempt <= n
  }

  function RowsOf(dispatch: Outbox, id: Uuid, kind: Kind): set<Uuid> {
    set r | r in dispatch && dispatch[r].origin.DispatchOf? && dispatch[r].origin.delivery == id
            && dispatch[r].origin.kind == kind
  }

  /** There is one row for each attempt that ended in a report of that kind, and no other. */
  lemma {:induction false} RowsMatchEndings(s: Sys, id: Uuid, kind: Kind, n: nat)
    requires RowInv(s) && id in s.trail && n <= |s.trail[id].ended|
    ensures |RowsUpTo(s.db.dispatch, id, kind, n)| == Count(s.trail[id].ended[..n], EndingOf(kind))
    decreases n
  {
    var ended := s.trail[id].ended;
    if n == 0 {
      assert RowsUpTo(s.db.dispatch, id, kind, 0) == {};
    } else {
      RowsMatchEndings(s, id, kind, n - 1);
      assert ended[..n][..n - 1] == ended[..n - 1] && ended[..n][n - 1] == ended[n - 1];
      NthRow(s, id, kind, n);
    }
  }

  lemma OneMore(dispatch: Outbox, id: Uuid, kind: Kind, n: nat, r: Uuid)
    requires OriginsUnique(dispatch) && n > 0 && r in dispatch && dispatch[r].origin == DispatchOf(id, n, kind)
    ensures RowsUpTo(dispatch, id, kind, n) == RowsUpTo(dispatch, id, kind, n - 1) + {r}
    ensures r !in RowsUpTo(dispatch, id, kind, n - 1)
  {
  }

  lemma NoneMore(dispatch: Outbox, id: Uuid, kind: Kind, n: nat)
    requires n > 0 && forall r :: r in dispatch ==> dispatch[r].origin != DispatchOf(id, n, kind)
    ensures RowsUpTo(dispatch, id, kind, n) == RowsUpTo(dispatch, id, kind, n - 1)
  {
  }

  /** Attempt n has one row of the kind if it ended so, and none otherwise. */
  lemma NthRow(s: Sys, id: Uuid, kind: Kind, n: nat)
    requires RowInv(s) && id in s.trail && 1 <= n <= |s.trail[id].ended|
    ensures var before, upTo := RowsUpTo(s.db.dispatch, id, kind, n - 1), RowsUpTo(s.db.dispatch, id, kind, n);
            |upTo| == |before| + if s.trail[id].ended[n - 1] == EndingOf(kind) then 1 else 0
  {
    hide RowsUpTo;
    if s.trail[id].ended[n - 1] == EndingOf(kind) {
      var r := RowOfAttempt(s, id, kind, n);
      OneMore(s.db.dispatch, id, kind, n, r);
    } else {
      NoRowOfAttempt(s, id, kind, n);
      NoneMore(s.db.dispatch, id, kind, n);
    }
  }

  lemma NoRowOfAttempt(s: Sys, id: Uuid, kind: Kind, n: nat)
    requires RowInv(s) && id in s.trail && !EndedAs(s.trail[id], n, EndingOf(kind))
    ensures forall r :: r in s.db.dispatch ==> s.db.dispatch[r].origin != DispatchOf(id, n, kind)
  {
    hide RowsComplete, EventsOk, OriginsUnique;
    forall r | r in s.db.dispatch ensures s.db.dispatch[r].origin != DispatchOf(id, n, kind) {
      assert RowOk(s.db.dispatch[r], s.db.deliveries, s.trail);
    }
  }

  lemma RowOfAttempt(s: Sys, id: Uuid, kind: Kind, n: nat) returns (r: Uuid)
    requires RowInv(s) && id in s.trail && EndedAs(s.trail[id], n, EndingOf(kind))
    ensures r in s.db.dispatch && s.db.dispatch[r].origin == DispatchOf(id, n, kind)
  {
    hide RowsOk, EventsOk, OriginsUnique;
    var o := DispatchOf(id, n, kind);
    assert o in Origins(s.db.dispatch);
    r :| r in s.db.dispatch && s.db.dispatch[r].origin == o;
  }

  lemma AllRowsUpTo(s: Sys, id: Uuid, kind: Kind)
    requires RowInv(s) && id in s.trail
    ensures RowsOf(s.db.dispatch, id, kind) == RowsUpTo(s.db.dispatch, id, kind, |s.trail[id].ended|)
  {
    forall r | r in RowsOf(s.db.dispatch, id, kind) ensures r in RowsUpTo(s.db.dispatch, id, kind, |s.trail[id].ended|) {
      assert RowOk(s.db.dispatch[r], s.db.deliveries, s.trail);
    }
  }

  /** Conservation of attempts, in every reachable state: each attempt of a delivery is a
      retry row, a dead letter, a claim the recovery put back, a claim cut off by its
      channel, or the one that is running or was sent. */
  lemma AttemptsConserved(cfg: Config, s: Sys, id: Uuid)
    requires Inv(cfg, s) && id in s.db.deliveries
    ensures id in s.trail
    ensures var d, ended := s.db.deliveries[id], s.trail[id].ended;
            d.attempts == |RowsOf(s.db.dispatch, id, RetryKind)| + |RowsOf(s.db.dispatch, id, DlqKind)|
                          + Count(ended, Recovered) + Count(ended, CutOff)
                          + if d.status == Processing || d.status == Sent then 1 else 0
  {
    Running(cfg, s, id);
    hide DbInv, LogInv;
    var d, t := s.db.deliveries[id], s.trail[id];
    assert t.ended[..|t.ended|] == t.ended;
    RowsMatchEndings(s, id, RetryKind, |t.ended|);
    RowsMatchEndings(s, id, DlqKind, |t.ended|);
    AllRowsUpTo(s, id, RetryKind);
    AllRowsUpTo(s, id, DlqKind);
    CountsAddUp(t.ended);
    DeliveredOnce(d, t, cfg.Limit());
  }

  lemma {:induction false} NotEndedAs(ended: seq<Ending>, e: Ending)
    requires forall k :: 0 <= k < |ended| ==> ended[k] != e
    ensures Count(ended, e) == 0
  {
    if ended != [] {
      NotEndedAs(ended[..|ended| - 1], e);
    }
  }

  /** A final ending occurs at most once, and exactly when the status says so. */
  lemma FinalOnce(d: Delivery, t: Trail, limit: int, e: Ending)
    requires LifeOk(d, t, limit) && (e == Delivered || e == DeadLettered)
    ensures Count(t.ended, e) == if d.status == FinalStatus(e) then 1 else 0
  {
    if d.status == FinalStatus(e) {
      NotEndedAs(t.ended[..|t.ended| - 1], e);
    } else {
      NotEndedAs(t.ended, e);
    }
  }

  lemma DeliveredOnce(d: Delivery, t: Trail, limit: int)
    requires LifeOk(d, t, limit)
    ensures Count(t.ended, Delivered) == if d.status == Sent then 1 else 0
  {
    FinalOnce(d, t, limit, Delivered);
  }

  /** A delivery has a dead letter exactly when it has failed, and never two. */
  lemma DeadLetterIffFailed(cfg: Config, s: Sys, id: Uuid)
    requires Inv(cfg, s) && id in s.db.deliveries
    ensures |RowsOf(s.db.dispatch, id, DlqKind)| == if s.db.deliveries[id].status == Failed then 1 else 0
  {
    Running(cfg, s, id);
    hide DbInv, LogInv;
    var t := s.trail[id];
    assert t.ended[..|t.ended|] == t.ended;
    RowsMatchEndings(s, id, DlqKind, |t.ended|);
    AllRowsUpTo(s, id, DlqKind);
    FinalOnce(s.db.deliveries[id], t, cfg.Limit(), DeadLettered);
  }

  /** An attempt has at most one dispatch row, of whichever kind. */
  lemma OneRowPerAttempt(cfg: Config, s: Sys, r: Uuid, q: Uuid)
    requires Inv(cfg, s) && r in s.db.dispatch && q in s.db.dispatch
    requires s.db.dispatch[r].origin.DispatchOf? && s.db.dispatch[q].origin.DispatchOf?
    requires s.db.dispatch[r].origin.delivery == s.db.dispatch[q].origin.delivery
    requires s.db.dispatch[r].origin.attempt == s.db.dispatch[q].origin.attempt
    ensures r == q
  {
    hide DbInv, LogInv, RowsComplete, TopicFits, Contract.IsRetryTopic;
    assert RowOk(s.db.dispatch[r], s.db.deliveries, s.trail) && RowOk(s.db.dispatch[q], s.db.deliveries, s.trail);
  }

  /** The `ON CONFLICT` of the dispatch outbox is never taken: whenever a current claim is
      settled or recovered, no row of its attempt exists yet. */
  lemma ConflictNeverTaken(cfg: Config, s: Sys, id: Uuid, kind: Kind)
    requires Inv(cfg, s) && id in s.db.deliveries && s.db.deliveries[id].status == Processing
    ensures DispatchOf(id, s.db.deliveries[id].attempts, kind) !in Origins(s.db.dispatch)
  {
    Running(cfg, s, id);
    hide DbInv, LogInv;
    forall r | r in s.db.dispatch ensures s.db.dispatch[r].origin != DispatchOf(id, s.db.deliveries[id].attempts, kind) {
      assert RowOk(s.db.dispatch[r], s.db.deliveries, s.trail);
    }
  }
}
