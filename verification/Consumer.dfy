/** The notification consumer: poll a record, process it, then commit its offset. */
module Consumer {
  import opened Types
  import opened Store
  import opened Machine
  import opened Runtime
  import Contract
  import Relay
  import Rules

  /** What the environment does in one round of the loop: the steps of all other services
      since the last one, then how the poll, the processing and the commit go. */
  datatype Round = Round(
    others: seq<Action>, fetched: bool, part: Part, call: Call, index: nat, outcome: Relay.Outcome, commits: bool)
  {
    /** Nobody else commits in the partitions this member of the group owns. */
    predicate Possible(owned: set<Part>) {
      && outcome.Possible() && part in owned && Readable(part)
      && LeavesAlone(others, owned)
    }

    /** The network works throughout. */
    predicate Works() {
      fetched && call.Answered? && outcome.acked && commits
    }
  }

  /** The topics the group subscribes to. */
  predicate Readable(p: Part) {
    p.topic == RequestsTopic || Contract.IsRetryTopic(p.topic)
  }

  predicate LeavesAlone(steps: seq<Action>, owned: set<Part>) {
    forall a :: a in steps && a.Consume? && a.commit ==> a.part !in owned
  }

  datatype Report = Stopped | PollFailed | Stuck(part: Part, offset: nat)

  const LOST := Relay.Outcome(false, false, false)

  /** Records that reach no store call are settled whatever happens to the database. */
  predicate Executed(v: Contract.Verdict, call: Call) { v.Reject? || !call.Refused? }
  predicate Heard(v: Contract.Verdict, call: Call) { v.Reject? || call.Answered? }

  /** What became of a record with verdict v: the database and the log before and after, and
      whether it was settled. */
  predicate Handled(
    p: Part, offset: nat, v: Contract.Verdict, value: Payload, digest: Uuid, before: Db, log: Log, after: Db, log2: Log,
    news: map<Uuid, Uuid>, now: Time, call: Call, index: nat, o: Relay.Outcome, ok: bool)
  {
    var (db, reason) := Processed(before, v, value, news, now);
    && after == (if Executed(v, call) then db else before)
    && log2 == (if Heard(v, call) && reason.Some?
         then Relay.AppendedIf(log, Part(DeadLetters, index), InvalidRecord(p, offset, reason.value, digest), o.appended)
         else log)
    && (ok <==> Heard(v, call) && (reason.None? || o.acked))
  }

  /** The same, written out: a rejected record, and a conflict that the database reports, get
      one dead letter with the reason, and are settled once the broker acknowledged it; any
      other record is settled once the database answered. */
  lemma HandledMeans(
    p: Part, offset: nat, v: Contract.Verdict, value: Payload, digest: Uuid, before: Db, log: Log, after: Db, log2: Log,
    news: map<Uuid, Uuid>, now: Time, call: Call, index: nat, o: Relay.Outcome, ok: bool)
    requires Handled(p, offset, v, value, digest, before, log, after, log2, news, now, call, index, o, ok)
    ensures var conflict := v.Accept? && Rules.Conflicts(before.inbox, v.event, value);
            var reason := if v.Reject? then v.reason else "identity_conflict";
            var reported := v.Reject? || (conflict && call == Answered);
            && Rules.LogGrew(log, log2, Part(DeadLetters, index), Rules.InvalidLetter(p, offset, reason, digest), reported && o.appended)
            && (ok <==> if reported then o.acked else call == Answered)
            && (v.Reject? || conflict || call == Refused ==> after == before)
            && (v.Accept? && !conflict && call != Refused ==>
                  v.event.eventId in after.inbox && after.inbox[v.event.eventId] == InboxRow(v.event.userId, value))
            && (v.Resume? && call != Refused ==> after == ResumeRetry(before, v.retry, now))
  {
    hide ResumeRetry;
  }

  function Visits(rounds: seq<Round>, p: Part): nat {
    if rounds == [] then 0
    else Visits(rounds[..|rounds| - 1], p) + if rounds[|rounds| - 1].part == p then 1 else 0
  }

  class Consumer {
    const cluster: Cluster
    const owned: set<Part>              // the partitions assigned to this member of the group
    const digest: (Part, nat) -> Uuid   // the name-based UUID of a record's position

    constructor (cluster: Cluster, owned: set<Part>, digest: (Part, nat) -> Uuid)
      ensures this.cluster == cluster && this.owned == owned && this.digest == digest
    {
      this.cluster, this.owned, this.digest := cluster, owned, digest;
    }

    /** Routes one record to the store or to the dead letters. `news` are the deliveries created. */
    method Process(p: Part, offset: nat, record: Record, call: Call, index: nat, o: Relay.Outcome)
      returns (ok: bool, ghost news: map<Uuid, Uuid>)
      requires o.Possible()
      modifies cluster.store`inbox, cluster.store`deliveries, cluster.broker`log, cluster.ids
      ensures var v := Contract.RouteRecord(p.topic, record);
              var before := old(cluster.store.State());
              && Handled(p, offset, v, record.value, digest(p, offset), before, old(cluster.broker.log),
                         cluster.store.State(), cluster.broker.log, news, cluster.now, call, index, o, ok)
              && (v.Accept? && v.event.eventId !in before.inbox ==> Assigns(news, Targets(before.channels, v.event.userId)))
      ensures old(cluster.ids.next) <= cluster.ids.next
      ensures forall i :: i in news ==> old(cluster.ids.next) <= i < cluster.ids.next
    {
      hide Contract.HeaderMap, Contract.DecodeRequested, Contract.IsRetryTopic, Store.AcceptRequest, InvalidRecord, Assigns, Targets;
      hide Rules.LogGrew, Rules.InvalidLetter;
      var headers := ReadHeaders(record.headers);
      news := map[];
      if p.topic != RequestsTopic {
        ok := ProcessRetry(p, offset, record, headers, call, index, o);
        return;
      }
      var event := Contract.DecodeRequested(record.key, headers, record.value);
      if event.None? {
        ok := PublishInvalid(p, offset, "invalid_request", index, o);
        return;
      }
      var ids := cluster.ids.ForEach(Targets(cluster.store.channels, event.value.userId));
      news := ids;
      if call.Refused? {
        return false, news;
      }
      var reply := cluster.store.AcceptRequest(event.value, record.value, ids, cluster.now);
      if call.Unanswered? {
        return false, news;
      }
      if reply == IdentityConflict {
        ok := PublishInvalid(p, offset, "identity_conflict", index, o);
        return;
      }
      return true, news;
    }

    /** The part of `Process` for every topic but the requests. */
    method ProcessRetry(p: Part, offset: nat, record: Record, headers: Contract.Headers, call: Call, index: nat, o: Relay.Outcome)
      returns (ok: bool)
      requires o.Possible() && p.topic != RequestsTopic
      modifies cluster.store`deliveries, cluster.broker`log
      ensures var v := Contract.Route(p.topic, record.key, headers, record.value);
              && !v.Accept?
              && Handled(p, offset, v, record.value, digest(p, offset), old(cluster.store.State()), old(cluster.broker.log),
                         cluster.store.State(), cluster.broker.log, map[], cluster.now, call, index, o, ok)
    {
      hide Contract.HeaderIs, Contract.DecodeRetry, Contract.IsRetryTopic, Store.ResumeRetry, InvalidRecord;
      hide Rules.LogGrew, Rules.InvalidLetter;
      if !Contract.IsRetryTopic(p.topic) {
        ok := PublishInvalid(p, offset, "invalid_topic", index, o);
        return;
      }
      if
        || !Contract.HeaderIs(headers, "event_type", Plain(Contract.NOTIFICATION_RETRY))
        || !Contract.HeaderIs(headers, "schema_version", Decimal(Contract.SCHEMA_V1))
        || !Contract.HeaderIs(headers, "content-type", Plain(Contract.JSON))
      {
        ok := PublishInvalid(p, offset, "invalid_retry", index, o);
        return;
      }
      if "event_id" !in headers || !headers["event_id"].UuidText? {
        ok := PublishInvalid(p, offset, "invalid_retry", index, o);
        return;
      }
      var event := Contract.DecodeRetry(record.key, record.value);
      if event.None? {
        ok := PublishInvalid(p, offset, "invalid_retry", index, o);
        return;
      }
      if !call.Refused? {
        cluster.store.ResumeRetry(event.value, cluster.now);
      }
      ok := call.Answered?;
    }

    /** The header list as a map. */
    method ReadHeaders(list: seq<(string, Text)>) returns (headers: Contract.Headers)
      ensures headers == Contract.HeaderMap(list)
    {
      headers := map[];
      for i := 0 to |list|
        invariant headers == Contract.HeaderMap(list[..i])
      {
        assert list[..i + 1][..i] == list[..i];
        headers := headers[list[i].0 := list[i].1];
      }
      assert list[..|list|] == list;
    }

    method PublishInvalid(p: Part, offset: nat, reason: string, index: nat, o: Relay.Outcome) returns (ok: bool)
      requires o.Possible()
      modifies cluster.broker`log
      ensures cluster.broker.log == Relay.AppendedIf(
                old(cluster.broker.log), Part(DeadLetters, index), InvalidRecord(p, offset, reason, digest(p, offset)), o.appended)
      ensures Rules.LogGrew(old(cluster.broker.log), cluster.broker.log, Part(DeadLetters, index),
                            Rules.InvalidLetter(p, offset, reason, digest(p, offset)), o.appended)
      ensures ok == o.acked
    {
      var id := digest(p, offset);
      var record := Record(
        UuidText(id),
        [("event_id", UuidText(id)), ("event_type", Plain(Contract.NOTIFICATION_INVALID)),
         ("schema_version", Decimal(1)), ("content-type", Plain(Contract.JSON))],
        InvalidJson(p, offset, reason));
      ok := cluster.broker.Publish(Part(DeadLetters, index), record, o);
    }

    /** One record: processed, and committed only when that went well. It is one step of
        the machine, or none when the database refused. */
    method Handle(p: Part, round: Round, ghost cfg: Config, ghost s: Sys) returns (ok: bool, ghost t: Sys)
      requires cluster.Shows(s) && round.Possible(owned) && round.part == p
      requires CommittedAt(s.committed, p) < |LogAt(s.log, p)|
      modifies cluster.store`inbox, cluster.store`deliveries, cluster.broker, cluster.ids
      ensures cluster.Shows(t) && Reaches(cfg, s, t)
      ensures t.committed == if ok then s.committed[p := CommittedAt(s.committed, p) + 1] else s.committed
      ensures forall q :: |LogAt(s.log, q)| <= |LogAt(t.log, q)|
      ensures round.Works() ==> ok
    {
      hide Reaches, Contract.RouteRecord, Processed, InvalidRecord, Relay.AppendedIf, Assigns, Targets;
      var offset := CommittedAt(cluster.broker.committed, p);
      var record := LogAt(cluster.broker.log, p)[offset];
      ghost var v := VerdictAt(s, p, offset);
      var done, news := Process(p, offset, record, round.call, round.index, round.outcome);
      ok := done && round.commits;
      if ok {
        cluster.broker.Commit(p, offset + 1);
      }
      if Executed(v, round.call) {
        t := Consumed(cfg, s, p, offset, news, digest(p, offset), round);
      } else {
        t := s;
        ReachesSelf(cfg, s);
      }
    }

    /** One round of the loop. */
    method Turn(round: Round, cfg: Config, ghost s: Sys) returns (report: Report, ghost t: Sys)
      requires cluster.Shows(s) && round.Possible(owned)
      modifies cluster, cluster.events, cluster.store, cluster.store.dispatch, cluster.broker, cluster.ids
      ensures cluster.Shows(t) && Reaches(cfg, s, t) && Onward(owned, s, t)
      ensures report.Stopped? ==> Passed(s, t, round.part)
      ensures report.Stuck? ==> Before(t, report.part, report.offset)
      ensures round.Works() ==> report.Stopped?
    {
      hide IsRun, After;
      ghost var run;
      run, t := cluster.Others(round.others, cfg, s);
      RunOnward(cfg, s, run, owned);
      hide Reaches;
      if !round.fetched {
        return PollFailed, t;
      }
      report := Stopped;
      var p := round.part;
      var offset := CommittedAt(cluster.broker.committed, p);
      if offset < |LogAt(cluster.broker.log, p)| {
        var ok, next := Handle(p, round, cfg, t);
        ReachesTrans(cfg, s, t, next);
        t := next;
        report := if ok then Stopped else Stuck(p, offset);
      }
    }

    /** The loop, for as long as the context lives: `rounds` is what the environment does.
        It ends early on the first error, and then the record that failed is the next one
        read. While everything works, each round moves past one more record, whatever the
        other services do meanwhile. */
    method Run(rounds: seq<Round>, cfg: Config, ghost s: Sys) returns (report: Report, ghost t: Sys)
      requires cluster.Shows(s) && forall i :: 0 <= i < |rounds| ==> rounds[i].Possible(owned)
      modifies cluster, cluster.events, cluster.store, cluster.store.dispatch, cluster.broker, cluster.ids
      ensures cluster.Shows(t) && Reaches(cfg, s, t) && Onward(owned, s, t)
      ensures report.Stuck? ==> Before(t, report.part, report.offset)
      ensures report.Stopped? ==> CaughtUp(owned, s, t, rounds)
      ensures (forall i :: 0 <= i < |rounds| ==> rounds[i].Works()) ==> report.Stopped?
    {
      hide Reaches, Onward, CaughtUp, Passed, Before;
      t := s;
      ReachesSelf(cfg, s);
      Start(owned, s);
      for i := 0 to |rounds|
        invariant cluster.Shows(t) && Reaches(cfg, s, t) && Onward(owned, s, t)
        invariant CaughtUp(owned, s, t, rounds[..i])
      {
        ghost var next;
        report, next := Turn(rounds[i], cfg, t);
        ReachesTrans(cfg, s, t, next);
        Further(owned, s, t, next);
        if !report.Stopped? {
          return report, next;
        }
        OneMore(owned, s, t, next, rounds, i);
        t := next;
      }
      assert rounds[..|rounds|] == rounds;
      report := Stopped;
    }
  }

  // ----- How far the group has read -----

  /** Nothing is read back in the owned partitions, and nothing leaves the log. */
  ghost predicate Onward(owned: set<Part>, s: Sys, t: Sys) {
    && (forall p :: p in owned ==> CommittedAt(s.committed, p) <= CommittedAt(t.committed, p))
    && (forall p :: |LogAt(s.log, p)| <= |LogAt(t.log, p)|)
  }

  /** If there was a record to read in p, it is behind now. */
  predicate Passed(s: Sys, t: Sys, p: Part) {
    CommittedAt(t.committed, p) >= Min(|LogAt(s.log, p)|, CommittedAt(s.committed, p) + 1)
  }

  /** The record at the offset is the next one of p. */
  predicate Before(t: Sys, p: Part, offset: nat) {
    CommittedAt(t.committed, p) == offset < |LogAt(t.log, p)|
  }

  /** Every round moved one record further in its partition, as far as there were records. */
  ghost predicate CaughtUp(owned: set<Part>, s: Sys, t: Sys, rounds: seq<Round>) {
    forall p :: p in owned ==>
      CommittedAt(t.committed, p) >= Min(|LogAt(s.log, p)|, CommittedAt(s.committed, p) + Visits(rounds, p))
  }

  lemma Start(owned: set<Part>, s: Sys)
    ensures Onward(owned, s, s) && CaughtUp(owned, s, s, [])
  {
  }

  lemma Further(owned: set<Part>, s: Sys, t: Sys, u: Sys)
    requires Onward(owned, s, t) && Onward(owned, t, u)
    ensures Onward(owned, s, u)
  {
  }

  /** One step of another service. */
  lemma StepOnward(cfg: Config, s: Sys, a: Action, owned: set<Part>)
    requires Enabled(s, a) && (a.Consume? && a.commit ==> a.part !in owned)
    ensures var t := Apply(cfg, s, a);
            Onward(owned, s, t) && forall p :: p in owned ==> CommittedAt(t.committed, p) == CommittedAt(s.committed, p)
  {
    hide Contract.RouteRecord, Processed, InvalidRecord, Relay.RecordOf, Relay.Settle, Assigns, Targets, AcceptsNew;
    hide Store.MarkSent, Store.MarkFailed, RecoverOne, FailDelay, Current, Active, HandedOut, Store.Verdict;
    hide Store.CreateChannel, Store.SetChannelEnabled, Store.DeleteChannel;
  }

  lemma {:induction false} RunOnward(cfg: Config, s: Sys, run: seq<Action>, owned: set<Part>)
    requires IsRun(cfg, s, run) && LeavesAlone(run, owned)
    ensures var t := After(cfg, s, run);
            Onward(owned, s, t) && forall p :: p in owned ==> CommittedAt(t.committed, p) == CommittedAt(s.committed, p)
    decreases |run|
  {
    hide Enabled, Apply;
    if run != [] {
      assert run[0] in run && forall a :: a in run[1..] ==> a in run;
      StepOnward(cfg, s, run[0], owned);
      RunOnward(cfg, Apply(cfg, s, run[0]), run[1..], owned);
    }
  }

  lemma OneMore(owned: set<Part>, s: Sys, t: Sys, u: Sys, rounds: seq<Round>, i: nat)
    requires i < |rounds| && Onward(owned, s, t) && Onward(owned, t, u)
    requires CaughtUp(owned, s, t, rounds[..i]) && Passed(t, u, rounds[i].part)
    ensures CaughtUp(owned, s, u, rounds[..i + 1])
  {
    assert rounds[..i + 1][..i] == rounds[..i];
    forall p | p in owned ensures CommittedAt(u.committed, p) >=
                     Min(|LogAt(s.log, p)|, CommittedAt(s.committed, p) + Visits(rounds[..i + 1], p)) {
      assert Visits(rounds[..i + 1], p) == Visits(rounds[..i], p) + if rounds[i].part == p then 1 else 0;
    }
  }

  lemma ConsumedReaches(cfg: Config, s: Sys, p: Part, offset: nat, news: map<Uuid, Uuid>, digest: Uuid, round: Round,
                        o: Relay.Outcome, commit: bool)
    requires round.outcome.Possible() && Readable(p) && round.part == p && offset == CommittedAt(s.committed, p) < |LogAt(s.log, p)| && o.Possible()
    requires var v := VerdictAt(s, p, offset);
             AcceptsNew(s, v) ==>
               Assigns(news, Targets(s.db.channels, v.event.userId)) && forall i :: i in news ==> Fresh(s, i)
    ensures Reaches(cfg, s, ConsumeStep(s, p, offset, news, digest, round.index, o, commit))
  {
    hide Contract.RouteRecord, Assigns, Targets, ConsumeStep, Reaches;
    ReachesStep(cfg, s, Consume(p, offset, news, digest, round.index, o, commit));
  }

  lemma Lengthens(log: Log, p: Part, appended: bool)
    ensures forall q, r :: |LogAt(log, q)| <= |LogAt(Relay.AppendedIf(log, p, r, appended), q)|
    ensures forall q, r :: |LogAt(log, q)| <= |LogAt(Relay.AppendedIf(log, p, r, false), q)|
  {
  }

  /** The step of the machine that a processed record is. */
  lemma Consumed(cfg: Config, s: Sys, p: Part, offset: nat, news: map<Uuid, Uuid>, digest: Uuid, round: Round) returns (t: Sys)
    requires round.outcome.Possible() && Readable(p) && round.part == p && offset == CommittedAt(s.committed, p) < |LogAt(s.log, p)|
    requires var v := VerdictAt(s, p, offset);
             && Executed(v, round.call)
             && (AcceptsNew(s, v) ==>
                   Assigns(news, Targets(s.db.channels, v.event.userId)) && forall i :: i in news ==> Fresh(s, i))
    ensures Reaches(cfg, s, t)
    ensures var v := VerdictAt(s, p, offset);
            var (db, reason) := Processed(s.db, v, LogAt(s.log, p)[offset].value, news, s.now);
            && t.db == db && t.now == s.now && t.events == s.events && t.tasks == s.tasks && s.used <= t.used <= s.used + news.Keys
            && (forall q :: |LogAt(s.log, q)| <= |LogAt(t.log, q)|)
            && t.log == (if Heard(v, round.call) && reason.Some?
                 then Relay.AppendedIf(s.log, Part(DeadLetters, round.index),
                                       InvalidRecord(p, offset, reason.value, digest), round.outcome.appended)
                 else s.log)
            && t.committed == (if Heard(v, round.call) && (reason.None? || round.outcome.acked) && round.commits
                 then s.committed[p := offset + 1] else s.committed)
  {
    var v := VerdictAt(s, p, offset);
    var heard := Heard(v, round.call);
    var o := if heard then round.outcome else LOST;
    ConsumedReaches(cfg, s, p, offset, news, digest, round, o, heard && round.commits);
    hide Processed, Contract.RouteRecord, InvalidRecord, Relay.AppendedIf, Reaches, Assigns, Targets;
    Lengthens(s.log, Part(DeadLetters, round.index), round.outcome.appended);
    t := ConsumeStep(s, p, offset, news, digest, round.index, o, heard && round.commits);
  }
}
