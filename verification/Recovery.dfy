/** From every reachable state: if every call under way dies, the broker takes its deliveries back and the leases
    elapse, then one dispatcher followed by one worker on a healthy system finish exactly the events that are not
    stranded. */
module Recovery {
  import opened Rows
  import opened Protocol
  import opened Shape
  import opened NoLoss
  import opened Frames
  import opened Agents
  import opened Platform
  import Timing
  import opened Dispatching
  import opened Working

  /** No call is under way. */
  ghost predicate Quiet(s: State) {
    s.rounds == map[] && s.handlings == map[] && s.retries == map[] && s.replays == map[]
  }

  /** No message is out with a consumer. */
  ghost predicate AllReady(broker: map<nat, Message>) {
    forall m | m in broker :: broker[m].holder.None?
  }

  lemma {:induction false} SentReady(broker: map<nat, Message>, first: nat, items: seq<Item>)
    requires AllReady(broker)
    ensures AllReady(SentBroker(broker, first, items))
  {
    if items != [] {
      SentReady(broker, first, items[..|items| - 1]);
    }
  }

  /** Every unpublished row can be claimed for dispatch, every live event for processing. */
  ghost predicate LeasesOver(cfg: Config, s: State) {
    && (forall e | e in s.outbox && s.outbox[e].publishedAt.None? ::
          Dispatchable(s.outbox[e], s.now, cfg.dispatchLease))
    && (forall e | e in s.events && Live(s.events[e].status) :: Claimable(s.events[e], s.now, cfg.processingLease))
  }

  lemma LeasesElapse(cfg: Config, s: State, delta: nat)
    requires WellShaped(cfg, s) && cfg.processingLease <= delta && cfg.dispatchLease <= delta
    ensures LeasesOver(cfg, s.(now := s.now + delta))
  {
    hide SerialsOk; hide LettersOk; hide BrokerOk; hide HandlingsOk; hide HoldersOk; hide RoundsOk; hide RetriesOk;
    hide ReplaysOk; hide Accepted;
  }

  /** Every call under way dies. */
  method CrashAll(system: System)
    requires system.Valid()
    modifies system
    ensures system.Valid() && Follows(system.run, old(system.run), true)
    ensures Quiet(system.Snapshot()) && system.broker == old(system.broker)
    ensures system.events == old(system.events) && system.outbox == old(system.outbox)
    ensures system.letters == old(system.letters)
  {
    hide Protocol.Valid; hide Last;
    var calls := system.rounds.Keys + system.handlings.Keys + system.retries.Keys + system.replays.Keys;
    var step := Environment(Crash(calls));
    Extended(system.cfg, system.run, step);
    system.Take(step);
  }

  /** The broker takes back what it had delivered. */
  method LoseConnections(system: System)
    requires system.Valid() && Quiet(system.Snapshot())
    modifies system
    ensures system.Valid() && Follows(system.run, old(system.run), true)
    ensures Quiet(system.Snapshot()) && AllReady(system.broker) && system.broker.Keys == old(system.broker.Keys)
    ensures forall m | m in system.broker :: system.broker[m].event == old(system.broker)[m].event
    ensures system.events == old(system.events) && system.outbox == old(system.outbox)
    ensures system.letters == old(system.letters)
  {
    hide Protocol.Valid; hide Last;
    var holders := set m | m in system.broker && system.broker[m].holder.Some? :: system.broker[m].holder.value;
    Extended(system.cfg, system.run, Environment(LoseConnection(holders)));
    system.Take(Environment(LoseConnection(holders)));
  }

  /** Every call under way dies, the broker takes back what was delivered, and the leases elapse. */
  method Outage(system: System)
    requires system.Valid()
    modifies system
    ensures system.Valid() && Follows(system.run, old(system.run), true)
    ensures Quiet(system.Snapshot()) && AllReady(system.broker) && LeasesOver(system.cfg, system.Snapshot())
    ensures system.events == old(system.events) && system.outbox == old(system.outbox)
    ensures system.letters == old(system.letters)
    ensures system.broker.Keys == old(system.broker.Keys)
    ensures forall m | m in system.broker :: system.broker[m].event == old(system.broker)[m].event
  {
    hide Protocol.Valid; hide Last; hide WellShaped; hide LeasesOver;
    CrashAll(system);
    ghost var crashed := system.run;
    LoseConnections(system);
    FollowsOn(system.run, crashed, old(system.run));
    RunShape(system.cfg, system.run);
    var delta := system.cfg.processingLease + system.cfg.dispatchLease;
    LeasesElapse(system.cfg, system.Snapshot(), delta);
    system.Pause(delta);
  }

  lemma {:induction false} FollowsOn(r: Run, middle: Run, earlier: Run)
    requires Follows(r, middle, true) && Follows(middle, earlier, true)
    ensures Follows(r, earlier, true)
  {
    if r != middle {
      FollowsOn(r.prefix, middle, earlier);
    }
  }

  // ----- what later steps keep of one event

  lemma {:induction false} CoverFollows(cfg: Config, r: Run, earlier: Run, e: EventId)
    requires Protocol.Valid(cfg, r) && Protocol.Valid(cfg, earlier) && Follows(r, earlier, true)
    requires Covered(Last(cfg, earlier), e)
    ensures Covered(Last(cfg, r), e)
  {
    if r != earlier {
      CoverFollows(cfg, r.prefix, earlier, e);
      RunShape(cfg, r.prefix);
      hide Covered; hide Enabled; hide Apply; hide WellShaped;
      StepKeepsCover(cfg, Last(cfg, r.prefix), r.step, e);
    }
  }

  /** Nothing in the system will ever touch `e` again but a replay. */
  ghost predicate Abandoned(s: State, e: EventId) {
    && Active(s, e) && !Pending(s, e)
    && (forall m | m in s.broker :: s.broker[m].event != e)
    && (forall t | t in s.handlings :: s.handlings[t].event != e)
    && (forall t, i | t in s.rounds && 0 <= i < |s.rounds[t].items| :: s.rounds[t].items[i].event != e)
  }

  lemma DispatcherLeavesAbandoned(cfg: Config, s: State, step: DispatcherStep, e: EventId)
    requires DispatcherCan(cfg, s, step) && Abandoned(s, e)
    ensures Abandoned(DispatcherDoes(cfg, s, step), e)
  {
  }

  lemma WorkerLeavesAbandoned(cfg: Config, s: State, step: WorkerStep, e: EventId)
    requires WorkerCan(s, step) && Abandoned(s, e)
    ensures Abandoned(WorkerDoes(cfg, s, step), e)
  {
    WorkerFrame(cfg, s, step);
  }

  lemma EnvironmentLeavesAbandoned(s: State, step: EnvironmentStep, e: EventId)
    requires EnvironmentCan(s, step) && Abandoned(s, e)
    ensures Abandoned(EnvironmentDoes(s, step), e)
  {
  }

  lemma StepLeavesAbandoned(cfg: Config, s: State, step: Step, e: EventId)
    requires Enabled(cfg, s, step) && !step.Replayer? && Abandoned(s, e)
    ensures Abandoned(Apply(cfg, s, step), e)
  {
    hide Abandoned; hide EnvironmentCan; hide EnvironmentDoes; hide DispatcherCan; hide DispatcherDoes; hide WorkerCan;
    hide WorkerDoes;
    if step.Environment? {
      EnvironmentLeavesAbandoned(s, step.env, e);
    } else if step.Dispatcher? {
      DispatcherLeavesAbandoned(cfg, s, step.dispatch, e);
    } else {
      WorkerLeavesAbandoned(cfg, s, step.work, e);
    }
  }

  lemma {:induction false} AbandonedFollows(cfg: Config, r: Run, earlier: Run, e: EventId)
    requires Protocol.Valid(cfg, r) && Protocol.Valid(cfg, earlier) && Follows(r, earlier, true)
    requires Abandoned(Last(cfg, earlier), e)
    ensures Abandoned(Last(cfg, r), e)
  {
    if r != earlier {
      AbandonedFollows(cfg, r.prefix, earlier, e);
      hide Abandoned; hide Enabled; hide Apply;
      StepLeavesAbandoned(cfg, Last(cfg, r.prefix), r.step, e);
    }
  }

  // ----- the dispatcher empties the outbox

  function Unpublished(outbox: OutboxTable): set<EventId> {
    set e | e in outbox && outbox[e].publishedAt.None?
  }

  lemma {:induction false} DistinctSize(batch: seq<EventId>)
    requires Distinct(batch)
    ensures |set e | e in batch| == |batch|
  {
    if batch != [] {
      var rest := batch[..|batch| - 1];
      DistinctSize(rest);
      assert (set e | e in batch) == (set e | e in rest) + {batch[|batch| - 1]};
    }
  }

  lemma BatchTakes(before: OutboxTable, batch: seq<EventId>, now: nat, lease: nat, limit: nat)
    requires forall e | e in before && before[e].publishedAt.None? :: Dispatchable(before[e], now, lease)
    requires FirstRows(before, now, lease, limit, batch)
    ensures (set e | e in batch) <= Unpublished(before)
    ensures |batch| < limit ==> (set e | e in batch) == Unpublished(before)
    ensures |batch| <= limit && |set e | e in batch| == |batch|
  {
    DistinctSize(batch);
  }

  lemma BatchPublished(before: OutboxTable, after: OutboxTable, report: Report, now: nat, lease: nat)
    requires forall e | e in before && before[e].publishedAt.None? :: Dispatchable(before[e], now, lease)
    requires SplitAt(before, after, report, now) && report.marked == |report.batch|
    ensures Unpublished(after) == Unpublished(before) - set e | e in report.batch
    ensures forall e | e in after && after[e].publishedAt.None? :: Dispatchable(after[e], now, lease)
  {
    forall e | e in report.batch ensures after[e].publishedAt.Some? {
      var i :| 0 <= i < |report.batch| && report.batch[i] == e;
    }
  }

  /** A round takes a full batch off the unpublished rows, or all of them. */
  lemma RoundShrinks(before: OutboxTable, after: OutboxTable, report: Report, now: nat, lease: nat, limit: nat)
    requires forall e | e in before && before[e].publishedAt.None? :: Dispatchable(before[e], now, lease)
    requires FirstRows(before, now, lease, limit, report.batch)
    requires SplitAt(before, after, report, now) && report.marked == |report.batch|
    requires limit > 0 && Unpublished(before) != {}
    ensures report.batch != []
    ensures var n := |Unpublished(before)|;
            |Unpublished(after)| == if n <= limit then 0 else n - limit
    ensures forall e | e in after && after[e].publishedAt.None? :: Dispatchable(after[e], now, lease)
  {
    hide Unpublished; hide Dispatchable; hide FirstRows; hide SplitAt;
    BatchTakes(before, report.batch, now, lease, limit);
    BatchPublished(before, after, report, now, lease);
    var taken := set e | e in report.batch;
    assert Unpublished(before) == Unpublished(after) + taken;
  }

  lemma StillQuiet(s: State, s': State, token: nat)
    requires Quiet(s) && Untouched(s, s', token) && token !in s'.rounds
    ensures Quiet(s')
  {
    assert s'.rounds == s'.rounds - {token};
  }

  /** Poll until nothing is pending: ceil(n / batchSize) rounds for n unpublished rows. */
  method DrainOutbox(system: System) returns (rounds: nat)
    requires system.Valid() && system.alone && system.healthy && system.cfg.batchSize > 0
    requires Quiet(system.Snapshot()) && AllReady(system.broker) && LeasesOver(system.cfg, system.Snapshot())
    modifies system
    ensures system.Valid() && Follows(system.run, old(system.run), true)
    ensures Quiet(system.Snapshot()) && AllReady(system.broker) && LeasesOver(system.cfg, system.Snapshot())
    ensures Unpublished(system.outbox) == {} && system.events == old(system.events)
    ensures var n := |old(Unpublished(system.outbox))|; n <= rounds * system.cfg.batchSize < n + system.cfg.batchSize
  {
    assert Follows(system.run, old(system.run), true);
    hide Protocol.Valid; hide Last; hide FirstRows; hide SplitAt; hide Unpublished; hide Follows;
    hide SentBroker;
    ghost var n := |Unpublished(system.outbox)|;
    ghost var size := system.cfg.batchSize;
    rounds := 0;
    ghost var room := 0;
    while Unpublished(system.outbox) != {}
      invariant system.Valid() && Follows(system.run, old(system.run), true)
      invariant Quiet(system.Snapshot()) && AllReady(system.broker) && LeasesOver(system.cfg, system.Snapshot())
      invariant system.events == old(system.events)
      invariant room == rounds * size && room < n + size
      invariant if |Unpublished(system.outbox)| > 0 then n == |Unpublished(system.outbox)| + room else n <= room
      decreases |Unpublished(system.outbox)|
    {
      ghost var earlier := system.run;
      ghost var s := system.Snapshot();
      var report, reserved, sent := DispatchPending(system);
      SentReady(s.broker, report.token + 1, BatchItems(s.outbox, reserved)[..sent]);
      FollowsOn(system.run, earlier, old(system.run));
      RoundShrinks(s.outbox, system.outbox, report, system.now, system.cfg.dispatchLease, system.cfg.batchSize);
      StillQuiet(s, system.Snapshot(), report.token);
      Timing.Distribute(size, rounds, 1);
      rounds, room := rounds + 1, room + size;
    }
  }

  // ----- the worker empties the queue

  /** The row of a live event once a worker whose processor answers `outcome` has dealt with it. */
  function FinishedRow(cfg: Config, row: EventRow, outcome: nat -> bool): EventRow {
    var calls := CallsFrom(outcome, 1, cfg.maxRetries + 1);
    row.(status := if outcome(calls) then Processed else Failed, attempts := calls, startedAt := None)
  }

  /** Each row is as it was, or was live and is finished. */
  ghost predicate Settled(cfg: Config, before: EventTable, after: EventTable, outcome: EventId -> nat -> bool) {
    && after.Keys == before.Keys
    && forall e | e in before ::
         after[e] == before[e] || (Live(before[e].status) && after[e] == FinishedRow(cfg, before[e], outcome(e)))
  }

  /** A delivery of `e` in a system whose live events are all claimable leaves `e` finished and is acknowledged. */
  lemma DeliveryFinishes(cfg: Config, s: State, e: EventId, outcome: nat -> bool)
    requires e in s.events && LeasesOver(cfg, s)
    ensures SettlementOf(ClaimOf(s.events, e, s.now, cfg.processingLease)).Ack?
    ensures Handled(cfg, s.events, e, s.now, outcome) ==
            if Live(s.events[e].status) then s.events[e := FinishedRow(cfg, s.events[e], outcome)] else s.events
  {
    hide CallsFrom; hide Dispatchable;
  }

  lemma SettledOn(cfg: Config, before: EventTable, s: State, s': State, e: EventId, outcome: EventId -> nat -> bool)
    requires Settled(cfg, before, s.events, outcome) && LeasesOver(cfg, s) && e in s.events
    requires s'.events == Handled(cfg, s.events, e, s.now, outcome(e))
    requires s'.outbox == s.outbox && s.now <= s'.now
    ensures Settled(cfg, before, s'.events, outcome) && LeasesOver(cfg, s')
  {
    DeliveryFinishes(cfg, s, e, outcome(e));
    hide CallsFrom; hide Handled;
  }

  lemma QuietAfterDelivery(s: State, s1: State, s2: State, m: nat, tag: nat)
    requires Quiet(s) && AllReady(s.broker) && m in s.broker
    requires tag in s1.handlings && s1.handlings == s.handlings[tag := s1.handlings[tag]]
    requires s1.handlings[tag].message == m
    requires s1.broker == s.broker[m := s.broker[m].(holder := Some(tag))]
    requires s1.rounds == s.rounds && s1.retries == s.retries && s1.replays == s.replays
    requires Gone(s1, s2, tag, Ack)
    ensures Quiet(s2) && s2.broker == s.broker - {m} && AllReady(s2.broker)
    ensures s2.outbox == s1.outbox && s1.now <= s2.now
  {
    assert s2.broker == s1.broker - {m};
  }

  lemma LeasesStillOver(cfg: Config, s: State, s': State)
    requires LeasesOver(cfg, s) && s'.events == s.events && s'.outbox == s.outbox && s.now <= s'.now
    ensures LeasesOver(cfg, s')
  {
  }

  lemma MessageKnown(cfg: Config, r: Run, m: nat)
    requires Protocol.Valid(cfg, r) && m in Last(cfg, r).broker
    ensures Last(cfg, r).broker[m].event in Last(cfg, r).events
  {
    RunShape(cfg, r);
  }

  lemma OneStepOn(r: Run, step: Step)
    requires !step.Replayer?
    ensures Follows(Then(r, step), r, true)
  {
  }

  method DrainMessage(system: System, m: nat, outcome: EventId -> nat -> bool, requeueDelay: nat,
      ghost before: EventTable)
    requires system.Valid() && system.alone && system.healthy && m in system.broker
    requires Quiet(system.Snapshot()) && AllReady(system.broker) && LeasesOver(system.cfg, system.Snapshot())
    requires Settled(system.cfg, before, system.events, outcome)
    modifies system
    ensures system.Valid() && Follows(system.run, old(system.run), true)
    ensures Quiet(system.Snapshot()) && AllReady(system.broker) && LeasesOver(system.cfg, system.Snapshot())
    ensures Settled(system.cfg, before, system.events, outcome)
    ensures system.broker == old(system.broker) - {m} && system.outbox == old(system.outbox)
  {
    hide Protocol.Valid; hide Last; hide LeasesOver; hide Settled; hide Handled; hide ClaimOf;
    hide Quiet; hide Gone; hide Follows;
    MessageKnown(system.cfg, system.run, m);
    var e := system.broker[m].event;
    ghost var s := system.Snapshot();
    var tag := system.Receive(m);
    OneStepOn(old(system.run), Worker(Deliver(m)));
    ghost var s1 := system.Snapshot();
    LeasesStillOver(system.cfg, s, s1);
    DeliveryFinishes(system.cfg, s1, e, outcome(e));
    var _, _, _ := HandleDelivery(system, tag, outcome(e), requeueDelay, old(system.run));
    QuietAfterDelivery(s, s1, system.Snapshot(), m, tag);
    SettledOn(system.cfg, before, s1, system.Snapshot(), e, outcome);
  }

  /** Handle deliveries until the queue is empty. */
  method DrainBroker(system: System, outcome: EventId -> nat -> bool, requeueDelay: nat)
    requires system.Valid() && system.alone && system.healthy
    requires Quiet(system.Snapshot()) && AllReady(system.broker) && LeasesOver(system.cfg, system.Snapshot())
    modifies system
    ensures system.Valid() && Follows(system.run, old(system.run), true)
    ensures Quiet(system.Snapshot()) && system.broker == map[] && system.outbox == old(system.outbox)
    ensures Settled(system.cfg, old(system.events), system.events, outcome)
  {
    assert Follows(system.run, old(system.run), true);
    hide Protocol.Valid; hide Last; hide LeasesOver; hide Follows; hide FinishedRow;
    while system.broker != map[]
      invariant system.Valid() && Follows(system.run, old(system.run), true)
      invariant Quiet(system.Snapshot()) && AllReady(system.broker) && LeasesOver(system.cfg, system.Snapshot())
      invariant Settled(system.cfg, old(system.events), system.events, outcome) && system.outbox == old(system.outbox)
      decreases |system.broker.Keys|
    {
      var m :| m in system.broker;
      ghost var earlier, broker := system.run, system.broker;
      DrainMessage(system, m, outcome, requeueDelay, old(system.events));
      FollowsOn(system.run, earlier, old(system.run));
      assert system.broker.Keys == broker.Keys - {m};
    }
  }

  // ----- recovery

  /** To be processed, but with neither an unpublished row nor any message. */
  ghost predicate Stranded(s: State, e: EventId) {
    Active(s, e) && !Pending(s, e) && forall m | m in s.broker :: s.broker[m].event != e
  }

  lemma QuietVerdict(s: State, e: EventId)
    requires Quiet(s)
    ensures Stranded(s, e) ==> Abandoned(s, e)
    ensures !Stranded(s, e) ==> Covered(s, e)
  {
    assert forall m | m in s.broker :: Kept(s, m);
  }

  /** Once the outbox and the broker are empty, the live events are those that were stranded before. */
  lemma DrainedVerdict(cfg: Config, r: Run, earlier: Run, e: EventId)
    requires Protocol.Valid(cfg, r) && Protocol.Valid(cfg, earlier) && Follows(r, earlier, true)
    requires Quiet(Last(cfg, earlier)) && Unpublished(Last(cfg, r).outbox) == {} && Last(cfg, r).broker == map[]
    ensures Active(Last(cfg, r), e) <==> Stranded(Last(cfg, earlier), e)
  {
    QuietVerdict(Last(cfg, earlier), e);
    if Stranded(Last(cfg, earlier), e) {
      AbandonedFollows(cfg, r, earlier, e);
    } else {
      CoverFollows(cfg, r, earlier, e);
      assert e !in Unpublished(Last(cfg, r).outbox);
    }
  }

  /** The events table a recovery ends with: every live event that was not stranded is finished. */
  ghost function Recovered(cfg: Config, s: State, outcome: EventId -> nat -> bool): EventTable {
    map e | e in s.events ::
      if Active(s, e) && !Stranded(s, e) then FinishedRow(cfg, s.events[e], outcome(e)) else s.events[e]
  }

  lemma DrainedRecovered(cfg: Config, r: Run, earlier: Run, outcome: EventId -> nat -> bool)
    requires Protocol.Valid(cfg, r) && Protocol.Valid(cfg, earlier) && Follows(r, earlier, true)
    requires Quiet(Last(cfg, earlier)) && Unpublished(Last(cfg, r).outbox) == {} && Last(cfg, r).broker == map[]
    requires Settled(cfg, Last(cfg, earlier).events, Last(cfg, r).events, outcome)
    ensures Last(cfg, r).events == Recovered(cfg, Last(cfg, earlier), outcome)
  {
    hide Protocol.Valid; hide Last; hide Stranded; hide Quiet; hide Follows; hide Unpublished;
    var before, after := Last(cfg, earlier), Last(cfg, r);
    forall e | e in before.events
      ensures after.events[e] == Recovered(cfg, before, outcome)[e]
    {
      DrainedVerdict(cfg, r, earlier, e);
      assert !Live(FinishedRow(cfg, before.events[e], outcome(e)).status);
    }
  }

  lemma SameRecovery(cfg: Config, s: State, s': State, outcome: EventId -> nat -> bool)
    requires s'.events == s.events && s'.outbox == s.outbox && s'.broker.Keys == s.broker.Keys
    requires forall m | m in s.broker :: s'.broker[m].event == s.broker[m].event
    ensures Recovered(cfg, s', outcome) == Recovered(cfg, s, outcome)
  {
    hide FinishedRow;
    forall e ensures Stranded(s', e) <==> Stranded(s, e) {
    }
  }

  /** Where the effective replays of the past were fenced, recovery finishes every event. */
  lemma FencedRecovers(cfg: Config, r: Run, outcome: EventId -> nat -> bool)
    requires Protocol.Valid(cfg, r) && ReplaysFenced(cfg, r)
    ensures var events := Recovered(cfg, Last(cfg, r), outcome);
            && events.Keys == Last(cfg, r).events.Keys
            && forall e | e in events :: events[e].status == Processed || events[e].status == Failed
  {
    forall e ensures !Stranded(Last(cfg, r), e) {
      NoEventLost(cfg, r, e);
    }
  }

  /** From every state any run can reach: after an outage, one dispatcher and then one worker on a healthy system empty
      outbox and queue, and exactly the events that were not stranded before end Processed or Failed. */
  method Recover(system: System, outcome: EventId -> nat -> bool, requeueDelay: nat) returns (rounds: nat)
    requires system.Valid() && system.alone && system.healthy && system.cfg.batchSize > 0
    modifies system
    ensures system.Valid() && Follows(system.run, old(system.run), true) && Quiet(system.Snapshot())
    ensures Unpublished(system.outbox) == {} && system.broker == map[]
    ensures system.events == Recovered(system.cfg, old(system.Snapshot()), outcome)
    ensures var n := |old(Unpublished(system.outbox))|; n <= rounds * system.cfg.batchSize < n + system.cfg.batchSize
  {
    hide Protocol.Valid; hide Last; hide LeasesOver; hide Follows; hide Quiet; hide AllReady; hide Recovered;
    hide Unpublished;
    hide Settled;
    Outage(system);
    ghost var outage := system.run;
    SameRecovery(system.cfg, old(system.Snapshot()), system.Snapshot(), outcome);
    rounds := DrainOutbox(system);
    ghost var drained := system.run;
    DrainBroker(system, outcome, requeueDelay);
    FollowsOn(system.run, drained, outage);
    FollowsOn(system.run, outage, old(system.run));
    DrainedRecovered(system.cfg, system.run, outage, outcome);
  }
}
