/** How often an event can be claimed and processed, with no hypothesis on leases, however many duplicate messages the
    broker holds. */
module Accounting {
  import opened Rows
  import opened Protocol
  import opened Shape
  import opened Frames
  import opened Leases

  /** The step is a claim UPDATE that reaches the database and matches the row of `e`. */
  predicate TakesClaim(cfg: Config, s: State, step: Step, e: EventId) {
    && step.Worker? && step.work.Claim? && !step.work.db.Refused?
    && step.work.tag in s.handlings && s.handlings[step.work.tag].event == e
    && e in s.events && Claimable(s.events[e], step.work.stamp, cfg.processingLease)
  }

  function Claims(cfg: Config, r: Run, e: EventId): nat
    requires Valid(cfg, r)
  {
    match r
    case Start => 0
    case Then(p, step) => Claims(cfg, p, e) + (if TakesClaim(cfg, Last(cfg, p), step, e) then 1 else 0)
  }

  /** Claims that took over an expired lease. */
  function Reclaims(cfg: Config, r: Run, e: EventId): nat
    requires Valid(cfg, r)
  {
    match r
    case Start => 0
    case Then(p, step) =>
      Reclaims(cfg, p, e) +
      (if TakesClaim(cfg, Last(cfg, p), step, e) && Last(cfg, p).events[e].status.Processing? then 1 else 0)
  }

  function Replays(cfg: Config, r: Run, e: EventId): nat
    requires Valid(cfg, r)
  {
    match r
    case Start => 0
    case Then(p, step) => Replays(cfg, p, e) + (if EffectiveReplay(Last(cfg, p), step, e) then 1 else 0)
  }

  /** 0 while the event is absent or queued, 1 once its place in the queue has been used. */
  function Used(s: State, e: EventId): nat {
    if e in s.events && !s.events[e].status.Queued? then 1 else 0
  }

  lemma WorkerUses(cfg: Config, s: State, step: WorkerStep, e: EventId)
    requires WorkerCan(s, step)
    ensures var fromQueue := TakesClaim(cfg, s, Worker(step), e) && !s.events[e].status.Processing?;
            (if fromQueue then 1 else 0) + Used(s, e) <= Used(WorkerDoes(cfg, s, step), e)
  {
    WorkerFrame(cfg, s, step);
  }

  lemma StepUses(cfg: Config, s: State, step: Step, e: EventId)
    requires Enabled(cfg, s, step)
    ensures var fromQueue := TakesClaim(cfg, s, step, e) && !s.events[e].status.Processing?;
            (if fromQueue then 1 else 0) + Used(s, e)
            <= Used(Apply(cfg, s, step), e) + (if EffectiveReplay(s, step, e) then 1 else 0)
  {
    hide EnvironmentDoes; hide DispatcherDoes; hide WorkerDoes; hide ReplayerDoes; hide DispatcherCan; hide WorkerCan;
    hide ReplayerCan;
    match step {
      case Environment(env) => EnvironmentFrame(s, env);
      case Dispatcher(dispatch) => DispatcherFrame(cfg, s, dispatch);
      case Worker(work) => WorkerUses(cfg, s, work, e);
      case Replayer(replay) => ReplayerFrame(cfg, s, replay);
    }
  }

  lemma {:induction false} ClaimBalance(cfg: Config, r: Run, e: EventId)
    requires Valid(cfg, r)
    ensures Claims(cfg, r, e) <= Used(Last(cfg, r), e) + Replays(cfg, r, e) + Reclaims(cfg, r, e)
  {
    match r
    case Start =>
    case Then(p, step) =>
      ClaimBalance(cfg, p, e);
      hide Enabled; hide Apply; hide TakesClaim; hide EffectiveReplay; hide Used;
      StepUses(cfg, Last(cfg, p), step, e);
  }

  /** An event is claimed at most once, plus once per effective replay, plus once per expired lease. */
  lemma ClaimsBounded(cfg: Config, r: Run, e: EventId)
    requires Valid(cfg, r)
    ensures Claims(cfg, r, e) <= 1 + Replays(cfg, r, e) + Reclaims(cfg, r, e)
  {
    ClaimBalance(cfg, r, e);
  }

  // ----- processor calls

  /** A processor call, named by its delivery tag and attempt number. */
  datatype Call = Call(tag: nat, attempt: nat)

  function NewTags(cfg: Config, s: State, step: Step, e: EventId): set<nat> {
    if TakesClaim(cfg, s, step, e) then {step.work.tag} else {}
  }

  function NewCalls(s: State, step: Step, e: EventId): set<Call> {
    if StartsCall(s, step, e) && s.handlings[step.work.tag].phase.Claimed?
    then {Call(step.work.tag, s.handlings[step.work.tag].phase.attempt)} else {}
  }

  /** The delivery tags under which `e` was claimed. */
  function ClaimTags(cfg: Config, r: Run, e: EventId): set<nat>
    requires Valid(cfg, r)
  {
    match r
    case Start => {}
    case Then(p, step) => ClaimTags(cfg, p, e) + NewTags(cfg, Last(cfg, p), step, e)
  }

  function CallNames(cfg: Config, r: Run, e: EventId): set<Call>
    requires Valid(cfg, r)
  {
    match r
    case Start => {}
    case Then(p, step) => CallNames(cfg, p, e) + NewCalls(Last(cfg, p), step, e)
  }

  /** The attempt a working handling has reached; attempts up to it may have been called. */
  function Reached(cfg: Config, phase: Phase): nat {
    match phase
    case Claimed(k) => if k == 0 then 0 else k - 1
    case Calling(k) => k
    case Sleeping(k) => k
    case Succeeded(k) => k
    case _ => cfg.maxRetries + 1
  }

  type Handlings = map<nat, Handling>

  ghost predicate LedgerOk(cfg: Config, handlings: Handlings, nextId: nat, e: EventId,
                           tags: set<nat>, calls: set<Call>) {
    && (forall t | t in tags :: t < nextId && (t in handlings ==> !handlings[t].phase.Received?))
    && (forall t | t in handlings && Working(handlings[t].phase) && handlings[t].event == e :: t in tags)
    && (forall c | c in calls ::
          && c.tag in tags && 1 <= c.attempt <= cfg.maxRetries + 1
          && (c.tag in handlings && Working(handlings[c.tag].phase) ==>
               c.attempt <= Reached(cfg, handlings[c.tag].phase)))
  }

  lemma ClaimLedger(cfg: Config, handlings: Handlings, nextId: nat, e: EventId, tags: set<nat>, calls: set<Call>,
                    t: nat, h: Handling, taken: bool)
    requires LedgerOk(cfg, handlings, nextId, e, tags, calls)
    requires t in handlings && handlings[t].phase.Received? && t < nextId
    requires h.event == handlings[t].event && !h.phase.Received?
    requires Working(h.phase) && h.event == e ==> taken
    ensures t !in tags
    ensures LedgerOk(cfg, handlings[t := h], nextId, e, tags + (if taken then {t} else {}), calls)
  {
    assert forall c | c in calls :: c.tag != t;
  }

  /** A handling that moves on, possibly by starting the call of the attempt it has reached. */
  lemma MoveLedger(cfg: Config, handlings: Handlings, nextId: nat, e: EventId, tags: set<nat>, calls: set<Call>,
                   t: nat, h: Handling, started: bool)
    requires LedgerOk(cfg, handlings, nextId, e, tags, calls)
    requires t in handlings && !handlings[t].phase.Received? && !h.phase.Received? && h.event == handlings[t].event
    requires Working(h.phase) ==>
              Working(handlings[t].phase) && Reached(cfg, handlings[t].phase) <= Reached(cfg, h.phase)
    requires started ==>
               && h.event == e && handlings[t].phase.Claimed?
               && 1 <= handlings[t].phase.attempt <= cfg.maxRetries + 1
               && h.phase == Calling(handlings[t].phase.attempt)
    ensures started ==> Call(t, handlings[t].phase.attempt) !in calls
    ensures LedgerOk(cfg, handlings[t := h], nextId, e, tags,
                     calls + (if started then {Call(t, handlings[t].phase.attempt)} else {}))
  {
  }

  /** Agents that disappear, or a new delivery, put nothing into the ledger. */
  lemma OtherLedger(cfg: Config, handlings: Handlings, nextId: nat, e: EventId, tags: set<nat>, calls: set<Call>,
                    handlings': Handlings, nextId': nat)
    requires LedgerOk(cfg, handlings, nextId, e, tags, calls) && nextId <= nextId'
    requires forall t | t in handlings' :: if t in handlings then handlings'[t] == handlings[t]
                                           else nextId <= t && handlings'[t].phase.Received?
    ensures LedgerOk(cfg, handlings', nextId', e, tags, calls)
  {
  }

  /** The names a step adds are new, and the ledger accepts them. */
  ghost predicate LedgerStep(cfg: Config, s: State, step: Step, s': State, e: EventId, tags: set<nat>,
      calls: set<Call>) {
    && tags !! NewTags(cfg, s, step, e) && calls !! NewCalls(s, step, e)
    && (StartsCall(s, step, e) ==> NewCalls(s, step, e) != {})
    && LedgerOk(cfg, s'.handlings, s'.nextId, e, tags + NewTags(cfg, s, step, e), calls + NewCalls(s, step, e))
  }

  lemma WorkerKeepsLedger(cfg: Config, s: State, step: WorkerStep, e: EventId, tags: set<nat>, calls: set<Call>)
    requires WorkerCan(s, step) && LedgerOk(cfg, s.handlings, s.nextId, e, tags, calls)
    requires forall t | t in s.handlings :: t < s.nextId && PhaseOk(cfg, s.handlings[t].phase)
    ensures LedgerStep(cfg, s, Worker(step), WorkerDoes(cfg, s, step), e, tags, calls)
  {
    hide LedgerOk;
    var s' := WorkerDoes(cfg, s, step);
    assert tags + {} == tags && calls + {} == calls;
    if step.Deliver? || step.Settle? {
      OtherLedger(cfg, s.handlings, s.nextId, e, tags, calls, s'.handlings, s'.nextId);
    } else if step.Claim? {
      ClaimLedger(cfg, s.handlings, s.nextId, e, tags, calls, step.tag, s'.handlings[step.tag],
                  TakesClaim(cfg, s, Worker(step), e));
    } else {
      MoveLedger(cfg, s.handlings, s.nextId, e, tags, calls, step.tag, s'.handlings[step.tag],
                 StartsCall(s, Worker(step), e));
    }
  }

  lemma OthersKeepLedger(cfg: Config, s: State, step: Step, e: EventId, tags: set<nat>, calls: set<Call>)
    requires Enabled(cfg, s, step) && LedgerOk(cfg, s.handlings, s.nextId, e, tags, calls) && !step.Worker?
    ensures LedgerStep(cfg, s, step, Apply(cfg, s, step), e, tags, calls)
  {
    hide LedgerOk; hide EnvironmentDoes; hide DispatcherDoes; hide ReplayerDoes;
    hide EnvironmentCan; hide DispatcherCan; hide ReplayerCan;
    var s' := Apply(cfg, s, step);
    match step {
      case Environment(env) => EnvironmentFrame(s, env);
      case Dispatcher(dispatch) => DispatcherFrame(cfg, s, dispatch);
      case Replayer(replay) => ReplayerFrame(cfg, s, replay);
    }
    OtherLedger(cfg, s.handlings, s.nextId, e, tags, calls, s'.handlings, s'.nextId);
    assert tags + {} == tags && calls + {} == calls;
  }

  lemma StepKeepsLedger(cfg: Config, s: State, step: Step, e: EventId, tags: set<nat>, calls: set<Call>)
    requires Enabled(cfg, s, step) && WellShaped(cfg, s) && LedgerOk(cfg, s.handlings, s.nextId, e, tags, calls)
    ensures LedgerStep(cfg, s, step, Apply(cfg, s, step), e, tags, calls)
  {
    AllHandlings(cfg, s);
    hide WellShaped; hide LedgerOk; hide WorkerDoes; hide WorkerCan; hide LedgerStep;
    if step.Worker? {
      WorkerKeepsLedger(cfg, s, step.work, e, tags, calls);
    } else {
      OthersKeepLedger(cfg, s, step, e, tags, calls);
    }
  }

  lemma NewNames(cfg: Config, s: State, step: Step, e: EventId)
    ensures |NewTags(cfg, s, step, e)| == if TakesClaim(cfg, s, step, e) then 1 else 0
    ensures StartsCall(s, step, e) && NewCalls(s, step, e) != {} ==> |NewCalls(s, step, e)| == 1
    ensures !StartsCall(s, step, e) ==> |NewCalls(s, step, e)| == 0
  {
  }

  lemma AddedSizes(tags: set<nat>, moreTags: set<nat>, calls: set<Call>, moreCalls: set<Call>)
    requires tags !! moreTags && calls !! moreCalls
    ensures |tags + moreTags| == |tags| + |moreTags| && |calls + moreCalls| == |calls| + |moreCalls|
  {
  }

  lemma {:induction false} RunLedger(cfg: Config, r: Run, e: EventId)
    requires Valid(cfg, r)
    ensures LedgerOk(cfg, Last(cfg, r).handlings, Last(cfg, r).nextId, e, ClaimTags(cfg, r, e), CallNames(cfg, r, e))
    ensures |ClaimTags(cfg, r, e)| == Claims(cfg, r, e) && |CallNames(cfg, r, e)| == Calls(cfg, r, e)
  {
    match r
    case Start =>
    case Then(p, step) =>
      RunLedger(cfg, p, e);
      RunShape(cfg, p);
      hide WellShaped; hide LedgerOk; hide Enabled; hide Apply; hide TakesClaim; hide StartsCall; hide NewTags;
      hide NewCalls;
      var s, tags, calls := Last(cfg, p), ClaimTags(cfg, p, e), CallNames(cfg, p, e);
      StepKeepsLedger(cfg, s, step, e, tags, calls);
      NewNames(cfg, s, step, e);
      AddedSizes(tags, NewTags(cfg, s, step, e), calls, NewCalls(s, step, e));
  }

  lemma OneMore(n: nat, m: nat)
    ensures n * (m + 1) == n * m + n
  {
  }

  function Under(calls: set<Call>, t: nat): set<Call> {
    set c | c in calls && c.tag == t
  }

  lemma SplitCalls(calls: set<Call>, t: nat)
    ensures |calls| == |calls - Under(calls, t)| + |Under(calls, t)|
  {
    assert calls == (calls - Under(calls, t)) + Under(calls, t);
  }

  /** Calls over `size` tags with attempts 1..n: at most n per tag. */
  lemma {:induction false} CallsPerTag(calls: set<Call>, tags: set<nat>, size: nat, n: nat)
    requires size == |tags|
    requires forall c | c in calls :: c.tag in tags && 1 <= c.attempt <= n
    ensures |calls| <= n * size
    decreases size
  {
    if size == 0 {
      assert calls == {};
    } else {
      var t :| t in tags;
      CallsPerTag(calls - Under(calls, t), tags - {t}, size - 1, n);
      CallsOfTag(Under(calls, t), t, n);
      hide Under;
      SplitCalls(calls, t);
      OneMore(n, size - 1);
    }
  }

  lemma {:induction false} CallsOfTag(calls: set<Call>, t: nat, n: nat)
    requires forall c | c in calls :: c.tag == t && 1 <= c.attempt <= n
    ensures |calls| <= n
  {
    if n == 0 {
      assert calls == {};
    } else {
      CallsOfTag(calls - {Call(t, n)}, t, n - 1);
    }
  }

  /** Each claim leads to at most M+1 processor calls. */
  lemma CallsBounded(cfg: Config, r: Run, e: EventId)
    requires Valid(cfg, r)
    ensures Calls(cfg, r, e) <= (cfg.maxRetries + 1) * Claims(cfg, r, e)
  {
    RunLedger(cfg, r, e);
    CallsPerTag(CallNames(cfg, r, e), ClaimTags(cfg, r, e), Claims(cfg, r, e), cfg.maxRetries + 1);
  }
}
