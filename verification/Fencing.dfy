/** Dispatch tokens fence off dispatchers that lost their reservation, and bound the publish marks. */
module Fencing {
  import opened Rows
  import opened Protocol
  import opened Shape
  import opened Frames

  /** The number of claims that ran under token `t`. */
  function ClaimsUnder(cfg: Config, r: Run, t: nat): nat
    requires Valid(cfg, r)
  {
    match r
    case Start => 0
    case Then(p, step) =>
      ClaimsUnder(cfg, p, t) +
      (if step.Dispatcher? && step.dispatch.ClaimBatch? && Last(cfg, p).nextId == t then 1 else 0)
  }

  /** Whether the row of `e` is reserved under token `t`. */
  predicate HeldUnder(s: State, e: EventId, t: nat) {
    e in s.outbox && s.outbox[e].token == Some(t)
  }

  /** The step marks the outbox row of `e` published. */
  predicate MarksRow(s: State, step: Step, e: EventId) {
    && step.Dispatcher? && step.dispatch.MarkPublished? && !step.dispatch.db.Refused?
    && Standing(s, step.dispatch.token, Published) && s.rounds[step.dispatch.token].items[0].event == e
    && e in s.outbox && Reserved(s.outbox[e], step.dispatch.token)
  }

  function Marks(cfg: Config, r: Run, e: EventId): nat
    requires Valid(cfg, r)
  {
    match r
    case Start => 0
    case Then(p, step) => Marks(cfg, p, e) + (if MarksRow(Last(cfg, p), step, e) then 1 else 0)
  }

  /** Replay commits, effective or not: each of them reopens the row. */
  function Commits(cfg: Config, r: Run, e: EventId): nat
    requires Valid(cfg, r)
  {
    match r
    case Start => 0
    case Then(p, step) => Commits(cfg, p, e) + (if CommitsReplay(Last(cfg, p), step, e) then 1 else 0)
  }

  function Marked(s: State, e: EventId): nat {
    if e in s.outbox && s.outbox[e].publishedAt.Some? then 1 else 0
  }

  lemma DispatcherMarks(cfg: Config, s: State, step: DispatcherStep, e: EventId)
    requires DispatcherCan(cfg, s, step)
    ensures (if MarksRow(s, Dispatcher(step), e) then 1 else 0) + Marked(s, e)
            <= Marked(DispatcherDoes(cfg, s, step), e)
  {
  }

  lemma StepMarks(cfg: Config, s: State, step: Step, e: EventId)
    requires Enabled(cfg, s, step) && s.outbox.Keys <= s.events.Keys
    ensures (if MarksRow(s, step, e) then 1 else 0) + Marked(s, e)
            <= Marked(Apply(cfg, s, step), e) + (if CommitsReplay(s, step, e) then 1 else 0)
  {
    hide DispatcherDoes; hide WorkerDoes; hide ReplayerDoes; hide DispatcherCan; hide WorkerCan; hide ReplayerCan;
    match step {
      case Environment(env) =>
      case Dispatcher(dispatch) => DispatcherMarks(cfg, s, dispatch, e);
      case Worker(work) => WorkerFrame(cfg, s, work);
      case Replayer(replay) => ReplayerFrame(cfg, s, replay);
    }
  }

  lemma {:induction false} MarkBalance(cfg: Config, r: Run, e: EventId)
    requires Valid(cfg, r)
    ensures Marks(cfg, r, e) <= Marked(Last(cfg, r), e) + Commits(cfg, r, e)
  {
    match r
    case Start =>
    case Then(p, step) =>
      MarkBalance(cfg, p, e);
      RunShape(cfg, p);
      OutboxKeys(cfg, Last(cfg, p));
      hide WellShaped; hide Enabled; hide Apply; hide MarksRow; hide CommitsReplay; hide Marked;
      StepMarks(cfg, Last(cfg, p), step, e);
  }

  lemma OutboxKeys(cfg: Config, s: State)
    requires WellShaped(cfg, s)
    ensures s.outbox.Keys == s.events.Keys
    ensures forall e | e in s.outbox && s.outbox[e].token.Some? :: s.outbox[e].token.value < s.nextId
  {
    assert s.outbox.Keys == Accepted(s.events).Keys;
  }

  /** An event is marked published at most once, plus once per replay commit. */
  lemma MarksBounded(cfg: Config, r: Run, e: EventId)
    requires Valid(cfg, r)
    ensures Marks(cfg, r, e) <= 1 + Commits(cfg, r, e)
  {
    MarkBalance(cfg, r, e);
  }

  // ----- tokens

  lemma {:induction false} TokenClaimedOnce(cfg: Config, r: Run, t: nat)
    requires Valid(cfg, r)
    ensures ClaimsUnder(cfg, r, t) <= if t < Last(cfg, r).nextId then 1 else 0
  {
    match r
    case Start =>
    case Then(p, step) =>
      TokenClaimedOnce(cfg, p, t);
      NextIdGrows(cfg, Last(cfg, p), step);
      hide Apply; hide Enabled;
  }

  lemma NextIdGrows(cfg: Config, s: State, step: Step)
    requires Enabled(cfg, s, step)
    ensures s.nextId <= Apply(cfg, s, step).nextId
    ensures step.Dispatcher? && step.dispatch.ClaimBatch? ==> s.nextId < Apply(cfg, s, step).nextId
  {
    hide EnvironmentDoes; hide WorkerDoes; hide ReplayerDoes; hide WorkerCan; hide ReplayerCan;
    match step {
      case Environment(env) => EnvironmentFrame(s, env);
      case Dispatcher(dispatch) => DispatcherFrame(cfg, s, dispatch);
      case Worker(work) => WorkerFrame(cfg, s, work);
      case Replayer(replay) => ReplayerFrame(cfg, s, replay);
    }
  }

  lemma DispatcherKeepsStale(cfg: Config, s: State, step: DispatcherStep, e: EventId, t: nat)
    requires DispatcherCan(cfg, s, step) && t < s.nextId && e in s.outbox && !HeldUnder(s, e, t)
    ensures e in DispatcherDoes(cfg, s, step).outbox && !HeldUnder(DispatcherDoes(cfg, s, step), e, t)
  {
  }

  lemma StepKeepsStale(cfg: Config, s: State, step: Step, e: EventId, t: nat)
    requires Enabled(cfg, s, step) && t < s.nextId && e in s.events && e in s.outbox && !HeldUnder(s, e, t)
    ensures e in Apply(cfg, s, step).outbox && !HeldUnder(Apply(cfg, s, step), e, t)
  {
    hide DispatcherDoes; hide WorkerDoes; hide ReplayerDoes; hide DispatcherCan; hide WorkerCan; hide ReplayerCan;
    match step {
      case Environment(env) => EnvironmentFrame(s, env);
      case Dispatcher(dispatch) => DispatcherKeepsStale(cfg, s, dispatch, e, t);
      case Worker(work) => WorkerFrame(cfg, s, work);
      case Replayer(replay) => ReplayerFrame(cfg, s, replay);
    }
  }

  lemma {:induction false} StaleForever(cfg: Config, r: Run, earlier: Run, e: EventId, t: nat)
    requires Valid(cfg, r) && Continues(r, earlier) && Valid(cfg, earlier)
    requires t < Last(cfg, earlier).nextId && e in Last(cfg, earlier).outbox && !HeldUnder(Last(cfg, earlier), e, t)
    ensures t < Last(cfg, r).nextId && e in Last(cfg, r).outbox && !HeldUnder(Last(cfg, r), e, t)
  {
    if r != earlier {
      StaleForever(cfg, r.prefix, earlier, e, t);
      RunShape(cfg, r.prefix);
      OutboxKeys(cfg, Last(cfg, r.prefix));
      hide WellShaped; hide Enabled; hide Apply;
      NextIdGrows(cfg, Last(cfg, r.prefix), r.step);
      StepKeepsStale(cfg, Last(cfg, r.prefix), r.step, e, t);
    }
  }

  /** Once a row is no longer reserved under a token, no later mark under that token changes any row, and the call that
      attempts one ends. */
  lemma FencedOff(cfg: Config, r: Run, earlier: Run, e: EventId, step: DispatcherStep)
    requires Valid(cfg, r) && Continues(r, earlier) && Valid(cfg, earlier)
    requires step.MarkPublished? || step.MarkRejected?
    requires step.token < Last(cfg, earlier).nextId && e in Last(cfg, earlier).outbox
    requires !HeldUnder(Last(cfg, earlier), e, step.token)
    requires DispatcherCan(cfg, Last(cfg, r), step) && Last(cfg, r).rounds[step.token].items[0].event == e
    ensures DispatcherDoes(cfg, Last(cfg, r), step).outbox == Last(cfg, r).outbox
    ensures step.token !in DispatcherDoes(cfg, Last(cfg, r), step).rounds
  {
    StaleForever(cfg, r, earlier, e, step.token);
  }
}
