/** Terminal statuses and dead letters are earned: each goes back to processor calls that ended as it says. */
module CallRecord {
  import opened Rows
  import opened Protocol
  import opened Frames

  /** The processor call at `attempt` of the delivery `tag` returned, without error iff `ok`. */
  datatype Outcome = Outcome(tag: nat, attempt: nat, ok: bool)

  function NewOutcomes(s: State, step: Step, e: EventId): set<Outcome> {
    if step.Worker? && step.work.FinishCall? && step.work.tag in s.handlings && s.handlings[step.work.tag].event == e
       && s.handlings[step.work.tag].phase.Calling?
    then {Outcome(step.work.tag, s.handlings[step.work.tag].phase.attempt, step.work.ok)} else {}
  }

  /** All processor calls for `e` that have returned in the run. */
  function Outcomes(cfg: Config, r: Run, e: EventId): set<Outcome>
    requires Valid(cfg, r)
  {
    match r
    case Start => {}
    case Then(p, step) => Outcomes(cfg, p, e) + NewOutcomes(Last(cfg, p), step, e)
  }

  predicate FailedBelow(outcomes: set<Outcome>, t: nat, k: nat) {
    forall j | 1 <= j < k :: Outcome(t, j, false) in outcomes
  }

  /** All M+1 calls of delivery `t` failed. */
  predicate AllFailed(cfg: Config, outcomes: set<Outcome>, t: nat) {
    FailedBelow(outcomes, t, cfg.maxRetries + 2)
  }

  /** Delivery `t` succeeded at attempt `k`, after `k - 1` failures. */
  predicate SucceededAt(outcomes: set<Outcome>, t: nat, k: nat) {
    FailedBelow(outcomes, t, k) && Outcome(t, k, true) in outcomes
  }

  /** What the phase of a delivery says of its calls. */
  predicate Backed(cfg: Config, phase: Phase, outcomes: set<Outcome>, t: nat) {
    match phase
    case Claimed(k) => FailedBelow(outcomes, t, k)
    case Calling(k) => FailedBelow(outcomes, t, k)
    case Sleeping(k) => FailedBelow(outcomes, t, k + 1)
    case Succeeded(k) => SucceededAt(outcomes, t, k)
    case Exhausted => AllFailed(cfg, outcomes, t)
    case Buried => AllFailed(cfg, outcomes, t)
    case _ => true
  }

  ghost predicate GaveUp(cfg: Config, outcomes: set<Outcome>) {
    exists t :: AllFailed(cfg, outcomes, t)
  }

  ghost predicate HandlingsBacked(cfg: Config, handlings: map<nat, Handling>, outcomes: set<Outcome>, e: EventId) {
    forall t | t in handlings && handlings[t].event == e :: Backed(cfg, handlings[t].phase, outcomes, t)
  }

  ghost predicate RowEarned(cfg: Config, events: EventTable, outcomes: set<Outcome>, e: EventId) {
    e in events ==>
      && (events[e].status.Processed? ==> exists t :: SucceededAt(outcomes, t, events[e].attempts))
      && (events[e].status.Failed? ==> events[e].attempts == cfg.maxRetries + 1 && GaveUp(cfg, outcomes))
  }

  ghost predicate Earned(cfg: Config, s: State, outcomes: set<Outcome>, e: EventId) {
    && HandlingsBacked(cfg, s.handlings, outcomes, e)
    && RowEarned(cfg, s.events, outcomes, e)
    && (e in s.letters ==> GaveUp(cfg, outcomes))
  }

  lemma MoreOutcomes(cfg: Config, s: State, outcomes: set<Outcome>, more: set<Outcome>, e: EventId)
    requires Earned(cfg, s, outcomes, e) && outcomes <= more
    ensures Earned(cfg, s, more, e)
  {
    assert forall t, k :: FailedBelow(outcomes, t, k) ==> FailedBelow(more, t, k);
    assert forall t :: AllFailed(cfg, outcomes, t) ==> AllFailed(cfg, more, t);
    assert forall t, k :: SucceededAt(outcomes, t, k) ==> SucceededAt(more, t, k);
  }

  /** One delivery moves to a phase that its calls back. */
  lemma MoveBacked(cfg: Config, handlings: map<nat, Handling>, handlings': map<nat, Handling>, outcomes: set<Outcome>,
                   e: EventId, t: nat)
    requires HandlingsBacked(cfg, handlings, outcomes, e)
    requires t in handlings && t in handlings' && handlings' == handlings[t := handlings'[t]]
    requires handlings'[t].event == e ==> Backed(cfg, handlings'[t].phase, outcomes, t)
    ensures HandlingsBacked(cfg, handlings', outcomes, e)
  {
  }

  lemma MovedPhaseBacked(cfg: Config, s: State, step: WorkerStep, outcomes: set<Outcome>, e: EventId)
    requires WorkerCan(s, step) && !step.Deliver? && !step.Settle? && s.handlings[step.tag].event == e
    requires Backed(cfg, s.handlings[step.tag].phase, outcomes, step.tag)
    requires NewOutcomes(s, Worker(step), e) <= outcomes
    ensures Backed(cfg, WorkerDoes(cfg, s, step).handlings[step.tag].phase, outcomes, step.tag)
  {
  }

  lemma HandlingsStayBacked(cfg: Config, s: State, step: WorkerStep, outcomes: set<Outcome>, e: EventId)
    requires WorkerCan(s, step) && HandlingsBacked(cfg, s.handlings, outcomes, e)
    requires NewOutcomes(s, Worker(step), e) <= outcomes
    ensures HandlingsBacked(cfg, WorkerDoes(cfg, s, step).handlings, outcomes, e)
  {
    hide Backed;
    WorkerFrame(cfg, s, step);
    if step.Deliver? || step.Settle? {
      assert Backed(cfg, Received, outcomes, s.nextId) by {
        FreshBacked(cfg, outcomes, s.nextId);
      }
    } else {
      hide WorkerDoes;
      if s.handlings[step.tag].event == e {
        MovedPhaseBacked(cfg, s, step, outcomes, e);
      }
      SameEvent(cfg, s, step);
      MoveBacked(cfg, s.handlings, WorkerDoes(cfg, s, step).handlings, outcomes, e, step.tag);
    }
  }

  lemma FreshBacked(cfg: Config, outcomes: set<Outcome>, t: nat)
    ensures Backed(cfg, Received, outcomes, t)
  {
  }

  lemma SameEvent(cfg: Config, s: State, step: WorkerStep)
    requires WorkerCan(s, step) && !step.Deliver? && !step.Settle?
    ensures step.tag in WorkerDoes(cfg, s, step).handlings
    ensures WorkerDoes(cfg, s, step).handlings[step.tag].event == s.handlings[step.tag].event
  {
  }

  lemma WorkerRowEarned(cfg: Config, s: State, step: WorkerStep, outcomes: set<Outcome>, e: EventId)
    requires WorkerCan(s, step) && Earned(cfg, s, outcomes, e)
    ensures var s' := WorkerDoes(cfg, s, step);
            RowEarned(cfg, s'.events, outcomes, e) && (e in s'.letters ==> GaveUp(cfg, outcomes))
  {
    hide FailedBelow;
    WorkerFrame(cfg, s, step);
    if !step.Deliver? && s.handlings[step.tag].event == e {
      assert Backed(cfg, s.handlings[step.tag].phase, outcomes, step.tag);
    }
  }

  lemma StepKeepsEarned(cfg: Config, s: State, step: Step, outcomes: set<Outcome>, e: EventId)
    requires Enabled(cfg, s, step) && Earned(cfg, s, outcomes, e) && NewOutcomes(s, step, e) <= outcomes
    ensures Earned(cfg, Apply(cfg, s, step), outcomes, e)
  {
    hide Backed; hide GaveUp; hide EnvironmentDoes; hide DispatcherDoes; hide WorkerDoes; hide ReplayerDoes;
    hide DispatcherCan; hide WorkerCan; hide ReplayerCan; hide NewOutcomes;
    match step {
      case Environment(env) => EnvironmentFrame(s, env);
      case Dispatcher(dispatch) => DispatcherFrame(cfg, s, dispatch);
      case Worker(work) =>
        hide HandlingsBacked; hide RowEarned;
        HandlingsStayBacked(cfg, s, work, outcomes, e);
        WorkerRowEarned(cfg, s, work, outcomes, e);
      case Replayer(replay) =>
        ReplayerFrame(cfg, s, replay);
        ReplayerLetters(cfg, s, replay);
    }
  }

  lemma ReplayerLetters(cfg: Config, s: State, step: ReplayerStep)
    requires ReplayerCan(cfg, s, step)
    ensures ReplayerDoes(cfg, s, step).letters.Keys == s.letters.Keys
  {
  }

  lemma {:induction false} RunEarned(cfg: Config, r: Run, e: EventId)
    requires Valid(cfg, r)
    ensures Earned(cfg, Last(cfg, r), Outcomes(cfg, r, e), e)
  {
    match r
    case Start =>
    case Then(p, step) =>
      RunEarned(cfg, p, e);
      hide Earned; hide Enabled; hide Apply; hide NewOutcomes;
      MoreOutcomes(cfg, Last(cfg, p), Outcomes(cfg, p, e), Outcomes(cfg, r, e), e);
      StepKeepsEarned(cfg, Last(cfg, p), step, Outcomes(cfg, r, e), e);
  }

  /** A processed event had a call that succeeded at the attempt its row records, after failures at all earlier attempts
      of the same delivery. A failed event and a dead letter had M+1 failed calls of one delivery. */
  lemma TerminalIsEarned(cfg: Config, r: Run, e: EventId)
    requires Valid(cfg, r)
    ensures var s, outcomes := Last(cfg, r), Outcomes(cfg, r, e);
            && (e in s.events && s.events[e].status.Processed? ==>
                  exists t :: SucceededAt(outcomes, t, s.events[e].attempts))
            && (e in s.events && s.events[e].status.Failed? ==>
                  s.events[e].attempts == cfg.maxRetries + 1 && GaveUp(cfg, outcomes))
            && (e in s.letters ==> GaveUp(cfg, outcomes))
  {
    RunEarned(cfg, r, e);
    hide HandlingsBacked; hide GaveUp; hide SucceededAt; hide Last; hide Outcomes; hide Valid;
  }
}
