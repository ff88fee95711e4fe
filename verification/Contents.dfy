/** What every reachable state owes to the first acceptance of an id, and what no delivery or replay ever meets. */
module Contents {
  import opened Rows
  import opened Protocol
  import opened Shape
  import opened Frames

  /** The content submitted when `e` was accepted in the run. */
  function FirstAccepted(cfg: Config, r: Run, e: EventId): Option<Content>
    requires Valid(cfg, r)
  {
    match r
    case Start => None
    case Then(p, step) =>
      if step.Environment? && step.env.Accept? && step.env.event == e && FirstAccepted(cfg, p, e).None?
      then Some(step.env.content)
      else FirstAccepted(cfg, p, e)
  }

  function Known(events: EventTable, e: EventId): Option<Content> {
    if e in events then Some(events[e].content) else None
  }

  lemma WorkerKeepsContent(cfg: Config, s: State, step: WorkerStep, e: EventId)
    requires WorkerCan(s, step)
    ensures Known(WorkerDoes(cfg, s, step).events, e) == Known(s.events, e)
  {
    WorkerFrame(cfg, s, step);
  }

  lemma StepKeepsContent(cfg: Config, s: State, step: Step, e: EventId)
    requires Enabled(cfg, s, step)
    ensures Known(Apply(cfg, s, step).events, e) ==
            if step.Environment? && step.env.Accept? && step.env.event == e then Some(step.env.content)
                else Known(s.events, e)
    ensures step.Environment? && step.env.Accept? && step.env.event == e ==> Known(s.events, e).None?
  {
    hide EnvironmentDoes; hide DispatcherDoes; hide WorkerDoes; hide ReplayerDoes; hide DispatcherCan; hide WorkerCan;
    hide ReplayerCan;
    match step {
      case Environment(env) => EnvironmentFrame(s, env);
      case Dispatcher(dispatch) => DispatcherFrame(cfg, s, dispatch);
      case Worker(work) => WorkerKeepsContent(cfg, s, work, e);
      case Replayer(replay) => ReplayerFrame(cfg, s, replay);
    }
  }

  lemma {:induction false} RunContent(cfg: Config, r: Run, e: EventId)
    requires Valid(cfg, r)
    ensures Known(Last(cfg, r).events, e) == FirstAccepted(cfg, r, e)
  {
    match r
    case Start =>
    case Then(p, step) =>
      RunContent(cfg, p, e);
      hide Enabled; hide Apply; hide Known;
      StepKeepsContent(cfg, Last(cfg, p), step, e);
  }

  /** Through any number of replays, each event row, outbox row, broker message, delivery and dead letter carries
      exactly the content first accepted for its id; an id has an event row if and only if it was accepted. */
  lemma ContentAgreement(cfg: Config, r: Run, e: EventId)
    requires Valid(cfg, r)
    ensures
      var s, first := Last(cfg, r), FirstAccepted(cfg, r, e);
      && (e in s.events <==> first.Some?)
      && (e in s.outbox <==> first.Some?)
      && (e in s.events ==> Some(s.events[e].content) == first)
      && (e in s.outbox ==> Some(s.outbox[e].content) == first)
      && (e in s.letters ==> Some(s.letters[e].content) == first)
      && (forall m | m in s.broker && s.broker[m].event == e :: Some(s.broker[m].content) == first)
      && (forall t | t in s.handlings && s.handlings[t].event == e :: Some(s.handlings[t].content) == first)
  {
    RunContent(cfg, r, e);
    RunShape(cfg, r);
    StateContent(cfg, Last(cfg, r), e);
    hide WellShaped;
  }

  lemma StateContent(cfg: Config, s: State, e: EventId)
    requires WellShaped(cfg, s)
    ensures
      var known := Known(s.events, e);
      && (e in s.outbox <==> known.Some?)
      && (e in s.outbox ==> Some(s.outbox[e].content) == known)
      && (e in s.letters ==> Some(s.letters[e].content) == known)
      && (forall m | m in s.broker && s.broker[m].event == e :: Some(s.broker[m].content) == known)
      && (forall t | t in s.handlings && s.handlings[t].event == e :: Some(s.handlings[t].content) == known)
  {
    hide EventsOk; hide SerialsOk; hide HoldersOk; hide RoundsOk; hide RetriesOk; hide ReplaysOk; hide PhaseOk;
  }

  /** EventClaimMissing never occurs for a message the service published: the status read always finds the row, and no
      delivery is ever dropped. */
  lemma NeverMissing(cfg: Config, r: Run, t: nat)
    requires Valid(cfg, r) && t in Last(cfg, r).handlings
    ensures Last(cfg, r).handlings[t].event in Last(cfg, r).events
    ensures Last(cfg, r).handlings[t].phase != Settling(Drop)
  {
    RunShape(cfg, r);
    hide EventsOk; hide OutboxOk; hide SerialsOk; hide LettersOk; hide BrokerOk; hide HandlingsOk; hide HoldersOk;
    hide RoundsOk; hide RetriesOk; hide ReplaysOk;
    HandlingFacts(cfg, Last(cfg, r), Accepted(Last(cfg, r).events), t);
  }

  /** Replaying a failed event never reports a missing dead letter. */
  lemma FailedIsReplayable(cfg: Config, r: Run, e: EventId)
    requires Valid(cfg, r) && e in Last(cfg, r).events && Last(cfg, r).events[e].status.Failed?
    ensures Replayable(Last(cfg, r), e)
  {
    RunShape(cfg, r);
    hide OutboxOk; hide SerialsOk; hide LettersOk; hide BrokerOk; hide HandlingsOk; hide HoldersOk; hide RoundsOk;
    hide RetriesOk; hide ReplaysOk;
  }
}
