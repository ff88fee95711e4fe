/** No accepted event is lost, exactly as far as the code guarantees it.
    A replay reopens the outbox row but leaves its dispatch token in place, so a dispatcher that has published under
    that token and not yet marked the row can mark the reopened row. `Fenced` is the condition on a replay commit that
    rules this out; the events stay covered throughout a run if and only if every effective replay in it is fenced. */
module NoLoss {
  import opened Rows
  import opened Protocol
  import opened Shape

  /** A delivery whose next move takes its message off the queue. */
  predicate Leaving(h: Handling) {
    h.phase.Settling? && !h.phase.settlement.Requeue?
  }

  /** Message `m` is in the broker and no delivery is about to acknowledge it. */
  predicate Kept(s: State, m: nat) {
    && m in s.broker
    && !(s.broker[m].holder.Some? && s.broker[m].holder.value in s.handlings
         && Leaving(s.handlings[s.broker[m].holder.value]))
  }

  ghost predicate HasMessage(s: State, e: EventId) {
    exists m | m in s.broker :: s.broker[m].event == e && Kept(s, m)
  }

  predicate Pending(s: State, e: EventId) {
    e in s.outbox && s.outbox[e].publishedAt.None?
  }

  predicate Active(s: State, e: EventId) {
    e in s.events && Live(s.events[e].status)
  }

  /** Still to be processed, yet neither the outbox nor the broker will bring it to a worker. */
  ghost predicate Lost(s: State, e: EventId) {
    Active(s, e) && !Pending(s, e) && !HasMessage(s, e)
  }

  /** A live dispatcher has published `e` under the row's present token and will mark the row next. */
  predicate MarkDue(s: State, e: EventId) {
    && e in s.outbox && s.outbox[e].token.Some?
    && Standing(s, s.outbox[e].token.value, Published)
    && s.rounds[s.outbox[e].token.value].items[0].event == e
  }

  ghost predicate Covered(s: State, e: EventId) {
    Active(s, e) ==> (Pending(s, e) && !MarkDue(s, e)) || HasMessage(s, e)
  }

  /** What must hold of `e` for a replay of it to commit safely. */
  ghost predicate Fenced(s: State, e: EventId) {
    !MarkDue(s, e) || HasMessage(s, e)
  }

  lemma CoveredIsNotLost(s: State, e: EventId)
    requires Covered(s, e)
    ensures !Lost(s, e)
  {
  }

  // ----- one step

  lemma EnvironmentKeepsCover(cfg: Config, s: State, step: EnvironmentStep, e: EventId)
    requires WellShaped(cfg, s) && EnvironmentCan(s, step) && Covered(s, e)
    ensures Covered(EnvironmentDoes(s, step), e)
  {
    hide WellShaped;
    var s' := EnvironmentDoes(s, step);
    if HasMessage(s, e) {
      var m :| m in s.broker && s.broker[m].event == e && Kept(s, m);
      assert s'.broker[m].event == e && Kept(s', m);
    }
  }

  lemma DispatcherKeepsCover(cfg: Config, s: State, step: DispatcherStep, e: EventId)
    requires WellShaped(cfg, s) && DispatcherCan(cfg, s, step) && Covered(s, e)
    ensures Covered(DispatcherDoes(cfg, s, step), e)
  {
    hide EventsOk; hide SerialsOk; hide LettersOk; hide HandlingsOk; hide HoldersOk; hide RetriesOk; hide ReplaysOk;
    hide ItemsOk; hide Accepted;
    var s' := DispatcherDoes(cfg, s, step);
    if HasMessage(s, e) {
      var m :| m in s.broker && s.broker[m].event == e && Kept(s, m);
      assert s'.broker[m].event == e && Kept(s', m);
    } else if step.Publish? && step.enqueued && s.rounds[step.token].items[0].event == e {
      assert s'.broker[s.nextId].event == e && Kept(s', s.nextId);
    }
  }

  lemma SettleKeepsCover(cfg: Config, s: State, t: nat, e: EventId)
    requires WellShaped(cfg, s) && WorkerCan(s, Settle(t)) && Covered(s, e)
    ensures Covered(DoSettle(s, t), e)
  {
    hide WellShaped;
    var s' := DoSettle(s, t);
    if HasMessage(s, e) {
      var m :| m in s.broker && s.broker[m].event == e && Kept(s, m);
      assert s'.broker[m].event == e && Kept(s', m);
    }
  }

  lemma DeliverKeepsCover(cfg: Config, s: State, m: nat, e: EventId)
    requires m in s.broker && s.broker[m].holder.None? && Covered(s, e)
    ensures Covered(DoDeliver(s, m), e)
  {
    if HasMessage(s, e) {
      var m' :| m' in s.broker && s.broker[m'].event == e && Kept(s, m');
      assert DoDeliver(s, m).broker[m'].event == e && Kept(DoDeliver(s, m), m');
    }
  }

  /** A handling enters a leaving phase only when its event is finished, so every other message stays kept. */
  lemma MoveKeepsCover(s: State, s': State, t: nat, e: EventId)
    requires HoldersOk(s.broker, s.handlings) && Covered(s, e)
    requires t in s.handlings && t in s'.handlings && s'.handlings - {t} == s.handlings - {t}
    requires s'.broker == s.broker && s'.outbox == s.outbox && s'.rounds == s.rounds
    requires Active(s', e) ==> Active(s, e)
    requires Leaving(s'.handlings[t]) ==> !Active(s', s.handlings[t].event)
    ensures Covered(s', e)
  {
    if HasMessage(s, e) && Active(s', e) {
      var m :| m in s.broker && s.broker[m].event == e && Kept(s, m);
      assert forall u | u in s'.handlings && u != t :: u in s.handlings - {t} && s'.handlings[u] == s.handlings[u];
      assert s'.broker[m].event == e && Kept(s', m);
    }
  }

  lemma WorkerKeepsCover(cfg: Config, s: State, step: WorkerStep, e: EventId)
    requires WellShaped(cfg, s) && WorkerCan(s, step) && Covered(s, e)
    ensures Covered(WorkerDoes(cfg, s, step), e)
  {
    hide EventsOk; hide OutboxOk; hide SerialsOk; hide LettersOk; hide BrokerOk; hide HandlingsOk; hide RoundsOk;
    hide RetriesOk; hide ReplaysOk; hide HoldersOk;
    if step.Settle? {
      SettleKeepsCover(cfg, s, step.tag, e);
    } else if step.Deliver? {
      DeliverKeepsCover(cfg, s, step.message, e);
    } else {
      HandlingFacts(cfg, s, Accepted(s.events), step.tag);
      hide Covered;
      MoveKeepsCover(s, WorkerDoes(cfg, s, step), step.tag, e);
    }
  }

  lemma ReplayerKeepsCover(cfg: Config, s: State, step: ReplayerStep, e: EventId)
    requires WellShaped(cfg, s) && ReplayerCan(cfg, s, step) && Covered(s, e)
    requires EffectiveReplay(s, Replayer(step), e) ==> Fenced(s, e)
    ensures Covered(ReplayerDoes(cfg, s, step), e)
  {
    hide EventsOk; hide SerialsOk; hide LettersOk; hide BrokerOk; hide HandlingsOk; hide RoundsOk;
    hide RetriesOk; hide ReplaysOk; hide HoldersOk; hide HasMessage;
    SameMessages(s, ReplayerDoes(cfg, s, step), e);
  }

  lemma StepKeepsCover(cfg: Config, s: State, step: Step, e: EventId)
    requires WellShaped(cfg, s) && Enabled(cfg, s, step) && Covered(s, e)
    requires EffectiveReplay(s, step, e) ==> Fenced(s, e)
    ensures Covered(Apply(cfg, s, step), e)
  {
    hide WellShaped; hide Covered; hide Fenced; hide EnvironmentDoes; hide DispatcherDoes; hide WorkerDoes;
    hide ReplayerDoes; hide EnvironmentCan; hide DispatcherCan; hide WorkerCan; hide ReplayerCan; hide EffectiveReplay;
    match step
    case Environment(env) => EnvironmentKeepsCover(cfg, s, env, e);
    case Dispatcher(dispatch) => DispatcherKeepsCover(cfg, s, dispatch, e);
    case Worker(work) => WorkerKeepsCover(cfg, s, work, e);
    case Replayer(replay) => ReplayerKeepsCover(cfg, s, replay, e);
  }

  lemma SameMessages(s: State, s': State, e: EventId)
    requires s'.broker == s.broker && s'.handlings == s.handlings
    ensures HasMessage(s', e) <==> HasMessage(s, e)
  {
    forall m | m in s.broker ensures Kept(s', m) <==> Kept(s, m) {
    }
  }

  /** An effective replay leaves its event covered exactly when it is fenced. */
  lemma UnfencedReplayUncovers(cfg: Config, s: State, step: ReplayerStep, e: EventId)
    requires ReplayerCan(cfg, s, step) && EffectiveReplay(s, Replayer(step), e) && !Fenced(s, e)
    ensures !Covered(ReplayerDoes(cfg, s, step), e)
  {
    var s' := ReplayerDoes(cfg, s, step);
    SameMessages(s, s', e);
  }

  /** An uncovered event is lost already, or lost as soon as the due mark is made. */
  lemma UncoveredIsLosable(cfg: Config, s: State, e: EventId)
    requires WellShaped(cfg, s) && !Covered(s, e)
    ensures
      || Lost(s, e)
      || (&& MarkDue(s, e)
          && Lost(DispatcherDoes(cfg, s, MarkPublished(s.outbox[e].token.value, Done)), e))
  {
    if !Lost(s, e) {
      hide WellShaped;
      var t := s.outbox[e].token.value;
      var s' := DispatcherDoes(cfg, s, MarkPublished(t, Done));
      SameMessages(s, s', e);
    }
  }

  // ----- whole runs

  ghost predicate ReplaysFenced(cfg: Config, r: Run)
    requires Valid(cfg, r)
  {
    match r
    case Start => true
    case Then(p, step) =>
      && ReplaysFenced(cfg, p)
      && forall e :: EffectiveReplay(Last(cfg, p), step, e) ==> Fenced(Last(cfg, p), e)
  }

  ghost predicate AllCovered(s: State) {
    forall e :: Covered(s, e)
  }

  ghost predicate AlwaysCovered(cfg: Config, r: Run)
    requires Valid(cfg, r)
  {
    AllCovered(Last(cfg, r)) && (r.Then? ==> AlwaysCovered(cfg, r.prefix))
  }

  lemma StepKeepsAllCovered(cfg: Config, s: State, step: Step)
    requires WellShaped(cfg, s) && Enabled(cfg, s, step) && AllCovered(s)
    ensures AllCovered(Apply(cfg, s, step)) <==> (forall e :: EffectiveReplay(s, step, e) ==> Fenced(s, e))
  {
    hide WellShaped; hide Covered; hide Fenced; hide Enabled; hide EffectiveReplay;
    forall e | EffectiveReplay(s, step, e) ==> Fenced(s, e)
      ensures Covered(Apply(cfg, s, step), e)
    {
      StepKeepsCover(cfg, s, step, e);
    }
    forall e | EffectiveReplay(s, step, e) && !Fenced(s, e)
      ensures !Covered(Apply(cfg, s, step), e)
    {
      UnfencedStepUncovers(cfg, s, step, e);
    }
    hide Apply;
  }

  lemma UnfencedStepUncovers(cfg: Config, s: State, step: Step, e: EventId)
    requires Enabled(cfg, s, step) && EffectiveReplay(s, step, e) && !Fenced(s, e)
    ensures !Covered(Apply(cfg, s, step), e)
  {
    hide Covered; hide Fenced; hide ReplayerDoes; hide ReplayerCan;
    UnfencedReplayUncovers(cfg, s, step.replay, e);
  }

  /** A run keeps every event covered throughout if and only if every effective replay in it is fenced. */
  lemma {:induction false} CoveredIffFenced(cfg: Config, r: Run)
    requires Valid(cfg, r)
    ensures AlwaysCovered(cfg, r) <==> ReplaysFenced(cfg, r)
  {
    match r
    case Start =>
    case Then(p, step) =>
      CoveredIffFenced(cfg, p);
      hide Enabled; hide Apply; hide AllCovered; hide WellShaped; hide EffectiveReplay; hide Fenced;
      if AlwaysCovered(cfg, p) {
        RunShape(cfg, p);
        StepKeepsAllCovered(cfg, Last(cfg, p), step);
      }
  }

  /** No accepted event is ever lost in a run whose effective replays are fenced, whatever crashes, connection losses,
      database errors, duplicate deliveries and stale workers it contains. */
  lemma NoEventLost(cfg: Config, r: Run, e: EventId)
    requires Valid(cfg, r) && ReplaysFenced(cfg, r)
    ensures !Lost(Last(cfg, r), e)
  {
    CoveredIffFenced(cfg, r);
    CoveredIsNotLost(Last(cfg, r), e);
  }

  /** Without the fence the event is lost: after any run, an unfenced replay followed by the due mark loses it. */
  lemma UnfencedReplayLoses(cfg: Config, r: Run, step: Step, e: EventId)
    requires Valid(cfg, r) && Enabled(cfg, Last(cfg, r), step)
    requires EffectiveReplay(Last(cfg, r), step, e) && !Fenced(Last(cfg, r), e)
    ensures
      var mark := Dispatcher(MarkPublished(Last(cfg, r).outbox[e].token.value, Done));
      Valid(cfg, Then(Then(r, step), mark)) && Lost(Last(cfg, Then(Then(r, step), mark)), e)
  {
    var s := Last(cfg, r);
    var s' := Apply(cfg, s, step);
    assert s'.rounds == s.rounds && s'.outbox[e].token == s.outbox[e].token && Pending(s', e);
    assert Last(cfg, Then(r, step)) == s';
    UnfencedStepUncovers(cfg, s, step, e);
    RunShape(cfg, Then(r, step));
    hide WellShaped; hide Apply; hide HasMessage;
    UncoveredIsLosable(cfg, s', e);
  }
}
