/** Exclusive processing and finality, exactly as far as the code guarantees them, with no hypothesis on time. A claim
    overtakes when its guard finds an expired lease while another worker is still at the event. Runs are exclusive if
    and only if nothing in them is overtaken, and in such runs a processed event stays processed. */
module Overtaking {
  import opened Rows
  import opened Protocol
  import opened Frames
  import opened Leases

  /** `step` is a claim, known to have succeeded, of an event another handling works on: the row is in processing and
      the lease that it records has run out. */
  ghost predicate Overtakes(cfg: Config, s: State, step: Step) {
    && step.Worker? && step.work.Claim? && step.work.db.Done?
    && step.work.tag in s.handlings
    && var e := s.handlings[step.work.tag].event;
       && e in s.events && s.events[e].status.Processing? && s.events[e].startedAt.Some?
       && s.events[e].startedAt.value + cfg.processingLease <= step.work.stamp
       && exists t :: WorksOn(s, t, e)
  }

  ghost predicate NeverOvertaken(cfg: Config, r: Run)
    requires Valid(cfg, r)
  {
    match r
    case Start => true
    case Then(p, step) => NeverOvertaken(cfg, p) && !Overtakes(cfg, Last(cfg, p), step)
  }

  ghost predicate AlwaysExclusive(cfg: Config, r: Run)
    requires Valid(cfg, r)
  {
    Exclusive(Last(cfg, r)) && (r.Then? ==> AlwaysExclusive(cfg, r.prefix))
  }

  /** The row of a worker's event is in processing since the worker's own claim or a later one: a claim whose reply was
      lost stamps the row anew and leaves no second worker. */
  ghost predicate Tended(s: State) {
    forall t | t in s.handlings && Working(s.handlings[t].phase) ::
      && s.handlings[t].event in s.events
      && s.events[s.handlings[t].event].status.Processing?
      && s.events[s.handlings[t].event].startedAt.Some?
      && s.handlings[t].stamp <= s.events[s.handlings[t].event].startedAt.value
  }

  // ----- one step

  lemma OvertakingClaim(cfg: Config, s: State, t: nat, stamp: nat)
    requires WorkerCan(s, Claim(t, stamp, Done)) && Overtakes(cfg, s, Worker(Claim(t, stamp, Done)))
    ensures !Exclusive(DoClaim(cfg, s, t, stamp, Done))
  {
    var s' := DoClaim(cfg, s, t, stamp, Done);
    var u :| WorksOn(s, u, s.handlings[t].event);
    assert u != t && s'.handlings[u] == s.handlings[u] && Working(s'.handlings[t].phase);
  }

  lemma OrderlyClaim(cfg: Config, s: State, t: nat, stamp: nat, db: Db)
    requires WorkerCan(s, Claim(t, stamp, db)) && Tended(s) && Exclusive(s)
    requires !Overtakes(cfg, s, Worker(Claim(t, stamp, db)))
    ensures Tended(DoClaim(cfg, s, t, stamp, db)) && Exclusive(DoClaim(cfg, s, t, stamp, db))
  {
    var s', e := DoClaim(cfg, s, t, stamp, db), s.handlings[t].event;
    assert forall u | u in s.handlings ::
        Working(s.handlings[u].phase) && s.handlings[u].event == e ==> WorksOn(s, u, e);
    assert Working(s'.handlings[t].phase) ==>
        && s'.handlings[t].stamp == stamp && e in s'.events && s'.events[e].startedAt == Some(stamp)
        && forall u :: !WorksOn(s, u, e);
  }

  lemma ClaimTended(cfg: Config, s: State, t: nat, stamp: nat, db: Db)
    requires WorkerCan(s, Claim(t, stamp, db)) && Tended(s) && Exclusive(s)
    ensures Exclusive(DoClaim(cfg, s, t, stamp, db)) <==> !Overtakes(cfg, s, Worker(Claim(t, stamp, db)))
    ensures !Overtakes(cfg, s, Worker(Claim(t, stamp, db))) ==> Tended(DoClaim(cfg, s, t, stamp, db))
  {
    if Overtakes(cfg, s, Worker(Claim(t, stamp, db))) {
      hide Exclusive; hide Tended; hide DoClaim;
      OvertakingClaim(cfg, s, t, stamp);
    } else {
      hide Exclusive; hide Tended; hide DoClaim; hide Overtakes;
      OrderlyClaim(cfg, s, t, stamp, db);
    }
  }

  lemma FinishTended(s: State, t: nat, status: Status, attempts: nat, db: Db)
    requires t in s.handlings && Working(s.handlings[t].phase) && Tended(s) && Exclusive(s)
    ensures Tended(DoFinish(s, t, status, attempts, db)) && Exclusive(DoFinish(s, t, status, attempts, db))
  {
  }

  lemma TendedStay(s: State, s': State)
    requires Tended(s) && Exclusive(s) && NoNewOwners(s, s')
    ensures Tended(s') && Exclusive(s')
  {
  }

  lemma WorkerTended(cfg: Config, s: State, step: WorkerStep)
    requires WorkerCan(s, step) && Tended(s) && Exclusive(s)
    ensures Exclusive(WorkerDoes(cfg, s, step)) <==> !Overtakes(cfg, s, Worker(step))
    ensures !Overtakes(cfg, s, Worker(step)) ==> Tended(WorkerDoes(cfg, s, step))
  {
    hide Exclusive;
    if step.Claim? {
      ClaimTended(cfg, s, step.tag, step.stamp, step.db);
    } else if step.MarkProcessed? {
      FinishTended(s, step.tag, Processed, s.handlings[step.tag].phase.attempt, step.db);
    } else if step.MarkFailed? {
      FinishTended(s, step.tag, Failed, cfg.maxRetries + 1, step.db);
    } else {
      TendedStay(s, WorkerDoes(cfg, s, step));
    }
  }

  lemma OthersTended(cfg: Config, s: State, step: Step)
    requires Enabled(cfg, s, step) && Tended(s) && Exclusive(s) && !step.Worker?
    ensures Tended(Apply(cfg, s, step)) && Exclusive(Apply(cfg, s, step))
  {
    hide Exclusive; hide EnvironmentDoes; hide DispatcherDoes; hide ReplayerDoes; hide DispatcherCan; hide ReplayerCan;
    match step {
      case Environment(env) => EnvironmentFrame(s, env);
      case Dispatcher(dispatch) => DispatcherFrame(cfg, s, dispatch);
      case Replayer(replay) => ReplayerFrame(cfg, s, replay);
    }
    TendedStay(s, Apply(cfg, s, step));
  }

  lemma StepTended(cfg: Config, s: State, step: Step)
    requires Enabled(cfg, s, step) && Tended(s) && Exclusive(s)
    ensures Exclusive(Apply(cfg, s, step)) <==> !Overtakes(cfg, s, step)
    ensures !Overtakes(cfg, s, step) ==> Tended(Apply(cfg, s, step))
  {
    hide Exclusive; hide Tended; hide WorkerDoes; hide WorkerCan;
    if step.Worker? {
      WorkerTended(cfg, s, step.work);
    } else {
      OthersTended(cfg, s, step);
    }
  }

  // ----- whole runs

  /** No two workers are ever at one event if and only if no claim of the run overtakes a worker. */
  lemma {:induction false} ExclusiveIffNeverOvertaken(cfg: Config, r: Run)
    requires Valid(cfg, r)
    ensures AlwaysExclusive(cfg, r) <==> NeverOvertaken(cfg, r)
    ensures AlwaysExclusive(cfg, r) ==> Tended(Last(cfg, r))
  {
    match r
    case Start =>
    case Then(p, step) =>
      ExclusiveIffNeverOvertaken(cfg, p);
      hide Tended; hide Exclusive; hide Enabled; hide Apply; hide Overtakes;
      if AlwaysExclusive(cfg, p) {
        StepTended(cfg, Last(cfg, p), step);
      }
  }

  /** After any run that was exclusive so far: the row of a worker's event records a lease that began at its claim or
      later, and another delivery's claim makes a second worker exactly when that lease has run out. */
  lemma SecondWorkerIffExpired(cfg: Config, r: Run, t: nat, u: nat, e: EventId, stamp: nat)
    requires Valid(cfg, r) && NeverOvertaken(cfg, r)
    requires WorksOn(Last(cfg, r), t, e) && WorkerCan(Last(cfg, r), Claim(u, stamp, Done))
    requires Last(cfg, r).handlings[u].event == e
    ensures e in Last(cfg, r).events && Last(cfg, r).events[e].startedAt.Some?
    ensures var s, s' := Last(cfg, r), WorkerDoes(cfg, Last(cfg, r), Claim(u, stamp, Done));
            && s.handlings[t].stamp <= s.events[e].startedAt.value
            && (WorksOn(s', t, e) && WorksOn(s', u, e)
                <==> s.events[e].startedAt.value + cfg.processingLease <= stamp)
  {
    ExclusiveIffNeverOvertaken(cfg, r);
  }

  /** A run whose workers obey the lease is never overtaken. */
  lemma {:induction false} LeaseNeverOvertaken(cfg: Config, r: Run)
    requires Valid(cfg, r) && ObeysLease(cfg, r)
    ensures NeverOvertaken(cfg, r)
  {
    if r.Then? {
      LeaseNeverOvertaken(cfg, r.prefix);
      RunOwners(cfg, r.prefix);
      hide ObeysLease; hide Exclusive; hide Apply;
      InLeaseOvertakesNone(cfg, Last(cfg, r.prefix), r.step);
    }
  }

  lemma InLeaseOvertakesNone(cfg: Config, s: State, step: Step)
    requires Enabled(cfg, s, step) && InLease(cfg, s) && Owning(s)
    ensures !Overtakes(cfg, s, step)
  {
  }

  // ----- processed is final

  /** A failure recorded for `e` by a worker that was not told the event is no longer its own. */
  predicate Overturns(s: State, step: Step, e: EventId) {
    && step.Worker? && step.work.MarkFailed? && !step.work.db.Refused?
    && step.work.tag in s.handlings && s.handlings[step.work.tag].event == e
  }

  predicate IsProcessed(s: State, e: EventId) {
    e in s.events && s.events[e].status.Processed?
  }

  lemma StepOverturns(cfg: Config, s: State, step: Step, e: EventId)
    requires Enabled(cfg, s, step) && IsProcessed(s, e)
    ensures IsProcessed(Apply(cfg, s, step), e) <==> !Overturns(s, step, e)
  {
    hide EnvironmentDoes; hide DispatcherDoes; hide ReplayerDoes; hide DispatcherCan; hide ReplayerCan;
    match step {
      case Environment(env) => EnvironmentFrame(s, env);
      case Dispatcher(dispatch) => DispatcherFrame(cfg, s, dispatch);
      case Worker(work) => WorkerFrame(cfg, s, work);
      case Replayer(replay) => ReplayerFrame(cfg, s, replay);
    }
  }

  /** Every state of `r` since `earlier` has `e` processed. */
  predicate ProcessedSince(cfg: Config, r: Run, earlier: Run, e: EventId)
    requires Valid(cfg, r) && Continues(r, earlier)
  {
    IsProcessed(Last(cfg, r), e) && (r != earlier ==> ProcessedSince(cfg, r.prefix, earlier, e))
  }

  predicate NotOverturnedSince(cfg: Config, r: Run, earlier: Run, e: EventId)
    requires Valid(cfg, r) && Continues(r, earlier)
  {
    r != earlier ==> NotOverturnedSince(cfg, r.prefix, earlier, e) && !Overturns(Last(cfg, r.prefix), r.step, e)
  }

  /** A processed event stays processed if and only if no worker still at it records a failure. */
  lemma {:induction false} ProcessedIffNotOverturned(cfg: Config, r: Run, earlier: Run, e: EventId)
    requires Valid(cfg, r) && Continues(r, earlier) && Valid(cfg, earlier) && IsProcessed(Last(cfg, earlier), e)
    ensures ProcessedSince(cfg, r, earlier, e) <==> NotOverturnedSince(cfg, r, earlier, e)
  {
    if r != earlier {
      ProcessedIffNotOverturned(cfg, r.prefix, earlier, e);
      hide IsProcessed; hide Overturns; hide Enabled; hide Apply;
      if ProcessedSince(cfg, r.prefix, earlier, e) {
        StepOverturns(cfg, Last(cfg, r.prefix), r.step, e);
      }
    }
  }

  lemma TendedOverturnsNone(cfg: Config, s: State, step: Step, e: EventId)
    requires Enabled(cfg, s, step) && Tended(s) && IsProcessed(s, e)
    ensures !Overturns(s, step, e) && !StartsCall(s, step, e)
  {
  }

  /** In a run that is never overtaken, a processed event stays processed and no processor call for it starts again,
      whatever duplicate deliveries arrive late and whatever replays read it while it was failed and commit now. */
  lemma {:induction false} ProcessedIsFinal(cfg: Config, r: Run, earlier: Run, e: EventId)
    requires Valid(cfg, r) && NeverOvertaken(cfg, r) && Continues(r, earlier) && Valid(cfg, earlier)
    requires IsProcessed(Last(cfg, earlier), e)
    ensures IsProcessed(Last(cfg, r), e) && Calls(cfg, r, e) == Calls(cfg, earlier, e)
  {
    if r != earlier {
      ProcessedIsFinal(cfg, r.prefix, earlier, e);
      ExclusiveIffNeverOvertaken(cfg, r.prefix);
      hide IsProcessed; hide Overturns; hide Overtakes; hide Tended; hide Enabled; hide Apply; hide StartsCall;
      TendedOverturnsNone(cfg, Last(cfg, r.prefix), r.step, e);
      StepOverturns(cfg, Last(cfg, r.prefix), r.step, e);
    }
  }
}
