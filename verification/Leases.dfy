/** Exclusive processing under the lease hypothesis: a live worker is done with an event strictly before its claim time
    plus the lease. Nothing else protects the event, because the terminal writes name nothing but its id. */
module Leases {
  import opened Rows
  import opened Protocol
  import opened Frames

  predicate WorksOn(s: State, t: nat, e: EventId) {
    t in s.handlings && Working(s.handlings[t].phase) && s.handlings[t].event == e
  }

  ghost predicate InLease(cfg: Config, s: State) {
    forall t | t in s.handlings && Working(s.handlings[t].phase) :: s.now < s.handlings[t].stamp + cfg.processingLease
  }

  /** The lease hypothesis, in every state of the run. */
  ghost predicate ObeysLease(cfg: Config, r: Run)
    requires Valid(cfg, r)
  {
    InLease(cfg, Last(cfg, r)) && (r.Then? ==> ObeysLease(cfg, r.prefix))
  }

  /** A working handling owns its event: the row carries the very stamp of its claim. */
  ghost predicate Owning(s: State) {
    forall t | t in s.handlings && Working(s.handlings[t].phase) ::
      && s.handlings[t].event in s.events
      && s.events[s.handlings[t].event].status.Processing?
      && s.events[s.handlings[t].event].startedAt == Some(s.handlings[t].stamp)
  }

  ghost predicate Exclusive(s: State) {
    forall t, u | t in s.handlings && u in s.handlings && t != u ::
      Working(s.handlings[t].phase) && Working(s.handlings[u].phase) ==> s.handlings[t].event != s.handlings[u].event
  }

  lemma ClaimKeepsOwners(cfg: Config, s: State, t: nat, stamp: nat, db: Db)
    requires WorkerCan(s, Claim(t, stamp, db)) && InLease(cfg, s) && Owning(s) && Exclusive(s)
    ensures Owning(DoClaim(cfg, s, t, stamp, db)) && Exclusive(DoClaim(cfg, s, t, stamp, db))
  {
  }

  lemma FinishKeepsOwners(s: State, t: nat, status: Status, attempts: nat, db: Db)
    requires t in s.handlings && Working(s.handlings[t].phase) && Owning(s) && Exclusive(s)
    ensures Owning(DoFinish(s, t, status, attempts, db)) && Exclusive(DoFinish(s, t, status, attempts, db))
  {
  }

  /** Steps that start no work and leave the rows of owned events alone. */
  ghost predicate NoNewOwners(s: State, s': State) {
    forall t | t in s'.handlings && Working(s'.handlings[t].phase) ::
      && t in s.handlings && Working(s.handlings[t].phase)
      && s'.handlings[t].event == s.handlings[t].event && s'.handlings[t].stamp == s.handlings[t].stamp
      && s.handlings[t].event in s.events && s.handlings[t].event in s'.events
      && s'.events[s.handlings[t].event] == s.events[s.handlings[t].event]
  }

  lemma OwnersStay(s: State, s': State)
    requires Owning(s) && Exclusive(s) && NoNewOwners(s, s')
    ensures Owning(s') && Exclusive(s')
  {
  }

  lemma WorkerKeepsOwners(cfg: Config, s: State, step: WorkerStep)
    requires WorkerCan(s, step) && InLease(cfg, s) && Owning(s) && Exclusive(s)
    ensures Owning(WorkerDoes(cfg, s, step)) && Exclusive(WorkerDoes(cfg, s, step))
  {
    hide Exclusive; hide InLease;
    if step.Claim? {
      ClaimKeepsOwners(cfg, s, step.tag, step.stamp, step.db);
    } else if step.MarkProcessed? {
      FinishKeepsOwners(s, step.tag, Processed, s.handlings[step.tag].phase.attempt, step.db);
    } else if step.MarkFailed? {
      FinishKeepsOwners(s, step.tag, Failed, cfg.maxRetries + 1, step.db);
    } else {
      OwnersStay(s, WorkerDoes(cfg, s, step));
    }
  }

  lemma OthersKeepOwners(cfg: Config, s: State, step: Step)
    requires Enabled(cfg, s, step) && Owning(s) && Exclusive(s) && !step.Worker?
    ensures Owning(Apply(cfg, s, step)) && Exclusive(Apply(cfg, s, step))
  {
    hide Exclusive; hide EnvironmentDoes; hide DispatcherDoes; hide ReplayerDoes; hide DispatcherCan; hide ReplayerCan;
    match step {
      case Environment(env) => EnvironmentFrame(s, env);
      case Dispatcher(dispatch) => DispatcherFrame(cfg, s, dispatch);
      case Replayer(replay) => ReplayerFrame(cfg, s, replay);
    }
    OwnersStay(s, Apply(cfg, s, step));
  }

  lemma StepKeepsOwners(cfg: Config, s: State, step: Step)
    requires Enabled(cfg, s, step) && InLease(cfg, s) && Owning(s) && Exclusive(s)
    ensures Owning(Apply(cfg, s, step)) && Exclusive(Apply(cfg, s, step))
  {
    hide Exclusive; hide Owning; hide InLease; hide WorkerDoes; hide WorkerCan;
    if step.Worker? {
      WorkerKeepsOwners(cfg, s, step.work);
    } else {
      OthersKeepOwners(cfg, s, step);
    }
  }

  lemma {:induction false} RunOwners(cfg: Config, r: Run)
    requires Valid(cfg, r) && ObeysLease(cfg, r)
    ensures Owning(Last(cfg, r)) && Exclusive(Last(cfg, r))
  {
    match r
    case Start =>
    case Then(p, step) =>
      hide Owning; hide Exclusive; hide InLease; hide Enabled; hide Apply;
      RunOwners(cfg, p);
      StepKeepsOwners(cfg, Last(cfg, p), step);
  }

  /** In a run that obeys the lease, no two live workers are ever processing the same event. */
  lemma ExclusiveProcessing(cfg: Config, r: Run, t: nat, u: nat, e: EventId)
    requires Valid(cfg, r) && ObeysLease(cfg, r)
    requires WorksOn(Last(cfg, r), t, e) && WorksOn(Last(cfg, r), u, e)
    ensures t == u
  {
    RunOwners(cfg, r);
  }

  /** The number of processor calls started for `e`. */
  function Calls(cfg: Config, r: Run, e: EventId): nat
    requires Valid(cfg, r)
  {
    match r
    case Start => 0
    case Then(p, step) => Calls(cfg, p, e) + (if StartsCall(Last(cfg, p), step, e) then 1 else 0)
  }

  predicate StartsCall(s: State, step: Step, e: EventId) {
    step.Worker? && step.work.StartCall? && step.work.tag in s.handlings && s.handlings[step.work.tag].event == e
  }
}
