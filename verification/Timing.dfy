/** Discharging the lease hypothesis: if every processor call and every store call keeps its time bound, the retry
    loop's linear backoff adds up to a triangular number and the whole claim fits a long enough lease. */
module Timing {
  import opened Rows
  import opened Protocol
  import opened Shape
  import opened Frames
  import opened Leases

  /** `call` bounds one processor call; `slack` bounds one store call and the overrun of one sleep or scheduling gap. */
  datatype Pace = Pace(call: nat, slack: nat)

  /** The pause after failed attempt `k`: R, 2R, 3R, .. */
  function RetryBackoff(cfg: Config, k: nat): nat {
    cfg.backoff * k
  }

  /** How long a worker may stay in a phase. */
  function Stay(cfg: Config, pace: Pace, phase: Phase): nat {
    match phase
    case Calling(_) => pace.call
    case Sleeping(k) => RetryBackoff(cfg, k) + pace.slack
    case _ => pace.slack
  }

  ghost predicate Prompt(cfg: Config, pace: Pace, s: State) {
    forall t | t in s.handlings && Working(s.handlings[t].phase) ::
      s.now <= s.handlings[t].since + Stay(cfg, pace, s.handlings[t].phase)
  }

  /** Every state is prompt, and every claim reaches the database within `slack` of reading the clock. */
  ghost predicate PromptRun(cfg: Config, pace: Pace, r: Run)
    requires Valid(cfg, r)
  {
    && Prompt(cfg, pace, Last(cfg, r))
    && (r.Then? ==>
          && PromptRun(cfg, pace, r.prefix)
          && (r.step.Worker? && r.step.work.Claim? ==> Last(cfg, r.prefix).now <= r.step.work.stamp + pace.slack))
  }

  /** Latest start of attempt `k`, counted from the claim stamp. */
  function AttemptStart(cfg: Config, pace: Pace, k: nat): nat {
    if k <= 1 then pace.slack
    else AttemptStart(cfg, pace, k - 1) + pace.slack + pace.call + (RetryBackoff(cfg, k - 1) + pace.slack)
  }

  /** Latest entry into a phase, counted from the claim stamp. */
  function Entry(cfg: Config, pace: Pace, phase: Phase): nat {
    var last := AttemptStart(cfg, pace, cfg.maxRetries + 1) + pace.slack + pace.call;
    match phase
    case Claimed(k) => AttemptStart(cfg, pace, k)
    case Calling(k) => AttemptStart(cfg, pace, k) + pace.slack
    case Sleeping(k) => AttemptStart(cfg, pace, k) + pace.slack + pace.call
    case Succeeded(k) => AttemptStart(cfg, pace, k) + pace.slack + pace.call
    case Exhausted => last
    case Buried => last + pace.slack
    case _ => 0
  }

  ghost predicate OnSchedule(cfg: Config, pace: Pace, s: State) {
    forall t | t in s.handlings && Working(s.handlings[t].phase) ::
      s.handlings[t].since <= s.handlings[t].stamp + Entry(cfg, pace, s.handlings[t].phase)
  }

  /** 1 + 2 + .. + n */
  function Triangle(n: nat): nat {
    if n == 0 then 0 else Triangle(n - 1) + n
  }

  /** The longest a claim can be worked on: M+1 calls, the backoffs R, 2R, .., MR, and the store calls between them. */
  function LongestWork(cfg: Config, pace: Pace): nat {
    pace.call * (cfg.maxRetries + 1) + cfg.backoff * Triangle(cfg.maxRetries) + pace.slack * (2 * cfg.maxRetries + 4)
  }

  lemma {:induction false} TriangleClosed(n: nat)
    ensures Triangle(n) == n * (n + 1) / 2
  {
    if n > 0 {
      TriangleClosed(n - 1);
      assert n * (n + 1) == (n - 1) * n + 2 * n;
    }
  }

  lemma Distribute(a: nat, b: nat, c: nat)
    ensures a * (b + c) == a * b + a * c
  {
  }

  lemma {:induction false} AttemptStartClosed(cfg: Config, pace: Pace, k: nat)
    ensures AttemptStart(cfg, pace, k + 1) == pace.call * k + cfg.backoff * Triangle(k) + pace.slack * (2 * k + 1)
  {
    if k > 0 {
      AttemptStartClosed(cfg, pace, k - 1);
      Distribute(pace.call, k - 1, 1);
      Distribute(pace.slack, 2 * k - 1, 2);
      Distribute(cfg.backoff, Triangle(k - 1), k);
    }
  }

  lemma {:induction false} AttemptStartGrows(cfg: Config, pace: Pace, k: nat, n: nat)
    requires 1 <= k <= n
    ensures AttemptStart(cfg, pace, k)
            + (if k < n then pace.slack + pace.call + (RetryBackoff(cfg, k) + pace.slack) else 0)
            <= AttemptStart(cfg, pace, n)
  {
    hide RetryBackoff;
    if k < n {
      AttemptStartGrows(cfg, pace, k, n - 1);
    }
  }

  /** Work ends with the second terminal store call. */
  lemma LastWriteTime(cfg: Config, pace: Pace)
    ensures LongestWork(cfg, pace) == Entry(cfg, pace, Buried) + pace.slack
  {
    AttemptStartClosed(cfg, pace, cfg.maxRetries);
    Distribute(pace.call, cfg.maxRetries, 1);
    Distribute(pace.slack, 2 * cfg.maxRetries + 1, 3);
  }

  lemma PhaseEndsInTime(cfg: Config, pace: Pace, phase: Phase)
    requires Working(phase) && PhaseOk(cfg, phase)
    ensures Entry(cfg, pace, phase) + Stay(cfg, pace, phase) <= LongestWork(cfg, pace)
  {
    LastWriteTime(cfg, pace);
    hide RetryBackoff; hide LongestWork; hide AttemptStart;
    if phase.Claimed? || phase.Calling? || phase.Sleeping? || phase.Succeeded? {
      AttemptStartGrows(cfg, pace, phase.attempt, cfg.maxRetries + 1);
    }
  }

  /** A worker's next phase is due exactly when the present one may last longest. */
  lemma WorkerKeepsSchedule(cfg: Config, pace: Pace, s: State, step: WorkerStep)
    requires WorkerCan(s, step) && OnSchedule(cfg, pace, s) && Prompt(cfg, pace, s)
    requires forall t | t in s.handlings :: PhaseOk(cfg, s.handlings[t].phase)
    requires step.Claim? ==> s.now <= step.stamp + pace.slack
    ensures OnSchedule(cfg, pace, WorkerDoes(cfg, s, step))
  {
    hide AttemptStart;
    var s' := WorkerDoes(cfg, s, step);
    if !step.Deliver? && !step.Settle? && Working(s'.handlings[step.tag].phase) && !step.Claim? {
      NextEntry(cfg, pace, s.handlings[step.tag].phase, s'.handlings[step.tag].phase);
    }
    AttemptStartClosed(cfg, pace, 0);
    hide Entry; hide Stay;
  }

  lemma NextEntry(cfg: Config, pace: Pace, phase: Phase, next: Phase)
    requires PhaseOk(cfg, phase)
    requires
      || (phase.Claimed? && next == Calling(phase.attempt))
      || (phase.Calling? && (next == Sleeping(phase.attempt) || next == Succeeded(phase.attempt)))
      || (phase == Calling(cfg.maxRetries + 1) && next.Exhausted?)
      || (phase.Sleeping? && next == Claimed(phase.attempt + 1))
      || (phase.Exhausted? && next.Buried?)
    ensures Entry(cfg, pace, next) == Entry(cfg, pace, phase) + Stay(cfg, pace, phase)
  {
  }

  lemma StepKeepsSchedule(cfg: Config, pace: Pace, s: State, step: Step)
    requires Enabled(cfg, s, step) && OnSchedule(cfg, pace, s) && Prompt(cfg, pace, s) && WellShaped(cfg, s)
    requires step.Worker? && step.work.Claim? ==> s.now <= step.work.stamp + pace.slack
    ensures OnSchedule(cfg, pace, Apply(cfg, s, step))
  {
    hide Entry; hide EnvironmentDoes; hide DispatcherDoes; hide WorkerDoes; hide ReplayerDoes;
    hide EnvironmentCan; hide DispatcherCan; hide WorkerCan; hide ReplayerCan; hide Prompt;
    match step {
      case Environment(env) => hide WellShaped; EnvironmentFrame(s, env);
      case Dispatcher(dispatch) => hide WellShaped; DispatcherFrame(cfg, s, dispatch);
      case Worker(work) =>
        AllHandlings(cfg, s);
        WorkerKeepsSchedule(cfg, pace, s, work);
      case Replayer(replay) => hide WellShaped; ReplayerFrame(cfg, s, replay);
    }
  }

  lemma {:induction false} RunSchedule(cfg: Config, pace: Pace, r: Run)
    requires Valid(cfg, r) && PromptRun(cfg, pace, r)
    ensures OnSchedule(cfg, pace, Last(cfg, r))
  {
    match r
    case Start =>
    case Then(p, step) =>
      RunSchedule(cfg, pace, p);
      RunShape(cfg, p);
      hide WellShaped; hide OnSchedule; hide Prompt; hide Enabled; hide Apply;
      StepKeepsSchedule(cfg, pace, Last(cfg, p), step);
  }

  lemma StateInLease(cfg: Config, pace: Pace, s: State)
    requires OnSchedule(cfg, pace, s) && Prompt(cfg, pace, s) && WellShaped(cfg, s)
    requires LongestWork(cfg, pace) < cfg.processingLease
    ensures InLease(cfg, s)
  {
    AllHandlings(cfg, s);
    hide WellShaped; hide PhaseOk; hide Entry; hide Stay; hide LongestWork;
    forall t | t in s.handlings && Working(s.handlings[t].phase)
      ensures s.now < s.handlings[t].stamp + cfg.processingLease
    {
      PhaseEndsInTime(cfg, pace, s.handlings[t].phase);
    }
  }

  lemma {:induction false} PromptRunInLease(cfg: Config, pace: Pace, r: Run)
    requires Valid(cfg, r) && PromptRun(cfg, pace, r) && LongestWork(cfg, pace) < cfg.processingLease
    ensures ObeysLease(cfg, r)
  {
    hide LongestWork; hide Enabled; hide Apply; hide Prompt; hide InLease; hide OnSchedule; hide WellShaped;
    RunSchedule(cfg, pace, r);
    RunShape(cfg, r);
    StateInLease(cfg, pace, Last(cfg, r));
    if r.Then? {
      PromptRunInLease(cfg, pace, r.prefix);
    }
  }

  /** A prompt run obeys any lease longer than (M+1)P + R M(M+1)/2 plus the store calls. */
  lemma PromptRunObeysLease(cfg: Config, pace: Pace, r: Run)
    requires Valid(cfg, r) && PromptRun(cfg, pace, r)
    requires var m := cfg.maxRetries;
             pace.call * (m + 1) + cfg.backoff * (m * (m + 1) / 2) + pace.slack * (2 * m + 4) < cfg.processingLease
    ensures ObeysLease(cfg, r)
  {
    TriangleClosed(cfg.maxRetries);
    hide Triangle; hide Valid; hide PromptRun; hide ObeysLease;
    PromptRunInLease(cfg, pace, r);
  }

  /** With a lease longer than the longest possible work, no run has two live workers on one event. */
  lemma ExclusiveByTiming(cfg: Config, pace: Pace, r: Run, t: nat, u: nat, e: EventId)
    requires Valid(cfg, r) && PromptRun(cfg, pace, r)
    requires var m := cfg.maxRetries;
             pace.call * (m + 1) + cfg.backoff * (m * (m + 1) / 2) + pace.slack * (2 * m + 4) < cfg.processingLease
    requires WorksOn(Last(cfg, r), t, e) && WorksOn(Last(cfg, r), u, e)
    ensures t == u
  {
    PromptRunObeysLease(cfg, pace, r);
    ExclusiveProcessing(cfg, r, t, u, e);
  }
}
