/** Agents by identity: what one agent's state is, and that only its own steps and its own crash change it. */
module Agents {
  import opened Rows
  import opened Protocol
  import opened Frames

  /** Where the call with a given identity stands. */
  datatype Agent = Agent(round: Option<Round>, handling: Option<Handling>, retry: Option<RetryRound>,
      replay: Option<EventId>)

  function Find<K, V>(m: map<K, V>, a: K): Option<V> {
    if a in m then Some(m[a]) else None
  }

  function AgentOf(s: State, a: nat): Agent {
    Agent(Find(s.rounds, a), Find(s.handlings, a), Find(s.retries, a), Find(s.replays, a))
  }

  predicate Concerns(step: Step, a: nat) {
    match step
    case Environment(env) => env.Crash? && a in env.agents
    case Dispatcher(dispatch) => !dispatch.ClaimBatch? && dispatch.token == a
    case Worker(work) => !work.Deliver? && work.tag == a
    case Replayer(replay) => !replay.ClaimLetters? && !replay.ReplayRead? && replay.call == a
  }

  lemma DispatcherLeaves(cfg: Config, s: State, step: DispatcherStep, a: nat)
    requires DispatcherCan(cfg, s, step) && a < s.nextId && !Concerns(Dispatcher(step), a)
    ensures Find(DispatcherDoes(cfg, s, step).rounds, a) == Find(s.rounds, a)
  {
  }

  lemma WorkerLeaves(cfg: Config, s: State, step: WorkerStep, a: nat)
    requires WorkerCan(s, step) && a < s.nextId && !Concerns(Worker(step), a)
    ensures Find(WorkerDoes(cfg, s, step).handlings, a) == Find(s.handlings, a)
  {
    WorkerFrame(cfg, s, step);
  }

  lemma ReplayerLeaves(cfg: Config, s: State, step: ReplayerStep, a: nat)
    requires ReplayerCan(cfg, s, step) && a < s.nextId && !Concerns(Replayer(step), a)
    ensures Find(ReplayerDoes(cfg, s, step).retries, a) == Find(s.retries, a)
    ensures Find(ReplayerDoes(cfg, s, step).replays, a) == Find(s.replays, a)
  {
  }

  lemma OthersLeaveAgent(cfg: Config, s: State, step: Step, a: nat)
    requires Enabled(cfg, s, step) && a < s.nextId && !Concerns(step, a)
    ensures AgentOf(Apply(cfg, s, step), a) == AgentOf(s, a)
    ensures s.now <= Apply(cfg, s, step).now && s.nextId <= Apply(cfg, s, step).nextId
  {
    hide EnvironmentDoes; hide DispatcherDoes; hide WorkerDoes; hide ReplayerDoes;
    hide EnvironmentCan; hide DispatcherCan; hide WorkerCan; hide ReplayerCan;
    match step {
      case Environment(env) => EnvironmentFrame(s, env);
      case Dispatcher(dispatch) => DispatcherFrame(cfg, s, dispatch); DispatcherLeaves(cfg, s, dispatch, a);
      case Worker(work) => WorkerFrame(cfg, s, work); WorkerLeaves(cfg, s, work, a);
      case Replayer(replay) => ReplayerFrame(cfg, s, replay); ReplayerLeaves(cfg, s, replay, a);
    }
  }

  lemma ClockGrows(cfg: Config, s: State, step: Step)
    requires Enabled(cfg, s, step)
    ensures s.now <= Apply(cfg, s, step).now && s.nextId <= Apply(cfg, s, step).nextId
  {
    hide EnvironmentDoes; hide DispatcherDoes; hide WorkerDoes; hide ReplayerDoes;
    hide EnvironmentCan; hide DispatcherCan; hide WorkerCan; hide ReplayerCan;
    match step {
      case Environment(env) => EnvironmentFrame(s, env);
      case Dispatcher(dispatch) => DispatcherFrame(cfg, s, dispatch);
      case Worker(work) => WorkerFrame(cfg, s, work);
      case Replayer(replay) => ReplayerFrame(cfg, s, replay);
    }
  }

  /** The number of processor calls the delivery `tag` has started. */
  function CallsBy(r: Run, tag: nat): nat {
    match r
    case Start => 0
    case Then(p, step) => CallsBy(p, tag) + (if step == Worker(StartCall(tag)) then 1 else 0)
  }

  /** `r` continues `earlier`; if `alone`, without any replay step. */
  predicate Follows(r: Run, earlier: Run, alone: bool) {
    r == earlier || (r.Then? && (alone ==> !r.step.Replayer?) && Follows(r.prefix, earlier, alone))
  }

  lemma FollowsSelf(r: Run, alone: bool)
    ensures Follows(r, r, alone)
  {
  }

  lemma FollowsThen(r: Run, earlier: Run, alone: bool, step: Step)
    requires Follows(r, earlier, alone) && (alone ==> !step.Replayer?)
    ensures Follows(Then(r, step), earlier, alone)
  {
  }

  lemma {:induction false} FollowsContinues(r: Run, earlier: Run, alone: bool)
    requires Follows(r, earlier, alone)
    ensures Continues(r, earlier)
  {
    if r != earlier {
      FollowsContinues(r.prefix, earlier, alone);
    }
  }
}
