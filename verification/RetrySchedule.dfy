/** A dead letter that waits for replay stays scheduled or in a scheduler's hands, exactly as long as no scheduler call
    is cut short while it is the only holder of an unscheduled letter. */
module RetrySchedule {
  import opened Rows
  import opened Protocol
  import opened Shape
  import opened Frames

  predicate Holds(s: State, c: nat, e: EventId) {
    c in s.retries && e in s.retries[c].items
  }

  /** The letter waits for replay with no next_retry_at. */
  predicate Unscheduled(letters: LetterTable, e: EventId) {
    e in letters && letters[e].replayedAt.None? && letters[e].nextRetryAt.None?
  }

  ghost predicate Scheduled(s: State, e: EventId) {
    Unscheduled(s.letters, e) ==> exists c :: Holds(s, c, e)
  }

  /** A crash of all holders, or a refused reschedule by the only holder, of an unscheduled letter. */
  ghost predicate Strands(s: State, step: Step, e: EventId) {
    && Unscheduled(s.letters, e)
    && (|| (step.Environment? && step.env.Crash? && forall c :: Holds(s, c, e) ==> c in step.env.agents)
        || (&& step.Replayer? && step.replay.Reschedule? && step.replay.db.Refused?
            && Retrying(s, step.replay.call, Rescheduling) && s.retries[step.replay.call].items[0] == e
            && forall c :: Holds(s, c, e) ==> c == step.replay.call))
  }

  lemma EnvironmentSchedules(s: State, step: EnvironmentStep, e: EventId)
    requires EnvironmentCan(s, step) && Scheduled(s, e)
    ensures Scheduled(EnvironmentDoes(s, step), e) <==> !Strands(s, Environment(step), e)
  {
    var s' := EnvironmentDoes(s, step);
    EnvironmentFrame(s, step);
    if c :| Holds(s, c, e) && !(step.Crash? && c in step.agents) {
      assert Holds(s', c, e);
    } 
  }

  /** The rounds left after one finishes with its first letter hold what they held but for that letter. */
  lemma HeldAfterAdvance(s: State, s': State, c: nat, d: nat, e: EventId)
    requires c in s.retries && s.retries[c].items != [] && Distinct(s.retries[c].items)
    requires s'.retries == AdvancedRetries(s.retries, c)
    ensures Holds(s', d, e) <==> Holds(s, d, e) && !(d == c && s.retries[c].items[0] == e)
  {
  }

  lemma RescheduleSchedules(s: State, c: nat, delay: int, db: Db, e: EventId)
    requires Retrying(s, c, Rescheduling) && Distinct(s.retries[c].items) && Scheduled(s, e)
    ensures Scheduled(DoReschedule(s, c, delay, db), e) <==> !Strands(s, Replayer(Reschedule(c, delay, db)), e)
  {
    var s' := DoReschedule(s, c, delay, db);
    forall d {
      HeldAfterAdvance(s, s', c, d, e);
    }
  }

  lemma CommitSchedules(s: State, c: nat, db: Db, e: EventId)
    requires Retrying(s, c, Committing) && Distinct(s.retries[c].items) && Scheduled(s, e)
    ensures Scheduled(DoRetryCommit(s, c, db), e)
  {
    var s' := DoRetryCommit(s, c, db);
    if db.Done? {
      forall d {
        HeldAfterAdvance(s, s', c, d, e);
      }
    } else if d :| Holds(s, d, e) {
      assert Holds(s', d, e);
    }
  }

  lemma ReplayerSchedules(cfg: Config, s: State, step: ReplayerStep, e: EventId)
    requires ReplayerCan(cfg, s, step) && Scheduled(s, e)
    requires forall c | c in s.retries :: c < s.nextId && Distinct(s.retries[c].items)
    ensures Scheduled(ReplayerDoes(cfg, s, step), e) <==> !Strands(s, Replayer(step), e)
  {
    var s' := ReplayerDoes(cfg, s, step);
    if step.RetryCommit? {
      CommitSchedules(s, step.call, step.db, e);
    } else if step.Reschedule? {
      RescheduleSchedules(s, step.call, step.delay, step.db, e);
    } else if step.ClaimLetters? && e in step.batch {
      assert Holds(s', s.nextId, e);
    } else if c :| Holds(s, c, e) {
      assert Holds(s', c, e);
    }
  }

  lemma WorkerSchedules(cfg: Config, s: State, step: WorkerStep, e: EventId)
    requires WorkerCan(s, step) && Scheduled(s, e)
    ensures Scheduled(WorkerDoes(cfg, s, step), e)
  {
    var s' := WorkerDoes(cfg, s, step);
    WorkerFrame(cfg, s, step);
    if c :| Holds(s, c, e) {
      assert Holds(s', c, e);
    }
  }

  lemma DispatcherSchedules(cfg: Config, s: State, step: DispatcherStep, e: EventId)
    requires DispatcherCan(cfg, s, step) && Scheduled(s, e)
    ensures Scheduled(DispatcherDoes(cfg, s, step), e)
  {
    DispatcherFrame(cfg, s, step);
    if c :| Holds(s, c, e) {
      assert Holds(DispatcherDoes(cfg, s, step), c, e);
    }
  }

  lemma StepSchedules(cfg: Config, s: State, step: Step, e: EventId)
    requires Enabled(cfg, s, step) && Scheduled(s, e) && WellShaped(cfg, s)
    ensures Scheduled(Apply(cfg, s, step), e) <==> !Strands(s, step, e)
  {
    hide Scheduled; hide EnvironmentDoes; hide DispatcherDoes; hide WorkerDoes; hide ReplayerDoes;
    hide EnvironmentCan; hide DispatcherCan; hide WorkerCan; hide ReplayerCan;
    match step
    case Environment(env) => hide WellShaped; hide Strands; EnvironmentSchedules(s, env, e);
    case Dispatcher(dispatch) => hide WellShaped; DispatcherSchedules(cfg, s, dispatch, e);
    case Worker(work) => hide WellShaped; WorkerSchedules(cfg, s, work, e);
    case Replayer(replay) =>
      hide Strands;
      AllRetries(cfg, s);
      ReplayerSchedules(cfg, s, replay, e);
  }

  // ----- whole runs

  ghost predicate AllScheduled(s: State) {
    forall e :: Scheduled(s, e)
  }

  ghost predicate AlwaysScheduled(cfg: Config, r: Run)
    requires Valid(cfg, r)
  {
    AllScheduled(Last(cfg, r)) && (r.Then? ==> AlwaysScheduled(cfg, r.prefix))
  }

  ghost predicate NothingStranded(cfg: Config, r: Run)
    requires Valid(cfg, r)
  {
    match r
    case Start => true
    case Then(p, step) => NothingStranded(cfg, p) && forall e :: !Strands(Last(cfg, p), step, e)
  }

  /** No scheduler call crashes and every reschedule reaches the database. */
  predicate SchedulersUndisturbed(cfg: Config, r: Run)
    requires Valid(cfg, r)
  {
    match r
    case Start => true
    case Then(p, step) =>
      && SchedulersUndisturbed(cfg, p)
      && (step.Environment? && step.env.Crash? ==> Last(cfg, p).retries.Keys !! step.env.agents)
      && (step.Replayer? && step.replay.Reschedule? ==> !step.replay.db.Refused?)
  }

  /** Every letter stays scheduled or held throughout a run if and only if no step of it strands a letter, even when
      manual replays and renewed failures interleave. */
  lemma {:induction false} ScheduledIffNothingStranded(cfg: Config, r: Run)
    requires Valid(cfg, r)
    ensures AlwaysScheduled(cfg, r) <==> NothingStranded(cfg, r)
  {
    match r
    case Start =>
    case Then(p, step) =>
      ScheduledIffNothingStranded(cfg, p);
      if AlwaysScheduled(cfg, p) {
        RunShape(cfg, p);
        hide WellShaped; hide Enabled; hide Apply; hide Scheduled; hide Strands;
        forall e {
          StepSchedules(cfg, Last(cfg, p), step, e);
        }
      }
  }

  /** With undisturbed schedulers, every letter not yet replayed is scheduled or held. */
  lemma {:induction false} LettersStayScheduled(cfg: Config, r: Run)
    requires Valid(cfg, r) && SchedulersUndisturbed(cfg, r)
    ensures NothingStranded(cfg, r) && AlwaysScheduled(cfg, r)
  {
    if r.Then? {
      LettersStayScheduled(cfg, r.prefix);
      var s := Last(cfg, r.prefix);
      forall e ensures !Strands(s, r.step, e) {
        if Unscheduled(s.letters, e) {
          assert Scheduled(s, e);
          var c :| Holds(s, c, e);
        }
      }
    }
    ScheduledIffNothingStranded(cfg, r);
  }
}
