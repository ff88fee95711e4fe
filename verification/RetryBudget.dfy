/** The automatic-replay budget: any number of schedulers sharing one maximum never replay an event more often than its
    replay_attempts counts, and that count never passes the maximum, across any number of renewed failures. */
module RetryBudget {
  import opened Rows
  import opened Protocol
  import opened Shape
  import opened Frames

  /** The step claims the letter of `e` for automatic replay. */
  predicate ClaimsLetter(step: Step, e: EventId) {
    step.Replayer? && step.replay.ClaimLetters? && e in step.replay.batch
  }

  /** The step is a replay of `e` committed by a scheduler. */
  predicate AutoReplays(s: State, step: Step, e: EventId) {
    && step.Replayer? && step.replay.RetryCommit? && !step.replay.db.Refused?
    && Retrying(s, step.replay.call, Committing) && s.retries[step.replay.call].items[0] == e
  }

  function AutoReplayCount(cfg: Config, r: Run, e: EventId): nat
    requires Valid(cfg, r)
  {
    match r
    case Start => 0
    case Then(p, step) => AutoReplayCount(cfg, p, e) + (if AutoReplays(Last(cfg, p), step, e) then 1 else 0)
  }

  function NewClaimers(s: State, step: Step, e: EventId): set<nat> {
    if ClaimsLetter(step, e) then {s.nextId} else {}
  }

  function NewReplayers(s: State, step: Step, e: EventId): set<nat> {
    if AutoReplays(s, step, e) then {step.replay.call} else {}
  }

  /** The scheduler calls that claimed the letter of `e`, and those that replayed `e`. */
  function Claimers(cfg: Config, r: Run, e: EventId): set<nat>
    requires Valid(cfg, r)
  {
    match r
    case Start => {}
    case Then(p, step) => Claimers(cfg, p, e) + NewClaimers(Last(cfg, p), step, e)
  }

  function Replayers(cfg: Config, r: Run, e: EventId): set<nat>
    requires Valid(cfg, r)
  {
    match r
    case Start => {}
    case Then(p, step) => Replayers(cfg, p, e) + NewReplayers(Last(cfg, p), step, e)
  }

  function Attempts(letters: LetterTable, e: EventId): nat {
    if e in letters then letters[e].replayAttempts else 0
  }

  /** A call that holds `e` has claimed it; one that has replayed it is past committing it again. */
  ghost predicate BudgetOk(retries: map<nat, RetryRound>, nextId: nat, e: EventId, claimers: set<nat>,
      replayers: set<nat>) {
    && (forall c | c in claimers :: c < nextId)
    && replayers <= claimers
    && (forall c | c in retries && e in retries[c].items :: c in claimers)
    && (forall c | c in replayers && c in retries && e in retries[c].items ::
          retries[c].stage.Rescheduling? && retries[c].items[0] == e)
  }

  lemma AdvanceBudget(retries: map<nat, RetryRound>, nextId: nat, e: EventId, claimers: set<nat>,
      replayers: set<nat>, c: nat)
    requires BudgetOk(retries, nextId, e, claimers, replayers)
    requires c in retries && retries[c].items != [] && Distinct(retries[c].items)
    ensures BudgetOk(AdvancedRetries(retries, c), nextId, e, claimers, replayers)
    ensures retries[c].items[0] == e ==> BudgetOk(AdvancedRetries(retries, c), nextId, e, claimers, replayers + {c})
  {
    if |retries[c].items| > 1 {
      assert forall f | f in retries[c].items[1..] :: f in retries[c].items && f != retries[c].items[0];
    }
  }

  lemma StageBudget(retries: map<nat, RetryRound>, nextId: nat, e: EventId, claimers: set<nat>, replayers: set<nat>,
      c: nat,
                    stage: ReplayStage)
    requires BudgetOk(retries, nextId, e, claimers, replayers)
    requires c in retries && retries[c].items != [] && (!retries[c].stage.Rescheduling? || stage.Rescheduling?)
    ensures BudgetOk(retries[c := retries[c].(stage := stage)], nextId, e, claimers, replayers)
    ensures stage.Rescheduling? && retries[c].items[0] == e ==>
              BudgetOk(retries[c := retries[c].(stage := stage)], nextId, e, claimers, replayers + {c})
  {
  }

  ghost predicate BudgetStep(s: State, step: Step, s': State, e: EventId, claimers: set<nat>, replayers: set<nat>) {
    && claimers !! NewClaimers(s, step, e) && replayers !! NewReplayers(s, step, e)
    && Attempts(s'.letters, e) == Attempts(s.letters, e) + |NewClaimers(s, step, e)|
    && BudgetOk(s'.retries, s'.nextId, e, claimers + NewClaimers(s, step, e), replayers + NewReplayers(s, step, e))
  }

  lemma CommitBudget(s: State, c: nat, db: Db, e: EventId, claimers: set<nat>, replayers: set<nat>)
    requires Retrying(s, c, Committing) && Distinct(s.retries[c].items)
    requires BudgetOk(s.retries, s.nextId, e, claimers, replayers)
    ensures BudgetStep(s, Replayer(RetryCommit(c, db)), DoRetryCommit(s, c, db), e, claimers, replayers)
  {
    AdvanceBudget(s.retries, s.nextId, e, claimers, replayers, c);
    StageBudget(s.retries, s.nextId, e, claimers, replayers, c, Rescheduling);
    assert claimers + {} == claimers && replayers + {} == replayers;
  }

  lemma ReplayerBudget(cfg: Config, s: State, step: ReplayerStep, e: EventId, claimers: set<nat>, replayers: set<nat>)
    requires ReplayerCan(cfg, s, step) && BudgetOk(s.retries, s.nextId, e, claimers, replayers)
    requires forall c | c in s.retries :: c < s.nextId && Distinct(s.retries[c].items)
    ensures BudgetStep(s, Replayer(step), ReplayerDoes(cfg, s, step), e, claimers, replayers)
  {
    assert claimers + {} == claimers && replayers + {} == replayers;
    if step.RetryCommit? {
      CommitBudget(s, step.call, step.db, e, claimers, replayers);
    } else if step.Reschedule? {
      AdvanceBudget(s.retries, s.nextId, e, claimers, replayers, step.call);
    } else if step.RetryRead? {
      var stage := ReplayerDoes(cfg, s, step).retries[step.call].stage;
      StageBudget(s.retries, s.nextId, e, claimers, replayers, step.call, stage);
    }
  }

  lemma OthersBudget(cfg: Config, s: State, step: Step, e: EventId, claimers: set<nat>, replayers: set<nat>)
    requires Enabled(cfg, s, step) && !step.Replayer? && BudgetOk(s.retries, s.nextId, e, claimers, replayers)
    ensures BudgetStep(s, step, Apply(cfg, s, step), e, claimers, replayers)
  {
    hide EnvironmentDoes; hide DispatcherDoes;
    match step {
      case Environment(env) => EnvironmentFrame(s, env);
      case Dispatcher(dispatch) => DispatcherFrame(cfg, s, dispatch);
      case Worker(work) => WorkerFrame(cfg, s, work);
    }
    assert claimers + {} == claimers && replayers + {} == replayers;
  }

  lemma StepBudget(cfg: Config, s: State, step: Step, e: EventId, claimers: set<nat>, replayers: set<nat>)
    requires Enabled(cfg, s, step) && WellShaped(cfg, s) && BudgetOk(s.retries, s.nextId, e, claimers, replayers)
    ensures BudgetStep(s, step, Apply(cfg, s, step), e, claimers, replayers)
  {
    AllRetries(cfg, s);
    hide WellShaped; hide BudgetOk; hide BudgetStep; hide ReplayerDoes; hide ReplayerCan;
    if step.Replayer? {
      ReplayerBudget(cfg, s, step.replay, e, claimers, replayers);
    } else {
      OthersBudget(cfg, s, step, e, claimers, replayers);
    }
  }

  lemma {:induction false} RunBudget(cfg: Config, r: Run, e: EventId)
    requires Valid(cfg, r)
    ensures BudgetOk(Last(cfg, r).retries, Last(cfg, r).nextId, e, Claimers(cfg, r, e), Replayers(cfg, r, e))
    ensures |Claimers(cfg, r, e)| == Attempts(Last(cfg, r).letters, e)
    ensures |Replayers(cfg, r, e)| == AutoReplayCount(cfg, r, e)
  {
    match r
    case Start =>
    case Then(p, step) =>
      RunBudget(cfg, p, e);
      RunShape(cfg, p);
      hide WellShaped; hide BudgetOk; hide Enabled; hide Apply; hide NewClaimers; hide AutoReplays; hide Attempts;
      StepBudget(cfg, Last(cfg, p), step, e, Claimers(cfg, p, e), Replayers(cfg, p, e));
  }

  lemma AttemptsWithinMax(cfg: Config, s: State, e: EventId)
    requires WellShaped(cfg, s)
    ensures Attempts(s.letters, e) <= cfg.retryMax
  {
    hide EventsOk; hide OutboxOk; hide SerialsOk; hide BrokerOk; hide HandlingsOk; hide HoldersOk; hide RoundsOk;
    hide RetriesOk; hide ReplaysOk; hide Accepted;
  }

  /** Scheduler-made replays of an event never exceed its replay_attempts, nor that the configured maximum. */
  lemma AutoReplaysBounded(cfg: Config, r: Run, e: EventId)
    requires Valid(cfg, r)
    ensures AutoReplayCount(cfg, r, e) <= Attempts(Last(cfg, r).letters, e) <= cfg.retryMax
  {
    RunBudget(cfg, r, e);
    RunShape(cfg, r);
    AttemptsWithinMax(cfg, Last(cfg, r), e);
    hide WellShaped;
    Smaller(Replayers(cfg, r, e), Claimers(cfg, r, e));
  }

  lemma {:induction false} Smaller(a: set<nat>, b: set<nat>)
    requires a <= b
    ensures |a| <= |b|
  {
    assert b == a + (b - a);
  }

  // ----- the total remaining budget

  function Left(retryMax: nat, letter: Letter): nat {
    if letter.replayAttempts <= retryMax then retryMax - letter.replayAttempts else 0
  }

  /** The replays still to be claimed over all existing letters. */
  ghost function Remaining(retryMax: nat, letters: LetterTable): nat {
    if letters == map[] then 0
    else
      var e :| e in letters;
      Left(retryMax, letters[e]) + Remaining(retryMax, letters - {e})
  }

  lemma {:induction false} RemainingWithout(retryMax: nat, letters: LetterTable, e: EventId)
    requires e in letters
    ensures Remaining(retryMax, letters) == Left(retryMax, letters[e]) + Remaining(retryMax, letters - {e})
    decreases |letters|
  {
    var f :| f in letters &&
             Remaining(retryMax, letters) == Left(retryMax, letters[f]) + Remaining(retryMax, letters - {f});
    if f != e {
      RemainingWithout(retryMax, letters - {f}, e);
      RemainingWithout(retryMax, letters - {e}, f);
      assert letters - {f} - {e} == letters - {e} - {f};
    }
  }

  lemma RemainingUpdate(retryMax: nat, letters: LetterTable, e: EventId, letter: Letter)
    ensures Remaining(retryMax, letters[e := letter]) ==
            Remaining(retryMax, letters) + Left(retryMax, letter)
            - (if e in letters then Left(retryMax, letters[e]) else 0)
  {
    RemainingWithout(retryMax, letters[e := letter], e);
    if e in letters {
      RemainingWithout(retryMax, letters, e);
      assert letters[e := letter] - {e} == letters - {e};
    } else {
      assert letters[e := letter] - {e} == letters;
    }
  }

  lemma {:induction false} RemainingAfterClaim(retryMax: nat, letters: LetterTable, batch: seq<EventId>)
    requires Distinct(batch) && forall e | e in batch :: e in letters && letters[e].replayAttempts < retryMax
    ensures Remaining(retryMax, ClaimedLetters(letters, batch)) + |batch| == Remaining(retryMax, letters)
  {
    if batch == [] {
      assert ClaimedLetters(letters, batch) == letters;
    } else {
      var e, rest := batch[0], batch[1..];
      RemainingAfterClaim(retryMax, letters, rest);
      var claimed := letters[e].(replayAttempts := letters[e].replayAttempts + 1, nextRetryAt := None);
      assert ClaimedLetters(letters, batch) == ClaimedLetters(letters, rest)[e := claimed];
      RemainingUpdate(retryMax, ClaimedLetters(letters, rest), e, claimed);
    }
  }

  /** What a step takes from the budget, and what a first-time dead letter adds to it. */
  function Taken(step: Step): nat {
    if step.Replayer? && step.replay.ClaimLetters? then |step.replay.batch| else 0
  }

  predicate FirstBurial(s: State, step: Step) {
    && step.Worker? && step.work.SaveDeadLetter? && !step.work.db.Refused?
    && step.work.tag in s.handlings && s.handlings[step.work.tag].event !in s.letters
  }

  /** A statement that keeps replay_attempts of the one letter it touches keeps the total. */
  lemma RemainingKept(retryMax: nat, letters: LetterTable, e: EventId, letter: Letter)
    requires e in letters && letter.replayAttempts == letters[e].replayAttempts
    ensures Remaining(retryMax, letters[e := letter]) == Remaining(retryMax, letters)
  {
    RemainingUpdate(retryMax, letters, e, letter);
  }

  lemma BurialLedger(cfg: Config, s: State, t: nat, db: Db)
    requires t in s.handlings && s.handlings[t].phase.Exhausted?
    ensures Remaining(cfg.retryMax, DoSaveDeadLetter(cfg, s, t, db).letters) ==
            Remaining(cfg.retryMax, s.letters)
            + (if FirstBurial(s, Worker(SaveDeadLetter(t, db))) then cfg.retryMax else 0)
  {
    if !db.Refused? {
      var e := s.handlings[t].event;
      RemainingUpdate(cfg.retryMax, s.letters, e, DoSaveDeadLetter(cfg, s, t, db).letters[e]);
    }
    hide Remaining;
  }

  lemma ReplayerLedger(cfg: Config, s: State, step: ReplayerStep)
    requires ReplayerCan(cfg, s, step)
    ensures Remaining(cfg.retryMax, ReplayerDoes(cfg, s, step).letters) + Taken(Replayer(step)) ==
            Remaining(cfg.retryMax, s.letters)
  {
    hide Remaining; hide ClaimedLetters;
    var s' := ReplayerDoes(cfg, s, step);
    ReplayerFrame(cfg, s, step);
    if step.ClaimLetters? {
      RemainingAfterClaim(cfg.retryMax, s.letters, step.batch);
    } else if step.Reschedule? {
      var e := s.retries[step.call].items[0];
      if e in s.letters {
        RemainingKept(cfg.retryMax, s.letters, e, s'.letters[e]);
        assert s'.letters == s.letters[e := s'.letters[e]];
      }
    } else if Target(s, step).Some? && Target(s, step).value in s.letters {
      var e := Target(s, step).value;
      RemainingKept(cfg.retryMax, s.letters, e, s'.letters[e]);
    }
  }

  /** The total budget falls by one with every claimed letter, rises by the maximum with a first-time dead letter, and
      changes by nothing else. */
  lemma BudgetLedger(cfg: Config, s: State, step: Step)
    requires Enabled(cfg, s, step)
    ensures Remaining(cfg.retryMax, Apply(cfg, s, step).letters) + Taken(step) ==
            Remaining(cfg.retryMax, s.letters) + (if FirstBurial(s, step) then cfg.retryMax else 0)
  {
    hide Remaining; hide EnvironmentDoes; hide DispatcherDoes; hide ReplayerDoes; hide EnvironmentCan;
    hide DispatcherCan;
    hide ReplayerCan;
    match step {
      case Environment(env) => EnvironmentFrame(s, env);
      case Dispatcher(dispatch) => DispatcherFrame(cfg, s, dispatch);
      case Worker(work) =>
        WorkerFrame(cfg, s, work);
        if work.SaveDeadLetter? {
          hide FirstBurial;
          BurialLedger(cfg, s, work.tag, work.db);
        }
      case Replayer(replay) => ReplayerLedger(cfg, s, replay);
    }
  }
}
