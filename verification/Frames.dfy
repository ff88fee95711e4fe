/** What each group of steps leaves alone. */
module Frames {
  import opened Rows
  import opened Protocol

  lemma EnvironmentFrame(s: State, step: EnvironmentStep)
    requires EnvironmentCan(s, step)
    ensures var s' := EnvironmentDoes(s, step);
            && s'.letters == s.letters && s.now <= s'.now && s.nextId <= s'.nextId
            && (!step.Tick? ==> s'.now == s.now)
            && s'.events == (if step.Accept? then s.events[step.event := EventRow(step.content, Queued, 0, None)]
                 else s.events)
            && (!step.Accept? ==> s'.outbox == s.outbox)
            && (!step.LoseConnection? ==> s'.broker == s.broker)
            && (if step.Crash? then s' == DoCrash(s, step.agents)
                else
                  && s'.rounds == s.rounds && s'.handlings == s.handlings
                  && s'.retries == s.retries && s'.replays == s.replays)
  {
  }

  lemma DispatcherFrame(cfg: Config, s: State, step: DispatcherStep)
    requires DispatcherCan(cfg, s, step)
    ensures var s' := DispatcherDoes(cfg, s, step);
            && s'.now == s.now && s.nextId <= s'.nextId
            && s'.events == s.events && s'.letters == s.letters
            && s'.handlings == s.handlings && s'.retries == s.retries && s'.replays == s.replays
  {
  }

  lemma WorkerFrame(cfg: Config, s: State, step: WorkerStep)
    requires WorkerCan(s, step)
    ensures var s' := WorkerDoes(cfg, s, step);
            && s'.now == s.now && s.nextId <= s'.nextId
            && s'.outbox == s.outbox && s'.rounds == s.rounds && s'.retries == s.retries && s'.replays == s.replays
            && (!step.Claim? && !step.MarkProcessed? && !step.MarkFailed? ==> s'.events == s.events)
            && (!step.SaveDeadLetter? ==> s'.letters == s.letters)
            && (!step.Deliver? && !step.Settle? ==>
                  && s'.broker == s.broker && s'.nextId == s.nextId
                  && step.tag in s.handlings && s'.handlings == s.handlings[step.tag := s'.handlings[step.tag]])
  {
  }

  /** The event whose replay transaction the step commits, if it commits one. */
  function Target(s: State, step: ReplayerStep): Option<EventId> {
    if step.RetryCommit? && !step.db.Refused? && Retrying(s, step.call, Committing)
    then Some(s.retries[step.call].items[0])
    else if step.ReplayCommit? && !step.db.Refused? && step.call in s.replays then Some(s.replays[step.call])
    else None
  }

  lemma ReplayerFrame(cfg: Config, s: State, step: ReplayerStep)
    requires ReplayerCan(cfg, s, step)
    ensures var s' := ReplayerDoes(cfg, s, step);
            && s'.now == s.now && s.nextId <= s'.nextId
            && s'.broker == s.broker && s'.rounds == s.rounds && s'.handlings == s.handlings
            && match Target(s, step)
               case None =>
                 && s'.events == s.events && s'.outbox == s.outbox
                 && (!step.ClaimLetters? && !step.Reschedule? ==> s'.letters == s.letters)
               case Some(e) =>
                 && s'.events == ReplayedEvents(s.events, e)
                 && s'.outbox == ReopenedOutbox(s.outbox, e, ContentOf(s.events, e), s.nextId)
                 && s'.letters == ReplayedLetters(s.letters, e, s.now)
    ensures forall e :: CommitsReplay(s, Replayer(step), e) <==> Target(s, step) == Some(e)
  {
  }
}
