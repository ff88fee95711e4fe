/** The retry scheduler's loop and the manual replay, run against the shared system with everybody else interleaving. */
module Scheduling {
  import opened Rows
  import opened Protocol
  import opened Shape
  import opened Agents
  import opened Platform
  import B = Backoff
  import I = Int64

  /** What a lone replay of `e` leaves alone. */
  ghost predicate OnlyLetter(s: State, s': State, e: EventId) {
    && s'.now == s.now && s'.broker == s.broker && s'.rounds == s.rounds && s'.handlings == s.handlings
    && s'.events.Keys == s.events.Keys && s'.letters.Keys == s.letters.Keys
    && (forall f | f in s.events && f != e :: s'.events[f] == s.events[f])
    && (forall f | f in s.letters && f != e :: s'.letters[f] == s.letters[f])
    && (forall f | f in s.outbox && f != e :: f in s'.outbox && s'.outbox[f] == s.outbox[f])
  }

  /** The event is queued again with its outbox row open and its letter stamped. */
  ghost predicate Reopened(s: State, s': State, e: EventId) {
    && e in s'.letters && e in s'.events && s'.events[e].status.Queued? && s'.letters[e].replayedAt == Some(s.now)
    && e in s'.outbox && s'.outbox[e].publishedAt.None?
  }

  /** A letter after a lone scheduler on a healthy system has dealt with it: the event is requeued, or it was not failed
      and the letter, unless replayed before, is due again after `delay`. */
  ghost predicate DealtWith(s: State, s': State, e: EventId, delay: B.Delay) {
    && e in s'.letters
    && if Replayable(s, e) then Reopened(s, s', e)
       else
         && (e in s.events ==> e in s'.events && s'.events[e] == s.events[e])
         && (e in s.letters && s.letters[e].replayedAt.None? ==>
               delay.Delay? && s'.letters[e].nextRetryAt == Some(s.now + delay.nanoseconds))
  }

  lemma OnlyLetterTwice(s: State, s1: State, s2: State, e: EventId)
    requires OnlyLetter(s, s1, e) && OnlyLetter(s1, s2, e)
    ensures OnlyLetter(s, s2, e)
  {
  }

  lemma ReplayDeals(s: State, s': State, e: EventId, serial: nat, delay: B.Delay)
    requires Replayable(s, e)
    requires s'.now == s.now && s'.broker == s.broker && s'.rounds == s.rounds && s'.handlings == s.handlings
    requires s'.events == ReplayedEvents(s.events, e) && s'.letters == ReplayedLetters(s.letters, e, s.now)
    requires s'.outbox == ReopenedOutbox(s.outbox, e, ContentOf(s.events, e), serial)
    ensures DealtWith(s, s', e, delay) && OnlyLetter(s, s', e)
  {
  }

  lemma RescheduleDeals(s: State, s1: State, s2: State, e: EventId, delay: B.Delay)
    requires !Replayable(s, e) && e in s.letters && SameRow(s, s1, e) && OnlyLetter(s, s1, e) && delay.Delay?
    requires s2.now == s1.now && s2.broker == s1.broker && s2.rounds == s1.rounds && s2.handlings == s1.handlings
    requires s2.events == s1.events && s2.outbox == s1.outbox
              && s2.letters == RescheduledLetters(s1.letters, e, s1.now + delay.nanoseconds)
    ensures DealtWith(s, s2, e, delay) && OnlyLetter(s, s2, e)
  {
    assert OnlyLetter(s1, s2, e);
    OnlyLetterTwice(s, s1, s2, e);
  }

  lemma HeldLetter(cfg: Config, r: Run, call: nat)
    requires Protocol.Valid(cfg, r) && call in Last(cfg, r).retries
    ensures Last(cfg, r).retries[call].items != [] && Last(cfg, r).retries[call].items[0] in Last(cfg, r).letters
  {
    RunShape(cfg, r);
    hide EventsOk; hide OutboxOk; hide SerialsOk; hide LettersOk; hide BrokerOk; hide HandlingsOk; hide HoldersOk;
    hide RoundsOk; hide ReplaysOk; hide Accepted;
  }

  /** The read of ReplayDeadLetter for the first letter left; `go` if the replay goes on. */
  method ReadLetter(system: System, call: nat, ghost since: Run) returns (go: bool)
    requires system.Valid() && Continues(system.run, since) && call < system.nextId
    requires Retrying(system.Snapshot(), call, Reading)
    modifies system
    ensures system.Valid() && Continues(system.run, since) && call < system.nextId
    ensures Find(system.retries, call) == Some(old(system.retries)[call].(stage := if go then Committing
              else Rescheduling))
    ensures system.alone && system.healthy ==>
              && go == Replayable(old(system.Snapshot()), old(system.retries)[call].items[0])
              && system.Snapshot() == old(system.Snapshot()).(retries := system.retries)
  {
    hide Protocol.Valid; hide Last; hide Follows;
    system.Interfere({call});
    var ok, failed := system.ReadForRetry(call);
    go := ok && failed;
    assert Continues(system.run, since);
    system.Interfere({call});
  }

  /** ReplayDeadLetter for the first letter left: read, then commit. */
  method TryReplay(system: System, call: nat, ghost delay: B.Delay, ghost since: Run) returns (replayed: bool)
    requires system.Valid() && Continues(system.run, since) && call < system.nextId
    requires Retrying(system.Snapshot(), call, Reading)
    modifies system
    ensures system.Valid() && Continues(system.run, since) && call < system.nextId
    ensures Find(system.retries, call) ==
              if replayed then Find(AdvancedRetries(old(system.retries), call), call)
              else Some(old(system.retries)[call].(stage := Rescheduling))
    ensures system.alone && system.healthy ==>
              var s, e := old(system.Snapshot()), old(system.retries)[call].items[0];
              && replayed == Replayable(s, e)
              && (replayed ==> DealtWith(s, system.Snapshot(), e, delay))
              && (!replayed ==> SameRow(s, system.Snapshot(), e))
              && OnlyLetter(s, system.Snapshot(), e)
  {
    hide Protocol.Valid; hide Last; hide Follows; hide DealtWith; hide ReplayedEvents; hide ReopenedOutbox;
    hide ReplayedLetters;
    ghost var s := system.Snapshot();
    replayed := ReadLetter(system, call, since);
    if replayed {
      var committed, _ := system.CommitRetry(call);
      replayed := committed;
      if system.alone && system.healthy {
        ReplayDeals(s, system.Snapshot(), s.retries[call].items[0], s.nextId, delay);
      }
    }
  }

  /** The rows of `e` and the clock are the same. */
  ghost predicate SameRow(s: State, s': State, e: EventId) {
    && s'.now == s.now && Find(s'.events, e) == Find(s.events, e) && Find(s'.letters, e) == Find(s.letters, e)
  }

  /** Put the first letter left back on the schedule, unless computing the delay panics, which ends the process. */
  method PutBack(system: System, call: nat, delay: B.Delay, ghost since: Run)
    requires system.Valid() && Continues(system.run, since) && call < system.nextId
    requires Retrying(system.Snapshot(), call, Rescheduling)
    modifies system
    ensures system.Valid() && Continues(system.run, since) && call < system.nextId
    ensures Find(system.retries, call) == if delay.Panic? then None
              else Find(AdvancedRetries(old(system.retries), call), call)
    ensures system.alone && system.healthy && delay.Delay? ==>
              var s, s' := old(system.Snapshot()), system.Snapshot();
              && s'.now == s.now && s'.broker == s.broker && s'.rounds == s.rounds && s'.handlings == s.handlings
              && s'.events == s.events && s'.outbox == s.outbox
              && s'.letters == RescheduledLetters(s.letters, s.retries[call].items[0], s.now + delay.nanoseconds)
  {
    hide Protocol.Valid; hide Last; hide Follows; hide RescheduledLetters;
    if delay.Panic? {
      Extended(system.cfg, system.run, Environment(Crash({call})));
      system.Take(Environment(Crash({call})));
    } else {
      system.Interfere({call});
      var _, _ := system.RescheduleDeadLetterRetryWithDelay(call, delay.nanoseconds);
    }
  }

  /** Replay the first letter left; on any error put it back on the schedule. */
  method RetryItem(system: System, call: nat, interval: nat, attempt: nat, draw: nat, ghost since: Run)
      returns (panicked: bool)
    requires system.Valid() && Continues(system.run, since) && call < system.nextId
    requires Retrying(system.Snapshot(), call, Reading)
    requires 0 < interval <= I.MAX && attempt >= 1
    modifies system
    ensures system.Valid() && Continues(system.run, since) && call < system.nextId
    ensures Find(system.retries, call) == if panicked then None
              else Find(AdvancedRetries(old(system.retries), call), call)
    ensures panicked ==> B.DelayAt(interval, attempt, draw).Panic?
    ensures system.alone && system.healthy && !panicked ==>
              var s, e := old(system.Snapshot()), old(system.retries)[call].items[0];
              && DealtWith(s, system.Snapshot(), e, B.DelayAt(interval, attempt, draw))
              && OnlyLetter(s, system.Snapshot(), e)
  {
    hide Protocol.Valid; hide Last; hide Follows; hide DealtWith; hide OnlyLetter; hide SameRow;
    hide RescheduledLetters;
    hide B.DelayAt;
    ghost var s := system.Snapshot();
    HeldLetter(system.cfg, system.run, call);
    var replayed := TryReplay(system, call, B.DelayAt(interval, attempt, draw), since);
    panicked := false;
    if !replayed {
      var delay := B.RetryDelay(interval, attempt, draw);
      ghost var s1 := system.Snapshot();
      PutBack(system, call, delay, since);
      panicked := delay.Panic?;
      if system.alone && system.healthy && !panicked {
        RescheduleDeals(s, s1, system.Snapshot(), s.retries[call].items[0], delay);
      }
    }
  }

  lemma StillDealtWith(s: State, s1: State, s2: State, e: EventId, f: EventId, delay: B.Delay)
    requires e != f && OnlyLetter(s1, s2, f)
    ensures DealtWith(s, s1, e, delay) ==> DealtWith(s, s2, e, delay)
    ensures SameRow(s, s1, e) && e in s.letters ==> SameRow(s, s2, e)
  {
  }

  lemma DealtWithSince(s: State, s1: State, s2: State, e: EventId, delay: B.Delay)
    requires SameRow(s, s1, e) && DealtWith(s1, s2, e, delay)
    ensures DealtWith(s, s2, e, delay)
  {
  }

  /** The delay each claimed letter would be put back with. */
  function Delays(interval: nat, attempts: seq<nat>, draws: nat -> nat): (delays: seq<B.Delay>)
    ensures |delays| == |attempts|
    ensures forall i | 0 <= i < |attempts| :: delays[i] == B.DelayAt(interval, attempts[i], draws(i))
  {
    seq(|attempts|, i requires 0 <= i < |attempts| => B.DelayAt(interval, attempts[i], draws(i)))
  }

  /** The loop over the claimed letters. */
  method RetryBatch(system: System, call: nat, batch: seq<EventId>, attempts: seq<nat>, interval: nat,
      draws: nat -> nat,
                    ghost since: Run) returns (done: nat)
    requires system.Valid() && Continues(system.run, since) && call < system.nextId
    requires 0 < interval <= I.MAX && |attempts| == |batch| && forall i | 0 <= i < |batch| :: attempts[i] >= 1
    requires batch != [] && Distinct(batch) && Find(system.retries, call) == Some(RetryRound(batch, Reading))
    requires forall e | e in batch :: e in system.letters
    modifies system
    ensures system.Valid() && Continues(system.run, since) && call !in system.retries
    ensures done <= |batch|
    ensures done < |batch| ==> B.DelayAt(interval, attempts[done], draws(done)).Panic?
    ensures system.alone && system.healthy && done == |batch| ==>
              forall i | 0 <= i < |batch| ::
                DealtWith(old(system.Snapshot()), system.Snapshot(), batch[i], Delays(interval, attempts, draws)[i])
  {
    hide Protocol.Valid; hide Last; hide Follows; hide DealtWith; hide OnlyLetter; hide SameRow; hide B.DelayAt;
    hide Delays;
    ghost var s, delays := system.Snapshot(), Delays(interval, attempts, draws);
    SameRows(s);
    done := 0;
    while done < |batch|
      invariant 0 <= done <= |batch|
      invariant system.Valid() && Continues(system.run, since) && call < system.nextId
      invariant Find(system.retries, call) == if done < |batch| then Some(RetryRound(batch[done..], Reading)) else None
      invariant system.alone && system.healthy ==>
                  && (forall j | 0 <= j < done ::
                        DealtWith(s, system.Snapshot(), batch[j], delays[j]))
                  && (forall j | done <= j < |batch| :: SameRow(s, system.Snapshot(), batch[j]))
    {
      ghost var s1 := system.Snapshot();
      var panicked := RetryItem(system, call, interval, attempts[done], draws(done), since);
      if panicked {
        return;
      }
      if system.alone && system.healthy {
        ghost var s2 := system.Snapshot();
        DealtWithSince(s, s1, s2, batch[done], delays[done]);
        forall j | 0 <= j < |batch| && j != done {
          StillDealtWith(s, s1, s2, batch[j], batch[done], delays[j]);
        }
      }
      done := done + 1;
    }
  }

  lemma SameRows(s: State)
    ensures forall e :: SameRow(s, s, e)
  {
  }

  lemma DealtWithAfterClaim(s: State, s1: State, s2: State, e: EventId, batch: seq<EventId>, delay: B.Delay)
    requires s1.now == s.now && s1.events == s.events && s1.letters == ClaimedLetters(s.letters, batch)
    requires DealtWith(s1, s2, e, delay)
    ensures DealtWith(s, s2, e, delay)
  {
  }

  /** Claim due letters, then replay or reschedule them one by one, up to the first panic if there is one. Every
      execution is a run of the protocol and leaves no call of its own behind. A lone scheduler on a healthy system
      takes the letters due first and, unless it panics, deals with every one of them. It cannot panic at attempts where
      the interval is reliable. */
  method Retry(system: System, interval: nat, draws: nat -> nat)
      returns (batch: seq<EventId>, attempts: seq<nat>, done: nat)
    requires system.Valid() && 0 < interval <= I.MAX
    modifies system
    ensures system.Valid() && Continues(system.run, old(system.run))
    ensures |attempts| == |batch| && done <= |batch|
    ensures done < |batch| ==> attempts[done] >= 1 && !B.Reliable(interval, attempts[done])
    ensures system.alone && system.healthy ==>
              var s := old(system.Snapshot());
              && FirstLetters(s.letters, system.rank, s.now, system.cfg.retryMax, batch)
              && (forall i | 0 <= i < |batch| ::
                    batch[i] in s.letters && attempts[i] == s.letters[batch[i]].replayAttempts + 1)
              && (done == |batch| ==> forall i | 0 <= i < |batch| ::
                    DealtWith(s, system.Snapshot(), batch[i], Delays(interval, attempts, draws)[i]))
  {
    hide Protocol.Valid; hide Last; hide Follows; hide DealtWith; hide FirstLetters; hide B.DelayAt; hide B.Reliable;
    hide Delays;
    system.Interfere({});
    var stamp := system.now;
    system.Interfere({});
    ghost var s := system.Snapshot();
    ghost var earlier := system.run;
    var _, claimed, numbers, call, reserved := system.ClaimRetryableDeadLetterDetails(stamp);
    batch, attempts, done := claimed, numbers, 0;
    assert Continues(Then(earlier, Replayer(ClaimLetters(stamp, reserved))), old(system.run));
    if batch != [] {
      ghost var s1 := system.Snapshot();
      done := RetryBatch(system, call, batch, attempts, interval, draws, old(system.run));
      if done < |batch| && B.Reliable(interval, attempts[done]) {
        B.ReliableIsRight(interval, attempts[done], draws(done));
      }
      if system.alone && system.healthy && done == |batch| {
        forall i | 0 <= i < |batch| {
          DealtWithAfterClaim(s, s1, system.Snapshot(), batch[i], batch, Delays(interval, attempts, draws)[i]);
        }
      }
    }
  }

  /** The manual replay: unlocked read, gap, guarded commit. `read` is what the read answered at the end of run `at`,
      `found` and `db` how the read and the commit ended. On every system the caller is told `ReplayAccepted` exactly if
      the read found the event failed with its letter and the commit is known to have succeeded, and the call's own
      commit is then the last step of the run. After any other answer the call has taken no commit, or one that was
      refused and changed no row, or one whose reply was lost. */
  method ReplayDeadLetter(system: System, e: EventId)
    returns (result: ReplayResult, ghost at: Run, ghost found: Db, ghost read: ReplayResult, ghost call: nat,
        ghost db: Db)
    requires system.Valid()
    modifies system
    ensures system.Valid() && Continues(system.run, at) && Continues(at, old(system.run))
              && Protocol.Valid(system.cfg, at)
    ensures var s := Last(system.cfg, at);
            read == if found != Done then ReplayError
                    else if e !in s.events || e !in s.letters then NotFound
                    else if s.events[e].status != Failed then NotFailed
                    else ReplayAccepted
    ensures result == if read == ReplayAccepted && db != Done then ReplayError else read
    ensures read != ReplayAccepted ==> system.run == at
    ensures read == ReplayAccepted ==> Committed(system.cfg, system.run, at, e, call, db)
    ensures system.healthy ==> found == Done && (read == ReplayAccepted ==> db == Done)
    ensures system.alone ==> at == old(system.run)
    ensures system.alone && system.healthy && result == ReplayAccepted ==>
              var s := old(system.Snapshot()); OnlyLetter(s, system.Snapshot(), e) && Reopened(s, system.Snapshot(), e)
  {
    hide Protocol.Valid; hide Last; hide Follows; hide OnlyLetter; hide Reopened;
    hide ReplayedEvents; hide ReopenedOutbox; hide ReplayedLetters;
    ghost var s := system.Snapshot();
    system.Interfere({});
    at := system.run;
    var token: nat;
    result, token, found := system.ReadForReplay(e);
    read, call, db := result, token, Refused;
    if result.ReplayAccepted? {
      system.Interfere({token});
      ghost var before := system.run;
      var ok;
      ok, db := system.CommitReplay(token);
      if !ok {
        result := ReplayError;
      }
      CommitEnds(system.cfg, before, at, e, token, db);
      if system.alone && system.healthy {
        ReplayDeals(s, system.Snapshot(), e, s.nextId + 1, B.Panic);
      }
    }
  }

  /** The run goes on from the read at `at` by this call's one commit as its last step; refused, it changes no row. */
  ghost predicate Committed(cfg: Config, r: Run, at: Run, e: EventId, call: nat, db: Db)
    requires Protocol.Valid(cfg, r)
  {
    && r.Then? && r.step == Replayer(ReplayCommit(call, db)) && Continues(r.prefix, Then(at, Replayer(ReplayRead(e))))
    && var s, s' := Last(cfg, r.prefix), Last(cfg, r);
       && call in s.replays && s.replays[call] == e && call !in s'.replays
       && (db == Refused ==> s'.events == s.events && s'.outbox == s.outbox && s'.letters == s.letters)
  }

  lemma CommitEnds(cfg: Config, before: Run, at: Run, e: EventId, call: nat, db: Db)
    requires Protocol.Valid(cfg, Then(before, Replayer(ReplayCommit(call, db))))
    requires Continues(before, Then(at, Replayer(ReplayRead(e))))
    requires call in Last(cfg, before).replays && Last(cfg, before).replays[call] == e
    ensures Committed(cfg, Then(before, Replayer(ReplayCommit(call, db))), at, e, call, db)
    ensures Continues(Then(before, Replayer(ReplayCommit(call, db))), at)
  {
    ContinuesOn(before, Then(at, Replayer(ReplayRead(e))), at);
    hide Continues;
  }

  lemma {:induction false} ContinuesOn(r: Run, middle: Run, earlier: Run)
    requires Continues(r, middle) && middle.Then? && middle.prefix == earlier
    ensures Continues(r, earlier) && forall step :: Continues(Then(r, step), earlier)
  {
    if r != middle {
      ContinuesOn(r.prefix, middle, earlier);
    }
  }
}
