/** The worker's delivery handling and retry loop, run against the shared system with everybody else interleaving. */
module Working {
  import opened Rows
  import opened Protocol
  import opened Agents
  import opened Timing
  import opened Platform

  // ----- what the retry loop is to do

  /** How often a processor with outcome `processor(k)` at attempt k is called, starting at attempt `k`, with `n`
      attempts in all: up to the first success, or all of them. */
  function CallsFrom(processor: nat -> bool, k: nat, n: nat): (calls: nat)
    requires 1 <= k <= n
    ensures k <= calls <= n
    decreases n - k
  {
    if processor(k) || k == n then k else CallsFrom(processor, k + 1, n)
  }

  /** The pauses of k-1 failed attempts: R, 2R, .., (k-1)R. */
  function Pauses(cfg: Config, k: nat): (pauses: seq<nat>)
    requires k >= 1
    ensures |pauses| == k - 1
  {
    seq(k - 1, i requires 0 <= i < k - 1 => RetryBackoff(cfg, i + 1))
  }

  lemma LoopStep(cfg: Config, processor: nat -> bool, k: nat, n: nat)
    requires 1 <= k <= n
    ensures processor(k) || k == n ==> CallsFrom(processor, k, n) == k
    ensures !processor(k) && k < n ==> CallsFrom(processor, k, n) == CallsFrom(processor, k + 1, n)
    ensures Pauses(cfg, k + 1) == Pauses(cfg, k) + [RetryBackoff(cfg, k)]
    ensures Pauses(cfg, 1) == []
  {
  }

  function Sum(xs: seq<nat>): nat {
    if xs == [] then 0 else Sum(xs[..|xs| - 1]) + xs[|xs| - 1]
  }

  lemma SumGrows(xs: seq<nat>, x: nat)
    ensures Sum(xs + [x]) == Sum(xs) + x && Sum([]) == 0
  {
    assert (xs + [x])[..|xs|] == xs;
  }

  /** The pauses of k calls add up to R k(k-1)/2. */
  lemma {:induction false} PausesAddUp(cfg: Config, k: nat)
    requires k >= 1
    ensures Sum(Pauses(cfg, k)) == cfg.backoff * ((k - 1) * k / 2)
  {
    TriangleClosed(k - 1);
    PausesTriangle(cfg, k);
    hide Triangle; hide Sum; hide Pauses;
  }

  lemma {:induction false} PausesTriangle(cfg: Config, k: nat)
    requires k >= 1
    ensures Sum(Pauses(cfg, k)) == cfg.backoff * Triangle(k - 1)
  {
    if k > 1 {
      PausesTriangle(cfg, k - 1);
      assert Pauses(cfg, k)[..k - 2] == Pauses(cfg, k - 1);
      Distribute(cfg.backoff, Triangle(k - 2), k - 1);
    }
  }

  /** The calls end with the first success, or with attempt n when there is none. */
  lemma {:induction false} CallsAreFirstSuccess(processor: nat -> bool, k: nat, n: nat)
    requires 1 <= k <= n
    ensures var calls := CallsFrom(processor, k, n);
            && (forall j | k <= j < calls :: !processor(j))
            && (processor(calls) || calls == n)
    decreases n - k
  {
    if !processor(k) && k < n {
      CallsAreFirstSuccess(processor, k + 1, n);
    }
  }

  // ----- one call and its consequences

  /** The same delivery in another phase. */
  predicate SameDelivery(h: Handling, h': Handling) {
    h'.message == h.message && h'.event == h.event && h'.content == h.content && h'.stamp == h.stamp
  }

  /** What a lone worker never changes. */
  ghost predicate Elsewhere(s: State, s': State, tag: nat) {
    && s.now <= s'.now && s'.nextId == s.nextId
    && s'.outbox == s.outbox && s'.broker == s.broker && s'.rounds == s.rounds
    && s'.retries == s.retries && s'.replays == s.replays
    && tag in s'.handlings && s'.handlings == s.handlings[tag := s'.handlings[tag]]
  }

  lemma StillElsewhere(s0: State, s1: State, s2: State, tag: nat)
    requires Elsewhere(s0, s1, tag) && Elsewhere(s1, s2, tag)
    ensures Elsewhere(s0, s2, tag)
  {
  }

  ghost predicate Holding(system: System, tag: nat, phase: Phase, since: Run)
    reads system
  {
    && system.Valid() && Follows(system.run, since, system.alone)
    && tag < system.nextId && tag in system.handlings && system.handlings[tag].phase == phase
  }

  /** All a lone worker changes between its writes: its own position, and `time` passes. */
  ghost predicate Idle(s: State, s': State, tag: nat, time: nat) {
    Elsewhere(s, s', tag) && s'.events == s.events && s'.letters == s.letters && s'.now == s.now + time
  }

  lemma StillIdle(given: bool, s0: State, s1: State, s2: State, tag: nat, a: nat, b: nat)
    requires given ==> Idle(s0, s1, tag, a) && Idle(s1, s2, tag, b)
    ensures given ==> Idle(s0, s2, tag, a + b)
  {
    if given {
      StillElsewhere(s0, s1, s2, tag);
    }
  }

  lemma IdleSelf(s: State, tag: nat)
    requires tag in s.handlings
    ensures Idle(s, s, tag, 0)
  {
  }

  method BeginCall(system: System, tag: nat, attempt: nat, ghost since: Run)
    requires Holding(system, tag, Claimed(attempt), since)
    modifies system
    ensures Holding(system, tag, Calling(attempt), since)
    ensures SameDelivery(old(system.handlings)[tag], system.handlings[tag])
    ensures CallsBy(system.run, tag) == old(CallsBy(system.run, tag)) + 1
    ensures system.alone ==> Idle(old(system.Snapshot()), system.Snapshot(), tag, 0)
  {
    hide Protocol.Valid; hide Last; hide Continues; hide Follows;
    system.Interfere({tag});
    FollowsThen(system.run, since, system.alone, Worker(StartCall(tag)));
    system.StartProcessor(tag);
  }

  method EndCall(system: System, tag: nat, attempt: nat, ok: bool, ghost since: Run)
    requires Holding(system, tag, Calling(attempt), since)
    modifies system
    ensures Holding(system, tag, AfterCall(system.cfg, attempt, ok), since)
    ensures SameDelivery(old(system.handlings)[tag], system.handlings[tag])
    ensures CallsBy(system.run, tag) == old(CallsBy(system.run, tag))
    ensures system.alone ==> Idle(old(system.Snapshot()), system.Snapshot(), tag, 0)
  {
    hide Protocol.Valid; hide Last; hide Continues; hide Follows;
    system.Interfere({tag});
    FollowsThen(system.run, since, system.alone, Worker(FinishCall(tag, ok)));
    system.EndProcessor(tag, ok);
  }

  function AfterCall(cfg: Config, attempt: nat, ok: bool): Phase {
    if ok then Succeeded(attempt) else if attempt == cfg.maxRetries + 1 then Exhausted else Sleeping(attempt)
  }

  /** One attempt: the processor runs while others go on, and returns `ok`. */
  method CallProcessor(system: System, tag: nat, attempt: nat, ok: bool, ghost since: Run)
    requires Holding(system, tag, Claimed(attempt), since)
    modifies system
    ensures Holding(system, tag, AfterCall(system.cfg, attempt, ok), since)
    ensures SameDelivery(old(system.handlings)[tag], system.handlings[tag])
    ensures CallsBy(system.run, tag) == old(CallsBy(system.run, tag)) + 1
    ensures system.alone ==> Idle(old(system.Snapshot()), system.Snapshot(), tag, 0)
  {
    hide Protocol.Valid; hide Last; hide Continues; hide Follows; hide Elsewhere; hide Idle; hide CallsBy;
    ghost var s := system.Snapshot();
    BeginCall(system, tag, attempt, since);
    ghost var s1 := system.Snapshot();
    EndCall(system, tag, attempt, ok, since);
    StillIdle(system.alone, s, s1, system.Snapshot(), tag, 0, 0);
  }

  method Sleep(system: System, tag: nat, attempt: nat, pause: nat, ghost since: Run)
    requires Holding(system, tag, Sleeping(attempt), since)
    modifies system
    ensures Holding(system, tag, Sleeping(attempt), since)
    ensures SameDelivery(old(system.handlings)[tag], system.handlings[tag])
    ensures CallsBy(system.run, tag) == old(CallsBy(system.run, tag))
    ensures system.alone ==> Idle(old(system.Snapshot()), system.Snapshot(), tag, pause)
  {
    hide Protocol.Valid; hide Last; hide Continues; hide Follows;
    FollowsThen(system.run, since, system.alone, Environment(Tick(pause)));
    system.Pause(pause);
    system.Interfere({tag});
  }

  method Backoff(system: System, tag: nat, attempt: nat, ghost since: Run) returns (pause: nat)
    requires Holding(system, tag, Sleeping(attempt), since)
    modifies system
    ensures Holding(system, tag, Claimed(attempt + 1), since) && pause == RetryBackoff(system.cfg, attempt)
    ensures SameDelivery(old(system.handlings)[tag], system.handlings[tag])
    ensures CallsBy(system.run, tag) == old(CallsBy(system.run, tag))
    ensures system.alone ==> Idle(old(system.Snapshot()), system.Snapshot(), tag, pause)
  {
    hide Protocol.Valid; hide Last; hide Continues; hide RetryBackoff; hide Follows;
    pause := RetryBackoff(system.cfg, attempt);
    Sleep(system, tag, attempt, pause, since);
    FollowsThen(system.run, since, system.alone, Worker(Wake(tag)));
    system.WakeUp(tag);
  }

  /** The terminal writes of one call of the loop and how each ended: the success mark; or the dead letter, which is not
      known to be saved; or the failure mark, after the dead letter was saved. */
  datatype Writes = MarkedProcessed(mark: Db) | Unburied(letter: Db) | MarkedFailed(mark: Db)

  /** All writes the outcome calls for are known to have succeeded. */
  predicate AllWritten(writes: Writes) {
    !writes.Unburied? && writes.mark.Done?
  }

  /** The rows of `e` after those writes; one whose reply was lost has taken effect. */
  function EventsAfter(writes: Writes, events: EventTable, e: EventId, attempts: nat): EventTable {
    match writes
    case MarkedProcessed(mark) => if mark.Refused? then events else FinishedEvents(events, e, Processed, attempts)
    case Unburied(_) => events
    case MarkedFailed(mark) => if mark.Refused? then events else FinishedEvents(events, e, Failed, attempts)
  }

  function LettersAfter(writes: Writes, letters: LetterTable, e: EventId, content: Content, attempts: nat,
      now: nat): LetterTable {
    match writes
    case MarkedProcessed(_) => letters
    case Unburied(letter) => if letter.Refused? then letters else BuriedLetters(letters, e, content, attempts, now)
    case MarkedFailed(_) => BuriedLetters(letters, e, content, attempts, now)
  }

  /** What a lone worker's terminal writes leave behind. */
  ghost predicate Written(s: State, s': State, tag: nat, writes: Writes, attempts: nat) {
    && Elsewhere(s, s', tag) && tag in s.handlings
    && var h := s.handlings[tag];
       && s'.events == EventsAfter(writes, s.events, h.event, attempts)
       && s'.letters == LettersAfter(writes, s.letters, h.event, h.content, attempts, s'.now)
  }

  method Succeed(system: System, tag: nat, attempt: nat, ghost since: Run)
      returns (persisted: bool, ghost writes: Writes)
    requires Holding(system, tag, Succeeded(attempt), since)
    modifies system
    ensures Holding(system, tag, Settling(if persisted then Ack else Requeue), since)
    ensures SameDelivery(old(system.handlings)[tag], system.handlings[tag])
    ensures CallsBy(system.run, tag) == old(CallsBy(system.run, tag))
    ensures writes.MarkedProcessed? && persisted == AllWritten(writes) && (system.healthy ==> persisted)
    ensures system.alone ==>
              Written(old(system.Snapshot()), system.Snapshot(), tag, writes, attempt) && system.now == old(system.now)
  {
    hide Protocol.Valid; hide Last; hide Continues;
    system.Interfere({tag});
    var ok, db := system.MarkProcessed(tag);
    persisted, writes := ok, MarkedProcessed(db);
  }

  method Bury(system: System, tag: nat, ghost since: Run) returns (saved: bool, ghost db: Db)
    requires Holding(system, tag, Exhausted, since)
    modifies system
    ensures Holding(system, tag, if saved then Buried else Settling(Requeue), since)
    ensures SameDelivery(old(system.handlings)[tag], system.handlings[tag])
    ensures CallsBy(system.run, tag) == old(CallsBy(system.run, tag))
    ensures saved == db.Done? && (system.healthy ==> saved)
    ensures system.alone ==>
              && Elsewhere(old(system.Snapshot()), system.Snapshot(), tag) && system.events == old(system.events)
              && system.now == old(system.now)
              && var h := old(system.handlings)[tag];
                 system.letters == if db.Refused? then old(system.letters)
                                   else BuriedLetters(old(system.letters), h.event, h.content,
                                       system.cfg.maxRetries + 1, system.now)
  {
    hide Protocol.Valid; hide Last; hide Continues; hide BuriedLetters;
    system.Interfere({tag});
    saved, db := system.SaveDeadLetter(tag);
  }

  method RecordFailure(system: System, tag: nat, ghost since: Run) returns (marked: bool, ghost db: Db)
    requires Holding(system, tag, Buried, since)
    modifies system
    ensures Holding(system, tag, Settling(if marked then Ack else Requeue), since)
    ensures SameDelivery(old(system.handlings)[tag], system.handlings[tag])
    ensures CallsBy(system.run, tag) == old(CallsBy(system.run, tag))
    ensures marked == db.Done? && (system.healthy ==> marked)
    ensures system.alone ==>
              && Elsewhere(old(system.Snapshot()), system.Snapshot(), tag)
              && system.letters == old(system.letters) && system.now == old(system.now)
              && system.events == EventsAfter(MarkedFailed(db), old(system.events), old(system.handlings)[tag].event,
                                              system.cfg.maxRetries + 1)
  {
    hide Protocol.Valid; hide Last; hide Continues; hide FinishedEvents;
    system.Interfere({tag});
    marked, db := system.MarkFailed(tag);
  }

  /** The dead letter comes first, the terminal status second; either may fail. */
  method Fail(system: System, tag: nat, ghost since: Run) returns (persisted: bool, ghost writes: Writes)
    requires Holding(system, tag, Exhausted, since)
    modifies system
    ensures Holding(system, tag, Settling(if persisted then Ack else Requeue), since)
    ensures SameDelivery(old(system.handlings)[tag], system.handlings[tag])
    ensures CallsBy(system.run, tag) == old(CallsBy(system.run, tag))
    ensures !writes.MarkedProcessed? && persisted == AllWritten(writes) && (system.healthy ==> persisted)
    ensures system.alone ==>
              && Written(old(system.Snapshot()), system.Snapshot(), tag, writes, system.cfg.maxRetries + 1)
              && system.now == old(system.now)
  {
    hide Protocol.Valid; hide Last; hide Continues; hide Follows; hide FinishedEvents; hide BuriedLetters;
    ghost var s := system.Snapshot();
    var saved, db := Bury(system, tag, since);
    if !saved {
      return false, Unburied(db);
    }
    ghost var s1 := system.Snapshot();
    persisted, db := RecordFailure(system, tag, since);
    writes := MarkedFailed(db);
    if system.alone {
      StillElsewhere(s, s1, system.Snapshot(), tag);
    }
  }

  /** The terminal writes after the last call, which succeeded or not. */
  method Finish(system: System, tag: nat, attempt: nat, succeeded: bool, ghost since: Run)
    returns (persisted: bool, ghost writes: Writes)
    requires Holding(system, tag, if succeeded then Succeeded(attempt) else Exhausted, since)
    requires !succeeded ==> attempt == system.cfg.maxRetries + 1
    modifies system
    ensures Holding(system, tag, Settling(if persisted then Ack else Requeue), since)
    ensures SameDelivery(old(system.handlings)[tag], system.handlings[tag])
    ensures CallsBy(system.run, tag) == old(CallsBy(system.run, tag))
    ensures writes.MarkedProcessed? == succeeded && persisted == AllWritten(writes) && (system.healthy ==> persisted)
    ensures system.alone ==>
              Written(old(system.Snapshot()), system.Snapshot(), tag, writes, attempt) && system.now == old(system.now)
  {
    hide Protocol.Valid; hide Last; hide Continues; hide Follows; hide Written;
    if succeeded {
      persisted, writes := Succeed(system, tag, attempt, since);
    } else {
      persisted, writes := Fail(system, tag, since);
    }
  }

  /** Writes after calls and pauses that changed no row. */
  lemma WrittenAfter(given: bool, s0: State, s1: State, s2: State, tag: nat, writes: Writes, attempts: nat, time: nat)
    requires given ==> Idle(s0, s1, tag, time) && Written(s1, s2, tag, writes, attempts) && s2.now == s1.now
    requires given ==> tag in s0.handlings && SameDelivery(s0.handlings[tag], s1.handlings[tag])
    ensures given ==> Written(s0, s2, tag, writes, attempts) && s2.now == s0.now + time
  {
    hide FinishedEvents; hide BuriedLetters;
    if given {
      StillElsewhere(s0, s1, s2, tag);
    }
  }

  /** One round of the loop: call the processor, then finish, or back off before the next attempt. */
  method Attempt(system: System, tag: nat, attempt: nat, ok: bool, ghost since: Run)
    returns (done: bool, persisted: bool, pause: nat, ghost writes: Writes)
    requires Holding(system, tag, Claimed(attempt), since)
    modifies system
    ensures done == (ok || attempt == system.cfg.maxRetries + 1)
    ensures Holding(system, tag, if !done then Claimed(attempt + 1)
                                 else if persisted then Settling(Ack) else Settling(Requeue), since)
    ensures SameDelivery(old(system.handlings)[tag], system.handlings[tag])
    ensures CallsBy(system.run, tag) == old(CallsBy(system.run, tag)) + 1
    ensures done ==>
              writes.MarkedProcessed? == ok && persisted == AllWritten(writes) && (system.healthy ==> persisted)
    ensures done && system.alone ==>
              Written(old(system.Snapshot()), system.Snapshot(), tag, writes, attempt) && system.now == old(system.now)
    ensures !done ==> pause == RetryBackoff(system.cfg, attempt)
    ensures !done && system.alone ==> Idle(old(system.Snapshot()), system.Snapshot(), tag, pause)
  {
    hide Protocol.Valid; hide Last; hide Continues; hide RetryBackoff; hide Follows; hide Idle; hide Written;
    hide AllWritten; hide CallsBy; hide Working; hide Find;
    ghost var s := system.Snapshot();
    CallProcessor(system, tag, attempt, ok, since);
    ghost var s1 := system.Snapshot();
    done, persisted, pause, writes := ok || attempt == system.cfg.maxRetries + 1, false, 0, Unburied(Refused);
    if done {
      persisted, writes := Finish(system, tag, attempt, ok, since);
      WrittenAfter(system.alone, s, s1, system.Snapshot(), tag, writes, attempt, 0);
    } else {
      pause := Backoff(system, tag, attempt, since);
      StillIdle(system.alone, s, s1, system.Snapshot(), tag, 0, pause);
    }
  }

  /** The retry loop. The processor runs exactly up to its first success or M+1 times; the pauses are R, 2R, ..;
      `persisted` holds iff every terminal write that the outcome calls for is known to have succeeded, and the delivery
      goes on to be acknowledged iff it holds. A lone worker leaves the rows as those writes do, whether they succeeded,
      lost their reply or failed, changes nothing else, and sleeps exactly the pauses. */
  method ProcessEventWithRetry(system: System, tag: nat, processor: nat -> bool, ghost since: Run)
    returns (succeeded: bool, persisted: bool, pauses: seq<nat>, ghost writes: Writes)
    requires Holding(system, tag, Claimed(1), since)
    modifies system
    ensures Holding(system, tag, Settling(if persisted then Ack else Requeue), since)
    ensures SameDelivery(old(system.handlings)[tag], system.handlings[tag])
    ensures writes.MarkedProcessed? == succeeded && persisted == AllWritten(writes) && (system.healthy ==> persisted)
    ensures var calls := CallsFrom(processor, 1, system.cfg.maxRetries + 1);
            && CallsBy(system.run, tag) == old(CallsBy(system.run, tag)) + calls
            && pauses == Pauses(system.cfg, calls)
            && succeeded == processor(calls)
            && (system.alone ==> Written(old(system.Snapshot()), system.Snapshot(), tag, writes, calls))
    ensures system.alone ==> system.now == old(system.now) + Sum(pauses)
  {
    hide Protocol.Valid; hide Last; hide Continues; hide RetryBackoff; hide Follows; hide Idle; hide Written;
    hide CallsFrom; hide Pauses; hide AllWritten; hide CallsBy; hide Working; hide Find; hide Sum;
    var maxAttempts := system.cfg.maxRetries + 1;
    LoopStep(system.cfg, processor, 1, maxAttempts);
    pauses := [];
    ghost var s0 := system.Snapshot();
    IdleSelf(s0, tag);
    SumGrows([], 0);
    var attempt := 1;
    while attempt <= maxAttempts
      invariant 1 <= attempt <= maxAttempts
      invariant Holding(system, tag, Claimed(attempt), since)
      invariant SameDelivery(old(system.handlings)[tag], system.handlings[tag])
      invariant CallsFrom(processor, 1, maxAttempts) == CallsFrom(processor, attempt, maxAttempts)
      invariant CallsBy(system.run, tag) == old(CallsBy(system.run, tag)) + attempt - 1
      invariant pauses == Pauses(system.cfg, attempt)
      invariant system.alone ==> Idle(s0, system.Snapshot(), tag, Sum(pauses))
    {
      LoopStep(system.cfg, processor, attempt, maxAttempts);
      ghost var s1 := system.Snapshot();
      var done, saved, pause, outcome := Attempt(system, tag, attempt, processor(attempt), since);
      if done {
        WrittenAfter(system.alone, s0, s1, system.Snapshot(), tag, outcome, attempt, Sum(pauses));
        return processor(attempt), saved, pauses, outcome;
      }
      StillIdle(system.alone, s0, s1, system.Snapshot(), tag, Sum(pauses), pause);
      SumGrows(pauses, pause);
      pauses := pauses + [pause];
      attempt := attempt + 1;
    }
    assert false;
  }

  // ----- one delivery

  datatype ClaimResult = EventClaimed | EventClaimInProgress | EventClaimFinal | EventClaimMissing | ClaimError

  /** The phase each claim result leaves the delivery in. */
  function PhaseAfter(claim: ClaimResult): Phase {
    match claim
    case EventClaimed => Claimed(1)
    case EventClaimInProgress => Settling(Requeue)
    case EventClaimFinal => Settling(Ack)
    case EventClaimMissing => Settling(Drop)
    case ClaimError => Settling(Requeue)
  }

  /** What a lone caller of a healthy database is told about the row of `e`. */
  function ClaimOf(events: EventTable, e: EventId, stamp: nat, lease: nat): ClaimResult {
    if e !in events then EventClaimMissing
    else if Claimable(events[e], stamp, lease) then EventClaimed
    else if Live(events[e].status) then EventClaimInProgress else EventClaimFinal
  }

  /** How one claim went: how the UPDATE ended and whether its guard held; and, if it matched nothing, whether the
      status read succeeded and what it saw. */
  datatype Claiming = Claiming(update: Db, matched: bool, read: bool, seen: Option<Status>)

  /** What the caller is told. */
  function Answer(c: Claiming): ClaimResult {
    if c.update != Done then ClaimError
    else if c.matched then EventClaimed
    else if !c.read then ClaimError
    else if c.seen == None then EventClaimMissing
    else if c.seen == Some(Processed) || c.seen == Some(Failed) then EventClaimFinal
    else EventClaimInProgress
  }

  function StatusOf(events: EventTable, e: EventId): Option<Status> {
    if e in events then Some(events[e].status) else None
  }

  /** The status read for a delivery whose claim matched no row; others may have changed the row since. */
  method ReadClaimStatus(system: System, tag: nat, ghost since: Run)
    returns (claim: ClaimResult, ghost read: bool, ghost seen: Option<Status>)
    requires Holding(system, tag, Unclaimed, since)
    modifies system
    ensures Holding(system, tag, PhaseAfter(claim), since) && claim == Answer(Claiming(Done, false, read, seen))
    ensures SameDelivery(old(system.handlings)[tag], system.handlings[tag])
    ensures CallsBy(system.run, tag) == old(CallsBy(system.run, tag))
    ensures seen == StatusOf(system.events, system.handlings[tag].event) && (system.healthy ==> read)
    ensures system.alone ==>
              && Elsewhere(old(system.Snapshot()), system.Snapshot(), tag)
              && system.events == old(system.events) && system.now == old(system.now)
  {
    hide Protocol.Valid; hide Last; hide Continues;
    system.Interfere({tag});
    var ok, status := system.ReadEventStatus(tag);
    read, seen := ok, status;
    if !ok {
      return ClaimError, read, seen;
    }
    match status {
      case None => return EventClaimMissing, read, seen;
      case Some(Processed) => return EventClaimFinal, read, seen;
      case Some(Failed) => return EventClaimFinal, read, seen;
      case Some(_) => return EventClaimInProgress, read, seen;
    }
  }

  /** A lone worker's claim of `e` at `stamp`: the guard is the row's, the row is stamped iff the UPDATE reached the
      table and the guard held, and the read sees the row as it was. */
  ghost predicate Claims(s: State, s': State, e: EventId, stamp: nat, lease: nat, c: Claiming) {
    && (c.matched <==>
          && e in s.events
          && (|| s.events[e].status == Queued
              || (&& s.events[e].status == Processing && s.events[e].startedAt.Some?
                  && s.events[e].startedAt.value + lease <= stamp)))
    && s'.events == (if c.update == Refused then s.events else ClaimedEvents(s.events, e, stamp, lease))
    && (c.update == Done && !c.matched ==> c.seen == StatusOf(s.events, e))
    && s'.now == s.now
  }

  /** Two statements with a gap between them: the guarded UPDATE, then the status read. */
  method ClaimForProcessing(system: System, tag: nat, stamp: nat, ghost since: Run)
    returns (claim: ClaimResult, ghost c: Claiming)
    requires Holding(system, tag, Received, since) && stamp <= system.now
    modifies system
    ensures Holding(system, tag, PhaseAfter(claim), since) && claim == Answer(c)
    ensures var h, h' := old(system.handlings)[tag], system.handlings[tag];
            h'.message == h.message && h'.event == h.event && h'.content == h.content
    ensures CallsBy(system.run, tag) == old(CallsBy(system.run, tag))
    ensures system.healthy ==> c.update == Done && c.read
    ensures system.alone ==>
              && Claims(old(system.Snapshot()), system.Snapshot(), system.handlings[tag].event, stamp,
                        system.cfg.processingLease, c)
              && Elsewhere(old(system.Snapshot()), system.Snapshot(), tag)
  {
    hide Protocol.Valid; hide Last; hide Continues;
    var ok, matched, db := system.ClaimEvent(tag, stamp);
    c := Claiming(db, matched, true, None);
    if !ok {
      return ClaimError, c;
    }
    if matched {
      return EventClaimed, c;
    }
    ghost var read, seen;
    claim, read, seen := ReadClaimStatus(system, tag, since);
    c := Claiming(db, matched, read, seen);
  }

  /** On a healthy system the answer and the table are these. */
  lemma HealthyClaim(s: State, s': State, e: EventId, stamp: nat, lease: nat, c: Claiming)
    requires Claims(s, s', e, stamp, lease, c) && c.update == Done && c.read
    ensures Answer(c) == ClaimOf(s.events, e, stamp, lease) && s'.events == ClaimedEvents(s.events, e, stamp, lease)
  {
  }

  /** Read the clock, then claim. */
  method ClaimDelivery(system: System, tag: nat, ghost since: Run) returns (claim: ClaimResult, ghost c: Claiming)
    requires Holding(system, tag, Received, since)
    modifies system
    ensures Holding(system, tag, PhaseAfter(claim), since) && claim == Answer(c)
    ensures var h, h' := old(system.handlings)[tag], system.handlings[tag];
            h'.message == h.message && h'.event == h.event && h'.content == h.content
    ensures CallsBy(system.run, tag) == old(CallsBy(system.run, tag))
    ensures system.healthy ==> c.update == Done && c.read
    ensures system.alone ==>
              && Claims(old(system.Snapshot()), system.Snapshot(), system.handlings[tag].event, old(system.now),
                        system.cfg.processingLease, c)
              && Elsewhere(old(system.Snapshot()), system.Snapshot(), tag)
  {
    hide Protocol.Valid; hide Last; hide Continues; hide Claims; hide Elsewhere; hide Follows; hide Answer;
    system.Interfere({tag});
    var stamp := system.now;
    system.Interfere({tag});
    claim, c := ClaimForProcessing(system, tag, stamp, since);
  }

  /** A lone worker's delivery is settled and nothing else but event rows, letters and the clock has changed. */
  ghost predicate Gone(s: State, s': State, tag: nat, settlement: Settlement) {
    && tag in s.handlings && s'.handlings == s.handlings - {tag}
    && s'.broker == SettledBroker(s.broker, s.handlings[tag].message, tag, settlement)
    && s'.outbox == s.outbox && s'.rounds == s.rounds && s'.retries == s.retries && s'.replays == s.replays
    && s.now <= s'.now && s'.nextId == s.nextId
  }

  /** Settle a delivery; the broker may have taken it back meanwhile. */
  method Settle(system: System, tag: nat, settlement: Settlement, ghost since: Run)
    requires Holding(system, tag, Settling(settlement), since)
    modifies system
    ensures system.Valid() && Follows(system.run, since, system.alone) && tag !in system.handlings
    ensures CallsBy(system.run, tag) == old(CallsBy(system.run, tag))
    ensures system.alone ==>
              && Gone(old(system.Snapshot()), system.Snapshot(), tag, settlement)
              && system.events == old(system.events) && system.now == old(system.now)
  {
    hide Protocol.Valid; hide Last; hide Continues;
    system.Interfere({tag});
    system.SettleDelivery(tag, settlement);
  }

  /** Process a claimed event and acknowledge the delivery iff its terminal status is persisted. */
  method ProcessDelivery(system: System, tag: nat, processor: nat -> bool, ghost since: Run)
      returns (ghost writes: Writes)
    requires Holding(system, tag, Claimed(1), since)
    modifies system
    ensures system.Valid() && Follows(system.run, since, system.alone) && tag !in system.handlings
    ensures CallsBy(system.run, tag) ==
              old(CallsBy(system.run, tag)) + CallsFrom(processor, 1, system.cfg.maxRetries + 1)
    ensures system.healthy ==> AllWritten(writes)
    ensures writes.MarkedProcessed? == processor(CallsFrom(processor, 1, system.cfg.maxRetries + 1))
    ensures system.alone ==>
              var h, s := old(system.handlings)[tag], old(system.Snapshot());
              var calls := CallsFrom(processor, 1, system.cfg.maxRetries + 1);
              && system.events == EventsAfter(writes, s.events, h.event, calls)
              && system.now == s.now + Sum(Pauses(system.cfg, calls))
              && Gone(s, system.Snapshot(), tag, if AllWritten(writes) then Ack else Requeue)
  {
    hide Protocol.Valid; hide Last; hide Continues; hide FinishedEvents; hide CallsFrom; hide Pauses;
    hide BuriedLetters; hide Sum; hide AllWritten; hide EventsAfter;
    var _, persisted, _, outcome := ProcessEventWithRetry(system, tag, processor, since);
    writes := outcome;
    Settle(system, tag, if persisted then Ack else Requeue, since);
  }

  lemma GoneAfterClaim(s: State, s1: State, s2: State, tag: nat, settlement: Settlement)
    requires Elsewhere(s, s1, tag) && Gone(s1, s2, tag, settlement) && tag in s.handlings
    requires s1.handlings[tag].message == s.handlings[tag].message
    ensures Gone(s, s2, tag, settlement) && s.now <= s1.now
  {
  }

  /** Another worker is at the event: wait, then put the message back. */
  method SettleLater(system: System, tag: nat, delay: nat, ghost since: Run)
    requires Holding(system, tag, Settling(Requeue), since)
    modifies system
    ensures system.Valid() && Follows(system.run, since, system.alone) && tag !in system.handlings
    ensures CallsBy(system.run, tag) == old(CallsBy(system.run, tag))
    ensures system.alone ==>
              && Gone(old(system.Snapshot()), system.Snapshot(), tag, Requeue)
              && system.events == old(system.events) && system.now == old(system.now) + delay
  {
    hide Protocol.Valid; hide Last; hide Continues; hide Follows;
    FollowsThen(system.run, since, system.alone, Environment(Tick(delay)));
    system.Pause(delay);
    Settle(system, tag, Requeue, since);
  }

  function SettlementOf(claim: ClaimResult): Settlement {
    match claim
    case EventClaimInProgress => Requeue
    case ClaimError => Requeue
    case EventClaimMissing => Drop
    case _ => Ack
  }

  /** The events table after a lone worker handled a delivery of `e`. */
  function Handled(cfg: Config, events: EventTable, e: EventId, stamp: nat, processor: nat -> bool): EventTable {
    if ClaimOf(events, e, stamp, cfg.processingLease).EventClaimed? then
      var calls := CallsFrom(processor, 1, cfg.maxRetries + 1);
      FinishedEvents(ClaimedEvents(events, e, stamp, cfg.processingLease), e,
                     if processor(calls) then Processed else Failed, calls)
    else events
  }

  /** What a lone worker does with a delivery of `e` on any system, healthy or not, given how its claim and its terminal
      writes went: the event row, the message, and the time spent. */
  ghost predicate Deals(cfg: Config, s: State, s': State, tag: nat, processor: nat -> bool, requeueDelay: nat,
                        c: Claiming, writes: Writes) {
    && tag in s.handlings
    && var e, claim := s.handlings[tag].event, Answer(c);
       var calls := CallsFrom(processor, 1, cfg.maxRetries + 1);
       var claimed := if c.update == Refused then s.events
                      else ClaimedEvents(s.events, e, s.now, cfg.processingLease);
       && s'.events == (if claim.EventClaimed? then EventsAfter(writes, claimed, e, calls) else claimed)
       && s'.now == s.now + (if claim.EventClaimed? then Sum(Pauses(cfg, calls))
                             else if claim.EventClaimInProgress? then requeueDelay else 0)
       && Gone(s, s', tag, if claim.EventClaimed? && !AllWritten(writes) then Requeue else SettlementOf(claim))
  }

  lemma HealthyDeals(cfg: Config, s: State, s1: State, s': State, tag: nat, processor: nat -> bool, requeueDelay: nat,
                     c: Claiming, writes: Writes)
    requires Deals(cfg, s, s', tag, processor, requeueDelay, c, writes) && c.update == Done && c.read
    requires Claims(s, s1, s.handlings[tag].event, s.now, cfg.processingLease, c)
    requires Answer(c).EventClaimed? ==>
               AllWritten(writes) && writes.MarkedProcessed? == processor(CallsFrom(processor, 1, cfg.maxRetries + 1))
    ensures var e := s.handlings[tag].event;
            && Answer(c) == ClaimOf(s.events, e, s.now, cfg.processingLease)
            && s'.events == Handled(cfg, s.events, e, s.now, processor)
            && Gone(s, s', tag, SettlementOf(Answer(c)))
  {
    HealthyClaim(s, s1, s.handlings[tag].event, s.now, cfg.processingLease, c);
    hide FinishedEvents; hide CallsFrom; hide Gone; hide Pauses; hide Sum; hide Claims; hide Answer;
    hide ClaimedEvents; hide Claimable;
  }

  /** Claim, process, and settle as the outcome demands. Every execution is a run of the protocol; no trace of the
      delivery is left among the calls, and it started no processor call unless it claimed the event. A lone worker
      deals with the delivery as its statements' outcomes demand. On a healthy system it brings a claimable event to a
      terminal status and its message off the queue, takes the message of a finished event off the queue, and puts the
      message of any other event back after the delay. */
  method HandleDelivery(system: System, tag: nat, processor: nat -> bool, requeueDelay: nat, ghost since: Run)
    returns (claim: ClaimResult, ghost c: Claiming, ghost writes: Writes)
    requires Holding(system, tag, Received, since)
    modifies system
    ensures system.Valid() && Follows(system.run, since, system.alone)
    ensures tag !in system.handlings && claim == Answer(c)
    ensures CallsBy(system.run, tag) == old(CallsBy(system.run, tag)) +
              if claim.EventClaimed? then CallsFrom(processor, 1, system.cfg.maxRetries + 1) else 0
    ensures system.alone ==>
              Deals(system.cfg, old(system.Snapshot()), system.Snapshot(), tag, processor, requeueDelay, c, writes)
    ensures system.alone && system.healthy ==>
              var s := old(system.Snapshot());
              var e := s.handlings[tag].event;
              && claim == ClaimOf(s.events, e, s.now, system.cfg.processingLease)
              && system.events == Handled(system.cfg, s.events, e, s.now, processor)
              && Gone(s, system.Snapshot(), tag, SettlementOf(claim))
  {
    hide Protocol.Valid; hide Last; hide Continues; hide FinishedEvents; hide CallsFrom; hide Pauses; hide Sum;
    hide Follows; hide Gone; hide Elsewhere; hide Handled; hide ClaimOf; hide ClaimedEvents; hide EventsAfter;
    hide AllWritten; hide Answer;
    ghost var s := system.Snapshot();
    claim, c := ClaimDelivery(system, tag, since);
    ghost var s1 := system.Snapshot();
    writes := Unburied(Refused);
    match claim {
      case EventClaimed => writes := ProcessDelivery(system, tag, processor, since);
      case EventClaimFinal => Settle(system, tag, Ack, since);
      case EventClaimMissing => Settle(system, tag, Drop, since);
      case EventClaimInProgress => SettleLater(system, tag, requeueDelay, since);
      case ClaimError => Settle(system, tag, Requeue, since);
    }
    if system.alone {
      ghost var settlement := if claim.EventClaimed? && !AllWritten(writes) then Requeue else SettlementOf(claim);
      GoneAfterClaim(s, s1, system.Snapshot(), tag, settlement);
      if system.healthy {
        HealthyDeals(system.cfg, s, s1, system.Snapshot(), tag, processor, requeueDelay, c, writes);
      }
    }
  }
}
