/** The running system as one object: the three tables, the broker and the clock are fields that the service's
    statements update in place; next to them stand the positions of all calls under way. Each method below is one atomic
    statement, proved to be the protocol step of that name; `Interfere` lets everybody else run in between. */
module Platform {
  import opened Rows
  import opened Protocol
  import opened Shape
  import opened Agents

  /** The rows the outbox claim's candidate query may return, and what it orders them by. */
  function Eligible(outbox: OutboxTable, locked: set<EventId>, stamp: nat, lease: nat): set<EventId> {
    set e | e in outbox && e !in locked && Dispatchable(outbox[e], stamp, lease)
  }

  function Serials(outbox: OutboxTable): map<EventId, Key> {
    map e | e in outbox :: (outbox[e].serial as int, 0)
  }

  /** The same for the dead-letter claim; `rank` is the database's order of ids, which decides between equal times. */
  function Due(letters: LetterTable, locked: set<EventId>, stamp: nat, retryMax: nat): set<EventId> {
    set e | e in letters && e !in locked && Retryable(letters[e], stamp, retryMax)
  }

  function DueTimes(letters: LetterTable, rank: EventId -> int): map<EventId, Key> {
    map e | e in letters && letters[e].nextRetryAt.Some? :: (letters[e].nextRetryAt.value, rank(e))
  }

  /** Sort keys, ordered by the first column and then by the second. */
  type Key = (int, int)

  predicate UpTo(a: Key, b: Key) {
    a.0 < b.0 || (a.0 == b.0 && a.1 <= b.1)
  }

  /** `batch` holds, in some order, the first `limit` candidates by key. */
  predicate Lowest(key: map<EventId, Key>, candidates: set<EventId>, limit: nat, batch: seq<EventId>)
    requires candidates <= key.Keys
  {
    && Distinct(batch) && |batch| <= limit
    && (forall e | e in batch :: e in candidates)
    && (|batch| < limit ==> forall e | e in candidates :: e in batch)
    && (forall e, f | e in batch && f in candidates && f !in batch :: e in key && UpTo(key[e], key[f]))
  }

  lemma {:induction false} LowestExists(key: map<EventId, Key>, candidates: set<EventId>, limit: nat)
    requires candidates <= key.Keys
    ensures exists batch :: Lowest(key, candidates, limit, batch)
  {
    if limit == 0 || candidates == {} {
      assert Lowest(key, candidates, limit, []);
    } else {
      var least := Least(key, candidates);
      LowestExists(key, candidates - {least}, limit - 1);
      var rest :| Lowest(key, candidates - {least}, limit - 1, rest);
      assert Lowest(key, candidates, limit, [least] + rest);
    }
  }

  lemma {:induction false} Least(key: map<EventId, Key>, candidates: set<EventId>) returns (least: EventId)
    requires candidates <= key.Keys && candidates != {}
    ensures least in candidates && forall e | e in candidates :: UpTo(key[least], key[e])
  {
    least :| least in candidates;
    if candidates != {least} {
      var other := Least(key, candidates - {least});
      if !UpTo(key[least], key[other]) {
        least := other;
      }
    }
  }

  /** What a claim of outbox rows returns with nobody else about, on the rows' own columns: rows unpublished and free,
      or reserved at least a lease before the stamp; at most `limit` of them; and any such row left out has a higher id
      than all of a full batch. */
  ghost predicate FirstRows(outbox: OutboxTable, stamp: nat, lease: nat, limit: nat, batch: seq<EventId>) {
    && Distinct(batch) && |batch| <= limit
    && (forall e | e in batch ::
          && e in outbox && outbox[e].publishedAt == None
          && (outbox[e].dispatchingAt == None || outbox[e].dispatchingAt.value + lease <= stamp))
    && (forall f | && f in outbox && f !in batch && outbox[f].publishedAt == None
                   && (outbox[f].dispatchingAt == None || outbox[f].dispatchingAt.value + lease <= stamp) ::
          |batch| == limit && forall e | e in batch :: outbox[e].serial < outbox[f].serial)
  }

  lemma LowestAreFirstRows(outbox: OutboxTable, stamp: nat, lease: nat, limit: nat, batch: seq<EventId>)
    requires SerialsOk(outbox)
    requires Lowest(Serials(outbox), Eligible(outbox, {}, stamp, lease), limit, batch)
    ensures FirstRows(outbox, stamp, lease, limit, batch)
  {
  }

  /** The same for dead letters: letters due by the stamp, not replayed and charged less often than the maximum; at most
      ten; and any such letter left out is due no earlier than each of ten claimed ones, or at the same time with an id
      that does not sort before. */
  ghost predicate FirstLetters(letters: LetterTable, rank: EventId -> int, stamp: nat, retryMax: nat,
                               batch: seq<EventId>) {
    && Distinct(batch) && |batch| <= 10
    && (forall e | e in batch ::
          && e in letters && letters[e].replayedAt == None && letters[e].replayAttempts < retryMax
          && letters[e].nextRetryAt.Some? && letters[e].nextRetryAt.value <= stamp)
    && (forall f | && f in letters && f !in batch
                   && letters[f].replayedAt == None && letters[f].replayAttempts < retryMax
                   && letters[f].nextRetryAt.Some? && letters[f].nextRetryAt.value <= stamp ::
          && |batch| == 10
          && forall e | e in batch ::
               var mine, theirs := letters[e].nextRetryAt.value, letters[f].nextRetryAt.value;
               mine < theirs || (mine == theirs && rank(e) <= rank(f)))
  }

  lemma LowestAreFirstLetters(letters: LetterTable, rank: EventId -> int, stamp: nat, retryMax: nat,
                              batch: seq<EventId>)
    requires Lowest(DueTimes(letters, rank), Due(letters, {}, stamp, retryMax), RETRY_BATCH, batch)
    ensures FirstLetters(letters, rank, stamp, retryMax, batch)
  {
  }

  lemma SerialsDistinct(cfg: Config, r: Run)
    requires Protocol.Valid(cfg, r)
    ensures SerialsOk(Last(cfg, r).outbox)
  {
    RunShape(cfg, r);
    hide EventsOk; hide OutboxOk; hide LettersOk; hide BrokerOk; hide HandlingsOk; hide HoldersOk; hide RoundsOk;
    hide RetriesOk; hide ReplaysOk; hide Accepted;
  }

  /** The attempt number each claimed letter comes back with. */
  function NextAttempts(letters: LetterTable, batch: seq<EventId>): (attempts: seq<nat>)
    requires forall e | e in batch :: e in letters
    ensures |attempts| == |batch|
    ensures forall i | 0 <= i < |batch| :: attempts[i] == letters[batch[i]].replayAttempts + 1
  {
    seq(|batch|, i requires 0 <= i < |batch| => letters[batch[i]].replayAttempts + 1)
  }

  /** The scheduler claims at most ten letters at a time. */
  const RETRY_BATCH := 10

  /** What a delivery whose claim matched nothing is owed after the status read. */
  function ReadSettlement(ok: bool, status: Option<Status>): Settlement {
    if !ok then Requeue else if status.None? then Drop else if Live(status.value) then Requeue else Ack
  }

  /** The handlings after the call `tag` has entered `phase`. */
  function Entered(handlings: map<nat, Handling>, tag: nat, phase: Phase, now: nat): map<nat, Handling>
    requires tag in handlings
  {
    handlings[tag := handlings[tag].(phase := phase, since := now)]
  }

  lemma Extended(cfg: Config, r: Run, step: Step)
    requires Protocol.Valid(cfg, r) && Enabled(cfg, Last(cfg, r), step)
    ensures Protocol.Valid(cfg, Then(r, step)) && Last(cfg, Then(r, step)) == Apply(cfg, Last(cfg, r), step)
  {
    hide Enabled; hide Apply;
  }

  /** The next identity to be given out names no call under way. */
  lemma FreshIdentity(cfg: Config, r: Run)
    requires Protocol.Valid(cfg, r)
    ensures var s := Last(cfg, r);
            s.nextId !in s.rounds && s.nextId !in s.handlings && s.nextId !in s.retries && s.nextId !in s.replays
  {
    RunShape(cfg, r);
    hide EventsOk; hide OutboxOk; hide SerialsOk; hide LettersOk; hide BrokerOk; hide HoldersOk; hide Accepted;
  }

  class System {
    const cfg: Config
    const alone: bool     // nobody else runs
    const healthy: bool   // database and broker answer every call
    const rank: EventId -> int   // where an id sorts in the database

    var now: nat
    var nextId: nat
    var events: EventTable
    var outbox: OutboxTable
    var letters: LetterTable
    var broker: map<nat, Message>
    var rounds: map<nat, Round>
    var handlings: map<nat, Handling>
    var retries: map<nat, RetryRound>
    var replays: map<nat, EventId>

    /** The run that led here. */
    ghost var run: Run

    function Snapshot(): State
      reads this
    {
      State(now, nextId, events, outbox, letters, broker, rounds, handlings, retries, replays)
    }

    ghost predicate Valid()
      reads this
    {
      Protocol.Valid(cfg, run) && Last(cfg, run) == Snapshot()
    }

    /** Exactly the protocol's `step` happened since the old state: the run grew by it and still ends here. */
    twostate predicate Did(step: Step)
      reads this
    {
      Valid() && run == Then(old(run), step)
    }

    constructor (cfg: Config, alone: bool, healthy: bool, rank: EventId -> int)
      ensures Valid() && run == Start && Snapshot() == EMPTY
      ensures this.cfg == cfg && this.alone == alone && this.healthy == healthy && this.rank == rank
    {
      this.cfg, this.alone, this.healthy, this.rank := cfg, alone, healthy, rank;
      now, nextId, events, outbox, letters, broker := 0, 0, map[], map[], map[], map[];
      rounds, handlings, retries, replays := map[], map[], map[], map[];
      run := Start;
    }

    /** A step by somebody else. */
    method Take(step: Step)
      requires Valid() && Enabled(cfg, Snapshot(), step)
      modifies this
      ensures Did(step)
    {
      hide Apply; hide Enabled; hide Protocol.Valid; hide Last;
      var s := Apply(cfg, Snapshot(), step);
      now, nextId, events, outbox, letters, broker := s.now, s.nextId, s.events, s.outbox, s.letters, s.broker;
      rounds, handlings, retries, replays := s.rounds, s.handlings, s.retries, s.replays;
      Extended(cfg, run, step);
      run := Then(run, step);
    }

    /** Any number of steps by others, except what would crash or impersonate the calls in `mine`. */
    method Interfere(mine: set<nat>)
      requires Valid() && forall a | a in mine :: a < nextId
      modifies this
      ensures Valid() && forall r | Follows(old(run), r, alone) :: Follows(run, r, alone)
      ensures forall r | Continues(old(run), r) :: Continues(run, r)
      ensures forall a | a in mine ::
                AgentOf(Snapshot(), a) == old(AgentOf(Snapshot(), a)) && CallsBy(run, a) == old(CallsBy(run, a))
      ensures old(now) <= now && old(nextId) <= nextId
      ensures alone ==> run == old(run) && Snapshot() == old(Snapshot())
    {
      if alone {
        return;
      }
      var steps: seq<Step> := *;
      for i := 0 to |steps|
        invariant Valid() && forall r | Follows(old(run), r, alone) :: Follows(run, r, alone)
        invariant forall r | Continues(old(run), r) :: Continues(run, r)
        invariant forall a | a in mine ::
                    AgentOf(Snapshot(), a) == old(AgentOf(Snapshot(), a)) && CallsBy(run, a) == old(CallsBy(run, a))
        invariant old(now) <= now && old(nextId) <= nextId
      {
        if Enabled(cfg, Snapshot(), steps[i]) && forall a | a in mine :: !Concerns(steps[i], a) {
          ghost var s := Snapshot();
          Take(steps[i]);
          ClockGrows(cfg, s, steps[i]);
          forall a | a in mine {
            OthersLeaveAgent(cfg, s, steps[i], a);
          }
        }
      }
    }

    /** How the next database call ends. */
    method Outcome() returns (db: Db)
      ensures healthy ==> db.Done?
    {
      db := *;
      if healthy {
        db := Done;
      }
    }

    method Pause(duration: nat)
      requires Valid()
      modifies this`now, this`run
      ensures Did(Environment(Tick(duration))) && now == old(now) + duration
    {
      hide Protocol.Valid; hide Last;
      now := now + duration;
      Extended(cfg, run, Environment(Tick(duration)));
      run := Then(run, Environment(Tick(duration)));
    }

    // ----- acceptance

    method SaveQueuedWithOutbox(e: EventId, content: Content) returns (result: SaveResult, ghost db: Db)
      requires Valid()
      modifies this`events, this`outbox, this`nextId, this`run
      ensures db.Refused? || old(e in events) ==> Snapshot() == old(Snapshot()) && run == old(run)
      ensures !db.Refused? && old(e !in events) ==> Did(Environment(Accept(e, content)))
      ensures result == if !db.Done? then SaveError else if old(e in events) then Duplicate else Saved
      ensures healthy ==> db.Done?
    {
      hide Protocol.Valid; hide Last;
      var outcome := Outcome();
      db := outcome;
      result := if !outcome.Done? then SaveError else if e in events then Duplicate else Saved;
      if !outcome.Refused? && e !in events {
        events := events[e := EventRow(content, Queued, 0, None)];
        outbox := outbox[e := OutboxRow(nextId, content, 0, None, None, None)];
        nextId := nextId + 1;
        Extended(cfg, run, Environment(Accept(e, content)));
        run := Then(run, Environment(Accept(e, content)));
      }
    }

    // ----- dispatcher

    /** Wait for the publisher confirm. Without a confirm the broker may still have the message. */
    method Publish(token: nat) returns (confirmed: bool, ghost enqueued: bool)
      requires Valid() && Standing(Snapshot(), token, Unpublished)
      modifies this`broker, this`nextId, this`rounds, this`run
      ensures Did(Dispatcher(Protocol.Publish(token, confirmed, enqueued)))
      ensures (healthy ==> confirmed) && (confirmed ==> enqueued)
      ensures nextId == old(nextId) + 1
      ensures rounds == old(rounds)[token := old(rounds)[token].(stage := if confirmed then Published else Rejected)]
      ensures var item := old(rounds)[token].items[0];
              broker == if enqueued then old(broker)[old(nextId) := Message(item.event, item.content, None)]
                        else old(broker)
    {
      hide Protocol.Valid; hide Last;
      var reached: bool := *;
      confirmed := *;
      if healthy {
        confirmed := true;
      }
      reached := reached || confirmed;
      enqueued := reached;
      var item := rounds[token].items[0];
      if reached {
        broker := broker[nextId := Message(item.event, item.content, None)];
      }
      nextId := nextId + 1;
      rounds := rounds[token := rounds[token].(stage := if confirmed then Published else Rejected)];
      Extended(cfg, run, Dispatcher(Protocol.Publish(token, confirmed, enqueued)));
      run := Then(run, Dispatcher(Protocol.Publish(token, confirmed, enqueued)));
    }

    method MarkOutboxPublished(token: nat) returns (ok: bool, ghost db: Db)
      requires Valid() && Standing(Snapshot(), token, Published)
      modifies this`outbox, this`rounds, this`run
      ensures Did(Dispatcher(MarkPublished(token, db)))
      ensures ok <==> db.Done? && old(var e := rounds[token].items[0].event; e in outbox && Reserved(outbox[e], token))
      ensures healthy ==> db.Done?
      ensures rounds == if ok then Advanced(old(rounds), token) else old(rounds) - {token}
      ensures outbox == if db.Refused? then old(outbox)
                        else PublishedOutbox(old(outbox), old(rounds)[token].items[0].event, token, now)
    {
      hide Protocol.Valid; hide Last;
      var outcome := Outcome();
      db := outcome;
      var items := rounds[token].items;
      var e := items[0].event;
      var matched := e in outbox && Reserved(outbox[e], token);
      if matched && !outcome.Refused? {
        outbox := outbox[e := outbox[e].(publishedAt := Some(now), token := None, dispatchingAt := None)];
      }
      ok := matched && outcome.Done?;
      if ok && |items| > 1 {
        rounds := rounds[token := Round(items[1..], Unpublished)];
      } else {
        rounds := rounds - {token};
      }
      Extended(cfg, run, Dispatcher(MarkPublished(token, db)));
      run := Then(run, Dispatcher(MarkPublished(token, db)));
    }

    method MarkOutboxFailed(token: nat) returns (ghost db: Db)
      requires Valid() && Standing(Snapshot(), token, Rejected)
      modifies this`outbox, this`rounds, this`run
      ensures Did(Dispatcher(MarkRejected(token, db)))
      ensures healthy ==> db.Done?
      ensures rounds == old(rounds) - {token}
      ensures outbox == if db.Refused? then old(outbox)
                        else RejectedOutbox(old(outbox), old(rounds)[token].items[0].event, token)
    {
      hide Protocol.Valid; hide Last;
      var outcome := Outcome();
      db := outcome;
      var e := rounds[token].items[0].event;
      if !outcome.Refused? && e in outbox && Reserved(outbox[e], token) {
        outbox := outbox[e := outbox[e].(attempts := outbox[e].attempts + 1, token := None, dispatchingAt := None)];
      }
      rounds := rounds - {token};
      Extended(cfg, run, Dispatcher(MarkRejected(token, db)));
      run := Then(run, Dispatcher(MarkRejected(token, db)));
    }

    /** The candidate query of the claim, which skips rows locked by others. */
    method SelectPending(stamp: nat) returns (batch: seq<EventId>)
      requires Valid()
      ensures |batch| <= cfg.batchSize && Distinct(batch)
      ensures forall e | e in batch :: e in outbox && outbox[e].publishedAt == None
      ensures forall e | e in batch && outbox[e].dispatchingAt.Some? ::
                outbox[e].dispatchingAt.value + cfg.dispatchLease <= stamp
      ensures alone ==> FirstRows(outbox, stamp, cfg.dispatchLease, cfg.batchSize, batch)
    {
      var locked: set<EventId> := *;
      if alone {
        locked := {};
      }
      var eligible := Eligible(outbox, locked, stamp, cfg.dispatchLease);
      LowestExists(Serials(outbox), eligible, cfg.batchSize);
      batch :| Lowest(Serials(outbox), eligible, cfg.batchSize, batch);
      SerialsDistinct(cfg, run);
      if alone {
        LowestAreFirstRows(outbox, stamp, cfg.dispatchLease, cfg.batchSize, batch);
      }
    }

    /** The claim statement; with no row to claim it changes nothing. */
    method ReserveBatch(stamp: nat) returns (batch: seq<EventId>, token: nat)
      requires Valid() && stamp <= now
      modifies this`outbox, this`rounds, this`nextId, this`run
      ensures token == old(nextId) && |batch| <= cfg.batchSize && Distinct(batch)
      ensures forall e | e in batch :: e in old(outbox) && old(outbox)[e].publishedAt == None
      ensures forall e | e in batch && old(outbox)[e].dispatchingAt.Some? ::
                old(outbox)[e].dispatchingAt.value + cfg.dispatchLease <= stamp
      ensures batch == [] ==> Snapshot() == old(Snapshot()) && run == old(run)
      ensures batch != [] ==> Did(Dispatcher(ClaimBatch(stamp, batch)))
      ensures alone ==> FirstRows(old(outbox), stamp, cfg.dispatchLease, cfg.batchSize, batch)
      ensures batch != [] ==>
                && nextId == token + 1
                && outbox == ReservedOutbox(old(outbox), batch, token, stamp)
                && rounds == old(rounds)[token := Round(BatchItems(old(outbox), batch), Unpublished)]
    {
      hide Protocol.Valid; hide Last; hide FirstRows; hide EnvironmentDoes; hide EnvironmentCan; hide WorkerDoes;
      hide WorkerCan; hide ReplayerDoes; hide ReplayerCan;
      batch := SelectPending(stamp);
      token := nextId;
      if batch != [] {
        rounds := rounds[token := Round(BatchItems(outbox, batch), Unpublished)];
        outbox := map e | e in outbox ::
          if e in batch then outbox[e].(token := Some(token), dispatchingAt := Some(stamp)) else outbox[e];
        nextId := nextId + 1;
        Extended(cfg, run, Dispatcher(ClaimBatch(stamp, batch)));
        run := Then(run, Dispatcher(ClaimBatch(stamp, batch)));
      }
    }

    /** The call is over before it has anything to show for it: nobody holds what it claimed. */
    method Abandon(call: nat)
      requires Valid()
      requires call !in handlings && call !in replays && (call in rounds ==> call !in retries)
      modifies this`rounds, this`retries, this`run
      ensures Did(Environment(Crash({call})))
      ensures rounds == old(rounds) - {call} && retries == old(retries) - {call}
    {
      hide Protocol.Valid; hide Last;
      assert handlings - {call} == handlings && replays - {call} == replays;
      rounds, retries := rounds - {call}, retries - {call};
      Extended(cfg, run, Environment(Crash({call})));
      run := Then(run, Environment(Crash({call})));
    }

    /** An error tells the caller nothing: either nothing was claimed, or `reserved` rows are, under a token nobody
        holds. */
    method ClaimPendingOutbox(stamp: nat)
        returns (ok: bool, batch: seq<EventId>, token: nat, ghost reserved: seq<EventId>)
      requires Valid() && stamp <= now
      modifies this`outbox, this`rounds, this`retries, this`nextId, this`run
      ensures token == old(nextId) && |reserved| <= cfg.batchSize && Distinct(reserved)
      ensures forall e | e in reserved :: e in old(outbox) && old(outbox)[e].publishedAt == None
      ensures forall e | e in reserved && old(outbox)[e].dispatchingAt.Some? ::
                old(outbox)[e].dispatchingAt.value + cfg.dispatchLease <= stamp
      ensures healthy ==> ok
      ensures batch == (if ok then reserved else []) && retries == old(retries)
      ensures reserved == [] ==> Snapshot() == old(Snapshot()) && run == old(run)
      ensures ok && batch != [] ==> Did(Dispatcher(ClaimBatch(stamp, batch)))
      ensures !ok && reserved != [] ==>
                && Valid() && rounds == old(rounds)
                && run == Then(Then(old(run), Dispatcher(ClaimBatch(stamp, reserved))), Environment(Crash({token})))
      ensures alone && (ok || reserved != []) ==>
                FirstRows(old(outbox), stamp, cfg.dispatchLease, cfg.batchSize, reserved)
      ensures reserved != [] ==>
                && nextId == token + 1 && outbox == ReservedOutbox(old(outbox), reserved, token, stamp)
                && (ok ==> rounds == old(rounds)[token := Round(BatchItems(old(outbox), batch), Unpublished)])
    {
      hide Protocol.Valid; hide Last; hide FirstRows; hide ReservedOutbox; hide BatchItems;
      token := nextId;
      FreshIdentity(cfg, run);
      var outcome := Outcome();
      ok := outcome.Done?;
      if outcome.Refused? {
        batch, reserved := [], [];
        return;
      }
      batch, token := ReserveBatch(stamp);
      reserved := batch;
      if !ok && batch != [] {
        assert rounds - {token} == old(rounds) && retries - {token} == retries;
        Abandon(token);
      }
      batch := if ok then batch else [];
    }

    // ----- worker

    method Receive(m: nat) returns (tag: nat)
      requires Valid() && m in broker && broker[m].holder.None?
      modifies this`broker, this`handlings, this`nextId, this`run
      ensures Did(Worker(Deliver(m))) && tag == old(nextId)
      ensures nextId == tag + 1 && broker == old(broker)[m := old(broker)[m].(holder := Some(tag))]
      ensures var message := old(broker)[m];
              handlings == old(handlings)[tag := Handling(m, message.event, message.content, Received, 0, now)]
    {
      hide Protocol.Valid; hide Last;
      tag := nextId;
      var message := broker[m];
      broker := broker[m := message.(holder := Some(tag))];
      handlings := handlings[tag := Handling(m, message.event, message.content, Received, 0, now)];
      nextId := nextId + 1;
      Extended(cfg, run, Worker(Deliver(m)));
      run := Then(run, Worker(Deliver(m)));
    }

    /** The call `tag` enters `phase`. */
    method Enter(tag: nat, phase: Phase)
      requires tag in handlings
      modifies this`handlings
      ensures handlings == Entered(old(handlings), tag, phase, now)
    {
      handlings := handlings[tag := handlings[tag].(phase := phase, since := now)];
    }

    /** The UPDATE of ClaimForProcessing. */
    method ClaimEvent(tag: nat, stamp: nat) returns (ok: bool, matched: bool, ghost db: Db)
      requires Valid() && tag in handlings && handlings[tag].phase.Received? && stamp <= now
      modifies this`events, this`handlings, this`run
      ensures Did(Worker(Claim(tag, stamp, db)))
      ensures ok <==> db.Done?
      ensures matched <==>
                old(var e := handlings[tag].event; e in events && Claimable(events[e], stamp, cfg.processingLease))
      ensures healthy ==> db.Done?
      ensures events == if db.Refused? then old(events)
                        else ClaimedEvents(old(events), old(handlings)[tag].event, stamp, cfg.processingLease)
      ensures var h := old(handlings)[tag];
              handlings == old(handlings)[tag := h.(phase := ClaimPhase(matched, db), stamp := stamp, since := now)]
    {
      hide Protocol.Valid; hide Last;
      var outcome := Outcome();
      db := outcome;
      ok := outcome.Done?;
      var e := handlings[tag].event;
      matched := e in events && Claimable(events[e], stamp, cfg.processingLease);
      if matched && !outcome.Refused? {
        events := events[e := events[e].(status := Processing, startedAt := Some(stamp))];
      }
      var h := handlings[tag];
      handlings := handlings[tag := h.(phase := ClaimPhase(matched, outcome), stamp := stamp, since := now)];
      Extended(cfg, run, Worker(Claim(tag, stamp, db)));
      run := Then(run, Worker(Claim(tag, stamp, db)));
    }

    /** The SELECT of ClaimForProcessing. */
    method ReadEventStatus(tag: nat) returns (ok: bool, status: Option<Status>)
      requires Valid() && tag in handlings && handlings[tag].phase.Unclaimed?
      modifies this`handlings, this`run
      ensures Did(Worker(ReadStatus(tag, ok)))
      ensures status == old(var e := handlings[tag].event; if e in events then Some(events[e].status) else None)
      ensures healthy ==> ok
      ensures handlings == Entered(old(handlings), tag, Settling(ReadSettlement(ok, status)), now)
    {
      hide Protocol.Valid; hide Last;
      var outcome := Outcome();
      ok := outcome.Done?;
      var e := handlings[tag].event;
      status := if e in events then Some(events[e].status) else None;
      Enter(tag, Settling(ReadSettlement(ok, status)));
      Extended(cfg, run, Worker(ReadStatus(tag, ok)));
      run := Then(run, Worker(ReadStatus(tag, ok)));
    }

    method StartProcessor(tag: nat)
      requires Valid() && tag in handlings && handlings[tag].phase.Claimed?
      modifies this`handlings, this`run
      ensures Did(Worker(StartCall(tag)))
      ensures handlings == Entered(old(handlings), tag, Calling(old(handlings)[tag].phase.attempt), now)
    {
      hide Protocol.Valid; hide Last;
      Enter(tag, Calling(handlings[tag].phase.attempt));
      Extended(cfg, run, Worker(StartCall(tag)));
      run := Then(run, Worker(StartCall(tag)));
    }

    method EndProcessor(tag: nat, ok: bool)
      requires Valid() && tag in handlings && handlings[tag].phase.Calling?
      modifies this`handlings, this`run
      ensures Did(Worker(FinishCall(tag, ok)))
      ensures var k := old(handlings)[tag].phase.attempt;
              var phase := if ok then Succeeded(k) else if k == cfg.maxRetries + 1 then Exhausted else Sleeping(k);
              handlings == Entered(old(handlings), tag, phase, now)
    {
      hide Protocol.Valid; hide Last;
      var k := handlings[tag].phase.attempt;
      Enter(tag, if ok then Succeeded(k) else if k == cfg.maxRetries + 1 then Exhausted else Sleeping(k));
      Extended(cfg, run, Worker(FinishCall(tag, ok)));
      run := Then(run, Worker(FinishCall(tag, ok)));
    }

    method WakeUp(tag: nat)
      requires Valid() && tag in handlings && handlings[tag].phase.Sleeping?
      modifies this`handlings, this`run
      ensures Did(Worker(Wake(tag)))
      ensures handlings == Entered(old(handlings), tag, Claimed(old(handlings)[tag].phase.attempt + 1), now)
    {
      hide Protocol.Valid; hide Last;
      Enter(tag, Claimed(handlings[tag].phase.attempt + 1));
      Extended(cfg, run, Worker(Wake(tag)));
      run := Then(run, Worker(Wake(tag)));
    }

    method MarkProcessed(tag: nat) returns (ok: bool, ghost db: Db)
      requires Valid() && tag in handlings && handlings[tag].phase.Succeeded?
      modifies this`events, this`handlings, this`run
      ensures Did(Worker(Protocol.MarkProcessed(tag, db)))
      ensures (ok <==> db.Done?) && (healthy ==> ok)
      ensures handlings == Entered(old(handlings), tag, Settling(if ok then Ack else Requeue), now)
      ensures events == if db.Refused? then old(events)
                        else FinishedEvents(old(events), old(handlings)[tag].event, Processed,
                            old(handlings)[tag].phase.attempt)
    {
      hide Protocol.Valid; hide Last;
      var outcome := Outcome();
      db := outcome;
      ok := outcome.Done?;
      var e, attempt := handlings[tag].event, handlings[tag].phase.attempt;
      if !outcome.Refused? && e in events {
        events := events[e := events[e].(status := Processed, attempts := attempt, startedAt := None)];
      }
      Enter(tag, Settling(if ok then Ack else Requeue));
      Extended(cfg, run, Worker(Protocol.MarkProcessed(tag, db)));
      run := Then(run, Worker(Protocol.MarkProcessed(tag, db)));
    }

    method SaveDeadLetter(tag: nat) returns (ok: bool, ghost db: Db)
      requires Valid() && tag in handlings && handlings[tag].phase.Exhausted?
      modifies this`letters, this`handlings, this`run
      ensures Did(Worker(Protocol.SaveDeadLetter(tag, db)))
      ensures (ok <==> db.Done?) && (healthy ==> ok)
      ensures handlings == Entered(old(handlings), tag, if ok then Buried else Settling(Requeue), now)
      ensures letters == if db.Refused? then old(letters)
                         else BuriedLetters(old(letters), old(handlings)[tag].event, old(handlings)[tag].content,
                                            cfg.maxRetries + 1, now)
      ensures var e := old(handlings)[tag].event;
              !db.Refused? ==>
                && e in letters && letters[e].nextRetryAt == Some(now) && letters[e].replayedAt == None
                && letters[e].attempts == cfg.maxRetries + 1
                && letters[e].replayAttempts == (if e in old(letters) then old(letters)[e].replayAttempts else 0)
    {
      hide Protocol.Valid; hide Last;
      var outcome := Outcome();
      db := outcome;
      ok := outcome.Done?;
      var e, attempts := handlings[tag].event, cfg.maxRetries + 1;
      if !outcome.Refused? {
        if e in letters {
          letters := letters[e := letters[e].(attempts := attempts, nextRetryAt := Some(now), replayedAt := None)];
        } else {
          letters := letters[e := Letter(handlings[tag].content, attempts, 0, Some(now), None)];
        }
      }
      Enter(tag, if ok then Buried else Settling(Requeue));
      Extended(cfg, run, Worker(Protocol.SaveDeadLetter(tag, db)));
      run := Then(run, Worker(Protocol.SaveDeadLetter(tag, db)));
    }

    method MarkFailed(tag: nat) returns (ok: bool, ghost db: Db)
      requires Valid() && tag in handlings && handlings[tag].phase.Buried?
      modifies this`events, this`handlings, this`run
      ensures Did(Worker(Protocol.MarkFailed(tag, db)))
      ensures (ok <==> db.Done?) && (healthy ==> ok)
      ensures handlings == Entered(old(handlings), tag, Settling(if ok then Ack else Requeue), now)
      ensures events == if db.Refused? then old(events)
                        else FinishedEvents(old(events), old(handlings)[tag].event, Failed, cfg.maxRetries + 1)
    {
      hide Protocol.Valid; hide Last;
      var outcome := Outcome();
      db := outcome;
      ok := outcome.Done?;
      var e := handlings[tag].event;
      if !outcome.Refused? && e in events {
        events := events[e := events[e].(status := Failed, attempts := cfg.maxRetries + 1, startedAt := None)];
      }
      Enter(tag, Settling(if ok then Ack else Requeue));
      Extended(cfg, run, Worker(Protocol.MarkFailed(tag, db)));
      run := Then(run, Worker(Protocol.MarkFailed(tag, db)));
    }

    /** Ack, nack with requeue, or nack without; no effect once the broker has taken the delivery back. */
    method SettleDelivery(tag: nat, settlement: Settlement)
      requires Valid() && tag in handlings && handlings[tag].phase == Settling(settlement)
      modifies this`broker, this`handlings, this`run
      ensures Did(Worker(Settle(tag)))
      ensures handlings == old(handlings) - {tag}
      ensures broker == SettledBroker(old(broker), old(handlings)[tag].message, tag, settlement)
    {
      hide Protocol.Valid; hide Last;
      var m := handlings[tag].message;
      if m in broker && broker[m].holder == Some(tag) {
        if settlement.Requeue? {
          broker := broker[m := broker[m].(holder := None)];
        } else {
          broker := broker - {m};
        }
      }
      handlings := handlings - {tag};
      Extended(cfg, run, Worker(Settle(tag)));
      run := Then(run, Worker(Settle(tag)));
    }

    // ----- replays

    /** The candidate query of the letter claim. */
    method SelectDue(stamp: nat) returns (batch: seq<EventId>)
      requires Valid()
      ensures |batch| <= 10 && Distinct(batch)
      ensures forall e | e in batch ::
                && e in letters && letters[e].replayedAt == None && letters[e].replayAttempts < cfg.retryMax
                && letters[e].nextRetryAt.Some? && letters[e].nextRetryAt.value <= stamp
      ensures alone ==> FirstLetters(letters, rank, stamp, cfg.retryMax, batch)
    {
      var locked: set<EventId> := *;
      if alone {
        locked := {};
      }
      var due := Due(letters, locked, stamp, cfg.retryMax);
      LowestExists(DueTimes(letters, rank), due, RETRY_BATCH);
      batch :| Lowest(DueTimes(letters, rank), due, RETRY_BATCH, batch);
      if alone {
        LowestAreFirstLetters(letters, rank, stamp, cfg.retryMax, batch);
      }
    }

    /** The claim statement; with no letter due it changes nothing. */
    method ReserveLetters(stamp: nat) returns (batch: seq<EventId>, attempts: seq<nat>, call: nat)
      requires Valid() && stamp <= now
      modifies this`letters, this`retries, this`nextId, this`run
      ensures call == old(nextId) && |attempts| == |batch| <= 10 && Distinct(batch)
      ensures forall e | e in batch :: e in old(letters)
      ensures forall i | 0 <= i < |batch| :: attempts[i] == old(letters)[batch[i]].replayAttempts + 1
      ensures batch == [] ==> Snapshot() == old(Snapshot()) && run == old(run)
      ensures batch != [] ==> Did(Replayer(ClaimLetters(stamp, batch)))
      ensures forall e | e in batch ::
                var letter := old(letters)[e];
                && letter.replayedAt == None && letter.replayAttempts < cfg.retryMax
                && letter.nextRetryAt.Some? && letter.nextRetryAt.value <= stamp
      ensures alone ==> FirstLetters(old(letters), rank, stamp, cfg.retryMax, batch)
      ensures batch != [] ==> nextId == call + 1 && letters == ClaimedLetters(old(letters), batch)
      ensures batch != [] ==> retries == old(retries)[call := RetryRound(batch, Reading)]
    {
      hide Protocol.Valid; hide Last;
      hide EnvironmentDoes; hide EnvironmentCan; hide DispatcherDoes; hide DispatcherCan; hide WorkerDoes;
      hide WorkerCan;
      hide FirstLetters;
      batch := SelectDue(stamp);
      call := nextId;
      attempts := NextAttempts(letters, batch);
      if batch != [] {
        retries := retries[call := RetryRound(batch, Reading)];
        letters := map e | e in letters ::
          if e in batch then letters[e].(replayAttempts := letters[e].replayAttempts + 1, nextRetryAt := None)
          else letters[e];
        nextId := nextId + 1;
        Extended(cfg, run, Replayer(ClaimLetters(stamp, batch)));
        run := Then(run, Replayer(ClaimLetters(stamp, batch)));
      }
    }

    /** As with the outbox: after an error nothing was claimed, or `reserved` letters were that nobody holds. */
    method ClaimRetryableDeadLetterDetails(stamp: nat)
      returns (ok: bool, batch: seq<EventId>, attempts: seq<nat>, call: nat, ghost reserved: seq<EventId>)
      requires Valid() && stamp <= now
      modifies this`letters, this`rounds, this`retries, this`nextId, this`run
      ensures call == old(nextId) && |attempts| == |batch| && |reserved| <= 10 && Distinct(reserved)
      ensures healthy ==> ok
      ensures batch == (if ok then reserved else []) && rounds == old(rounds)
      ensures forall i | 0 <= i < |batch| ::
                batch[i] in old(letters) && attempts[i] == old(letters)[batch[i]].replayAttempts + 1
      ensures reserved == [] ==> Snapshot() == old(Snapshot()) && run == old(run)
      ensures ok && batch != [] ==> Did(Replayer(ClaimLetters(stamp, batch)))
      ensures !ok && reserved != [] ==>
                && Valid() && retries == old(retries)
                && run == Then(Then(old(run), Replayer(ClaimLetters(stamp, reserved))), Environment(Crash({call})))
      ensures forall e | e in reserved ::
                && e in old(letters) && old(letters)[e].replayedAt == None
                && old(letters)[e].replayAttempts < cfg.retryMax
                && old(letters)[e].nextRetryAt.Some? && old(letters)[e].nextRetryAt.value <= stamp
      ensures alone && (ok || reserved != []) ==> FirstLetters(old(letters), rank, stamp, cfg.retryMax, reserved)
      ensures reserved != [] ==>
                && nextId == call + 1 && letters == ClaimedLetters(old(letters), reserved)
                && (ok ==> retries == old(retries)[call := RetryRound(batch, Reading)])
    {
      hide Protocol.Valid; hide Last; hide FirstLetters; hide ClaimedLetters;
      call := nextId;
      FreshIdentity(cfg, run);
      var outcome := Outcome();
      ok := outcome.Done?;
      if outcome.Refused? {
        batch, attempts, reserved := [], [], [];
        return;
      }
      batch, attempts, call := ReserveLetters(stamp);
      reserved := batch;
      if !ok && batch != [] {
        assert retries - {call} == old(retries) && rounds - {call} == rounds;
        Abandon(call);
      }
      if !ok {
        batch, attempts := [], [];
      }
    }

    /** The read of ReplayDeadLetter, for the scheduler's present letter. */
    method ReadForRetry(call: nat) returns (ok: bool, failed: bool)
      requires Valid() && Retrying(Snapshot(), call, Reading)
      modifies this`retries, this`run
      ensures Did(Replayer(RetryRead(call, ok)))
      ensures failed <==> old(Replayable(Snapshot(), retries[call].items[0]))
      ensures healthy ==> ok
      ensures var stage := if ok && failed then Committing else Rescheduling;
              retries == old(retries)[call := old(retries)[call].(stage := stage)]
    {
      hide Protocol.Valid; hide Last;
      var outcome := Outcome();
      ok := outcome.Done?;
      var e := retries[call].items[0];
      failed := e in events && e in letters && events[e].status.Failed?;
      retries := retries[call := retries[call].(stage := if ok && failed then Committing else Rescheduling)];
      Extended(cfg, run, Replayer(RetryRead(call, ok)));
      run := Then(run, Replayer(RetryRead(call, ok)));
    }

    /** The updates of one replay transaction. */
    method ReplayRows(e: EventId)
      modifies this`events, this`outbox, this`letters
      ensures events == old(ReplayedEvents(events, e))
      ensures letters == old(ReplayedLetters(letters, e, now))
      ensures outbox == old(ReopenedOutbox(outbox, e, ContentOf(events, e), nextId))
    {
      var content := ContentOf(events, e);
      if e in events && events[e].status.Failed? {
        events := events[e := events[e].(status := Queued, attempts := 0, startedAt := None)];
      }
      if e in outbox {
        outbox := outbox[e := outbox[e].(attempts := 0, publishedAt := None)];
      } else {
        outbox := outbox[e := OutboxRow(nextId, content, 0, None, None, None)];
      }
      if e in letters {
        letters := letters[e := letters[e].(replayedAt := Some(now))];
      }
    }

    method CommitRetry(call: nat) returns (ok: bool, ghost db: Db)
      requires Valid() && Retrying(Snapshot(), call, Committing)
      modifies this`events, this`outbox, this`letters, this`retries, this`nextId, this`run
      ensures Did(Replayer(RetryCommit(call, db)))
      ensures (ok <==> db.Done?) && (healthy ==> ok)
      ensures retries == if ok then AdvancedRetries(old(retries), call)
                         else old(retries)[call := old(retries)[call].(stage := Rescheduling)]
      ensures nextId == old(nextId) + 1
      ensures var e := old(retries)[call].items[0];
              if db.Refused? then events == old(events) && outbox == old(outbox) && letters == old(letters)
              else
                && events == ReplayedEvents(old(events), e) && letters == ReplayedLetters(old(letters), e, now)
                && outbox == ReopenedOutbox(old(outbox), e, ContentOf(old(events), e), old(nextId))
    {
      hide Protocol.Valid; hide Last;
      hide EnvironmentDoes; hide EnvironmentCan; hide DispatcherDoes; hide DispatcherCan; hide WorkerDoes;
      hide WorkerCan;
      hide ReplayedEvents; hide ReopenedOutbox; hide ReplayedLetters;
      var outcome := Outcome();
      db := outcome;
      ok := outcome.Done?;
      if !outcome.Refused? {
        ReplayRows(retries[call].items[0]);
      }
      nextId := nextId + 1;
      var items := retries[call].items;
      if !ok {
        retries := retries[call := retries[call].(stage := Rescheduling)];
      } else if |items| == 1 {
        retries := retries - {call};
      } else {
        retries := retries[call := RetryRound(items[1..], Reading)];
      }
      Extended(cfg, run, Replayer(RetryCommit(call, db)));
      run := Then(run, Replayer(RetryCommit(call, db)));
    }

    method RescheduleDeadLetterRetryWithDelay(call: nat, delay: int) returns (ok: bool, ghost db: Db)
      requires Valid() && Retrying(Snapshot(), call, Rescheduling)
      modifies this`letters, this`retries, this`run
      ensures Did(Replayer(Reschedule(call, delay, db)))
      ensures (ok <==> db.Done?) && (healthy ==> ok)
      ensures retries == AdvancedRetries(old(retries), call)
      ensures letters == if db.Refused? then old(letters)
                         else RescheduledLetters(old(letters), old(retries)[call].items[0], now + delay)
      ensures var e := old(retries)[call].items[0];
              && (e in old(letters) && (db.Refused? || old(letters)[e].replayedAt.Some?) ==>
                    e in letters && letters[e] == old(letters)[e])
              && (e in old(letters) && !db.Refused? && old(letters)[e].replayedAt == None ==>
                    e in letters && letters[e].nextRetryAt == Some(now + delay) && letters[e].replayedAt == None)
    {
      hide Protocol.Valid; hide Last;
      hide EnvironmentDoes; hide EnvironmentCan; hide DispatcherDoes; hide DispatcherCan; hide WorkerDoes;
      hide WorkerCan;
      var outcome := Outcome();
      db := outcome;
      ok := outcome.Done?;
      var items := retries[call].items;
      var e := items[0];
      if !outcome.Refused? && e in letters && letters[e].replayedAt.None? {
        letters := letters[e := letters[e].(nextRetryAt := Some(now + delay))];
      }
      if |items| == 1 {
        retries := retries - {call};
      } else {
        retries := retries[call := RetryRound(items[1..], Reading)];
      }
      Extended(cfg, run, Replayer(Reschedule(call, delay, db)));
      run := Then(run, Replayer(Reschedule(call, delay, db)));
    }

    /** The read of a manual ReplayDeadLetter; a replay that goes on gets an identity. */
    method ReadForReplay(e: EventId) returns (result: ReplayResult, call: nat, ghost db: Db)
      requires Valid()
      modifies this`replays, this`nextId, this`run
      ensures call == old(nextId)
      ensures result == if db != Done then ReplayError
                        else if old(e !in events || e !in letters) then NotFound
                        else if old(events)[e].status != Failed then NotFailed
                        else ReplayAccepted
      ensures healthy ==> db == Done
      ensures !result.ReplayAccepted? ==> Snapshot() == old(Snapshot()) && run == old(run)
      ensures result.ReplayAccepted? ==> Did(Replayer(ReplayRead(e)))
      ensures result.ReplayAccepted? ==> nextId == call + 1 && replays == old(replays)[call := e]
    {
      hide Protocol.Valid; hide Last;
      hide EnvironmentDoes; hide EnvironmentCan; hide DispatcherDoes; hide DispatcherCan; hide WorkerDoes;
      hide WorkerCan;
      var outcome := Outcome();
      db := outcome;
      call := nextId;
      if !outcome.Done? {
        result := ReplayError;
      } else if e !in events || e !in letters {
        result := NotFound;
      } else if !events[e].status.Failed? {
        result := NotFailed;
      } else {
        result := ReplayAccepted;
        replays := replays[call := e];
        nextId := nextId + 1;
        Extended(cfg, run, Replayer(ReplayRead(e)));
        run := Then(run, Replayer(ReplayRead(e)));
      }
    }

    method CommitReplay(call: nat) returns (ok: bool, ghost db: Db)
      requires Valid() && call in replays
      modifies this`events, this`outbox, this`letters, this`replays, this`nextId, this`run
      ensures Did(Replayer(ReplayCommit(call, db)))
      ensures (ok <==> db.Done?) && (healthy ==> ok)
      ensures replays == old(replays) - {call} && nextId == old(nextId) + 1
      ensures var e := old(replays)[call];
              if db.Refused? then events == old(events) && outbox == old(outbox) && letters == old(letters)
              else
                && events == ReplayedEvents(old(events), e) && letters == ReplayedLetters(old(letters), e, now)
                && outbox == ReopenedOutbox(old(outbox), e, ContentOf(old(events), e), old(nextId))
    {
      hide Protocol.Valid; hide Last;
      hide EnvironmentDoes; hide EnvironmentCan; hide DispatcherDoes; hide DispatcherCan; hide WorkerDoes;
      hide WorkerCan;
      hide ReplayedEvents; hide ReopenedOutbox; hide ReplayedLetters;
      var outcome := Outcome();
      db := outcome;
      ok := outcome.Done?;
      if !outcome.Refused? {
        ReplayRows(replays[call]);
      }
      nextId := nextId + 1;
      replays := replays - {call};
      Extended(cfg, run, Replayer(ReplayCommit(call, db)));
      run := Then(run, Replayer(ReplayCommit(call, db)));
    }
  }

  datatype SaveResult = Saved | Duplicate | SaveError

  datatype ReplayResult = ReplayAccepted | NotFound | NotFailed | ReplayError
}
