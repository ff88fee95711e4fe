/** The delivery protocol as a transition system over PostgreSQL, RabbitMQ, dispatchers, workers, the retry
    scheduler and replay callers. A step is one SQL statement or transaction, one broker action, or one local move;
    everything between steps interleaves. */
module Protocol {
  import opened Rows

  /** Times share one unit. `backoff` is the linear retry unit, `retryMax` the automatic-replay maximum. */
  datatype Config = Config(maxRetries: nat, backoff: nat, processingLease: nat, dispatchLease: nat,
                           batchSize: nat, retryMax: nat)

  /** How a database call ends: executed and reported, executed with the reply lost, or not executed. */
  datatype Db = Done | LostReply | Refused

  /** A broker message; `holder` is the delivery tag under which it is unacknowledged. */
  datatype Message = Message(event: EventId, content: Content, holder: Option<nat>)

  datatype Settlement = Ack | Requeue | Drop

  /** Where one handleDelivery call stands; `Working` phases lie between a successful claim and settling. */
  datatype Phase =
    | Received
    | Unclaimed                  // the claim UPDATE matched no row, the status is not read yet
    | Claimed(attempt: nat)      // about to call the processor
    | Calling(attempt: nat)
    | Sleeping(attempt: nat)
    | Succeeded(attempt: nat)    // MarkProcessed is due
    | Exhausted                  // SaveDeadLetter is due
    | Buried                     // MarkFailed is due
    | Settling(settlement: Settlement)

  /** One delivery being handled. A delivery waits in `Received` while it sits in the local buffer, so any number
      of workers and any buffer are covered. `stamp` is the claim's processing_started_at, `since` the entry time of
      the present phase. */
  datatype Handling = Handling(message: nat, event: EventId, content: Content, phase: Phase, stamp: nat, since: nat)

  datatype Item = Item(event: EventId, content: Content)

  datatype Stage = Unpublished | Published | Rejected

  /** One DispatchPending call, known by its token: the items left and how far the first one got. */
  datatype Round = Round(items: seq<Item>, stage: Stage)

  datatype ReplayStage = Reading | Committing | Rescheduling

  /** One call of the scheduler's retry: the letters left and how far the first one got. */
  datatype RetryRound = RetryRound(items: seq<EventId>, stage: ReplayStage)

  /** `nextId` supplies every new identity: tokens, delivery tags, message ids, serials, call ids.
      `replays` holds manual replay calls between their read and their commit. */
  datatype State = State(now: nat, nextId: nat,
                         events: EventTable, outbox: OutboxTable, letters: LetterTable,
                         broker: map<nat, Message>,
                         rounds: map<nat, Round>, handlings: map<nat, Handling>,
                         retries: map<nat, RetryRound>, replays: map<nat, EventId>)

  const EMPTY := State(0, 0, map[], map[], map[], map[], map[], map[], map[], map[])

  datatype EnvironmentStep =
    | Tick(delta: nat)
    | Accept(event: EventId, content: Content)
    | Crash(agents: set<nat>)
    | LoseConnection(tags: set<nat>)

  datatype DispatcherStep =
    | ClaimBatch(stamp: nat, batch: seq<EventId>)
    | Publish(token: nat, confirmed: bool, enqueued: bool)
    | MarkPublished(token: nat, db: Db)
    | MarkRejected(token: nat, db: Db)

  datatype WorkerStep =
    | Deliver(message: nat)
    | Claim(tag: nat, stamp: nat, db: Db)
    | ReadStatus(tag: nat, ok: bool)
    | StartCall(tag: nat)
    | FinishCall(tag: nat, ok: bool)
    | Wake(tag: nat)
    | MarkProcessed(tag: nat, db: Db)
    | SaveDeadLetter(tag: nat, db: Db)
    | MarkFailed(tag: nat, db: Db)
    | Settle(tag: nat)

  /** The retry scheduler's calls and manual replay calls. */
  datatype ReplayerStep =
    | ClaimLetters(stamp: nat, batch: seq<EventId>)
    | RetryRead(call: nat, ok: bool)
    | RetryCommit(call: nat, db: Db)
    | Reschedule(call: nat, delay: int, db: Db)
    | ReplayRead(event: EventId)
    | ReplayCommit(call: nat, db: Db)

  datatype Step =
    | Environment(env: EnvironmentStep)
    | Dispatcher(dispatch: DispatcherStep)
    | Worker(work: WorkerStep)
    | Replayer(replay: ReplayerStep)

  predicate Working(phase: Phase) {
    phase.Claimed? || phase.Calling? || phase.Sleeping? || phase.Succeeded? || phase.Exhausted? || phase.Buried?
  }

  predicate Distinct(ids: seq<EventId>) {
    forall i, j :: 0 <= i < j < |ids| ==> ids[i] != ids[j]
  }

  /** The join of events and dead_letters that ReplayDeadLetter reads, restricted to status failed. */
  predicate Replayable(s: State, e: EventId) {
    e in s.events && e in s.letters && s.events[e].status.Failed?
  }

  predicate Standing(s: State, token: nat, stage: Stage) {
    token in s.rounds && s.rounds[token].items != [] && s.rounds[token].stage == stage
  }

  predicate Retrying(s: State, call: nat, stage: ReplayStage) {
    call in s.retries && s.retries[call].items != [] && s.retries[call].stage == stage
  }

  predicate EnvironmentCan(s: State, step: EnvironmentStep) {
    step.Accept? ==> step.event !in s.events
  }

  predicate DispatcherCan(cfg: Config, s: State, step: DispatcherStep) {
    match step
    case ClaimBatch(stamp, batch) =>
      && stamp <= s.now && 0 < |batch| <= cfg.batchSize && Distinct(batch)
      && forall e | e in batch :: e in s.outbox && Dispatchable(s.outbox[e], stamp, cfg.dispatchLease)
    case Publish(t, confirmed, enqueued) => Standing(s, t, Unpublished) && (confirmed ==> enqueued)
    case MarkPublished(t, _) => Standing(s, t, Published)
    case MarkRejected(t, _) => Standing(s, t, Rejected)
  }

  predicate WorkerCan(s: State, step: WorkerStep) {
    match step
    case Deliver(m) => m in s.broker && s.broker[m].holder.None?
    case Claim(t, stamp, _) => t in s.handlings && s.handlings[t].phase.Received? && stamp <= s.now
    case ReadStatus(t, _) => t in s.handlings && s.handlings[t].phase.Unclaimed?
    case StartCall(t) => t in s.handlings && s.handlings[t].phase.Claimed?
    case FinishCall(t, _) => t in s.handlings && s.handlings[t].phase.Calling?
    case Wake(t) => t in s.handlings && s.handlings[t].phase.Sleeping?
    case MarkProcessed(t, _) => t in s.handlings && s.handlings[t].phase.Succeeded?
    case SaveDeadLetter(t, _) => t in s.handlings && s.handlings[t].phase.Exhausted?
    case MarkFailed(t, _) => t in s.handlings && s.handlings[t].phase.Buried?
    case Settle(t) => t in s.handlings && s.handlings[t].phase.Settling?
  }

  predicate ReplayerCan(cfg: Config, s: State, step: ReplayerStep) {
    match step
    case ClaimLetters(stamp, batch) =>
      && stamp <= s.now && batch != [] && Distinct(batch)
      && forall e | e in batch :: e in s.letters && Retryable(s.letters[e], stamp, cfg.retryMax)
    case RetryRead(c, _) => Retrying(s, c, Reading)
    case RetryCommit(c, _) => Retrying(s, c, Committing)
    case Reschedule(c, _, _) => Retrying(s, c, Rescheduling)
    case ReplayRead(e) => Replayable(s, e)
    case ReplayCommit(c, _) => c in s.replays
  }

  predicate Enabled(cfg: Config, s: State, step: Step) {
    match step
    case Environment(env) => EnvironmentCan(s, env)
    case Dispatcher(dispatch) => DispatcherCan(cfg, s, dispatch)
    case Worker(work) => WorkerCan(s, work)
    case Replayer(replay) => ReplayerCan(cfg, s, replay)
  }

  /** The handlings after `tag` enters `phase`. */
  function Moved(s: State, tag: nat, phase: Phase): map<nat, Handling>
    requires tag in s.handlings
  {
    s.handlings[tag := s.handlings[tag].(phase := phase, since := s.now)]
  }

  /** The rounds after `token` is done with its first item; after the last item the call returns. */
  function Advanced(rounds: map<nat, Round>, token: nat): map<nat, Round>
    requires token in rounds && rounds[token].items != []
  {
    if |rounds[token].items| == 1 then rounds - {token}
        else rounds[token := Round(rounds[token].items[1..], Unpublished)]
  }

  function AdvancedRetries(retries: map<nat, RetryRound>, call: nat): map<nat, RetryRound>
    requires call in retries && retries[call].items != []
  {
    if |retries[call].items| == 1 then retries - {call}
    else retries[call := RetryRound(retries[call].items[1..], Reading)]
  }

  function Requeued(broker: map<nat, Message>, tags: set<nat>): map<nat, Message> {
    map m | m in broker ::
      if broker[m].holder.Some? && broker[m].holder.value in tags then broker[m].(holder := None) else broker[m]
  }

  function DoAccept(s: State, e: EventId, content: Content): State {
    s.(events := s.events[e := EventRow(content, Queued, 0, None)],
       outbox := s.outbox[e := OutboxRow(s.nextId, content, 0, None, None, None)],
       nextId := s.nextId + 1)
  }

  function DoCrash(s: State, agents: set<nat>): State {
    s.(rounds := s.rounds - agents, handlings := s.handlings - agents,
       retries := s.retries - agents, replays := s.replays - agents)
  }

  function BatchItems(outbox: OutboxTable, batch: seq<EventId>): seq<Item>
    requires forall e | e in batch :: e in outbox
  {
    seq(|batch|, i requires 0 <= i < |batch| => Item(batch[i], outbox[batch[i]].content))
  }

  function DoClaimBatch(s: State, stamp: nat, batch: seq<EventId>): State
    requires forall e | e in batch :: e in s.outbox
  {
    s.(outbox := ReservedOutbox(s.outbox, batch, s.nextId, stamp),
       rounds := s.rounds[s.nextId := Round(BatchItems(s.outbox, batch), Unpublished)],
       nextId := s.nextId + 1)
  }

  function DoPublish(s: State, t: nat, confirmed: bool, enqueued: bool): State
    requires t in s.rounds && s.rounds[t].items != []
  {
    var item := s.rounds[t].items[0];
    s.(broker := if enqueued then s.broker[s.nextId := Message(item.event, item.content, None)] else s.broker,
       rounds := s.rounds[t := s.rounds[t].(stage := if confirmed then Published else Rejected)],
       nextId := s.nextId + 1)
  }

  /** Only a reported match moves on to the next item; an error or a lost reservation ends the call. */
  function DoMarkPublished(s: State, t: nat, db: Db): State
    requires t in s.rounds && s.rounds[t].items != []
  {
    var e := s.rounds[t].items[0].event;
    var reported := db.Done? && e in s.outbox && Reserved(s.outbox[e], t);
    s.(outbox := if db.Refused? then s.outbox else PublishedOutbox(s.outbox, e, t, s.now),
       rounds := if reported then Advanced(s.rounds, t) else s.rounds - {t})
  }

  function DoMarkRejected(s: State, t: nat, db: Db): State
    requires t in s.rounds && s.rounds[t].items != []
  {
    s.(outbox := if db.Refused? then s.outbox else RejectedOutbox(s.outbox, s.rounds[t].items[0].event, t),
       rounds := s.rounds - {t})
  }

  function DoDeliver(s: State, m: nat): State
    requires m in s.broker
  {
    var msg := s.broker[m];
    s.(broker := s.broker[m := msg.(holder := Some(s.nextId))],
       handlings := s.handlings[s.nextId := Handling(m, msg.event, msg.content, Received, 0, s.now)],
       nextId := s.nextId + 1)
  }

  function ClaimPhase(matched: bool, db: Db): Phase {
    if !db.Done? then Settling(Requeue) else if matched then Claimed(1) else Unclaimed
  }

  function DoClaim(cfg: Config, s: State, t: nat, stamp: nat, db: Db): State
    requires t in s.handlings
  {
    var h := s.handlings[t];
    var matched := h.event in s.events && Claimable(s.events[h.event], stamp, cfg.processingLease);
    s.(events := if db.Refused? then s.events else ClaimedEvents(s.events, h.event, stamp, cfg.processingLease),
       handlings := s.handlings[t := h.(phase := ClaimPhase(matched, db), stamp := stamp, since := s.now)])
  }

  function StatusSettlement(s: State, e: EventId): Settlement {
    if e !in s.events then Drop else if Live(s.events[e].status) then Requeue else Ack
  }

  function DoReadStatus(s: State, t: nat, ok: bool): State
    requires t in s.handlings
  {
    s.(handlings := Moved(s, t, Settling(if ok then StatusSettlement(s, s.handlings[t].event) else Requeue)))
  }

  function DoFinishCall(cfg: Config, s: State, t: nat, ok: bool): State
    requires t in s.handlings && s.handlings[t].phase.Calling?
  {
    var k := s.handlings[t].phase.attempt;
    var phase := if ok then Succeeded(k) else if k == cfg.maxRetries + 1 then Exhausted else Sleeping(k);
    s.(handlings := Moved(s, t, phase))
  }

  /** A terminal write by handling `t`, then the settlement its outcome calls for. */
  function DoFinish(s: State, t: nat, status: Status, attempts: nat, db: Db): State
    requires t in s.handlings
  {
    s.(events := if db.Refused? then s.events else FinishedEvents(s.events, s.handlings[t].event, status, attempts),
       handlings := Moved(s, t, Settling(if db.Done? then Ack else Requeue)))
  }

  function DoSaveDeadLetter(cfg: Config, s: State, t: nat, db: Db): State
    requires t in s.handlings
  {
    var h := s.handlings[t];
    s.(letters := if db.Refused? then s.letters
                  else BuriedLetters(s.letters, h.event, h.content, cfg.maxRetries + 1, s.now),
       handlings := Moved(s, t, if db.Done? then Buried else Settling(Requeue)))
  }

  /** An ack or nack reaches the broker only while the message is still held under this delivery tag. */
  function SettledBroker(broker: map<nat, Message>, m: nat, t: nat, settlement: Settlement): map<nat, Message> {
    if m !in broker || broker[m].holder != Some(t) then broker
    else if settlement.Requeue? then broker[m := broker[m].(holder := None)]
    else broker - {m}
  }

  function DoSettle(s: State, t: nat): State
    requires t in s.handlings && s.handlings[t].phase.Settling?
  {
    s.(broker := SettledBroker(s.broker, s.handlings[t].message, t, s.handlings[t].phase.settlement),
       handlings := s.handlings - {t})
  }

  function DoClaimLetters(s: State, batch: seq<EventId>): State {
    s.(letters := ClaimedLetters(s.letters, batch),
       retries := s.retries[s.nextId := RetryRound(batch, Reading)],
       nextId := s.nextId + 1)
  }

  function DoRetryRead(s: State, c: nat, ok: bool): State
    requires c in s.retries && s.retries[c].items != []
  {
    var stage := if ok && Replayable(s, s.retries[c].items[0]) then Committing else Rescheduling;
    s.(retries := s.retries[c := s.retries[c].(stage := stage)])
  }

  /** The UPDATEs of a replay transaction. The event is reset only if it is still failed; the outbox row is reopened
      and the letter stamped in any case. */
  function Replayed(s: State, e: EventId, db: Db, retries: map<nat, RetryRound>, replays: map<nat, EventId>): State {
    s.(events := if db.Refused? then s.events else ReplayedEvents(s.events, e),
       outbox := if db.Refused? then s.outbox else ReopenedOutbox(s.outbox, e, ContentOf(s.events, e), s.nextId),
       letters := if db.Refused? then s.letters else ReplayedLetters(s.letters, e, s.now),
       nextId := s.nextId + 1, retries := retries, replays := replays)
  }

  function DoRetryCommit(s: State, c: nat, db: Db): State
    requires c in s.retries && s.retries[c].items != []
  {
    Replayed(s, s.retries[c].items[0], db,
             if db.Done? then AdvancedRetries(s.retries, c) else s.retries[c := s.retries[c].(stage := Rescheduling)],
             s.replays)
  }

  function DoReschedule(s: State, c: nat, delay: int, db: Db): State
    requires c in s.retries && s.retries[c].items != []
  {
    s.(letters := if db.Refused? then s.letters
                  else RescheduledLetters(s.letters, s.retries[c].items[0], s.now + delay),
       retries := AdvancedRetries(s.retries, c))
  }

  function DoReplayCommit(s: State, c: nat, db: Db): State
    requires c in s.replays
  {
    Replayed(s, s.replays[c], db, s.retries, s.replays - {c})
  }

  function EnvironmentDoes(s: State, step: EnvironmentStep): State
    requires EnvironmentCan(s, step)
  {
    match step
    case Tick(d) => s.(now := s.now + d)
    case Accept(e, content) => DoAccept(s, e, content)
    case Crash(agents) => DoCrash(s, agents)
    case LoseConnection(tags) => s.(broker := Requeued(s.broker, tags))
  }

  function DispatcherDoes(cfg: Config, s: State, step: DispatcherStep): State
    requires DispatcherCan(cfg, s, step)
  {
    match step
    case ClaimBatch(stamp, batch) => DoClaimBatch(s, stamp, batch)
    case Publish(t, confirmed, enqueued) => DoPublish(s, t, confirmed, enqueued)
    case MarkPublished(t, db) => DoMarkPublished(s, t, db)
    case MarkRejected(t, db) => DoMarkRejected(s, t, db)
  }

  function WorkerDoes(cfg: Config, s: State, step: WorkerStep): State
    requires WorkerCan(s, step)
  {
    match step
    case Deliver(m) => DoDeliver(s, m)
    case Claim(t, stamp, db) => DoClaim(cfg, s, t, stamp, db)
    case ReadStatus(t, ok) => DoReadStatus(s, t, ok)
    case StartCall(t) => s.(handlings := Moved(s, t, Calling(s.handlings[t].phase.attempt)))
    case FinishCall(t, ok) => DoFinishCall(cfg, s, t, ok)
    case Wake(t) => s.(handlings := Moved(s, t, Claimed(s.handlings[t].phase.attempt + 1)))
    case MarkProcessed(t, db) => DoFinish(s, t, Processed, s.handlings[t].phase.attempt, db)
    case SaveDeadLetter(t, db) => DoSaveDeadLetter(cfg, s, t, db)
    case MarkFailed(t, db) => DoFinish(s, t, Failed, cfg.maxRetries + 1, db)
    case Settle(t) => DoSettle(s, t)
  }

  function ReplayerDoes(cfg: Config, s: State, step: ReplayerStep): State
    requires ReplayerCan(cfg, s, step)
  {
    match step
    case ClaimLetters(_, batch) => DoClaimLetters(s, batch)
    case RetryRead(c, ok) => DoRetryRead(s, c, ok)
    case RetryCommit(c, db) => DoRetryCommit(s, c, db)
    case Reschedule(c, delay, db) => DoReschedule(s, c, delay, db)
    case ReplayRead(e) => s.(replays := s.replays[s.nextId := e], nextId := s.nextId + 1)
    case ReplayCommit(c, db) => DoReplayCommit(s, c, db)
  }

  function Apply(cfg: Config, s: State, step: Step): State
    requires Enabled(cfg, s, step)
  {
    match step
    case Environment(env) => EnvironmentDoes(s, env)
    case Dispatcher(dispatch) => DispatcherDoes(cfg, s, dispatch)
    case Worker(work) => WorkerDoes(cfg, s, work)
    case Replayer(replay) => ReplayerDoes(cfg, s, replay)
  }

  /** `step` is a replay commit that reaches the database, for event `e`. */
  predicate CommitsReplay(s: State, step: Step, e: EventId) {
    step.Replayer? &&
    (|| (step.replay.RetryCommit? && !step.replay.db.Refused? && Retrying(s, step.replay.call, Committing)
         && s.retries[step.replay.call].items[0] == e)
     || (step.replay.ReplayCommit? && !step.replay.db.Refused? && step.replay.call in s.replays
         && s.replays[step.replay.call] == e))
  }

  /** ... and it turns the event from failed to queued. */
  predicate EffectiveReplay(s: State, step: Step, e: EventId) {
    CommitsReplay(s, step, e) && e in s.events && s.events[e].status.Failed?
  }

  /** Finite runs from the empty schema. */
  datatype Run = Start | Then(prefix: Run, step: Step)

  function Last(cfg: Config, r: Run): State
    requires Valid(cfg, r)
    decreases r, 1
  {
    match r
    case Start => EMPTY
    case Then(p, step) => Apply(cfg, Last(cfg, p), step)
  }

  predicate Valid(cfg: Config, r: Run)
    decreases r, 0
  {
    match r
    case Start => true
    case Then(p, step) => Valid(cfg, p) && Enabled(cfg, Last(cfg, p), step)
  }

  /** `r` continues `earlier`. */
  predicate Continues(r: Run, earlier: Run) {
    r == earlier || (r.Then? && Continues(r.prefix, earlier))
  }

  lemma {:induction false} PrefixValid(cfg: Config, r: Run, earlier: Run)
    requires Valid(cfg, r) && Continues(r, earlier)
    ensures Valid(cfg, earlier)
  {
    if r != earlier {
      PrefixValid(cfg, r.prefix, earlier);
    }
  }
}
