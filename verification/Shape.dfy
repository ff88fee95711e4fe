/** What holds of rows, messages and agents in every reachable state, with no hypothesis on the run. */
module Shape {
  import opened Rows
  import opened Protocol

  type Registry = map<EventId, Content>

  /** The content first accepted under each id. */
  function Accepted(events: EventTable): (accepted: Registry) {
    map e | e in events :: events[e].content
  }

  ghost predicate EventsOk(events: EventTable, letters: LetterTable, now: nat) {
    forall e | e in events ::
      && (events[e].status.Processing? <==> events[e].startedAt.Some?)
      && (events[e].startedAt.Some? ==> events[e].startedAt.value <= now)
      && (events[e].status.Failed? ==> e in letters)
  }

  ghost predicate OutboxOk(outbox: OutboxTable, accepted: Registry, now: nat, nextId: nat) {
    && outbox.Keys == accepted.Keys
    && forall e | e in outbox ::
         && (outbox[e].token.Some? <==> outbox[e].dispatchingAt.Some?)
         && (outbox[e].publishedAt.Some? ==> outbox[e].token.None?)
         && (outbox[e].token.Some? ==> outbox[e].token.value < nextId)
         && (outbox[e].dispatchingAt.Some? ==> outbox[e].dispatchingAt.value <= now)
         && outbox[e].serial < nextId
         && outbox[e].content == accepted[e]
  }

  ghost predicate SerialsOk(outbox: OutboxTable) {
    forall e, f | e in outbox && f in outbox && e != f :: outbox[e].serial != outbox[f].serial
  }

  ghost predicate LettersOk(cfg: Config, letters: LetterTable, accepted: Registry) {
    forall e | e in letters ::
      && e in accepted
      && letters[e].content == accepted[e]
      && letters[e].replayAttempts <= cfg.retryMax
      && letters[e].attempts == cfg.maxRetries + 1
  }

  ghost predicate BrokerOk(broker: map<nat, Message>, accepted: Registry, nextId: nat) {
    forall m | m in broker ::
      && m < nextId
      && broker[m].event in accepted
      && broker[m].content == accepted[broker[m].event]
      && (broker[m].holder.Some? ==> broker[m].holder.value < nextId)
  }

  ghost predicate PhaseOk(cfg: Config, phase: Phase) {
    match phase
    case Claimed(k) => 1 <= k <= cfg.maxRetries + 1
    case Calling(k) => 1 <= k <= cfg.maxRetries + 1
    case Succeeded(k) => 1 <= k <= cfg.maxRetries + 1
    case Sleeping(k) => 1 <= k <= cfg.maxRetries
    case Settling(settlement) => !settlement.Drop?
    case _ => true
  }

  ghost predicate HandlingsOk(cfg: Config, handlings: map<nat, Handling>, accepted: Registry, letters: LetterTable,
                              now: nat, nextId: nat) {
    forall t | t in handlings ::
      && t < nextId
      && handlings[t].message < nextId
      && handlings[t].event in accepted
      && handlings[t].content == accepted[handlings[t].event]
      && handlings[t].since <= now
      && handlings[t].stamp <= now
      && (handlings[t].phase.Buried? ==> handlings[t].event in letters)
      && PhaseOk(cfg, handlings[t].phase)
  }

  /** A message held under a live delivery tag is the message of that delivery. */
  ghost predicate HoldersOk(broker: map<nat, Message>, handlings: map<nat, Handling>) {
    forall m | m in broker && broker[m].holder.Some? && broker[m].holder.value in handlings ::
      && handlings[broker[m].holder.value].message == m
      && handlings[broker[m].holder.value].event == broker[m].event
  }

  ghost predicate ItemsOk(items: seq<Item>, accepted: Registry) {
    && items != []
    && (forall i | 0 <= i < |items| :: items[i].event in accepted && items[i].content == accepted[items[i].event])
    && (forall i, j | 0 <= i < j < |items| :: items[i].event != items[j].event)
  }

  ghost predicate RoundsOk(rounds: map<nat, Round>, accepted: Registry, nextId: nat) {
    forall t | t in rounds :: t < nextId && ItemsOk(rounds[t].items, accepted)
  }

  ghost predicate RetriesOk(retries: map<nat, RetryRound>, letters: LetterTable, nextId: nat) {
    forall c | c in retries ::
      && c < nextId
      && retries[c].items != []
      && Distinct(retries[c].items)
      && forall e | e in retries[c].items :: e in letters
  }

  ghost predicate ReplaysOk(replays: map<nat, EventId>, letters: LetterTable, nextId: nat) {
    forall c | c in replays :: c < nextId && replays[c] in letters
  }

  ghost predicate WellShaped(cfg: Config, s: State) {
    var accepted := Accepted(s.events);
    && EventsOk(s.events, s.letters, s.now)
    && OutboxOk(s.outbox, accepted, s.now, s.nextId)
    && SerialsOk(s.outbox)
    && LettersOk(cfg, s.letters, accepted)
    && BrokerOk(s.broker, accepted, s.nextId)
    && HandlingsOk(cfg, s.handlings, accepted, s.letters, s.now, s.nextId)
    && HoldersOk(s.broker, s.handlings)
    && RoundsOk(s.rounds, accepted, s.nextId)
    && RetriesOk(s.retries, s.letters, s.nextId)
    && ReplaysOk(s.replays, s.letters, s.nextId)
  }

  // ----- what changes one component at a time

  lemma HandlingFacts(cfg: Config, s: State, accepted: Registry, t: nat)
    requires HandlingsOk(cfg, s.handlings, accepted, s.letters, s.now, s.nextId) && t in s.handlings
    ensures var h := s.handlings[t];
            && h.stamp <= s.now && h.since <= s.now
            && h.event in accepted && h.content == accepted[h.event]
            && PhaseOk(cfg, h.phase) && (h.phase.Buried? ==> h.event in s.letters)
  {
  }

  lemma Entering(cfg: Config, s: State, t: nat, phase: Phase, stamp: nat, letters: LetterTable)
    requires HandlingsOk(cfg, s.handlings, Accepted(s.events), s.letters, s.now, s.nextId)
    requires HoldersOk(s.broker, s.handlings)
    requires t in s.handlings && PhaseOk(cfg, phase) && stamp <= s.now
    requires s.letters.Keys <= letters.Keys
    requires phase.Buried? ==> s.handlings[t].event in letters
    ensures var handlings := s.handlings[t := s.handlings[t].(phase := phase, stamp := stamp, since := s.now)];
            && HandlingsOk(cfg, handlings, Accepted(s.events), letters, s.now, s.nextId)
            && HoldersOk(s.broker, handlings)
  {
  }

  /** Identities only grow, so what mentions them survives the next one being handed out. */
  lemma NextId(cfg: Config, s: State)
    requires WellShaped(cfg, s)
    ensures WellShaped(cfg, s.(nextId := s.nextId + 1))
  {
    hide EventsOk; hide SerialsOk; hide LettersOk; hide HoldersOk; hide ItemsOk; hide Accepted; hide PhaseOk;
  }

  lemma Registering(cfg: Config, s: State, accepted: Registry, e: EventId, content: Content)
    requires e !in accepted
    requires LettersOk(cfg, s.letters, accepted) && BrokerOk(s.broker, accepted, s.nextId)
    requires HandlingsOk(cfg, s.handlings, accepted, s.letters, s.now, s.nextId)
              && RoundsOk(s.rounds, accepted, s.nextId)
    ensures var accepted' := accepted[e := content];
            && LettersOk(cfg, s.letters, accepted') && BrokerOk(s.broker, accepted', s.nextId)
            && HandlingsOk(cfg, s.handlings, accepted', s.letters, s.now, s.nextId)
            && RoundsOk(s.rounds, accepted', s.nextId)
  {
    hide PhaseOk;
  }

  lemma EventsAfterClaim(events: EventTable, letters: LetterTable, now: nat, e: EventId, stamp: nat, lease: nat)
    requires EventsOk(events, letters, now) && stamp <= now
    ensures var events' := ClaimedEvents(events, e, stamp, lease);
            EventsOk(events', letters, now) && Accepted(events') == Accepted(events)
  {
  }

  lemma EventsAfterFinish(events: EventTable, letters: LetterTable, now: nat, e: EventId, status: Status, attempts: nat)
    requires EventsOk(events, letters, now)
    requires status.Processed? || (status.Failed? && e in letters)
    ensures var events' := FinishedEvents(events, e, status, attempts);
            EventsOk(events', letters, now) && Accepted(events') == Accepted(events)
  {
  }

  lemma EventsAfterReplay(events: EventTable, letters: LetterTable, now: nat, e: EventId)
    requires EventsOk(events, letters, now)
    ensures var events' := ReplayedEvents(events, e);
            EventsOk(events', letters, now) && Accepted(events') == Accepted(events)
  {
  }

  lemma OutboxAfterAccept(outbox: OutboxTable, accepted: Registry, now: nat, nextId: nat, e: EventId, content: Content)
    requires OutboxOk(outbox, accepted, now, nextId) && SerialsOk(outbox) && e !in accepted
    ensures var outbox' := outbox[e := OutboxRow(nextId, content, 0, None, None, None)];
            OutboxOk(outbox', accepted[e := content], now, nextId + 1) && SerialsOk(outbox')
  {
  }

  lemma OutboxAfterReplay(outbox: OutboxTable, accepted: Registry, now: nat, nextId: nat, e: EventId, content: Content)
    requires OutboxOk(outbox, accepted, now, nextId) && SerialsOk(outbox) && e in accepted
    ensures var outbox' := ReopenedOutbox(outbox, e, content, nextId);
            OutboxOk(outbox', accepted, now, nextId + 1) && SerialsOk(outbox')
  {
  }

  /** Nothing but membership is asked of letters outside their own table. */
  lemma LettersGrow(cfg: Config, s: State, accepted: Registry, letters: LetterTable)
    requires s.letters.Keys <= letters.Keys && EventsOk(s.events, s.letters, s.now)
    requires HandlingsOk(cfg, s.handlings, accepted, s.letters, s.now, s.nextId)
    requires RetriesOk(s.retries, s.letters, s.nextId) && ReplaysOk(s.replays, s.letters, s.nextId)
    ensures EventsOk(s.events, letters, s.now)
    ensures HandlingsOk(cfg, s.handlings, accepted, letters, s.now, s.nextId)
    ensures RetriesOk(s.retries, letters, s.nextId) && ReplaysOk(s.replays, letters, s.nextId)
  {
    hide PhaseOk; hide Distinct;
  }

  // ----- environment

  lemma TickKeepsShape(cfg: Config, s: State, delta: nat)
    requires WellShaped(cfg, s)
    ensures WellShaped(cfg, s.(now := s.now + delta))
  {
    hide SerialsOk; hide LettersOk; hide BrokerOk; hide HoldersOk; hide RoundsOk; hide RetriesOk; hide ReplaysOk;
    hide Accepted; hide PhaseOk;
  }

  lemma EventsAfterAccept(events: EventTable, letters: LetterTable, now: nat, e: EventId, content: Content)
    requires EventsOk(events, letters, now)
    ensures var events' := events[e := EventRow(content, Queued, 0, None)];
            EventsOk(events', letters, now) && Accepted(events') == Accepted(events)[e := content]
  {
  }

  lemma AcceptKeepsShape(cfg: Config, s: State, e: EventId, content: Content)
    requires WellShaped(cfg, s) && e !in s.events
    ensures WellShaped(cfg, DoAccept(s, e, content))
  {
    hide EventsOk; hide OutboxOk; hide SerialsOk; hide LettersOk; hide BrokerOk; hide HandlingsOk; hide HoldersOk;
    hide RoundsOk; hide RetriesOk; hide ReplaysOk;
    NextId(cfg, s);
    EventsAfterAccept(s.events, s.letters, s.now, e, content);
    OutboxAfterAccept(s.outbox, Accepted(s.events), s.now, s.nextId, e, content);
    Registering(cfg, s.(nextId := s.nextId + 1), Accepted(s.events), e, content);
  }

  lemma CrashKeepsShape(cfg: Config, s: State, agents: set<nat>)
    requires WellShaped(cfg, s)
    ensures WellShaped(cfg, DoCrash(s, agents))
  {
    hide EventsOk; hide OutboxOk; hide SerialsOk; hide LettersOk; hide BrokerOk; hide ItemsOk; hide Accepted;
    hide PhaseOk;
  }

  lemma LoseConnectionKeepsShape(cfg: Config, s: State, tags: set<nat>)
    requires WellShaped(cfg, s)
    ensures WellShaped(cfg, s.(broker := Requeued(s.broker, tags)))
  {
    hide EventsOk; hide OutboxOk; hide SerialsOk; hide LettersOk; hide HandlingsOk; hide RoundsOk; hide RetriesOk;
    hide ReplaysOk; hide Accepted;
  }

  // ----- dispatcher

  lemma OutboxAfterClaim(outbox: OutboxTable, accepted: Registry, now: nat, nextId: nat, batch: seq<EventId>,
      stamp: nat)
    requires OutboxOk(outbox, accepted, now, nextId) && SerialsOk(outbox) && stamp <= now
    requires batch != [] && Distinct(batch) && forall e | e in batch :: e in outbox && outbox[e].publishedAt.None?
    ensures var outbox' := ReservedOutbox(outbox, batch, nextId, stamp);
            OutboxOk(outbox', accepted, now, nextId + 1) && SerialsOk(outbox')
    ensures ItemsOk(BatchItems(outbox, batch), accepted)
  {
  }

  lemma ClaimBatchKeepsShape(cfg: Config, s: State, stamp: nat, batch: seq<EventId>)
    requires WellShaped(cfg, s) && DispatcherCan(cfg, s, ClaimBatch(stamp, batch))
    ensures WellShaped(cfg, DoClaimBatch(s, stamp, batch))
  {
    hide EventsOk; hide OutboxOk; hide SerialsOk; hide LettersOk; hide BrokerOk; hide HandlingsOk; hide HoldersOk;
    hide RetriesOk; hide ReplaysOk; hide ItemsOk; hide Accepted;
    NextId(cfg, s);
    OutboxAfterClaim(s.outbox, Accepted(s.events), s.now, s.nextId, batch, stamp);
    hide ReservedOutbox;
  }

  lemma PublishKeepsShape(cfg: Config, s: State, t: nat, confirmed: bool, enqueued: bool)
    requires WellShaped(cfg, s) && Standing(s, t, Unpublished)
    ensures WellShaped(cfg, DoPublish(s, t, confirmed, enqueued))
  {
    hide EventsOk; hide OutboxOk; hide LettersOk; hide HandlingsOk; hide RetriesOk; hide ReplaysOk; hide SerialsOk;
    hide Accepted;
    NextId(cfg, s);
  }

  lemma OutboxAfterPublish(outbox: OutboxTable, accepted: Registry, now: nat, nextId: nat, e: EventId, token: nat)
    requires OutboxOk(outbox, accepted, now, nextId) && SerialsOk(outbox)
    ensures var outbox' := PublishedOutbox(outbox, e, token, now);
            OutboxOk(outbox', accepted, now, nextId) && SerialsOk(outbox')
  {
  }

  lemma OutboxAfterReject(outbox: OutboxTable, accepted: Registry, now: nat, nextId: nat, e: EventId, token: nat)
    requires OutboxOk(outbox, accepted, now, nextId) && SerialsOk(outbox)
    ensures var outbox' := RejectedOutbox(outbox, e, token);
            OutboxOk(outbox', accepted, now, nextId) && SerialsOk(outbox')
  {
  }

  lemma AdvancingRound(rounds: map<nat, Round>, t: nat, accepted: Registry, nextId: nat)
    requires RoundsOk(rounds, accepted, nextId) && t in rounds
    ensures RoundsOk(rounds - {t}, accepted, nextId) && RoundsOk(Advanced(rounds, t), accepted, nextId)
  {
    if |rounds[t].items| > 1 {
      assert ItemsOk(rounds[t].items[1..], accepted);
    }
    hide ItemsOk;
  }

  lemma MarkKeepsShape(cfg: Config, s: State, t: nat, db: Db)
    requires WellShaped(cfg, s) && t in s.rounds && s.rounds[t].items != []
    ensures WellShaped(cfg, DoMarkPublished(s, t, db)) && WellShaped(cfg, DoMarkRejected(s, t, db))
  {
    hide EventsOk; hide OutboxOk; hide SerialsOk; hide LettersOk; hide BrokerOk; hide HandlingsOk; hide HoldersOk;
    hide RoundsOk; hide RetriesOk; hide ReplaysOk; hide Accepted; hide PublishedOutbox; hide RejectedOutbox;
    hide Advanced;
    OutboxAfterPublish(s.outbox, Accepted(s.events), s.now, s.nextId, s.rounds[t].items[0].event, t);
    OutboxAfterReject(s.outbox, Accepted(s.events), s.now, s.nextId, s.rounds[t].items[0].event, t);
    AdvancingRound(s.rounds, t, Accepted(s.events), s.nextId);
  }

  // ----- worker

  lemma DeliverKeepsShape(cfg: Config, s: State, m: nat)
    requires WellShaped(cfg, s) && m in s.broker
    ensures WellShaped(cfg, DoDeliver(s, m))
  {
    hide EventsOk; hide OutboxOk; hide LettersOk; hide RoundsOk; hide RetriesOk; hide ReplaysOk; hide SerialsOk;
    hide Accepted;
    NextId(cfg, s);
  }

  lemma ClaimKeepsShape(cfg: Config, s: State, t: nat, stamp: nat, db: Db)
    requires WellShaped(cfg, s) && WorkerCan(s, Claim(t, stamp, db))
    ensures WellShaped(cfg, DoClaim(cfg, s, t, stamp, db))
  {
    hide EventsOk; hide OutboxOk; hide SerialsOk; hide LettersOk; hide BrokerOk; hide HandlingsOk; hide HoldersOk;
    hide RoundsOk; hide RetriesOk; hide ReplaysOk; hide Accepted;
    EventsAfterClaim(s.events, s.letters, s.now, s.handlings[t].event, stamp, cfg.processingLease);
    Entering(cfg, s, t, DoClaim(cfg, s, t, stamp, db).handlings[t].phase, stamp, s.letters);
  }

  /** Steps that only move a handling to another phase. */
  lemma MoveKeepsShape(cfg: Config, s: State, t: nat, phase: Phase)
    requires WellShaped(cfg, s) && t in s.handlings && PhaseOk(cfg, phase) && !phase.Buried?
    ensures WellShaped(cfg, s.(handlings := Moved(s, t, phase)))
  {
    hide EventsOk; hide OutboxOk; hide SerialsOk; hide LettersOk; hide BrokerOk; hide HandlingsOk; hide HoldersOk;
    hide RoundsOk; hide RetriesOk; hide ReplaysOk; hide Accepted;
    HandlingFacts(cfg, s, Accepted(s.events), t);
    Entering(cfg, s, t, phase, s.handlings[t].stamp, s.letters);
  }

  lemma FinishKeepsShape(cfg: Config, s: State, t: nat, status: Status, attempts: nat, db: Db)
    requires WellShaped(cfg, s) && t in s.handlings
    requires status.Processed? || (status.Failed? && s.handlings[t].event in s.letters)
    ensures WellShaped(cfg, DoFinish(s, t, status, attempts, db))
  {
    hide EventsOk; hide OutboxOk; hide SerialsOk; hide LettersOk; hide BrokerOk; hide HandlingsOk; hide HoldersOk;
    hide RoundsOk; hide RetriesOk; hide ReplaysOk; hide Accepted; hide FinishedEvents;
    HandlingFacts(cfg, s, Accepted(s.events), t);
    EventsAfterFinish(s.events, s.letters, s.now, s.handlings[t].event, status, attempts);
    Entering(cfg, s, t, DoFinish(s, t, status, attempts, db).handlings[t].phase, s.handlings[t].stamp, s.letters);
  }

  lemma LettersAfterBurial(cfg: Config, letters: LetterTable, accepted: Registry, e: EventId, now: nat)
    requires LettersOk(cfg, letters, accepted) && e in accepted
    ensures var letters' := BuriedLetters(letters, e, accepted[e], cfg.maxRetries + 1, now);
            LettersOk(cfg, letters', accepted) && letters'.Keys == letters.Keys + {e}
  {
  }

  lemma SaveDeadLetterKeepsShape(cfg: Config, s: State, t: nat, db: Db)
    requires WellShaped(cfg, s) && t in s.handlings
    ensures WellShaped(cfg, DoSaveDeadLetter(cfg, s, t, db))
  {
    hide EventsOk; hide OutboxOk; hide SerialsOk; hide LettersOk; hide BrokerOk; hide HandlingsOk; hide HoldersOk;
    hide RoundsOk; hide RetriesOk; hide ReplaysOk; hide Accepted; hide BuriedLetters;
    var s' := DoSaveDeadLetter(cfg, s, t, db);
    HandlingFacts(cfg, s, Accepted(s.events), t);
    LettersAfterBurial(cfg, s.letters, Accepted(s.events), s.handlings[t].event, s.now);
    LettersGrow(cfg, s, Accepted(s.events), s'.letters);
    Entering(cfg, s, t, s'.handlings[t].phase, s.handlings[t].stamp, s'.letters);
  }

  lemma SettleKeepsShape(cfg: Config, s: State, t: nat)
    requires WellShaped(cfg, s) && WorkerCan(s, Settle(t))
    ensures WellShaped(cfg, DoSettle(s, t))
  {
    hide EventsOk; hide OutboxOk; hide SerialsOk; hide LettersOk; hide RoundsOk; hide RetriesOk; hide ReplaysOk;
    hide Accepted; hide PhaseOk;
  }

  lemma MoveStepKeepsShape(cfg: Config, s: State, step: WorkerStep)
    requires WellShaped(cfg, s) && WorkerCan(s, step)
    requires step.ReadStatus? || step.StartCall? || step.FinishCall? || step.Wake?
    ensures WellShaped(cfg, WorkerDoes(cfg, s, step))
  {
    hide EventsOk; hide OutboxOk; hide SerialsOk; hide LettersOk; hide BrokerOk; hide HandlingsOk; hide HoldersOk;
    hide RoundsOk; hide RetriesOk; hide ReplaysOk;
    HandlingFacts(cfg, s, Accepted(s.events), step.tag);
    hide WellShaped;
    MoveKeepsShape(cfg, s, step.tag, WorkerDoes(cfg, s, step).handlings[step.tag].phase);
  }

  lemma FinishStepKeepsShape(cfg: Config, s: State, step: WorkerStep)
    requires WellShaped(cfg, s) && WorkerCan(s, step) && (step.MarkProcessed? || step.MarkFailed?)
    ensures WellShaped(cfg, WorkerDoes(cfg, s, step))
  {
    hide EventsOk; hide OutboxOk; hide SerialsOk; hide LettersOk; hide BrokerOk; hide HandlingsOk; hide HoldersOk;
    hide RoundsOk; hide RetriesOk; hide ReplaysOk;
    HandlingFacts(cfg, s, Accepted(s.events), step.tag);
    hide WellShaped;
    if step.MarkProcessed? {
      FinishKeepsShape(cfg, s, step.tag, Processed, s.handlings[step.tag].phase.attempt, step.db);
    } else {
      FinishKeepsShape(cfg, s, step.tag, Failed, cfg.maxRetries + 1, step.db);
    }
  }

  lemma WorkerKeepsShape(cfg: Config, s: State, step: WorkerStep)
    requires WellShaped(cfg, s) && WorkerCan(s, step)
    ensures WellShaped(cfg, WorkerDoes(cfg, s, step))
  {
    hide WellShaped;
    match step
    case Deliver(m) => DeliverKeepsShape(cfg, s, m);
    case Claim(t, stamp, db) => ClaimKeepsShape(cfg, s, t, stamp, db);
    case SaveDeadLetter(t, db) => SaveDeadLetterKeepsShape(cfg, s, t, db);
    case Settle(t) => SettleKeepsShape(cfg, s, t);
    case MarkProcessed(_, _) => FinishStepKeepsShape(cfg, s, step);
    case MarkFailed(_, _) => FinishStepKeepsShape(cfg, s, step);
    case _ => MoveStepKeepsShape(cfg, s, step);
  }

  // ----- replays

  lemma ClaimLettersKeepsShape(cfg: Config, s: State, stamp: nat, batch: seq<EventId>)
    requires WellShaped(cfg, s) && ReplayerCan(cfg, s, ClaimLetters(stamp, batch))
    ensures WellShaped(cfg, DoClaimLetters(s, batch))
  {
    hide OutboxOk; hide SerialsOk; hide BrokerOk; hide HoldersOk; hide RoundsOk; hide Accepted; hide PhaseOk;
    NextId(cfg, s);
  }

  lemma LettersAfterReplay(cfg: Config, letters: LetterTable, accepted: Registry, e: EventId, now: nat)
    requires LettersOk(cfg, letters, accepted)
    ensures LettersOk(cfg, ReplayedLetters(letters, e, now), accepted)
    ensures ReplayedLetters(letters, e, now).Keys == letters.Keys
    ensures e in letters ==> e in accepted
  {
  }

  lemma ReplayedKeepsShape(cfg: Config, s: State, e: EventId, db: Db,
                           retries: map<nat, RetryRound>, replays: map<nat, EventId>)
    requires WellShaped(cfg, s) && e in s.letters
    requires RetriesOk(retries, s.letters, s.nextId) && ReplaysOk(replays, s.letters, s.nextId)
    ensures WellShaped(cfg, Replayed(s, e, db, retries, replays))
  {
    hide EventsOk; hide OutboxOk; hide SerialsOk; hide LettersOk; hide BrokerOk; hide HandlingsOk; hide HoldersOk;
    hide RoundsOk; hide RetriesOk; hide ReplaysOk; hide ReopenedOutbox; hide ReplayedEvents; hide ReplayedLetters;
    var s1 := s.(retries := retries, replays := replays, nextId := s.nextId + 1);
    NextId(cfg, s1.(nextId := s.nextId));
    LettersAfterReplay(cfg, s.letters, Accepted(s.events), e, s.now);
    EventsAfterReplay(s.events, s.letters, s.now, e);
    OutboxAfterReplay(s.outbox, Accepted(s.events), s.now, s.nextId, e, s.events[e].content);
    hide Accepted;
    var s' := Replayed(s, e, db, retries, replays);
    LettersGrow(cfg, s1.(events := s'.events), Accepted(s.events), s'.letters);
  }

  lemma RetryFacts(retries: map<nat, RetryRound>, c: nat, stage: ReplayStage, letters: LetterTable, nextId: nat)
    requires RetriesOk(retries, letters, nextId) && c in retries
    ensures RetriesOk(AdvancedRetries(retries, c), letters, nextId)
    ensures RetriesOk(retries[c := retries[c].(stage := stage)], letters, nextId)
    ensures retries[c].items[0] in letters
  {
  }

  lemma LettersAfterReschedule(cfg: Config, letters: LetterTable, accepted: Registry, e: EventId, at: int)
    requires LettersOk(cfg, letters, accepted)
    ensures var letters' := RescheduledLetters(letters, e, at);
            LettersOk(cfg, letters', accepted) && letters'.Keys == letters.Keys
  {
  }

  lemma RescheduleKeepsShape(cfg: Config, s: State, c: nat, delay: int, db: Db)
    requires WellShaped(cfg, s) && Retrying(s, c, Rescheduling)
    ensures WellShaped(cfg, DoReschedule(s, c, delay, db))
  {
    hide EventsOk; hide OutboxOk; hide SerialsOk; hide LettersOk; hide BrokerOk; hide HandlingsOk; hide HoldersOk;
    hide RoundsOk; hide RetriesOk; hide ReplaysOk; hide Accepted; hide RescheduledLetters; hide AdvancedRetries;
    var s' := DoReschedule(s, c, delay, db);
    RetryFacts(s.retries, c, Reading, s.letters, s.nextId);
    LettersAfterReschedule(cfg, s.letters, Accepted(s.events), s.retries[c].items[0], s.now + delay);
    LettersGrow(cfg, s.(retries := s'.retries), Accepted(s.events), s'.letters);
  }

  lemma RetryKeepsShape(cfg: Config, s: State, c: nat, ok: bool, db: Db)
    requires WellShaped(cfg, s) && c in s.retries && s.retries[c].items != []
    ensures WellShaped(cfg, DoRetryRead(s, c, ok)) && WellShaped(cfg, DoRetryCommit(s, c, db))
  {
    hide EventsOk; hide OutboxOk; hide SerialsOk; hide LettersOk; hide BrokerOk; hide HandlingsOk; hide HoldersOk;
    hide RoundsOk; hide RetriesOk; hide ReplaysOk; hide Accepted; hide AdvancedRetries; hide Replayable;
    hide Replayed;
    RetryFacts(s.retries, c, DoRetryRead(s, c, ok).retries[c].stage, s.letters, s.nextId);
    RetryFacts(s.retries, c, Rescheduling, s.letters, s.nextId);
    var retries := if db.Done? then AdvancedRetries(s.retries, c)
        else s.retries[c := s.retries[c].(stage := Rescheduling)];
    ReplayedKeepsShape(cfg, s, s.retries[c].items[0], db, retries, s.replays);
  }

  lemma ReplayKeepsShape(cfg: Config, s: State, step: ReplayerStep)
    requires WellShaped(cfg, s) && ReplayerCan(cfg, s, step) && (step.ReplayRead? || step.ReplayCommit?)
    ensures WellShaped(cfg, ReplayerDoes(cfg, s, step))
  {
    hide EventsOk; hide OutboxOk; hide SerialsOk; hide LettersOk; hide BrokerOk; hide HandlingsOk; hide HoldersOk;
    hide RoundsOk; hide RetriesOk; hide Accepted; hide Replayed;
    if step.ReplayRead? {
      NextId(cfg, s);
    } else {
      ReplayedKeepsShape(cfg, s, s.replays[step.call], step.db, s.retries, s.replays - {step.call});
    }
  }

  lemma ReplayerKeepsShape(cfg: Config, s: State, step: ReplayerStep)
    requires WellShaped(cfg, s) && ReplayerCan(cfg, s, step)
    ensures WellShaped(cfg, ReplayerDoes(cfg, s, step))
  {
    hide WellShaped;
    match step
    case ClaimLetters(stamp, batch) => ClaimLettersKeepsShape(cfg, s, stamp, batch);
    case RetryRead(c, ok) => RetryKeepsShape(cfg, s, c, ok, Done);
    case RetryCommit(c, db) => RetryKeepsShape(cfg, s, c, true, db);
    case Reschedule(c, delay, db) => RescheduleKeepsShape(cfg, s, c, delay, db);
    case _ => ReplayKeepsShape(cfg, s, step);
  }

  lemma EnvironmentKeepsShape(cfg: Config, s: State, step: EnvironmentStep)
    requires WellShaped(cfg, s) && EnvironmentCan(s, step)
    ensures WellShaped(cfg, EnvironmentDoes(s, step))
  {
    hide WellShaped;
    match step
    case Tick(d) => TickKeepsShape(cfg, s, d);
    case Accept(e, content) => AcceptKeepsShape(cfg, s, e, content);
    case Crash(agents) => CrashKeepsShape(cfg, s, agents);
    case LoseConnection(tags) => LoseConnectionKeepsShape(cfg, s, tags);
  }

  lemma DispatcherKeepsShape(cfg: Config, s: State, step: DispatcherStep)
    requires WellShaped(cfg, s) && DispatcherCan(cfg, s, step)
    ensures WellShaped(cfg, DispatcherDoes(cfg, s, step))
  {
    hide WellShaped;
    match step
    case ClaimBatch(stamp, batch) => ClaimBatchKeepsShape(cfg, s, stamp, batch);
    case Publish(t, confirmed, enqueued) => PublishKeepsShape(cfg, s, t, confirmed, enqueued);
    case MarkPublished(t, db) => MarkKeepsShape(cfg, s, t, db);
    case MarkRejected(t, db) => MarkKeepsShape(cfg, s, t, db);
  }

  lemma StepKeepsShape(cfg: Config, s: State, step: Step)
    requires WellShaped(cfg, s) && Enabled(cfg, s, step)
    ensures WellShaped(cfg, Apply(cfg, s, step))
  {
    hide WellShaped; hide EnvironmentDoes; hide DispatcherDoes; hide WorkerDoes; hide ReplayerDoes;
    hide EnvironmentCan; hide DispatcherCan; hide WorkerCan; hide ReplayerCan;
    match step
    case Environment(env) => EnvironmentKeepsShape(cfg, s, env);
    case Dispatcher(dispatch) => DispatcherKeepsShape(cfg, s, dispatch);
    case Worker(work) => WorkerKeepsShape(cfg, s, work);
    case Replayer(replay) => ReplayerKeepsShape(cfg, s, replay);
  }

  /** Every reachable state is well shaped. */
  lemma {:induction false} RunShape(cfg: Config, r: Run)
    requires Valid(cfg, r)
    ensures WellShaped(cfg, Last(cfg, r))
  {
    match r
    case Start =>
    case Then(p, step) =>
      hide WellShaped; hide Apply; hide Enabled;
      RunShape(cfg, p);
      StepKeepsShape(cfg, Last(cfg, p), step);
  }

  lemma AllHandlings(cfg: Config, s: State)
    requires WellShaped(cfg, s)
    ensures forall t | t in s.handlings :: t < s.nextId && PhaseOk(cfg, s.handlings[t].phase)
  {
  }

  lemma AllRetries(cfg: Config, s: State)
    requires WellShaped(cfg, s)
    ensures forall c | c in s.retries :: c < s.nextId && Distinct(s.retries[c].items)
  {
  }
}
