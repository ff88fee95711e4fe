/** Every column of every table, over all runs: which steps write it, what they write, and that nothing else does. The
    conditions are read off the log and the rows' own fields. From these laws follow the histories of the columns that
    schedule work: when a row was reserved, when a letter is due, when it was replayed, how often it was claimed. */
module Columns {
  import opened Rows
  import opened Protocol
  import opened Shape
  import opened Frames

  // ----- which step writes the row of `e`

  predicate Accepts(step: Step, e: EventId) {
    step.Environment? && step.env.Accept? && step.env.event == e
  }

  /** A claim UPDATE that reaches the table while the event is queued, or in processing with its lease run out. */
  predicate Starts(cfg: Config, s: State, step: Step, e: EventId) {
    && step.Worker? && step.work.Claim? && !step.work.db.Refused?
    && step.work.tag in s.handlings && s.handlings[step.work.tag].event == e && e in s.events
    && (|| s.events[e].status == Queued
        || (&& s.events[e].status == Processing && s.events[e].startedAt.Some?
            && s.events[e].startedAt.value + cfg.processingLease <= step.work.stamp))
  }

  predicate Succeeds(s: State, step: Step, e: EventId) {
    && step.Worker? && step.work.MarkProcessed? && !step.work.db.Refused?
    && step.work.tag in s.handlings && s.handlings[step.work.tag].event == e
    && s.handlings[step.work.tag].phase.Succeeded?
  }

  predicate Fails(s: State, step: Step, e: EventId) {
    && step.Worker? && step.work.MarkFailed? && !step.work.db.Refused?
    && step.work.tag in s.handlings && s.handlings[step.work.tag].event == e
  }

  predicate Reserves(step: Step, e: EventId) {
    step.Dispatcher? && step.dispatch.ClaimBatch? && e in step.dispatch.batch
  }

  /** The call works on `e` under the token the unpublished row carries. */
  predicate OwnsRow(s: State, token: nat, e: EventId) {
    && token in s.rounds && s.rounds[token].items != [] && s.rounds[token].items[0].event == e
    && e in s.outbox && s.outbox[e].publishedAt == None && s.outbox[e].token == Some(token)
  }

  predicate Publishes(s: State, step: Step, e: EventId) {
    step.Dispatcher? && step.dispatch.MarkPublished? && !step.dispatch.db.Refused? && OwnsRow(s, step.dispatch.token, e)
  }

  predicate Frees(s: State, step: Step, e: EventId) {
    step.Dispatcher? && step.dispatch.MarkRejected? && !step.dispatch.db.Refused? && OwnsRow(s, step.dispatch.token, e)
  }

  predicate Buries(s: State, step: Step, e: EventId) {
    && step.Worker? && step.work.SaveDeadLetter? && !step.work.db.Refused?
    && step.work.tag in s.handlings && s.handlings[step.work.tag].event == e
  }

  predicate TakesLetter(step: Step, e: EventId) {
    step.Replayer? && step.replay.ClaimLetters? && e in step.replay.batch
  }

  /** A reschedule that reaches the table; it finds the row only while replayed_at is NULL. */
  predicate Postpones(s: State, step: Step, e: EventId) {
    && step.Replayer? && step.replay.Reschedule? && !step.replay.db.Refused?
    && step.replay.call in s.retries && s.retries[step.replay.call].items != []
    && s.retries[step.replay.call].items[0] == e && e in s.letters && s.letters[e].replayedAt == None
  }

  // ----- the columns of events

  ghost predicate EventLaw(cfg: Config, s: State, step: Step, e: EventId, row: EventRow, row': EventRow) {
    && row'.content == row.content
    && row'.status == (if Starts(cfg, s, step, e) then Processing
                       else if Succeeds(s, step, e) then Processed
                       else if Fails(s, step, e) then Failed
                       else if EffectiveReplay(s, step, e) then Queued
                       else row.status)
    && row'.attempts == (if Succeeds(s, step, e) then s.handlings[step.work.tag].phase.attempt
                         else if Fails(s, step, e) then cfg.maxRetries + 1
                         else if EffectiveReplay(s, step, e) then 0
                         else row.attempts)
    && row'.startedAt == (if Starts(cfg, s, step, e) then Some(step.work.stamp)
                          else if Succeeds(s, step, e) || Fails(s, step, e) || EffectiveReplay(s, step, e) then None
                          else row.startedAt)
  }

  lemma WorkerEvents(cfg: Config, s: State, step: WorkerStep, e: EventId)
    requires WorkerCan(s, step)
    ensures var s' := WorkerDoes(cfg, s, step);
            && (e in s'.events <==> e in s.events)
            && (e in s.events ==> EventLaw(cfg, s, Worker(step), e, s.events[e], s'.events[e]))
  {
    WorkerFrame(cfg, s, step);
  }

  /** Each event row: inserted once by its acceptance, never deleted, and each column written as the law says. */
  lemma EventColumns(cfg: Config, s: State, step: Step, e: EventId)
    requires Enabled(cfg, s, step)
    ensures var s' := Apply(cfg, s, step);
            && (e in s'.events <==> e in s.events || Accepts(step, e))
            && (Accepts(step, e) ==> s'.events[e] == EventRow(step.env.content, Queued, 0, None))
            && (e in s.events ==> EventLaw(cfg, s, step, e, s.events[e], s'.events[e]))
  {
    hide EnvironmentDoes; hide DispatcherDoes; hide WorkerDoes; hide ReplayerDoes;
    hide DispatcherCan; hide WorkerCan; hide ReplayerCan;
    match step {
      case Environment(env) => EnvironmentFrame(s, env);
      case Dispatcher(dispatch) => DispatcherFrame(cfg, s, dispatch);
      case Worker(work) => WorkerEvents(cfg, s, work, e);
      case Replayer(replay) => ReplayerFrame(cfg, s, replay);
    }
  }

  // ----- the columns of outbox

  ghost predicate OutboxLaw(s: State, step: Step, e: EventId, row: OutboxRow, row': OutboxRow) {
    var marked := Publishes(s, step, e) || Frees(s, step, e);
    && row'.serial == row.serial && row'.content == row.content
    && row'.attempts == (if Frees(s, step, e) then row.attempts + 1
                         else if CommitsReplay(s, step, e) then 0
                         else row.attempts)
    && row'.publishedAt == (if Publishes(s, step, e) then Some(s.now)
                            else if CommitsReplay(s, step, e) then None
                            else row.publishedAt)
    && row'.token == (if Reserves(step, e) then Some(s.nextId) else if marked then None else row.token)
    && row'.dispatchingAt == (if Reserves(step, e) then Some(step.dispatch.stamp)
                              else if marked then None
                              else row.dispatchingAt)
  }

  lemma DispatcherOutbox(cfg: Config, s: State, step: DispatcherStep, e: EventId)
    requires DispatcherCan(cfg, s, step)
    ensures var s' := DispatcherDoes(cfg, s, step);
            && (e in s'.outbox <==> e in s.outbox)
            && (e in s.outbox ==> OutboxLaw(s, Dispatcher(step), e, s.outbox[e], s'.outbox[e]))
  {
  }

  lemma EnvironmentOutbox(s: State, step: EnvironmentStep, e: EventId)
    requires EnvironmentCan(s, step) && s.outbox.Keys == s.events.Keys
    ensures var s' := EnvironmentDoes(s, step);
            && (e in s'.outbox <==> e in s.outbox || Accepts(Environment(step), e))
            && (e in s.outbox ==> OutboxLaw(s, Environment(step), e, s.outbox[e], s'.outbox[e]))
            && (Accepts(Environment(step), e) ==>
                  s'.outbox[e] == OutboxRow(s.nextId, step.content, 0, None, None, None))
  {
  }

  lemma ReplayerOutbox(cfg: Config, s: State, step: ReplayerStep, e: EventId)
    requires ReplayerCan(cfg, s, step) && (CommitsReplay(s, Replayer(step), e) ==> e in s.outbox)
    ensures var s' := ReplayerDoes(cfg, s, step);
            && (e in s'.outbox <==> e in s.outbox)
            && (e in s.outbox ==> OutboxLaw(s, Replayer(step), e, s.outbox[e], s'.outbox[e]))
  {
    hide ReplayerDoes; hide ReplayerCan;
    ReplayerFrame(cfg, s, step);
  }

  /** Each outbox row: inserted with its event under a new serial, never deleted, and each column written as the law
      says. A replay resets the attempts and reopens the row, and leaves token and dispatching_at alone. */
  lemma OutboxColumns(cfg: Config, r: Run, step: Step, e: EventId)
    requires Valid(cfg, Then(r, step))
    ensures var s, s' := Last(cfg, r), Last(cfg, Then(r, step));
            && (e in s'.outbox <==> e in s.outbox || Accepts(step, e))
            && (e in s.outbox ==> OutboxLaw(s, step, e, s.outbox[e], s'.outbox[e]))
            && (Accepts(step, e) ==> s'.outbox[e] == OutboxRow(s.nextId, step.env.content, 0, None, None, None))
  {
    var s := Last(cfg, r);
    SameKeys(cfg, r);
    if CommitsReplay(s, step, e) {
      ReplayedExists(cfg, r, step, e);
    }
    hide EnvironmentDoes; hide EnvironmentCan; hide DispatcherDoes; hide WorkerDoes; hide ReplayerDoes;
    hide DispatcherCan; hide WorkerCan; hide ReplayerCan; hide OwnsRow;
    match step {
      case Environment(env) => hide OutboxLaw; EnvironmentOutbox(s, env, e);
      case Dispatcher(dispatch) => hide OutboxLaw; DispatcherOutbox(cfg, s, dispatch, e);
      case Worker(work) => WorkerFrame(cfg, s, work);
      case Replayer(replay) => hide OutboxLaw; ReplayerOutbox(cfg, s, replay, e);
    }
  }

  lemma SameKeys(cfg: Config, r: Run)
    requires Valid(cfg, r)
    ensures Last(cfg, r).outbox.Keys == Last(cfg, r).events.Keys
  {
    RunShape(cfg, r);
    hide EventsOk; hide SerialsOk; hide LettersOk; hide BrokerOk; hide HandlingsOk; hide HoldersOk; hide RoundsOk;
    hide RetriesOk; hide ReplaysOk;
  }

  lemma ReplayedExists(cfg: Config, r: Run, step: Step, e: EventId)
    requires Valid(cfg, Then(r, step)) && CommitsReplay(Last(cfg, r), step, e)
    ensures e in Last(cfg, r).outbox && e in Last(cfg, r).letters
  {
    RunShape(cfg, r);
    hide EventsOk; hide SerialsOk; hide BrokerOk; hide HandlingsOk; hide HoldersOk; hide RoundsOk;
  }

  // ----- the columns of dead_letters

  ghost predicate LetterLaw(cfg: Config, s: State, step: Step, e: EventId, letter: Letter, letter': Letter) {
    && letter'.content == letter.content
    && letter'.attempts == (if Buries(s, step, e) then cfg.maxRetries + 1 else letter.attempts)
    && letter'.replayAttempts == (if TakesLetter(step, e) then letter.replayAttempts + 1 else letter.replayAttempts)
    && letter'.nextRetryAt == (if Buries(s, step, e) then Some(s.now)
                               else if TakesLetter(step, e) then None
                               else if Postpones(s, step, e) then Some(s.now + step.replay.delay)
                               else letter.nextRetryAt)
    && letter'.replayedAt == (if Buries(s, step, e) then None
                              else if CommitsReplay(s, step, e) then Some(s.now)
                              else letter.replayedAt)
  }

  lemma WorkerLetters(cfg: Config, s: State, step: WorkerStep, e: EventId)
    requires WorkerCan(s, step)
    ensures var s' := WorkerDoes(cfg, s, step);
            && (e in s'.letters <==> e in s.letters || Buries(s, Worker(step), e))
            && (e in s.letters ==> LetterLaw(cfg, s, Worker(step), e, s.letters[e], s'.letters[e]))
            && (e !in s.letters && e in s'.letters ==>
                  s'.letters[e] ==
                  Letter(s.handlings[step.tag].content, cfg.maxRetries + 1, 0, Some(s.now), None))
  {
    WorkerFrame(cfg, s, step);
  }

  lemma ReplayerLetters(cfg: Config, s: State, step: ReplayerStep, e: EventId)
    requires ReplayerCan(cfg, s, step)
    ensures var s' := ReplayerDoes(cfg, s, step);
            && (e in s'.letters <==> e in s.letters)
            && (e in s.letters ==> LetterLaw(cfg, s, Replayer(step), e, s.letters[e], s'.letters[e]))
  {
    ReplayerFrame(cfg, s, step);
  }

  /** Each dead letter: inserted by the first burial, never deleted, and each column written as the law says. A renewed
      burial makes it due at once, takes the replay stamp off and keeps the attempts charged; a reschedule finds only
      letters not replayed. */
  lemma LetterColumns(cfg: Config, s: State, step: Step, e: EventId)
    requires Enabled(cfg, s, step)
    ensures var s' := Apply(cfg, s, step);
            && (e in s'.letters <==> e in s.letters || Buries(s, step, e))
            && (e in s.letters ==> LetterLaw(cfg, s, step, e, s.letters[e], s'.letters[e]))
            && (e !in s.letters && e in s'.letters ==>
                  s'.letters[e] ==
                  Letter(s.handlings[step.work.tag].content, cfg.maxRetries + 1, 0, Some(s.now), None))
  {
    hide EnvironmentDoes; hide DispatcherDoes; hide WorkerDoes; hide ReplayerDoes;
    hide DispatcherCan; hide WorkerCan; hide ReplayerCan;
    match step {
      case Environment(env) => EnvironmentFrame(s, env);
      case Dispatcher(dispatch) => DispatcherFrame(cfg, s, dispatch);
      case Worker(work) => WorkerLetters(cfg, s, work, e);
      case Replayer(replay) => ReplayerLetters(cfg, s, replay, e);
    }
  }

  /** Only a burial of the same event takes a replay stamp off. */
  lemma StampCleared(cfg: Config, r: Run, step: Step, e: EventId)
    requires Valid(cfg, Then(r, step))
    requires e in Last(cfg, r).letters && Last(cfg, r).letters[e].replayedAt != None
    ensures e in Last(cfg, Then(r, step)).letters
    ensures Last(cfg, Then(r, step)).letters[e].replayedAt == None <==>
            && step.Worker? && step.work.SaveDeadLetter? && step.work.db != Refused
            && Last(cfg, r).handlings[step.work.tag].event == e
  {
    LetterColumns(cfg, Last(cfg, r), step, e);
    hide Apply; hide EffectiveReplay;
  }

  /** A reschedule changes no column of a letter that is stamped as replayed. */
  lemma ReplayedLetterStays(cfg: Config, r: Run, call: nat, delay: int, db: Db, e: EventId)
    requires Valid(cfg, Then(r, Replayer(Reschedule(call, delay, db))))
    requires e in Last(cfg, r).letters && Last(cfg, r).letters[e].replayedAt != None
    ensures var letters := Last(cfg, Then(r, Replayer(Reschedule(call, delay, db)))).letters;
            e in letters && letters[e] == Last(cfg, r).letters[e]
  {
    LetterColumns(cfg, Last(cfg, r), Replayer(Reschedule(call, delay, db)), e);
    hide Apply;
  }

  // ----- messages

  /** The settlement of the delivery under which the message is held reaches the broker. */
  predicate Settles(s: State, step: Step, m: nat, requeue: bool) {
    && step.Worker? && step.work.Settle? && step.work.tag in s.handlings
    && s.handlings[step.work.tag].message == m && m in s.broker && s.broker[m].holder == Some(step.work.tag)
    && s.handlings[step.work.tag].phase.Settling?
    && (s.handlings[step.work.tag].phase.settlement == Protocol.Requeue) == requeue
  }

  /** A publish that reaches the broker, whether or not its confirm comes back. */
  predicate Enqueues(s: State, step: Step, m: nat) {
    && step.Dispatcher? && step.dispatch.Publish? && step.dispatch.enqueued && m == s.nextId
    && step.dispatch.token in s.rounds && s.rounds[step.dispatch.token].items != []
  }

  /** The step takes the message from its holder without settling it. */
  predicate Disconnects(s: State, step: Step, m: nat) {
    && step.Environment? && step.env.LoseConnection?
    && m in s.broker && s.broker[m].holder.Some? && s.broker[m].holder.value in step.env.tags
  }

  ghost predicate MessageLaw(s: State, step: Step, broker: map<nat, Message>, m: nat) {
    && (m in broker <==> (m in s.broker && !Settles(s, step, m, false)) || Enqueues(s, step, m))
    && (Enqueues(s, step, m) ==>
          var item := s.rounds[step.dispatch.token].items[0];
          broker[m] == Message(item.event, item.content, None))
    && (m in s.broker && m in broker ==>
          && broker[m].event == s.broker[m].event && broker[m].content == s.broker[m].content
          && broker[m].holder == (if step.Worker? && step.work.Deliver? && step.work.message == m then Some(s.nextId)
                                  else if Settles(s, step, m, true) || Disconnects(s, step, m) then None
                                  else s.broker[m].holder))
  }

  lemma EnvironmentMessages(s: State, step: EnvironmentStep, m: nat)
    requires EnvironmentCan(s, step)
    ensures MessageLaw(s, Environment(step), EnvironmentDoes(s, step).broker, m)
  {
  }

  lemma DispatcherMessages(cfg: Config, s: State, step: DispatcherStep, m: nat)
    requires DispatcherCan(cfg, s, step) && s.nextId !in s.broker
    ensures MessageLaw(s, Dispatcher(step), DispatcherDoes(cfg, s, step).broker, m)
  {
  }

  lemma WorkerMessages(cfg: Config, s: State, step: WorkerStep, m: nat)
    requires WorkerCan(s, step)
    ensures MessageLaw(s, Worker(step), WorkerDoes(cfg, s, step).broker, m)
  {
    WorkerFrame(cfg, s, step);
  }

  /** Each message: enqueued ready with the item of the publishing call, removed only by its holder's ack or drop, held
      only from its delivery until its holder's requeue or the loss of that very delivery's connection. */
  lemma MessageColumns(cfg: Config, s: State, step: Step, m: nat)
    requires Enabled(cfg, s, step) && s.nextId !in s.broker
    ensures MessageLaw(s, step, Apply(cfg, s, step).broker, m)
  {
    hide EnvironmentDoes; hide EnvironmentCan; hide DispatcherDoes; hide WorkerDoes; hide ReplayerDoes;
    hide DispatcherCan; hide WorkerCan; hide ReplayerCan;
    match step {
      case Environment(env) => hide MessageLaw; EnvironmentMessages(s, env, m);
      case Dispatcher(dispatch) => hide MessageLaw; DispatcherMessages(cfg, s, dispatch, m);
      case Worker(work) => hide MessageLaw; WorkerMessages(cfg, s, work, m);
      case Replayer(replay) => ReplayerFrame(cfg, s, replay);
    }
  }

  // ----- reservations

  /** Since when the row of `e` is reserved, by the log: the stamp of its latest claim, unless the call under that
      claim's token has marked the row since. */
  function ReservedSince(cfg: Config, r: Run, e: EventId): Option<nat>
    requires Valid(cfg, r)
  {
    match r
    case Start => None
    case Then(p, step) =>
      if Reserves(step, e) then Some(step.dispatch.stamp)
      else if Publishes(Last(cfg, p), step, e) || Frees(Last(cfg, p), step, e) then None
      else ReservedSince(cfg, p, e)
  }

  lemma {:induction false} ReservationHistory(cfg: Config, r: Run, e: EventId)
    requires Valid(cfg, r)
    ensures e in Last(cfg, r).outbox ==> Last(cfg, r).outbox[e].dispatchingAt == ReservedSince(cfg, r, e)
    ensures e !in Last(cfg, r).outbox ==> ReservedSince(cfg, r, e) == None
  {
    match r
    case Start =>
    case Then(p, step) =>
      ReservationHistory(cfg, p, e);
      OutboxColumns(cfg, p, step, e);
      ReservedExists(cfg, Last(cfg, p), step, e);
      hide Apply; hide Enabled; hide Accepts; hide CommitsReplay; hide Reserves; hide Publishes; hide Frees;
  }

  lemma ReservedExists(cfg: Config, s: State, step: Step, e: EventId)
    requires Enabled(cfg, s, step)
    ensures Reserves(step, e) || Publishes(s, step, e) || Frees(s, step, e) ==> e in s.outbox
    ensures Accepts(step, e) ==> !Reserves(step, e) && !Publishes(s, step, e) && !Frees(s, step, e)
  {
  }

  /** A claim takes a row only if it is unpublished and no lease of an earlier claim on it is running: two claims of a
      row with no mark between them are at least a dispatch lease apart. */
  lemma ClaimsApart(cfg: Config, r: Run, stamp: nat, batch: seq<EventId>, e: EventId)
    requires Valid(cfg, Then(r, Dispatcher(ClaimBatch(stamp, batch)))) && e in batch
    ensures e in Last(cfg, r).outbox && Last(cfg, r).outbox[e].publishedAt == None
    ensures Last(cfg, r).outbox[e].dispatchingAt == ReservedSince(cfg, r, e)
    ensures ReservedSince(cfg, r, e) == None || ReservedSince(cfg, r, e).value + cfg.dispatchLease <= stamp
  {
    ReservationHistory(cfg, r, e);
    hide ReservedSince; hide Valid; hide Last;
  }

  // ----- due times

  /** When the letter of `e` was replayed, by the log alone: the latest replay commit since its latest burial. */
  function ReplayedSince(cfg: Config, r: Run, e: EventId): Option<nat>
    requires Valid(cfg, r)
  {
    match r
    case Start => None
    case Then(p, step) =>
      if Buries(Last(cfg, p), step, e) then None
      else if CommitsReplay(Last(cfg, p), step, e) then Some(Last(cfg, p).now)
      else ReplayedSince(cfg, p, e)
  }

  /** When it is due, by the log alone: at its latest burial, or after the delay of a later reschedule that came before
      any replay; not at all once a scheduler has claimed it. */
  function DueSince(cfg: Config, r: Run, e: EventId): Option<int>
    requires Valid(cfg, r)
  {
    match r
    case Start => None
    case Then(p, step) =>
      if Buries(Last(cfg, p), step, e) then Some(Last(cfg, p).now)
      else if TakesLetter(step, e) then None
      else if PutsBack(Last(cfg, p), step, e) && ReplayedSince(cfg, p, e) == None
      then Some(Last(cfg, p).now + step.replay.delay)
      else DueSince(cfg, p, e)
  }

  predicate PutsBack(s: State, step: Step, e: EventId) {
    && step.Replayer? && step.replay.Reschedule? && !step.replay.db.Refused?
    && step.replay.call in s.retries && s.retries[step.replay.call].items != []
    && s.retries[step.replay.call].items[0] == e
  }

  /** How often schedulers have claimed it. */
  function TimesTaken(r: Run, e: EventId): nat {
    match r
    case Start => 0
    case Then(p, step) => TimesTaken(p, e) + if TakesLetter(step, e) then 1 else 0
  }

  /** The schedule of a letter is what the log says: next_retry_at, replayed_at and replay_attempts, in every run. */
  lemma {:induction false} LetterHistory(cfg: Config, r: Run, e: EventId)
    requires Valid(cfg, r)
    ensures e in Last(cfg, r).letters ==>
              && Last(cfg, r).letters[e].nextRetryAt == DueSince(cfg, r, e)
              && Last(cfg, r).letters[e].replayedAt == ReplayedSince(cfg, r, e)
              && Last(cfg, r).letters[e].replayAttempts == TimesTaken(r, e)
    ensures e !in Last(cfg, r).letters ==> TimesTaken(r, e) == 0
  {
    match r
    case Start =>
    case Then(p, step) =>
      LetterHistory(cfg, p, e);
      LetterColumns(cfg, Last(cfg, p), step, e);
      TakenExists(cfg, Last(cfg, p), step, e);
      hide Apply; hide Enabled; hide CommitsReplay; hide Buries; hide TakesLetter;
  }

  lemma TakenExists(cfg: Config, s: State, step: Step, e: EventId)
    requires Enabled(cfg, s, step)
    ensures TakesLetter(step, e) ==> e in s.letters
    ensures e in s.letters ==>
              (Postpones(s, step, e) <==> PutsBack(s, step, e) && s.letters[e].replayedAt == None)
    ensures TakesLetter(step, e) ==> !Buries(s, step, e)
  {
  }

  /** A scheduler claims a letter only when it is due and not replayed, and has been claimed less often than the
      maximum: by its columns, and by the log. */
  lemma LettersOnTime(cfg: Config, r: Run, stamp: nat, batch: seq<EventId>, e: EventId)
    requires Valid(cfg, Then(r, Replayer(ClaimLetters(stamp, batch)))) && e in batch
    ensures e in Last(cfg, r).letters
    ensures var letter := Last(cfg, r).letters[e];
            && letter.nextRetryAt == DueSince(cfg, r, e) && letter.nextRetryAt != None
            && letter.nextRetryAt.value <= stamp
            && letter.replayedAt == None && ReplayedSince(cfg, r, e) == None
            && letter.replayAttempts == TimesTaken(r, e) < cfg.retryMax
  {
    LetterHistory(cfg, r, e);
    hide DueSince; hide ReplayedSince; hide TimesTaken; hide Valid; hide Last;
  }
}
