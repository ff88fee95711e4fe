/** The rows the service keeps in PostgreSQL, and the guards and effects of its SQL statements on one row.
    Error texts, created_at and updated_at steer nothing and are not modelled. */
module Rows {

  type EventId = string

  datatype Option<+T> = None | Some(value: T)

  /** What a client submitted under an id: type, request id and payload (opaque JSON text). */
  datatype Content = Content(kind: string, requestId: string, payload: string)

  datatype Status = Queued | Processing | Processed | Failed

  datatype EventRow = EventRow(content: Content, status: Status, attempts: nat, startedAt: Option<nat>)

  /** `serial` is the BIGSERIAL id; event_id is UNIQUE, so the table is keyed by event. */
  datatype OutboxRow = OutboxRow(serial: nat, content: Content, attempts: nat, publishedAt: Option<nat>,
                                 token: Option<nat>, dispatchingAt: Option<nat>)

  datatype Letter = Letter(content: Content, attempts: nat, replayAttempts: nat,
                           nextRetryAt: Option<int>, replayedAt: Option<nat>)

  type EventTable = map<EventId, EventRow>
  type OutboxTable = map<EventId, OutboxRow>
  type LetterTable = map<EventId, Letter>

  // ----- guards (the WHERE clauses; a comparison with NULL is not true)

  predicate Live(status: Status) {
    status.Queued? || status.Processing?
  }

  predicate Claimable(row: EventRow, stamp: nat, lease: nat) {
    || row.status.Queued?
    || (row.status.Processing? && row.startedAt.Some? && row.startedAt.value + lease <= stamp)
  }

  predicate Dispatchable(row: OutboxRow, stamp: nat, lease: nat) {
    && row.publishedAt.None?
    && (row.dispatchingAt.None? || row.dispatchingAt.value + lease <= stamp)
  }

  predicate Reserved(row: OutboxRow, token: nat) {
    row.publishedAt.None? && row.token == Some(token)
  }

  predicate Retryable(letter: Letter, stamp: nat, retryMax: nat) {
    && letter.replayedAt.None?
    && letter.nextRetryAt.Some?
    && letter.nextRetryAt.value <= stamp
    && letter.replayAttempts < retryMax
  }

  // ----- effects (whole tables after one statement)

  function ClaimedEvents(events: EventTable, e: EventId, stamp: nat, lease: nat): EventTable {
    if e in events && Claimable(events[e], stamp, lease)
    then events[e := events[e].(status := Processing, startedAt := Some(stamp))]
    else events
  }

  /** MarkProcessed and MarkFailed: unconditional apart from the id. */
  function FinishedEvents(events: EventTable, e: EventId, status: Status, attempts: nat): EventTable {
    if e in events then events[e := events[e].(status := status, attempts := attempts, startedAt := None)] else events
  }

  function ReplayedEvents(events: EventTable, e: EventId): EventTable {
    if e in events && events[e].status.Failed?
    then events[e := events[e].(status := Queued, attempts := 0, startedAt := None)]
    else events
  }

  function ReservedOutbox(outbox: OutboxTable, batch: seq<EventId>, token: nat, stamp: nat): OutboxTable {
    map e | e in outbox ::
      if e in batch then outbox[e].(token := Some(token), dispatchingAt := Some(stamp)) else outbox[e]
  }

  function PublishedOutbox(outbox: OutboxTable, e: EventId, token: nat, now: nat): OutboxTable {
    if e in outbox && Reserved(outbox[e], token)
    then outbox[e := outbox[e].(publishedAt := Some(now), token := None, dispatchingAt := None)]
    else outbox
  }

  function RejectedOutbox(outbox: OutboxTable, e: EventId, token: nat): OutboxTable {
    if e in outbox && Reserved(outbox[e], token)
    then outbox[e := outbox[e].(attempts := outbox[e].attempts + 1, token := None, dispatchingAt := None)]
    else outbox
  }

  /** The content a replay would insert; the read before it has found the row. */
  function ContentOf(events: EventTable, e: EventId): Content {
    if e in events then events[e].content else Content("", "", "")
  }

  /** Replay reopens the row and keeps token and dispatching_at; without a row it inserts one. */
  function ReopenedOutbox(outbox: OutboxTable, e: EventId, content: Content, serial: nat): OutboxTable {
    if e in outbox
    then outbox[e := outbox[e].(attempts := 0, publishedAt := None)]
    else outbox[e := OutboxRow(serial, content, 0, None, None, None)]
  }

  function BuriedLetters(letters: LetterTable, e: EventId, content: Content, attempts: nat, now: nat): LetterTable {
    if e in letters
    then letters[e := letters[e].(attempts := attempts, nextRetryAt := Some(now), replayedAt := None)]
    else letters[e := Letter(content, attempts, 0, Some(now), None)]
  }

  function ReplayedLetters(letters: LetterTable, e: EventId, now: nat): LetterTable {
    if e in letters then letters[e := letters[e].(replayedAt := Some(now))] else letters
  }

  function ClaimedLetters(letters: LetterTable, batch: seq<EventId>): LetterTable {
    map e | e in letters ::
      if e in batch then letters[e].(replayAttempts := letters[e].replayAttempts + 1, nextRetryAt := None)
      else letters[e]
  }

  function RescheduledLetters(letters: LetterTable, e: EventId, at: int): LetterTable {
    if e in letters && letters[e].replayedAt.None? then letters[e := letters[e].(nextRetryAt := Some(at))] else letters
  }
}
