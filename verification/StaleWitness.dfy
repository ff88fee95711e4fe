/** A run in which a worker is overtaken: two workers are at one event, the second processes it, and the first then
    records a failure over the success. */
module StaleWitness {
  import opened Rows
  import opened Protocol
  import opened LossWitness
  import opened Leases
  import opened Overtaking

  /** The worker with tag 3 has saved its dead letter and stalls; its lease runs out and its delivery returns. */
  const RETURNED := Then(Then(BURIED, Environment(Tick(10))), Environment(LoseConnection({3})))
  const REDELIVERED := Then(RETURNED, Worker(Deliver(2)))
  const OVERTAKEN := Then(REDELIVERED, Worker(Claim(4, 10, Done)))

  /** The worker with tag 4 processes the event, and then the first one writes. */
  const RECALLED := Then(OVERTAKEN, Worker(StartCall(4)))
  const SUCCEEDED := Then(RECALLED, Worker(FinishCall(4, true)))
  const PROCESSED := Then(SUCCEEDED, Worker(MarkProcessed(4, Done)))
  const OVERTURNED := Then(PROCESSED, Worker(MarkFailed(3, Done)))

  const STALE := Handling(2, ID, BODY, Buried, 0, 0)

  function Racing(row: EventRow, phase: Phase, stamp: nat): State {
    State(10, 5, map[ID := row], map[ID := ROW], map[ID := LETTER], map[2 := Message(ID, BODY, Some(4))],
        map[1 := ROUND],
          map[3 := STALE, 4 := Handling(2, ID, BODY, phase, stamp, 10)], map[], map[])
  }

  lemma ReturnedState()
    ensures Valid(CFG, RETURNED)
    ensures Last(CFG, RETURNED) ==
            State(10, 4, map[ID := EventRow(BODY, Processing, 0, Some(0))], map[ID := ROW], map[ID := LETTER],
                  map[2 := Message(ID, BODY, None)], map[1 := ROUND], map[3 := STALE], map[], map[])
  {
    BuriedState();
    var s := Apply(CFG, Last(CFG, BURIED), Environment(Tick(10)));
    assert Last(CFG, RETURNED.prefix) == s;
  }

  lemma RedeliveredState()
    ensures Valid(CFG, REDELIVERED)
    ensures Last(CFG, REDELIVERED) == Racing(EventRow(BODY, Processing, 0, Some(0)), Received, 0)
  {
    ReturnedState();
  }

  lemma OvertakenState()
    ensures Valid(CFG, OVERTAKEN)
    ensures Last(CFG, OVERTAKEN) == Racing(EventRow(BODY, Processing, 0, Some(10)), Claimed(1), 10)
  {
    RedeliveredState();
  }

  lemma RecalledState()
    ensures Valid(CFG, RECALLED)
    ensures Last(CFG, RECALLED) == Racing(EventRow(BODY, Processing, 0, Some(10)), Calling(1), 10)
  {
    OvertakenState();
  }

  lemma SucceededState()
    ensures Valid(CFG, SUCCEEDED)
    ensures Last(CFG, SUCCEEDED) == Racing(EventRow(BODY, Processing, 0, Some(10)), Succeeded(1), 10)
  {
    RecalledState();
  }

  lemma ProcessedState()
    ensures Valid(CFG, PROCESSED)
    ensures Last(CFG, PROCESSED) == Racing(EventRow(BODY, Processed, 1, None), Settling(Ack), 10)
  {
    SucceededState();
  }

  /** A claim at the end of the lease makes a second worker. */
  lemma ClaimOvertakes()
    ensures Valid(CFG, OVERTAKEN) && !NeverOvertaken(CFG, OVERTAKEN)
    ensures WorksOn(Last(CFG, OVERTAKEN), 3, ID) && WorksOn(Last(CFG, OVERTAKEN), 4, ID)
  {
    RedeliveredState();
    OvertakenState();
    assert WorksOn(Last(CFG, REDELIVERED), 3, ID);
  }

  /** The overtaken worker's failure replaces the success. */
  lemma SuccessOverturned()
    ensures Valid(CFG, PROCESSED) && IsProcessed(Last(CFG, PROCESSED), ID)
    ensures Valid(CFG, OVERTURNED) && Last(CFG, OVERTURNED).events[ID] == EventRow(BODY, Failed, 1, None)
  {
    ProcessedState();
  }
}
