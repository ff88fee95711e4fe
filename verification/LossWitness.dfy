/** A run of the protocol that loses an event: the replay commits between a dispatcher's publish and its mark. */
module LossWitness {
  import opened Rows
  import opened Protocol
  import opened NoLoss

  const CFG := Config(0, 1, 10, 10, 1, 1)
  const ID: EventId := "evt-001"
  const BODY := Content("payment.created", "", "{}")

  /** Accepted, claimed under token 1 and published as message 2; no mark yet. */
  const PUBLISHED :=
    Then(Then(Then(Start,
      Environment(Accept(ID, BODY))),
      Dispatcher(ClaimBatch(0, [ID]))),
      Dispatcher(Publish(1, true, true)))

  /** The delivery with tag 3 fails its only attempt, is buried and acknowledged. */
  const DELIVERED := Then(PUBLISHED, Worker(Deliver(2)))
  const CLAIMED := Then(DELIVERED, Worker(Claim(3, 0, Done)))
  const CALLED := Then(CLAIMED, Worker(StartCall(3)))
  const EXHAUSTED := Then(CALLED, Worker(FinishCall(3, false)))
  const BURIED := Then(EXHAUSTED, Worker(SaveDeadLetter(3, Done)))
  const MARKED := Then(BURIED, Worker(MarkFailed(3, Done)))
  const FAILED := Then(MARKED, Worker(Settle(3)))

  /** A manual replay commits, and only then the dispatcher marks the reopened row. */
  const REPLAYED := Then(Then(FAILED, Replayer(ReplayRead(ID))), Replayer(ReplayCommit(4, Done)))

  const LOSING := Then(REPLAYED, Dispatcher(MarkPublished(1, Done)))

  const ROW := OutboxRow(0, BODY, 0, None, Some(1), Some(0))
  const ROUND := Round([Item(ID, BODY)], Published)
  const LETTER := Letter(BODY, 1, 0, Some(0), None)

  lemma PublishedState()
    ensures Valid(CFG, PUBLISHED)
    ensures Last(CFG, PUBLISHED) ==
            State(0, 3, map[ID := EventRow(BODY, Queued, 0, None)], map[ID := ROW], map[],
                  map[2 := Message(ID, BODY, None)], map[1 := ROUND], map[], map[], map[])
  {
    var s1 := Apply(CFG, EMPTY, Environment(Accept(ID, BODY)));
    assert s1 == State(0, 1, map[ID := EventRow(BODY, Queued, 0, None)],
                       map[ID := OutboxRow(0, BODY, 0, None, None, None)], map[], map[], map[], map[], map[], map[]);
    assert Last(CFG, PUBLISHED.prefix.prefix) == s1;
    var s2 := Apply(CFG, s1, Dispatcher(ClaimBatch(0, [ID])));
    assert BatchItems(s1.outbox, [ID]) == [Item(ID, BODY)];
    assert s2.outbox == map[ID := ROW] && s2.rounds == map[1 := Round([Item(ID, BODY)], Unpublished)];
    assert Last(CFG, PUBLISHED.prefix) == s2;
  }

  function Delivering(status: Status, attempts: nat, startedAt: Option<nat>, phase: Phase,
      letters: LetterTable): State {
    State(0, 4, map[ID := EventRow(BODY, status, attempts, startedAt)], map[ID := ROW], letters,
          map[2 := Message(ID, BODY, Some(3))], map[1 := ROUND], map[3 := Handling(2, ID, BODY, phase, 0, 0)],
          map[], map[])
  }

  lemma DeliveredState()
    ensures Valid(CFG, DELIVERED) && Last(CFG, DELIVERED) == Delivering(Queued, 0, None, Received, map[])
  {
    PublishedState();
  }

  lemma ClaimedState()
    ensures Valid(CFG, CLAIMED) && Last(CFG, CLAIMED) == Delivering(Processing, 0, Some(0), Claimed(1), map[])
  {
    DeliveredState();
  }

  lemma CalledState()
    ensures Valid(CFG, CALLED) && Last(CFG, CALLED) == Delivering(Processing, 0, Some(0), Calling(1), map[])
  {
    ClaimedState();
  }

  lemma ExhaustedState()
    ensures Valid(CFG, EXHAUSTED) && Last(CFG, EXHAUSTED) == Delivering(Processing, 0, Some(0), Exhausted, map[])
  {
    CalledState();
  }

  lemma BuriedState()
    ensures Valid(CFG, BURIED) && Last(CFG, BURIED) == Delivering(Processing, 0, Some(0), Buried, map[ID := LETTER])
  {
    ExhaustedState();
  }

  lemma MarkedState()
    ensures Valid(CFG, MARKED) && Last(CFG, MARKED) == Delivering(Failed, 1, None, Settling(Ack), map[ID := LETTER])
  {
    BuriedState();
  }

  lemma FailedState()
    ensures Valid(CFG, FAILED)
    ensures Last(CFG, FAILED) ==
            State(0, 4, map[ID := EventRow(BODY, Failed, 1, None)], map[ID := ROW], map[ID := LETTER],
                  map[], map[1 := ROUND], map[], map[], map[])
  {
    MarkedState();
  }

  lemma ReplayedState()
    ensures Valid(CFG, REPLAYED)
    ensures Last(CFG, REPLAYED) ==
            State(0, 6, map[ID := EventRow(BODY, Queued, 0, None)], map[ID := ROW],
                  map[ID := LETTER.(replayedAt := Some(0))], map[], map[1 := ROUND], map[], map[], map[])
  {
    FailedState();
    var s1 := Apply(CFG, Last(CFG, FAILED), Replayer(ReplayRead(ID)));
    assert s1.replays == map[4 := ID];
    assert Last(CFG, REPLAYED.prefix) == s1;
    var s2 := Apply(CFG, s1, Replayer(ReplayCommit(4, Done)));
    assert s2.replays == map[];
  }

  /** An unfenced replay loses the event: it is queued for good, its outbox row is marked and the broker is empty. */
  lemma UnfencedReplayLosesEvent()
    ensures Valid(CFG, LOSING)
    ensures !ReplaysFenced(CFG, LOSING)
    ensures Lost(Last(CFG, LOSING), ID)
  {
    ReplayedState();
    var s := Last(CFG, REPLAYED);
    var s' := Apply(CFG, s, Dispatcher(MarkPublished(1, Done)));
    assert s'.broker == map[] && s'.events == s.events && s'.outbox[ID].publishedAt == Some(0);
    assert Last(CFG, LOSING) == s';
    if ReplaysFenced(CFG, LOSING) {
      NoEventLost(CFG, LOSING, ID);
    }
  }
}
