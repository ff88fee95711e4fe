/** The consumer side of the queue: one forwarder moves broker deliveries into a bounded buffer that any number of
    workers empty, until a shutdown stops it. Deliveries are numbered in the order they are read from the broker
    channel. */
module Forwarding {
  import opened Rows

  datatype Lane = Lane(
    decodable: seq<bool>,          // of each delivery read so far, whether its body decodes
    hand: Option<nat>,             // read by the forwarder, not passed on yet
    buffer: seq<nat>,
    held: seq<Option<nat>>,        // what each worker is handling
    rejected: seq<nat>,            // nacked without requeue by the forwarder
    requeued: seq<nat>,            // nacked with requeue by the forwarder
    settled: seq<nat>,             // acked or nacked by a worker
    taken: seq<nat>,               // handed to workers, in order
    cancelled: bool,
    closed: bool)                  // the forwarder has returned and closed the buffer

  function Initial(workers: nat): Lane {
    Lane([], None, [], seq(workers, _ => None), [], [], [], [], false, false)
  }

  datatype Move = Read(ok: bool) | Reject | Forward | Requeue | Cancel | Close | Take(worker: nat) | Settle(worker: nat)

  predicate Enabled(capacity: nat, s: Lane, move: Move) {
    match move
    case Read(_) => !s.closed && s.hand.None?
    case Reject => s.hand.Some? && s.hand.value < |s.decodable| && !s.decodable[s.hand.value]
    case Forward => s.hand.Some? && s.hand.value < |s.decodable| && s.decodable[s.hand.value] && |s.buffer| < capacity
    case Requeue => s.hand.Some? && s.hand.value < |s.decodable| && s.decodable[s.hand.value] && s.cancelled
    case Cancel => true
    case Close => s.cancelled && s.hand.None?
    case Take(w) => w < |s.held| && s.held[w].None? && s.buffer != []
    case Settle(w) => w < |s.held| && s.held[w].Some?
  }

  function Apply(capacity: nat, s: Lane, move: Move): Lane
    requires Enabled(capacity, s, move)
  {
    match move
    case Read(ok) => s.(decodable := s.decodable + [ok], hand := Some(|s.decodable|))
    case Reject => s.(rejected := s.rejected + [s.hand.value], hand := None)
    case Forward => s.(buffer := s.buffer + [s.hand.value], hand := None)
    case Requeue => s.(requeued := s.requeued + [s.hand.value], hand := None, closed := true)
    case Cancel => s.(cancelled := true)
    case Close => s.(closed := true)
    case Take(w) =>
      s.(held := s.held[w := Some(s.buffer[0])], taken := s.taken + [s.buffer[0]], buffer := s.buffer[1..])
    case Settle(w) => s.(settled := s.settled + [s.held[w].value], held := s.held[w := None])
  }

  datatype Run = Start | Then(prefix: Run, move: Move)

  function Last(capacity: nat, workers: nat, r: Run): Lane
    requires Valid(capacity, workers, r)
    decreases r, 1
  {
    match r
    case Start => Initial(workers)
    case Then(p, move) => Apply(capacity, Last(capacity, workers, p), move)
  }

  predicate Valid(capacity: nat, workers: nat, r: Run)
    decreases r, 0
  {
    r.Then? ==> Valid(capacity, workers, r.prefix) && Enabled(capacity, Last(capacity, workers, r.prefix), r.move)
  }

  // ----- conservation

  function Count(ids: seq<nat>, i: nat): nat {
    multiset(ids)[i]
  }

  function CountHeld(held: seq<Option<nat>>, i: nat): nat {
    multiset(held)[Some(i)]
  }

  /** In how many places delivery `i` is. */
  function Places(s: Lane, i: nat): nat {
    (if s.hand == Some(i) then 1 else 0) + Count(s.buffer, i) + CountHeld(s.held, i) + Verdicts(s, i)
  }

  /** How many acks and nacks it has been issued. */
  function Verdicts(s: Lane, i: nat): nat {
    Count(s.rejected, i) + Count(s.requeued, i) + Count(s.settled, i)
  }

  /** Every delivery read is in exactly one place, and nothing else is anywhere. */
  ghost predicate Conserved(s: Lane) {
    forall i: nat :: Places(s, i) == if i < |s.decodable| then 1 else 0
  }

  predicate Increasing(xs: seq<nat>, limit: nat) {
    (forall i, j | 0 <= i < j < |xs| :: xs[i] < xs[j]) && (forall i | 0 <= i < |xs| :: xs[i] < limit)
  }

  /** The workers get the deliveries in the order they were read; what the forwarder holds is the latest. */
  ghost predicate Ordered(s: Lane) {
    && Increasing(s.taken + s.buffer, if s.hand.Some? then s.hand.value else |s.decodable|)
    && (s.hand.Some? ==> s.hand.value + 1 == |s.decodable|)
  }

  /** The bodies of all these deliveries decode, or none does. */
  predicate Bodies(ids: seq<nat>, decodable: seq<bool>, decodes: bool) {
    forall k | 0 <= k < |ids| :: ids[k] < |decodable| && decodable[ids[k]] == decodes
  }

  /** Bodies that do not decode are rejected and never reach the buffer; decodable ones are requeued at most once, by
      the last act of a cancelled forwarder; the buffer stays within its capacity. */
  ghost predicate Sorted(capacity: nat, s: Lane) {
    && |s.buffer| <= capacity
    && Bodies(s.rejected, s.decodable, false) && Bodies(s.requeued, s.decodable, true)
    && Bodies(s.taken + s.buffer, s.decodable, true) && Bodies(s.settled, s.decodable, true)
    && (forall w | 0 <= w < |s.held| && s.held[w].Some? :: Bodies([s.held[w].value], s.decodable, true))
    && (s.closed ==> s.hand.None? && s.cancelled)
    && |s.requeued| <= if s.closed then 1 else 0
  }

  lemma OneMore(ids: seq<nat>, id: nat, decodable: seq<bool>, decodes: bool)
    requires Bodies(ids, decodable, decodes) && id < |decodable| && decodable[id] == decodes
    ensures Bodies(ids + [id], decodable, decodes) && Bodies([id], decodable, decodes)
  {
  }

  lemma MoreRead(ids: seq<nat>, decodable: seq<bool>, ok: bool, decodes: bool)
    requires Bodies(ids, decodable, decodes)
    ensures Bodies(ids, decodable + [ok], decodes)
  {
  }

  lemma Appended(ids: seq<nat>, id: nat, i: nat)
    ensures Count(ids + [id], i) == Count(ids, i) + if id == i then 1 else 0
  {
  }

  lemma Placed(held: seq<Option<nat>>, w: nat, item: Option<nat>, i: nat)
    requires w < |held|
    ensures CountHeld(held[w := item], i) + (if held[w] == Some(i) then 1 else 0)
            == CountHeld(held, i) + if item == Some(i) then 1 else 0
  {
  }

  lemma Unqueued(buffer: seq<nat>, i: nat)
    requires buffer != []
    ensures Count(buffer, i) == Count(buffer[1..], i) + if buffer[0] == i then 1 else 0
  {
    assert buffer == [buffer[0]] + buffer[1..];
  }

  /** Where a move takes a delivery from, it puts it exactly once. */
  lemma MoveConserves(capacity: nat, s: Lane, move: Move, i: nat)
    requires Places(s, i) == (if i < |s.decodable| then 1 else 0) && Enabled(capacity, s, move)
    ensures var s' := Apply(capacity, s, move); Places(s', i) == if i < |s'.decodable| then 1 else 0
  {
    hide Count; hide CountHeld;
    if move.Take? {
      Unqueued(s.buffer, i);
      Placed(s.held, move.worker, Some(s.buffer[0]), i);
    } else if move.Settle? {
      Appended(s.settled, s.held[move.worker].value, i);
      Placed(s.held, move.worker, None, i);
    } else if s.hand.Some? {
      Appended(s.rejected, s.hand.value, i);
      Appended(s.requeued, s.hand.value, i);
      Appended(s.buffer, s.hand.value, i);
    }
  }

  /** The workers' deliveries and the buffer behind them form one queue, which only a forward changes. */
  lemma MoveQueue(capacity: nat, s: Lane, move: Move)
    requires Enabled(capacity, s, move)
    ensures var s' := Apply(capacity, s, move);
            s'.taken + s'.buffer == if move.Forward? then (s.taken + s.buffer) + [s.hand.value] else s.taken + s.buffer
    ensures move.Take? ==> s.buffer[0] == (s.taken + s.buffer)[|s.taken|]
  {
  }

  lemma MoveKeepsOrder(capacity: nat, s: Lane, move: Move)
    requires Ordered(s) && Enabled(capacity, s, move)
    ensures Ordered(Apply(capacity, s, move))
  {
    MoveQueue(capacity, s, move);
  }

  lemma MoveKeepsSorted(capacity: nat, s: Lane, move: Move)
    requires Sorted(capacity, s) && Enabled(capacity, s, move)
    ensures Sorted(capacity, Apply(capacity, s, move))
  {
    MoveQueue(capacity, s, move);
    if move.Read? {
      ReadKeepsSorted(capacity, s, move.ok);
    } else if move.Take? {
      OneMore([], s.buffer[0], s.decodable, true);
      hide Bodies;
    } else if move.Settle? {
      assert s.held[move.worker].value == [s.held[move.worker].value][0];
      OneMore(s.settled, s.held[move.worker].value, s.decodable, true);
      hide Bodies;
    } else if s.hand.Some? && s.hand.value < |s.decodable| {
      if s.decodable[s.hand.value] {
        OneMore(s.requeued, s.hand.value, s.decodable, true);
        OneMore(s.taken + s.buffer, s.hand.value, s.decodable, true);
      } else {
        OneMore(s.rejected, s.hand.value, s.decodable, false);
      }
      hide Bodies;
    }
  }

  lemma ReadKeepsSorted(capacity: nat, s: Lane, ok: bool)
    requires Sorted(capacity, s) && !s.closed && s.hand.None?
    ensures Sorted(capacity, Apply(capacity, s, Read(ok)))
  {
    MoreRead(s.rejected, s.decodable, ok, false);
    MoreRead(s.requeued, s.decodable, ok, true);
    MoreRead(s.taken + s.buffer, s.decodable, ok, true);
    MoreRead(s.settled, s.decodable, ok, true);
    forall w | 0 <= w < |s.held| && s.held[w].Some? {
      MoreRead([s.held[w].value], s.decodable, ok, true);
    }
    hide Bodies;
  }

  ghost predicate Sound(capacity: nat, s: Lane) {
    Conserved(s) && Ordered(s) && Sorted(capacity, s)
  }

  lemma InitiallySound(capacity: nat, workers: nat)
    ensures Sound(capacity, Initial(workers))
  {
    var s := Initial(workers);
    forall i: nat ensures Places(s, i) == 0 {
      assert Some(i) !in s.held;
    }
  }

  lemma MoveKeepsSound(capacity: nat, s: Lane, move: Move)
    requires Sound(capacity, s) && Enabled(capacity, s, move)
    ensures Sound(capacity, Apply(capacity, s, move))
  {
    MoveKeepsOrder(capacity, s, move);
    MoveKeepsSorted(capacity, s, move);
    hide Ordered; hide Sorted; hide Enabled; hide Apply; hide Places;
    forall i: nat {
      MoveConserves(capacity, s, move, i);
    }
  }

  lemma {:induction false} RunSound(capacity: nat, workers: nat, r: Run)
    requires Valid(capacity, workers, r)
    ensures Sound(capacity, Last(capacity, workers, r))
  {
    hide Sound; hide Enabled; hide Apply;
    if r.Start? {
      InitiallySound(capacity, workers);
    } else {
      RunSound(capacity, workers, r.prefix);
      MoveKeepsSound(capacity, Last(capacity, workers, r.prefix), r.move);
    }
  }

  lemma EmptyPlaces(s: Lane, i: nat)
    requires s.hand.None? && s.buffer == [] && forall w | 0 <= w < |s.held| :: s.held[w].None?
    ensures Places(s, i) == Verdicts(s, i)
  {
    assert Some(i) !in s.held;
  }

  /** After a shutdown whose workers have emptied the buffer, every delivery read has exactly one verdict: undecodable
      ones are rejected, at most one is requeued, and the workers have settled all others. */
  lemma ShutdownSettlesAll(capacity: nat, workers: nat, r: Run, i: nat)
    requires Valid(capacity, workers, r)
    requires var s := Last(capacity, workers, r);
             s.closed && s.buffer == [] && (forall w | 0 <= w < |s.held| :: s.held[w].None?) && i < |s.decodable|
    ensures var s := Last(capacity, workers, r);
            && Verdicts(s, i) == 1 && |s.requeued| <= 1
            && (i in s.rejected <==> !s.decodable[i])
            && (i in s.settled <==> s.decodable[i] && i !in s.requeued)
  {
    RunSound(capacity, workers, r);
    var s := Last(capacity, workers, r);
    hide Last; hide Valid; hide Ordered;
    EmptyPlaces(s, i);
    assert Places(s, i) == 1;
    hide Places; hide Conserved;
    assert i in s.rejected || i in s.requeued || i in s.settled;
  }

  // ----- the forwarder's loop

  /** The numbers, from `base` on, of the bodies that decode or do not. */
  function Picks(base: nat, bodies: seq<bool>, decodes: bool): seq<nat> {
    if bodies == [] then []
    else
      var n := |bodies| - 1;
      Picks(base, bodies[..n], decodes) + if bodies[n] == decodes then [base + n] else []
  }

  lemma PicksStep(before: seq<nat>, base: nat, bodies: seq<bool>, k: nat, decodes: bool)
    requires k < |bodies|
    ensures before + Picks(base, bodies[..k + 1], decodes) ==
            (before + Picks(base, bodies[..k], decodes)) + if bodies[k] == decodes then [base + k] else []
    ensures bodies[..k + 1] == bodies[..k] + [bodies[k]]
  {
    assert bodies[..k + 1][..k] == bodies[..k];
  }

  /** From `before` to `after` the forwarder has read `n` of the `bodies`, rejected the undecodable ones among the first
      `passed` of them and queued the others for the workers, each in order. */
  ghost predicate Forwarded(before: Lane, after: Lane, bodies: seq<bool>, n: nat, passed: nat) {
    && passed <= n <= |bodies| && after.decodable == before.decodable + bodies[..n]
    && after.rejected == before.rejected + Picks(|before.decodable|, bodies[..passed], false)
    && after.taken + after.buffer == before.taken + before.buffer + Picks(|before.decodable|, bodies[..passed], true)
  }

  /** One turn of the loop at a delivery whose body decodes iff `ok`. */
  ghost predicate Turned(before: Lane, after: Lane, ok: bool, turn: Turn) {
    var base := |before.decodable|;
    && after.decodable == before.decodable + (if turn == Stopped(false) then [] else [ok])
    && after.requeued == before.requeued + (if turn == Stopped(true) then [base] else [])
    && after.rejected == before.rejected + (if turn.Passed? && !ok then [base] else [])
    && after.taken + after.buffer == before.taken + before.buffer + (if turn.Passed? && ok then [base] else [])
    && (turn != Passed && turn != Stopped(false) ==> ok)
  }

  lemma NothingForwarded(s: Lane, bodies: seq<bool>)
    ensures Forwarded(s, s, bodies, 0, 0)
  {
  }

  lemma TurnForwards(before: Lane, s: Lane, s': Lane, bodies: seq<bool>, n: nat, turn: Turn)
    requires Forwarded(before, s, bodies, n, n) && n < |bodies| && Turned(s, s', bodies[n], turn)
    ensures var read, passed := if turn == Stopped(false) then n else n + 1, if turn.Passed? then n + 1 else n;
            Forwarded(before, s', bodies, read, passed)
    ensures |s.decodable| == |before.decodable| + n
  {
    PicksStep(before.taken + before.buffer, |before.decodable|, bodies, n, true);
    PicksStep(before.rejected, |before.decodable|, bodies, n, false);
    hide Picks;
  }

  lemma Extended(capacity: nat, workers: nat, r: Run, move: Move)
    requires Valid(capacity, workers, r) && Enabled(capacity, Last(capacity, workers, r), move)
    ensures Valid(capacity, workers, Then(r, move))
    ensures Last(capacity, workers, Then(r, move)) == Apply(capacity, Last(capacity, workers, r), move)
  {
    hide Enabled; hide Apply;
  }

  /** Why a call of the forwarder ended: the broker closed its channel, the context was cancelled, or it has not ended
      but waits for room in the buffer. */
  datatype Ending = ChannelClosed | Cancelled | Waiting

  /** One turn of its loop; a stopped forwarder may have requeued what it read. */
  datatype Turn = Passed | Stopped(requeued: bool) | Blocked

  class EventQueue {
    const capacity: nat
    const workers: nat

    var lane: Lane
    ghost var run: Run

    ghost predicate Holds()
      reads this
    {
      Valid(capacity, workers, run) && Last(capacity, workers, run) == lane
    }

    constructor (capacity: nat, workers: nat)
      ensures Holds() && run == Start && this.capacity == capacity && this.workers == workers
    {
      this.capacity, this.workers := capacity, workers;
      lane, run := Initial(workers), Start;
    }

    method Make(move: Move)
      requires Holds() && Enabled(capacity, lane, move)
      modifies this
      ensures Holds() && run == Then(old(run), move) && lane == Apply(capacity, old(lane), move)
    {
      hide Enabled; hide Apply; hide Valid; hide Last;
      Extended(capacity, workers, run, move);
      lane := Apply(capacity, lane, move);
      run := Then(run, move);
    }

    /** Workers take and settle, and a shutdown may cancel the context; none of it changes what the forwarder did. */
    method Interfere()
      requires Holds()
      modifies this
      ensures Holds()
      ensures var before, after := old(lane), lane;
              && after.decodable == before.decodable && after.hand == before.hand && after.closed == before.closed
              && after.rejected == before.rejected && after.requeued == before.requeued
              && after.taken + after.buffer == before.taken + before.buffer
              && (before.cancelled ==> after.cancelled)
    {
      hide Valid; hide Last;
      var moves: seq<Move> := *;
      for k := 0 to |moves|
        invariant Holds()
        invariant var before, after := old(lane), lane;
                  && after.decodable == before.decodable && after.hand == before.hand && after.closed == before.closed
                  && after.rejected == before.rejected && after.requeued == before.requeued
                  && after.taken + after.buffer == before.taken + before.buffer
                  && (before.cancelled ==> after.cancelled)
      {
        if (moves[k].Cancel? || moves[k].Take? || moves[k].Settle?) && Enabled(capacity, lane, moves[k]) {
          MoveQueue(capacity, lane, moves[k]);
          Make(moves[k]);
        }
      }
    }

    /** One turn of the loop: read a delivery whose body decodes iff `ok`, and pass it on; or stop. */
    method ForwardNext(ok: bool) returns (turn: Turn)
      requires Holds() && !lane.closed && lane.hand.None?
      modifies this
      ensures Holds() && Turned(old(lane), lane, ok, turn)
      ensures turn.Passed? ==> !lane.closed && lane.hand.None?
      ensures turn.Stopped? ==> lane.closed && lane.cancelled && lane.hand.None?
      ensures turn.Blocked? ==> !lane.closed && lane.hand.Some? && !lane.cancelled && |lane.buffer| >= capacity
    {
      hide Valid; hide Last;
      Interfere();
      var done: bool := *;
      if lane.cancelled && done {
        Make(Close);
        return Stopped(false);
      }
      Make(Read(ok));
      Interfere();
      if !ok {
        Make(Reject);
        return Passed;
      }
      done := *;
      if |lane.buffer| < capacity && !(lane.cancelled && done) {
        MoveQueue(capacity, lane, Forward);
        Make(Forward);
        return Passed;
      }
      if lane.cancelled {
        Make(Requeue);
        return Stopped(true);
      }
      return Blocked;
    }

    /** All deliveries read are dealt with, except that the last, if its body decodes, may be left: `Waiting` leaves it
        in hand, and `Cancelled` may have requeued it. */
    method ForwardDeliveries(bodies: seq<bool>) returns (n: nat, ending: Ending)
      requires Holds() && !lane.closed && lane.hand.None?
      modifies this
      ensures Holds()
      ensures ending.ChannelClosed? ==> n == |bodies| && lane.hand.None? && !lane.closed
      ensures ending.Cancelled? ==> lane.cancelled && lane.closed && lane.hand.None?
      ensures ending.Waiting? ==> lane.hand.Some? && !lane.closed && !lane.cancelled && |lane.buffer| >= capacity
      ensures var left := lane.hand.Some? || lane.requeued != old(lane).requeued;
              && (left ==> 0 < n <= |bodies| && bodies[n - 1])
              && Forwarded(old(lane), lane, bodies, n, if left then n - 1 else n)
              && lane.requeued == old(lane).requeued + if left && lane.hand.None? then [|lane.decodable| - 1] else []
    {
      hide Valid; hide Last; hide Forwarded;
      n := 0;
      NothingForwarded(lane, bodies);
      while n < |bodies|
        invariant n <= |bodies| && Holds() && Forwarded(old(lane), lane, bodies, n, n)
        invariant lane.hand.None? && !lane.closed && lane.requeued == old(lane).requeued
      {
        ghost var s := lane;
        var turn := ForwardNext(bodies[n]);
        TurnForwards(old(lane), s, lane, bodies, n, turn);
        if turn == Stopped(false) {
          return n, Cancelled;
        }
        n := n + 1;
        if turn == Stopped(true) {
          return n, Cancelled;
        }
        if turn == Blocked {
          return n, Waiting;
        }
      }
      return n, ChannelClosed;
    }
  }
}
