/** The scheduler's retry delay: capped doubling with up to a quarter of jitter, in 64-bit nanoseconds. */
module Backoff {
  import opened Int64

  const DAY: int := 24 * 3600 * 1_000_000_000

  /** Go's division truncates toward zero. */
  function Quarter(x: int): int {
    if x >= 0 then x / 4 else -(-x / 4)
  }

  /** `rand.Int63n` panics on a bound that is not positive. */
  datatype Delay = Delay(nanoseconds: int) | Panic

  /** The delay before jitter at attempt `n`, with neither cap nor overflow. */
  function Base(interval: nat, n: nat): (b: nat)
    ensures b >= interval
  {
    if n <= 1 then interval else 2 * Base(interval, n - 1)
  }

  function Power(n: nat): nat {
    if n == 0 then 1 else 2 * Power(n - 1)
  }

  lemma {:induction false} BaseClosed(interval: nat, n: nat)
    ensures Base(interval, n + 1) == interval * Power(n)
  {
    if n > 0 {
      BaseClosed(interval, n - 1);
      assert interval * (2 * Power(n - 1)) == 2 * (interval * Power(n - 1));
    }
  }

  lemma {:induction false} BaseGrows(interval: nat, m: nat, n: nat)
    requires m <= n
    ensures Base(interval, m) <= Base(interval, n)
  {
    if m < n {
      BaseGrows(interval, m, n - 1);
    }
  }

  predicate Capped(interval: nat, n: nat) {
    n >= 2 && Base(interval, n) >= DAY
  }

  /** The delays the policy allows at attempt `n`: 24 hours once the cap is reached, else base plus up to a quarter. */
  predicate Allowed(interval: nat, n: nat, d: int) {
    if Capped(interval, n) then d == DAY
    else Base(interval, n) <= d <= Base(interval, n) + Base(interval, n) / 4
  }

  /** The generator's raw output `draw`, reduced to a bound. */
  function Int63n(draw: nat, bound: nat): (n: nat)
    requires bound > 0
    ensures n < bound
    ensures draw < bound ==> n == draw
  {
    draw % bound
  }

  /** The tail of retryDelay: add jitter of up to a quarter. */
  function Jittered(delay: int, draw: nat): Delay {
    var limit := Quarter(delay);
    if limit == 0 then Delay(delay)
    else if limit + 1 <= 0 then Panic
    else Delay(Wrap(delay + Int63n(draw, limit + 1)))
  }

  lemma JitteredInRange(delay: nat, draw: nat)
    requires delay + delay / 4 <= MAX
    ensures Jittered(delay, draw).Delay? && delay <= Jittered(delay, draw).nanoseconds <= delay + delay / 4
    ensures draw <= delay / 4 ==> Jittered(delay, draw) == Delay(delay + draw)
  {
    hide Wrap; hide Int63n;
  }

  /** The delay after `n - 1` doublings in 64 bits. */
  function Wrapped(interval: nat, n: nat): int {
    Wrap(Base(interval, n))
  }

  /** Some doubling on the way to attempt `n` comes out at 24 hours or more. */
  predicate ReachesCap(interval: nat, n: nat) {
    exists k | 2 <= k <= n :: Wrapped(interval, k) >= DAY
  }

  /** The delay at attempt `n` in closed form, for every interval and attempt. */
  function DelayAt(interval: nat, n: nat, draw: nat): Delay {
    if ReachesCap(interval, n) then Delay(DAY) else Jittered(Wrapped(interval, n), draw)
  }

  method RetryDelay(interval: int, attempt: int, draw: nat) returns (r: Delay)
    requires 0 < interval && IsInt64(interval)
    ensures r == DelayAt(interval, if attempt < 1 then 1 else attempt, draw)
  {
    hide Wrap; hide Jittered; hide Base;
    assert Wrapped(interval, 1) == interval by {
      FirstDelay(interval);
    }
    var delay := interval;
    var step := 1;
    while step < attempt
      invariant 1 <= step && (step <= attempt || step == 1)
      invariant delay == Wrapped(interval, step)
      invariant forall k | 2 <= k <= step :: Wrapped(interval, k) < DAY
    {
      NextDelay(interval, step);
      delay := Wrap(delay * 2);
      if delay >= DAY {
        return Delay(DAY);
      }
      step := step + 1;
    }
    r := Jittered(delay, draw);
  }

  lemma FirstDelay(interval: nat)
    requires IsInt64(interval)
    ensures Wrapped(interval, 1) == interval
  {
  }

  lemma NextDelay(interval: nat, n: nat)
    requires n >= 1
    ensures Wrapped(interval, n + 1) == Wrap(Wrapped(interval, n) * 2)
  {
    WrapDoubles(Base(interval, n));
    hide Wrap;
  }

  /** Up to half the int64 range the doubling reaches the cap before it can overflow. */
  lemma {:induction false} CapBeforeOverflow(interval: nat, n: nat)
    requires 0 < interval <= MAX / 2 && n >= 1
    ensures ReachesCap(interval, n) <==> Capped(interval, n)
    ensures !Capped(interval, n) ==> Wrapped(interval, n) == Base(interval, n)
  {
    if n > 1 {
      CapBeforeOverflow(interval, n - 1);
      hide Wrap;
      if Capped(interval, n - 1) {
        var k :| 2 <= k <= n - 1 && Wrapped(interval, k) >= DAY;
        assert 2 <= k <= n && Wrapped(interval, k) >= DAY;
      } else {
        assert Base(interval, n) == 2 * Base(interval, n - 1) <= MAX;
        assert Wrapped(interval, n) == Base(interval, n);
      }
    }
  }

  lemma OverflowDoubles(interval: nat, k: nat)
    requires Wrapped(interval, k) >= DAY
    ensures Base(interval, k) >= DAY
  {
  }

  /** The intervals and attempts at which every draw gives an allowed delay: the interval is within half the int64
      range, or one of its overflowing doublings happens to land at the cap. */
  predicate Reliable(interval: nat, n: nat) {
    if n == 1 then interval + interval / 4 <= MAX else interval <= MAX / 2 || ReachesCap(interval, n)
  }

  predicate Right(interval: nat, n: nat, delay: Delay) {
    delay.Delay? && Allowed(interval, n, delay.nanoseconds)
  }

  lemma ReliableIsRight(interval: nat, n: nat, draw: nat)
    requires 0 < interval <= MAX && n >= 1 && Reliable(interval, n)
    ensures Right(interval, n, DelayAt(interval, n, draw))
  {
    hide Wrap; hide Jittered;
    if ReachesCap(interval, n) {
      var k :| 2 <= k <= n && Wrapped(interval, k) >= DAY;
      OverflowDoubles(interval, k);
      BaseGrows(interval, k, n);
    } else {
      if interval <= MAX / 2 {
        CapBeforeOverflow(interval, n);
      } else {
        FirstDelay(interval);
      }
      JitteredInRange(Base(interval, n), draw);
    }
  }

  lemma UnreliableGoesWrong(interval: nat, n: nat)
    requires 0 < interval <= MAX && n >= 1 && !Reliable(interval, n)
    ensures !Right(interval, n, DelayAt(interval, n, if n == 1 then interval / 4 else 0))
  {
    if n == 1 {
      FirstDelay(interval);
    } else {
      BaseGrows(interval, 1, n);
      assert 2 <= n <= n && Wrapped(interval, n) < DAY;
    }
  }

  /** For every positive interval and every attempt: the delay is an allowed one whatever is drawn if and only if it is
      reliable. */
  lemma RightIffReliable(interval: nat, n: nat)
    requires 0 < interval <= MAX && n >= 1
    ensures (forall draw: nat :: Right(interval, n, DelayAt(interval, n, draw))) <==> Reliable(interval, n)
  {
    hide Right; hide Reliable; hide DelayAt;
    if Reliable(interval, n) {
      forall draw: nat ensures Right(interval, n, DelayAt(interval, n, draw)) {
        ReliableIsRight(interval, n, draw);
      }
    } else {
      UnreliableGoesWrong(interval, n);
    }
  }

  /** Below the cap every allowed delay comes out for some draw. */
  lemma EveryDelayDrawn(interval: nat, n: nat, draw: nat)
    requires 0 < interval && n >= 1 && Reliable(interval, n) && !Capped(interval, n) && draw <= Base(interval, n) / 4
    ensures DelayAt(interval, n, draw) == Delay(Base(interval, n) + draw)
  {
    hide Wrap; hide Jittered;
    if ReachesCap(interval, n) {
      var k :| 2 <= k <= n && Wrapped(interval, k) >= DAY;
      OverflowDoubles(interval, k);
      BaseGrows(interval, k, n);
    } else {
      if interval <= MAX / 2 {
        CapBeforeOverflow(interval, n);
      } else {
        FirstDelay(interval);
      }
      JitteredInRange(Base(interval, n), draw);
    }
  }

  /** In plain numbers, for intervals within half the int64 range: from attempt 2 on the delay is 24 hours whatever is
      drawn if and only if interval * 2^(n-1) is 24 hours or more; below that it lies between this base and a quarter
      more. */
  lemma DayCap(interval: nat, n: nat)
    requires 0 < interval <= 4_611_686_018_427_387_903 && n >= 2
    ensures (forall draw: nat :: DelayAt(interval, n, draw) == Delay(86_400_000_000_000)) <==>
            interval * Power(n - 1) >= 86_400_000_000_000
    ensures interval * Power(n - 1) < 86_400_000_000_000 ==>
              forall draw: nat ::
                && DelayAt(interval, n, draw).Delay?
                && interval * Power(n - 1) <= DelayAt(interval, n, draw).nanoseconds
                   <= interval * Power(n - 1) + interval * Power(n - 1) / 4
  {
    BaseClosed(interval, n - 1);
    CapBeforeOverflow(interval, n);
    hide Wrap; hide Power; hide Base; hide ReachesCap;
    var b := Base(interval, n);
    if b < 86_400_000_000_000 {
      forall draw: nat
        ensures DelayAt(interval, n, draw).Delay? && b <= DelayAt(interval, n, draw).nanoseconds <= b + b / 4
      {
        JitteredInRange(b, draw);
      }
      JitteredInRange(b, 0);
      assert DelayAt(interval, n, 0) == Delay(b);
    }
  }

  /** A single draw below the cap can come to 24 hours as well: the equivalence is about all draws. */
  lemma DrawHitsDay()
    ensures DelayAt(40_000_000_000_000, 2, 6_400_000_000_000) == Delay(86_400_000_000_000)
    ensures 40_000_000_000_000 * Power(1) < 86_400_000_000_000
  {
    var interval := 40_000_000_000_000;
    CapBeforeOverflow(interval, 2);
    assert Base(interval, 2) == 80_000_000_000_000;
    EveryDelayDrawn(interval, 2, 6_400_000_000_000);
  }

  /** `k` doublings in 64 bits. */
  function Doubled(interval: nat, k: nat): int {
    Wrap(interval * Power(k))
  }

  lemma WrappedIsDoubled(interval: nat, k: nat)
    ensures Wrapped(interval, k + 1) == Doubled(interval, k)
  {
    BaseClosed(interval, k);
    hide Wrap; hide Power; hide Base;
  }

  lemma ReachesCapDoubled(interval: nat, n: nat)
    requires n >= 1
    ensures ReachesCap(interval, n) <==> exists k | 1 <= k < n :: Doubled(interval, k) >= 86_400_000_000_000
  {
    hide Wrapped; hide Doubled;
    if ReachesCap(interval, n) {
      var k :| 2 <= k <= n && Wrapped(interval, k) >= DAY;
      WrappedIsDoubled(interval, k - 1);
      assert Doubled(interval, k - 1) >= 86_400_000_000_000;
    }
    if k :| 1 <= k < n && Doubled(interval, k) >= 86_400_000_000_000 {
      WrappedIsDoubled(interval, k);
      assert Wrapped(interval, k + 1) >= DAY;
    }
  }

  lemma JitterCases(w: int, draw: nat)
    ensures w <= -4 ==> Jittered(w, draw).Panic?
    ensures -4 < w < 4 ==> Jittered(w, draw) == Delay(w)
    ensures w >= 4 ==> Jittered(w, draw).Delay?
    ensures w >= 4 && w + w / 4 <= 9_223_372_036_854_775_807 ==> w <= Jittered(w, draw).nanoseconds <= w + w / 4
  {
    if w >= 4 && w + w / 4 <= 9_223_372_036_854_775_807 {
      JitteredInRange(w, draw);
    }
    hide Wrap; hide Int63n;
  }

  /** In plain numbers, for every interval and attempt, overflowing or not: 24 hours as soon as a doubling comes out at
      that or more; else the doubled interval itself if it is tiny, up to a quarter more if it is positive, and a panic
      if it has become negative. */
  lemma DelayCases(interval: nat, n: nat, draw: nat)
    requires 0 < interval <= 9_223_372_036_854_775_807 && n >= 1
    ensures (exists k | 1 <= k < n :: Doubled(interval, k) >= 86_400_000_000_000) ==>
              DelayAt(interval, n, draw) == Delay(86_400_000_000_000)
    ensures (forall k | 1 <= k < n :: Doubled(interval, k) < 86_400_000_000_000) ==>
              var w, delay := Doubled(interval, n - 1), DelayAt(interval, n, draw);
              && (w <= -4 ==> delay.Panic?) && (-4 < w < 4 ==> delay == Delay(w)) && (w >= 4 ==> delay.Delay?)
              && (w >= 4 && w + w / 4 <= 9_223_372_036_854_775_807 ==> w <= delay.nanoseconds <= w + w / 4)
  {
    ReachesCapDoubled(interval, n);
    WrappedIsDoubled(interval, n - 1);
    JitterCases(Doubled(interval, n - 1), draw);
    hide Wrapped; hide Doubled; hide ReachesCap; hide Jittered;
  }

  /** Below the cap the jitter never closes the gap: every delay at one attempt is below every delay at the next. */
  lemma DelaysIncrease(interval: nat, n: nat, d: int, d': int)
    requires 0 < interval && 1 <= n && Base(interval, n + 1) < DAY
    requires Allowed(interval, n, d) && Allowed(interval, n + 1, d')
    ensures d < d'
  {
  }

  /** From the first capped attempt on, every allowed delay is 24 hours. */
  lemma CapStays(interval: nat, m: nat, n: nat, d: int)
    requires Capped(interval, m) && m <= n && Allowed(interval, n, d)
    ensures d == DAY
  {
    BaseGrows(interval, m, n);
  }
}
