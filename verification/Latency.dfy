/** The processing-latency metric: any number of workers add to a counter and a sum and raise a maximum by
    compare-and-swap, each atomic operation a step of its own. */
module Latency {
  import opened Int64

  /** Where one observation stands; `Trying` has loaded a maximum below its own value. */
  datatype Phase = Entered | Counted | Summed | Trying(current: int) | Finished

  /** `values[i]` is what observer `i` observes. */
  datatype Meter = Meter(count: int, sum: int, max: int, values: seq<int>, phases: seq<Phase>)

  const ZERO := Meter(0, 0, 0, [], [])

  /** The atomic operations of observer `i`. */
  datatype Step = Enter(value: int) | AddCount(i: nat) | AddSum(i: nat) | Load(i: nat) | Swap(i: nat)

  predicate Enabled(m: Meter, step: Step) {
    |m.phases| == |m.values| &&
    match step
    case Enter(value) => IsInt64(value)
    case AddCount(i) => i < |m.phases| && m.phases[i].Entered?
    case AddSum(i) => i < |m.phases| && m.phases[i].Counted?
    case Load(i) => i < |m.phases| && m.phases[i].Summed?
    case Swap(i) => i < |m.phases| && m.phases[i].Trying?
  }

  function Apply(m: Meter, step: Step): Meter
    requires Enabled(m, step)
  {
    match step
    case Enter(value) => m.(values := m.values + [value], phases := m.phases + [Entered])
    case AddCount(i) => m.(count := Wrap(m.count + 1), phases := m.phases[i := Counted])
    case AddSum(i) => m.(sum := Wrap(m.sum + m.values[i]), phases := m.phases[i := Summed])
    case Load(i) => m.(phases := m.phases[i := if m.values[i] > m.max then Trying(m.max) else Finished])
    case Swap(i) =>
      if m.max == m.phases[i].current then m.(max := m.values[i], phases := m.phases[i := Finished])
      else m.(phases := m.phases[i := Summed])
  }

  datatype Run = Start | Then(prefix: Run, step: Step)

  predicate Valid(r: Run)
    decreases r, 0
  {
    r.Then? ==> Valid(r.prefix) && Enabled(Last(r.prefix), r.step)
  }

  function Last(r: Run): Meter
    requires Valid(r)
    decreases r, 1
  {
    match r
    case Start => ZERO
    case Then(p, step) => Apply(Last(p), step)
  }

  // ----- what the fields mean in every state

  function Total(xs: seq<int>): int {
    if xs == [] then 0 else Total(xs[..|xs| - 1]) + xs[|xs| - 1]
  }

  lemma {:induction false} TotalUpdate(xs: seq<int>, i: nat, x: int)
    requires i < |xs|
    ensures Total(xs[i := x]) == Total(xs) - xs[i] + x
  {
    var n := |xs| - 1;
    if i < n {
      TotalUpdate(xs[..n], i, x);
      assert xs[i := x][..n] == xs[..n][i := x];
    } else {
      assert xs[i := x][..n] == xs[..n];
    }
  }

  /** What each observer has added to the counter and to the sum so far. */
  function Counts(phases: seq<Phase>): (counts: seq<int>)
    ensures |counts| == |phases|
  {
    seq(|phases|, i requires 0 <= i < |phases| => if phases[i].Entered? then 0 else 1)
  }

  function Sums(values: seq<int>, phases: seq<Phase>): (sums: seq<int>)
    requires |values| == |phases|
    ensures |sums| == |phases|
  {
    seq(|phases|, i requires 0 <= i < |phases| => if phases[i].Entered? || phases[i].Counted? then 0 else values[i])
  }

  /** `max` is the largest value of a finished observation, or zero. */
  ghost predicate IsPeak(max: int, values: seq<int>, phases: seq<Phase>)
    requires |values| == |phases|
  {
    && max >= 0
    && (forall i | 0 <= i < |phases| && phases[i].Finished? :: values[i] <= max)
    && (max == 0 || exists i | 0 <= i < |phases| :: phases[i].Finished? && values[i] == max)
  }

  ghost predicate LedgerExact(m: Meter) {
    && |m.phases| == |m.values|
    && m.count == Wrap(Total(Counts(m.phases)))
    && m.sum == Wrap(Total(Sums(m.values, m.phases)))
  }

  /** Every field is exact at every moment: an observation counts, adds and is visible in the maximum from the step that
      does it, whatever the interleaving. */
  ghost predicate Exact(m: Meter) {
    && LedgerExact(m)
    && IsPeak(m.max, m.values, m.phases)
    && (forall i | 0 <= i < |m.phases| && m.phases[i].Trying? ::
          m.phases[i].current <= m.max && m.phases[i].current < m.values[i])
  }

  lemma EnterKeepsLedger(m: Meter, value: int)
    requires |m.phases| == |m.values|
    ensures Total(Counts(m.phases + [Entered])) == Total(Counts(m.phases))
    ensures Total(Sums(m.values + [value], m.phases + [Entered])) == Total(Sums(m.values, m.phases))
  {
    var counts, sums := Counts(m.phases + [Entered]), Sums(m.values + [value], m.phases + [Entered]);
    assert counts[..|counts| - 1] == Counts(m.phases);
    assert sums[..|sums| - 1] == Sums(m.values, m.phases);
  }

  lemma MoveChangesLedger(m: Meter, i: nat, phase: Phase)
    requires |m.phases| == |m.values| && i < |m.phases|
    ensures Total(Counts(m.phases[i := phase])) ==
            Total(Counts(m.phases)) - Counts(m.phases)[i] + (if phase.Entered? then 0 else 1)
    ensures Total(Sums(m.values, m.phases[i := phase])) ==
            Total(Sums(m.values, m.phases)) - Sums(m.values, m.phases)[i]
            + (if phase.Entered? || phase.Counted? then 0 else m.values[i])
  {
    var one, value := if phase.Entered? then 0 else 1, if phase.Entered? || phase.Counted? then 0 else m.values[i];
    assert Counts(m.phases[i := phase]) == Counts(m.phases)[i := one];
    assert Sums(m.values, m.phases[i := phase]) == Sums(m.values, m.phases)[i := value];
    TotalUpdate(Counts(m.phases), i, one);
    TotalUpdate(Sums(m.values, m.phases), i, value);
  }

  lemma StepKeepsPeak(m: Meter, step: Step)
    requires Exact(m) && Enabled(m, step)
    ensures var m' := Apply(m, step);
            |m'.phases| == |m'.values| && IsPeak(m'.max, m'.values, m'.phases) && m.max <= m'.max
  {
    hide Wrap; hide Total; hide Counts; hide Sums;
    var m' := Apply(m, step);
    if m'.max != m.max {
      assert m'.phases[step.i].Finished?;
    } else if m.max != 0 {
      var i :| 0 <= i < |m.phases| && m.phases[i].Finished? && m.values[i] == m.max;
      assert m'.phases[i].Finished? && m'.values[i] == m'.max;
    }
  }

  lemma StepKeepsLedger(m: Meter, step: Step)
    requires LedgerExact(m) && Enabled(m, step)
    ensures LedgerExact(Apply(m, step))
  {
    hide Wrap; hide Total;
    if step.Enter? {
      EnterKeepsLedger(m, step.value);
    } else {
      MoveChangesLedger(m, step.i, Apply(m, step).phases[step.i]);
      WrapAdds(Total(Counts(m.phases)), 1);
      WrapAdds(Total(Sums(m.values, m.phases)), m.values[step.i]);
    }
  }

  lemma StepKeepsExact(m: Meter, step: Step)
    requires Exact(m) && Enabled(m, step)
    ensures Exact(Apply(m, step)) && m.max <= Apply(m, step).max
  {
    StepKeepsPeak(m, step);
    StepKeepsLedger(m, step);
    hide Wrap; hide Total; hide IsPeak; hide LedgerExact;
  }

  lemma {:induction false} RunExact(r: Run)
    requires Valid(r)
    ensures Exact(Last(r))
  {
    if r.Then? {
      RunExact(r.prefix);
      hide Exact; hide Enabled; hide Apply;
      StepKeepsExact(Last(r.prefix), r.step);
    }
  }

  /** When all observations are complete, the counter is their number, the sum their sum, the maximum their maximum. */
  lemma CompleteMetrics(r: Run)
    requires Valid(r) && forall i | 0 <= i < |Last(r).phases| :: Last(r).phases[i].Finished?
    ensures var m := Last(r);
            && m.count == Wrap(|m.values|) && m.sum == Wrap(Total(m.values))
            && (forall i | 0 <= i < |m.values| :: m.values[i] <= m.max)
            && m.max >= 0 && (m.max == 0 || m.max in m.values)
  {
    RunExact(r);
    var m := Last(r);
    hide Last; hide Valid; hide Wrap; hide Total;
    assert Sums(m.values, m.phases) == m.values;
    Ones(Counts(m.phases));
  }

  lemma {:induction false} Ones(xs: seq<int>)
    requires forall i | 0 <= i < |xs| :: xs[i] == 1
    ensures Total(xs) == |xs|
  {
    if xs != [] {
      Ones(xs[..|xs| - 1]);
    }
  }

  // ----- the retry loop ends

  predicate Succeeds(m: Meter, step: Step)
    requires Enabled(m, step)
  {
    step.Swap? && m.max == m.phases[step.i].current
  }

  /** The failed swaps of observer `i`, and the successful swaps of all others. */
  function Failures(r: Run, i: nat): nat
    requires Valid(r)
  {
    match r
    case Start => 0
    case Then(p, step) => Failures(p, i) + if step == Swap(i) && !Succeeds(Last(p), step) then 1 else 0
  }

  function OtherSuccesses(r: Run, i: nat): nat
    requires Valid(r)
  {
    match r
    case Start => 0
    case Then(p, step) => OtherSuccesses(p, i) + if step != Swap(i) && Succeeds(Last(p), step) then 1 else 0
  }

  /** Each failed swap of an observer is paid for by somebody else's successful one since its load. */
  lemma {:induction false} FailuresPaid(r: Run, i: nat)
    requires Valid(r)
    ensures var m := Last(r);
            var stale := i < |m.phases| && m.phases[i].Trying? && m.phases[i].current != m.max;
            Failures(r, i) + (if stale then 1 else 0) <= OtherSuccesses(r, i)
  {
    if r.Then? {
      FailuresPaid(r.prefix, i);
      RunExact(r.prefix);
      hide Exact; hide Wrap;
    }
  }

  /** Every observer but `i` succeeds at most once, and only when it finishes. */
  function FinishedOthers(phases: seq<Phase>, i: nat): nat {
    if phases == [] then 0
    else
      var n := |phases| - 1;
      FinishedOthers(phases[..n], i) + if phases[n].Finished? && n != i then 1 else 0
  }

  lemma {:induction false} FinishedUpdate(phases: seq<Phase>, i: nat, j: nat, phase: Phase)
    requires j < |phases| && !phases[j].Finished?
    ensures FinishedOthers(phases[j := phase], i)
            == FinishedOthers(phases, i) + if phase.Finished? && j != i then 1 else 0
  {
    var n := |phases| - 1;
    if j < n {
      FinishedUpdate(phases[..n], i, j, phase);
      assert phases[j := phase][..n] == phases[..n][j := phase];
    } else {
      assert phases[j := phase][..n] == phases[..n];
    }
  }

  lemma {:induction false} FinishedFew(phases: seq<Phase>, i: nat)
    ensures FinishedOthers(phases, i) <= |phases| - if i < |phases| then 1 else 0
  {
    if phases != [] {
      FinishedFew(phases[..|phases| - 1], i);
    }
  }

  lemma {:induction false} SuccessesFinish(r: Run, i: nat)
    requires Valid(r)
    ensures OtherSuccesses(r, i) <= FinishedOthers(Last(r).phases, i)
  {
    if r.Then? {
      SuccessesFinish(r.prefix, i);
      var m := Last(r.prefix);
      hide FinishedOthers; hide Wrap;
      if r.step.Enter? {
        EnterFinishesNone(m.phases, i);
      } else {
        FinishedUpdate(m.phases, i, r.step.i, Last(r).phases[r.step.i]);
      }
    }
  }

  lemma EnterFinishesNone(phases: seq<Phase>, i: nat)
    ensures FinishedOthers(phases + [Entered], i) == FinishedOthers(phases, i)
  {
    assert (phases + [Entered])[..|phases|] == phases;
  }

  /** Among n observations, none fails more than n - 1 swaps: every failure is paid for by another's success, and nobody
      succeeds twice. */
  lemma LoopBound(r: Run, i: nat)
    requires Valid(r) && i < |Last(r).values|
    ensures Failures(r, i) <= OtherSuccesses(r, i) <= |Last(r).values| - 1
  {
    FailuresPaid(r, i);
    RunExact(r);
    SuccessesFinish(r, i);
    FinishedFew(Last(r).phases, i);
  }

  // ----- the code

  predicate Continues(r: Run, earlier: Run) {
    r == earlier || (r.Then? && Continues(r.prefix, earlier))
  }

  lemma Extended(r: Run, step: Step)
    requires Valid(r) && Enabled(Last(r), step)
    ensures Valid(Then(r, step)) && Last(Then(r, step)) == Apply(Last(r), step)
  {
    hide Enabled; hide Apply;
  }

  predicate By(step: Step, i: nat) {
    !step.Enter? && step.i == i
  }

  lemma OthersLeave(r: Run, step: Step, i: nat)
    requires Valid(r) && Enabled(Last(r), step) && !By(step, i) && i < |Last(r).phases|
    ensures var m, m' := Last(r), Apply(Last(r), step);
            && |m'.values| == |m'.phases| && i < |m'.phases|
            && m'.phases[i] == m.phases[i] && m'.values[i] == m.values[i] && m.max <= m'.max
            && Failures(Then(r, step), i) == Failures(r, i)
  {
    RunExact(r);
    StepKeepsExact(Last(r), step);
    hide Exact; hide Wrap;
  }

  /** The three atomics, with the observations under way next to them. */
  class ProcessingLatency {
    const alone: bool

    var count: int
    var sumNS: int
    var maxNS: int
    var values: seq<int>
    var phases: seq<Phase>

    ghost var run: Run

    function Reading(): Meter
      reads this
    {
      Meter(count, sumNS, maxNS, values, phases)
    }

    ghost predicate Holds()
      reads this
    {
      Valid(run) && Last(run) == Reading()
    }

    twostate predicate Did(step: Step)
      reads this
    {
      Holds() && run == Then(old(run), step)
    }

    constructor (alone: bool)
      ensures Holds() && run == Start && this.alone == alone
    {
      this.alone := alone;
      count, sumNS, maxNS, values, phases, run := 0, 0, 0, [], [], Start;
    }

    method Take(step: Step)
      requires Holds() && Enabled(Reading(), step)
      modifies this
      ensures Did(step) && Reading() == old(Apply(Reading(), step))
    {
      hide Enabled; hide Apply; hide Valid; hide Last;
      var m := Apply(Reading(), step);
      count, sumNS, maxNS, values, phases := m.count, m.sum, m.max, m.values, m.phases;
      Extended(run, step);
      run := Then(run, step);
    }

    /** Any number of steps of other observers. */
    method Interfere(i: nat)
      requires Holds() && i < |phases|
      modifies this
      ensures Holds() && |values| == |phases| && i < |phases|
      ensures phases[i] == old(phases)[i] && values[i] == old(values)[i] && old(maxNS) <= maxNS
      ensures Failures(run, i) == old(Failures(run, i))
      ensures forall r | Continues(old(run), r) :: Continues(run, r)
      ensures alone ==> Reading() == old(Reading()) && run == old(run)
    {
      RunExact(run);
      if alone {
        return;
      }
      hide Valid; hide Last; hide Exact; hide Enabled; hide Apply; hide Failures; hide By;
      var steps: seq<Step> := *;
      for k := 0 to |steps|
        invariant Holds() && |values| == |phases| && i < |phases|
        invariant phases[i] == old(phases)[i] && values[i] == old(values)[i] && old(maxNS) <= maxNS
        invariant Failures(run, i) == old(Failures(run, i))
        invariant forall r | Continues(old(run), r) :: Continues(run, r)
      {
        if Enabled(Reading(), steps[k]) && !By(steps[k], i) {
          OthersLeave(run, steps[k], i);
          Take(steps[k]);
        }
      }
    }

    method AddToCount(i: nat)
      requires Holds() && Enabled(Reading(), AddCount(i))
      modifies this`count, this`phases, this`run
      ensures Did(AddCount(i)) && count == old(Wrap(count + 1)) && phases == old(phases)[i := Counted]
    {
      hide Valid; hide Last;
      count := Wrap(count + 1);
      phases := phases[i := Counted];
      Extended(run, AddCount(i));
      run := Then(run, AddCount(i));
    }

    method AddToSum(i: nat, nanoseconds: int)
      requires Holds() && Enabled(Reading(), AddSum(i)) && values[i] == nanoseconds
      modifies this`sumNS, this`phases, this`run
      ensures Did(AddSum(i)) && sumNS == old(Wrap(sumNS + nanoseconds)) && phases == old(phases)[i := Summed]
    {
      hide Valid; hide Last;
      sumNS := Wrap(sumNS + nanoseconds);
      phases := phases[i := Summed];
      Extended(run, AddSum(i));
      run := Then(run, AddSum(i));
    }

    method LoadMax(i: nat) returns (current: int)
      requires Holds() && Enabled(Reading(), Load(i))
      modifies this`phases, this`run
      ensures Did(Load(i)) && current == maxNS
      ensures phases == old(phases)[i := if values[i] > current then Trying(current) else Finished]
    {
      hide Valid; hide Last;
      current := maxNS;
      phases := phases[i := if values[i] > current then Trying(current) else Finished];
      Extended(run, Load(i));
      run := Then(run, Load(i));
    }

    method CompareAndSwapMax(i: nat, current: int, nanoseconds: int) returns (swapped: bool)
      requires Holds() && Enabled(Reading(), Swap(i)) && phases[i] == Trying(current) && values[i] == nanoseconds
      modifies this`maxNS, this`phases, this`run
      ensures Did(Swap(i)) && swapped == (old(maxNS) == current)
      ensures maxNS == if swapped then nanoseconds else old(maxNS)
      ensures phases == old(phases)[i := if swapped then Finished else Summed]
    {
      hide Valid; hide Last;
      swapped := maxNS == current;
      if swapped {
        maxNS := nanoseconds;
      }
      phases := phases[i := if swapped then Finished else Summed];
      Extended(run, Swap(i));
      run := Then(run, Swap(i));
    }

    method Register(nanoseconds: int) returns (i: nat)
      requires Holds() && IsInt64(nanoseconds)
      modifies this
      ensures Holds() && Continues(run, old(run))
      ensures |values| == |phases| && i < |phases| && phases[i].Summed? && values[i] == nanoseconds
      ensures Failures(run, i) == 0
      ensures alone ==> count == old(Wrap(count + 1)) && sumNS == old(Wrap(sumNS + nanoseconds)) && maxNS == old(maxNS)
    {
      RunExact(run);
      assert |values| == |phases|;
      hide Valid; hide Last; hide Wrap; hide Exact;
      i := |phases|;
      NoFailuresYet(run, i);
      Take(Enter(nanoseconds));
      assert Continues(run, old(run));
      Interfere(i);
      AddToCount(i);
      assert Continues(run, old(run));
      Interfere(i);
      AddToSum(i, nanoseconds);
      assert Continues(run, old(run));
    }

    /** The maximum ends at or above the observation, after as many failed swaps as the run shows for it. */
    method ObserveEventProcessingDuration(nanoseconds: int) returns (i: nat, failures: nat)
      requires Holds() && IsInt64(nanoseconds)
      modifies this
      ensures Holds() && Continues(run, old(run))
      ensures |values| == |phases| && i < |phases| && phases[i].Finished? && values[i] == nanoseconds
      ensures failures == Failures(run, i) && nanoseconds <= maxNS
      ensures alone ==>
                && count == old(Wrap(count + 1)) && sumNS == old(Wrap(sumNS + nanoseconds)) && failures == 0
                && maxNS == if nanoseconds > old(maxNS) then nanoseconds else old(maxNS)
    {
      hide Valid; hide Last; hide Wrap; hide Exact;
      i := Register(nanoseconds);
      Interfere(i);
      failures := 0;
      var current := LoadMax(i);
      while nanoseconds > current
        invariant Holds() && Continues(run, old(run))
        invariant |values| == |phases| && i < |phases| && values[i] == nanoseconds
        invariant phases[i] == if nanoseconds > current then Trying(current) else Finished
        invariant failures == Failures(run, i) && current <= maxNS
        invariant alone ==>
                    && count == old(Wrap(count + 1)) && sumNS == old(Wrap(sumNS + nanoseconds)) && failures == 0
                    && current == maxNS == old(maxNS)
        decreases nanoseconds - current
      {
        assert Continues(run, old(run));
        Interfere(i);
        var swapped := CompareAndSwapMax(i, current, nanoseconds);
        if swapped {
          break;
        }
        failures := failures + 1;
        assert Continues(run, old(run));
        Interfere(i);
        current := LoadMax(i);
      }
    }
  }

  lemma {:induction false} NoFailuresYet(r: Run, i: nat)
    requires Valid(r) && |Last(r).phases| <= i
    ensures Failures(r, i) == 0
  {
    if r.Then? {
      hide Wrap;
      NoFailuresYet(r.prefix, i);
    }
  }
}
