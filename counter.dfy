/**
 * The counting logic of `AnimatedDigitView` and `CounterView`: how many steps a digit or a
 * number takes, in which direction, and the actions each step appends to an animation
 * sequence. Closures become `DigitEffect` values naming the state they would change.
 */
module Counter {
  import opened Outcomes
  import opened AnimationSequencing
  import opened SwiftInts

  // ----- The number helpers the views use -----

  /** `10 ** i` */
  function Pow10(i: nat): (p: nat)
    ensures p >= 1
  {
    if i == 0 then 1 else 10 * Pow10(i - 1)
  }

  /** `n.digits`: the decimal digits of |n|, most significant first; zero has the one digit 0. */
  function Digits(n: int): (ds: seq<int>)
    ensures |ds| >= 1
    ensures forall k :: 0 <= k < |ds| ==> 0 <= ds[k] <= 9
    ensures |ds| > 1 ==> ds[0] != 0
    decreases Abs(n)
  {
    var m := Abs(n);
    if m < 10 then [m] else Digits(m / 10) + [m % 10]
  }

  /** `MathsToolbox.requiredDigits(n, base: 10)` */
  function RequiredDigits(n: int): nat
  {
    |Digits(n)|
  }

  /** A number of `L` digits lies in [10^(L-1), 10^L). */
  lemma {:induction false} DigitsBounds(n: int)
    requires n >= 1
    ensures Pow10(|Digits(n)| - 1) <= n < Pow10(|Digits(n)|)
    decreases n
  {
    if n >= 10 {
      var q := n / 10;
      DigitsBounds(q);
      var l := |Digits(q)|;
      assert |Digits(n)| == l + 1;
      assert Pow10(l) == 10 * Pow10(l - 1);
      assert Pow10(l + 1) == 10 * Pow10(l);
      assert 10 * q <= n < 10 * q + 10;
    }
  }

  // ----- AnimatedDigitView -----

  /** `AnimatedDigitView.Direction` */
  datatype Direction = Decreasing | Increasing | Closest

  /** What a closure appended by the counters does, and to which digit position. */
  datatype DigitEffect =
    | ShowIncoming(position: int, digit: Option<int>)  // the animation state becomes (0, digit)
    | SlideIn(position: int, digit: Option<int>)       // the animation state becomes (height, digit)
    | Settle(position: int, digit: Option<int>)        // the displayed digit becomes `digit`
    | NoEffect                                         // an empty closure
    | Complete                                         // `onAnimationComplete?()`

  predicate IsDigit(d: int)
  {
    0 <= d <= 9
  }

  /** The step count and the resolved direction `startAnimation` chooses for one digit. */
  function DigitPlan(startDigit: int, endDigit: int, direction: Direction): (plan: (int, Direction))
    ensures plan.1 != Closest
    ensures direction != Closest ==> plan.1 == direction
    ensures IsDigit(startDigit) && IsDigit(endDigit) ==>
              && 0 <= plan.0 <= 9
              && (plan.1 == Decreasing ==> plan.0 == (startDigit - endDigit) % 10)
              && (plan.1 == Increasing ==> plan.0 == (endDigit - startDigit) % 10)
    ensures IsDigit(startDigit) && IsDigit(endDigit) && direction == Closest ==>
              && plan.0 <= (startDigit - endDigit) % 10
              && (startDigit != endDigit ==> plan.0 <= (endDigit - startDigit) % 10)
              && (plan.1 == Decreasing <==>
                    startDigit == endDigit || (endDigit - startDigit) % 10 > (startDigit - endDigit) % 10)
  {
    match direction
    case Decreasing =>
      (if endDigit <= startDigit then startDigit - endDigit else 10 - (endDigit - startDigit), Decreasing)
    case Increasing =>
      (if endDigit >= startDigit then endDigit - startDigit else 10 - (startDigit - endDigit), Increasing)
    case Closest =>
      var stepsDecreasing := if endDigit <= startDigit then startDigit - endDigit else 10 - (endDigit - startDigit);
      var stepsIncreasing := if endDigit <= startDigit then 10 - (startDigit - endDigit) else endDigit - startDigit;
      if stepsIncreasing > stepsDecreasing then (stepsDecreasing, Decreasing) else (stepsIncreasing, Increasing)
  }

  /** One iteration of the digit loop: the next digit in `direction`. */
  function NextDigit(d: int, direction: Direction): int
    requires direction != Closest
  {
    if direction == Decreasing then (if d == 0 then 9 else d - 1) else TruncMod(d + 1, 10)
  }

  /** The digit `k` steps from `startDigit` in `direction`, in closed form. */
  function DigitAfter(startDigit: int, direction: Direction, k: int): (d: int)
    ensures IsDigit(d)
  {
    if direction == Decreasing then (startDigit - k) % 10 else (startDigit + k) % 10
  }

  /** The loop's step agrees with the closed form. */
  lemma NextDigitAfter(startDigit: int, direction: Direction, k: int)
    requires direction != Closest
    ensures NextDigit(DigitAfter(startDigit, direction, k), direction) == DigitAfter(startDigit, direction, k + 1)
  {
    var d := DigitAfter(startDigit, direction, k);
    if direction == Decreasing {
      var q := (startDigit - k) / 10;
      assert startDigit - k == 10 * q + d;
      if d == 0 {
        assert startDigit - (k + 1) == 10 * (q - 1) + 9;
      } else {
        assert startDigit - (k + 1) == 10 * q + (d - 1);
      }
    } else {
      var q := (startDigit + k) / 10;
      assert startDigit + k == 10 * q + d;
      if d == 9 {
        assert startDigit + k + 1 == 10 * (q + 1) + 0;
      } else {
        assert startDigit + k + 1 == 10 * q + (d + 1);
      }
    }
  }

  /** Within the planned steps, the end digit is reached at the last one and not before. */
  lemma DigitReachedExactly(startDigit: int, endDigit: int, direction: Direction, k: int)
    requires IsDigit(startDigit) && IsDigit(endDigit)
    requires 0 <= k <= DigitPlan(startDigit, endDigit, direction).0
    ensures var (steps, dir) := DigitPlan(startDigit, endDigit, direction);
            DigitAfter(startDigit, dir, k) == endDigit <==> k == steps
  {
    var (steps, dir) := DigitPlan(startDigit, endDigit, direction);
    if dir == Decreasing {
      if startDigit - k < 0 {
        assert (startDigit - k) % 10 == startDigit - k + 10;
      } else {
        assert (startDigit - k) % 10 == startDigit - k;
      }
    } else {
      if startDigit + k >= 10 {
        assert (startDigit + k) % 10 == startDigit + k - 10;
      } else {
        assert (startDigit + k) % 10 == startDigit + k;
      }
    }
  }

  /** The three actions of one digit step: show the incoming digit, slide it in, settle on it. */
  function DigitStep(position: int, digit: Option<int>, delay: real, single: real): (acts: seq<Action<DigitEffect>>)
    ensures |acts| == 3 && TotalOf(acts) == delay + single
    ensures acts[1].Animation? && acts[1].RunDuration() == single
    ensures acts[2].Effect() == Some(Settle(position, digit))
  {
    var acts := [Function(ShowIncoming(position, digit), delay),
                 Animation(SlideIn(position, digit), single, 0.0),
                 Function(Settle(position, digit), 0.0)];
    TotalOfThree(acts[0], acts[1], acts[2]);
    acts
  }

  /** The actions of the first `k` steps of one digit, the first step carrying `delay`. */
  function DigitSteps(startDigit: int, direction: Direction, k: nat, delay: real, single: real): seq<Action<DigitEffect>>
  {
    if k == 0 then []
    else
      DigitSteps(startDigit, direction, k - 1, delay, single)
        + DigitStep(0, Some(DigitAfter(startDigit, direction, k)), if k == 1 then delay else 0.0, single)
  }

  /** `k` steps take the delay plus `k` single-step durations. */
  lemma {:induction false} DigitStepsTotal(startDigit: int, direction: Direction, k: nat, delay: real, single: real)
    ensures |DigitSteps(startDigit, direction, k, delay, single)| == 3 * k
    ensures TotalOf(DigitSteps(startDigit, direction, k, delay, single))
         == if k == 0 then 0.0 else delay + k as real * single
  {
    if k > 0 {
      var prefix := DigitSteps(startDigit, direction, k - 1, delay, single);
      var last := DigitStep(0, Some(DigitAfter(startDigit, direction, k)), if k == 1 then delay else 0.0, single);
      assert DigitSteps(startDigit, direction, k, delay, single) == prefix + last;
      DigitStepsTotal(startDigit, direction, k - 1, delay, single);
      OneMoreStep(prefix, last, k, delay, single);
    }
  }

  /** Appending the `k`-th step's actions to the first `k - 1` steps' adds one step's length and time. */
  lemma OneMoreStep(prefix: seq<Action<DigitEffect>>, last: seq<Action<DigitEffect>>, k: nat, delay: real, single: real)
    requires k > 0 && |prefix| == 3 * (k - 1) && |last| == 3
    requires TotalOf(prefix) == if k == 1 then 0.0 else delay + (k - 1) as real * single
    requires TotalOf(last) == (if k == 1 then delay else 0.0) + single
    ensures |prefix + last| == 3 * k
    ensures TotalOf(prefix + last) == delay + k as real * single
  {
    TotalOfConcat(prefix, last);
    assert k as real * single == (k - 1) as real * single + single;
  }

  /** The settled digits of the steps are the successive digits in the chosen direction. */
  lemma {:induction false} DigitStepsSettle(startDigit: int, direction: Direction, k: nat, delay: real, single: real, j: nat)
    requires j < k
    ensures |DigitSteps(startDigit, direction, k, delay, single)| == 3 * k
    ensures DigitSteps(startDigit, direction, k, delay, single)[3 * j + 2].Effect()
         == Some(Settle(0, Some(DigitAfter(startDigit, direction, j + 1))))
  {
    DigitStepsTotal(startDigit, direction, k, delay, single);
    DigitStepsTotal(startDigit, direction, k - 1, delay, single);
    if j < k - 1 {
      DigitStepsSettle(startDigit, direction, k - 1, delay, single, j);
    }
  }

  /** The first step waits for the delay. */
  lemma {:induction false} DigitStepsStart(startDigit: int, direction: Direction, k: nat, delay: real, single: real)
    requires k >= 1
    ensures |DigitSteps(startDigit, direction, k, delay, single)| == 3 * k
    ensures DigitSteps(startDigit, direction, k, delay, single)[0].StartDelay() == delay
  {
    DigitStepsTotal(startDigit, direction, k, delay, single);
    if k > 1 {
      DigitStepsStart(startDigit, direction, k - 1, delay, single);
    }
  }

  /** `animationDuration / Double(numberOfSteps)`; the value is never used when there are no steps. */
  function SingleStepDuration(animationDuration: real, numberOfSteps: int): real
  {
    if numberOfSteps <= 0 then 0.0 else animationDuration / numberOfSteps as real
  }

  /** The sequence of one digit lasts the delay plus the animation duration, or nothing
      when the digit does not move. */
  lemma DigitAnimationTotal(startDigit: int, direction: Direction, steps: nat, delay: real, animationDuration: real)
    ensures TotalOf(DigitSteps(startDigit, direction, steps, delay, SingleStepDuration(animationDuration, steps))
                    + [Function(Complete, 0.0)])
         == if steps == 0 then 0.0 else delay + animationDuration
  {
    var single := SingleStepDuration(animationDuration, steps);
    DigitStepsTotal(startDigit, direction, steps, delay, single);
    TotalOfConcat(DigitSteps(startDigit, direction, steps, delay, single), [Function(Complete, 0.0)]);
    assert [Function(Complete, 0.0)][..0] == [];
    if steps > 0 {
      assert steps as real * (animationDuration / steps as real) == animationDuration;
    }
  }

  /** The body of the loop in `AnimatedDigitView.startAnimation`: the three appends of one step. */
  method AppendDigitStep(sequence: AnimationSequence<DigitEffect>, digit: Option<int>, delay: real, single: real)
    modifies sequence`actions, sequence`totalDuration
    requires sequence.Consistent()
    ensures sequence.actions == old(sequence.actions) + DigitStep(0, digit, delay, single)
    ensures sequence.Consistent()
  {
    ghost var before := sequence.actions;
    var show, slide, settle := Function(ShowIncoming(0, digit), delay),
                               Animation(SlideIn(0, digit), single, 0.0),
                               Function(Settle(0, digit), 0.0);
    var _ := sequence.AppendFunction(ShowIncoming(0, digit), delay);
    var _ := sequence.AppendAnimation(SlideIn(0, digit), single, 0.0);
    var _ := sequence.AppendFunction(Settle(0, digit), 0.0);
    assert sequence.actions == before + [show] + [slide] + [settle];
    assert DigitStep(0, digit, delay, single) == [show, slide, settle];
  }

  /**
   * `AnimatedDigitView.startAnimation`: plans the steps, fills a fresh animation sequence with
   * three actions per step and a completion, and executes it.
   */
  method AnimateDigit(startDigit: int, endDigit: int, direction: Direction,
                      animationDuration: real, animationDelay: real)
    returns (actions: seq<Action<DigitEffect>>, total: real, first: Option<Step>,
             displayDigit: int, finalDirection: Direction)
    requires IsDigit(startDigit) && IsDigit(endDigit)
    ensures var (steps, dir) := DigitPlan(startDigit, endDigit, direction);
            && finalDirection == dir && displayDigit == startDigit
            && actions == DigitSteps(startDigit, dir, steps, animationDelay, SingleStepDuration(animationDuration, steps))
                          + [Function(Complete, 0.0)]
            && total == (if steps == 0 then 0.0 else animationDelay + animationDuration)
            && first == Some(Step(0, if steps == 0 then 0.0 else animationDelay, false))
  {
    var (numberOfSteps, dir) := DigitPlan(startDigit, endDigit, direction);
    var single := SingleStepDuration(animationDuration, numberOfSteps);
    var delay := animationDelay;
    var sequence := new AnimationSequence<DigitEffect>([]);
    var currentDigit := startDigit;
    var k := 0;
    while currentDigit != endDigit
      invariant 0 <= k <= numberOfSteps
      invariant currentDigit == DigitAfter(startDigit, dir, k)
      invariant delay == if k == 0 then animationDelay else 0.0
      invariant sequence.actions == DigitSteps(startDigit, dir, k, animationDelay, single)
      invariant sequence.Consistent()
      decreases numberOfSteps - k
    {
      DigitReachedExactly(startDigit, endDigit, direction, k);
      var nextDigit := NextDigit(currentDigit, dir);
      NextDigitAfter(startDigit, dir, k);
      AppendDigitStep(sequence, Some(nextDigit), delay, single);
      delay := 0.0;
      currentDigit := nextDigit;
      k := k + 1;
    }
    DigitReachedExactly(startDigit, endDigit, direction, k);
    displayDigit := startDigit;
    finalDirection := dir;
    var _ := sequence.AppendFunction(Complete, 0.0);
    actions := sequence.actions;
    DigitAnimationTotal(startDigit, dir, k, animationDelay, animationDuration);
    if k > 0 {
      DigitStepsStart(startDigit, dir, k, animationDelay, single);
    }
    total, first := sequence.Execute();
  }

  // ----- CounterView -----

  /** The view state `CounterView.init` sets up. */
  datatype CounterState = CounterState(
    animationDuration: real,
    startValueDigits: seq<Option<int>>,
    endValueDigits: seq<Option<int>>,
    displayDigits: seq<Option<int>>,
    digitAnimations: seq<Option<(real, Option<int>)>>)

  /** `digits` padded at the front with `nil` up to `width`. */
  predicate PaddedTo(padded: seq<Option<int>>, digits: seq<int>, width: int)
  {
    && |padded| == width >= |digits|
    && (forall k :: 0 <= k < width - |digits| ==> padded[k] == None)
    && (forall k :: width - |digits| <= k < width ==> padded[k] == Some(digits[k - (width - |digits|)]))
  }

  /** The padding loops of `CounterView.init`: the shorter digit list gains leading `nil`s. */
  method PadDigits(startDigits: seq<int>, endDigits: seq<int>) returns (s: seq<Option<int>>, e: seq<Option<int>>)
    ensures PaddedTo(s, startDigits, Max(|startDigits|, |endDigits|))
    ensures PaddedTo(e, endDigits, Max(|startDigits|, |endDigits|))
  {
    s := seq(|startDigits|, k requires 0 <= k < |startDigits| => Some(startDigits[k]));
    e := seq(|endDigits|, k requires 0 <= k < |endDigits| => Some(endDigits[k]));
    if |s| > |e| {
      while |s| > |e|
        invariant PaddedTo(e, endDigits, |e|)
        invariant PaddedTo(s, startDigits, |startDigits|)
        invariant |e| <= |s|
        decreases |s| - |e|
      {
        e := [None] + e;
      }
    } else {
      while |s| < |e|
        invariant PaddedTo(s, startDigits, |s|)
        invariant PaddedTo(e, endDigits, |endDigits|)
        invariant |s| <= |e|
        decreases |e| - |s|
      {
        s := [None] + s;
      }
    }
  }

  /** `CounterView.defaultAnimationDuration`: a function of |start - end| alone. */
  function DefaultAnimationDuration(startValue: int, endValue: int): (duration: real)
    ensures 0.25 <= duration <= 2.5
    ensures 5 <= Abs(startValue - endValue) <= 50 ==> duration == Abs(startValue - endValue) as real / 20.0
  {
    var difference := Abs(startValue - endValue);
    if difference == 1 then 0.35
    else if 2 <= difference <= 4 then 0.5
    else if 5 <= difference <= 50 then difference as real * 0.05
    else 2.0
  }

  /** The default duration does not depend on the order or the offset of the two values. */
  lemma DefaultDurationOfDifference(startValue: int, endValue: int, shift: int)
    ensures DefaultAnimationDuration(startValue, endValue) == DefaultAnimationDuration(endValue, startValue)
    ensures DefaultAnimationDuration(startValue, endValue)
         == DefaultAnimationDuration(startValue + shift, endValue + shift)
    ensures startValue == endValue ==> DefaultAnimationDuration(startValue, endValue) == 2.0
  {
  }

  /** `CounterView.init` */
  method InitCounter(startValue: int, endValue: int, animationDuration: Option<real>) returns (st: CounterState)
    ensures st.animationDuration
         == if animationDuration.Some? then animationDuration.value else DefaultAnimationDuration(startValue, endValue)
    ensures var width := Max(RequiredDigits(startValue), RequiredDigits(endValue));
            && PaddedTo(st.startValueDigits, Digits(startValue), width)
            && PaddedTo(st.endValueDigits, Digits(endValue), width)
    ensures st.displayDigits == st.startValueDigits
    ensures |st.digitAnimations| == |st.startValueDigits|
    ensures forall k :: 0 <= k < |st.digitAnimations| ==> st.digitAnimations[k] == None
  {
    var duration := if animationDuration.Some? then animationDuration.value
                    else DefaultAnimationDuration(startValue, endValue);
    var s, e := PadDigits(Digits(startValue), Digits(endValue));
    st := CounterState(duration, s, e, s, seq(|s|, _ => None));
  }

  /** `numberOfSteps`, `stepSize` and `firstStepSize` of `CounterView.startAnimation`. */
  datatype StepPlan = StepPlan(numberOfSteps: int, stepSize: int, firstStepSize: Option<int>)

  /** The step planning of `CounterView.startAnimation`; `10^(⌊log10 d⌋ - 1)` is taken over the
      decimal length of `d`. */
  function PlanSteps(startValue: int, endValue: int): (plan: StepPlan)
    ensures plan.stepSize >= 1
    ensures Abs(endValue - startValue) < 20 ==> plan == StepPlan(Abs(endValue - startValue), 1, None)
    ensures Abs(endValue - startValue) >= 20 ==>
              && 10 * plan.stepSize <= Abs(endValue - startValue) < 100 * plan.stepSize
              && plan.numberOfSteps == Abs(endValue - startValue) / plan.stepSize + 1
              && 11 <= plan.numberOfSteps <= 100
              && plan.firstStepSize.Some?
              && 0 < plan.firstStepSize.value < 2 * plan.stepSize
              && TruncMod(startValue + plan.firstStepSize.value, plan.stepSize) == 0
  {
    var difference := Abs(endValue - startValue);
    if difference < 20 then StepPlan(difference, 1, None)
    else
      var step :=
        if difference < 50 then 2
        else if difference < 100 then 5
        else if difference < 250 then 10
        else if difference < 500 then 25
        else if difference < 1000 then 50
        else Pow10(|Digits(difference)| - 2);
      StepSizeBounds(difference, step);
      var first := step - TruncMod(startValue, step);
      FirstStepAligns(startValue, step);
      StepPlan(difference / step + 1, step, Some(first))
  }

  /** The chosen step divides the difference into 10 to 99 whole steps. */
  lemma StepSizeBounds(difference: int, step: int)
    requires difference >= 20
    requires step == if difference < 50 then 2
                     else if difference < 100 then 5
                     else if difference < 250 then 10
                     else if difference < 500 then 25
                     else if difference < 1000 then 50
                     else Pow10(|Digits(difference)| - 2)
    ensures step >= 1
    ensures 10 * step <= difference < 100 * step
    ensures 10 <= difference / step <= 99
  {
    if difference >= 1000 {
      DigitsBounds(difference);
      var l := |Digits(difference)|;
      assert Pow10(l) == 10 * Pow10(l - 1);
      assert Pow10(l - 1) == 10 * Pow10(l - 2);
    }
    DivBounds(difference, step);
  }

  lemma DivBounds(d: int, s: int)
    requires s >= 1 && 10 * s <= d < 100 * s
    ensures 10 <= d / s <= 99
  {
    var q, r := d / s, d % s;
    assert d == s * q + r && 0 <= r < s;
    assert s * (q - 9) == s * q - 9 * s;
    PositiveFactor(s, q - 9);
    assert s * (100 - q) == 100 * s - s * q;
    PositiveFactor(s, 100 - q);
  }

  lemma PositiveFactor(s: int, x: int)
    requires s > 0 && s * x > 0
    ensures x > 0
  {
  }

  /** Euclidean division undoes multiplication. */
  lemma MultipleDiv(s: int, m: int)
    requires s > 0
    ensures (s * m) / s == m
  {
    var d := s * m;
    var q := d / s;
    assert d == s * q + d % s && 0 <= d % s < s;
    assert s * (m - q) == d % s;
    if m - q >= 1 {
      assert false;
    } else if m - q <= -1 {
      assert false;
    }
  }

  /** The first step takes the start value to a multiple of the step size (or to zero from below). */
  lemma FirstStepAligns(startValue: int, step: int)
    requires step >= 1
    ensures TruncMod(startValue + (step - TruncMod(startValue, step)), step) == 0
  {
    var q := TruncDiv(startValue, step);
    var v := startValue + (step - TruncMod(startValue, step));
    assert step * (q + 1) == step * q + step;
    assert v == step * (q + 1);
    if v >= 0 {
      MultipleDiv(step, q + 1);
      assert TruncDiv(v, step) == q + 1;
    } else {
      assert -v == step * (-(q + 1));
      MultipleDiv(step, -(q + 1));
      assert TruncDiv(v, step) == q + 1;
    }
  }

  /** Whether digit `i` (counted from the right, as `10^i`) differs between two values. */
  predicate DigitChanges(i: nat, current: int, next: int)
  {
    TruncDiv(current, Pow10(i)) != TruncDiv(next, Pow10(i))
  }

  /** The digit shown at `10^i` for `value`: `nil` for a leading zero beyond the visible digits. */
  function ShownDigit(i: nat, value: int): (d: Option<int>)
    ensures d.Some? ==> -10 < d.value < 10
    ensures i < RequiredDigits(value) ==> d.Some?
  {
    var n := TruncDiv(value, Pow10(i));
    if i >= RequiredDigits(value) && n == 0 then None else Some(TruncMod(n, 10))
  }

  /** The three actions one value step appends to the sequence of digit `i`. */
  function StepActions(i: nat, current: int, next: int, digitCount: int, delay: real, single: real)
    : (acts: seq<Action<DigitEffect>>)
    ensures |acts| == 3 && TotalOf(acts) == delay + single
    ensures acts[1].Animation? <==> DigitChanges(i, current, next)
    ensures DigitChanges(i, current, next) ==>
              acts[2].Effect() == Some(Settle(digitCount - 1 - i, ShownDigit(i, next)))
    ensures !DigitChanges(i, current, next) ==>
              forall k :: 0 <= k < 3 ==> acts[k].Effect() == Some(NoEffect)
  {
    if DigitChanges(i, current, next) then
      DigitStep(digitCount - 1 - i, ShownDigit(i, next), delay, single)
    else
      var acts := [Function(NoEffect, delay), Function(NoEffect, single), Function(NoEffect, 0.0)];
      TotalOfThree(acts[0], acts[1], acts[2]);
      acts
  }

  /** Everything the walk through `values` appends to the sequence of digit `i`. */
  function DigitTrack(i: nat, values: seq<int>, digitCount: int, firstDelay: real, single: real)
    : seq<Action<DigitEffect>>
    requires |values| >= 1
    decreases |values|
  {
    var n := |values|;
    if n == 1 then []
    else
      DigitTrack(i, values[..n - 1], digitCount, firstDelay, single)
        + StepActions(i, values[n - 2], values[n - 1], digitCount, if n == 2 then firstDelay else 0.0, single)
  }

  /** Each value step contributes three actions. */
  lemma {:induction false} DigitTrackLength(i: nat, values: seq<int>, digitCount: int, firstDelay: real, single: real)
    requires |values| >= 1
    ensures |DigitTrack(i, values, digitCount, firstDelay, single)| == 3 * (|values| - 1)
    decreases |values|
  {
    if |values| > 1 {
      DigitTrackLength(i, values[..|values| - 1], digitCount, firstDelay, single);
    }
  }

  /** Every track lasts the first delay plus one single-step duration per value step. */
  lemma {:induction false} DigitTrackTotal(i: nat, values: seq<int>, digitCount: int, firstDelay: real, single: real)
    requires |values| >= 1
    ensures TotalOf(DigitTrack(i, values, digitCount, firstDelay, single))
         == if |values| == 1 then 0.0 else firstDelay + (|values| - 1) as real * single
    decreases |values|
  {
    var n := |values|;
    if n > 1 {
      var front := values[..n - 1];
      var prefix := DigitTrack(i, front, digitCount, firstDelay, single);
      var last := StepActions(i, values[n - 2], values[n - 1], digitCount, if n == 2 then firstDelay else 0.0, single);
      assert DigitTrack(i, values, digitCount, firstDelay, single) == prefix + last;
      DigitTrackTotal(i, front, digitCount, firstDelay, single);
      TotalOfConcat(prefix, last);
      if n > 2 {
        assert (n - 1) as real * single == (n - 2) as real * single + single;
      }
    }
  }

  /** Value step `k` contributes actions `3k`, `3k+1` and `3k+2` of the track. */
  lemma {:induction false} DigitTrackAt(i: nat, values: seq<int>, digitCount: int, firstDelay: real, single: real, k: nat)
    requires k < |values| - 1
    ensures |DigitTrack(i, values, digitCount, firstDelay, single)| == 3 * (|values| - 1)
    ensures DigitTrack(i, values, digitCount, firstDelay, single)[3 * k .. 3 * k + 3]
         == StepActions(i, values[k], values[k + 1], digitCount, if k == 0 then firstDelay else 0.0, single)
    decreases |values|
  {
    var n := |values|;
    var front := values[..n - 1];
    DigitTrackLength(i, values, digitCount, firstDelay, single);
    DigitTrackLength(i, front, digitCount, firstDelay, single);
    var prefix := DigitTrack(i, front, digitCount, firstDelay, single);
    var last := StepActions(i, values[n - 2], values[n - 1], digitCount, if n == 2 then firstDelay else 0.0, single);
    assert DigitTrack(i, values, digitCount, firstDelay, single) == prefix + last;
    if k < n - 2 {
      DigitTrackAt(i, front, digitCount, firstDelay, single, k);
      assert front[k] == values[k] && front[k + 1] == values[k + 1];
      TripleInFront(prefix, last, k);
    } else {
      TripleAtEnd(prefix, last, k);
    }
  }

  lemma TripleInFront<T>(a: seq<T>, b: seq<T>, k: nat)
    requires 3 * k + 3 <= |a|
    ensures (a + b)[3 * k .. 3 * k + 3] == a[3 * k .. 3 * k + 3]
  {
  }

  lemma TripleAtEnd<T>(a: seq<T>, b: seq<T>, k: nat)
    requires |a| == 3 * k && |b| == 3
    ensures (a + b)[3 * k .. 3 * k + 3] == b
  {
  }

  /** Extending the walk by one value appends that step's actions. */
  lemma DigitTrackExtend(i: nat, values: seq<int>, next: int, digitCount: int, firstDelay: real, single: real)
    requires |values| >= 1
    ensures DigitTrack(i, values + [next], digitCount, firstDelay, single)
         == DigitTrack(i, values, digitCount, firstDelay, single)
            + StepActions(i, values[|values| - 1], next, digitCount,
                          if |values| == 1 then firstDelay else 0.0, single)
  {
    assert (values + [next])[..|values|] == values;
  }

  /** The step size the walk plans for its step number `k`. */
  function PlannedStep(plan: StepPlan, k: int): int
  {
    if k == 0 && plan.firstStepSize.Some? then plan.firstStepSize.value else plan.stepSize
  }

  /** The next value with the overshoot clamped to `endValue` in both directions. */
  function ClampedNext(current: int, endValue: int, increasing: bool, step: int): int
  {
    if increasing then (if current + step > endValue then endValue else current + step)
    else (if current - step < endValue then endValue else current - step)
  }

  /** Strictly increasing when `increasing`, strictly decreasing otherwise. */
  predicate Monotone(values: seq<int>, increasing: bool)
  {
    && (increasing ==> forall j, k :: 0 <= j < k < |values| ==> values[j] < values[k])
    && (!increasing ==> forall j, k :: 0 <= j < k < |values| ==> values[j] > values[k])
  }

  /** Every step is at most the planned one, and exactly the planned one unless it lands on `endValue`. */
  predicate StepsFitPlan(values: seq<int>, endValue: int, plan: StepPlan)
  {
    forall k :: 0 <= k < |values| - 1 ==>
      && Abs(values[k + 1] - values[k]) <= PlannedStep(plan, k)
      && (values[k + 1] != endValue ==> Abs(values[k + 1] - values[k]) == PlannedStep(plan, k))
  }

  /** `values` is a walk from `startValue` toward `endValue` that has not passed it. */
  predicate IsWalk(values: seq<int>, startValue: int, endValue: int, plan: StepPlan)
  {
    && |values| >= 1 && values[0] == startValue
    && (endValue > startValue ==> values[|values| - 1] <= endValue)
    && (endValue <= startValue ==> values[|values| - 1] >= endValue)
    && Monotone(values, endValue > startValue)
    && StepsFitPlan(values, endValue, plan)
  }

  lemma MonotoneStep(values: seq<int>, increasing: bool, next: int)
    requires |values| >= 1 && Monotone(values, increasing)
    requires increasing ==> values[|values| - 1] < next
    requires !increasing ==> values[|values| - 1] > next
    ensures Monotone(values + [next], increasing)
  {
    var n := |values|;
    var w := values + [next];
    forall j, k | 0 <= j < k < |w|
      ensures increasing ==> w[j] < w[k]
      ensures !increasing ==> w[j] > w[k]
    {
      if k < n {
        assert w[j] == values[j] && w[k] == values[k];
      } else if j < n - 1 {
        assert w[j] == values[j];
      }
    }
  }

  lemma StepsFitStep(values: seq<int>, endValue: int, plan: StepPlan, next: int)
    requires |values| >= 1 && StepsFitPlan(values, endValue, plan)
    requires Abs(next - values[|values| - 1]) <= PlannedStep(plan, |values| - 1)
    requires next != endValue ==> Abs(next - values[|values| - 1]) == PlannedStep(plan, |values| - 1)
    ensures StepsFitPlan(values + [next], endValue, plan)
  {
    var n := |values|;
    var w := values + [next];
    forall k | 0 <= k < |w| - 1
      ensures && Abs(w[k + 1] - w[k]) <= PlannedStep(plan, k)
              && (w[k + 1] != endValue ==> Abs(w[k + 1] - w[k]) == PlannedStep(plan, k))
    {
      if k < n - 1 {
        assert w[k] == values[k] && w[k + 1] == values[k + 1];
      }
    }
  }

  /** One clamped step with a positive planned step keeps a walk a walk, and gets closer. */
  lemma WalkStep(values: seq<int>, startValue: int, endValue: int, plan: StepPlan)
    requires IsWalk(values, startValue, endValue, plan)
    requires values[|values| - 1] != endValue
    requires PlannedStep(plan, |values| - 1) >= 1
    ensures var current := values[|values| - 1];
            var next := ClampedNext(current, endValue, endValue > startValue, PlannedStep(plan, |values| - 1));
            && IsWalk(values + [next], startValue, endValue, plan)
            && Abs(endValue - next) < Abs(endValue - current)
  {
    var current := values[|values| - 1];
    var next := ClampedNext(current, endValue, endValue > startValue, PlannedStep(plan, |values| - 1));
    MonotoneStep(values, endValue > startValue, next);
    StepsFitStep(values, endValue, plan, next);
    assert (values + [next])[|values|] == next;
  }

  /** The inner loop of `CounterView.startAnimation`: one value step appended to every digit's sequence. */
  method AppendValueStep(tracks: seq<seq<Action<DigitEffect>>>, currentValue: int, nextValue: int,
                         digitCount: nat, delay: real, single: real)
    returns (updated: seq<seq<Action<DigitEffect>>>)
    requires |tracks| == digitCount
    ensures |updated| == digitCount
    ensures forall i :: 0 <= i < digitCount ==>
              updated[i] == tracks[i] + StepActions(i, currentValue, nextValue, digitCount, delay, single)
  {
    updated := tracks;
    for i := 0 to digitCount
      invariant |updated| == digitCount
      invariant forall j :: 0 <= j < i ==>
                  updated[j] == tracks[j] + StepActions(j, currentValue, nextValue, digitCount, delay, single)
      invariant forall j :: i <= j < digitCount ==> updated[j] == tracks[j]
    {
      updated := updated[i := updated[i] + StepActions(i, currentValue, nextValue, digitCount, delay, single)];
    }
  }

  /**
   * `CounterView.startAnimation` with the decreasing clamp corrected: walks from `startValue`
   * to `endValue` and appends, for every value step, three actions to the sequence of each
   * digit; the sequence of the units digit also gets the completion.
   */
  method StartAnimation(startValue: int, endValue: int, digitCount: nat,
                        animationDuration: real, animationDelay: real)
    returns (values: seq<int>, tracks: seq<seq<Action<DigitEffect>>>)
    ensures IsWalk(values, startValue, endValue, PlanSteps(startValue, endValue))
    ensures values[|values| - 1] == endValue
    ensures |tracks| == digitCount
    ensures forall i :: 0 <= i < digitCount ==>
              tracks[i] == DigitTrack(i, values, digitCount, animationDelay,
                                      SingleStepDuration(animationDuration, PlanSteps(startValue, endValue).numberOfSteps))
                           + (if i == 0 then [Function(Complete, 0.0)] else [])
  {
    var plan := PlanSteps(startValue, endValue);
    var single := SingleStepDuration(animationDuration, plan.numberOfSteps);
    var stepSize := plan.stepSize;
    var firstStepSize := plan.firstStepSize;
    var increasing := endValue > startValue;
    var currentValue := startValue;
    var delay := animationDelay;
    values := [startValue];
    tracks := seq(digitCount, _ => []);
    while currentValue != endValue
      invariant IsWalk(values, startValue, endValue, plan) && values[|values| - 1] == currentValue
      invariant firstStepSize == if |values| == 1 then plan.firstStepSize else None
      invariant delay == if |values| == 1 then animationDelay else 0.0
      invariant |tracks| == digitCount
      invariant forall i :: 0 <= i < digitCount ==> tracks[i] == DigitTrack(i, values, digitCount, animationDelay, single)
      decreases Abs(endValue - currentValue)
    {
      var step;
      if firstStepSize.Some? {
        step := firstStepSize.value;
        firstStepSize := None;
      } else {
        step := stepSize;
      }
      assert step == PlannedStep(plan, |values| - 1) && step >= 1;
      WalkStep(values, startValue, endValue, plan);
      var nextValue;
      if increasing {
        if currentValue + step > endValue {
          step := endValue - currentValue;
        }
        nextValue := currentValue + step;
      } else {
        if currentValue - step < endValue {
          step := currentValue - endValue;
        }
        nextValue := currentValue - step;
      }
      assert nextValue == ClampedNext(currentValue, endValue, increasing, PlannedStep(plan, |values| - 1));
      tracks := AppendValueStep(tracks, currentValue, nextValue, digitCount, delay, single);
      forall i | 0 <= i < digitCount
        ensures tracks[i] == DigitTrack(i, values + [nextValue], digitCount, animationDelay, single)
      {
        DigitTrackExtend(i, values, nextValue, digitCount, animationDelay, single);
      }
      delay := 0.0;
      values := values + [nextValue];
      currentValue := nextValue;
    }
    if digitCount > 0 {
      tracks := tracks[0 := tracks[0] + [Function(Complete, 0.0)]];
    }
  }

  // ----- The decreasing walk as written -----

  /** The walk's step as the source writes it: a decreasing overshoot sets `step` to
      `endValue - currentValue`, which is negative, and then subtracts it. */
  function NextValueAsWritten(current: int, endValue: int, increasing: bool, step: int): int
  {
    if increasing then (if current + step > endValue then endValue else current + step)
    else (if current - step < endValue then current - (endValue - current) else current - step)
  }

  /** The value after `n` iterations of the source's loop body. */
  function WalkAsWritten(startValue: int, endValue: int, n: nat): int
  {
    if n == 0 then startValue
    else
      NextValueAsWritten(WalkAsWritten(startValue, endValue, n - 1), endValue, endValue > startValue,
                         PlannedStep(PlanSteps(startValue, endValue), n - 1))
  }

  /** Counting down from 55 to 1 as written: 55, 50, …, 5, then 9, 4, 7, 2, 3, 5, … forever. */
  lemma {:induction false} CountdownFrom55Cycles(n: nat)
    ensures n <= 10 ==> WalkAsWritten(55, 1, n) == 55 - 5 * n
    ensures n >= 10 ==> WalkAsWritten(55, 1, n) in {5, 9, 4, 7, 2, 3}
  {
    var plan := PlanSteps(55, 1);
    assert plan.stepSize == 5 && plan.firstStepSize == Some(5);
    if n > 0 {
      CountdownFrom55Cycles(n - 1);
    }
  }

  /** So the source's loop `while currentValue != endValue` never ends for 55 → 1. */
  lemma CountdownFrom55NeverEnds(n: nat)
    ensures WalkAsWritten(55, 1, n) != 1
  {
    CountdownFrom55Cycles(n);
  }
}
