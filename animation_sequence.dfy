/**
 * `AnimationSequence`: a chain of timed steps run one after another.
 *
 * The main-queue dispatch of the original is replaced by values: every operation that
 * would call `DispatchQueue.main.async`/`asyncAfter` returns the `Step` it would schedule
 * (which index to run, after how many seconds, with which `force` flag), and `RunChain`
 * plays the part of the main queue for one whole chain.
 */
module AnimationSequencing {
  import opened Outcomes

  /** One action of a sequence; `F` stands for the closure the action runs. */
  datatype Action<F> =
    | Animation(effect: F, duration: real, delay: real)
    | Function(effect: F, delay: real)
    | Delay(delay: real)
    | Suspension
  {
    /** The `delay` accessor: how long to wait before the action starts. */
    function StartDelay(): (d: real)
      ensures Suspension? ==> d == 0.0
      ensures Animation? || Function? || Delay? ==> d == delay
    {
      match this
      case Suspension => 0.0
      case _ => delay
    }

    /** The `duration` accessor: only an animation takes time. */
    function RunDuration(): (d: real)
      ensures !Animation? ==> d == 0.0
    {
      match this
      case Animation(_, duration, _) => duration
      case _ => 0.0
    }

    /** The `function` accessor: delays and suspensions run nothing. */
    function Effect(): (f: Option<F>)
      ensures f.None? <==> Delay? || Suspension?
      ensures f.Some? ==> f.value == effect
    {
      match this
      case Animation(effect, _, _) => Some(effect)
      case Function(effect, _) => Some(effect)
      case _ => None
    }
  }

  /** "Run `execute(at: index, force: force)` after `after` seconds" on the main queue. */
  datatype Step = Step(index: int, after: real, force: bool)

  /** Σ (duration + delay) over `actions`: what the appends accumulate. */
  function TotalOf<F>(actions: seq<Action<F>>): real
  {
    if actions == [] then 0.0
    else
      var last := actions[|actions| - 1];
      TotalOf(actions[..|actions| - 1]) + last.RunDuration() + last.StartDelay()
  }

  /** Σ delay over `actions`. */
  function SumDelays<F>(actions: seq<Action<F>>): real
  {
    if actions == [] then 0.0
    else SumDelays(actions[..|actions| - 1]) + actions[|actions| - 1].StartDelay()
  }

  /** Σ duration over `actions`. */
  function SumDurations<F>(actions: seq<Action<F>>): real
  {
    if actions == [] then 0.0
    else SumDurations(actions[..|actions| - 1]) + actions[|actions| - 1].RunDuration()
  }

  /** When action `k` starts in a chain without suspensions: every delay up to and including
      its own, and every duration before it. */
  function StartTime<F>(actions: seq<Action<F>>, k: nat): real
    requires k < |actions|
  {
    SumDelays(actions[..k + 1]) + SumDurations(actions[..k])
  }

  /** The closures `executeWithoutAnimations` calls, in order. */
  function Effects<F>(actions: seq<Action<F>>): seq<F>
  {
    if actions == [] then []
    else
      var last := actions[|actions| - 1];
      Effects(actions[..|actions| - 1]) + (if last.Effect().Some? then [last.Effect().value] else [])
  }

  /** What `execute(at: index, force:)` schedules after running action `index`. */
  function NextStep<F>(actions: seq<Action<F>>, index: int, force: bool): Option<Step>
    requires 0 <= index < |actions|
  {
    if actions[index].Suspension? || index + 1 >= |actions| then None
    else Some(Step(index + 1, actions[index].RunDuration() + actions[index + 1].StartDelay(), force))
  }

  /** Appending a run of actions adds its own total. */
  lemma {:induction false} TotalOfConcat<F>(a: seq<Action<F>>, b: seq<Action<F>>)
    ensures TotalOf(a + b) == TotalOf(a) + TotalOf(b)
    decreases |b|
  {
    if b == [] {
      assert a + b == a;
    } else {
      var front := b[..|b| - 1];
      assert (a + b)[..|a + b| - 1] == a + front;
      TotalOfConcat(a, front);
    }
  }

  /** A run of three actions lasts the sum of their durations and delays. */
  lemma TotalOfThree<F>(a: Action<F>, b: Action<F>, c: Action<F>)
    ensures TotalOf([a, b, c])
         == a.RunDuration() + a.StartDelay() + b.RunDuration() + b.StartDelay() + c.RunDuration() + c.StartDelay()
  {
    assert [a, b, c][..2] == [a, b];
    assert [a, b][..1] == [a];
    assert [a][..0] == [];
    assert TotalOf([a]) == a.RunDuration() + a.StartDelay();
    assert TotalOf([a, b]) == TotalOf([a]) + b.RunDuration() + b.StartDelay();
  }

  lemma {:induction false} TotalIsDelaysPlusDurations<F>(actions: seq<Action<F>>)
    ensures TotalOf(actions) == SumDelays(actions) + SumDurations(actions)
    decreases |actions|
  {
    if actions != [] {
      TotalIsDelaysPlusDurations(actions[..|actions| - 1]);
    }
  }

  /** The first action starts after its own delay. */
  lemma FirstStart<F>(actions: seq<Action<F>>)
    requires actions != []
    ensures StartTime(actions, 0) == actions[0].StartDelay()
  {
    assert actions[..1][..0] == [];
    assert actions[..0] == [];
    assert SumDelays(actions[..1]) == SumDelays(actions[..0]) + actions[0].StartDelay();
  }

  /** Each scheduled step adds the running action's duration and the next action's delay. */
  lemma StartTimeStep<F>(actions: seq<Action<F>>, k: nat)
    requires k + 1 < |actions|
    ensures StartTime(actions, k + 1)
         == StartTime(actions, k) + actions[k].RunDuration() + actions[k + 1].StartDelay()
  {
    assert actions[..k + 2][..k + 1] == actions[..k + 1];
    assert actions[..k + 1][..k] == actions[..k];
  }

  /** The last action of a chain without suspensions ends exactly at Σ (duration + delay). */
  lemma LastFinishIsTotal<F>(actions: seq<Action<F>>)
    requires actions != []
    ensures StartTime(actions, |actions| - 1) + actions[|actions| - 1].RunDuration() == TotalOf(actions)
  {
    var n := |actions|;
    TotalIsDelaysPlusDurations(actions);
    assert actions[..n] == actions;
  }

  class AnimationSequence<F> {
    /** The actions to execute. */
    var actions: seq<Action<F>>
    /** Σ (duration + delay) of the appended actions. */
    var totalDuration: real
    /** The index of the action executed last. */
    var currentIndex: int
    /** Whether execution has been stopped. */
    var stopped: bool
    /** Whether `execute` or `executeWithoutAnimations` was ever called. */
    var didStartExecution: bool

    /** `totalDuration` is the sum over `actions`: true of every sequence built by appends
        from an empty one, not of one created with initial actions. */
    ghost predicate Consistent()
      reads this
    {
      totalDuration == TotalOf(actions)
    }

    constructor (initial: seq<Action<F>>)
      ensures actions == initial && totalDuration == 0.0
      ensures currentIndex == 0 && !stopped && !didStartExecution
      ensures initial == [] ==> Consistent()
    {
      actions := initial;
      totalDuration := 0.0;
      currentIndex := 0;
      stopped := false;
      didStartExecution := false;
    }

    /** `append(animation:duration:delay:function:)` */
    method AppendAnimation(effect: F, duration: real, delay: real) returns (self: AnimationSequence<F>)
      modifies this`actions, this`totalDuration
      ensures self == this
      ensures actions == old(actions) + [Animation(effect, duration, delay)]
      ensures totalDuration == old(totalDuration) + duration + delay
      ensures old(Consistent()) ==> Consistent()
    {
      actions := actions + [Animation(effect, duration, delay)];
      totalDuration := totalDuration + duration;
      totalDuration := totalDuration + delay;
      assert actions[..|actions| - 1] == old(actions);
      self := this;
    }

    /** `append(delay:function:)` */
    method AppendFunction(effect: F, delay: real) returns (self: AnimationSequence<F>)
      modifies this`actions, this`totalDuration
      ensures self == this
      ensures actions == old(actions) + [Function(effect, delay)]
      ensures totalDuration == old(totalDuration) + delay
      ensures old(Consistent()) ==> Consistent()
    {
      actions := actions + [Function(effect, delay)];
      totalDuration := totalDuration + delay;
      assert actions[..|actions| - 1] == old(actions);
      self := this;
    }

    /** `append(_ action:)` */
    method Append(action: Action<F>) returns (self: AnimationSequence<F>)
      modifies this`actions, this`totalDuration
      ensures self == this
      ensures actions == old(actions) + [action]
      ensures totalDuration == old(totalDuration) + action.RunDuration() + action.StartDelay()
      ensures old(Consistent()) ==> Consistent()
    {
      actions := actions + [action];
      totalDuration := totalDuration + action.RunDuration();
      totalDuration := totalDuration + action.StartDelay();
      assert actions[..|actions| - 1] == old(actions);
      self := this;
    }

    /** `execute()`: schedules the first action after its delay and returns the total duration. */
    method Execute() returns (total: real, next: Option<Step>)
      modifies this`didStartExecution
      ensures didStartExecution
      ensures actions == [] ==> total == 0.0 && next == None
      ensures actions != [] ==> total == totalDuration && next == Some(Step(0, actions[0].StartDelay(), false))
    {
      didStartExecution := true;
      if |actions| == 0 {
        return 0.0, None;
      }
      var action := actions[0];
      next := Some(Step(0, action.StartDelay(), false));
      total := totalDuration;
    }

    /** `executeWithoutAnimations()`: runs every closure at once, in order. */
    method ExecuteWithoutAnimations() returns (ran: seq<F>)
      modifies this`didStartExecution
      ensures didStartExecution
      ensures ran == Effects(actions)
    {
      didStartExecution := true;
      ran := [];
      for i := 0 to |actions|
        invariant ran == Effects(actions[..i])
      {
        assert actions[..i + 1][..i] == actions[..i];
        var f := actions[i].Effect();
        if f.Some? {
          ran := ran + [f.value];
        }
      }
      assert actions[..|actions|] == actions;
    }

    /** `execute(at:force:)`: runs action `index` unless the sequence is stopped and the call
        is not forced, and returns the closure it ran and the step it schedules next. */
    method ExecuteAt(index: int, force: bool) returns (ran: Option<F>, next: Option<Step>)
      requires force || !stopped ==> 0 <= index < |actions|
      modifies this`currentIndex
      ensures !force && stopped ==> currentIndex == old(currentIndex) && ran == None && next == None
      ensures force || !stopped ==>
                currentIndex == index && ran == actions[index].Effect() && next == NextStep(actions, index, force)
    {
      if !(force || !stopped) {
        return None, None;
      }
      var action := actions[index];
      currentIndex := index;
      ran := action.Effect();
      if action.Suspension? {
        return ran, None;
      }
      if index + 1 >= |actions| {
        return ran, None;
      }
      next := Some(Step(index + 1, action.RunDuration() + actions[index + 1].StartDelay(), force));
    }

    /** `resume()`: continues after a suspension; anything else is reported and ignored. */
    method Resume() returns (ran: Option<F>, next: Option<Step>)
      requires 0 <= currentIndex < |actions|
      requires actions[currentIndex].Suspension? && !stopped ==> currentIndex + 1 < |actions|
      modifies this`currentIndex
      ensures !old(actions[currentIndex]).Suspension? ==>
                currentIndex == old(currentIndex) && ran == None && next == None
      ensures old(actions[currentIndex]).Suspension? && stopped ==>
                currentIndex == old(currentIndex) + 1 && ran == None && next == None
      ensures old(actions[currentIndex]).Suspension? && !stopped ==>
                currentIndex == old(currentIndex) + 1 && ran == actions[currentIndex].Effect()
                && next == NextStep(actions, currentIndex, false)
    {
      if !actions[currentIndex].Suspension? {
        return None, None;
      }
      currentIndex := currentIndex + 1;
      ran, next := ExecuteAt(currentIndex, false);
    }

    /** `stop()` */
    method Stop()
      modifies this`stopped
      ensures stopped
    {
      stopped := true;
    }

    /** `skip(to:)`: stops the running chain and starts a forced one at `index`. */
    method Skip(index: int) returns (next: Option<Step>)
      modifies this`stopped
      ensures index >= |actions| ==> stopped == old(stopped) && next == None
      ensures index < |actions| ==> stopped && next == Some(Step(index, 0.0, true))
    {
      if !(|actions| > index) {
        return None;
      }
      stopped := true;
      next := Some(Step(index, 0.0, true));
    }

    /** Plays the main queue for a sequence without suspensions that is not stopped: runs
        `execute()` and then every step it schedules, recording when each action starts. */
    method RunChain() returns (total: real, starts: seq<real>, ran: seq<Option<F>>)
      requires !stopped
      requires forall k :: 0 <= k < |actions| ==> !actions[k].Suspension?
      modifies this`didStartExecution, this`currentIndex
      ensures |starts| == |actions| && |ran| == |actions|
      ensures forall k :: 0 <= k < |actions| ==> starts[k] == StartTime(actions, k)
      ensures forall k :: 0 <= k < |actions| ==> ran[k] == actions[k].Effect()
      ensures Consistent() && actions != [] ==>
                starts[|actions| - 1] + actions[|actions| - 1].RunDuration() == total
    {
      var next;
      total, next := Execute();
      if actions != [] {
        FirstStart(actions);
      }
      starts, ran := [], [];
      var clock := 0.0;
      while next.Some?
        invariant !stopped && |starts| == |ran| <= |actions|
        invariant actions == [] ==> total == 0.0
        invariant actions != [] ==> total == totalDuration
        invariant forall k :: 0 <= k < |starts| ==> starts[k] == StartTime(actions, k)
        invariant forall k :: 0 <= k < |ran| ==> ran[k] == actions[k].Effect()
        invariant next.Some? ==> |starts| < |actions| && next.value.index == |starts| && !next.value.force
        invariant next.Some? ==> clock + next.value.after == StartTime(actions, |starts|)
        invariant next.None? ==> |starts| == |actions|
        decreases |actions| - |starts|
      {
        var k := |starts|;
        clock := clock + next.value.after;
        var r;
        r, next := ExecuteAt(k, false);
        if k + 1 < |actions| {
          StartTimeStep(actions, k);
        }
        starts := starts + [clock];
        ran := ran + [r];
      }
      if Consistent() && actions != [] {
        LastFinishIsTotal(actions);
      }
    }
  }
}
