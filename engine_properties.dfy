/**
 * What several ticks of the engine do: how many ticks a rotation or a scale takes, that a bounce
 * with no duration never ends while a timed one ends on the first tick its duration has elapsed,
 * and that a script of N actions stops after its N-th completion.
 */
module EngineProperties {
  import opened Wrappers
  import opened Actions
  import opened AnimationEngine

  /** `k` ticks of one rotate action, each fed the state the previous one left. */
  function RotateRun(st: EngineState, axis: char, target: real, speedFactor: real, k: nat): EngineState
    decreases k
  {
    if k == 0 then st
    else RotateStep(RotateRun(st, axis, target, speedFactor, k - 1), axis, target, speedFactor).state
  }

  /** The distance covered by `j` equal steps, added one at a time as the program adds them. */
  function Travel(j: nat, step: real): real { if j == 0 then 0.0 else Travel(j - 1, step) + step }

  /** `j` steps of `step` cover `j * step`. */
  lemma {:induction false} TravelIsProduct(j: nat, step: real)
    ensures Travel(j, step) == (j as real) * step
  {
    if j > 0 {
      TravelIsProduct(j - 1, step);
    }
  }

  lemma {:induction false} TravelNonNegative(j: nat, step: real)
    requires step >= 0.0
    ensures Travel(j, step) >= 0.0
  {
    if j > 0 {
      TravelNonNegative(j - 1, step);
    }
  }

  /** Whether the rotation finishes on the tick after `i` ticks have run. */
  predicate RotateDoneAfter(st: EngineState, axis: char, target: real, speedFactor: real, i: nat) {
    RotateStep(RotateRun(st, axis, target, speedFactor, i), axis, target, speedFactor).complete
  }

  /** While `j` steps of 2 * speedFactor fall short of |target|, a rotation started from step angle 0
      has not finished: after `j` ticks its step angle is `j` steps in the target's direction,
      nothing is committed yet, and the script's index and run flag are where they were. */
  lemma {:induction false} RotateRunBeforeCompletion(st: EngineState, axis: char, target: real,
                                                     speedFactor: real, j: nat)
    requires IsAxis(axis) && speedFactor > 0.0 && StepAngle(st, axis) == 0.0
    requires j == 0 || Travel(j, 2.0 * speedFactor) < Abs(target)
    ensures StepAngle(RotateRun(st, axis, target, speedFactor, j), axis)
            == if target >= 0.0 then Travel(j, 2.0 * speedFactor) else -Travel(j, 2.0 * speedFactor)
    ensures Cumulative(RotateRun(st, axis, target, speedFactor, j), axis) == Cumulative(st, axis)
    ensures RotateRun(st, axis, target, speedFactor, j).currentSequenceIndex == st.currentSequenceIndex
    ensures RotateRun(st, axis, target, speedFactor, j).animFlag == st.animFlag
    ensures forall i: nat :: i < j ==> !RotateDoneAfter(st, axis, target, speedFactor, i)
  {
    if j > 0 {
      var prev := j - 1;
      TravelNonNegative(prev, 2.0 * speedFactor);
      RotateRunBeforeCompletion(st, axis, target, speedFactor, prev);
      var before := RotateRun(st, axis, target, speedFactor, prev);
      RotateStepSpec(before, axis, target, speedFactor);
      assert !RotateDoneAfter(st, axis, target, speedFactor, prev);
    }
  }

  /** The tick after `j` short steps finishes the rotation when `j + 1` steps reach |target|. */
  lemma RotateCompletesNext(st: EngineState, axis: char, target: real, speedFactor: real, j: nat)
    requires IsAxis(axis) && speedFactor > 0.0 && StepAngle(st, axis) == 0.0
    requires j == 0 || Travel(j, 2.0 * speedFactor) < Abs(target)
    requires Travel(j + 1, 2.0 * speedFactor) >= Abs(target)
    ensures RotateDoneAfter(st, axis, target, speedFactor, j)
    ensures Cumulative(RotateRun(st, axis, target, speedFactor, j + 1), axis) == Cumulative(st, axis) + target
    ensures StepAngle(RotateRun(st, axis, target, speedFactor, j + 1), axis) == 0.0
  {
    var speed := 2.0 * speedFactor;
    TravelNonNegative(j, speed);
    RotateRunBeforeCompletion(st, axis, target, speedFactor, j);
    var before := RotateRun(st, axis, target, speedFactor, j);
    RotateStepSpec(before, axis, target, speedFactor);
    assert Travel(j + 1, speed) == Travel(j, speed) + speed;
    assert Abs(StepAngle(before, axis) + speed * Direction(target)) == Travel(j + 1, speed);
  }

  /** A rotation started from step angle 0 at a positive speed finishes on the first tick `k >= 1`
      with k * (2 * speedFactor) >= |target|, and then exactly `target` is committed and the step
      angle is back at 0, however far the last step overshot. */
  lemma RotateFirstCompletion(st: EngineState, axis: char, target: real, speedFactor: real, k: nat)
    requires IsAxis(axis) && speedFactor > 0.0 && StepAngle(st, axis) == 0.0
    requires k >= 1 && (k as real) * (2.0 * speedFactor) >= Abs(target)
    requires k == 1 || ((k - 1) as real) * (2.0 * speedFactor) < Abs(target)
    ensures forall i: nat :: i < k - 1 ==> !RotateDoneAfter(st, axis, target, speedFactor, i)
    ensures RotateDoneAfter(st, axis, target, speedFactor, k - 1)
    ensures Cumulative(RotateRun(st, axis, target, speedFactor, k), axis) == Cumulative(st, axis) + target
    ensures StepAngle(RotateRun(st, axis, target, speedFactor, k), axis) == 0.0
  {
    var j := k - 1;
    var speed := 2.0 * speedFactor;
    TravelIsProduct(j, speed);
    TravelIsProduct(j + 1, speed);
    assert j + 1 == k;
    assert Travel(j + 1, speed) >= Abs(target);
    assert j == 0 || Travel(j, speed) < Abs(target);
    RotateRunBeforeCompletion(st, axis, target, speedFactor, j);
    RotateCompletesNext(st, axis, target, speedFactor, j);
  }

  /** `k` ticks of one scale action. */
  function ScaleRun(st: EngineState, target: real, speedFactor: real, k: nat): EngineState
    decreases k
  {
    if k == 0 then st else ScaleStep(ScaleRun(st, target, speedFactor, k - 1), target, speedFactor).state
  }

  /** Whether the scale action finishes on the tick after `i` ticks have run. */
  predicate ScaleDoneAfter(st: EngineState, target: real, speedFactor: real, i: nat) {
    ScaleStep(ScaleRun(st, target, speedFactor, i), target, speedFactor).complete
  }

  /** While `j` steps of 0.02 * speedFactor do not exceed the distance to the target, a scale action
      has not finished after `j` ticks, the scale has moved exactly `j` steps towards the target, and
      nothing but the scale has changed. */
  lemma {:induction false} ScaleRunBeforeCompletion(st: EngineState, target: real, speedFactor: real, j: nat)
    requires speedFactor > 0.0
    requires Travel(j, 0.02 * speedFactor) <= Abs(target - st.scaleNum)
    ensures ScaleRun(st, target, speedFactor, j).scaleNum
            == if target >= st.scaleNum then st.scaleNum + Travel(j, 0.02 * speedFactor)
               else st.scaleNum - Travel(j, 0.02 * speedFactor)
    ensures ScaleRun(st, target, speedFactor, j) == st.(scaleNum := ScaleRun(st, target, speedFactor, j).scaleNum)
    ensures forall i: nat :: i < j ==> !ScaleDoneAfter(st, target, speedFactor, i)
  {
    if j > 0 {
      var prev := j - 1;
      TravelNonNegative(prev, 0.02 * speedFactor);
      ScaleRunBeforeCompletion(st, target, speedFactor, prev);
      assert !ScaleDoneAfter(st, target, speedFactor, prev);
    }
  }

  /** The tick after `j` steps that still fit in the distance to the target finishes the scale
      action when `j + 1` steps no longer fit. */
  lemma ScaleCompletesNext(st: EngineState, target: real, speedFactor: real, j: nat)
    requires speedFactor > 0.0
    requires Travel(j, 0.02 * speedFactor) <= Abs(target - st.scaleNum) < Travel(j + 1, 0.02 * speedFactor)
    ensures ScaleDoneAfter(st, target, speedFactor, j)
    ensures ScaleRun(st, target, speedFactor, j + 1).scaleNum == target
  {
    var speed := 0.02 * speedFactor;
    ScaleRunBeforeCompletion(st, target, speedFactor, j);
    assert Travel(j + 1, speed) == Travel(j, speed) + speed;
    var before := ScaleRun(st, target, speedFactor, j);
    assert Abs(target - before.scaleNum) == Abs(target - st.scaleNum) - Travel(j, speed);
  }

  /** A scale action finishes on tick `j + 1` when `j` steps of 0.02 * speedFactor still fit in the
      distance to the target and `j + 1` do not; the scale then is exactly the target. The tick that
      lands exactly on the target does not yet finish, since the test |diff| < speed is strict. */
  lemma ScaleFirstCompletion(st: EngineState, target: real, speedFactor: real, j: nat)
    requires speedFactor > 0.0
    requires (j as real) * (0.02 * speedFactor) <= Abs(target - st.scaleNum)
    requires Abs(target - st.scaleNum) < ((j + 1) as real) * (0.02 * speedFactor)
    ensures forall i: nat :: i < j ==> !ScaleDoneAfter(st, target, speedFactor, i)
    ensures ScaleDoneAfter(st, target, speedFactor, j)
    ensures ScaleRun(st, target, speedFactor, j + 1).scaleNum == target
  {
    var speed := 0.02 * speedFactor;
    TravelIsProduct(j, speed);
    TravelIsProduct(j + 1, speed);
    assert Travel(j, speed) <= Abs(target - st.scaleNum) < Travel(j + 1, speed);
    ScaleRunBeforeCompletion(st, target, speedFactor, j);
    ScaleCompletesNext(st, target, speedFactor, j);
  }

  /** `n` ticks against `sequence`, all with the same inputs; None once a tick throws. */
  function RunTicks(st: EngineState, sequence: seq<Action>, inp: TickInputs, n: nat): Option<EngineState>
    decreases n
  {
    if n == 0 then Some(st)
    else match RunTicks(st, sequence, inp, n - 1)
      case None => None
      case Some(s) =>
        match Step(s, sequence, inp)
        case None => None
        case Some(t) => Some(t.state)
  }

  /** One more tick of a run whose current action does not finish on it is one more step of that
      action. */
  lemma RunTicksOnce(st: EngineState, sequence: seq<Action>, inp: TickInputs, before: EngineState, n: nat)
    requires RunTicks(st, sequence, inp, n) == Some(before)
    requires before.currentSequenceIndex < |sequence|
    requires !Dispatch(before, sequence[before.currentSequenceIndex], inp).complete
    ensures RunTicks(st, sequence, inp, n + 1) == Some(Dispatch(before, sequence[before.currentSequenceIndex], inp).state)
  {
    var act := Dispatch(before, sequence[before.currentSequenceIndex], inp);
    assert Step(before, sequence, inp).value.state == Advance(act.state, act.complete, |sequence|);
  }

  /** Ticks of a script whose current action is a rotation, before that rotation finishes, are
      exactly the rotation's own steps. */
  lemma {:induction false} RunTicksRotating(st: EngineState, sequence: seq<Action>, inp: TickInputs,
                                            axis: char, target: real, j: nat)
    requires st.currentSequenceIndex < |sequence| && sequence[st.currentSequenceIndex] == Rotate(axis, target)
    requires IsAxis(axis) && inp.speedFactor > 0.0 && StepAngle(st, axis) == 0.0
    requires j == 0 || Travel(j, 2.0 * inp.speedFactor) < Abs(target)
    ensures RunTicks(st, sequence, inp, j) == Some(RotateRun(st, axis, target, inp.speedFactor, j))
  {
    if j > 0 {
      var speed := 2.0 * inp.speedFactor;
      var prev := j - 1;
      assert Travel(j, speed) == Travel(prev, speed) + speed;
      RotateRunBeforeCompletion(st, axis, target, inp.speedFactor, prev);
      RotateRunBeforeCompletion(st, axis, target, inp.speedFactor, j);
      var before := RotateRun(st, axis, target, inp.speedFactor, prev);
      assert !RotateDoneAfter(st, axis, target, inp.speedFactor, prev);
      RunTicksRotating(st, sequence, inp, axis, target, prev);
      RunTicksOnce(st, sequence, inp, before, prev);
    }
  }

  /** The script [Rotate(Z, 180)] at speed factor 1, started with the button: after 89 ticks it is
      still rotating, 2 degrees short, with nothing committed; the 90th tick commits exactly 180
      degrees and stops the animation at index 0. */
  lemma RotateHalfTurnScenario(st0: EngineState, inp: TickInputs)
    requires !st0.animFlag && inp.speedFactor == 1.0
    ensures var started := Toggled(st0);
            var sequence := [Rotate('Z', 180.0)];
            && RunTicks(started, sequence, inp, 89).Some?
            && RunTicks(started, sequence, inp, 89).value.animFlag
            && RunTicks(started, sequence, inp, 89).value.zRotationAngle == 178.0
            && RunTicks(started, sequence, inp, 89).value.cumulativeRotation.z == 0.0
            && RunTicks(started, sequence, inp, 90).Some?
            && !RunTicks(started, sequence, inp, 90).value.animFlag
            && RunTicks(started, sequence, inp, 90).value.cumulativeRotation.z == 180.0
            && RunTicks(started, sequence, inp, 90).value.currentSequenceIndex == 0
  {
    var started := Toggled(st0);
    var sequence := [Rotate('Z', 180.0)];
    TravelIsProduct(89, 2.0);
    RunTicksRotating(started, sequence, inp, 'Z', 180.0, 89);
    RotateRunBeforeCompletion(started, 'Z', 180.0, 1.0, 89);
    RotateFirstCompletion(started, 'Z', 180.0, 1.0, 90);
    var before := RotateRun(started, 'Z', 180.0, 1.0, 89);
    assert RunTicks(started, sequence, inp, 90) == match Step(before, sequence, inp)
                                                   case None => None
                                                   case Some(t) => Some(t.state);
  }

  /** Ticks of a script whose current action is a scale, before that scale finishes, are exactly
      the scale's own steps. */
  lemma {:induction false} RunTicksScaling(st: EngineState, sequence: seq<Action>, inp: TickInputs,
                                           target: real, j: nat)
    requires st.currentSequenceIndex < |sequence| && sequence[st.currentSequenceIndex] == Scale(target)
    requires inp.speedFactor > 0.0
    requires Travel(j, 0.02 * inp.speedFactor) <= Abs(target - st.scaleNum)
    ensures RunTicks(st, sequence, inp, j) == Some(ScaleRun(st, target, inp.speedFactor, j))
  {
    if j > 0 {
      var speed := 0.02 * inp.speedFactor;
      var prev := j - 1;
      assert Travel(j, speed) == Travel(prev, speed) + speed;
      ScaleRunBeforeCompletion(st, target, inp.speedFactor, j);
      var before := ScaleRun(st, target, inp.speedFactor, prev);
      assert !ScaleDoneAfter(st, target, inp.speedFactor, prev);
      ScaleRunBeforeCompletion(st, target, inp.speedFactor, prev);
      RunTicksScaling(st, sequence, inp, target, prev);
      RunTicksOnce(st, sequence, inp, before, prev);
    }
  }

  /** The script [Scale(2.0)] from scale 1 at speed factor 1, over exact real arithmetic: the 50th
      tick lands exactly on 2.0 but does not finish, because the snap test |diff| < 0.02 is strict;
      the 51st finishes and stops the animation with the scale at exactly 2.0. (In double precision
      the 49 added steps overshoot 1.98 by a rounding error, leaving a gap just under 0.02, so the
      program snaps on tick 50.) */
  lemma ScaleDoubleScenario(st0: EngineState, inp: TickInputs)
    requires !st0.animFlag && inp.speedFactor == 1.0
    ensures var started := Toggled(st0);
            var sequence := [Scale(2.0)];
            && RunTicks(started, sequence, inp, 50).Some?
            && RunTicks(started, sequence, inp, 50).value.animFlag
            && RunTicks(started, sequence, inp, 50).value.scaleNum == 2.0
            && RunTicks(started, sequence, inp, 51).Some?
            && !RunTicks(started, sequence, inp, 51).value.animFlag
            && RunTicks(started, sequence, inp, 51).value.scaleNum == 2.0
  {
    var started := Toggled(st0);
    var sequence := [Scale(2.0)];
    TravelIsProduct(50, 0.02);
    RunTicksScaling(started, sequence, inp, 2.0, 50);
    ScaleRunBeforeCompletion(started, 2.0, 1.0, 50);
    ScaleFirstCompletion(started, 2.0, 1.0, 50);
    var before := ScaleRun(started, 2.0, 1.0, 50);
    assert RunTicks(started, sequence, inp, 51) == match Step(before, sequence, inp)
                                                   case None => None
                                                   case Some(t) => Some(t.state);
  }

  /** A bounce reflects off the wall it would cross: off a side wall the heading becomes
      pi - angle, off the top or bottom it becomes -angle, off a corner both, and each reflection
      is perturbed by less than 0.1 radians either way. Clear of every wall, the heading is kept. */
  lemma BounceReflectionBounds(st: EngineState, duration: Option<real>, inp: TickInputs)
    requires 0.0 <= inp.draw1 < 1.0 && 0.0 <= inp.draw2 < 1.0
    ensures var a := st.bounceAngle;
            var angle := BounceStep(st, duration, inp).state.bounceAngle;
            var speed := 0.03 * inp.speedFactor;
            var hitX := Abs(Along(st.moveX, inp.Cos(a), speed)) > BOUNCE_WIDTH;
            var hitY := Abs(Along(st.moveY, inp.Sin(a), speed)) > BOUNCE_HEIGHT;
            && (!hitX && !hitY ==> angle == a)
            && (hitX && !hitY ==> PI - a - 0.1 <= angle < PI - a + 0.1)
            && (!hitX && hitY ==> -a - 0.1 <= angle < -a + 0.1)
            && (hitX && hitY ==> a - PI - 0.2 < angle < a - PI + 0.2)
  {
    BounceStepSpec(st, duration, inp);
  }

  /** The action-completion flags of successive ticks of one bounce action. */
  function BounceFlags(st: EngineState, duration: Option<real>, ins: seq<TickInputs>): (flags: seq<bool>)
    ensures |flags| == |ins|
    decreases |ins|
  {
    if ins == [] then []
    else
      var r := BounceStep(st, duration, ins[0]);
      [r.complete] + BounceFlags(r.state, duration, ins[1..])
  }

  /** A bounce with no duration, such as the bare `'bounce'` of the default script, never finishes,
      however many ticks run and whatever the clock says. */
  lemma {:induction false} UntimedBounceNeverEnds(st: EngineState, ins: seq<TickInputs>)
    requires !st.isBouncing || st.bounceTimer == None
    ensures forall i :: 0 <= i < |ins| ==> !BounceFlags(st, None, ins)[i]
    decreases |ins|
  {
    if ins != [] {
      var r := BounceStep(st, None, ins[0]);
      UntimedBounceNeverEnds(r.state, ins[1..]);
      assert BounceFlags(st, None, ins) == [r.complete] + BounceFlags(r.state, None, ins[1..]);
    }
  }

  /** A bounce already running since `t0` with duration `d` finishes on the first tick whose clock
      reads at least `t0 + d`. */
  lemma {:induction false} RunningBounceEnds(st: EngineState, duration: Option<real>, d: real, t0: real,
                                             ins: seq<TickInputs>)
    requires st.isBouncing && st.bounceStartTime == t0 && st.bounceTimer == Some(d)
    requires ins != []
    requires forall i :: 0 <= i < |ins| - 1 ==> ins[i].currentTime - t0 < d
    ensures forall i :: 0 <= i < |ins| - 1 ==> !BounceFlags(st, duration, ins)[i]
    ensures BounceFlags(st, duration, ins)[|ins| - 1] <==> ins[|ins| - 1].currentTime - t0 >= d
    decreases |ins|
  {
    var r := BounceStep(st, duration, ins[0]);
    assert BounceFlags(st, duration, ins) == [r.complete] + BounceFlags(r.state, duration, ins[1..]);
    if |ins| > 1 {
      assert ins[0].currentTime - t0 < d;
      var rest := ins[1..];
      assert forall i :: 0 <= i < |rest| - 1 ==> rest[i] == ins[i + 1];
      RunningBounceEnds(r.state, duration, d, t0, rest);
    }
  }

  /** A bounce with duration `d` entered with no bounce running takes its start time from its first
      tick and finishes on the first tick whose clock is at least `d` seconds later; no earlier tick
      finishes it. */
  lemma TimedBounceEndsOnTime(st: EngineState, d: real, ins: seq<TickInputs>)
    requires !st.isBouncing && ins != []
    requires forall i :: 0 <= i < |ins| - 1 ==> ins[i].currentTime - ins[0].currentTime < d
    ensures forall i :: 0 <= i < |ins| - 1 ==> !BounceFlags(st, Some(d), ins)[i]
    ensures BounceFlags(st, Some(d), ins)[|ins| - 1] <==> ins[|ins| - 1].currentTime - ins[0].currentTime >= d
  {
    var t0 := ins[0].currentTime;
    var r := BounceStep(st, Some(d), ins[0]);
    assert BounceFlags(st, Some(d), ins) == [r.complete] + BounceFlags(r.state, Some(d), ins[1..]);
    if |ins| > 1 {
      assert ins[0].currentTime - t0 < d;
      var rest := ins[1..];
      assert forall i :: 0 <= i < |rest| - 1 ==> rest[i] == ins[i + 1];
      RunningBounceEnds(r.state, Some(d), d, t0, rest);
    }
  }

  /** `n` action completions in a row. */
  function Completions(st: EngineState, length: nat, n: nat): EngineState
    decreases n
  {
    if n == 0 then st else Advance(Completions(st, length, n - 1), true, length)
  }

  /** A run of a script of `length` actions started at index 0 is at action `n` after `n` completions
      and still running; the `length`-th completion stops it with the index back at 0. Completions
      never change position, scale or committed rotations. */
  lemma {:induction false} SequenceEndsAfterLastAction(st: EngineState, length: nat, n: nat)
    requires st.currentSequenceIndex == 0 && st.animFlag && 1 <= length && n <= length
    ensures SameTransform(Completions(st, length, n), st)
    ensures n < length ==> Completions(st, length, n).currentSequenceIndex == n
                           && Completions(st, length, n).animFlag
    ensures n == length ==> Completions(st, length, n).currentSequenceIndex == 0
                            && !Completions(st, length, n).animFlag
  {
    if n > 0 {
      SequenceEndsAfterLastAction(st, length, n - 1);
    }
  }
}
