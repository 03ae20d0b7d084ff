/**
 * The per-frame animation engine (`animUpdate`, `resetAnimationState`, `resetActionState` and the
 * start/stop button). Its module-level variables become the fields of class `Engine`; the value
 * `EngineState` holds the same fields, and the functions over it say what each tick does. Every
 * method of the class is proved to move the fields exactly as the matching function does.
 *
 * The model-view matrix is kept symbolic: a frame is the list of factors that the program multiplies
 * together, left to right. Cosine, sine, the clock and `Math.random` are inputs of a tick.
 */
module AnimationEngine {
  import opened Wrappers
  import opened Actions

  /** Half-width and half-height of the region a bounce stays in. */
  const BOUNCE_WIDTH: real := 2.5
  const BOUNCE_HEIGHT: real := 1.0
  /** The value of `Math.PI`. */
  const PI: real := 3.141592653589793
  /** `finalRotationZ` is declared 0 and never reassigned. */
  const FINAL_ROTATION_Z: real := 0.0
  /** How close to rest the centre action must come before it snaps to rest. */
  const REST_TOLERANCE: real := 0.001

  /** `p + c * speed`: a coordinate after moving `speed` along a heading whose cosine or sine is `c`. */
  function Along(p: real, c: real, speed: real): real { p + c * speed }

  function Abs(x: real): real { if x < 0.0 then -x else x }

  /** `Math.sign` (there is no NaN over the reals). */
  function Sign(x: real): real { if x > 0.0 then 1.0 else if x < 0.0 then -1.0 else 0.0 }

  /** One factor of a frame's model-view matrix. */
  datatype Op =
    | RotateAbout(axis: char, degrees: real)
    | Translate(dx: real, dy: real)
    | ScaleBy(factor: real)

  /** The object `cumulativeRotation = {X, Y, Z}`: degrees committed by completed rotations. */
  datatype Rotation = Rotation(x: real, y: real, z: real)

  const NO_ROTATION: Rotation := Rotation(0.0, 0.0, 0.0)

  datatype EngineState = EngineState(
    rotationAngle: real,    // step angle of the current X rotation; the centre action decays it too
    yRotationAngle: real,   // step angle of the current Y rotation
    zRotationAngle: real,   // step angle of the current Z rotation
    cumulativeRotation: Rotation,
    moveX: real,
    moveY: real,
    scaleNum: real,
    bounceAngle: real,      // heading of the bounce, in radians
    isBouncing: bool,
    bounceStartTime: real,
    bounceTimer: Option<real>,  // duration of the running bounce; None when it is undefined
    currentSequenceIndex: nat,
    animFlag: bool
  )

  /** What the host supplies to one tick. */
  datatype TickInputs = TickInputs(
    speedFactor: real,      // animationSpeed / 5.0
    currentTime: real,      // the clock, in seconds
    cos: real -> real,
    sin: real -> real,
    draw1: real,            // the first Math.random() the tick asks for
    draw2: real             // the second
  ) {
    function Cos(angle: real): real { cos(angle) }
    function Sin(angle: real): real { sin(angle) }
  }

  /** The effect of one action on one tick: the new state, whether the action finished, and whether
      a bounce hit a wall (where the program recolours the gasket if random colours are on). */
  datatype ActionStep = ActionStep(state: EngineState, complete: bool, collided: bool)

  /** The effect of a whole tick: the new state and the frame drawn. */
  datatype TickResult = TickResult(state: EngineState, frame: seq<Op>, completed: bool, collided: bool)

  predicate IsAxis(c: char) { c == 'X' || c == 'Y' || c == 'Z' }

  /** Step angle of `axis` (0 for a character that names no axis). */
  function StepAngle(st: EngineState, axis: char): real {
    if axis == 'X' then st.rotationAngle
    else if axis == 'Y' then st.yRotationAngle
    else if axis == 'Z' then st.zRotationAngle
    else 0.0
  }

  /** Committed rotation about `axis` (0 for a character that names no axis). */
  function Cumulative(st: EngineState, axis: char): real {
    if axis == 'X' then st.cumulativeRotation.x
    else if axis == 'Y' then st.cumulativeRotation.y
    else if axis == 'Z' then st.cumulativeRotation.z
    else 0.0
  }

  /** Position, scale and committed rotations agree: the parts of the state a frame shows
      besides the step angles. */
  predicate SameTransform(a: EngineState, b: EngineState) {
    a.cumulativeRotation == b.cumulativeRotation &&
    a.moveX == b.moveX && a.moveY == b.moveY && a.scaleNum == b.scaleNum
  }

  /** The bounce heading, the bounce clock, the sequence index and the run flag agree. */
  predicate SameBookkeeping(a: EngineState, b: EngineState) {
    a.bounceAngle == b.bounceAngle && a.isBouncing == b.isBouncing &&
    a.bounceStartTime == b.bounceStartTime && a.bounceTimer == b.bounceTimer &&
    a.currentSequenceIndex == b.currentSequenceIndex && a.animFlag == b.animFlag
  }

  function Direction(target: real): real { if target >= 0.0 then 1.0 else -1.0 }

  /** Progress of a rotation about one axis: that axis's step angle and committed rotation, and
      whether the action finished. */
  datatype AxisProgress = AxisProgress(step: real, total: real, done: bool)

  /** One tick of a rotation on the axis whose step angle is `step` and whose committed rotation is
      `total`: the step angle moves 2 * speedFactor degrees in the direction of the target's sign;
      when its magnitude reaches the target's, the target itself is committed and the step angle
      goes back to 0. */
  function AxisStep(step: real, total: real, target: real, speedFactor: real): AxisProgress {
    var angle := step + 2.0 * speedFactor * Direction(target);
    if Abs(angle) >= Abs(target) then AxisProgress(0.0, total + target, true)
    else AxisProgress(angle, total, false)
  }

  /** A rotate action: the named axis advances as `AxisStep` says; an axis other than X, Y and Z
      matches no case, so nothing moves and the action never finishes. */
  function RotateStep(st: EngineState, axis: char, target: real, speedFactor: real): ActionStep {
    var c := st.cumulativeRotation;
    if axis == 'X' then
      var p := AxisStep(st.rotationAngle, c.x, target, speedFactor);
      ActionStep(st.(rotationAngle := p.step, cumulativeRotation := c.(x := p.total)), p.done, false)
    else if axis == 'Y' then
      var p := AxisStep(st.yRotationAngle, c.y, target, speedFactor);
      ActionStep(st.(yRotationAngle := p.step, cumulativeRotation := c.(y := p.total)), p.done, false)
    else if axis == 'Z' then
      var p := AxisStep(st.zRotationAngle, c.z, target, speedFactor);
      ActionStep(st.(zRotationAngle := p.step, cumulativeRotation := c.(z := p.total)), p.done, false)
    else ActionStep(st, false, false)
  }

  /** A rotate action on an axis X, Y or Z: that axis's step angle moves 2 * speedFactor degrees
      in the direction of the target's sign; the action finishes exactly when the moved angle's
      magnitude reaches the target's, and then the target itself (not the overshooting angle) is
      committed and the step angle goes back to 0. The other axes, position, scale and bookkeeping
      stay. On any other axis nothing moves and the action never finishes. */
  lemma RotateStepSpec(st: EngineState, axis: char, target: real, speedFactor: real)
    ensures var r := RotateStep(st, axis, target, speedFactor);
            IsAxis(axis) ==>
              var angle := StepAngle(st, axis) + 2.0 * speedFactor * Direction(target);
              && (r.complete <==> Abs(angle) >= Abs(target))
              && (r.complete ==> StepAngle(r.state, axis) == 0.0
                                 && Cumulative(r.state, axis) == Cumulative(st, axis) + target)
              && (!r.complete ==> StepAngle(r.state, axis) == angle
                                  && Cumulative(r.state, axis) == Cumulative(st, axis))
    ensures var r := RotateStep(st, axis, target, speedFactor);
            forall c :: c != axis ==> StepAngle(r.state, c) == StepAngle(st, c) && Cumulative(r.state, c) == Cumulative(st, c)
    ensures var r := RotateStep(st, axis, target, speedFactor);
            && !r.collided && SameBookkeeping(r.state, st)
            && r.state.moveX == st.moveX && r.state.moveY == st.moveY && r.state.scaleNum == st.scaleNum
    ensures !IsAxis(axis) ==> RotateStep(st, axis, target, speedFactor) == ActionStep(st, false, false)
  {
  }

  /** A scale action: when the scale is closer to the target than 0.02 * speedFactor it snaps to
      the target and the action finishes; otherwise, at a positive speed, it moves exactly that far
      towards the target and never past it. Only the scale changes. */
  function ScaleStep(st: EngineState, target: real, speedFactor: real): (r: ActionStep)
    ensures !r.collided && r.state == st.(scaleNum := r.state.scaleNum)
    ensures r.complete <==> Abs(target - st.scaleNum) < 0.02 * speedFactor
    ensures r.complete ==> r.state.scaleNum == target
    ensures !r.complete && speedFactor > 0.0 ==>
              && Abs(target - r.state.scaleNum) == Abs(target - st.scaleNum) - 0.02 * speedFactor
              && Abs(r.state.scaleNum - st.scaleNum) == 0.02 * speedFactor
              && (st.scaleNum <= target ==> r.state.scaleNum <= target)
              && (st.scaleNum >= target ==> r.state.scaleNum >= target)
  {
    var diff := target - st.scaleNum;
    var speed := 0.02 * speedFactor;
    if Abs(diff) < speed then ActionStep(st.(scaleNum := target), true, false)
    else ActionStep(st.(scaleNum := st.scaleNum + Sign(diff) * speed), false, false)
  }

  /** Every quantity the centre action drives to rest is within the tolerance. */
  predicate NearRest(st: EngineState) {
    Abs(st.moveX) < REST_TOLERANCE && Abs(st.moveY) < REST_TOLERANCE &&
    Abs(st.rotationAngle) < REST_TOLERANCE && Abs(st.scaleNum - 1.0) < REST_TOLERANCE
  }

  /** `x * keep`: one quantity after a tick of exponential decay towards 0. */
  function Shrink(x: real, keep: real): real { x * keep }

  /** The centre action's decay: position, X step angle and the scale's distance from 1 are each
      multiplied by `keep`. */
  function Decayed(st: EngineState, keep: real): EngineState {
    st.(moveX := Shrink(st.moveX, keep), moveY := Shrink(st.moveY, keep),
        rotationAngle := Shrink(st.rotationAngle, keep), scaleNum := 1.0 + Shrink(st.scaleNum - 1.0, keep))
  }

  /** The centre action: position, X step angle and the scale's distance from 1 shrink by the factor
      1 - 0.02 * speedFactor; the action finishes exactly when all four are then within the
      tolerance, and finishing puts them at exactly 0, 0, 0 and 1. At a speed that keeps the factor
      in [0, 1], no quantity moves away from rest. */
  function CenterStep(st: EngineState, speedFactor: real): (r: ActionStep)
    ensures !r.collided
    ensures var decayed := Decayed(st, 1.0 - 0.02 * speedFactor);
            && (r.complete <==> NearRest(decayed))
            && (r.complete ==> r.state == st.(moveX := 0.0, moveY := 0.0, rotationAngle := 0.0, scaleNum := 1.0))
            && (!r.complete ==> r.state == decayed)
    ensures 0.0 <= speedFactor <= 50.0 ==>
              Abs(r.state.moveX) <= Abs(st.moveX) && Abs(r.state.moveY) <= Abs(st.moveY) &&
              Abs(r.state.rotationAngle) <= Abs(st.rotationAngle) &&
              Abs(r.state.scaleNum - 1.0) <= Abs(st.scaleNum - 1.0)
  {
    var keep := 1.0 - 0.02 * speedFactor;
    var decayed := Decayed(st, keep);
    ShrinkTowardsRest(st.moveX, keep);
    ShrinkTowardsRest(st.moveY, keep);
    ShrinkTowardsRest(st.rotationAngle, keep);
    ShrinkTowardsRest(st.scaleNum - 1.0, keep);
    if NearRest(decayed) then
      ActionStep(decayed.(moveX := 0.0, moveY := 0.0, rotationAngle := 0.0, scaleNum := 1.0), true, false)
    else
      ActionStep(decayed, false, false)
  }

  lemma ShrinkTowardsRest(x: real, keep: real)
    ensures 0.0 <= keep <= 1.0 ==> Abs(Shrink(x, keep)) <= Abs(x)
  {
    if keep < 0.0 || keep > 1.0 {
    } else if x >= 0.0 {
      assert x * keep <= x * 1.0;
    } else {
      assert x * keep >= x * 1.0;
    }
  }

  /** `(Math.random() - 0.5) * 0.2`: the heading's jitter after a reflection. */
  function Jitter(draw: real): (j: real)
    ensures 0.0 <= draw < 1.0 ==> -0.1 <= j < 0.1
  {
    (draw - 0.5) * 0.2
  }

  /** Whether a bounce that started `elapsed` seconds ago with duration `timer` is over; an undefined
      duration never compares as reached. */
  predicate BounceOver(timer: Option<real>, elapsed: real) {
    timer.Some? && elapsed >= timer.value
  }

  /** Heading after a tick's wall checks. Both tests use the position the unreflected heading would
      reach; a hit on the side walls mirrors the heading about the vertical, a hit on the top or
      bottom negates it, and each reflection adds the jitter of the next random draw. */
  function ReflectedAngle(moveX: real, moveY: real, angle: real, inp: TickInputs): real {
    var speed := 0.03 * inp.speedFactor;
    var hitX := Abs(Along(moveX, inp.Cos(angle), speed)) > BOUNCE_WIDTH;
    var hitY := Abs(Along(moveY, inp.Sin(angle), speed)) > BOUNCE_HEIGHT;
    var afterX := if hitX then PI - angle + Jitter(inp.draw1) else angle;
    if hitY then -afterX + Jitter(if hitX then inp.draw2 else inp.draw1) else afterX
  }

  /** Whether the position the current heading would reach lies outside the bounce region. */
  predicate HitsWall(moveX: real, moveY: real, angle: real, inp: TickInputs) {
    var speed := 0.03 * inp.speedFactor;
    Abs(Along(moveX, inp.Cos(angle), speed)) > BOUNCE_WIDTH ||
    Abs(Along(moveY, inp.Sin(angle), speed)) > BOUNCE_HEIGHT
  }

  /** A bounce with the given duration. The start time and the duration are taken only on a tick
      where no bounce is running; the position then advances 0.03 * speedFactor along the (possibly
      reflected) heading; the action finishes when the recorded duration has elapsed. */
  function BounceStep(st: EngineState, duration: Option<real>, inp: TickInputs): ActionStep
  {
    var startTime := if st.isBouncing then st.bounceStartTime else inp.currentTime;
    var timer := if st.isBouncing then st.bounceTimer else duration;
    var speed := 0.03 * inp.speedFactor;
    var angle := ReflectedAngle(st.moveX, st.moveY, st.bounceAngle, inp);
    var done := BounceOver(timer, inp.currentTime - startTime);
    ActionStep(st.(bounceAngle := angle,
                   moveX := Along(st.moveX, inp.Cos(angle), speed),
                   moveY := Along(st.moveY, inp.Sin(angle), speed),
                   isBouncing := !done, bounceStartTime := startTime, bounceTimer := timer),
               done, HitsWall(st.moveX, st.moveY, st.bounceAngle, inp))
  }

  /** The action part of a tick: which handler the current action's tag selects. An object's `type`
      is its tag, a bare string is its own tag, so the bare `'bounce'` acts as a bounce with no
      duration; a tag no case names leaves the state alone and never finishes. */
  function Dispatch(st: EngineState, action: Action, inp: TickInputs): (r: ActionStep)
    ensures action.Rotate? ==> r == RotateStep(st, action.axis, action.degrees, inp.speedFactor)
    ensures action.Scale? ==> r == ScaleStep(st, action.scale, inp.speedFactor)
    ensures action.Bounce? ==> r == BounceStep(st, action.duration, inp)
    ensures action == Named("bounce") ==> r == BounceStep(st, None, inp)
    ensures action == Named("center") ==> r == CenterStep(st, inp.speedFactor)
    ensures action.Named? && action.name != "center" && action.name != "bounce" ==>
              r == ActionStep(st, false, false)
    ensures !action.Rotate? ==> SameRotation(r.state, st)
    ensures r.state.currentSequenceIndex == st.currentSequenceIndex && r.state.animFlag == st.animFlag
  {
    match action
    case Rotate(axis, degrees) => RotateStep(st, axis, degrees, inp.speedFactor)
    case Scale(target) => ScaleStep(st, target, inp.speedFactor)
    case Bounce(duration) => BounceStep(st, duration, inp)
    case Named(name) =>
      if name == "center" then CenterStep(st, inp.speedFactor)
      else if name == "bounce" then BounceStep(st, None, inp)
      else ActionStep(st, false, false)
  }

  /** The committed rotations and the Y and Z step angles agree. */
  predicate SameRotation(a: EngineState, b: EngineState) {
    a.cumulativeRotation == b.cumulativeRotation &&
    a.yRotationAngle == b.yRotationAngle && a.zRotationAngle == b.zRotationAngle
  }

  /** The factors of the frame drawn after the action part of a tick left the state `st`: the fixed
      Z rotation first; then, for a rotate action, only its own axis's committed plus step angle, and
      for any other action all three committed rotations; then the translation and the scale. */
  function Frame(st: EngineState, action: Action): (ops: seq<Op>)
    ensures |ops| >= 3 && ops[0] == RotateAbout('Z', FINAL_ROTATION_Z)
    ensures ops[|ops| - 2] == Translate(st.moveX, st.moveY) && ops[|ops| - 1] == ScaleBy(st.scaleNum)
    ensures action.Rotate? && IsAxis(action.axis) ==>
              ops[1..|ops| - 2] == [RotateAbout(action.axis, Cumulative(st, action.axis) + StepAngle(st, action.axis))]
    ensures action.Rotate? && !IsAxis(action.axis) ==> |ops| == 3
    ensures !action.Rotate? ==>
              ops[1..|ops| - 2] == [RotateAbout('X', st.cumulativeRotation.x), RotateAbout('Y', st.cumulativeRotation.y),
                                    RotateAbout('Z', st.cumulativeRotation.z)]
  {
    var rotations :=
      match action
      case Rotate(axis, _) =>
        if IsAxis(axis) then [RotateAbout(axis, Cumulative(st, axis) + StepAngle(st, axis))] else []
      case _ =>
        [RotateAbout('X', st.cumulativeRotation.x), RotateAbout('Y', st.cumulativeRotation.y),
         RotateAbout('Z', st.cumulativeRotation.z)];
    [RotateAbout('Z', FINAL_ROTATION_Z)] + rotations + [Translate(st.moveX, st.moveY), ScaleBy(st.scaleNum)]
  }

  /** `resetActionState`: the three step angles go to 0 and no bounce is running; committed
      rotations, position, scale, heading, bounce clock, index and run flag are untouched. */
  function ResetAction(st: EngineState): (r: EngineState)
    ensures r.rotationAngle == 0.0 && r.yRotationAngle == 0.0 && r.zRotationAngle == 0.0 && !r.isBouncing
    ensures SameTransform(r, st)
    ensures r.bounceAngle == st.bounceAngle && r.bounceStartTime == st.bounceStartTime
    ensures r.bounceTimer == st.bounceTimer
    ensures r.currentSequenceIndex == st.currentSequenceIndex && r.animFlag == st.animFlag
  {
    st.(rotationAngle := 0.0, yRotationAngle := 0.0, zRotationAngle := 0.0, isBouncing := false)
  }

  /** `resetAnimationState`: position, step angles and committed rotations to 0, scale to 1, no
      bounce running, back to the first action. The heading, the bounce clock and `animFlag` stay. */
  function ResetAnimation(st: EngineState): (r: EngineState)
    ensures r.moveX == 0.0 && r.moveY == 0.0 && r.scaleNum == 1.0
    ensures r.rotationAngle == 0.0 && r.yRotationAngle == 0.0 && r.zRotationAngle == 0.0
    ensures r.cumulativeRotation == NO_ROTATION
    ensures !r.isBouncing && r.currentSequenceIndex == 0
    ensures r.animFlag == st.animFlag && r.bounceAngle == st.bounceAngle
    ensures r.bounceStartTime == st.bounceStartTime && r.bounceTimer == st.bounceTimer
  {
    st.(moveX := 0.0, moveY := 0.0, rotationAngle := 0.0, yRotationAngle := 0.0, zRotationAngle := 0.0,
        cumulativeRotation := NO_ROTATION, scaleNum := 1.0, isBouncing := false, currentSequenceIndex := 0)
  }

  /** The start/stop button: flips `animFlag`; when that starts the animation, the state is reset
      and the index is back at 0 (the caller then runs the first tick). Stopping changes nothing
      else, so the last frame's transform stays. */
  function Toggled(st: EngineState): (r: EngineState)
    ensures r.animFlag == !st.animFlag
    ensures r.animFlag ==> r == ResetAnimation(st).(animFlag := true)
    ensures !r.animFlag ==> r == st.(animFlag := false)
  {
    if !st.animFlag then ResetAnimation(st.(animFlag := true, currentSequenceIndex := 0))
    else st.(animFlag := false)
  }

  /** Sequence progression after the frame is drawn. A finished action moves the index on by one.
      Past the last action the index goes back to 0 and the animation stops, with nothing else reset;
      otherwise only the per-action state is cleared. Position, scale and committed rotations are
      never touched. */
  function Advance(st: EngineState, complete: bool, length: nat): (r: EngineState)
    ensures SameTransform(r, st)
    ensures !complete ==> r == st
    ensures complete && st.currentSequenceIndex + 1 >= length ==>
              r == st.(currentSequenceIndex := 0, animFlag := false)
    ensures complete && st.currentSequenceIndex + 1 < length ==>
              r == ResetAction(st).(currentSequenceIndex := st.currentSequenceIndex + 1)
  {
    if !complete then st
    else if st.currentSequenceIndex + 1 >= length then st.(currentSequenceIndex := 0, animFlag := false)
    else ResetAction(st.(currentSequenceIndex := st.currentSequenceIndex + 1))
  }

  /** One whole tick of `animUpdate` against the sequence as it stands. `None` is the program's
      crash: with the index past the end the current action is undefined and reading its type
      throws. Otherwise the frame ends with the translation and scale the tick leaves; a tick whose
      action does not finish keeps the index and the run flag, and one whose action finishes moves
      to the next action or, after the last, stops the run at index 0. */
  function Step(st: EngineState, sequence: seq<Action>, inp: TickInputs): (r: Option<TickResult>)
    ensures r.None? <==> st.currentSequenceIndex >= |sequence|
  {
    if st.currentSequenceIndex >= |sequence| then None
    else
      var action := sequence[st.currentSequenceIndex];
      var act := Dispatch(st, action, inp);
      Some(TickResult(Advance(act.state, act.complete, |sequence|), Frame(act.state, action),
                      act.complete, act.collided))
  }

  /** The wall checks of a bounce tick, on the position the current heading would reach. */
  method BounceHeading(moveX: real, moveY: real, bounceAngle: real, inp: TickInputs)
    returns (angle: real, collision: bool)
    ensures angle == ReflectedAngle(moveX, moveY, bounceAngle, inp)
    ensures collision == HitsWall(moveX, moveY, bounceAngle, inp)
  {
    var moveSpeed := 0.03 * inp.speedFactor;
    var nextX := Along(moveX, inp.Cos(bounceAngle), moveSpeed);
    var nextY := Along(moveY, inp.Sin(bounceAngle), moveSpeed);
    angle, collision := bounceAngle, false;
    var draws := [inp.draw1, inp.draw2];
    var used := 0;
    if Abs(nextX) > BOUNCE_WIDTH {
      angle := PI - angle;
      angle := angle + Jitter(draws[used]);
      used := used + 1;
      collision := true;
    }
    if Abs(nextY) > BOUNCE_HEIGHT {
      angle := -angle;
      angle := angle + Jitter(draws[used]);
      collision := true;
    }
  }

  /** What one tick draws: the fixed Z rotation first, the translation and the scale the tick
      leaves last. */
  lemma StepFrame(st: EngineState, sequence: seq<Action>, inp: TickInputs)
    requires st.currentSequenceIndex < |sequence|
    ensures var t := Step(st, sequence, inp).value;
            && |t.frame| >= 3 && t.frame[0] == RotateAbout('Z', FINAL_ROTATION_Z)
            && t.frame[|t.frame| - 2] == Translate(t.state.moveX, t.state.moveY)
            && t.frame[|t.frame| - 1] == ScaleBy(t.state.scaleNum)
  {
    var act := Dispatch(st, sequence[st.currentSequenceIndex], inp);
    assert SameTransform(Advance(act.state, act.complete, |sequence|), act.state);
  }

  /** Where one tick leaves the script: a tick whose action does not finish keeps the index and the
      run flag; one whose action finishes moves to the next action with the per-action state
      cleared or, after the last action, stops the run at index 0. */
  lemma StepProgression(st: EngineState, sequence: seq<Action>, inp: TickInputs)
    requires st.currentSequenceIndex < |sequence|
    ensures var t := Step(st, sequence, inp).value;
            && (!t.completed ==> t.state.currentSequenceIndex == st.currentSequenceIndex
                                 && t.state.animFlag == st.animFlag)
            && (t.completed && st.currentSequenceIndex + 1 < |sequence| ==>
                  t.state.currentSequenceIndex == st.currentSequenceIndex + 1 && t.state.animFlag == st.animFlag
                  && t.state.rotationAngle == 0.0 && t.state.yRotationAngle == 0.0
                  && t.state.zRotationAngle == 0.0 && !t.state.isBouncing)
            && (t.completed && st.currentSequenceIndex + 1 == |sequence| ==>
                  t.state.currentSequenceIndex == 0 && !t.state.animFlag)
  {
    var act := Dispatch(st, sequence[st.currentSequenceIndex], inp);
    var next := Advance(act.state, act.complete, |sequence|);
  }

  /** A bounce tick: the start time and the duration are taken only when no bounce is running; the
      heading is reflected at the side walls (about the vertical) and at the top and bottom
      (negated), each reflection adding the jitter of the next random draw; the position advances
      0.03 * speedFactor along the new heading; the action finishes once the recorded duration has
      elapsed, and then no bounce is running. Nothing else changes. */
  lemma BounceStepSpec(st: EngineState, duration: Option<real>, inp: TickInputs)
    ensures var r := BounceStep(st, duration, inp);
            && r.state.bounceStartTime == (if st.isBouncing then st.bounceStartTime else inp.currentTime)
            && r.state.bounceTimer == (if st.isBouncing then st.bounceTimer else duration)
    ensures var r := BounceStep(st, duration, inp);
            var speed := 0.03 * inp.speedFactor;
            var hitX := Abs(Along(st.moveX, inp.Cos(st.bounceAngle), speed)) > BOUNCE_WIDTH;
            var hitY := Abs(Along(st.moveY, inp.Sin(st.bounceAngle), speed)) > BOUNCE_HEIGHT;
            && (r.collided <==> hitX || hitY)
            && (!hitX && !hitY ==> r.state.bounceAngle == st.bounceAngle)
            && (hitX && !hitY ==> r.state.bounceAngle == PI - st.bounceAngle + Jitter(inp.draw1))
            && (!hitX && hitY ==> r.state.bounceAngle == -st.bounceAngle + Jitter(inp.draw1))
            && (hitX && hitY ==>
                  r.state.bounceAngle == -(PI - st.bounceAngle + Jitter(inp.draw1)) + Jitter(inp.draw2))
            && r.state.moveX == Along(st.moveX, inp.Cos(r.state.bounceAngle), speed)
            && r.state.moveY == Along(st.moveY, inp.Sin(r.state.bounceAngle), speed)
    ensures var r := BounceStep(st, duration, inp);
            && (r.complete <==> BounceOver(r.state.bounceTimer, inp.currentTime - r.state.bounceStartTime))
            && r.state.isBouncing == !r.complete
            && r.state == st.(moveX := r.state.moveX, moveY := r.state.moveY, bounceAngle := r.state.bounceAngle,
                              isBouncing := r.state.isBouncing, bounceStartTime := r.state.bounceStartTime,
                              bounceTimer := r.state.bounceTimer)
  {
  }

  /** The engine's module-level variables. */
  class Engine {
    var rotationAngle: real
    var yRotationAngle: real
    var zRotationAngle: real
    var cumulativeRotation: Rotation
    var moveX: real
    var moveY: real
    var scaleNum: real
    var bounceAngle: real
    var isBouncing: bool
    var bounceStartTime: real
    var bounceTimer: Option<real>
    var currentSequenceIndex: nat
    var animFlag: bool

    function State(): EngineState
      reads this
    {
      EngineState(rotationAngle, yRotationAngle, zRotationAngle, cumulativeRotation,
                  moveX, moveY, scaleNum, bounceAngle, isBouncing, bounceStartTime, bounceTimer,
                  currentSequenceIndex, animFlag)
    }

    /** The values at page load; the initial heading is a random angle, so it is a parameter. */
    constructor (initialBounceAngle: real)
      ensures State() == EngineState(0.0, 0.0, 0.0, NO_ROTATION, 0.0, 0.0, 1.0, initialBounceAngle,
                                     false, 0.0, None, 0, false)
    {
      rotationAngle, yRotationAngle, zRotationAngle := 0.0, 0.0, 0.0;
      cumulativeRotation := NO_ROTATION;
      moveX, moveY, scaleNum := 0.0, 0.0, 1.0;
      bounceAngle := initialBounceAngle;
      isBouncing, bounceStartTime, bounceTimer := false, 0.0, None;
      currentSequenceIndex, animFlag := 0, false;
    }

    method ResetAnimationState()
      modifies this
      ensures State() == ResetAnimation(old(State()))
    {
      moveX, moveY := 0.0, 0.0;
      ResetActionState();
      cumulativeRotation := NO_ROTATION;
      scaleNum := 1.0;
      currentSequenceIndex := 0;
    }

    method ResetActionState()
      modifies this
      ensures State() == ResetAction(old(State()))
    {
      rotationAngle, yRotationAngle, zRotationAngle := 0.0, 0.0, 0.0;
      isBouncing := false;
    }

    /** The start/stop button; `started` tells the caller to run the first tick. */
    method Toggle() returns (started: bool)
      modifies this
      ensures State() == Toggled(old(State()))
      ensures started == animFlag
    {
      animFlag := !animFlag;
      if animFlag {
        currentSequenceIndex := 0;
        ResetAnimationState();
      }
      started := animFlag;
    }

    method RotateTick(axis: char, targetDegrees: real, speedFactor: real) returns (complete: bool)
      modifies this
      ensures var r := RotateStep(old(State()), axis, targetDegrees, speedFactor);
              State() == r.state && complete == r.complete
    {
      var rotationSpeed := 2.0 * speedFactor;
      var rotationDirection := Direction(targetDegrees);
      complete := false;
      if axis == 'X' {
        var angle := rotationAngle + rotationSpeed * rotationDirection;
        if Abs(angle) >= Abs(targetDegrees) {
          cumulativeRotation := cumulativeRotation.(x := cumulativeRotation.x + targetDegrees);
          angle := 0.0;
          complete := true;
        }
        rotationAngle := angle;
      } else if axis == 'Y' {
        var angle := yRotationAngle + rotationSpeed * rotationDirection;
        if Abs(angle) >= Abs(targetDegrees) {
          cumulativeRotation := cumulativeRotation.(y := cumulativeRotation.y + targetDegrees);
          angle := 0.0;
          complete := true;
        }
        yRotationAngle := angle;
      } else if axis == 'Z' {
        var angle := zRotationAngle + rotationSpeed * rotationDirection;
        if Abs(angle) >= Abs(targetDegrees) {
          cumulativeRotation := cumulativeRotation.(z := cumulativeRotation.z + targetDegrees);
          angle := 0.0;
          complete := true;
        }
        zRotationAngle := angle;
      }
    }

    method CenterTick(speedFactor: real) returns (complete: bool)
      modifies this
      ensures var r := CenterStep(old(State()), speedFactor);
              State() == r.state && complete == r.complete
    {
      var returnSpeed := 0.02 * speedFactor;
      var keep := 1.0 - returnSpeed;
      var x, y, angle, s := Shrink(moveX, keep), Shrink(moveY, keep), Shrink(rotationAngle, keep),
                            1.0 + Shrink(scaleNum - 1.0, keep);
      complete := false;
      if Abs(x) < REST_TOLERANCE && Abs(y) < REST_TOLERANCE &&
         Abs(angle) < REST_TOLERANCE && Abs(s - 1.0) < REST_TOLERANCE {
        x, y, angle, s := 0.0, 0.0, 0.0, 1.0;
        complete := true;
      }
      moveX, moveY, rotationAngle, scaleNum := x, y, angle, s;
    }

    method ScaleTick(targetScale: real, speedFactor: real) returns (complete: bool)
      modifies this
      ensures var r := ScaleStep(old(State()), targetScale, speedFactor);
              State() == r.state && complete == r.complete
    {
      var scaleDiff := targetScale - scaleNum;
      var scaleSpeed := 0.02 * speedFactor;
      complete := false;
      if Abs(scaleDiff) < scaleSpeed {
        scaleNum := targetScale;
        complete := true;
      } else {
        scaleNum := scaleNum + Sign(scaleDiff) * scaleSpeed;
      }
    }

    /** The first tick of a bounce records when it started and how long it lasts. */
    method StartBounce(duration: Option<real>, currentTime: real)
      modifies this
      ensures State() == old(State()).(bounceStartTime := currentTime, isBouncing := true, bounceTimer := duration)
    {
      bounceStartTime, isBouncing, bounceTimer := currentTime, true, duration;
    }

    method BounceTick(duration: Option<real>, inp: TickInputs) returns (complete: bool, collision: bool)
      modifies this
      ensures var r := BounceStep(old(State()), duration, inp);
              State() == r.state && complete == r.complete && collision == r.collided
    {
      if !isBouncing {
        StartBounce(duration, inp.currentTime);
      }
      var moveSpeed := 0.03 * inp.speedFactor;
      var angle;
      angle, collision := BounceHeading(moveX, moveY, bounceAngle, inp);
      bounceAngle := angle;
      moveX, moveY := Along(moveX, inp.Cos(angle), moveSpeed), Along(moveY, inp.Sin(angle), moveSpeed);
      complete := bounceTimer.Some? && inp.currentTime - bounceStartTime >= bounceTimer.value;
      if complete {
        isBouncing := false;
      }
    }

    /** The action part of a tick: dispatch on the current action's tag. */
    method PerformAction(action: Action, inp: TickInputs) returns (complete: bool, collided: bool)
      modifies this
      ensures var r := Dispatch(old(State()), action, inp);
              State() == r.state && complete == r.complete && collided == r.collided
    {
      complete, collided := false, false;
      match action
      case Rotate(axis, degrees) =>
        complete := RotateTick(axis, degrees, inp.speedFactor);
      case Named(name) =>
        if name == "center" {
          complete := CenterTick(inp.speedFactor);
        } else if name == "bounce" {
          complete, collided := BounceTick(None, inp);
        }
      case Scale(target) =>
        complete := ScaleTick(target, inp.speedFactor);
      case Bounce(duration) =>
        complete, collided := BounceTick(duration, inp);
    }

    /** Sequence progression once the frame is drawn. */
    method AdvanceSequence(complete: bool, length: nat)
      modifies this
      ensures State() == Advance(old(State()), complete, length)
    {
      if complete {
        currentSequenceIndex := currentSequenceIndex + 1;
        if currentSequenceIndex >= length {
          // the sequence is over: stop, keeping the final transform
          currentSequenceIndex := 0;
          animFlag := false;
          return;
        }
        ResetActionState();
      }
    }

    /** One call of `animUpdate` with `sequence` as the current script. Returns the frame drawn
        (None when the program throws), whether another frame is requested, and whether a bounce
        hit a wall. */
    method Tick(sequence: seq<Action>, animationSpeed: real, currentTime: real,
                cos: real -> real, sin: real -> real, draw1: real, draw2: real)
      returns (frame: Option<seq<Op>>, again: bool, collided: bool)
      modifies this
      ensures var inp := TickInputs(animationSpeed / 5.0, currentTime, cos, sin, draw1, draw2);
              match Step(old(State()), sequence, inp)
              case None => State() == old(State()) && frame == None && !again && !collided
              case Some(t) => State() == t.state && frame == Some(t.frame) && again == t.state.animFlag
                              && collided == t.collided
    {
      var inp := TickInputs(animationSpeed / 5.0, currentTime, cos, sin, draw1, draw2);
      if currentSequenceIndex >= |sequence| {
        // the current action is undefined and reading its type throws
        frame, again, collided := None, false, false;
        return;
      }
      var action := sequence[currentSequenceIndex];
      var ops := [RotateAbout('Z', FINAL_ROTATION_Z)];
      if !action.Rotate? {
        ops := ops + [RotateAbout('X', cumulativeRotation.x), RotateAbout('Y', cumulativeRotation.y),
                      RotateAbout('Z', cumulativeRotation.z)];
      }
      var complete;
      complete, collided := PerformAction(action, inp);
      if action.Rotate? {
        if action.axis == 'X' {
          ops := ops + [RotateAbout('X', cumulativeRotation.x + rotationAngle)];
        } else if action.axis == 'Y' {
          ops := ops + [RotateAbout('Y', cumulativeRotation.y + yRotationAngle)];
        } else if action.axis == 'Z' {
          ops := ops + [RotateAbout('Z', cumulativeRotation.z + zRotationAngle)];
        }
      }
      ops := ops + [Translate(moveX, moveY), ScaleBy(scaleNum)];
      assert ops == Frame(State(), action);
      frame := Some(ops);
      AdvanceSequence(complete, |sequence|);
      again := animFlag;
    }
  }
}
