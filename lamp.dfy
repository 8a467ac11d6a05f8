/** The random-pose animation of models/Lamp.java.

    The lamp has four animated joints.  A random-pose request samples one
    integer target offset per joint with `Random.nextInt`; then, frame by
    frame, each joint is rotated to `initial + target * t` until every joint
    is within 0.1 degree of `initial + target`.

    What the source reads from outside is given as input: the current joint
    angles (read back from the joint matrices by helpers that are not part of
    this model), the random generator (`nextInt`), the clock (`now`) and the
    easing value `t` (a sine of the elapsed time).  What it does to the scene
    graph (rotating a joint with `setTransform`, `lampRoot.update()`,
    `lampRoot.draw(gl)`) is recorded as a list of `LampCall`s. */
module LampAnimation {

  // Joint limits in degrees, as declared in the source.
  const DefaultBaseAngleY: int := 0
  const DefaultLowerJointAngleZ: int := 30
  const MinLowerJointAngleZ: int := -70
  const MaxLowerJointAngleZ: int := 70
  const DefaultUpperJointAngleZ: int := -90
  const MinUpperJointAngleZ: int := -100
  const MaxUpperJointAngleZ: int := 0
  const DefaultHeadJointAngleY: int := 0
  const MinHeadJointAngleY: int := -90
  const MaxHeadJointAngleY: int := 90
  const DefaultHeadJointAngleZ: int := -10
  const MinHeadJointAngleZ: int := -30
  const MaxHeadJointAngleZ: int := 80

  /** A new lower angle at or below this value would make the upper body hit
      the table, so the upper joint is then kept at or above
      `TableClearanceUpperAngle`. */
  const TableClearanceLowerAngle: int := -35
  const TableClearanceUpperAngle: int := -20

  /** A joint closer than this to its goal counts as arrived (`0.1f`). */
  const Epsilon: real := 0.1

  /** One integer angle per animated joint. */
  datatype Angles = Angles(lower: int, upper: int, headY: int, headZ: int)

  /** The animated joints: the lower and upper body rotate about Z, the
      head about Y and about Z. */
  datatype Joint = LowerJointZ | UpperJointZ | HeadJointY | HeadJointZ

  /** What the animation does to the lamp's scene graph: rotate one joint
      to an angle (`setTransform` of its rotation node), re-propagate the
      lamp's world transforms, or draw the lamp. */
  datatype LampCall =
    | SetJointAngle(joint: Joint, angle: real)
    | UpdateLampRoot
    | DrawLampRoot

  /** The angle of one joint. */
  function Get(a: Angles, j: Joint): int {
    match j
    case LowerJointZ => a.lower
    case UpperJointZ => a.upper
    case HeadJointY => a.headY
    case HeadJointZ => a.headZ
  }

  /** The angles a pose ends at: initial angle plus target offset, joint by joint. */
  function Committed(initial: Angles, target: Angles): (a: Angles)
    ensures forall j :: Get(a, j) == Get(initial, j) + Get(target, j)
  {
    Angles(initial.lower + target.lower, initial.upper + target.upper,
           initial.headY + target.headY, initial.headZ + target.headZ)
  }

  /** The poses a random request may end in: each joint within its limits
      (upper limit excluded), and the upper joint kept at or above -20 when
      the lower joint ends at or below -35. */
  predicate Legal(a: Angles) {
    && MinLowerJointAngleZ <= a.lower < MaxLowerJointAngleZ
    && (if a.lower <= TableClearanceLowerAngle then TableClearanceUpperAngle else MinUpperJointAngleZ) <= a.upper
    && a.upper < MaxUpperJointAngleZ
    && MinHeadJointAngleY <= a.headY < MaxHeadJointAngleY
    && MinHeadJointAngleZ <= a.headZ < MaxHeadJointAngleZ
  }

  /** `Random.nextInt`: for a positive bound `n`, a value in `[0, n)`. */
  ghost predicate IsNextInt(nextInt: int -> int) {
    forall n :: 0 < n ==> 0 <= nextInt(n) < n
  }

  /** One draw of the generator, shifted to start at `min`: a value in
      `[min, max)`; the call needs a
      positive bound, hence `min < max`. */
  function Sample(nextInt: int -> int, min: int, max: int): (v: int)
    requires IsNextInt(nextInt) && min < max
    ensures min <= v < max
  {
    nextInt(max - min) + min
  }

  /** The target offsets `calculateRandomPose` draws from the initial angles.
      Every bound passed to `nextInt` is positive whatever the initial angles
      (140, then 20 or 100, then 180 and 110), so sampling never fails, and
      the committed pose is always legal. */
  function SampleTargets(initial: Angles, nextInt: int -> int): (target: Angles)
    requires IsNextInt(nextInt)
    ensures Legal(Committed(initial, target))
  {
    var lower := Sample(nextInt, MinLowerJointAngleZ - initial.lower, MaxLowerJointAngleZ - initial.lower);
    var upperMin :=
      if initial.lower + lower <= TableClearanceLowerAngle
      then TableClearanceUpperAngle - initial.upper
      else MinUpperJointAngleZ - initial.upper;
    var upper := Sample(nextInt, upperMin, MaxUpperJointAngleZ - initial.upper);
    var headY := Sample(nextInt, MinHeadJointAngleY - initial.headY, MaxHeadJointAngleY - initial.headY);
    var headZ := Sample(nextInt, MinHeadJointAngleZ - initial.headZ, MaxHeadJointAngleZ - initial.headZ);
    Angles(lower, upper, headY, headZ)
  }

  /** A generator whose answers lead to the pose `goal`: the five bounds the
      sampling can use are all different, so one answer per bound suffices. */
  function GeneratorFor(goal: Angles): int -> int {
    n =>
      if n == MaxLowerJointAngleZ - MinLowerJointAngleZ then goal.lower - MinLowerJointAngleZ
      else if n == MaxUpperJointAngleZ - TableClearanceUpperAngle then
        (if goal.lower <= TableClearanceLowerAngle then goal.upper - TableClearanceUpperAngle else 0)
      else if n == MaxUpperJointAngleZ - MinUpperJointAngleZ then
        (if goal.lower <= TableClearanceLowerAngle then 0 else goal.upper - MinUpperJointAngleZ)
      else if n == MaxHeadJointAngleY - MinHeadJointAngleY then goal.headY - MinHeadJointAngleY
      else if n == MaxHeadJointAngleZ - MinHeadJointAngleZ then goal.headZ - MinHeadJointAngleZ
      else 0
  }

  /** Conversely, every legal pose can come out of a random request, from
      any initial angles: the legal poses are exactly the reachable ones. */
  lemma EveryLegalPoseIsSampled(initial: Angles, goal: Angles)
    requires Legal(goal)
    ensures IsNextInt(GeneratorFor(goal))
    ensures Committed(initial, SampleTargets(initial, GeneratorFor(goal))) == goal
  {
    var g := GeneratorFor(goal);
    forall n | 0 < n
      ensures 0 <= g(n) < n
    {
    }
  }

  /** The tween angle `initial + target * t`. */
  function Tween(initial: int, target: int, t: real): (a: real)
    ensures t == 0.0 ==> a == initial as real
    ensures t == 1.0 ==> a == (initial + target) as real
  {
    initial as real + target as real * t
  }

  /** How far the joint still has to turn: `initial + target - tween`. */
  function Remaining(initial: int, target: int, t: real): real {
    (initial + target) as real - Tween(initial, target, t)
  }

  /** The distance left is the untravelled part `1 - t` of the target
      offset; it is zero at `t = 1` whatever the angles. */
  lemma RemainingIsUntravelled(initial: int, target: int, t: real)
    ensures Remaining(initial, target, t) == target as real * (1.0 - t)
    ensures t == 1.0 ==> Remaining(initial, target, t) == 0.0
  {
  }

  function Magnitude(x: real): real {
    if x < 0.0 then -x else x
  }

  /** Every joint is within `Epsilon` of its goal. */
  predicate Settled(initial: Angles, target: Angles, t: real) {
    && Magnitude(Remaining(initial.lower, target.lower, t)) < Epsilon
    && Magnitude(Remaining(initial.upper, target.upper, t)) < Epsilon
    && Magnitude(Remaining(initial.headY, target.headY, t)) < Epsilon
    && Magnitude(Remaining(initial.headZ, target.headZ, t)) < Epsilon
  }

  /** A joint is moved when it is more than `Epsilon` from its goal. */
  predicate Moves(initial: Angles, target: Angles, t: real, j: Joint) {
    Magnitude(Remaining(Get(initial, j), Get(target, j), t)) > Epsilon
  }

  function WriteIfMoving(initial: Angles, target: Angles, t: real, j: Joint): seq<LampCall> {
    if Moves(initial, target, t, j) then [SetJointAngle(j, Tween(Get(initial, j), Get(target, j), t))] else []
  }

  /** The joint rotations of one unsettled animation frame, in the order
      lower, upper, head Y, head Z. */
  function JointWrites(initial: Angles, target: Angles, t: real): seq<LampCall> {
    WriteIfMoving(initial, target, t, LowerJointZ) + WriteIfMoving(initial, target, t, UpperJointZ)
    + WriteIfMoving(initial, target, t, HeadJointY) + WriteIfMoving(initial, target, t, HeadJointZ)
  }

  /** Appending the four joints' writes one after the other, then the
      update of the lamp, appends the calls of an unsettled frame. */
  lemma AppendFrameWrites(before: seq<LampCall>, initial: Angles, target: Angles, t: real)
    ensures before + WriteIfMoving(initial, target, t, LowerJointZ) + WriteIfMoving(initial, target, t, UpperJointZ)
      + WriteIfMoving(initial, target, t, HeadJointY) + WriteIfMoving(initial, target, t, HeadJointZ)
      + [UpdateLampRoot]
      == before + (JointWrites(initial, target, t) + [UpdateLampRoot])
  {
  }

  /** In a frame, a joint is rotated, to its tween angle, exactly when it is
      more than `Epsilon` from its goal, and no joint is rotated twice. */
  lemma JointWritesAreTheMovingJoints(initial: Angles, target: Angles, t: real)
    ensures forall c :: c in JointWrites(initial, target, t) ==>
      c.SetJointAngle? && Moves(initial, target, t, c.joint)
      && c.angle == Tween(Get(initial, c.joint), Get(target, c.joint), t)
    ensures forall j :: Moves(initial, target, t, j) ==>
      SetJointAngle(j, Tween(Get(initial, j), Get(target, j), t)) in JointWrites(initial, target, t)
    ensures forall p, q :: 0 <= p < q < |JointWrites(initial, target, t)| ==>
      JointWrites(initial, target, t)[p].joint != JointWrites(initial, target, t)[q].joint
  {
  }

  /** When every joint has settled, no joint is far enough to be moved. */
  lemma SettledMovesNothing(initial: Angles, target: Angles, t: real)
    requires Settled(initial, target, t)
    ensures JointWrites(initial, target, t) == []
  {
    forall j: Joint ensures !Moves(initial, target, t, j) {
    }
  }

  /** The animation flags and angles a Lamp keeps between frames. */
  datatype Pose = Pose(
    isRandom: bool, isAnimatingRandom: bool, isReset: bool, isJump: bool,
    startTime: real, initial: Angles, target: Angles)

  /** A lamp before any request: no flag set, the default angles as initial
      angles, and zero targets. */
  const InitialPose: Pose := Pose(false, false, false, false, 0.0,
    Angles(DefaultLowerJointAngleZ, DefaultUpperJointAngleZ, DefaultHeadJointAngleY, DefaultHeadJointAngleZ),
    Angles(0, 0, 0, 0))

  /** `calculateRandomPose`: the current joint angles become the initial
      angles, fresh targets are sampled, the request is consumed, the
      animation starts and its start time is stamped. */
  function StartRandomPose(p: Pose, current: Angles, nextInt: int -> int, now: real): (q: Pose)
    requires IsNextInt(nextInt)
    ensures !q.isRandom && q.isAnimatingRandom && q.startTime == now
    ensures q.initial == current && Legal(Committed(current, q.target))
    ensures q.isReset == p.isReset && q.isJump == p.isJump
  {
    p.(isRandom := false, isAnimatingRandom := true, startTime := now,
       initial := current, target := SampleTargets(current, nextInt))
  }

  /** `randomPose(t)`: when every joint has settled the animation stops and
      nothing is written; otherwise the joints still moving are rotated and
      the lamp's world transforms are re-propagated.  Only the animating
      flag can change, and a joint is rotated, to its tween angle, exactly
      when it is more than `Epsilon` from its goal. */
  function AnimateRandomPose(p: Pose, t: real): (r: (Pose, seq<LampCall>))
    ensures r.0 == p.(isAnimatingRandom := p.isAnimatingRandom && !Settled(p.initial, p.target, t))
    ensures r.1 == [] <==> Settled(p.initial, p.target, t)
    ensures r.1 != [] ==> r.1[|r.1| - 1] == UpdateLampRoot && UpdateLampRoot !in r.1[..|r.1| - 1]
    ensures forall j, a :: SetJointAngle(j, a) in r.1 <==>
      Moves(p.initial, p.target, t, j) && a == Tween(Get(p.initial, j), Get(p.target, j), t)
    ensures DrawLampRoot !in r.1
  {
    JointWritesAreTheMovingJoints(p.initial, p.target, t);
    if Settled(p.initial, p.target, t) then
      SettledMovesNothing(p.initial, p.target, t);
      (p.(isAnimatingRandom := false), [])
    else
      var writes := JointWrites(p.initial, p.target, t);
      assert (writes + [UpdateLampRoot])[..|writes|] == writes;
      (p, writes + [UpdateLampRoot])
  }

  /** One call of `render` (without the button enabling): a pending random
      request starts an animation with a legal goal and moves nothing yet, a
      running animation advances by one frame, and otherwise nothing but the
      drawing happens; the lamp is drawn last in every case.  No request is
      ever created, and the reset and jump flags are never consumed. */
  function Step(p: Pose, current: Angles, nextInt: int -> int, now: real, t: real): (r: (Pose, seq<LampCall>))
    requires IsNextInt(nextInt)
    ensures |r.1| > 0 && r.1[|r.1| - 1] == DrawLampRoot && DrawLampRoot !in r.1[..|r.1| - 1]
    ensures r.0.isRandom ==> p.isRandom
    ensures r.0.isReset == p.isReset && r.0.isJump == p.isJump
    ensures p.isRandom && !p.isAnimatingRandom ==>
      && !r.0.isRandom && r.0.isAnimatingRandom && r.0.startTime == now
      && r.0.initial == current && Legal(Committed(current, r.0.target))
      && r.1 == [DrawLampRoot]
    ensures p.isAnimatingRandom ==>
      && r.0.initial == p.initial && r.0.target == p.target && r.0.isRandom == p.isRandom
      && (r.0.isAnimatingRandom <==> !Settled(p.initial, p.target, t))
      && r.1 == AnimateRandomPose(p, t).1 + [DrawLampRoot]
    ensures !p.isRandom && !p.isAnimatingRandom ==> r == (p, [DrawLampRoot])
  {
    if p.isRandom || p.isAnimatingRandom then
      if p.isRandom && !p.isAnimatingRandom then
        (StartRandomPose(p, current, nextInt, now), [DrawLampRoot])
      else
        var r := AnimateRandomPose(p, t);
        assert (r.1 + [DrawLampRoot])[..|r.1|] == r.1;
        (r.0, r.1 + [DrawLampRoot])
    else
      (p, [DrawLampRoot])
  }

  /** A random request made while an animation runs does not resample the
      targets, and it is not lost: it stays pending and starts a new
      animation on the first frame after the running one has settled. */
  lemma RequestDuringAnimationIsDeferred(p: Pose, current: Angles, nextInt: int -> int, now: real, t: real)
    requires IsNextInt(nextInt)
    requires p.isRandom && p.isAnimatingRandom
    ensures Step(p, current, nextInt, now, t).0.target == p.target
    ensures Step(p, current, nextInt, now, t).0.initial == p.initial
    ensures Step(p, current, nextInt, now, t).0.isRandom
    ensures Settled(p.initial, p.target, t) ==>
      !Step(p, current, nextInt, now, t).0.isAnimatingRandom
  {
  }

  /** With no random request pending or running, `render` only draws:
      setting `isReset` or `isJump` changes no joint and no flag. */
  lemma ResetAndJumpDoNothing(p: Pose, current: Angles, nextInt: int -> int, now: real, t: real)
    requires IsNextInt(nextInt)
    requires !p.isRandom && !p.isAnimatingRandom
    ensures Step(p, current, nextInt, now, t) == (p, [DrawLampRoot])
  {
  }

  /** At `t = 1` every remaining delta is 0, so the frame clears the
      animating flag and rotates nothing.  Each joint keeps the last tween
      angle written to it, which `WritesStopShortOfGoal` shows is more than
      `Epsilon` from its goal. */
  lemma AnimationStopsAtEnd(p: Pose, current: Angles, nextInt: int -> int, now: real)
    requires IsNextInt(nextInt)
    requires p.isAnimatingRandom
    ensures Step(p, current, nextInt, now, 1.0) == (p.(isAnimatingRandom := false), [DrawLampRoot])
  {
    RemainingIsUntravelled(p.initial.lower, p.target.lower, 1.0);
    RemainingIsUntravelled(p.initial.upper, p.target.upper, 1.0);
    RemainingIsUntravelled(p.initial.headY, p.target.headY, 1.0);
    RemainingIsUntravelled(p.initial.headZ, p.target.headZ, 1.0);
    assert Settled(p.initial, p.target, 1.0);
    assert AnimateRandomPose(p, 1.0) == (p.(isAnimatingRandom := false), []);
    assert Step(p, current, nextInt, now, 1.0).1 == [] + [DrawLampRoot] == [DrawLampRoot];
    assert Step(p, current, nextInt, now, 1.0).0 == p.(isAnimatingRandom := false);
  }

  /** A joint is only ever rotated to an angle more than `Epsilon` from its
      goal, and the frame that settles rotates nothing: an animation leaves
      each joint it rotated at the last such angle, never at
      `initial + target` itself. */
  lemma WritesStopShortOfGoal(p: Pose, t: real)
    ensures forall j, a :: SetJointAngle(j, a) in AnimateRandomPose(p, t).1 ==>
      Magnitude((Get(p.initial, j) + Get(p.target, j)) as real - a) > Epsilon
  {
  }

  /** The lamp's animation state, with the calls it has made on its scene
      graph so far. */
  class Lamp {
    var isRandom: bool
    var isAnimatingRandom: bool
    var isReset: bool
    var isJump: bool
    var startTime: real
    var initialAngles: Angles
    var targetAngles: Angles
    var calls: seq<LampCall>

    /** The flags and angles as a value. */
    function State(): Pose
      reads this
    {
      Pose(isRandom, isAnimatingRandom, isReset, isJump, startTime, initialAngles, targetAngles)
    }

    /** A new lamp: no request, default initial angles, zero targets. */
    constructor ()
      ensures State() == InitialPose && calls == []
    {
      isRandom, isAnimatingRandom, isReset, isJump := false, false, false, false;
      startTime := 0.0;
      initialAngles := Angles(DefaultLowerJointAngleZ, DefaultUpperJointAngleZ, DefaultHeadJointAngleY, DefaultHeadJointAngleZ);
      targetAngles := Angles(0, 0, 0, 0);
      calls := [];
    }

    /** `calculateRandomPose()`, one joint after the other. */
    method CalculateRandomPose(current: Angles, nextInt: int -> int, now: real)
      requires IsNextInt(nextInt)
      modifies this
      ensures State() == StartRandomPose(old(State()), current, nextInt, now)
      ensures calls == old(calls)
    {
      var initialLower := current.lower;
      var min := MinLowerJointAngleZ - initialLower;
      var max := MaxLowerJointAngleZ - initialLower;
      var targetLower := nextInt(max - min) + min;

      var initialUpper := current.upper;
      max := MaxUpperJointAngleZ - initialUpper;
      if initialLower + targetLower <= TableClearanceLowerAngle {
        min := TableClearanceUpperAngle - initialUpper;
      } else {
        min := MinUpperJointAngleZ - initialUpper;
      }
      var targetUpper := nextInt(max - min) + min;

      var initialHeadY := current.headY;
      var initialHeadZ := current.headZ;
      max := MaxHeadJointAngleY - initialHeadY;
      min := MinHeadJointAngleY - initialHeadY;
      var targetHeadY := nextInt(max - min) + min;
      max := MaxHeadJointAngleZ - initialHeadZ;
      min := MinHeadJointAngleZ - initialHeadZ;
      var targetHeadZ := nextInt(max - min) + min;

      initialAngles := Angles(initialLower, initialUpper, initialHeadY, initialHeadZ);
      targetAngles := Angles(targetLower, targetUpper, targetHeadY, targetHeadZ);
      isRandom := false;
      isAnimatingRandom := true;
      startTime := now;
    }

    /** `randomPose(t)`: tween every joint, stop when all have arrived,
        otherwise rotate the joints still moving and update the lamp. */
    method RandomPose(t: real)
      modifies this
      ensures (State(), calls) == (AnimateRandomPose(old(State()), t).0, old(calls) + AnimateRandomPose(old(State()), t).1)
    {
      var rotateL := Tween(initialAngles.lower, targetAngles.lower, t);
      var rotateU := Tween(initialAngles.upper, targetAngles.upper, t);
      var rotateHY := Tween(initialAngles.headY, targetAngles.headY, t);
      var rotateHZ := Tween(initialAngles.headZ, targetAngles.headZ, t);

      var finalL := Remaining(initialAngles.lower, targetAngles.lower, t);
      var finalU := Remaining(initialAngles.upper, targetAngles.upper, t);
      var finalHY := Remaining(initialAngles.headY, targetAngles.headY, t);
      var finalHZ := Remaining(initialAngles.headZ, targetAngles.headZ, t);

      if Magnitude(finalL) < Epsilon && Magnitude(finalU) < Epsilon
         && Magnitude(finalHY) < Epsilon && Magnitude(finalHZ) < Epsilon {
        isAnimatingRandom := false;
        assert calls == old(calls) + [];
      } else {
        ghost var i, g := initialAngles, targetAngles;
        RotateIfMoving(LowerJointZ, finalL, rotateL, t);
        RotateIfMoving(UpperJointZ, finalU, rotateU, t);
        RotateIfMoving(HeadJointY, finalHY, rotateHY, t);
        RotateIfMoving(HeadJointZ, finalHZ, rotateHZ, t);
        calls := calls + [UpdateLampRoot];
        AppendFrameWrites(old(calls), i, g, t);
      }
    }

    /** One of the four guarded rotations of `randomPose`: the joint is
        set to its tween angle only when it is more than `Epsilon` from its
        goal. */
    method RotateIfMoving(j: Joint, remaining: real, angle: real, t: real)
      requires remaining == Remaining(Get(initialAngles, j), Get(targetAngles, j), t)
      requires angle == Tween(Get(initialAngles, j), Get(targetAngles, j), t)
      modifies this`calls
      ensures calls == old(calls) + WriteIfMoving(initialAngles, targetAngles, t, j)
    {
      if Magnitude(remaining) > Epsilon {
        calls := calls + [SetJointAngle(j, angle)];
      }
    }

    /** `render(gl)` without the button enabling. */
    method Render(current: Angles, nextInt: int -> int, now: real, t: real)
      requires IsNextInt(nextInt)
      modifies this
      ensures State() == Step(old(State()), current, nextInt, now, t).0
      ensures calls == old(calls) + Step(old(State()), current, nextInt, now, t).1
    {
      if isRandom || isAnimatingRandom {
        if isRandom && !isAnimatingRandom {
          CalculateRandomPose(current, nextInt, now);
        } else {
          RandomPose(t);
        }
      } else if isReset {
      } else {
      }
      calls := calls + [DrawLampRoot];
    }
  }
}
