/**
  The player avatar: turning towards a target heading the short way round,
  choosing that heading from the movement and camera directions, the walk
  and idle poses of body, head, arms and legs, footsteps at least 350 ms
  apart with a short list of dust positions, and the dust puffs themselves.

  `Math.atan2` and `Math.sin` are parameters; `performance.now()` and the
  frame `delta` are inputs of the operations that read them.
*/
module Avatar {
  import opened Numeric
  import AudioStore

  // ---------------------------------------------------------------------------
  // Turning the short way round
  // ---------------------------------------------------------------------------

  /** The two `while` loops that bring the heading difference into [-pi, pi] by whole
      turns. `turns` is the number of full turns added. */
  method ShortestTurn(diff: real) returns (d: real, ghost turns: int)
    ensures -Pi <= d <= Pi
    ensures d == diff + (turns as real) * TwoPi
    ensures -Pi <= diff <= Pi ==> d == diff && turns == 0
  {
    d, turns := diff, 0;
    while d > Pi
      invariant d == diff + (turns as real) * TwoPi
      invariant diff > Pi ==> d > -Pi
      invariant diff <= Pi ==> d == diff && turns == 0
      decreases (d - Pi).Floor
    {
      d := d - TwoPi;
      turns := turns - 1;
    }
    while d < -Pi
      invariant d == diff + (turns as real) * TwoPi
      invariant d <= Pi
      invariant -Pi <= diff <= Pi ==> d == diff && turns == 0
      decreases (-Pi - d).Floor
    {
      d := d + TwoPi;
      turns := turns + 1;
    }
  }

  /** An angle in [-pi, pi] is no longer than any other angle a whole number of turns away. */
  lemma WrappedIsShortest(d: real, m: int)
    requires -Pi <= d <= Pi
    ensures Abs(d) <= Abs(d + (m as real) * TwoPi)
  {
    if m >= 1 {
      MulMonotone(TwoPi, 1.0, m as real);
    } else if m <= -1 {
      MulMonotone(TwoPi, m as real, -1.0);
    }
  }

  /** So the difference `ShortestTurn` returns is the shortest way to the target:
      no whole number of turns gives a smaller rotation. */
  lemma TurnIsShortest(diff: real, d: real, turns: int, k: int)
    requires -Pi <= d <= Pi && d == diff + (turns as real) * TwoPi
    ensures Abs(d) <= Abs(diff + (k as real) * TwoPi)
  {
    WrappedIsShortest(d, k - turns);
    assert diff + (k as real) * TwoPi == d + ((k - turns) as real) * TwoPi;
  }

  /** A difference of -6 radians is wrapped by adding exactly one turn, to about +0.283:
      the avatar turns the positive way. */
  lemma ScenarioMinusSix(d: real, turns: int)
    requires -Pi <= d <= Pi && d == -6.0 + (turns as real) * TwoPi
    ensures turns == 1 && d == -6.0 + TwoPi && d > 0.0
  {
    if turns <= 0 {
      MulMonotone(TwoPi, turns as real, 0.0);
    } else if turns >= 2 {
      MulMonotone(TwoPi, 2.0, turns as real);
    }
  }

  /** `rotation.y += rotationDiff * 5 * delta`. */
  function Turned(rotation: real, d: real, delta: real): real {
    rotation + d * 5.0 * delta
  }

  /** With `5 * delta` at most 1, a turn closes the gap to the target without passing it:
      what is left has the same sign and is no larger. */
  lemma TurnApproachesTarget(rotation: real, target: real, delta: real)
    requires 0.0 <= 5.0 * delta <= 1.0
    ensures var left := target - Turned(rotation, target - rotation, delta);
            && left == (target - rotation) * (1.0 - 5.0 * delta)
            && Abs(left) <= Abs(target - rotation)
            && (target - rotation >= 0.0 ==> left >= 0.0)
            && (target - rotation <= 0.0 ==> left <= 0.0)
  {
    var g := target - rotation;
    var k := 1.0 - 5.0 * delta;
    assert target - Turned(rotation, g, delta) == g * k;
    if g >= 0.0 {
      MulMonotone(g, k, 1.0);
      MulNonNegative(g, k);
    } else {
      MulMonotone(-g, k, 1.0);
      MulNonNegative(-g, k);
    }
  }

  // ---------------------------------------------------------------------------
  // Choosing the heading
  // ---------------------------------------------------------------------------

  /** `targetRotation` and the `facingCamera` state. */
  datatype Heading = Heading(target: real, facingCamera: bool)

  const InitialHeading: Heading := Heading(0.0, false)

  /** The heading chosen at the start of a frame: the movement direction while moving
      with a non-zero direction, the camera (turned half a turn) on the first idle frame,
      and otherwise whatever was chosen before. */
  function SelectTarget(h: Heading, isMoving: bool, moveDir: Vec3, cameraDir: Vec3,
                        atan2: (real, real) -> real): (r: Heading)
    ensures isMoving && moveDir.LengthSq() > 0.0 ==> r == Heading(atan2(moveDir.x, moveDir.z), false)
    ensures !isMoving && !h.facingCamera ==> r == Heading(atan2(cameraDir.x, cameraDir.z) + Pi, true)
    ensures (isMoving && moveDir.LengthSq() <= 0.0) || (!isMoving && h.facingCamera) ==> r == h
    ensures r.facingCamera <==> (!isMoving && !h.facingCamera) || (h.facingCamera && !(isMoving && moveDir.LengthSq() > 0.0))
  {
    if isMoving then
      if moveDir.LengthSq() > 0.0 then Heading(atan2(moveDir.x, moveDir.z), false) else h
    else if !h.facingCamera then
      Heading(atan2(cameraDir.x, cameraDir.z) + Pi, true)
    else
      h
  }

  /** The heading after a run of idle frames with the given camera directions. */
  function IdleHeading(h: Heading, cameras: seq<Vec3>, atan2: (real, real) -> real): Heading
    decreases |cameras|
  {
    if cameras == [] then h
    else IdleHeading(SelectTarget(h, false, Vec3(0.0, 0.0, 0.0), cameras[0], atan2), cameras[1..], atan2)
  }

  /** Once the avatar stops, the camera direction of the first idle frame fixes the
      heading: later camera moves do not turn it until it walks again. */
  lemma {:induction false} IdleHeadingLatches(h: Heading, cameras: seq<Vec3>, atan2: (real, real) -> real)
    requires cameras != []
    ensures IdleHeading(h, cameras, atan2) ==
              if h.facingCamera then h
              else Heading(atan2(cameras[0].x, cameras[0].z) + Pi, true)
    decreases |cameras|
  {
    var h1 := SelectTarget(h, false, Vec3(0.0, 0.0, 0.0), cameras[0], atan2);
    assert h1.facingCamera;
    if |cameras| > 1 {
      IdleHeadingLatches(h1, cameras[1..], atan2);
    }
  }

  // ---------------------------------------------------------------------------
  // Poses
  // ---------------------------------------------------------------------------

  /** The animated parts of the rig: body and head height, the four limb swings
      (`rotation.x`), and the two animation clocks. */
  datatype Pose = Pose(
    bodyY: real,
    headY: real,
    leftArm: real,
    rightArm: real,
    leftLeg: real,
    rightLeg: real,
    walkCycle: real,
    bounceTime: real)

  const RestPose: Pose := Pose(0.5, 1.2, 0.0, 0.0, 0.0, 0.0, 0.0, 0.0)

  /** Arms swing against each other and each leg against the arm on its side:
      left arm = right leg = -right arm = -left leg. */
  predicate Mirrored(p: Pose) {
    p.rightArm == -p.leftArm && p.leftLeg == -p.leftArm && p.rightLeg == p.leftArm
  }

  /** The shape every pose keeps: mirrored limbs swinging at most 0.4, the body bouncing
      between 0.5 and 0.6, and the head 0.7 above the body. */
  predicate PoseInvariant(p: Pose) {
    Mirrored(p) && -0.4 <= p.leftArm <= 0.4 && 0.5 <= p.bodyY <= 0.6 && p.headY - p.bodyY == 0.7
  }

  /** A walking frame: both clocks advance, the body bounces by `|sin(bounce)| * 0.1`
      and the limbs swing by `sin(walk) * 0.4`. */
  function MovingPose(p: Pose, delta: real, sin: real -> real): (r: Pose)
    requires UnitBounded(sin)
    ensures PoseInvariant(r)
    ensures r.walkCycle == p.walkCycle + delta * 7.0 && r.bounceTime == p.bounceTime + delta * 9.0
    ensures r.leftArm == sin(r.walkCycle) * 0.4
    ensures r.bodyY == 0.5 + Abs(sin(r.bounceTime)) * 0.1
  {
    var walk := p.walkCycle + delta * 7.0;
    var bounce := p.bounceTime + delta * 9.0;
    var offset := Abs(sin(bounce)) * 0.1;
    var swing := sin(walk);
    UnitProductBound(swing, 0.4);
    Pose(0.5 + offset, 1.2 + offset, swing * 0.4, -swing * 0.4, -swing * 0.4, swing * 0.4, walk, bounce)
  }

  /** An idle frame: body and head back at rest height, every limb swing damped by 0.9,
      clocks stopped. */
  function IdlePose(p: Pose): (r: Pose)
    ensures r.bodyY == 0.5 && r.headY == 1.2
    ensures r.walkCycle == p.walkCycle && r.bounceTime == p.bounceTime
    ensures Mirrored(p) ==> Mirrored(r)
    ensures PoseInvariant(p) ==> PoseInvariant(r)
    ensures Abs(r.leftArm) <= Abs(p.leftArm) && Abs(r.rightLeg) <= Abs(p.rightLeg)
    ensures Abs(r.rightArm) <= Abs(p.rightArm) && Abs(r.leftLeg) <= Abs(p.leftLeg)
    ensures (r.leftArm >= 0.0 <==> p.leftArm >= 0.0) && (r.leftArm == 0.0 <==> p.leftArm == 0.0)
  {
    Pose(0.5, 1.2, p.leftArm * 0.9, p.rightArm * 0.9, p.leftLeg * 0.9, p.rightLeg * 0.9,
         p.walkCycle, p.bounceTime)
  }

  function Pow(x: real, n: nat): real
    decreases n
  {
    if n == 0 then 1.0 else x * Pow(x, n - 1)
  }

  function IdleFrames(p: Pose, n: nat): Pose
    decreases n
  {
    if n == 0 then p else IdleFrames(IdlePose(p), n - 1)
  }

  /** `n` dampings of one swing by 0.9. */
  function Damp(x: real, n: nat): real
    decreases n
  {
    if n == 0 then x else Damp(x * 0.9, n - 1)
  }

  lemma {:induction false} DampIsPower(x: real, n: nat)
    ensures Damp(x, n) == x * Pow(0.9, n)
    decreases n
  {
    if n > 0 {
      DampIsPower(x * 0.9, n - 1);
      assert x * 0.9 * Pow(0.9, n - 1) == x * (0.9 * Pow(0.9, n - 1));
    }
  }

  lemma {:induction false} IdleFramesDamp(p: Pose, n: nat)
    ensures var q := IdleFrames(p, n);
            && q.leftArm == Damp(p.leftArm, n) && q.rightArm == Damp(p.rightArm, n)
            && q.leftLeg == Damp(p.leftLeg, n) && q.rightLeg == Damp(p.rightLeg, n)
    decreases n
  {
    if n > 0 {
      IdleFramesDamp(IdlePose(p), n - 1);
    }
  }

  /** After `n` idle frames every limb swing is its old value times `0.9^n`. */
  lemma IdleDecay(p: Pose, n: nat)
    ensures IdleFrames(p, n).leftArm == p.leftArm * Pow(0.9, n)
    ensures IdleFrames(p, n).rightArm == p.rightArm * Pow(0.9, n)
    ensures IdleFrames(p, n).leftLeg == p.leftLeg * Pow(0.9, n)
    ensures IdleFrames(p, n).rightLeg == p.rightLeg * Pow(0.9, n)
  {
    IdleFramesDamp(p, n);
    DampIsPower(p.leftArm, n);
    DampIsPower(p.rightArm, n);
    DampIsPower(p.leftLeg, n);
    DampIsPower(p.rightLeg, n);
  }

  // ---------------------------------------------------------------------------
  // Footsteps and dust
  // ---------------------------------------------------------------------------

  const StepInterval: real := 350.0

  /** A footstep is due while moving once more than 350 ms have passed since the last one. */
  predicate FootstepDue(isMoving: bool, now: real, lastStep: real) {
    isMoving && now - lastStep > StepInterval
  }

  /** The two state updates of a footstep: append the position, then, if the list the
      effect saw already held more than five entries, drop the oldest. */
  function AddDust(dust: seq<Vec3>, p: Vec3): (r: seq<Vec3>)
    ensures |r| > 0 && r[|r| - 1] == p
    ensures |dust| <= 5 ==> r == dust + [p]
    ensures |dust| > 5 ==> r == dust[1..] + [p]
    ensures |dust| <= 6 ==> |r| <= 6
  {
    if |dust| > 5 then (dust + [p])[1..] else dust + [p]
  }

  function DustAfter(dust: seq<Vec3>, steps: seq<Vec3>): seq<Vec3>
    decreases |steps|
  {
    if steps == [] then dust else DustAfter(AddDust(dust, steps[0]), steps[1..])
  }

  /** `r` is a suffix of `s`. */
  predicate IsSuffix<T(==)>(r: seq<T>, s: seq<T>) {
    |r| <= |s| && r == s[|s| - |r|..]
  }

  lemma SuffixTransitive<T>(a: seq<T>, b: seq<T>, c: seq<T>)
    requires IsSuffix(a, b) && IsSuffix(b, c)
    ensures IsSuffix(a, c)
  {
    assert b[|b| - |a|..] == c[|c| - |b|..][|b| - |a|..];
  }

  lemma AddDustSuffix(dust: seq<Vec3>, p: Vec3, rest: seq<Vec3>)
    ensures IsSuffix(AddDust(dust, p) + rest, dust + ([p] + rest))
  {
    var whole := dust + ([p] + rest);
    if |dust| > 5 {
      assert AddDust(dust, p) + rest == whole[1..];
    } else {
      assert AddDust(dust, p) + rest == whole;
    }
  }

  lemma DustAfterCons(dust: seq<Vec3>, p: Vec3, rest: seq<Vec3>)
    ensures DustAfter(dust, [p] + rest) == DustAfter(AddDust(dust, p), rest)
  {
    assert ([p] + rest)[1..] == rest;
  }

  /** The list never holds more than six positions, and those are the latest footsteps
      in order. */
  lemma {:induction false} DustKeepsLatest(dust: seq<Vec3>, steps: seq<Vec3>)
    requires |dust| <= 6
    ensures |DustAfter(dust, steps)| <= 6
    ensures |dust| + |steps| <= 6 ==> |DustAfter(dust, steps)| == |dust| + |steps|
    ensures |dust| + |steps| >= 6 ==> |DustAfter(dust, steps)| == 6
    ensures IsSuffix(DustAfter(dust, steps), dust + steps)
    decreases |steps|
  {
    if steps == [] {
      assert dust + steps == dust;
    } else {
      var d1 := AddDust(dust, steps[0]);
      DustKeepsLatest(d1, steps[1..]);
      DustAfterCons(dust, steps[0], steps[1..]);
      assert [steps[0]] + steps[1..] == steps;
      AddDustSuffix(dust, steps[0], steps[1..]);
      SuffixTransitive(DustAfter(d1, steps[1..]), d1 + steps[1..], dust + steps);
    }
  }

  /** While the list and the new steps together fit in six, every step is kept. */
  lemma {:induction false} DustBelowCapKeepsAll(dust: seq<Vec3>, steps: seq<Vec3>)
    requires |dust| + |steps| <= 6
    ensures DustAfter(dust, steps) == dust + steps
    decreases |steps|
  {
    if steps == [] {
      assert dust + steps == dust;
    } else {
      assert AddDust(dust, steps[0]) == dust + [steps[0]];
      DustBelowCapKeepsAll(dust + [steps[0]], steps[1..]);
      assert dust + [steps[0]] + steps[1..] == dust + steps;
    }
  }

  /** From no dust, six footsteps leave all six entries: the list is capped at six, not five. */
  lemma DustReachesSix(a: Vec3, b: Vec3, c: Vec3, d: Vec3, e: Vec3, f: Vec3)
    ensures DustAfter([], [a, b, c, d, e, f]) == [a, b, c, d, e, f]
  {
    DustBelowCapKeepsAll([], [a, b, c, d, e, f]);
    assert [] + [a, b, c, d, e, f] == [a, b, c, d, e, f];
  }

  /** A footstep on a full list drops the oldest entry. */
  lemma SeventhStepDropsOldest(a: Vec3, b: Vec3, c: Vec3, d: Vec3, e: Vec3, f: Vec3, g: Vec3)
    ensures DustAfter([a, b, c, d, e, f], [g]) == [b, c, d, e, f, g]
  {
    DustAfterCons([a, b, c, d, e, f], g, []);
    assert AddDust([a, b, c, d, e, f], g) == [b, c, d, e, f, g];
  }

  /** The footstep times of a run of effect runs `(now, isMoving)`. */
  datatype StepCheck = StepCheck(now: real, isMoving: bool)

  function Footsteps(lastStep: real, checks: seq<StepCheck>): seq<real>
    decreases |checks|
  {
    if checks == [] then []
    else if FootstepDue(checks[0].isMoving, checks[0].now, lastStep) then
      [checks[0].now] + Footsteps(checks[0].now, checks[1..])
    else
      Footsteps(lastStep, checks[1..])
  }

  /** Each time in `ts` is more than 350 ms after the one before, the first after `last`. */
  predicate Spaced(last: real, ts: seq<real>)
    decreases |ts|
  {
    ts == [] || (ts[0] - last > StepInterval && Spaced(ts[0], ts[1..]))
  }

  /** Footsteps are never closer together than 350 ms. */
  lemma {:induction false} FootstepsAreSpaced(lastStep: real, checks: seq<StepCheck>)
    ensures Spaced(lastStep, Footsteps(lastStep, checks))
    decreases |checks|
  {
    if checks != [] {
      if FootstepDue(checks[0].isMoving, checks[0].now, lastStep) {
        FootstepsAreSpaced(checks[0].now, checks[1..]);
        assert ([checks[0].now] + Footsteps(checks[0].now, checks[1..]))[1..] == Footsteps(checks[0].now, checks[1..]);
      } else {
        FootstepsAreSpaced(lastStep, checks[1..]);
      }
    }
  }

  /** The avatar's mutable state: the group's yaw, the chosen heading, the pose, the dust
      list and the time of the last footstep. */
  class AvatarRig {
    var rotation: real
    var heading: Heading
    var pose: Pose
    var dust: seq<Vec3>
    var lastStep: real

    ghost predicate Valid()
      reads this
    {
      PoseInvariant(pose) && |dust| <= 6
    }

    constructor ()
      ensures rotation == 0.0 && heading == InitialHeading && pose == RestPose
      ensures dust == [] && lastStep == 0.0
      ensures Valid()
    {
      rotation, heading, pose := 0.0, InitialHeading, RestPose;
      dust, lastStep := [], 0.0;
    }

    /** The footstep effect at time `now`: a soft hit sound and a dust position. */
    method OnMoveEffect(isMoving: bool, position: Vec3, now: real, audio: AudioStore.Store) returns (stepped: bool)
      requires Valid()
      modifies this`dust, this`lastStep, audio`sounds
      ensures Valid()
      ensures stepped == FootstepDue(isMoving, now, old(lastStep))
      ensures stepped ==> dust == AddDust(old(dust), position) && lastStep == now
      ensures !stepped ==> dust == old(dust) && lastStep == old(lastStep)
      ensures audio.sounds ==
                if stepped && AudioStore.Hit in old(audio.sounds) && !audio.isMuted
                then old(audio.sounds)[AudioStore.Hit := AudioStore.Play(old(audio.sounds)[AudioStore.Hit].(volume := 0.1))]
                else old(audio.sounds)
    {
      stepped := FootstepDue(isMoving, now, lastStep);
      if stepped {
        var _ := audio.PlaySound(AudioStore.Hit, Some(0.1));
        dust := AddDust(dust, position);
        lastStep := now;
      }
    }

    /** The `useFrame` callback: choose the heading, turn a step towards it the short way
        round, and pose the body. `turn` is the wrapped difference the step used. */
    method OnFrame(isMoving: bool, moveDir: Vec3, cameraDir: Vec3, delta: real,
                   atan2: (real, real) -> real, sin: real -> real)
      returns (turn: real, ghost turns: int)
      requires Valid() && UnitBounded(sin)
      modifies this`rotation, this`heading, this`pose
      ensures Valid()
      ensures heading == SelectTarget(old(heading), isMoving, moveDir, cameraDir, atan2)
      ensures -Pi <= turn <= Pi && turn == heading.target - old(rotation) + (turns as real) * TwoPi
      ensures rotation == Turned(old(rotation), turn, delta)
      ensures pose == if isMoving then MovingPose(old(pose), delta, sin) else IdlePose(old(pose))
    {
      heading := SelectTarget(heading, isMoving, moveDir, cameraDir, atan2);
      turn, turns := ShortestTurn(heading.target - rotation);
      rotation := rotation + turn * 5.0 * delta;
      if isMoving {
        pose := MovingPose(pose, delta, sin);
      } else {
        pose := IdlePose(pose);
      }
    }
  }

  // ---------------------------------------------------------------------------
  // Dust puffs
  // ---------------------------------------------------------------------------

  /** One dust particle's animation record. */
  datatype Particle = Particle(position: Vec3, velocity: Vec3, age: real, maxAge: real)

  const DustCount: nat := 10
  const DrawsPerParticle: nat := 6

  /** A particle spawned at `origin` from six draws: x and z offset, the three velocity
      components, and the extra lifetime. */
  function Spawn(origin: Vec3, draws: seq<real>): (p: Particle)
    requires |draws| == DrawsPerParticle && AllDraws(draws)
    ensures p.age == 0.0 && 1.0 <= p.maxAge < 2.0
    ensures p.position.y == origin.y
    ensures -0.25 <= p.position.x - origin.x <= 0.25 && -0.25 <= p.position.z - origin.z <= 0.25
    ensures 0.0 <= p.velocity.y <= 0.08
    ensures -0.025 <= p.velocity.x <= 0.025 && -0.025 <= p.velocity.z <= 0.025
  {
    assert IsDraw(draws[0]) && IsDraw(draws[1]) && IsDraw(draws[2]);
    assert IsDraw(draws[3]) && IsDraw(draws[4]) && IsDraw(draws[5]);
    CentredDrawBounds(draws[0], 0.5);
    CentredDrawBounds(draws[1], 0.5);
    CentredDrawBounds(draws[2], 0.05);
    ScaledDrawBounds(draws[3], 0.08);
    CentredDrawBounds(draws[4], 0.05);
    var offsetX := (draws[0] - 0.5) * 0.5;
    var offsetZ := (draws[1] - 0.5) * 0.5;
    Particle(
      Vec3(origin.x + offsetX, origin.y, origin.z + offsetZ),
      Vec3((draws[2] - 0.5) * 0.05, draws[3] * 0.08, (draws[4] - 0.5) * 0.05),
      0.0,
      1.0 + draws[5])
  }

  predicate Alive(p: Particle) {
    p.age < p.maxAge
  }

  /** One frame for one particle: it ages by `delta`; while still alive it moves by its
      velocity and gravity slows its rise. */
  function ParticleStep(p: Particle, delta: real): (r: Particle)
    ensures r.age == p.age + delta && r.maxAge == p.maxAge
    ensures Alive(r) ==> r.position == p.position.Add(p.velocity)
    ensures Alive(r) ==> r.velocity == p.velocity.(y := p.velocity.y - 0.01 * delta)
    ensures !Alive(r) ==> r.position == p.position && r.velocity == p.velocity
  {
    var aged := p.(age := p.age + delta);
    if aged.age < aged.maxAge then
      aged.(position := p.position.Add(p.velocity), velocity := p.velocity.(y := p.velocity.y - 0.01 * delta))
    else
      aged
  }

  /** The material opacity after a frame: `max(0, (1 - age / maxAge) * 0.6)` while alive, 0 after. */
  function Opacity(p: Particle): (o: real)
    requires p.maxAge > 0.0 && p.age >= 0.0
    ensures 0.0 <= o <= 0.6
    ensures !Alive(p) ==> o == 0.0
    ensures p.age == 0.0 ==> o == 0.6
  {
    if Alive(p) then
      assert p.age / p.maxAge >= 0.0;
      Max(0.0, (1.0 - p.age / p.maxAge) * 0.6)
    else 0.0
  }

  /** Particles only fade: an older particle of the same lifetime is never more opaque. */
  lemma OpacityFades(p: Particle, olderAge: real)
    requires p.maxAge > 0.0 && 0.0 <= p.age <= olderAge
    ensures Opacity(p.(age := olderAge)) <= Opacity(p)
  {
    var q := p.(age := olderAge);
    if Alive(q) {
      assert p.age / p.maxAge <= olderAge / p.maxAge by {
        MulMonotone(1.0 / p.maxAge, p.age, olderAge);
        assert p.age / p.maxAge == (1.0 / p.maxAge) * p.age;
        assert olderAge / p.maxAge == (1.0 / p.maxAge) * olderAge;
      }
    }
  }

  lemma RatioBelowOne(a: real, m: real)
    requires 0.0 <= a < m
    ensures 0.0 <= a / m < 1.0
  {
    var q := a / m;
    assert q * m == a;
    if q >= 1.0 {
      MulMonotone(m, 1.0, q);
      assert false;
    }
  }

  /** The scale while alive: `1 + age / maxAge`, growing from 1 towards 2. */
  function DustScale(p: Particle): (s: real)
    requires p.maxAge > 0.0 && p.age >= 0.0
    ensures Alive(p) ==> 1.0 <= s < 2.0
  {
    if Alive(p) then
      RatioBelowOne(p.age, p.maxAge);
      1.0 + p.age / p.maxAge
    else 1.0 + p.age / p.maxAge
  }

  /** A puff never shrinks: an older one is at least as large. */
  lemma DustScaleGrows(p: Particle, olderAge: real)
    requires p.maxAge > 0.0 && 0.0 <= p.age <= olderAge
    ensures DustScale(p) <= DustScale(p.(age := olderAge))
  {
    assert p.age / p.maxAge <= olderAge / p.maxAge by {
      MulMonotone(1.0 / p.maxAge, p.age, olderAge);
      assert p.age / p.maxAge == (1.0 / p.maxAge) * p.age;
      assert olderAge / p.maxAge == (1.0 / p.maxAge) * olderAge;
    }
  }

  predicate ParticleValid(p: Particle) {
    p.age >= 0.0 && 1.0 <= p.maxAge < 2.0
  }

  /** One puff of ten particles, updated in place each frame. */
  class FootstepDust {
    const particles: array<Particle>

    ghost predicate Valid()
      reads this, particles
    {
      particles.Length == DustCount && forall i :: 0 <= i < particles.Length ==> ParticleValid(particles[i])
    }

    /** The effect that (re)creates the ten particles from sixty draws. */
    constructor (origin: Vec3, draws: seq<real>)
      requires |draws| == DustCount * DrawsPerParticle && AllDraws(draws)
      ensures fresh(particles) && Valid()
      ensures forall i :: 0 <= i < DustCount ==>
                particles[i] == Spawn(origin, draws[DrawsPerParticle * i..DrawsPerParticle * i + DrawsPerParticle])
    {
      var ps := new Particle[DustCount];
      var i := 0;
      while i < DustCount
        invariant 0 <= i <= DustCount
        invariant forall j :: 0 <= j < i ==>
                    ps[j] == Spawn(origin, draws[DrawsPerParticle * j..DrawsPerParticle * j + DrawsPerParticle])
      {
        var chunk := draws[DrawsPerParticle * i..DrawsPerParticle * i + DrawsPerParticle];
        assert AllDraws(chunk) by {
          forall k | 0 <= k < |chunk| ensures IsDraw(chunk[k]) {
            assert chunk[k] == draws[DrawsPerParticle * i + k];
          }
        }
        ps[i] := Spawn(origin, chunk);
        i := i + 1;
      }
      particles := ps;
    }

    /** The `useFrame` callback: every particle takes one step. */
    method OnFrame(delta: real)
      requires Valid() && delta >= 0.0
      modifies particles
      ensures Valid()
      ensures forall i :: 0 <= i < particles.Length ==> particles[i] == ParticleStep(old(particles[i]), delta)
    {
      var i := 0;
      while i < particles.Length
        invariant 0 <= i <= particles.Length
        invariant forall j :: 0 <= j < i ==> particles[j] == ParticleStep(old(particles[j]), delta)
        invariant forall j :: i <= j < particles.Length ==> particles[j] == old(particles[j])
      {
        particles[i] := ParticleStep(particles[i], delta);
        i := i + 1;
      }
    }
  }
}
