/**
  The particle cloud each diorama floats above itself: the particle records
  drawn at mount time (only a leading share of them active, by intensity),
  the flat position and opacity buffers built from them, the per-frame
  in-place update of those buffers, and the camera-distance fade of the
  material.
*/
module DataParticles {
  import opened Numeric

  // The component's default props.
  const DefaultCount: nat := 100
  const DefaultSpread: real := 2.0
  const DefaultSpeed: real := 0.2
  const DefaultIntensity: real := 0.5
  const DefaultFadeDistance: real := 15.0

  /** Opacity of the material while the camera is within this distance. */
  const FadeStart: real := 5.0
  /** The height a particle that rose past the top starts again from. */
  const ResetHeight: real := -0.1

  datatype Particle = Particle(x: real, y: real, z: real, vx: real, vy: real, vz: real, isActive: bool)

  datatype Point = Point(x: real, y: real, z: real)

  /** `i < count * intensity`: the rule that decides which particles are shown. */
  predicate IsActiveIndex(i: nat, count: nat, intensity: real) {
    (i as real) < (count as real) * intensity
  }

  /** Every particle of `ps` is active exactly when its index passes the rule. */
  predicate ActivityPattern(ps: seq<Particle>, count: nat, intensity: real) {
    forall i :: 0 <= i < |ps| ==> (ps[i].isActive <==> IsActiveIndex(i, count, intensity))
  }

  /** The active particles are a prefix of the list. */
  lemma ActiveFormsPrefix(ps: seq<Particle>, count: nat, intensity: real, i: nat, j: nat)
    requires ActivityPattern(ps, count, intensity) && i <= j < |ps|
    ensures ps[j].isActive ==> ps[i].isActive
  {
  }

  /** At intensity 1 or more every particle is active; at 0 or less none is. */
  lemma IntensityExtremes(ps: seq<Particle>, count: nat, intensity: real)
    requires ActivityPattern(ps, count, intensity) && |ps| == count
    ensures intensity >= 1.0 ==> forall i :: 0 <= i < |ps| ==> ps[i].isActive
    ensures intensity <= 0.0 ==> forall i :: 0 <= i < |ps| ==> !ps[i].isActive
  {
    if intensity >= 1.0 {
      MulMonotone(count as real, 1.0, intensity);
    }
    if intensity <= 0.0 {
      MulMonotone(count as real, intensity, 0.0);
    }
  }

  /** Particle `i` drawn from the six draws `draws[6i .. 6i+6]` (x, y, z, vx, vy, vz). */
  function Spawn(i: nat, count: nat, spread: real, intensity: real, draws: seq<real>): (p: Particle)
    requires i < count && |draws| == 6 * count && AllDraws(draws) && spread > 0.0
    ensures -spread / 2.0 <= p.x < spread / 2.0 && -spread / 2.0 <= p.z < spread / 2.0
    ensures 0.0 <= p.y < spread / 2.0
    ensures -0.005 <= p.vx < 0.005 && -0.005 <= p.vz < 0.005 && 0.0 <= p.vy < 0.02
    ensures p.isActive <==> IsActiveIndex(i, count, intensity)
  {
    var b := 6 * i;
    assert IsDraw(draws[b]) && IsDraw(draws[b + 1]) && IsDraw(draws[b + 2]);
    assert IsDraw(draws[b + 3]) && IsDraw(draws[b + 4]) && IsDraw(draws[b + 5]);
    Particle(Centred(draws[b], spread), Scaled(draws[b + 1], spread) / 2.0, Centred(draws[b + 2], spread),
             Centred(draws[b + 3], 0.01), Scaled(draws[b + 4], 0.02), Centred(draws[b + 5], 0.01),
             IsActiveIndex(i, count, intensity))
  }

  /** `(Math.random() - 0.5) * width`. */
  function Centred(r: real, width: real): (v: real)
    requires IsDraw(r) && width > 0.0
    ensures -width / 2.0 <= v < width / 2.0
  {
    CentredDrawBounds(r, width);
    (r - 0.5) * width
  }

  /** `Math.random() * width`. */
  function Scaled(r: real, width: real): (v: real)
    requires IsDraw(r) && width > 0.0
    ensures 0.0 <= v < width
  {
    ScaledDrawBounds(r, width);
    r * width
  }

  /** The `useMemo` loop that pushes `count` particle records. */
  method Generate(count: nat, spread: real, intensity: real, draws: seq<real>) returns (ps: seq<Particle>)
    requires |draws| == 6 * count && AllDraws(draws) && spread > 0.0
    ensures |ps| == count
    ensures forall i :: 0 <= i < count ==> ps[i] == Spawn(i, count, spread, intensity, draws)
    ensures ActivityPattern(ps, count, intensity)
  {
    ps := [];
    var i := 0;
    while i < count
      invariant 0 <= i <= count && |ps| == i
      invariant forall k :: 0 <= k < i ==> ps[k] == Spawn(k, count, spread, intensity, draws)
    {
      ps := ps + [Spawn(i, count, spread, intensity, draws)];
      i := i + 1;
    }
  }

  function Location(p: Particle): Point {
    Point(p.x, p.y, p.z)
  }

  /** Particle `i`'s three entries of a flat `x, y, z, ...` buffer. */
  function PointAt(ps: seq<real>, i: nat): Point
    requires 3 * i + 2 < |ps|
  {
    Point(ps[3 * i], ps[3 * i + 1], ps[3 * i + 2])
  }

  /** The opacity an active particle starts with: `random * 0.5 + 0.5`; 0 when inactive. */
  function InitialOpacity(p: Particle, r: real): (o: real)
    requires IsDraw(r)
    ensures !p.isActive ==> o == 0.0
    ensures p.isActive ==> 0.5 <= o < 1.0
  {
    if p.isActive then r * 0.5 + 0.5 else 0.0
  }

  /** The geometry `useMemo`: copy every particle into the position buffer and give it
      its starting opacity. `draws[i]` is the draw taken for particle `i`. */
  method BuildGeometry(ps: seq<Particle>, draws: seq<real>) returns (positions: array<real>, opacities: array<real>)
    requires |draws| == |ps| && AllDraws(draws)
    ensures fresh(positions) && fresh(opacities) && positions != opacities
    ensures positions.Length == 3 * |ps| && opacities.Length == |ps|
    ensures forall i :: 0 <= i < |ps| ==> PointAt(positions[..], i) == Location(ps[i])
    ensures forall i :: 0 <= i < |ps| ==> opacities[i] == InitialOpacity(ps[i], draws[i])
  {
    positions := new real[3 * |ps|];
    opacities := new real[|ps|];
    var i := 0;
    while i < |ps|
      invariant 0 <= i <= |ps|
      invariant forall k :: 0 <= k < i ==> PointAt(positions[..], k) == Location(ps[k])
      invariant forall k :: 0 <= k < i ==> opacities[k] == InitialOpacity(ps[k], draws[k])
    {
      positions[3 * i] := ps[i].x;
      positions[3 * i + 1] := ps[i].y;
      positions[3 * i + 2] := ps[i].z;
      assert IsDraw(draws[i]);
      opacities[i] := if ps[i].isActive then draws[i] * 0.5 + 0.5 else 0.0;
      i := i + 1;
    }
  }

  /** What particle `i` is given in one frame: `sway = sin(time + i)`,
      `drift = cos(time + i * 0.5)`, `pulse = sin(time * 2 + i)`, and the two draws
      `rx`, `rz` used if it is reset. */
  datatype Wave = Wave(sway: real, drift: real, pulse: real, rx: real, rz: real)

  predicate WaveBounded(w: Wave) {
    -1.0 <= w.sway <= 1.0 && -1.0 <= w.drift <= 1.0 && -1.0 <= w.pulse <= 1.0 && IsDraw(w.rx) && IsDraw(w.rz)
  }

  /** One particle's position after one frame. An inactive particle stays where it is.
      An active one moves by its velocity times `speed` plus a small sway; once it has
      risen above `spread` it restarts at height -0.1 above a fresh random point. */
  function Moved(p: Particle, at: Point, w: Wave, speed: real, spread: real): (r: Point)
    ensures !p.isActive ==> r == at
    ensures p.isActive ==> (r.y == at.y + p.vy * speed || r.y == ResetHeight)
    ensures p.isActive && at.y + p.vy * speed <= spread ==>
              r == Point(at.x + p.vx * speed + w.sway * 0.005 * speed, at.y + p.vy * speed,
                         at.z + p.vz * speed + w.drift * 0.005 * speed)
    ensures p.isActive && spread >= ResetHeight ==> r.y <= spread
    ensures p.isActive && at.y + p.vy * speed > spread && WaveBounded(w) && spread >= 0.0 ==>
              r.y == ResetHeight && -spread / 2.0 <= r.x <= spread / 2.0 && -spread / 2.0 <= r.z <= spread / 2.0
  {
    if !p.isActive then at
    else
      var y := at.y + p.vy * speed;
      if y > spread then
        if WaveBounded(w) && spread >= 0.0 then
          CentredDrawBounds(w.rx, spread);
          CentredDrawBounds(w.rz, spread);
          Point((w.rx - 0.5) * spread, ResetHeight, (w.rz - 0.5) * spread)
        else
          Point((w.rx - 0.5) * spread, ResetHeight, (w.rz - 0.5) * spread)
      else
        Point(at.x + p.vx * speed + w.sway * 0.005 * speed, y, at.z + p.vz * speed + w.drift * 0.005 * speed)
  }

  /** One particle's opacity after one frame: a pulse between 0.5 and 1 when active,
      0 when not. */
  function PulseOpacity(p: Particle, pulse: real): (o: real)
    ensures !p.isActive ==> o == 0.0
    ensures p.isActive && -1.0 <= pulse <= 1.0 ==> 0.5 <= o <= 1.0
    ensures p.isActive && pulse == 1.0 ==> o == 1.0
  {
    if p.isActive then (pulse * 0.25 + 0.75) * 1.0 else 0.0
  }

  /** `max(0, 1 - max(0, d - 5) / fadeDistance)`: full strength up to distance 5, then a
      linear fade that reaches 0 at `5 + fadeDistance`. */
  function FadeFactor(distance: real, fadeDistance: real): (f: real)
    requires fadeDistance > 0.0
    ensures 0.0 <= f <= 1.0
    ensures distance <= FadeStart ==> f == 1.0
    ensures distance >= FadeStart + fadeDistance ==> f == 0.0
    ensures FadeStart <= distance <= FadeStart + fadeDistance ==> f == 1.0 - (distance - FadeStart) / fadeDistance
  {
    var over := Max(0.0, distance - FadeStart);
    DivideByPositive(over, fadeDistance);
    Max(0.0, 1.0 - over / fadeDistance)
  }

  /** Dividing by a positive number keeps the comparisons with it. */
  lemma DivideByPositive(a: real, b: real)
    requires b > 0.0
    ensures a >= b ==> a / b >= 1.0
    ensures a <= b ==> a / b <= 1.0
  {
    assert a / b * b == a;
    if a >= b && a / b < 1.0 {
      assert false;
    }
    if a <= b && a / b > 1.0 {
      assert false;
    }
  }

  /** Moving the camera away never makes the particles more opaque. */
  lemma FadeMonotone(d1: real, d2: real, fadeDistance: real)
    requires fadeDistance > 0.0 && d1 <= d2
    ensures FadeFactor(d2, fadeDistance) <= FadeFactor(d1, fadeDistance)
  {
    var o1, o2 := Max(0.0, d1 - FadeStart), Max(0.0, d2 - FadeStart);
    assert o1 <= o2;
    DivideMonotone(o1, o2, fadeDistance);
  }

  lemma DivideMonotone(a: real, b: real, c: real)
    requires c > 0.0 && a <= b
    ensures a / c <= b / c
  {
    assert (b - a) / c == b / c - a / c;
    assert (b - a) / c * c == b - a;
    if (b - a) / c < 0.0 {
      assert false;
    }
  }

  /** The component's refs and buffers. */
  class ParticleCloud {
    const count: nat
    const spread: real
    const speed: real
    const intensity: real
    const fadeDistance: real
    const particles: seq<Particle>
    const positions: array<real>
    const opacities: array<real>
    var materialOpacity: real

    ghost predicate Valid()
      reads this
    {
      |particles| == count && positions.Length == 3 * count && opacities.Length == count
      && positions != opacities && spread > 0.0 && fadeDistance > 0.0
      && ActivityPattern(particles, count, intensity)
    }

    /** Mounting: `particleDraws` are the six draws per particle, `opacityDraws` one per
        particle for its starting opacity. The material starts at three.js's opacity 1. */
    constructor (count: nat, spread: real, speed: real, intensity: real, fadeDistance: real,
                 particleDraws: seq<real>, opacityDraws: seq<real>)
      requires spread > 0.0 && fadeDistance > 0.0
      requires |particleDraws| == 6 * count && AllDraws(particleDraws)
      requires |opacityDraws| == count && AllDraws(opacityDraws)
      ensures Valid() && fresh(positions) && fresh(opacities)
      ensures this.count == count && this.spread == spread && this.speed == speed
      ensures this.intensity == intensity && this.fadeDistance == fadeDistance
      ensures forall i :: 0 <= i < count ==> particles[i] == Spawn(i, count, spread, intensity, particleDraws)
      ensures forall i :: 0 <= i < count ==> PointAt(positions[..], i) == Location(particles[i])
      ensures forall i :: 0 <= i < count ==> opacities[i] == InitialOpacity(particles[i], opacityDraws[i])
      ensures materialOpacity == 1.0
    {
      this.count, this.spread, this.speed := count, spread, speed;
      this.intensity, this.fadeDistance := intensity, fadeDistance;
      var ps := Generate(count, spread, intensity, particleDraws);
      var pos, ops := BuildGeometry(ps, opacityDraws);
      particles, positions, opacities := ps, pos, ops;
      materialOpacity := 1.0;
    }

    /** The `useFrame` callback: move every active particle in place, set every opacity,
        and fade the material by the camera's `distance`. */
    method OnFrame(waves: seq<Wave>, distance: real)
      requires Valid() && |waves| == count
      modifies positions, opacities, this`materialOpacity
      ensures Valid()
      ensures forall i :: 0 <= i < count ==>
                PointAt(positions[..], i) == Moved(particles[i], PointAt(old(positions[..]), i), waves[i], speed, spread)
      ensures forall i :: 0 <= i < count ==> opacities[i] == PulseOpacity(particles[i], waves[i].pulse)
      ensures materialOpacity == FadeFactor(distance, fadeDistance) * 0.8
      ensures 0.0 <= materialOpacity <= 0.8
    {
      ghost var before := positions[..];
      var i := 0;
      while i < count
        invariant 0 <= i <= count
        invariant forall k :: 0 <= k < i ==>
                    PointAt(positions[..], k) == Moved(particles[k], PointAt(before, k), waves[k], speed, spread)
        invariant forall j :: 3 * i <= j < positions.Length ==> positions[j] == before[j]
        invariant forall k :: 0 <= k < i ==> opacities[k] == PulseOpacity(particles[k], waves[k].pulse)
      {
        var p := particles[i];
        if p.isActive {
          MoveActive(positions, i, p, waves[i], speed, spread);
          opacities[i] := (waves[i].pulse * 0.25 + 0.75) * (if p.isActive then 1.0 else 0.0);
        } else {
          opacities[i] := 0.0;
        }
        assert PointAt(positions[..], i) == Moved(p, PointAt(before, i), waves[i], speed, spread);
        i := i + 1;
      }
      var fade := FadeFactor(distance, fadeDistance);
      materialOpacity := fade * 0.8;
    }
  }

  /** The active branch of the frame loop for particle `i`, on its three entries only.
      The entries are read into locals, updated in the source's order and written back. */
  method MoveActive(positions: array<real>, i: nat, p: Particle, w: Wave, speed: real, spread: real)
    requires 3 * i + 2 < positions.Length && p.isActive
    modifies positions
    ensures PointAt(positions[..], i) == Moved(p, PointAt(old(positions[..]), i), w, speed, spread)
    ensures forall j :: 0 <= j < positions.Length && j != 3 * i && j != 3 * i + 1 && j != 3 * i + 2 ==>
              positions[j] == old(positions[j])
  {
    var idx := 3 * i;
    var x, y, z := positions[idx], positions[idx + 1], positions[idx + 2];
    x, y, z := x + p.vx * speed, y + p.vy * speed, z + p.vz * speed;
    x, z := x + w.sway * 0.005 * speed, z + w.drift * 0.005 * speed;
    if y > spread {
      y := ResetHeight;
      x := (w.rx - 0.5) * spread;
      z := (w.rz - 0.5) * spread;
    }
    positions[idx], positions[idx + 1], positions[idx + 2] := x, y, z;
  }

  /** After a frame with bounded waves, every active particle is at most `spread` high,
      and a particle that was reset sits at -0.1 inside the box's x/z square. Inactive
      particles keep their place. */
  lemma FrameBounds(ps: seq<Particle>, before: seq<real>, after: seq<real>, waves: seq<Wave>, speed: real, spread: real)
    requires |before| == 3 * |ps| && |after| == |before| && |waves| == |ps| && spread >= 0.0
    requires forall i :: 0 <= i < |ps| ==>
               PointAt(after, i) == Moved(ps[i], PointAt(before, i), waves[i], speed, spread)
    ensures forall i :: 0 <= i < |ps| && ps[i].isActive ==> after[3 * i + 1] <= spread
    ensures forall i :: 0 <= i < |ps| && !ps[i].isActive ==> PointAt(after, i) == PointAt(before, i)
    ensures forall i :: 0 <= i < |ps| && ps[i].isActive && WaveBounded(waves[i])
                        && before[3 * i + 1] + ps[i].vy * speed > spread ==>
              after[3 * i + 1] == ResetHeight && -spread / 2.0 <= after[3 * i] <= spread / 2.0
  {
    forall i | 0 <= i < |ps|
      ensures ps[i].isActive ==> after[3 * i + 1] <= spread
      ensures !ps[i].isActive ==> PointAt(after, i) == PointAt(before, i)
      ensures ps[i].isActive && WaveBounded(waves[i]) && before[3 * i + 1] + ps[i].vy * speed > spread ==>
                after[3 * i + 1] == ResetHeight && -spread / 2.0 <= after[3 * i] <= spread / 2.0
    {
      var r := Moved(ps[i], PointAt(before, i), waves[i], speed, spread);
      assert PointAt(after, i) == r;
    }
  }

  /** After a frame with bounded pulses every active opacity is in [0.5, 1] and every
      inactive one is 0. */
  lemma FrameOpacities(ps: seq<Particle>, opacities: seq<real>, waves: seq<Wave>)
    requires |opacities| == |ps| && |waves| == |ps|
    requires forall i :: 0 <= i < |ps| ==> opacities[i] == PulseOpacity(ps[i], waves[i].pulse)
    requires forall i :: 0 <= i < |ps| ==> WaveBounded(waves[i])
    ensures forall i :: 0 <= i < |ps| ==> (ps[i].isActive ==> 0.5 <= opacities[i] <= 1.0)
    ensures forall i :: 0 <= i < |ps| ==> (!ps[i].isActive ==> opacities[i] == 0.0)
  {
  }
}
