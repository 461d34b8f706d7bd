/**
  The crypto trends diorama: the average change of the tracked coins, the
  trend direction and the "magic intensity" derived from it, the colour, the
  most volatile coin, the sound played on entry, crystal sizes, and the
  per-frame rotations and spiral particle buffer, written in place.
*/
module CryptoTrendsDiorama {
  import opened Numeric
  import opened DataModel
  import AudioStore

  // ---------------------------------------------------------------------------
  // Average, trend and intensity
  // ---------------------------------------------------------------------------

  /** A coin's change with a missing value read as 0. */
  function Change(c: CryptoData): real {
    OrZero(c.percentChange)
  }

  /** `list.reduce((sum, c) => sum + (c.percentChange || 0), 0)`, folded from the left. */
  function SumChanges(list: seq<CryptoData>): real
    decreases |list|
  {
    if list == [] then 0.0 else SumChanges(list[..|list| - 1]) + Change(list[|list| - 1])
  }

  /** The average change. */
  function Average(list: seq<CryptoData>): (avg: real)
    requires |list| > 0
    ensures avg * (|list| as real) == SumChanges(list)
  {
    SumChanges(list) / (|list| as real)
  }

  /** Every change lies in `[lo, hi]`. */
  predicate ChangesWithin(list: seq<CryptoData>, lo: real, hi: real) {
    forall i :: 0 <= i < |list| ==> lo <= Change(list[i]) <= hi
  }

  lemma {:induction false} SumWithin(list: seq<CryptoData>, lo: real, hi: real)
    requires ChangesWithin(list, lo, hi)
    ensures (|list| as real) * lo <= SumChanges(list) <= (|list| as real) * hi
    decreases |list|
  {
    if list != [] {
      var init := list[..|list| - 1];
      assert ChangesWithin(init, lo, hi) by {
        forall i | 0 <= i < |init| ensures lo <= Change(init[i]) <= hi {
          assert init[i] == list[i];
        }
      }
      SumWithin(init, lo, hi);
      assert (|list| as real) * lo == (|init| as real) * lo + lo;
      assert (|list| as real) * hi == (|init| as real) * hi + hi;
    }
  }

  /** The average lies between the smallest and the largest change. */
  lemma AverageWithin(list: seq<CryptoData>, lo: real, hi: real)
    requires |list| > 0 && ChangesWithin(list, lo, hi)
    ensures lo <= Average(list)
    ensures Average(list) <= hi
  {
    SumWithin(list, lo, hi);
    var n, avg := |list| as real, Average(list);
    assert n * avg == SumChanges(list);
    if avg < lo {
      MulStrict(n, avg, lo);
      assert false;
    }
    if avg > hi {
      MulStrict(n, hi, avg);
      assert false;
    }
  }

  lemma MulStrict(k: real, a: real, b: real)
    requires k > 0.0 && a < b
    ensures k * a < k * b
  {
    MulPositive(k, b - a);
    assert k * b - k * a == k * (b - a);
  }

  lemma MulPositive(a: real, b: real)
    requires a > 0.0 && b > 0.0
    ensures a * b > 0.0
  {
  }

  /** `trendDirection`: the sign of the average. */
  function Trend(avg: real): (t: int)
    ensures t == 1 <==> avg > 0.0
    ensures t == -1 <==> avg < 0.0
    ensures t == 0 <==> avg == 0.0
  {
    if avg > 0.0 then 1 else if avg < 0.0 then -1 else 0
  }

  /** `magicIntensity`: the average clamped to [-20, 20] and mapped onto [0, 1]. */
  function Intensity(avg: real): (i: real)
    ensures 0.0 <= i <= 1.0
    ensures avg <= -20.0 ==> i == 0.0
    ensures avg >= 20.0 ==> i == 1.0
    ensures -20.0 <= avg <= 20.0 ==> i * 40.0 == avg + 20.0
    ensures i > 0.5 <==> avg > 0.0
  {
    (Clamp(avg, -20.0, 20.0) + 20.0) / 40.0
  }

  /** A better average never lowers the intensity. */
  lemma IntensityMonotone(a: real, b: real)
    requires a <= b
    ensures Intensity(a) <= Intensity(b)
  {
    ClampMonotone(a, b, -20.0, 20.0);
  }

  /** The magic colour: an initial hex value, later an HSL triple. */
  datatype Colour = Hex(rgb: int) | Hsl(h: real, s: real, l: real)

  /** Blue-purple on a rise, red-purple otherwise, lighter with higher intensity. */
  function MagicColour(avg: real, intensity: real): (c: Colour)
    ensures c.Hsl? && c.s == 0.8
    ensures avg > 0.0 ==> c.h == 0.7 && c.l == 0.5 + intensity * 0.3
    ensures avg <= 0.0 ==> c.h == 0.9 && c.l == 0.3 + intensity * 0.3
  {
    if avg > 0.0 then Hsl(0.7, 0.8, 0.5 + intensity * 0.3) else Hsl(0.9, 0.8, 0.3 + intensity * 0.3)
  }

  /** With the intensity the average gives, a rising market is always drawn lighter
      (above 0.65) than a flat or falling one (at most 0.45). */
  lemma RisingIsLighter(avg: real)
    ensures avg > 0.0 ==> 0.65 < MagicColour(avg, Intensity(avg)).l <= 0.8
    ensures avg <= 0.0 ==> 0.3 <= MagicColour(avg, Intensity(avg)).l <= 0.45
  {
  }

  /** The refs the data effect writes. */
  datatype Visual = Visual(trendDirection: int, magicIntensity: real, colour: Colour)

  /** `useRef(0)`, `0x7755ff` and `useRef(0)`. */
  const InitialVisual: Visual := Visual(0, 0.0, Hex(0x7755ff))

  /** The data effect: a missing or empty list changes nothing. */
  function ApplyData(v: Visual, data: Option<seq<CryptoData>>): (r: Visual)
    ensures data.None? || data.value == [] ==> r == v
    ensures data.Some? && data.value != [] ==>
              var avg := Average(data.value);
              r == Visual(Trend(avg), Intensity(avg), MagicColour(avg, Intensity(avg)))
  {
    if data.None? || data.value == [] then v
    else
      var avg := Average(data.value);
      Visual(Trend(avg), Intensity(avg), MagicColour(avg, Intensity(avg)))
  }

  /** The fallback list averages 0.46: an upward trend at intensity 0.5115. */
  lemma ScenarioFallbackList()
    ensures var list := [
              CryptoData("BTC", Some(42000.0), Some(1.2)),
              CryptoData("ETH", Some(2300.0), Some(-0.5)),
              CryptoData("SOL", Some(105.0), Some(3.1)),
              CryptoData("DOGE", Some(0.12), Some(-2.3)),
              CryptoData("ADA", Some(0.45), Some(0.8))];
            && Average(list) == 0.46
            && ApplyData(InitialVisual, Some(list)) == Visual(1, 0.5115, Hsl(0.7, 0.8, 0.65345))
  {
    var list := [
      CryptoData("BTC", Some(42000.0), Some(1.2)),
      CryptoData("ETH", Some(2300.0), Some(-0.5)),
      CryptoData("SOL", Some(105.0), Some(3.1)),
      CryptoData("DOGE", Some(0.12), Some(-2.3)),
      CryptoData("ADA", Some(0.45), Some(0.8))];
    assert list[..1][..0] == [];
    assert SumChanges(list[..1]) == 1.2;
    assert list[..2][..1] == list[..1];
    assert SumChanges(list[..2]) == 0.7;
    assert list[..3][..2] == list[..2] && list[..3][2] == list[2];
    assert SumChanges(list[..3]) == 3.8;
    assert list[..4][..3] == list[..3] && list[..4][3] == list[3];
    assert SumChanges(list[..4]) == 1.5;
    assert list[..4] == list[..|list| - 1];
    assert SumChanges(list) == 2.3;
  }

  // ---------------------------------------------------------------------------
  // The most volatile coin
  // ---------------------------------------------------------------------------

  function Magnitude(c: CryptoData): real {
    Abs(Change(c))
  }

  /** The index the reduce holds after visiting the first `n` coins, starting from coin 0
      and switching only to a strictly larger magnitude. */
  function VolatileAfter(list: seq<CryptoData>, n: nat): nat
    requires |list| > 0 && n <= |list|
    decreases n
  {
    if n == 0 then 0
    else
      var prev := VolatileAfter(list, n - 1);
      if prev < |list| && Magnitude(list[n - 1]) > Magnitude(list[prev]) then n - 1 else prev
  }

  /** The held index has the largest magnitude seen so far, and every earlier coin is
      strictly smaller: it is the first coin of maximal magnitude. */
  lemma {:induction false} VolatileAfterIsEarliestMax(list: seq<CryptoData>, n: nat)
    requires |list| > 0 && n <= |list|
    ensures var k := VolatileAfter(list, n);
            && k < |list| && (n > 0 ==> k < n)
            && (forall j :: 0 <= j < n ==> Magnitude(list[j]) <= Magnitude(list[k]))
            && (forall j :: 0 <= j < k ==> Magnitude(list[j]) < Magnitude(list[k]))
    decreases n
  {
    if n > 0 {
      VolatileAfterIsEarliestMax(list, n - 1);
    }
  }

  /** `mostVolatile`: null for a missing or empty list, else the earliest coin of
      largest `|percentChange|`. */
  function MostVolatile(data: Option<seq<CryptoData>>): (m: Option<nat>)
    ensures m.None? <==> data.None? || data.value == []
    ensures m.Some? ==> m.value < |data.value|
    ensures m.Some? ==> forall j :: 0 <= j < |data.value| ==> Magnitude(data.value[j]) <= Magnitude(data.value[m.value])
    ensures m.Some? ==> forall j :: 0 <= j < m.value ==> Magnitude(data.value[j]) < Magnitude(data.value[m.value])
  {
    if data.None? || data.value == [] then None
    else
      VolatileAfterIsEarliestMax(data.value, |data.value|);
      Some(VolatileAfter(data.value, |data.value|))
  }

  /** Particle size grows with the most volatile change: `0.05 + |pc| / 100`. */
  function ParticleSize(data: Option<seq<CryptoData>>): (s: real)
    ensures s >= 0.05
    ensures MostVolatile(data).None? ==> s == 0.05
  {
    var m := MostVolatile(data);
    0.05 + (if m.Some? then Magnitude(data.value[m.value]) / 100.0 else 0.0)
  }

  // ---------------------------------------------------------------------------
  // Sound, crystals and rotations
  // ---------------------------------------------------------------------------

  /** The `onEnter` volume: `min(1.5 i, 1)` on an upward trend, `min(i, 0.7)` otherwise. */
  function EnterVolume(v: Visual): (vol: real)
    ensures v.trendDirection > 0 ==> vol == Min(v.magicIntensity * 1.5, 1.0)
    ensures v.trendDirection <= 0 ==> vol == Min(v.magicIntensity, 0.7)
    ensures 0.0 <= v.magicIntensity ==> 0.0 <= vol <= 1.0
  {
    if v.trendDirection > 0 then Min(v.magicIntensity * 1.5, 1.0) else Min(v.magicIntensity, 0.7)
  }

  /** After a list arrives, a rising market sounds at more than 0.75 and a flat or falling
      one at exactly its intensity, at most 0.5. Before any list, the volume is 0. */
  lemma EnterVolumeByTrend(v: Visual, list: seq<CryptoData>)
    requires list != []
    ensures var r := ApplyData(v, Some(list));
            && (r.trendDirection > 0 ==> 0.75 < EnterVolume(r) <= 1.0)
            && (r.trendDirection <= 0 ==> EnterVolume(r) == r.magicIntensity <= 0.5)
    ensures EnterVolume(InitialVisual) == 0.0
  {
  }

  /** Crystal size: `clamp(price / 30000, 0.5, 1.5)` for a truthy price, else 1. */
  function PriceScale(c: CryptoData): (s: real)
    ensures Truthy(c.price) ==> 0.5 <= s <= 1.5
    ensures Truthy(c.price) && 15000.0 <= c.price.value <= 45000.0 ==> s == c.price.value / 30000.0
    ensures !Truthy(c.price) ==> s == 1.0
  {
    if Truthy(c.price) then Clamp(c.price.value / 30000.0, 0.5, 1.5) else 1.0
  }

  /** Crystal glow `0.3 + 0.7 i`, plus 0.3 while the player is near. */
  function CrystalGlow(intensity: real, isNear: bool): (g: real)
    ensures 0.0 <= intensity <= 1.0 ==> 0.3 <= g <= 1.3
    ensures isNear ==> g == 0.6 + intensity * 0.7
  {
    0.3 + intensity * 0.7 + (if isNear then 0.3 else 0.0)
  }

  /** Coming near lifts the crystal glow by exactly 0.3, whatever the intensity. */
  lemma NearnessRaisesGlow(intensity: real)
    ensures CrystalGlow(intensity, true) == CrystalGlow(intensity, false) + 0.3
    ensures 0.0 <= intensity <= 1.0 ==> 0.3 <= CrystalGlow(intensity, false) <= 1.0
  {
  }

  /** The particle speed handed to the diorama's particles: `0.3 * (i || 0.5)`. For
      every intensity the effect can produce it is positive and at most 0.3, so the
      particles always move, never faster than at full intensity. */
  function ParticleSpeed(intensity: real): (v: real)
    ensures intensity == 0.0 ==> v == 0.15
    ensures intensity != 0.0 ==> v == 0.3 * intensity
    ensures 0.0 <= intensity <= 1.0 ==> 0.0 < v <= 0.3
  {
    0.3 * (if intensity == 0.0 then 0.5 else intensity)
  }

  // ---------------------------------------------------------------------------
  // The spiral particle buffer
  // ---------------------------------------------------------------------------

  /** Where spiral particle `index` sits at clock time `t`. */
  function SpiralPoint(index: nat, t: real, intensity: real, cos: real -> real, sin: real -> real): Vec3 {
    var angle := t * 0.5 + (index as real) * 0.01;
    var radius := 0.5 + (index as real) * 0.01;
    var height := ((index % 20) as real) / 20.0 * 3.0;
    Vec3(cos(angle) * radius, height - 1.5 + sin(t + index as real) * 0.1 * (1.0 + intensity), sin(angle) * radius)
  }

  /** Each particle's height stays within 0.1 (1 + i) of its layer, and the layers lie
      between -1.5 and 1.35. */
  lemma SpiralHeightBounds(index: nat, t: real, intensity: real, cos: real -> real, sin: real -> real)
    requires UnitBounded(sin) && intensity >= 0.0
    ensures var y := SpiralPoint(index, t, intensity, cos, sin).y;
            -1.5 - 0.1 * (1.0 + intensity) <= y <= 1.35 + 0.1 * (1.0 + intensity)
  {
    var s := sin(t + index as real);
    var k := 0.1 * (1.0 + intensity);
    UnitProductBound(s, k);
    assert s * 0.1 * (1.0 + intensity) == s * k;
    var h := ((index % 20) as real) / 20.0 * 3.0;
    assert 0.0 <= h <= 2.85;
    assert SpiralPoint(index, t, intensity, cos, sin).y == h - 1.5 + s * k;
  }

  /** The spiral loop of one frame, in place. */
  method SpiralFrame(positions: array<real>, t: real, intensity: real, cos: real -> real, sin: real -> real)
    requires positions.Length % 3 == 0
    modifies positions
    ensures forall j :: 0 <= j < positions.Length && j % 3 == 0 ==>
              Vec3(positions[j], positions[j + 1], positions[j + 2]) == SpiralPoint(j / 3, t, intensity, cos, sin)
  {
    var i := 0;
    while i < positions.Length
      invariant 0 <= i <= positions.Length && i % 3 == 0
      invariant forall j :: 0 <= j < i && j % 3 == 0 ==>
                  Vec3(positions[j], positions[j + 1], positions[j + 2]) == SpiralPoint(j / 3, t, intensity, cos, sin)
    {
      var p := SpiralPoint(i / 3, t, intensity, cos, sin);
      positions[i] := p.x;
      positions[i + 1] := p.y;
      positions[i + 2] := p.z;
      i := i + 3;
    }
  }

  // ---------------------------------------------------------------------------
  // The scene
  // ---------------------------------------------------------------------------

  const SpiralParticles: nat := 100

  class CryptoScene {
    const anchorY: real
    const spiral: array<real>
    var data: Option<seq<CryptoData>>
    var visual: Visual
    var groupRotation: real
    var runeRotation: real
    var groupY: real
    var showTooltip: bool

    /** The scene is mounted (its refs are set) only for a non-empty list. */
    predicate Mounted()
      reads this
    {
      data.Some? && data.value != []
    }

    ghost predicate Valid()
      reads this
    {
      spiral.Length == 3 * SpiralParticles && 0.0 <= visual.magicIntensity <= 1.0
    }

    constructor (anchorY: real)
      ensures this.anchorY == anchorY && data == None && visual == InitialVisual
      ensures groupRotation == 0.0 && runeRotation == 0.0 && groupY == anchorY && !showTooltip
      ensures fresh(spiral) && Valid()
    {
      this.anchorY := anchorY;
      spiral := new real[3 * SpiralParticles];
      data, visual := None, InitialVisual;
      groupRotation, runeRotation, groupY := 0.0, 0.0, anchorY;
      showTooltip := false;
    }

    /** A new list from the store, and the effect that follows it. */
    method OnData(d: Option<seq<CryptoData>>)
      requires Valid()
      modifies this`data, this`visual
      ensures data == d && visual == ApplyData(old(visual), d)
      ensures Valid()
    {
      data := d;
      visual := ApplyData(visual, d);
    }

    /** The `onEnter` callback: the alert sound always plays, at the trend's volume. */
    method OnEnter(distance: real, audio: AudioStore.Store) returns (volume: real)
      modifies this`showTooltip, audio`sounds
      ensures showTooltip && volume == EnterVolume(visual)
      ensures audio.sounds ==
                if AudioStore.CryptoAlert in old(audio.sounds) && !audio.isMuted
                then old(audio.sounds)[AudioStore.CryptoAlert := AudioStore.Play(old(audio.sounds)[AudioStore.CryptoAlert])]
                else old(audio.sounds)
    {
      showTooltip := true;
      volume := EnterVolume(visual);
      var _ := audio.PlayPositionalSound(AudioStore.CryptoAlert, distance, volume);
    }

    /** The `onExit` callback. */
    method OnExit()
      modifies this`showTooltip
      ensures !showTooltip
    {
      showTooltip := false;
    }

    /** The `useFrame` callback for clock time `t`; `oscillation` is `sin(3 t)`. */
    method OnFrame(isNear: bool, t: real, oscillation: real, cos: real -> real, sin: real -> real)
      requires Valid() && -1.0 <= oscillation <= 1.0
      modifies this`groupRotation, this`runeRotation, this`groupY, spiral
      ensures Valid()
      ensures !Mounted() ==>
                groupRotation == old(groupRotation) && runeRotation == old(runeRotation)
                && groupY == old(groupY) && spiral[..] == old(spiral[..])
      ensures Mounted() ==> groupRotation == old(groupRotation) + 0.002 * (1.0 + visual.magicIntensity * 0.5)
      ensures Mounted() ==> runeRotation == old(runeRotation) + 0.01 + visual.magicIntensity * 0.03
      ensures Mounted() ==> groupRotation > old(groupRotation) && runeRotation >= old(runeRotation) + 0.01
      ensures Mounted() ==> forall j :: 0 <= j < spiral.Length && j % 3 == 0 ==>
                Vec3(spiral[j], spiral[j + 1], spiral[j + 2]) == SpiralPoint(j / 3, t, visual.magicIntensity, cos, sin)
      ensures Mounted() ==> groupY == anchorY + (if isNear then oscillation * 0.01 * visual.magicIntensity else 0.0)
    {
      if Mounted() {
        groupRotation := groupRotation + 0.002 * (1.0 + visual.magicIntensity * 0.5);
        runeRotation := runeRotation + 0.01 + visual.magicIntensity * 0.03;
        SpiralFrame(spiral, t, visual.magicIntensity, cos, sin);
        if isNear {
          groupY := anchorY + oscillation * 0.01 * visual.magicIntensity;
        } else {
          groupY := anchorY;
        }
      }
    }
  }
}
