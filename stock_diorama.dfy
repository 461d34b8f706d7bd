/**
  The stock diorama: the mapping from the latest stock quote to an activity
  level and a base colour, the sound played when the player walks in, the
  building heights, and the per-frame rotation and oscillation of the scene.
*/
module StockDiorama {
  import opened Numeric
  import opened DataModel
  import AudioStore

  const Green: int := 0x00ff77
  const Red: int := 0xff3333

  /** `Math.min(Math.max(Math.abs(pc) / 5, 0.1), 1)` with a missing change read as 0. */
  function ActivityLevel(s: StockData): (a: real)
    ensures 0.1 <= a <= 1.0
  {
    Clamp(Abs(OrZero(s.percentChange)) / 5.0, 0.1, 1.0)
  }

  /** The activity level is `|pc| / 5` inside the band, floored at 0.1 and capped at 1. */
  lemma ActivityLevelBands(s: StockData)
    ensures var pc := OrZero(s.percentChange);
            && (0.5 <= Abs(pc) <= 5.0 ==> ActivityLevel(s) == Abs(pc) / 5.0)
            && (Abs(pc) <= 0.5 ==> ActivityLevel(s) == 0.1)
            && (Abs(pc) >= 5.0 ==> ActivityLevel(s) == 1.0)
  {
  }

  /** Green for a rise or no change, red for a fall. */
  function BaseColour(s: StockData): (c: int)
    ensures c == Green || c == Red
    ensures c == Green <==> OrZero(s.percentChange) >= 0.0
  {
    if OrZero(s.percentChange) >= 0.0 then Green else Red
  }

  /** The refs the data effect writes. */
  datatype Visual = Visual(activityLevel: real, baseColour: int)

  /** `useRef(0)` and `new THREE.Color(0x00ff77)`. */
  const InitialVisual: Visual := Visual(0.0, Green)

  /** The data effect: without a quote nothing changes. */
  function ApplyData(v: Visual, data: Option<StockData>): (r: Visual)
    ensures data.None? ==> r == v
    ensures data.Some? ==> r == Visual(ActivityLevel(data.value), BaseColour(data.value))
  {
    if data.None? then v else Visual(ActivityLevel(data.value), BaseColour(data.value))
  }

  /** Running the effect twice on the same quote gives what running it once gives,
      and the result does not depend on what the refs held before. */
  lemma ApplyDataIdempotent(v: Visual, w: Visual, s: StockData)
    ensures ApplyData(ApplyData(v, Some(s)), Some(s)) == ApplyData(v, Some(s))
    ensures ApplyData(v, Some(s)) == ApplyData(w, Some(s))
  {
  }

  /** No change at all: activity at the floor, and green. */
  lemma ZeroChangeIsQuietGreen(symbol: string, price: Option<real>)
    ensures ActivityLevel(StockData(symbol, price, Some(0.0))) == 0.1
    ensures ActivityLevel(StockData(symbol, price, None)) == 0.1
    ensures BaseColour(StockData(symbol, price, Some(0.0))) == Green
  {
  }

  /** A 1.2% rise: activity 0.24, green. */
  lemma ScenarioSmallRise()
    ensures ActivityLevel(StockData("BTC", Some(42000.0), Some(1.2))) == 0.24
    ensures BaseColour(StockData("BTC", Some(42000.0), Some(1.2))) == Green
  {
  }

  /** A sound request: which sound and at what intensity. */
  datatype Cue = NoCue | Cue(name: AudioStore.SoundName, intensity: real)

  /** The `onEnter` sound: `stockUp` on a rise, `stockDown` on a fall, nothing when the
      change is 0 or missing, at intensity `min(|pc| / 5, 1)`. */
  function EnterCue(data: Option<StockData>): (c: Cue)
    ensures c.Cue? <==> data.Some? && Truthy(data.value.percentChange)
    ensures c.Cue? ==> (c.name == AudioStore.StockUp <==> data.value.percentChange.value > 0.0)
    ensures c.Cue? ==> (c.name == AudioStore.StockUp || c.name == AudioStore.StockDown)
    ensures c.Cue? ==> 0.0 <= c.intensity <= 1.0
    ensures c.Cue? ==> c.intensity == Min(Abs(data.value.percentChange.value) / 5.0, 1.0)
  {
    if data.Some? && Truthy(data.value.percentChange) && data.value.percentChange.value > 0.0 then
      Cue(AudioStore.StockUp, Min(Abs(OrZero(data.value.percentChange) / 5.0), 1.0))
    else if data.Some? && Truthy(data.value.percentChange) then
      Cue(AudioStore.StockDown, Min(Abs(OrZero(data.value.percentChange) / 5.0), 1.0))
    else
      NoCue
  }

  /** Building height factor: `clamp(price / 300, 0.3, 3)` for a truthy price, else 1. */
  function HeightFactor(s: StockData): (h: real)
    ensures Truthy(s.price) ==> 0.3 <= h <= 3.0
    ensures Truthy(s.price) && 90.0 <= s.price.value <= 900.0 ==> h == s.price.value / 300.0
    ensures !Truthy(s.price) ==> h == 1.0
  {
    if Truthy(s.price) then Clamp(s.price.value / 300.0, 0.3, 3.0) else 1.0
  }

  /** Vertical scale of building `i` for a pulse sine `sinValue`:
      `(sin * 0.1 + 1) * (0.5 + i * 0.25)`. */
  function BuildingScale(i: nat, sinValue: real): (y: real)
    requires -1.0 <= sinValue <= 1.0
    ensures 0.9 * (0.5 + (i as real) * 0.25) <= y <= 1.1 * (0.5 + (i as real) * 0.25)
  {
    var base := 0.5 + (i as real) * 0.25;
    MulMonotone(base, sinValue * 0.1 + 1.0, 1.1);
    MulMonotone(base, 0.9, sinValue * 0.1 + 1.0);
    (sinValue * 0.1 + 1.0) * base
  }

  /** Height of hologram line `i` for a sine `sinValue` of `i * 0.4`:
      `0.3 + sin * 0.2 + |pc * 0.03|`, so at least 0.1 and growing with the size of the move. */
  function LineHeight(sinValue: real, s: StockData): (h: real)
    requires -1.0 <= sinValue <= 1.0
    ensures 0.1 + Abs(OrZero(s.percentChange)) * 0.03 <= h <= 0.5 + Abs(OrZero(s.percentChange)) * 0.03
  {
    var pc := OrZero(s.percentChange);
    assert Abs(pc * 0.03) == Abs(pc) * 0.03;
    0.3 + sinValue * 0.2 + Abs(pc * 0.03)
  }

  /** The particle speed handed to the diorama's particles: `0.2 * (activity || 0.5)`. */
  function ParticleSpeed(activityLevel: real): (v: real)
    ensures activityLevel == 0.0 ==> v == 0.1
    ensures activityLevel != 0.0 ==> v == 0.2 * activityLevel
    ensures 0.1 <= activityLevel <= 1.0 ==> 0.02 <= v <= 0.2
  {
    0.2 * (if activityLevel == 0.0 then 0.5 else activityLevel)
  }

  /** The scene's animated state. */
  class StockScene {
    const anchorY: real          // position[1]
    var data: Option<StockData>  // the store's quote the component last rendered
    var visual: Visual
    var groupRotation: real
    var holoRotation: real
    var groupY: real
    var showTooltip: bool

    ghost predicate Valid()
      reads this
    {
      data.Some? ==> visual == ApplyData(visual, data) && 0.1 <= visual.activityLevel <= 1.0
    }

    constructor (anchorY: real)
      ensures this.anchorY == anchorY && data == None && visual == InitialVisual
      ensures groupRotation == 0.0 && holoRotation == 0.0 && groupY == anchorY
      ensures !showTooltip && Valid()
    {
      this.anchorY := anchorY;
      data := None;
      visual := InitialVisual;
      groupRotation, holoRotation, groupY := 0.0, 0.0, anchorY;
      showTooltip := false;
    }

    /** The `onEnter` callback: show the tooltip and play the cue for the current quote
        from `distance` away. */
    method OnEnter(distance: real, audio: AudioStore.Store) returns (cue: Cue)
      modifies this`showTooltip, audio`sounds
      ensures showTooltip && cue == EnterCue(data)
      ensures cue.Cue? && cue.name in old(audio.sounds) && !audio.isMuted ==>
                audio.sounds == old(audio.sounds)[cue.name := AudioStore.Play(old(audio.sounds)[cue.name])]
      ensures cue.NoCue? || cue.name !in old(audio.sounds) || audio.isMuted ==> audio.sounds == old(audio.sounds)
    {
      showTooltip := true;
      cue := EnterCue(data);
      if cue.Cue? {
        var _ := audio.PlayPositionalSound(cue.name, distance, cue.intensity);
      }
    }

    /** The `onExit` callback. */
    method OnExit()
      modifies this`showTooltip
      ensures !showTooltip
    {
      showTooltip := false;
    }

    /** A new quote from the store, and the effect that follows it. */
    method OnData(d: Option<StockData>)
      modifies this`data, this`visual
      ensures data == d && visual == ApplyData(old(visual), d)
      ensures Valid()
    {
      data := d;
      visual := ApplyData(visual, d);
    }

    /** The `useFrame` callback. Without a quote only the placeholder is mounted and its
        refs are null, so nothing moves. `oscillation` is `sin(elapsed * 3)`. */
    method OnFrame(isNear: bool, oscillation: real)
      requires Valid() && -1.0 <= oscillation <= 1.0
      modifies this`groupRotation, this`holoRotation, this`groupY
      ensures Valid()
      ensures old(data).None? ==> groupRotation == old(groupRotation) && holoRotation == old(holoRotation) && groupY == old(groupY)
      ensures data.Some? ==> groupRotation == old(groupRotation) + 0.002
      ensures data.Some? ==> holoRotation == old(holoRotation) + 0.01 * visual.activityLevel
      ensures data.Some? ==> groupRotation > old(groupRotation) && holoRotation > old(holoRotation)
      ensures data.Some? ==> groupY == anchorY + (if isNear then oscillation * 0.01 * visual.activityLevel else 0.0)
      ensures data.Some? ==> (groupY == anchorY <==> !isNear || oscillation * 0.01 * visual.activityLevel == 0.0)
      ensures data.Some? ==> anchorY - 0.01 <= groupY <= anchorY + 0.01
    {
      if data.Some? {
        groupRotation := groupRotation + 0.002;
        holoRotation := holoRotation + 0.01 * visual.activityLevel;
        if isNear {
          var amount := oscillation * 0.01 * visual.activityLevel;
          UnitProductBound(oscillation, 0.01 * visual.activityLevel);
          assert oscillation * 0.01 * visual.activityLevel == oscillation * (0.01 * visual.activityLevel);
          groupY := anchorY + amount;
        } else {
          groupY := anchorY;
        }
      }
    }
  }
}
