/**
  The weather diorama: the mapping from the latest weather report to rain,
  cloudiness, a normalised temperature, the time of day, an activity level
  and colours; the sound played when the player walks in; and the per-frame
  work, of which the rain buffer is updated in place.
*/
module WeatherDiorama {
  import opened Numeric
  import opened DataModel
  import AudioStore

  // ---------------------------------------------------------------------------
  // Text matching
  // ---------------------------------------------------------------------------

  /** `toLowerCase` on one character, for the ASCII letters. */
  function LowerChar(c: char): char {
    if 'A' <= c <= 'Z' then (c as int + 32) as char else c
  }

  function Lower(s: string): (r: string)
    ensures |r| == |s| && forall i :: 0 <= i < |s| ==> r[i] == LowerChar(s[i])
  {
    seq(|s|, i requires 0 <= i < |s| => LowerChar(s[i]))
  }

  predicate StartsWith(s: string, t: string) {
    |t| <= |s| && s[..|t|] == t
  }

  /** `s.includes(t)`, scanning from the left. */
  predicate Includes(s: string, t: string)
    decreases |s|
  {
    StartsWith(s, t) || (|s| > 0 && Includes(s[1..], t))
  }

  predicate OccursAt(s: string, t: string, i: int) {
    0 <= i <= |s| - |t| && s[i..i + |t|] == t
  }

  /** The scan finds `t` exactly when `t` occurs somewhere in `s`. */
  lemma {:induction false} IncludesIff(s: string, t: string)
    ensures Includes(s, t) <==> exists i :: OccursAt(s, t, i)
    decreases |s|
  {
    if |s| > 0 {
      IncludesIff(s[1..], t);
    }
    if Includes(s, t) {
      if StartsWith(s, t) {
        assert OccursAt(s, t, 0);
      } else {
        var i :| OccursAt(s[1..], t, i);
        assert s[1..][i..i + |t|] == s[i + 1..i + 1 + |t|];
        assert OccursAt(s, t, i + 1);
      }
    }
    if exists i :: OccursAt(s, t, i) {
      var i :| OccursAt(s, t, i);
      if i == 0 {
        assert StartsWith(s, t);
      } else {
        assert s[1..][i - 1..i - 1 + |t|] == s[i..i + |t|];
        assert OccursAt(s[1..], t, i - 1);
      }
    }
  }

  /** A text in which the first two letters of `t` never stand side by side does not
      include `t`. */
  lemma {:induction false} NoLeadingPair(s: string, t: string)
    requires |t| >= 2
    requires forall i :: 0 <= i < |s| - 1 ==> !(s[i] == t[0] && s[i + 1] == t[1])
    ensures !Includes(s, t)
    decreases |s|
  {
    if |t| <= |s| {
      assert s[..|t|][0] == s[0] && s[..|t|][1] == s[1];
    }
    if |s| > 0 {
      NoLeadingPair(s[1..], t);
    }
  }

  /** `weatherCondition.toLowerCase().includes("rain")`. */
  predicate IsRainy(condition: string) {
    Includes(Lower(condition), "rain")
  }

  /** Rain is recognised in any letter case: it is there exactly when some position of
      the lower-cased condition spells "rain". */
  lemma RainIsCaseBlind(condition: string)
    ensures IsRainy(condition) <==> exists i :: OccursAt(Lower(condition), "rain", i)
    ensures IsRainy(condition) <==> IsRainy(Lower(condition))
  {
    IncludesIff(Lower(condition), "rain");
    assert Lower(Lower(condition)) == Lower(condition);
  }

  /** "Rainy" and "Light RAIN" are rain; "Sunny" is not. */
  lemma RainScenarios()
    ensures IsRainy("Rainy")
    ensures IsRainy("Light RAIN")
    ensures !IsRainy("Sunny")
  {
    RainyIsRain();
    LightRainIsRain();
    SunnyIsDry();
  }

  lemma RainyIsRain()
    ensures IsRainy("Rainy")
  {
    assert Lower("Rainy") == "rainy";
    assert Lower("Rainy")[..4] == "rain";
  }

  lemma LightRainIsRain()
    ensures IsRainy("Light RAIN")
  {
    var l := Lower("Light RAIN");
    assert l == "light rain";
    assert OccursAt(l, "rain", 6) by {
      assert l[6..10] == "rain";
    }
    IncludesIff(l, "rain");
  }

  lemma SunnyIsDry()
    ensures !IsRainy("Sunny")
  {
    assert Lower("Sunny") == "sunny";
    NoLeadingPair("sunny", "rain");
  }

  /** Neither "Partly Cloudy" nor "Thunderstorm" mentions rain. */
  lemma PartlyCloudyIsDry()
    ensures !IsRainy("Partly Cloudy")
  {
    assert Lower("Partly Cloudy") == "partly cloudy";
    NoLeadingPair("partly cloudy", "rain");
  }

  lemma ThunderstormIsDry()
    ensures !IsRainy("Thunderstorm")
  {
    assert Lower("Thunderstorm") == "thunderstorm";
    NoLeadingPair("thunderstorm", "rain");
  }

  // ---------------------------------------------------------------------------
  // The data effect
  // ---------------------------------------------------------------------------

  const MinTemperature: real := -10.0
  const MaxTemperature: real := 40.0

  /** `cloudCover / 100`. */
  function Cloudiness(w: WeatherData): (c: real)
    ensures 0.0 <= w.cloudCover <= 100.0 ==> 0.0 <= c <= 1.0
    ensures c * 100.0 == w.cloudCover
  {
    w.cloudCover / 100.0
  }

  /** The temperature placed on [0, 1] between -10 and 40 degrees, clamped outside. */
  function NormalisedTemperature(w: WeatherData): (t: real)
    ensures 0.0 <= t <= 1.0
    ensures w.temperature <= MinTemperature ==> t == 0.0
    ensures w.temperature >= MaxTemperature ==> t == 1.0
    ensures MinTemperature <= w.temperature <= MaxTemperature ==> t * 50.0 == w.temperature + 10.0
  {
    Clamp((w.temperature - MinTemperature) / (MaxTemperature - MinTemperature), 0.0, 1.0)
  }

  /** A warmer report never gives a lower normalised temperature. */
  lemma NormalisedTemperatureMonotone(w: WeatherData, v: WeatherData)
    requires w.temperature <= v.temperature
    ensures NormalisedTemperature(w) <= NormalisedTemperature(v)
  {
    ClampMonotone((w.temperature + 10.0) / 50.0, (v.temperature + 10.0) / 50.0, 0.0, 1.0);
  }

  /** 0.8 by day, 0.2 by night, and unchanged when the report does not say. */
  function TimeOfDay(previous: real, w: WeatherData): (t: real)
    ensures w.isDay == Some(true) ==> t == 0.8
    ensures w.isDay == Some(false) ==> t == 0.2
    ensures w.isDay.None? ==> t == previous
  {
    if w.isDay.None? then previous else if w.isDay.value then 0.8 else 0.2
  }

  /** `max(cloudiness, |temperature - 0.5| * 2) * 0.8`: the stronger of cloud and
      temperature extremity, scaled to at most 0.8. */
  function Activity(cloudiness: real, temperature: real): (a: real)
    ensures a >= 0.0
    ensures a >= cloudiness * 0.8 && a >= Abs(temperature - 0.5) * 1.6
    ensures 0.0 <= cloudiness <= 1.0 && 0.0 <= temperature <= 1.0 ==> a <= 0.8
  {
    Max(cloudiness, Abs(temperature - 0.5) * 2.0) * 0.8
  }

  const RainBlue: int := 0x99ccff
  const Warm: int := 0xffcc66
  const Cool: int := 0xaaccff
  const Neutral: int := 0xdddddd

  /** Blue for rain, otherwise warm above 0.7, cool below 0.3, neutral between. */
  function ParticleColour(isRaining: bool, temperature: real): (c: int)
    ensures isRaining ==> c == RainBlue
    ensures !isRaining ==> (c == Warm <==> temperature > 0.7)
    ensures !isRaining ==> (c == Cool <==> temperature < 0.3)
    ensures !isRaining ==> (c == Neutral <==> 0.3 <= temperature <= 0.7)
  {
    if isRaining then RainBlue
    else if temperature > 0.7 then Warm
    else if temperature < 0.3 then Cool
    else Neutral
  }

  /** The refs the data effect writes. */
  datatype Visual = Visual(
    isRaining: bool,
    cloudiness: real,
    temperature: real,
    timeOfDay: real,
    activityLevel: real,
    particleColour: int)

  const InitialVisual: Visual := Visual(false, 0.0, 0.0, 0.5, 0.5, RainBlue)

  /** The data effect: without a report nothing changes. */
  function ApplyData(v: Visual, data: Option<WeatherData>): (r: Visual)
    ensures data.None? ==> r == v
    ensures data.Some? ==> r.isRaining == IsRainy(data.value.weatherCondition)
    ensures data.Some? ==> r.cloudiness == Cloudiness(data.value) && r.temperature == NormalisedTemperature(data.value)
    ensures data.Some? ==> r.timeOfDay == TimeOfDay(v.timeOfDay, data.value)
    ensures data.Some? ==> r.activityLevel == Activity(r.cloudiness, r.temperature)
    ensures data.Some? ==> r.particleColour == ParticleColour(r.isRaining, r.temperature)
    ensures r.activityLevel >= 0.0 || r == v
  {
    if data.None? then v
    else
      var w := data.value;
      var raining := IsRainy(w.weatherCondition);
      var cloud := Cloudiness(w);
      var temp := NormalisedTemperature(w);
      Visual(raining, cloud, temp, TimeOfDay(v.timeOfDay, w), Activity(cloud, temp), ParticleColour(raining, temp))
  }

  /** A second run of the effect on the same report changes nothing. */
  lemma ApplyDataIdempotent(v: Visual, w: WeatherData)
    ensures ApplyData(ApplyData(v, Some(w)), Some(w)) == ApplyData(v, Some(w))
  {
  }

  /** 22 degrees under 40% cloud: cloudiness 0.4, temperature 0.64, activity 0.32. */
  lemma ScenarioMildPartlyCloudy(v: Visual)
    ensures var r := ApplyData(v, Some(WeatherData("New York", 22.0, "Partly Cloudy", 40.0, Some(true))));
            && r.cloudiness == 0.4 && r.temperature == 0.64 && r.activityLevel == 0.32
            && r.timeOfDay == 0.8 && r.particleColour == Neutral
  {
    var w := WeatherData("New York", 22.0, "Partly Cloudy", 40.0, Some(true));
    assert NormalisedTemperature(w) == 0.64;
    assert Abs(0.64 - 0.5) * 2.0 == 0.28;
    assert Activity(0.4, 0.64) == 0.32;
    PartlyCloudyIsDry();
  }

  // ---------------------------------------------------------------------------
  // Per-frame appearance
  // ---------------------------------------------------------------------------

  /** The terrain's temperature band. */
  datatype Band = Cold | Mild | Hot

  function TerrainBand(temperature: real): (b: Band)
    ensures b == Cold <==> temperature < 0.33
    ensures b == Hot <==> temperature >= 0.66
  {
    if temperature < 0.33 then Cold else if temperature < 0.66 then Mild else Hot
  }

  datatype Hsl = Hsl(h: real, s: real, l: real)

  /** Cool grey-blue, medium grey, warm grey. */
  function TerrainColour(b: Band): Hsl {
    match b
    case Cold => Hsl(0.6, 0.15, 0.3)
    case Mild => Hsl(0.0, 0.05, 0.5)
    case Hot => Hsl(0.05, 0.12, 0.5)
  }

  /** Warmer weather never moves the terrain to a colder band. */
  lemma TerrainBandMonotone(t1: real, t2: real)
    requires t1 <= t2
    ensures TerrainBand(t1) == Hot ==> TerrainBand(t2) == Hot
    ensures TerrainBand(t2) == Cold ==> TerrainBand(t1) == Cold
  {
  }

  /** Sun or moon material: colour, emissive colour and emissive intensity. */
  datatype Glow = Glow(colour: int, emissive: int, intensity: real)

  /** A yellow sun after noon (`timeOfDay > 0.5`), a pale moon otherwise, each brighter
      while the player is near. */
  function SunMoonGlow(timeOfDay: real, isNear: bool): (g: Glow)
    ensures timeOfDay > 0.5 ==> g.colour == 0xffdd00 && g.emissive == 0xffdd00
    ensures timeOfDay <= 0.5 ==> g.colour == 0xccddff && g.emissive == 0x334455
    ensures isNear ==> g.intensity == (if timeOfDay > 0.5 then 0.8 else 0.5)
    ensures !isNear ==> g.intensity == (if timeOfDay > 0.5 then 0.5 else 0.3)
  {
    if timeOfDay > 0.5 then Glow(0xffdd00, 0xffdd00, if isNear then 0.8 else 0.5)
    else Glow(0xccddff, 0x334455, if isNear then 0.5 else 0.3)
  }

  /** The initial 0.5 is not past noon: before any report says it is day, the moon shows. */
  lemma InitialSkyIsNight(isNear: bool)
    ensures SunMoonGlow(InitialVisual.timeOfDay, isNear).colour == 0xccddff
  {
  }

  /** Cloud scale `0.2 + c * 0.3` and opacity `0.5 + c * 0.5`, both growing with cloud. */
  function CloudScale(cloudiness: real): (s: real)
    ensures 0.0 <= cloudiness <= 1.0 ==> 0.2 <= s <= 0.5
  {
    0.2 + cloudiness * 0.3
  }

  function CloudOpacity(cloudiness: real): (o: real)
    ensures 0.0 <= cloudiness <= 1.0 ==> 0.5 <= o <= 1.0
  {
    0.5 + cloudiness * 0.5
  }

  lemma CloudsGrowWithCloudiness(c1: real, c2: real)
    requires c1 <= c2
    ensures CloudScale(c1) <= CloudScale(c2) && CloudOpacity(c1) <= CloudOpacity(c2)
  {
  }

  /** The temperature label: orange above 25 degrees, green above 15, blue otherwise. */
  function LabelColour(w: WeatherData): (c: string)
    ensures w.temperature > 25.0 ==> c == "#ff9800"
    ensures 15.0 < w.temperature <= 25.0 ==> c == "#4caf50"
    ensures w.temperature <= 15.0 ==> c == "#2196f3"
  {
    if w.temperature > 25.0 then "#ff9800" else if w.temperature > 15.0 then "#4caf50" else "#2196f3"
  }

  /** The settings of the diorama's particle field. */
  datatype Particles = Particles(colour: int, count: nat, spread: real, intensity: real, speed: real, size: real)

  /** Misty particles above 50% cloud, light ones (yellowish by day) otherwise. */
  function ParticleField(v: Visual, w: WeatherData): (p: Particles)
    ensures w.cloudCover > 50.0 ==> p == Particles(v.particleColour, 150, 4.0, v.cloudiness, 0.1, 0.08)
    ensures w.cloudCover <= 50.0 ==> p.count == 80 && p.intensity == 0.3
    ensures w.cloudCover <= 50.0 ==> (p.colour == 0xffffaa <==> w.isDay == Some(true))
  {
    if w.cloudCover > 50.0 then Particles(v.particleColour, 150, 4.0, v.cloudiness, 0.1, 0.08)
    else Particles(if w.isDay == Some(true) then 0xffffaa else 0x6699cc, 80, 3.0, 0.3, 0.05, 0.05)
  }

  // ---------------------------------------------------------------------------
  // The sound on entry
  // ---------------------------------------------------------------------------

  datatype Cue = NoCue | Cue(name: AudioStore.SoundName, intensity: real)

  /** `weatherCalm` at 0.7 for a report of exactly "Clear", `weatherStorm` at
      `min(cloudCover / 100, 1)` for any other report, nothing without one. */
  function EnterCue(data: Option<WeatherData>): (c: Cue)
    ensures c.Cue? <==> data.Some?
    ensures c.Cue? ==> (c.name == AudioStore.WeatherCalm <==> data.value.weatherCondition == "Clear")
    ensures c.Cue? && c.name == AudioStore.WeatherCalm ==> c.intensity == 0.7
    ensures c.Cue? && c.name != AudioStore.WeatherCalm ==>
              c.name == AudioStore.WeatherStorm && c.intensity == Min(data.value.cloudCover / 100.0, 1.0)
    ensures c.Cue? ==> c.intensity <= 1.0
  {
    if data.None? then NoCue
    else if data.value.weatherCondition == "Clear" then Cue(AudioStore.WeatherCalm, 0.7)
    else Cue(AudioStore.WeatherStorm, Min(data.value.cloudCover / 100.0, 1.0))
  }

  /** None of the conditions the weather endpoint reports is "Clear", so with live data
      the calm sound never plays. */
  lemma ServerConditionsAreStormy(w: WeatherData)
    requires w.weatherCondition in ["Sunny", "Partly Cloudy", "Cloudy", "Rainy", "Thunderstorm"]
    ensures EnterCue(Some(w)).name == AudioStore.WeatherStorm
  {
  }

  // ---------------------------------------------------------------------------
  // Rain
  // ---------------------------------------------------------------------------

  const RainDrops: nat := 200
  const RainTop: real := 3.0

  /** Coordinate `c` (0 = x, 1 = y, 2 = z) of a drop lies in the rain box:
      y in [0, 3], x and z in [-1.5, 1.5]. */
  predicate InBox(c: int, v: real) {
    if c == 1 then 0.0 <= v <= RainTop else -1.5 <= v <= 1.5
  }

  /** A flat `x, y, z, x, y, z, ...` buffer whose every drop lies in the rain box. */
  predicate RainInBox(ps: seq<real>) {
    |ps| % 3 == 0 && forall j :: 0 <= j < |ps| ==> InBox(j % 3, ps[j])
  }

  /** `0.1 * (1 + activity * 2)`. */
  function FallSpeed(activityLevel: real): (f: real)
    ensures activityLevel >= 0.0 ==> f >= 0.1
    ensures 0.0 <= activityLevel <= 0.8 ==> f <= 0.26
  {
    0.1 * (1.0 + activityLevel * 2.0)
  }

  datatype Drop = Drop(x: real, y: real, z: real)

  /** One drop for one frame: it falls by `fall`, and once below ground it starts again
      at height 3 above a random point. */
  function FallDrop(d: Drop, fall: real, rx: real, rz: real): (r: Drop)
    ensures d.y - fall >= 0.0 ==> r == d.(y := d.y - fall)
    ensures d.y - fall < 0.0 ==> r == Drop((rx - 0.5) * 3.0, RainTop, (rz - 0.5) * 3.0)
  {
    if d.y - fall < 0.0 then Drop((rx - 0.5) * 3.0, RainTop, (rz - 0.5) * 3.0)
    else d.(y := d.y - fall)
  }

  /** Drops never leave the box while they fall downwards. */
  lemma FallDropStaysInBox(d: Drop, fall: real, rx: real, rz: real)
    requires InBox(0, d.x) && InBox(1, d.y) && InBox(2, d.z)
    requires fall >= 0.0 && IsDraw(rx) && IsDraw(rz)
    ensures var r := FallDrop(d, fall, rx, rz);
            InBox(0, r.x) && InBox(1, r.y) && InBox(2, r.z)
  {
    CentredDrawBounds(rx, 3.0);
    CentredDrawBounds(rz, 3.0);
  }

  function DropAt(ps: seq<real>, j: int): Drop
    requires 0 <= j && j + 2 < |ps|
  {
    Drop(ps[j], ps[j + 1], ps[j + 2])
  }

  /** The JSX's rain buffer: two hundred drops spread over the box. */
  method InitRain(draws: seq<real>) returns (positions: array<real>)
    requires |draws| == 3 * RainDrops && AllDraws(draws)
    ensures fresh(positions) && positions.Length == 3 * RainDrops
    ensures forall j :: 0 <= j < positions.Length ==>
              positions[j] == if j % 3 == 1 then draws[j] * RainTop else (draws[j] - 0.5) * 3.0
    ensures RainInBox(positions[..])
  {
    positions := new real[3 * RainDrops];
    var i := 0;
    while i < positions.Length
      invariant 0 <= i <= positions.Length
      invariant forall j :: 0 <= j < i ==>
                  positions[j] == if j % 3 == 1 then draws[j] * RainTop else (draws[j] - 0.5) * 3.0
      invariant forall j :: 0 <= j < i ==> InBox(j % 3, positions[j])
    {
      assert IsDraw(draws[i]);
      if i % 3 == 1 {
        ScaledDrawBounds(draws[i], RainTop);
        positions[i] := draws[i] * RainTop;
      } else {
        CentredDrawBounds(draws[i], 3.0);
        positions[i] := (draws[i] - 0.5) * 3.0;
      }
      i := i + 1;
    }
  }

  /** The rain loop of one frame, in place: every drop falls by `fall`, resetting with
      the draws at its x and z slots. */
  method RainFrame(positions: array<real>, fall: real, draws: seq<real>)
    requires positions.Length % 3 == 0 && |draws| == positions.Length
    modifies positions
    ensures forall j :: 0 <= j < positions.Length && j % 3 == 0 ==>
              DropAt(positions[..], j) == FallDrop(DropAt(old(positions[..]), j), fall, draws[j], draws[j + 2])
  {
    ghost var before := positions[..];
    var i := 0;
    while i < positions.Length
      invariant 0 <= i <= positions.Length && i % 3 == 0
      invariant forall j :: 0 <= j < i && j % 3 == 0 ==>
                  DropAt(positions[..], j) == FallDrop(DropAt(before, j), fall, draws[j], draws[j + 2])
      invariant forall j :: i <= j < positions.Length ==> positions[j] == before[j]
    {
      positions[i + 1] := positions[i + 1] - fall;
      if positions[i + 1] < 0.0 {
        positions[i] := (draws[i] - 0.5) * 3.0;
        positions[i + 1] := RainTop;
        positions[i + 2] := (draws[i + 2] - 0.5) * 3.0;
      }
      assert DropAt(positions[..], i) == FallDrop(DropAt(before, i), fall, draws[i], draws[i + 2]);
      i := i + 3;
    }
  }

  /** A rain frame with a non-negative fall keeps every drop in the box. */
  lemma RainFrameStaysInBox(before: seq<real>, after: seq<real>, fall: real, draws: seq<real>)
    requires RainInBox(before) && |after| == |before| && |draws| == |before|
    requires fall >= 0.0 && AllDraws(draws)
    requires forall j :: 0 <= j < |after| && j % 3 == 0 ==>
               DropAt(after, j) == FallDrop(DropAt(before, j), fall, draws[j], draws[j + 2])
    ensures RainInBox(after)
  {
    forall j | 0 <= j < |after|
      ensures InBox(j % 3, after[j])
    {
      var b := j - j % 3;
      assert b % 3 == 0 && b + 2 < |after|;
      assert InBox(0, before[b]) && InBox(1, before[b + 1]) && InBox(2, before[b + 2]);
      assert IsDraw(draws[b]) && IsDraw(draws[b + 2]);
      FallDropStaysInBox(DropAt(before, b), fall, draws[b], draws[b + 2]);
      assert DropAt(after, b) == FallDrop(DropAt(before, b), fall, draws[b], draws[b + 2]);
    }
  }

  // ---------------------------------------------------------------------------
  // The scene
  // ---------------------------------------------------------------------------

  class WeatherScene {
    const anchorY: real
    const rain: array<real>
    var data: Option<WeatherData>
    var visual: Visual
    var groupRotation: real
    var groupY: real
    var rainOpacity: real
    var terrain: Hsl
    var showTooltip: bool

    ghost predicate Valid()
      reads this, rain
    {
      rain.Length == 3 * RainDrops && RainInBox(rain[..]) && visual.activityLevel >= 0.0
    }

    constructor (anchorY: real, draws: seq<real>)
      requires |draws| == 3 * RainDrops && AllDraws(draws)
      ensures this.anchorY == anchorY && data == None && visual == InitialVisual
      ensures groupRotation == 0.0 && groupY == anchorY && rainOpacity == 0.7
      ensures terrain == Hsl(0.0, 0.0, 119.0 / 255.0) && !showTooltip
      ensures fresh(rain) && Valid()
    {
      this.anchorY := anchorY;
      var positions := InitRain(draws);
      rain := positions;
      data, visual := None, InitialVisual;
      groupRotation, groupY, rainOpacity := 0.0, anchorY, 0.7;
      terrain := Hsl(0.0, 0.0, 119.0 / 255.0);
      showTooltip := false;
    }

    /** A new report from the store, and the effect that follows it. */
    method OnData(d: Option<WeatherData>)
      requires Valid()
      modifies this`data, this`visual
      ensures data == d && visual == ApplyData(old(visual), d)
      ensures Valid()
    {
      data := d;
      visual := ApplyData(visual, d);
    }

    /** The `onEnter` callback. */
    method OnEnter(distance: real, audio: AudioStore.Store) returns (cue: Cue)
      modifies this`showTooltip, audio`sounds
      ensures showTooltip && cue == EnterCue(data)
      ensures cue.Cue? && cue.name in old(audio.sounds) && !audio.isMuted ==>
                audio.sounds == old(audio.sounds)[cue.name := AudioStore.Play(old(audio.sounds)[cue.name])]
      ensures cue.NoCue? || cue.name !in old(audio.sounds) || audio.isMuted ==> audio.sounds == old(audio.sounds)
    {
      showTooltip := true;
      cue := EnterCue(data);
      if cue.Cue? {
        var _ := audio.PlayPositionalSound(cue.name, distance, cue.intensity);
      }
    }

    /** The `onExit` callback. */
    method OnExit()
      modifies this`showTooltip
      ensures !showTooltip
    {
      showTooltip := false;
    }

    /** The `useFrame` callback. Without a report only the placeholder is mounted and
        nothing moves. `oscillation` is `sin(elapsed * 2)`; `draws` feed the rain resets. */
    method OnFrame(isNear: bool, oscillation: real, draws: seq<real>)
      requires Valid() && -1.0 <= oscillation <= 1.0
      requires |draws| == rain.Length && AllDraws(draws)
      modifies this`groupRotation, this`groupY, this`rainOpacity, this`terrain, rain
      ensures Valid()
      ensures old(data).None? ==>
                groupRotation == old(groupRotation) && groupY == old(groupY) && rain[..] == old(rain[..])
                && rainOpacity == old(rainOpacity) && terrain == old(terrain)
      ensures data.Some? ==> groupRotation == old(groupRotation) + 0.001 * (1.0 + visual.activityLevel)
      ensures data.Some? ==> groupRotation > old(groupRotation)
      ensures data.Some? ==> rainOpacity == (if visual.isRaining then 0.7 else 0.0)
      ensures data.Some? ==> terrain == TerrainColour(TerrainBand(visual.temperature))
      ensures data.Some? ==> forall j :: 0 <= j < rain.Length && j % 3 == 0 ==>
                DropAt(rain[..], j) == FallDrop(DropAt(old(rain[..]), j), FallSpeed(visual.activityLevel), draws[j], draws[j + 2])
      ensures data.Some? ==> groupY == anchorY + (if isNear then oscillation * 0.01 * visual.activityLevel else 0.0)
    {
      if data.Some? {
        groupRotation := groupRotation + 0.001 * (1.0 + visual.activityLevel);
        rainOpacity := if visual.isRaining then 0.7 else 0.0;
        ghost var before := rain[..];
        RainFrame(rain, FallSpeed(visual.activityLevel), draws);
        RainFrameStaysInBox(before, rain[..], FallSpeed(visual.activityLevel), draws);
        terrain := TerrainColour(TerrainBand(visual.temperature));
        if isNear {
          groupY := anchorY + oscillation * 0.01 * visual.activityLevel;
        } else {
          groupY := anchorY;
        }
      }
    }
  }
}
