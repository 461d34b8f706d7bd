/**
  The zustand audio store of `useAudio`: the mute flag, the master volume, the
  background music and eight named sound slots, each either null or a Howl.

  A Howl is modelled by the part of its state the store drives: its source,
  its volume, its mute flag, its loop flag, whether it is playing and how many
  times `play()` has been called on it. Every slot holds its own Howl (the
  store never puts one Howl in two places), so a Howl is a value and changing
  one is replacing it in its slot.
*/
module AudioStore {
  import opened Numeric

  datatype SoundName = Hit | Success | Ambient | StockUp | StockDown | WeatherCalm | WeatherStorm | CryptoAlert

  /** The key order of the `sounds` object, which `Object.values` follows. */
  const SoundOrder: seq<SoundName> := [Hit, Success, Ambient, StockUp, StockDown, WeatherCalm, WeatherStorm, CryptoAlert]

  function OrderIndex(n: SoundName): (i: nat)
    ensures i < |SoundOrder| && SoundOrder[i] == n
  {
    match n
    case Hit => 0
    case Success => 1
    case Ambient => 2
    case StockUp => 3
    case StockDown => 4
    case WeatherCalm => 5
    case WeatherStorm => 6
    case CryptoAlert => 7
  }

  /** The asset path of each sound (soundAssets). */
  function AssetPath(n: SoundName): string {
    match n
    case Hit => "/sounds/hit.mp3"
    case Success => "/sounds/success.mp3"
    case Ambient => "/sounds/ambient.mp3"
    case StockUp => "/sounds/stock_up.mp3"
    case StockDown => "/sounds/stock_down.mp3"
    case WeatherCalm => "/sounds/weather_calm.mp3"
    case WeatherStorm => "/sounds/weather_storm.mp3"
    case CryptoAlert => "/sounds/crypto_alert.mp3"
  }

  /** The volume `initializeAudio` creates each sound with. */
  function CreatedVolume(n: SoundName): real {
    match n
    case Hit => 0.5
    case Success => 0.5
    case Ambient => 0.2
    case StockUp => 0.4
    case StockDown => 0.4
    case WeatherCalm => 0.3
    case WeatherStorm => 0.4
    case CryptoAlert => 0.4
  }

  /** The sounds `initializeAudio` creates looping: the ambient bed and the two weather sounds. */
  predicate CreatedLooping(n: SoundName) {
    n == Ambient || n == WeatherCalm || n == WeatherStorm
  }

  datatype Howl = Howl(src: string, volume: real, muted: bool, loop: bool, playing: bool, plays: nat)

  /** `new Howl({src: [src], volume, loop})`: unmuted and not yet playing. */
  function NewHowl(src: string, volume: real, loop: bool): Howl {
    Howl(src, volume, false, loop, false, 0)
  }

  function Play(h: Howl): (r: Howl)
    ensures r.playing && r.plays == h.plays + 1
    ensures r.(playing := h.playing, plays := h.plays) == h
  {
    h.(playing := true, plays := h.plays + 1)
  }

  function Stop(h: Howl): Howl {
    h.(playing := false)
  }

  /** The map of the slots after `f` has been applied to every non-null one. */
  function MapSounds(m: map<SoundName, Howl>, f: Howl -> Howl): (r: map<SoundName, Howl>)
    ensures r.Keys == m.Keys
    ensures forall n :: n in m ==> r[n] == f(m[n])
  {
    map n | n in m :: f(m[n])
  }

  /** Largest distance at which a positional sound is still heard. */
  const MaxAudibleDistance: real := 20.0

  /** `Math.max(0, 1 - distance / 20)`: 1 at the source, falling linearly to 0 at 20. */
  function Attenuation(distance: real): (f: real)
    ensures 0.0 <= f
    ensures distance >= 0.0 ==> f <= 1.0
    ensures distance >= MaxAudibleDistance ==> f == 0.0
  {
    Max(0.0, 1.0 - distance / MaxAudibleDistance)
  }

  /** `Math.min(volume * intensity * Math.max(0, 1 - distance / 20), 1)`. */
  function PositionalVolume(volume: real, intensity: real, distance: real): (r: real)
    ensures r <= 1.0
    ensures distance >= MaxAudibleDistance ==> r == 0.0
  {
    Min(volume * intensity * Attenuation(distance), 1.0)
  }

  /** `Min(l * f, 1)` grows with `f` for a non-negative `l`. */
  lemma CappedProductMonotone(l: real, f1: real, f2: real)
    requires l >= 0.0 && f2 <= f1
    ensures Min(l * f2, 1.0) <= Min(l * f1, 1.0)
  {
    MulMonotone(l, f2, f1);
  }

  /** For a non-negative volume and intensity the positional volume is at least 0, and
      at a real (non-negative) distance it is at most `volume * intensity`. */
  lemma PositionalVolumeBounds(volume: real, intensity: real, distance: real)
    requires volume >= 0.0 && intensity >= 0.0
    ensures PositionalVolume(volume, intensity, distance) >= 0.0
    ensures distance >= 0.0 ==> PositionalVolume(volume, intensity, distance) <= volume * intensity
  {
    var loudness := volume * intensity;
    MulNonNegative(volume, intensity);
    MulNonNegative(loudness, Attenuation(distance));
    if distance >= 0.0 {
      var f := Attenuation(distance);
      MulMonotone(loudness, f, 1.0);
      assert PositionalVolume(volume, intensity, distance) <= loudness * f;
      assert loudness * f <= loudness * 1.0;
      assert loudness * 1.0 == loudness;
      assert loudness == volume * intensity;
    }
  }

  /** A positional sound gets quieter (or stays as loud) as the listener walks away. */
  lemma PositionalVolumeFallsWithDistance(volume: real, intensity: real, d1: real, d2: real)
    requires volume >= 0.0 && intensity >= 0.0 && d1 <= d2
    ensures PositionalVolume(volume, intensity, d2) <= PositionalVolume(volume, intensity, d1)
  {
    MulNonNegative(volume, intensity);
    CappedProductMonotone(volume * intensity, Attenuation(d1), Attenuation(d2));
  }

  class Store {
    var backgroundMusic: Option<Howl>
    /** A name that is not a key is a null slot. */
    var sounds: map<SoundName, Howl>
    var isMuted: bool
    var volume: real
    /** `Howler.volume(...)`; None while it keeps Howler's own default. */
    var globalVolume: Option<real>

    /** The store's initial state: muted, volume 0.5, nothing loaded. */
    constructor ()
      ensures backgroundMusic == None && sounds == map[]
      ensures isMuted && volume == 0.5 && globalVolume == None
    {
      backgroundMusic := None;
      sounds := map[];
      isMuted := true;
      volume := 0.5;
      globalVolume := None;
    }

    /** `initializeAudio`: the global volume, eight sounds and the music, none playing. */
    method InitializeAudio()
      modifies this
      ensures globalVolume == Some(volume) && volume == old(volume) && isMuted == old(isMuted)
      ensures sounds.Keys == set n | n in SoundOrder
      ensures forall n :: n in sounds && sounds[n] == NewHowl(AssetPath(n), CreatedVolume(n), CreatedLooping(n))
      ensures backgroundMusic == Some(NewHowl(AssetPath(Ambient), 0.3, true))
    {
      globalVolume := Some(volume);
      sounds := map n | n in SoundOrder :: NewHowl(AssetPath(n), CreatedVolume(n), CreatedLooping(n));
      forall n ensures n in sounds {
        assert SoundOrder[OrderIndex(n)] == n;
      }
      backgroundMusic := Some(NewHowl(AssetPath(Ambient), 0.3, true));
    }

    /** The mount effect of each diorama: `initializeAudio` unless the hit sound is
        already loaded. Either way the hit sound is loaded afterwards. */
    method InitializeOnMount()
      modifies this
      ensures volume == old(volume) && isMuted == old(isMuted) && Hit in sounds
      ensures Hit in old(sounds) ==>
                sounds == old(sounds) && backgroundMusic == old(backgroundMusic) && globalVolume == old(globalVolume)
      ensures Hit !in old(sounds) ==>
                && globalVolume == Some(volume)
                && (forall n :: n in sounds && sounds[n] == NewHowl(AssetPath(n), CreatedVolume(n), CreatedLooping(n)))
                && backgroundMusic == Some(NewHowl(AssetPath(Ambient), 0.3, true))
    {
      if Hit !in sounds {
        InitializeAudio();
      }
    }

    /** `setBackgroundMusic`: the old music is stopped (and handed back), the new
        music plays at once unless the store is muted. */
    method SetBackgroundMusic(src: string) returns (previous: Option<Howl>)
      modifies this`backgroundMusic
      ensures previous == if old(backgroundMusic).Some? then Some(Stop(old(backgroundMusic).value)) else None
      ensures backgroundMusic.Some?
      ensures var music := NewHowl(src, 0.3, true);
              backgroundMusic.value == if isMuted then music else Play(music)
    {
      previous := None;
      if backgroundMusic.Some? {
        previous := Some(Stop(backgroundMusic.value));
      }
      var music := NewHowl(src, 0.3, true);
      if !isMuted {
        music := Play(music);
      }
      backgroundMusic := Some(music);
    }

    /** `setSound`: only the named slot changes; its old sound is stopped and handed back. */
    method SetSound(name: SoundName, src: string) returns (previous: Option<Howl>)
      modifies this`sounds
      ensures previous == if name in old(sounds) then Some(Stop(old(sounds)[name])) else None
      ensures sounds == old(sounds)[name := NewHowl(src, 0.5, false)]
      ensures forall n :: n != name ==> (n in sounds <==> n in old(sounds))
      ensures forall n :: n != name && n in sounds ==> sounds[n] == old(sounds)[n]
    {
      previous := None;
      if name in sounds {
        previous := Some(Stop(sounds[name]));
      }
      sounds := sounds[name := NewHowl(src, 0.5, false)];
    }

    /** The slots after the `Object.values(sounds).forEach(...)` loop has visited the
        first `i` names of `SoundOrder`. */
    static function Visited(m: map<SoundName, Howl>, f: Howl -> Howl, i: nat): (r: map<SoundName, Howl>)
      ensures r.Keys == m.Keys
    {
      map n | n in m :: if OrderIndex(n) < i then f(m[n]) else m[n]
    }

    /** The `Object.values(sounds).forEach(...)` loop: applies `f` to every non-null slot. */
    method ForEachSound(f: Howl -> Howl)
      modifies this`sounds
      ensures sounds == MapSounds(old(sounds), f)
    {
      ghost var original := sounds;
      var i := 0;
      assert sounds == Visited(original, f, 0);
      while i < |SoundOrder|
        invariant 0 <= i <= |SoundOrder|
        invariant sounds == Visited(original, f, i)
      {
        var name := SoundOrder[i];
        assert OrderIndex(name) == i;
        if name in sounds {
          sounds := sounds[name := f(sounds[name])];
        }
        assert sounds == Visited(original, f, i + 1);
        i := i + 1;
      }
      assert sounds == MapSounds(original, f);
    }

    /** `toggleMute`: flips the flag and pushes the new flag to the music and to every
        sound; unmuting starts the music when it is not already playing. */
    method ToggleMute()
      modifies this
      ensures isMuted == !old(isMuted)
      ensures volume == old(volume) && globalVolume == old(globalVolume)
      ensures sounds == MapSounds(old(sounds), (h: Howl) => h.(muted := !old(isMuted)))
      ensures backgroundMusic.Some? == old(backgroundMusic).Some?
      ensures old(backgroundMusic).Some? ==>
                var m := old(backgroundMusic).value.(muted := isMuted);
                backgroundMusic.value == if !isMuted && !m.playing then Play(m) else m
    {
      var muted := !isMuted;
      isMuted := muted;
      if backgroundMusic.Some? {
        var m := backgroundMusic.value.(muted := muted);
        if !muted && !m.playing {
          m := Play(m);
        }
        backgroundMusic := Some(m);
      }
      ForEachSound((h: Howl) => h.(muted := muted));
    }

    /** `setVolume`: the master volume, 0.6 of it for the music, all of it for every sound. */
    method SetVolume(v: real)
      modifies this
      ensures volume == v && isMuted == old(isMuted) && globalVolume == old(globalVolume)
      ensures backgroundMusic == if old(backgroundMusic).Some? then Some(old(backgroundMusic).value.(volume := v * 0.6)) else None
      ensures sounds == MapSounds(old(sounds), (h: Howl) => h.(volume := v))
    {
      volume := v;
      if backgroundMusic.Some? {
        backgroundMusic := Some(backgroundMusic.value.(volume := v * 0.6));
      }
      ForEachSound((h: Howl) => h.(volume := v));
    }

    /** `playSound`: plays the named sound only when its slot is loaded and the store is
        unmuted, setting its volume first when one is given. */
    method PlaySound(name: SoundName, v: Option<real>) returns (played: bool)
      modifies this`sounds
      ensures played <==> name in old(sounds) && !isMuted
      ensures sounds == if played then old(sounds)[name := Play(if v.Some? then old(sounds)[name].(volume := v.value) else old(sounds)[name])]
                        else old(sounds)
    {
      played := name in sounds && !isMuted;
      if played {
        var h := sounds[name];
        if v.Some? {
          h := h.(volume := v.value);
        }
        sounds := sounds[name := Play(h)];
      }
    }

    /** `playPositionalSound`: under the same gate as `playSound`, starts a new instance of
        the sound whose own volume is the attenuated one; the Howl's volume is left alone.
        `distance` is the listener-to-sound distance. */
    method PlayPositionalSound(name: SoundName, distance: real, intensity: real) returns (instanceVolume: Option<real>)
      modifies this`sounds
      ensures instanceVolume.Some? <==> name in old(sounds) && !isMuted
      ensures instanceVolume.Some? ==> instanceVolume.value == PositionalVolume(volume, intensity, distance)
      ensures sounds == if instanceVolume.Some? then old(sounds)[name := Play(old(sounds)[name])] else old(sounds)
    {
      instanceVolume := None;
      if name in sounds && !isMuted {
        sounds := sounds[name := Play(sounds[name])];
        instanceVolume := Some(PositionalVolume(volume, intensity, distance));
      }
    }

    /** `playHit`: the hit sound at volume 0.3, when loaded and unmuted. */
    method PlayHit() returns (played: bool)
      modifies this`sounds
      ensures played <==> Hit in old(sounds) && !isMuted
      ensures sounds == if played then old(sounds)[Hit := Play(old(sounds)[Hit].(volume := 0.3))] else old(sounds)
    {
      played := PlaySound(Hit, Some(0.3));
    }

    /** `playSuccess`: the success sound at its current volume, when loaded and unmuted. */
    method PlaySuccess() returns (played: bool)
      modifies this`sounds
      ensures played <==> Success in old(sounds) && !isMuted
      ensures sounds == if played then old(sounds)[Success := Play(old(sounds)[Success])] else old(sounds)
    {
      played := PlaySound(Success, None);
    }
  }

  /** Twenty-five units away a positional sound is silent, whatever its volume and intensity. */
  lemma ScenarioOutOfEarshot(volume: real, intensity: real)
    ensures PositionalVolume(volume, intensity, 25.0) == 0.0
  {
  }
}
