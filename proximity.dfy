/**
  The proximity detector run once per frame by `useProximityEffect`: a
  hysteresis band between a trigger distance and an exit distance, enter and
  exit events on the flips of `isNear`, and a one-shot sound latch
  `hasTriggeredSound` that is cleared on exit.

  The player-to-anchor distance (`distanceTo`) is an input of each step. The
  `onEnter` and `onExit` callbacks are given back as the step's event; the
  positional cue is a call into the audio store.
*/
module Proximity {
  import opened Numeric
  import AudioStore

  /** The hook's parameters, fixed for the lifetime of the detector. */
  datatype Config = Config(
    triggerDistance: real,
    exitDistance: real,
    soundEffect: Option<AudioStore.SoundName>,
    soundIntensity: real)

  const DefaultTriggerDistance: real := 5.0
  const DefaultExitDistance: real := 7.0
  const DefaultSoundIntensity: real := 1.0

  /** The hook's parameters when the caller leaves the optional ones out. */
  function DefaultConfig(soundEffect: Option<AudioStore.SoundName>): (c: Config)
    ensures c.triggerDistance == 5.0 && c.exitDistance == 7.0 && c.soundIntensity == 1.0
    ensures c.soundEffect == soundEffect
    ensures c.triggerDistance <= c.exitDistance
  {
    Config(DefaultTriggerDistance, DefaultExitDistance, soundEffect, DefaultSoundIntensity)
  }

  /** The detector each diorama sets up: entry within 8, exit beyond 12, and no sound of
      its own (the diorama's `onEnter` plays one). */
  const DioramaConfig: Config := Config(8.0, 12.0, None, DefaultSoundIntensity)

  datatype Event = NoEvent | Enter | Exit

  function Opposite(e: Event): Event {
    match e
    case Enter => Exit
    case Exit => Enter
    case NoEvent => NoEvent
  }

  /** The two pieces of React state of the hook. */
  datatype State = State(isNear: bool, hasTriggeredSound: bool)

  const Initial: State := State(false, false)

  /** The latch is only ever set while near: it is set on entry and cleared on exit. */
  predicate LatchConsistent(s: State) {
    s.hasTriggeredSound ==> s.isNear
  }

  datatype StepResult = StepResult(next: State, event: Event, playCue: bool)

  /** One frame of the detector, for a given distance and mute state. */
  function Step(c: Config, s: State, distance: real, muted: bool): (r: StepResult)
    // entering: far and within the trigger distance
    ensures r.event == Enter <==> !s.isNear && distance <= c.triggerDistance
    // leaving: near and beyond the exit distance
    ensures r.event == Exit <==> s.isNear && distance > c.exitDistance
    ensures r.event == Enter ==> r.next.isNear && r.next.hasTriggeredSound == (s.hasTriggeredSound || r.playCue)
    ensures r.event == Exit ==> r.next == State(false, false)
    // the dead zone: no flag changes, no callback
    ensures r.event == NoEvent ==> r.next == s && !r.playCue
    // the cue needs an entry, a sound, an open latch and unmuted audio
    ensures r.playCue <==> r.event == Enter && c.soundEffect.Some? && !s.hasTriggeredSound && !muted
  {
    if !s.isNear && distance <= c.triggerDistance then
      var cue := c.soundEffect.Some? && !s.hasTriggeredSound && !muted;
      StepResult(State(true, s.hasTriggeredSound || cue), Enter, cue)
    else if s.isNear && distance > c.exitDistance then
      StepResult(State(false, false), Exit, false)
    else
      StepResult(s, NoEvent, false)
  }

  /** Every step keeps the latch consistent with `isNear`. */
  lemma StepKeepsLatchConsistent(c: Config, s: State, distance: real, muted: bool)
    requires LatchConsistent(s)
    ensures LatchConsistent(Step(c, s, distance, muted).next)
  {
  }

  /** Because the latch is consistent, it is always open at an entry: the cue
      plays on every entry with a sound effect and unmuted audio, and on no other frame. */
  lemma CueOnEveryUnmutedEntry(c: Config, s: State, distance: real, muted: bool)
    requires LatchConsistent(s)
    ensures Step(c, s, distance, muted).playCue <==>
              !s.isNear && distance <= c.triggerDistance && c.soundEffect.Some? && !muted
  {
  }

  /** A diorama's detector never plays a cue itself; it enters at 8 units or closer and
      leaves beyond 12, with a 4-unit band in between where nothing changes. */
  lemma DioramaDetector(s: State, distance: real, muted: bool)
    ensures !Step(DioramaConfig, s, distance, muted).playCue
    ensures Step(DioramaConfig, s, distance, muted).event == Enter <==> !s.isNear && distance <= 8.0
    ensures Step(DioramaConfig, s, distance, muted).event == Exit <==> s.isNear && distance > 12.0
    ensures 8.0 < distance <= 12.0 ==> Step(DioramaConfig, s, distance, muted).next == s
  {
  }

  /** One frame's inputs. */
  datatype Frame = Frame(distance: real, muted: bool)

  /** The state after a run of frames. */
  function Run(c: Config, s: State, frames: seq<Frame>): State
    decreases |frames|
  {
    if frames == [] then s
    else Run(c, Step(c, s, frames[0].distance, frames[0].muted).next, frames[1..])
  }

  /** The callbacks fired during a run of frames, in order. */
  function Fired(c: Config, s: State, frames: seq<Frame>): seq<Event>
    decreases |frames|
  {
    if frames == [] then []
    else
      var r := Step(c, s, frames[0].distance, frames[0].muted);
      (if r.event == NoEvent then [] else [r.event]) + Fired(c, r.next, frames[1..])
  }

  /** `es` is `first, Opposite(first), first, ...` and holds no `NoEvent`. */
  predicate Alternating(es: seq<Event>, first: Event)
    decreases |es|
  {
    es == [] || (first != NoEvent && es[0] == first && Alternating(es[1..], Opposite(first)))
  }

  /** `onEnter` and `onExit` strictly alternate, and the first one that fires is
      `onExit` exactly when the detector starts near. */
  lemma {:induction false} CallbacksAlternate(c: Config, s: State, frames: seq<Frame>)
    ensures Alternating(Fired(c, s, frames), if s.isNear then Exit else Enter)
    decreases |frames|
  {
    if frames != [] {
      var r := Step(c, s, frames[0].distance, frames[0].muted);
      CallbacksAlternate(c, r.next, frames[1..]);
      if r.event != NoEvent {
        assert Fired(c, s, frames) == [r.event] + Fired(c, r.next, frames[1..]);
        assert ([r.event] + Fired(c, r.next, frames[1..]))[1..] == Fired(c, r.next, frames[1..]);
      } else {
        assert Fired(c, s, frames) == Fired(c, r.next, frames[1..]);
      }
    }
  }

  /** From the hook's initial state the first callback is always `onEnter`. */
  lemma FirstCallbackIsEnter(c: Config, frames: seq<Frame>)
    ensures Alternating(Fired(c, Initial, frames), Enter)
  {
    CallbacksAlternate(c, Initial, frames);
  }

  /** The latch stays consistent over a whole run. */
  lemma {:induction false} RunKeepsLatchConsistent(c: Config, s: State, frames: seq<Frame>)
    requires LatchConsistent(s)
    ensures LatchConsistent(Run(c, s, frames))
    decreases |frames|
  {
    if frames != [] {
      StepKeepsLatchConsistent(c, s, frames[0].distance, frames[0].muted);
      RunKeepsLatchConsistent(c, Step(c, s, frames[0].distance, frames[0].muted).next, frames[1..]);
    }
  }

  /** The hook instance: its configuration and its two state variables. */
  class ProximityDetector {
    const config: Config
    var isNear: bool
    var hasTriggeredSound: bool

    function Current(): State
      reads this
    {
      State(isNear, hasTriggeredSound)
    }

    ghost predicate Valid()
      reads this
    {
      LatchConsistent(Current())
    }

    /** `useState(false)` for both flags. */
    constructor (config: Config)
      ensures this.config == config
      ensures Current() == Initial && Valid()
    {
      this.config := config;
      isNear := false;
      hasTriggeredSound := false;
    }

    /** The `useFrame` callback: one step, and on a cue the positional sound of the
        configured effect at the configured intensity, heard from `distance`. */
    method OnFrame(distance: real, audio: AudioStore.Store) returns (event: Event, playCue: bool)
      requires Valid()
      modifies this, audio`sounds
      ensures Valid()
      ensures StepResult(Current(), event, playCue) == Step(config, old(Current()), distance, audio.isMuted)
      ensures playCue ==> (
                audio.sounds ==
                  if config.soundEffect.value in old(audio.sounds)
                  then old(audio.sounds)[config.soundEffect.value := AudioStore.Play(old(audio.sounds)[config.soundEffect.value])]
                  else old(audio.sounds))
      ensures !playCue ==> audio.sounds == old(audio.sounds)
    {
      event, playCue := NoEvent, false;
      if !isNear && distance <= config.triggerDistance {
        isNear := true;
        event := Enter;
        if config.soundEffect.Some? && !hasTriggeredSound && !audio.isMuted {
          var _ := audio.PlayPositionalSound(config.soundEffect.value, distance, config.soundIntensity);
          playCue := true;
          hasTriggeredSound := true;
        }
      } else if isNear && distance > config.exitDistance {
        isNear := false;
        hasTriggeredSound := false;
        event := Exit;
      }
    }
  }
}
