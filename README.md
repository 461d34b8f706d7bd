# Data world: a Dafny model

This project models the client core of a small browser "data world" built with
react-three-fiber. A player avatar walks among three dioramas: one for a stock quote,
one for the weather and one for crypto prices. Each diorama turns the latest data into
colours, motion and sound, and reacts when the player comes near. Behind the scenes:

- a fetching hook that polls three server endpoints;
- a shared data store that receives the values the hook fetches;
- an audio store of Howler sounds;
- a per-frame proximity detector;
- a reusable particle cloud.

The model follows the source component by component, with one Dafny module per core
file:

| module | file | what it holds |
|---|---|---|
| `Numeric`, `DataModel` | (shared) | clamp, min and max over `real`; `Option`; the stock, weather and crypto records |
| `AudioStore` | `client/src/lib/stores/useAudio.tsx` | the zustand audio store as a class over a `map` of sound slots |
| `Proximity` | `client/src/hooks/useProximityEffect.tsx` | the hysteresis detector as a pure step, plus a class holding its two state flags |
| `DataFetching` | `client/src/hooks/useDataFetching.tsx` | the hook's state, its starts and completions, and the query-string encoding |
| `DataStore` | `client/src/lib/stores/useDataStore.tsx` | the store, `DataFetcher`'s copy effects, its polling times |
| `DataParticles` | `client/src/components/effects/DataParticles.tsx` | particle generation, the flat buffers, the in-place frame update, the distance fade |
| `StockDiorama`, `WeatherDiorama`, `CryptoTrendsDiorama` | `client/src/components/dioramas/*.tsx` | each diorama's data effect, entry sound, frame callback and fixed visual rules |
| `Avatar` | `client/src/components/Avatar.tsx` | heading choice, the short-way-round turn, the poses, footsteps, the dust list and dust puffs |

How the source's constructs become Dafny:

- **Stores and hooks:** a store or hook whose fields its callbacks update becomes a
  `class` with those fields.
- **Pure computations:** a rule computed from data becomes a `function` with a named
  result, and the properties the source relies on are `ensures` clauses or lemmas.
- **Per-frame callbacks:** a callback that updates refs or buffers becomes a `method`.
  Where the source writes a `Float32Array` in place (particle positions, rain drops, the
  crypto spiral), the buffer is an `array<real>` and the loop carries its invariants.
- **Sequences of events:** these are folds over event sequences. `Proximity.Run` and
  `Fired` fold frames, `DataFetching.Run` folds completions, and `DataStore.Steps` folds
  starts, completions and syncs. The lemmas quantify over every such sequence.

The environment is made into inputs:

- `Math.sin`, `Math.cos` and `Math.atan2` are function parameters. Only their range is
  assumed: `UnitBounded` means the result lies in [-1, 1].
- Every `Math.random()` call is a draw in [0, 1) taken from a sequence argument.
- Distances (`distanceTo`), `performance.now()`, the frame `delta` and the clock are
  plain `real` inputs.
- The outcome of each fetch is an input `Completion`: the server's data, or a failure.

## Behaviour of the code that is easy to miss

- **Avatar turn:** the two `while` loops of `Avatar.tsx:189-190` leave a difference in
  the closed range [-pi, pi]. A difference of exactly -pi stays -pi. A difference of -6
  wraps by one full turn to -6 + 2pi, about 0.283 (`Avatar.ScenarioMinusSix`).
- **Dust list:** the test `dustPositions.length > 5` (`Avatar.tsx:154`) reads the length
  from before the new entry is appended. The list therefore grows to six entries
  (`Avatar.DustReachesSix`), and each later step drops the oldest one
  (`Avatar.SeventhStepDropsOldest`).
- **Dust puffs:** the puffs are keyed by list index (`Avatar.tsx:273-275`), and each
  puff's spawn effect re-runs when its `position` changes (`Avatar.tsx:29-66`). Once the
  list holds six entries, every footstep shifts each position to a new index. All six
  puffs are then rebuilt with fresh draws, not just the newest. The model's
  `FootstepDust` is one puff spawned once, so it does not capture this.
- **Failed fetch:** a failed fetch overwrites its source's value with the fixed
  development fallback, whatever the value was before (`DataFetching.FailureOverwrites`).
- **Shared error:** the error field holds only the outcome of the most recent
  completion, whichever source it came from. A later success of another source clears
  it (`DataFetching.ErrorIsLastCompletion`, `SuccessClearsOtherError`).
- **Weather entry sound:** the calm sound plays only for the exact condition `"Clear"`.
  The weather endpoint never reports "Clear", so with live data the storm sound always
  plays (`WeatherDiorama.ServerConditionsAreStormy`).
- **Sun and moon:** the initial time of day, 0.5, is not past noon, so the moon shows
  until a report says it is day (`WeatherDiorama.InitialSkyIsNight`).
- **Crypto entry sound:** the crypto alert plays on every entry, even before any list
  has arrived. Its volume is then 0 (`CryptoTrendsDiorama.EnterVolumeByTrend`).
- **Particle reset:** a data particle that rises above `spread` restarts at height -0.1.
  That is below the range [0, spread/2) it was first drawn in
  (`DataParticles.Moved`, `DataParticles.Spawn`).
- **Particle material opacity:** the material's opacity starts at three.js's default of 1
  and is set to `fade * 0.8` on the first frame.
- **Crypto `useMemo`:** `CryptoTrendsDiorama.tsx:195` calls `useMemo` after the early
  return of line 181. A render with a list therefore calls one more hook than a render
  without one. Once the placeholder has been rendered, the first non-empty list makes
  React throw "Rendered more hooks than during the previous render". Nothing catches
  that error, so it takes down the canvas. The model does not capture this crash (see
  `CryptoTrendsDiorama.CryptoScene.OnData` under "Left out").

## Model

| member | source | states |
|---|---|---|
| Numeric.Clamp | client/src/components/dioramas/StockDiorama.tsx:67 | `Math.min(Math.max(x, lo), hi)`: lies in [lo, hi], is x inside the band, lo below it and hi above it |
| Numeric.ClampMonotone | client/src/components/dioramas/WeatherDiorama.tsx:78 | the clamp never reverses an order, so clamped quantities stay monotone |
| Numeric.CentredDrawBounds | client/src/components/effects/DataParticles.tsx:44 | `(Math.random() - 0.5) * w` lies in [-w/2, w/2], and below w/2 when w > 0 |
| Numeric.ScaledDrawBounds | client/src/components/effects/DataParticles.tsx:45 | `Math.random() * w` lies in [0, w], and below w when w > 0 |
| DataModel.OrZero | client/src/components/dioramas/StockDiorama.tsx:65 | `x \|\| 0` on an optional number: the value when present, 0 when missing |
| AudioStore.OrderIndex | client/src/lib/stores/useAudio.tsx:7-16 | every sound name has a position in the key order that `Object.values` follows |
| AudioStore.Play | client/src/lib/stores/useAudio.tsx:211 | `play()` leaves the Howl playing with one more play and changes nothing else about it |
| AudioStore.MapSounds | client/src/lib/stores/useAudio.tsx:179-181 | updating every non-null slot keeps the set of loaded slots and applies the update to each |
| AudioStore.Attenuation | client/src/lib/stores/useAudio.tsx:233-234 | the distance factor is at least 0, at most 1 for a real distance, and 0 from 20 units on |
| AudioStore.PositionalVolume | client/src/lib/stores/useAudio.tsx:233-237 | an instance's volume never exceeds 1 and is 0 from 20 units on |
| AudioStore.PositionalVolumeBounds | client/src/lib/stores/useAudio.tsx:233-237 | with non-negative volume and intensity, the positional volume lies in [0, volume * intensity] |
| AudioStore.PositionalVolumeFallsWithDistance | client/src/lib/stores/useAudio.tsx:230-237 | walking away never makes a positional sound louder |
| AudioStore.ScenarioOutOfEarshot | client/src/lib/stores/useAudio.tsx:233-237 | at 25 units a positional sound is silent, whatever the volume and intensity |
| AudioStore.Store.constructor | client/src/lib/stores/useAudio.tsx:42-55 | the initial store: muted, volume 0.5, no music, every slot null |
| AudioStore.Store.InitializeAudio | client/src/lib/stores/useAudio.tsx:57-117 | sets Howler's volume to the store's, loads all eight sounds with their asset paths, volumes and loop flags, and loads the music at 0.3, looping; nothing plays |
| AudioStore.Store.InitializeOnMount | client/src/components/dioramas/StockDiorama.tsx:33-37 | a diorama's mount effect initialises the audio only when the hit sound is missing, changes nothing otherwise, and always leaves the hit sound loaded |
| AudioStore.Store.SetBackgroundMusic | client/src/lib/stores/useAudio.tsx:119-138 | the old music is stopped; the new music is looping at 0.3 and plays at once exactly when the store is unmuted |
| AudioStore.Store.SetSound | client/src/lib/stores/useAudio.tsx:140-160 | only the named slot changes: its old Howl is stopped and a new one at volume 0.5 takes its place; every other slot is unchanged |
| AudioStore.Store.ForEachSound | client/src/lib/stores/useAudio.tsx:179-181 | the `forEach` over the eight slots in key order applies the update to exactly the non-null slots |
| AudioStore.Store.ToggleMute | client/src/lib/stores/useAudio.tsx:162-185 | flips the flag and pushes it to the music and to every loaded sound; unmuting starts music that is not playing; volume is untouched |
| AudioStore.Store.SetVolume | client/src/lib/stores/useAudio.tsx:187-200 | the master volume becomes v, the music's becomes 0.6 v and every loaded sound's becomes v |
| AudioStore.Store.PlaySound | client/src/lib/stores/useAudio.tsx:202-216 | plays exactly when the slot is loaded and the store is unmuted, first setting the given volume; otherwise nothing changes |
| AudioStore.Store.PlayPositionalSound | client/src/lib/stores/useAudio.tsx:218-261 | under the same gate, starts an instance at the attenuated volume and leaves the Howl's own volume alone |
| AudioStore.Store.PlayHit | client/src/lib/stores/useAudio.tsx:264-274 | plays the hit sound at volume 0.3 exactly when it is loaded and the store is unmuted |
| AudioStore.Store.PlaySuccess | client/src/lib/stores/useAudio.tsx:276-285 | plays the success sound at its current volume exactly when it is loaded and the store is unmuted |
| Proximity.DefaultConfig | client/src/hooks/useProximityEffect.tsx:20-28 | the default trigger distance 5, exit distance 7 and intensity 1, with the trigger inside the exit distance |
| Proximity.Step | client/src/hooks/useProximityEffect.tsx:50-71 | entry exactly when far and within the trigger distance; exit exactly when near and beyond the exit distance; no change in between; the cue needs an entry, a sound, an open latch and unmuted audio |
| Proximity.StepKeepsLatchConsistent | client/src/hooks/useProximityEffect.tsx:54-69 | the sound latch is only ever set while near |
| Proximity.CueOnEveryUnmutedEntry | client/src/hooks/useProximityEffect.tsx:59-63 | given that invariant, the latch is always open at an entry: the cue plays on every unmuted entry with a sound, and at no other time |
| Proximity.CallbacksAlternate | client/src/hooks/useProximityEffect.tsx:53-70 | over any run of frames `onEnter` and `onExit` strictly alternate, starting with `onExit` exactly when the detector starts near |
| Proximity.FirstCallbackIsEnter | client/src/hooks/useProximityEffect.tsx:29-56 | from the initial state the first callback is `onEnter` |
| Proximity.RunKeepsLatchConsistent | client/src/hooks/useProximityEffect.tsx:50-71 | the latch invariant holds after any run of frames |
| Proximity.DioramaDetector | client/src/components/dioramas/StockDiorama.tsx:40-43 | a diorama's detector (8 in, 12 out, no sound of its own) never plays a cue and changes nothing between 8 and 12 |
| Proximity.ProximityDetector.constructor | client/src/hooks/useProximityEffect.tsx:29-30 | both flags start false |
| Proximity.ProximityDetector.OnFrame | client/src/hooks/useProximityEffect.tsx:50-71 | the frame callback does what `Step` says, and plays the configured sound through the audio store exactly on a cue |
| DataFetching.ErrorMessage | client/src/hooks/useDataFetching.tsx:29-81 | each source has its own failure message, and the message determines the source |
| DataFetching.Received | client/src/hooks/useDataFetching.tsx:25-36 | a completed fetch leaves the server's data on success and the fallback on failure |
| DataFetching.WithFlag | client/src/hooks/useDataFetching.tsx:20 | `{...prev, [s]: b}` sets one loading flag and keeps the other two |
| DataFetching.Begin | client/src/hooks/useDataFetching.tsx:18-22 | starting a fetch raises only its own loading flag and leaves every value unchanged |
| DataFetching.Complete | client/src/hooks/useDataFetching.tsx:18-94 | a completion replaces its source's value (data or fallback), clears or sets the shared error, lowers only its own flag and leaves the other sources alone |
| DataFetching.FailureOverwrites | client/src/hooks/useDataFetching.tsx:27-90 | a failure replaces any earlier value with the fixed fallback |
| DataFetching.ErrorIsLastCompletion | client/src/hooks/useDataFetching.tsx:26-81 | after any run of completions the error is that of the last one, whatever came before |
| DataFetching.SuccessClearsOtherError | client/src/hooks/useDataFetching.tsx:26-54 | a stock success after a weather failure clears the error; in the other order the weather message stays |
| DataFetching.SourcesAreIndependent | client/src/hooks/useDataFetching.tsx:18-94 | what a source holds after any interleaving of completions is what its own completions alone would leave |
| DataFetching.LoadingAfterRun | client/src/hooks/useDataFetching.tsx:20-38 | a source's flag is down once any of its completions arrives, and untouched if none does |
| DataFetching.BeginAll | client/src/hooks/useDataFetching.tsx:97-101 | `fetchAllData` raises all three flags and changes no value and not the error |
| DataFetching.RoundEndsIdle | client/src/hooks/useDataFetching.tsx:97-101 | once every source has completed, in any order, no flag is up |
| DataFetching.HexDigit | client/src/hooks/useDataFetching.tsx:47 | each of the 16 values has an upper-case hex digit (`0-9` or `A-F`) that reads back as that value |
| DataFetching.EncodeChar | client/src/hooks/useDataFetching.tsx:47 | `encodeURIComponent` keeps an unreserved character and writes any other ASCII character as `%XY`, whose hex digits read back as its code |
| DataFetching.DecodeEncode | client/src/hooks/useDataFetching.tsx:47 | percent-decoding the encoded location gives back the location |
| DataFetching.UnreservedUnchanged | client/src/hooks/useDataFetching.tsx:47 | a location of unreserved characters goes out unchanged |
| DataFetching.EncodeAppend | client/src/hooks/useDataFetching.tsx:47 | encoding distributes over concatenation |
| DataFetching.SpaceEncoded | client/src/hooks/useDataFetching.tsx:47 | two unreserved words joined by a space go out with only the space escaped, as `%20` |
| DataFetching.LocationEncoded | client/src/hooks/useDataFetching.tsx:43-47 | "New York" is sent as "New%20York" |
| DataFetching.DefaultWeatherPath | client/src/hooks/useDataFetching.tsx:43-47 | the default request path is `/api/weather?location=New%20York` |
| DataFetching.DataFetchingHook.constructor | client/src/hooks/useDataFetching.tsx:7-15 | no values, no flag up, no error |
| DataFetching.DataFetchingHook.Start | client/src/hooks/useDataFetching.tsx:18-22 | the part of a fetch before its first `await` is `Begin` |
| DataFetching.DataFetchingHook.Finish | client/src/hooks/useDataFetching.tsx:23-39 | the `try`/`catch`/`finally` after the request is `Complete` |
| DataFetching.DataFetchingHook.FetchAllData | client/src/hooks/useDataFetching.tsx:97-101 | the three starts in a row are `BeginAll` |
| DataStore.Synced | client/src/lib/stores/useDataStore.tsx:88-114 | the copy effects write each value only when the hook holds one, mirror loading and error, and install the hook's `fetchAllData` |
| DataStore.SyncNeverClears | client/src/lib/stores/useDataStore.tsx:88-104 | a store value, once set, is never cleared by a sync |
| DataStore.SyncIdempotent | client/src/lib/stores/useDataStore.tsx:88-114 | a second sync from the same hook state changes nothing |
| DataStore.StepKeepsBehind | client/src/lib/stores/useDataStore.tsx:88-104 | no start, completion or sync puts a value in the store that the hook does not have, or clears one |
| DataStore.StepsKeepBehind | client/src/lib/stores/useDataStore.tsx:88-104 | over any sequence of events from mount, the store stays behind the hook and keeps what it has received |
| DataStore.SyncMirrors | client/src/lib/stores/useDataStore.tsx:88-114 | right after a sync the store shows exactly the hook's values, flags and error, whatever happened before |
| DataStore.PollTimes | client/src/lib/stores/useDataStore.tsx:73-85 | by time t, `fetchAllData` has been called at 0, 3000, 6000, ...: t/3000 + 1 calls, all at or before t, the next one after t |
| DataStore.Store.constructor | client/src/lib/stores/useDataStore.tsx:42-51 | the initial store: no values, no flag up, no error, the empty `fetchAllData` |
| DataStore.Store.SetStockData | client/src/lib/stores/useDataStore.tsx:52 | sets the stock value and nothing else |
| DataStore.Store.SetWeatherData | client/src/lib/stores/useDataStore.tsx:53 | sets the weather value and nothing else |
| DataStore.Store.SetCryptoData | client/src/lib/stores/useDataStore.tsx:54 | sets the crypto list and nothing else |
| DataStore.Store.FetchAllData | client/src/lib/stores/useDataStore.tsx:55-58 | the store's `fetchAllData` does nothing until the hook's is installed, and is then the hook's |
| DataStore.Store.SyncFrom | client/src/lib/stores/useDataStore.tsx:88-114 | `DataFetcher`'s effects after a render leave the store `Synced` with the hook |
| DataStore.Mount | client/src/lib/stores/useDataStore.tsx:73-77 | the polling effect fetches at once on mount |
| DataParticles.IntensityExtremes | client/src/components/effects/DataParticles.tsx:54 | at intensity 1 or more every particle is active; at 0 or less none is |
| DataParticles.ActiveFormsPrefix | client/src/components/effects/DataParticles.tsx:54 | the active particles are always a prefix of the list |
| DataParticles.Spawn | client/src/components/effects/DataParticles.tsx:44-56 | a particle starts inside the spread box (x and z in [-s/2, s/2), y in [0, s/2)), with a small upward velocity, active exactly by the index rule |
| DataParticles.Generate | client/src/components/effects/DataParticles.tsx:41-59 | the memo loop builds `count` particles, particle i drawn from its six draws, and the active ones follow the rule |
| DataParticles.InitialOpacity | client/src/components/effects/DataParticles.tsx:75 | an active particle starts at an opacity in [0.5, 1), an inactive one at 0 |
| DataParticles.BuildGeometry | client/src/components/effects/DataParticles.tsx:62-82 | two fresh, separate buffers: particle i's position in entries 3i to 3i+2, its starting opacity in entry i |
| DataParticles.Moved | client/src/components/effects/DataParticles.tsx:140-161 | an inactive particle stays put; an active one moves by velocity times speed plus the sway, or, if that takes it above `spread`, restarts at -0.1 inside the x/z square; it is never above `spread` |
| DataParticles.PulseOpacity | client/src/components/effects/DataParticles.tsx:158-160 | an active particle pulses between 0.5 and 1, an inactive one is 0 |
| DataParticles.FadeFactor | client/src/components/effects/DataParticles.tsx:174 | 1 up to distance 5, a linear fade to 0 at 5 + fadeDistance, and always in [0, 1] |
| DataParticles.FadeMonotone | client/src/components/effects/DataParticles.tsx:169-175 | moving the camera away never makes the cloud more opaque |
| DataParticles.ParticleCloud.constructor | client/src/components/effects/DataParticles.tsx:26-82 | mounting generates the particles and builds the buffers from them; the material starts at opacity 1 |
| DataParticles.ParticleCloud.OnFrame | client/src/components/effects/DataParticles.tsx:127-176 | every particle's three entries become its `Moved` point, every opacity its pulse, and the material opacity `fade * 0.8`, in [0, 0.8] |
| DataParticles.MoveActive | client/src/components/effects/DataParticles.tsx:140-155 | the in-place update of one active particle gives its `Moved` point and touches no other entry |
| DataParticles.FrameBounds | client/src/components/effects/DataParticles.tsx:140-161 | after a frame every active particle is at most `spread` high, reset particles sit at -0.1 inside the square, inactive ones are where they were |
| DataParticles.FrameOpacities | client/src/components/effects/DataParticles.tsx:157-161 | after a frame active opacities lie in [0.5, 1] and inactive ones are 0 |
| StockDiorama.ActivityLevel | client/src/components/dioramas/StockDiorama.tsx:65-67 | the activity level always lies in [0.1, 1] |
| StockDiorama.ActivityLevelBands | client/src/components/dioramas/StockDiorama.tsx:65-67 | it is \|pc\|/5 for moves between 0.5% and 5%, 0.1 for smaller moves, 1 for larger ones |
| StockDiorama.BaseColour | client/src/components/dioramas/StockDiorama.tsx:70-74 | green exactly when the change is not negative, red otherwise |
| StockDiorama.ApplyData | client/src/components/dioramas/StockDiorama.tsx:60-76 | without a quote the refs keep their values; with one they hold its activity and colour |
| StockDiorama.ApplyDataIdempotent | client/src/components/dioramas/StockDiorama.tsx:60-76 | the effect is idempotent and does not depend on what the refs held before |
| StockDiorama.ZeroChangeIsQuietGreen | client/src/components/dioramas/StockDiorama.tsx:65-74 | a zero or missing change gives the floor activity 0.1, and zero gives green |
| StockDiorama.ScenarioSmallRise | client/src/components/dioramas/StockDiorama.tsx:65-74 | a 1.2% rise gives activity 0.24 and green |
| StockDiorama.EnterCue | client/src/components/dioramas/StockDiorama.tsx:44-53 | a sound exactly when the change is present and non-zero: `stockUp` for a positive change, `stockDown` for a negative one, at min(\|pc\|/5, 1) |
| StockDiorama.HeightFactor | client/src/components/dioramas/StockDiorama.tsx:161-162 | between 0.3 and 3 for a truthy price, price/300 inside that band, 1 without a price |
| StockDiorama.BuildingScale | client/src/components/dioramas/StockDiorama.tsx:89-90 | building i's pulse stays within 10% of its base scale 0.5 + 0.25 i |
| StockDiorama.LineHeight | client/src/components/dioramas/StockDiorama.tsx:202 | each hologram line is between 0.1 and 0.5 tall, plus 0.03 per percent of change |
| StockDiorama.ParticleSpeed | client/src/components/dioramas/StockDiorama.tsx:227 | `0.2 * (activity \|\| 0.5)`: 0.1 for a zero activity, between 0.02 and 0.2 for a real one |
| StockDiorama.StockScene.constructor | client/src/components/dioramas/StockDiorama.tsx:26-30 | activity 0, green, tooltip hidden |
| StockDiorama.StockScene.OnEnter | client/src/components/dioramas/StockDiorama.tsx:44-53 | shows the tooltip and plays the entry cue through the audio store |
| StockDiorama.StockScene.OnExit | client/src/components/dioramas/StockDiorama.tsx:54-56 | hides the tooltip |
| StockDiorama.StockScene.OnData | client/src/components/dioramas/StockDiorama.tsx:60-76 | a new quote and the effect that follows it |
| StockDiorama.StockScene.OnFrame | client/src/components/dioramas/StockDiorama.tsx:79-110 | without a quote nothing moves; with one the group turns 0.002 and the hologram 0.01 times the activity, and the group sits at its anchor plus `sin(3t) * 0.01 * activity` while the player is near and at its anchor otherwise, so within 0.01 of it |
| WeatherDiorama.Lower | client/src/components/dioramas/WeatherDiorama.tsx:72 | `toLowerCase` keeps the length and lower-cases each ASCII letter |
| WeatherDiorama.IncludesIff | client/src/components/dioramas/WeatherDiorama.tsx:72 | `includes` finds a text exactly when it occurs at some position |
| WeatherDiorama.NoLeadingPair | client/src/components/dioramas/WeatherDiorama.tsx:72 | a text in which the first two letters of t are never adjacent does not include t |
| WeatherDiorama.RainIsCaseBlind | client/src/components/dioramas/WeatherDiorama.tsx:72 | rain is recognised in any letter case: exactly when "rain" occurs in the lower-cased condition |
| WeatherDiorama.RainScenarios | client/src/components/dioramas/WeatherDiorama.tsx:72 | "Rainy" and "Light RAIN" are rain; "Sunny" is not |
| WeatherDiorama.PartlyCloudyIsDry | client/src/components/dioramas/WeatherDiorama.tsx:72 | "Partly Cloudy" is not rain |
| WeatherDiorama.ThunderstormIsDry | client/src/components/dioramas/WeatherDiorama.tsx:72 | "Thunderstorm" is not rain |
| WeatherDiorama.Cloudiness | client/src/components/dioramas/WeatherDiorama.tsx:73 | cloud cover as a fraction, in [0, 1] for a percentage |
| WeatherDiorama.NormalisedTemperature | client/src/components/dioramas/WeatherDiorama.tsx:76-78 | always in [0, 1]: 0 at or below -10 degrees, 1 at or above 40, linear between |
| WeatherDiorama.NormalisedTemperatureMonotone | client/src/components/dioramas/WeatherDiorama.tsx:76-78 | a warmer report never gives a lower value |
| WeatherDiorama.TimeOfDay | client/src/components/dioramas/WeatherDiorama.tsx:81-83 | 0.8 by day, 0.2 by night, unchanged when the report does not say |
| WeatherDiorama.Activity | client/src/components/dioramas/WeatherDiorama.tsx:86-89 | at least 0.8 times the cloudiness and 1.6 times the distance of the temperature from 0.5, and at most 0.8 |
| WeatherDiorama.ParticleColour | client/src/components/dioramas/WeatherDiorama.tsx:92-100 | blue for rain; otherwise warm exactly above 0.7, cool exactly below 0.3, neutral between |
| WeatherDiorama.ApplyData | client/src/components/dioramas/WeatherDiorama.tsx:68-102 | without a report the refs keep their values; with one each ref holds its rule's value |
| WeatherDiorama.ApplyDataIdempotent | client/src/components/dioramas/WeatherDiorama.tsx:68-102 | a second run on the same report changes nothing |
| WeatherDiorama.ScenarioMildPartlyCloudy | client/src/components/dioramas/WeatherDiorama.tsx:68-102 | the fallback report gives cloudiness 0.4, temperature 0.64, activity 0.32, day, neutral colour |
| WeatherDiorama.TerrainBand | client/src/components/dioramas/WeatherDiorama.tsx:186-195 | cold exactly below 0.33, hot exactly from 0.66 |
| WeatherDiorama.TerrainBandMonotone | client/src/components/dioramas/WeatherDiorama.tsx:186-195 | warmer weather never moves the terrain to a colder band |
| WeatherDiorama.SunMoonGlow | client/src/components/dioramas/WeatherDiorama.tsx:162-178 | a yellow sun after noon and a pale moon otherwise, each brighter while the player is near |
| WeatherDiorama.InitialSkyIsNight | client/src/components/dioramas/WeatherDiorama.tsx:35 | before any report says it is day, the moon shows |
| WeatherDiorama.CloudScale | client/src/components/dioramas/WeatherDiorama.tsx:121-122 | cloud scale in [0.2, 0.5] |
| WeatherDiorama.CloudOpacity | client/src/components/dioramas/WeatherDiorama.tsx:126 | cloud opacity in [0.5, 1] |
| WeatherDiorama.CloudsGrowWithCloudiness | client/src/components/dioramas/WeatherDiorama.tsx:121-126 | more cloud never gives smaller or fainter clouds |
| WeatherDiorama.LabelColour | client/src/components/dioramas/WeatherDiorama.tsx:245-248 | orange above 25 degrees, green above 15, blue otherwise |
| WeatherDiorama.ParticleField | client/src/components/dioramas/WeatherDiorama.tsx:348-370 | above 50% cloud, 150 misty particles at the cloudiness; otherwise 80 light ones, yellowish exactly by day |
| WeatherDiorama.EnterCue | client/src/components/dioramas/WeatherDiorama.tsx:51-61 | a sound exactly when there is a report: calm at 0.7 exactly for "Clear", storm at min(cloud/100, 1) otherwise |
| WeatherDiorama.ServerConditionsAreStormy | client/src/components/dioramas/WeatherDiorama.tsx:54-58 | for every condition the weather endpoint can report, the storm sound is chosen |
| WeatherDiorama.FallSpeed | client/src/components/dioramas/WeatherDiorama.tsx:139 | at least 0.1, and at most 0.26 for a diorama's activity |
| WeatherDiorama.FallDrop | client/src/components/dioramas/WeatherDiorama.tsx:141-149 | a drop falls by the fall speed, or restarts at height 3 above a random point once below ground |
| WeatherDiorama.FallDropStaysInBox | client/src/components/dioramas/WeatherDiorama.tsx:141-149 | a drop never leaves the rain box |
| WeatherDiorama.InitRain | client/src/components/dioramas/WeatherDiorama.tsx:290-308 | the initial buffer holds 200 drops spread over the box |
| WeatherDiorama.RainFrame | client/src/components/dioramas/WeatherDiorama.tsx:139-150 | the in-place loop gives every drop its `FallDrop` |
| WeatherDiorama.RainFrameStaysInBox | client/src/components/dioramas/WeatherDiorama.tsx:139-150 | a rain frame keeps the whole buffer inside the box |
| WeatherDiorama.WeatherScene.constructor | client/src/components/dioramas/WeatherDiorama.tsx:29-37 | the initial refs (time of day 0.5, activity 0.5, rain blue) and a rain buffer inside the box |
| WeatherDiorama.WeatherScene.OnData | client/src/components/dioramas/WeatherDiorama.tsx:68-102 | a new report and the effect that follows it |
| WeatherDiorama.WeatherScene.OnEnter | client/src/components/dioramas/WeatherDiorama.tsx:51-61 | shows the tooltip and plays the entry cue through the audio store |
| WeatherDiorama.WeatherScene.OnExit | client/src/components/dioramas/WeatherDiorama.tsx:62-64 | hides the tooltip |
| WeatherDiorama.WeatherScene.OnFrame | client/src/components/dioramas/WeatherDiorama.tsx:105-209 | without a report nothing moves; with one the group turns, rain shows exactly while raining, every drop falls in place and stays in the box, the terrain takes its band's colour, and the group bobs only while the player is near |
| CryptoTrendsDiorama.Average | client/src/components/dioramas/CryptoTrendsDiorama.tsx:68-70 | the average times the number of coins is the sum of the changes |
| CryptoTrendsDiorama.SumWithin | client/src/components/dioramas/CryptoTrendsDiorama.tsx:68-70 | the sum of n changes in [lo, hi] lies in [n lo, n hi] |
| CryptoTrendsDiorama.AverageWithin | client/src/components/dioramas/CryptoTrendsDiorama.tsx:68-70 | the average lies between the smallest and the largest change |
| CryptoTrendsDiorama.Trend | client/src/components/dioramas/CryptoTrendsDiorama.tsx:73 | 1, -1 or 0 exactly as the average is positive, negative or zero |
| CryptoTrendsDiorama.Intensity | client/src/components/dioramas/CryptoTrendsDiorama.tsx:76-77 | in [0, 1]: 0 from -20 down, 1 from 20 up, linear between, above 0.5 exactly for a positive average |
| CryptoTrendsDiorama.IntensityMonotone | client/src/components/dioramas/CryptoTrendsDiorama.tsx:76-77 | a better average never lowers the intensity |
| CryptoTrendsDiorama.MagicColour | client/src/components/dioramas/CryptoTrendsDiorama.tsx:80-86 | blue-purple on a rise, red-purple otherwise, lighter with intensity |
| CryptoTrendsDiorama.RisingIsLighter | client/src/components/dioramas/CryptoTrendsDiorama.tsx:76-86 | a rising market is always drawn lighter (above 0.65) than a flat or falling one (at most 0.45) |
| CryptoTrendsDiorama.ApplyData | client/src/components/dioramas/CryptoTrendsDiorama.tsx:64-88 | a missing or empty list changes nothing; otherwise trend, intensity and colour follow the average |
| CryptoTrendsDiorama.ScenarioFallbackList | client/src/components/dioramas/CryptoTrendsDiorama.tsx:64-88 | the fallback list averages 0.46: an upward trend at intensity 0.5115 |
| CryptoTrendsDiorama.VolatileAfterIsEarliestMax | client/src/components/dioramas/CryptoTrendsDiorama.tsx:198-202 | the reduce holds the first coin of largest magnitude seen so far |
| CryptoTrendsDiorama.MostVolatile | client/src/components/dioramas/CryptoTrendsDiorama.tsx:195-203 | null exactly for a missing or empty list; otherwise the earliest coin of largest \|change\| |
| CryptoTrendsDiorama.ParticleSize | client/src/components/dioramas/CryptoTrendsDiorama.tsx:364 | at least 0.05, and exactly 0.05 with no list |
| CryptoTrendsDiorama.EnterVolume | client/src/components/dioramas/CryptoTrendsDiorama.tsx:47-57 | min(1.5 i, 1) on an upward trend, min(i, 0.7) otherwise, in [0, 1] |
| CryptoTrendsDiorama.EnterVolumeByTrend | client/src/components/dioramas/CryptoTrendsDiorama.tsx:47-57 | after a list a rising market sounds above 0.75 and any other at its intensity, at most 0.5; before any list the volume is 0 |
| CryptoTrendsDiorama.PriceScale | client/src/components/dioramas/CryptoTrendsDiorama.tsx:258-260 | between 0.5 and 1.5 for a truthy price, price/30000 inside that band, 1 without a price |
| CryptoTrendsDiorama.CrystalGlow | client/src/components/dioramas/CryptoTrendsDiorama.tsx:117-118 | crystal glow in [0.3, 1.3] for an intensity in [0, 1] |
| CryptoTrendsDiorama.NearnessRaisesGlow | client/src/components/dioramas/CryptoTrendsDiorama.tsx:117-118 | the glow while the player is near is the glow while far plus exactly 0.3, and the far glow lies in [0.3, 1] |
| CryptoTrendsDiorama.ParticleSpeed | client/src/components/dioramas/CryptoTrendsDiorama.tsx:363 | `0.3 * (i \|\| 0.5)`: 0.15 for a zero intensity; for any intensity in [0, 1] positive and at most 0.3 |
| CryptoTrendsDiorama.SpiralHeightBounds | client/src/components/dioramas/CryptoTrendsDiorama.tsx:146-160 | every spiral particle's height lies within 0.1 (1 + i) of the layers [-1.5, 1.35] |
| CryptoTrendsDiorama.SpiralFrame | client/src/components/dioramas/CryptoTrendsDiorama.tsx:146-160 | the in-place loop puts every particle at its spiral point |
| CryptoTrendsDiorama.CryptoScene.constructor | client/src/components/dioramas/CryptoTrendsDiorama.tsx:30-32 | intensity 0, colour 0x7755ff, trend 0 |
| CryptoTrendsDiorama.CryptoScene.OnData | client/src/components/dioramas/CryptoTrendsDiorama.tsx:64-88 | a new list and the effect that follows it |
| CryptoTrendsDiorama.CryptoScene.OnEnter | client/src/components/dioramas/CryptoTrendsDiorama.tsx:47-57 | shows the tooltip and always plays the crypto alert at the trend's volume |
| CryptoTrendsDiorama.CryptoScene.OnExit | client/src/components/dioramas/CryptoTrendsDiorama.tsx:58-60 | hides the tooltip |
| CryptoTrendsDiorama.CryptoScene.OnFrame | client/src/components/dioramas/CryptoTrendsDiorama.tsx:91-178 | without a list nothing moves; with one the group and rune circle turn by their intensity-driven steps, the spiral is rewritten, and the group bobs only while the player is near |
| Avatar.ShortestTurn | client/src/components/Avatar.tsx:186-190 | the wrap loops give a difference in [-pi, pi] that is a whole number of turns from the input, and leave one already in range alone |
| Avatar.WrappedIsShortest | client/src/components/Avatar.tsx:186-190 | an angle in [-pi, pi] is no longer than any angle a whole number of turns away |
| Avatar.TurnIsShortest | client/src/components/Avatar.tsx:186-193 | so the wrapped difference is the shortest rotation to the target |
| Avatar.ScenarioMinusSix | client/src/components/Avatar.tsx:186-190 | -6 wraps by exactly one turn, to a positive angle |
| Avatar.TurnApproachesTarget | client/src/components/Avatar.tsx:193 | with 5 delta at most 1 a turn closes the gap without overshooting |
| Avatar.SelectTarget | client/src/components/Avatar.tsx:168-178 | face the movement direction while moving with a non-zero direction, the camera turned half a turn on the first idle frame, else keep the heading |
| Avatar.IdleHeadingLatches | client/src/components/Avatar.tsx:174-178 | once stopped, the first idle frame's camera fixes the heading until the avatar walks again |
| Avatar.MovingPose | client/src/components/Avatar.tsx:197-212 | a walking frame advances both clocks, bounces the body by \|sin\| 0.1 and swings mirrored limbs by sin 0.4 |
| Avatar.IdlePose | client/src/components/Avatar.tsx:235-244 | an idle frame puts body and head at rest and damps every limb, keeping its sign and the pose invariant |
| Avatar.IdleDecay | client/src/components/Avatar.tsx:241-244 | after n idle frames every limb swing is its old value times 0.9^n |
| Avatar.AddDust | client/src/components/Avatar.tsx:151-156 | a footstep appends its position, dropping the oldest entry when the list already held more than five |
| Avatar.DustKeepsLatest | client/src/components/Avatar.tsx:151-156 | from at most six entries, the dust list holds min(old length + steps, 6) entries, never more than six, and they are the latest positions in order |
| Avatar.DustReachesSix | client/src/components/Avatar.tsx:154-156 | from no dust, six footsteps keep all six |
| Avatar.SeventhStepDropsOldest | client/src/components/Avatar.tsx:154-156 | a footstep on a full list drops the oldest entry |
| Avatar.FootstepsAreSpaced | client/src/components/Avatar.tsx:146-158 | footsteps are always more than 350 ms apart |
| Avatar.AvatarRig.constructor | client/src/components/Avatar.tsx:135-142 | no dust, no footstep yet, heading 0, not facing the camera |
| Avatar.AvatarRig.OnMoveEffect | client/src/components/Avatar.tsx:145-160 | a footstep happens exactly when one is due: a hit sound at 0.1 through the audio store, a dust entry and a new step time |
| Avatar.AvatarRig.OnFrame | client/src/components/Avatar.tsx:163-244 | chooses the heading, turns by the wrapped difference, and poses the body, keeping the pose invariant |
| Avatar.Spawn | client/src/components/Avatar.tsx:39-65 | a dust particle starts within 0.25 of the footstep, with small velocities and a lifetime in [1, 2) |
| Avatar.ParticleStep | client/src/components/Avatar.tsx:79-92 | it ages by delta; while alive it moves by its velocity and gravity slows its rise |
| Avatar.Opacity | client/src/components/Avatar.tsx:94-109 | opacity lies in [0, 0.6]: 0.6 when new, 0 once dead |
| Avatar.OpacityFades | client/src/components/Avatar.tsx:94-98 | an older particle is never more opaque |
| Avatar.DustScale | client/src/components/Avatar.tsx:102-103 | `1 + age / maxAge`, which lies in [1, 2) while the particle is alive |
| Avatar.DustScaleGrows | client/src/components/Avatar.tsx:102-103 | an older puff is never smaller |
| Avatar.FootstepDust.constructor | client/src/components/Avatar.tsx:29-66 | ten particles, each spawned from its six draws |
| Avatar.FootstepDust.OnFrame | client/src/components/Avatar.tsx:70-112 | every particle takes one step in place |

## Left out

- **Rendering:** meshes, materials other than the modelled opacities and colours, JSX
  layout, text labels other than the temperature label colour, shaders, lights and
  tooltips beyond their visibility flag. These are drawing, not logic.
- **Sin/cos-driven motion:** the cloud orbits, the sun and moon position, the crystals'
  bobbing and pulse scale, the orb pulse, the rune tilt and the avatar's eyes are left
  out. They are direct calls of `Math.sin`, `Math.cos` or `normalize` with no state and
  no rule beyond their formulas.
- **Stereo panning and `pos`:** these are left out of `PlayPositionalSound`. They are
  calls into Howler's spatial API, whose effect the model cannot see.
- **`console` output, `try`/`catch` around Howler calls and `onloaderror`:** left out;
  logging and library error paths have no effect on the modelled state.
- **Audio engine:** Howler's playback and the `html5` and `preload` options are left out.
  A Howl is its source, volume, mute flag, loop flag, playing flag and play count.
- **React scheduling:** state updates take effect at once. Batching, stale closures,
  effect ordering within a render and the async interleaving inside one event-loop turn
  are not modelled. `DataStore.Step` treats all of `DataFetcher`'s effects as one `Sync`
  event.
- **Timers:** `setInterval` and `clearInterval` are left out. `DataStore.PollTimes`
  states when the polls happen, and each poll is a further `fetchAllData` call.
- **`fetch` and `response.json()`:** these are the `Completion` input. The server's
  routes are not part of this model. Fetched data is assumed to be well-formed and
  non-null.
- **`fetchStockData`, `fetchWeatherData` and `fetchCryptoData` called separately:** each
  is a `Start` followed by a `Finish`, which the model covers. The weather fetch with a
  location other than the default is covered by `WeatherPath`, for ASCII locations only.
- **DataFetching.EncodeChar:** only ASCII is modelled. `encodeURIComponent` would
  UTF-8-encode other characters.
- **WeatherDiorama.LowerChar:** only the ASCII letters are lowered, not the full Unicode
  case mapping of `toLowerCase`.
- **Buffers recreated each render:** the rain buffer and the spiral buffer are rebuilt
  whenever the JSX re-renders. The model keeps one buffer per scene, built once. The
  initial spiral of `CryptoTrendsDiorama.tsx:312-334` is not modelled apart from its
  size.
- **WeatherDiorama.RainFrame:** it models rain that persists from frame to frame. In the
  code, every frame calls `setTerrainColor` with a fresh `THREE.Color`
  (`WeatherDiorama.tsx:198`), so the diorama re-renders every frame. Each render passes a
  newly drawn array from lines 290-308 to the rain geometry. The drop positions the
  frame loop writes therefore last about one frame, which the model does not capture.
- **DataParticles.ParticleCloud.OnFrame:** positions are `real`, not rounded to
  `Float32Array` precision. The early return when `points` is not mounted is left out.
  The `Math.random()` draws of a reset are taken as particle i's `Wave.rx` and `Wave.rz`
  in every frame.
- **DataParticles.ParticleCloud.constructor:** it requires `fadeDistance > 0`. The
  source divides by it, and every caller uses the default of 15.
- **DataParticles:** the colour uniform and its effect are left out.
- **StockDiorama.StockScene.OnFrame:** the building pulse and the building colour copy
  are stated per building by `BuildingScale` and `BaseColour`. They are not written into
  the scene's state.
- **WeatherDiorama.WeatherScene.OnFrame:** the cloud scale and opacity and the sun and
  moon glow are stated by `CloudScale`, `CloudOpacity` and `SunMoonGlow`. They are not
  written into the scene's state.
- **CryptoTrendsDiorama.CryptoScene.OnFrame:** the crystal glow is stated by
  `CrystalGlow`. It is not written into the scene's state.
- **Avatar.AvatarRig.OnMoveEffect:** one `now` input stands for both reads of
  `performance.now()`: the 350 ms test at `Avatar.tsx:146` and the assignment at line
  158. The second read is never earlier than the first, so only the recorded step time
  can differ slightly.
- **Avatar.AvatarRig.OnFrame:** the eye rotation (`atan2` of a normalised camera
  direction) and the eye positions are left out. The frame does not check for null refs.
- **CryptoTrendsDiorama.CryptoScene.OnData:** after a placeholder render, the first
  non-empty list makes React throw, because of the `useMemo` after the early return
  (`CryptoTrendsDiorama.tsx:181,195`), and the diorama never reaches the mounted state.
  The model continues as if the hook were called on every render. `OnData` makes the
  scene mounted, and `OnFrame` then turns it and rewrites the spiral.
- **Avatar.FootstepDust.OnFrame:** it updates the particle records only. The per-frame
  `MeshBasicMaterial` is represented by `Opacity` and `DustScale` of the updated record.
- **Player controls, camera, ground, environment, UI panels and the model uploader:**
  not part of this model.
