/**
  The shared data store and the `DataFetcher` component that feeds it from
  the fetching hook: the store's initial state and setters, the copy of the
  hook's values into the store (non-null values only), the mirrored loading
  and error fields, the installed `fetchAllData`, and the polling schedule.
*/
module DataStore {
  import opened Numeric
  import opened DataModel
  import DataFetching

  datatype StoreState = StoreState(
    stockData: Option<StockData>,
    weatherData: Option<WeatherData>,
    cryptoData: Option<seq<CryptoData>>,
    isLoading: Loading,
    error: Option<string>,
    fetcherInstalled: bool)  // false while `fetchAllData` is still the store's empty default

  const InitialStore: StoreState := StoreState(None, None, None, NotLoading, None, false)

  /** What the `DataFetcher` effects write into the store after a render with hook
      state `h`: each value only when the hook holds one, loading and error as they are,
      and the hook's `fetchAllData` in place of the default. */
  function Synced(st: StoreState, h: DataFetching.Hook): (r: StoreState)
    ensures h.stockData.Some? ==> r.stockData == h.stockData
    ensures h.stockData.None? ==> r.stockData == st.stockData
    ensures h.weatherData.Some? ==> r.weatherData == h.weatherData
    ensures h.weatherData.None? ==> r.weatherData == st.weatherData
    ensures h.cryptoData.Some? ==> r.cryptoData == h.cryptoData
    ensures h.cryptoData.None? ==> r.cryptoData == st.cryptoData
    ensures r.isLoading == h.isLoading && r.error == h.error && r.fetcherInstalled
  {
    StoreState(
      if h.stockData.Some? then h.stockData else st.stockData,
      if h.weatherData.Some? then h.weatherData else st.weatherData,
      if h.cryptoData.Some? then h.cryptoData else st.cryptoData,
      h.isLoading, h.error, true)
  }

  /** A store value, once set, is never cleared by a sync. */
  lemma SyncNeverClears(st: StoreState, h: DataFetching.Hook)
    ensures st.stockData.Some? ==> Synced(st, h).stockData.Some?
    ensures st.weatherData.Some? ==> Synced(st, h).weatherData.Some?
    ensures st.cryptoData.Some? ==> Synced(st, h).cryptoData.Some?
  {
  }

  /** Syncing twice from the same hook state is syncing once. */
  lemma SyncIdempotent(st: StoreState, h: DataFetching.Hook)
    ensures Synced(Synced(st, h), h) == Synced(st, h)
  {
  }

  // ---------------------------------------------------------------------------
  // The hook and the store together
  // ---------------------------------------------------------------------------

  /** The app's data plumbing: the hook inside `DataFetcher` and the store. */
  datatype Plumbing = Plumbing(hook: DataFetching.Hook, store: StoreState)

  const InitialPlumbing: Plumbing := Plumbing(DataFetching.InitialHook, InitialStore)

  /** What can happen next: a fetch starts, a fetch completes, or `DataFetcher`'s
      effects run after a render. */
  datatype Event =
    | Start(source: DataFetching.Source)
    | Finish(completion: DataFetching.Completion)
    | Sync

  function Step(p: Plumbing, e: Event): Plumbing {
    match e
    case Start(s) => p.(hook := DataFetching.Begin(p.hook, s))
    case Finish(c) => p.(hook := DataFetching.Complete(p.hook, c))
    case Sync => p.(store := Synced(p.store, p.hook))
  }

  function Steps(p: Plumbing, es: seq<Event>): Plumbing
    decreases |es|
  {
    if es == [] then p else Steps(Step(p, es[0]), es[1..])
  }

  /** The store never holds a value the hook does not: where the hook is still empty,
      so is the store. */
  predicate Behind(p: Plumbing) {
    && (p.hook.stockData.None? ==> p.store.stockData.None?)
    && (p.hook.weatherData.None? ==> p.store.weatherData.None?)
    && (p.hook.cryptoData.None? ==> p.store.cryptoData.None?)
  }

  /** Every event keeps the store behind the hook, and never clears a store value. */
  lemma StepKeepsBehind(p: Plumbing, e: Event)
    requires Behind(p)
    ensures Behind(Step(p, e))
    ensures p.store.stockData.Some? ==> Step(p, e).store.stockData.Some?
    ensures p.store.weatherData.Some? ==> Step(p, e).store.weatherData.Some?
    ensures p.store.cryptoData.Some? ==> Step(p, e).store.cryptoData.Some?
  {
  }

  /** From mount on, whatever happens, the store stays behind the hook and a value the
      store has received stays there. */
  lemma {:induction false} StepsKeepBehind(p: Plumbing, es: seq<Event>)
    requires Behind(p)
    ensures Behind(Steps(p, es))
    ensures p.store.stockData.Some? ==> Steps(p, es).store.stockData.Some?
    ensures p.store.weatherData.Some? ==> Steps(p, es).store.weatherData.Some?
    ensures p.store.cryptoData.Some? ==> Steps(p, es).store.cryptoData.Some?
    decreases |es|
  {
    if es != [] {
      StepKeepsBehind(p, es[0]);
      StepsKeepBehind(Step(p, es[0]), es[1..]);
    }
  }

  /** Right after a sync the store shows exactly the hook's values, loading flags and
      error, whatever happened before. */
  lemma {:induction false} SyncMirrors(es: seq<Event>)
    ensures var p := Steps(InitialPlumbing, es + [Sync]);
            && p.store.stockData == p.hook.stockData
            && p.store.weatherData == p.hook.weatherData
            && p.store.cryptoData == p.hook.cryptoData
            && p.store.isLoading == p.hook.isLoading && p.store.error == p.hook.error
  {
    StepsKeepBehind(InitialPlumbing, es);
    StepsAppend(InitialPlumbing, es, [Sync]);
    var q := Steps(InitialPlumbing, es);
    assert Steps(q, [Sync]) == Step(q, Sync);
  }

  lemma {:induction false} StepsAppend(p: Plumbing, es: seq<Event>, fs: seq<Event>)
    ensures Steps(p, es + fs) == Steps(Steps(p, es), fs)
    decreases |es|
  {
    if es == [] {
      assert es + fs == fs;
    } else {
      assert (es + fs)[0] == es[0] && (es + fs)[1..] == es[1..] + fs;
      StepsAppend(Step(p, es[0]), es[1..], fs);
    }
  }

  // ---------------------------------------------------------------------------
  // Polling
  // ---------------------------------------------------------------------------

  const PollInterval: nat := 3000

  /** The times, in ms after mount, at which `DataFetcher` has called `fetchAllData` by
      time `elapsed`: once at mount, then every 3000 ms. */
  function PollTimes(elapsed: nat): (ts: seq<nat>)
    ensures |ts| == elapsed / PollInterval + 1
    ensures forall i :: 0 <= i < |ts| ==> ts[i] == PollInterval * i
    ensures forall i :: 0 <= i < |ts| ==> ts[i] <= elapsed
    ensures elapsed < ts[|ts| - 1] + PollInterval
    decreases elapsed
  {
    if elapsed < PollInterval then [0]
    else
      var earlier := PollTimes(elapsed - PollInterval);
      assert (elapsed - PollInterval) / PollInterval + 1 == elapsed / PollInterval;
      earlier + [PollInterval * (elapsed / PollInterval)]
  }

  // ---------------------------------------------------------------------------
  // The store as state
  // ---------------------------------------------------------------------------

  class Store {
    var stockData: Option<StockData>
    var weatherData: Option<WeatherData>
    var cryptoData: Option<seq<CryptoData>>
    var isLoading: Loading
    var error: Option<string>
    var fetcherInstalled: bool

    function Current(): StoreState
      reads this
    {
      StoreState(stockData, weatherData, cryptoData, isLoading, error, fetcherInstalled)
    }

    constructor ()
      ensures Current() == InitialStore
    {
      stockData, weatherData, cryptoData := None, None, None;
      isLoading, error, fetcherInstalled := NotLoading, None, false;
    }

    method SetStockData(d: StockData)
      modifies this`stockData
      ensures Current() == old(Current()).(stockData := Some(d))
    {
      stockData := Some(d);
    }

    method SetWeatherData(d: WeatherData)
      modifies this`weatherData
      ensures Current() == old(Current()).(weatherData := Some(d))
    {
      weatherData := Some(d);
    }

    method SetCryptoData(d: seq<CryptoData>)
      modifies this`cryptoData
      ensures Current() == old(Current()).(cryptoData := Some(d))
    {
      cryptoData := Some(d);
    }

    /** The store's `fetchAllData`: nothing until `DataFetcher` has installed the
        hook's, then the hook's. */
    method FetchAllData(hook: DataFetching.DataFetchingHook)
      modifies hook`isLoading
      ensures fetcherInstalled ==> hook.Current() == DataFetching.BeginAll(old(hook.Current()))
      ensures !fetcherInstalled ==> hook.Current() == old(hook.Current())
    {
      if fetcherInstalled {
        hook.FetchAllData();
      }
    }

    /** `DataFetcher`'s effects after a render in which the hook holds `hook`'s state. */
    method SyncFrom(hook: DataFetching.DataFetchingHook)
      modifies this
      ensures Current() == Synced(old(Current()), hook.Current())
    {
      if hook.stockData.Some? {
        SetStockData(hook.stockData.value);
      }
      if hook.weatherData.Some? {
        SetWeatherData(hook.weatherData.value);
      }
      if hook.cryptoData.Some? {
        SetCryptoData(hook.cryptoData.value);
      }
      fetcherInstalled := true;
      isLoading, error := hook.isLoading, hook.error;
    }
  }

  /** `DataFetcher`'s polling effect at mount: fetch at once (the interval's later calls
      are further `FetchAllData` calls of the hook). */
  method Mount(hook: DataFetching.DataFetchingHook)
    modifies hook`isLoading
    ensures hook.Current() == DataFetching.BeginAll(old(hook.Current()))
  {
    hook.FetchAllData();
  }
}
