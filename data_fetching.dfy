/**
  The data-fetching hook: the three per-source values, the per-source
  loading flags and the shared error field, and how each fetch changes them.
  A fetch is split into its synchronous start (the loading flag goes up and
  the request is sent) and its completion, whose outcome (the server's data
  or a failure) is an input; completions of different sources may arrive in
  any order.
*/
module DataFetching {
  import opened Numeric
  import opened DataModel

  datatype Source = Stock | Weather | Crypto

  /** What a request came back with. */
  datatype Outcome<T> = Fetched(data: T) | Failed

  /** A finished request, with its outcome. */
  datatype Completion =
    | StockDone(stock: Outcome<StockData>)
    | WeatherDone(weather: Outcome<WeatherData>)
    | CryptoDone(crypto: Outcome<seq<CryptoData>>)

  function SourceOf(c: Completion): Source {
    match c
    case StockDone(_) => Stock
    case WeatherDone(_) => Weather
    case CryptoDone(_) => Crypto
  }

  predicate Succeeded(c: Completion) {
    match c
    case StockDone(o) => o.Fetched?
    case WeatherDone(o) => o.Fetched?
    case CryptoDone(o) => o.Fetched?
  }

  const StockPath: string := "/api/stock/TSLA"
  const CryptoPath: string := "/api/crypto"
  const DefaultLocation: string := "New York"

  const StockError: string := "Failed to fetch stock data"
  const WeatherError: string := "Failed to fetch weather data"
  const CryptoError: string := "Failed to fetch crypto data"

  /** The message a failed fetch of `s` leaves in `error`. */
  function ErrorMessage(s: Source): (m: string)
    ensures s == Stock <==> m == StockError
    ensures s == Weather <==> m == WeatherError
    ensures s == Crypto <==> m == CryptoError
  {
    match s
    case Stock => StockError
    case Weather => WeatherError
    case Crypto => CryptoError
  }

  // The development fallbacks installed when a fetch fails.
  const FallbackStock: StockData := StockData("TSLA", Some(250.22), Some(2.35))
  const FallbackWeather: WeatherData := WeatherData("New York", 22.0, "Partly Cloudy", 40.0, Some(true))
  const FallbackCrypto: seq<CryptoData> := [
    CryptoData("BTC", Some(42000.0), Some(1.2)),
    CryptoData("ETH", Some(2300.0), Some(-0.5)),
    CryptoData("SOL", Some(105.0), Some(3.1)),
    CryptoData("DOGE", Some(0.12), Some(-2.3)),
    CryptoData("ADA", Some(0.45), Some(0.8))
  ]

  /** The value a completed fetch leaves: the server's data, or the fallback. */
  function Received<T>(o: Outcome<T>, fallback: T): (v: T)
    ensures o.Fetched? ==> v == o.data
    ensures o.Failed? ==> v == fallback
  {
    if o.Fetched? then o.data else fallback
  }

  // ---------------------------------------------------------------------------
  // Loading flags
  // ---------------------------------------------------------------------------

  function Flag(l: Loading, s: Source): bool {
    match s
    case Stock => l.stock
    case Weather => l.weather
    case Crypto => l.crypto
  }

  /** `setIsLoading(prev => ({ ...prev, [s]: b }))`: one flag set, the other two kept. */
  function WithFlag(l: Loading, s: Source, b: bool): (r: Loading)
    ensures Flag(r, s) == b
    ensures forall t :: t != s ==> Flag(r, t) == Flag(l, t)
  {
    match s
    case Stock => l.(stock := b)
    case Weather => l.(weather := b)
    case Crypto => l.(crypto := b)
  }

  // ---------------------------------------------------------------------------
  // The hook's state and its transitions
  // ---------------------------------------------------------------------------

  datatype Hook = Hook(
    stockData: Option<StockData>,
    weatherData: Option<WeatherData>,
    cryptoData: Option<seq<CryptoData>>,
    isLoading: Loading,
    error: Option<string>)

  /** The three `useState` initial values. */
  const InitialHook: Hook := Hook(None, None, None, NotLoading, None)

  /** The two hooks hold the same value for source `s`. */
  predicate SameData(a: Hook, b: Hook, s: Source) {
    match s
    case Stock => a.stockData == b.stockData
    case Weather => a.weatherData == b.weatherData
    case Crypto => a.cryptoData == b.cryptoData
  }

  /** The start of a fetch of `s`: only its loading flag changes. */
  function Begin(h: Hook, s: Source): (r: Hook)
    ensures r == h.(isLoading := WithFlag(h.isLoading, s, true))
    ensures forall t :: SameData(r, h, t)
  {
    h.(isLoading := WithFlag(h.isLoading, s, true))
  }

  /** The end of a fetch: the `try` or `catch` branch, then `finally`. The source's value
      is replaced wholesale, `error` is cleared on success and set to the source's
      message on failure, and only the source's loading flag comes down. */
  function Complete(h: Hook, c: Completion): (r: Hook)
    ensures !Flag(r.isLoading, SourceOf(c))
    ensures forall t :: t != SourceOf(c) ==> Flag(r.isLoading, t) == Flag(h.isLoading, t)
    ensures Succeeded(c) ==> r.error == None
    ensures !Succeeded(c) ==> r.error == Some(ErrorMessage(SourceOf(c)))
    ensures forall t :: t != SourceOf(c) ==> SameData(r, h, t)
    ensures c.StockDone? ==> r.stockData == Some(Received(c.stock, FallbackStock))
    ensures c.WeatherDone? ==> r.weatherData == Some(Received(c.weather, FallbackWeather))
    ensures c.CryptoDone? ==> r.cryptoData == Some(Received(c.crypto, FallbackCrypto))
  {
    var loading := WithFlag(h.isLoading, SourceOf(c), false);
    var error := if Succeeded(c) then None else Some(ErrorMessage(SourceOf(c)));
    match c
    case StockDone(o) => h.(stockData := Some(Received(o, FallbackStock)), error := error, isLoading := loading)
    case WeatherDone(o) => h.(weatherData := Some(Received(o, FallbackWeather)), error := error, isLoading := loading)
    case CryptoDone(o) => h.(cryptoData := Some(Received(o, FallbackCrypto)), error := error, isLoading := loading)
  }

  /** A failed fetch replaces whatever the source held before with its fallback. */
  lemma FailureOverwrites(h: Hook)
    ensures Complete(h, StockDone(Failed)).stockData == Some(FallbackStock)
    ensures Complete(h, WeatherDone(Failed)).weatherData == Some(FallbackWeather)
    ensures Complete(h, CryptoDone(Failed)).cryptoData == Some(FallbackCrypto)
    ensures Complete(h, CryptoDone(Failed)).error == Some("Failed to fetch crypto data")
  {
  }

  /** Completions applied in the order they arrive. */
  function Run(h: Hook, cs: seq<Completion>): Hook
    decreases |cs|
  {
    if cs == [] then h else Run(Complete(h, cs[0]), cs[1..])
  }

  /** The error after a run of completions is the last one's: cleared if it succeeded,
      its source's message if it failed, whatever came before. */
  lemma {:induction false} ErrorIsLastCompletion(h: Hook, cs: seq<Completion>)
    requires |cs| > 0
    ensures var last := cs[|cs| - 1];
            Run(h, cs).error == (if Succeeded(last) then None else Some(ErrorMessage(SourceOf(last))))
    decreases |cs|
  {
    if |cs| > 1 {
      ErrorIsLastCompletion(Complete(h, cs[0]), cs[1..]);
      assert cs[1..][|cs[1..]| - 1] == cs[|cs| - 1];
    }
  }

  /** A success of one source after a failure of another clears the shared error. */
  lemma SuccessClearsOtherError(h: Hook, s: StockData)
    ensures Run(h, [WeatherDone(Failed), StockDone(Fetched(s))]).error == None
    ensures Run(h, [StockDone(Fetched(s)), WeatherDone(Failed)]).error == Some(WeatherError)
  {
    ErrorIsLastCompletion(h, [WeatherDone(Failed), StockDone(Fetched(s))]);
    ErrorIsLastCompletion(h, [StockDone(Fetched(s)), WeatherDone(Failed)]);
  }

  /** The completions of source `s`, in their order. */
  function OfSource(cs: seq<Completion>, s: Source): (r: seq<Completion>)
    ensures forall i :: 0 <= i < |r| ==> SourceOf(r[i]) == s
    ensures |r| <= |cs|
    decreases |cs|
  {
    if cs == [] then []
    else if SourceOf(cs[0]) == s then [cs[0]] + OfSource(cs[1..], s)
    else OfSource(cs[1..], s)
  }

  /** Sources are independent: what `s` holds after any run of completions is what it
      holds after the completions of `s` alone, whatever the others brought. */
  lemma {:induction false} SourcesAreIndependent(h1: Hook, h2: Hook, cs: seq<Completion>, s: Source)
    requires SameData(h1, h2, s)
    ensures SameData(Run(h1, cs), Run(h2, OfSource(cs, s)), s)
    decreases |cs|
  {
    if cs != [] {
      if SourceOf(cs[0]) == s {
        var r := OfSource(cs, s);
        assert r == [cs[0]] + OfSource(cs[1..], s);
        assert r[0] == cs[0] && r[1..] == OfSource(cs[1..], s);
        assert SameData(Complete(h1, cs[0]), Complete(h2, cs[0]), s);
        SourcesAreIndependent(Complete(h1, cs[0]), Complete(h2, cs[0]), cs[1..], s);
      } else {
        assert SameData(Complete(h1, cs[0]), h2, s);
        SourcesAreIndependent(Complete(h1, cs[0]), h2, cs[1..], s);
      }
    }
  }

  /** Some completion in `cs` is for `s`. */
  predicate Covers(cs: seq<Completion>, s: Source) {
    exists i :: 0 <= i < |cs| && SourceOf(cs[i]) == s
  }

  /** The loading flag of `s` after a run is down if any completion of `s` arrived,
      and untouched otherwise. */
  lemma {:induction false} LoadingAfterRun(h: Hook, cs: seq<Completion>, s: Source)
    ensures Covers(cs, s) ==> !Flag(Run(h, cs).isLoading, s)
    ensures (forall i :: 0 <= i < |cs| ==> SourceOf(cs[i]) != s) ==> Flag(Run(h, cs).isLoading, s) == Flag(h.isLoading, s)
    decreases |cs|
  {
    if cs != [] {
      LoadingAfterRun(Complete(h, cs[0]), cs[1..], s);
      if SourceOf(cs[0]) != s {
        if Covers(cs, s) {
          var i :| 0 <= i < |cs| && SourceOf(cs[i]) == s;
          assert SourceOf(cs[1..][i - 1]) == s;
        }
      } else {
        if forall i :: 0 <= i < |cs[1..]| ==> SourceOf(cs[1..][i]) != s {
          assert Flag(Complete(h, cs[0]).isLoading, s) == false;
        }
      }
      assert forall i :: 0 <= i < |cs[1..]| ==> cs[1..][i] == cs[i + 1];
    }
  }

  /** `fetchAllData`: the three fetches start one after the other, so all three flags go
      up; nothing else changes until they complete. */
  function BeginAll(h: Hook): (r: Hook)
    ensures r.isLoading == Loading(true, true, true)
    ensures r.stockData == h.stockData && r.weatherData == h.weatherData
    ensures r.cryptoData == h.cryptoData && r.error == h.error
  {
    Begin(Begin(Begin(h, Stock), Weather), Crypto)
  }

  /** A round of `fetchAllData` in which every source completes, in any order, leaves no
      flag up. */
  lemma RoundEndsIdle(h: Hook, cs: seq<Completion>)
    requires Covers(cs, Stock) && Covers(cs, Weather) && Covers(cs, Crypto)
    ensures Run(BeginAll(h), cs).isLoading == NotLoading
  {
    LoadingAfterRun(BeginAll(h), cs, Stock);
    LoadingAfterRun(BeginAll(h), cs, Weather);
    LoadingAfterRun(BeginAll(h), cs, Crypto);
  }

  // ---------------------------------------------------------------------------
  // The weather query string
  // ---------------------------------------------------------------------------

  /** The characters `encodeURIComponent` leaves as they are. */
  predicate Unreserved(c: char) {
    ('A' <= c <= 'Z') || ('a' <= c <= 'z') || ('0' <= c <= '9')
    || c == '-' || c == '_' || c == '.' || c == '!' || c == '~' || c == '*' || c == '\'' || c == '(' || c == ')'
  }

  predicate IsAscii(s: string) {
    forall i :: 0 <= i < |s| ==> s[i] < 128 as char
  }

  function HexDigit(n: int): (c: char)
    requires 0 <= n < 16
    ensures IsHexDigit(c) && HexValue(c) == n
    ensures '0' <= c <= '9' || 'A' <= c <= 'F'
  {
    "0123456789ABCDEF"[n]
  }

  predicate IsHexDigit(c: char) {
    ('0' <= c <= '9') || ('A' <= c <= 'F') || ('a' <= c <= 'f')
  }

  function HexValue(c: char): (n: int)
    requires IsHexDigit(c)
    ensures 0 <= n < 16
  {
    if '0' <= c <= '9' then c as int - '0' as int
    else if 'A' <= c <= 'F' then c as int - 'A' as int + 10
    else c as int - 'a' as int + 10
  }

  /** One ASCII character as `encodeURIComponent` writes it. */
  function EncodeChar(c: char): (e: string)
    requires c < 128 as char
    ensures Unreserved(c) ==> e == [c]
    ensures !Unreserved(c) ==>
              (|e| == 3 && e[0] == '%' && IsHexDigit(e[1]) && IsHexDigit(e[2])
               && HexValue(e[1]) * 16 + HexValue(e[2]) == c as int)
  {
    if Unreserved(c) then [c] else ['%', HexDigit(c as int / 16), HexDigit(c as int % 16)]
  }

  /** `encodeURIComponent` on an ASCII string. */
  function Encode(s: string): string
    requires IsAscii(s)
    decreases |s|
  {
    if s == [] then [] else EncodeChar(s[0]) + Encode(s[1..])
  }

  /** The percent-decoding a server applies to a query value (section 2.1 of RFC 3986). */
  function Decode(s: string): string
    decreases |s|
  {
    if s == [] then []
    else if s[0] == '%' && |s| >= 3 && IsHexDigit(s[1]) && IsHexDigit(s[2]) then
      [(HexValue(s[1]) * 16 + HexValue(s[2])) as char] + Decode(s[3..])
    else [s[0]] + Decode(s[1..])
  }

  /** Decoding gives back the location that was encoded. */
  lemma {:induction false} DecodeEncode(s: string)
    requires IsAscii(s)
    ensures Decode(Encode(s)) == s
    decreases |s|
  {
    if s != [] {
      var e, rest := EncodeChar(s[0]), Encode(s[1..]);
      DecodeEncode(s[1..]);
      if Unreserved(s[0]) {
        assert (e + rest)[1..] == rest;
      } else {
        assert (e + rest)[0] == '%' && (e + rest)[1] == e[1] && (e + rest)[2] == e[2];
        assert (e + rest)[3..] == rest;
      }
    }
  }

  /** The weather request path for `location`. */
  function WeatherPath(location: string): string
    requires IsAscii(location)
  {
    "/api/weather?location=" + Encode(location)
  }

  /** The default location goes out with its space percent-encoded. */
  lemma DefaultWeatherPath(location: string)
    requires location == DefaultLocation
    ensures WeatherPath(location) == "/api/weather?location=New%20York"
  {
    LocationEncoded(location);
    PathJoins();
  }

  lemma PathJoins()
    ensures "/api/weather?location=" + "New%20York" == "/api/weather?location=New%20York"
  {
  }

  /** "New York" is sent as "New%20York". */
  lemma LocationEncoded(location: string)
    requires location == "New York"
    ensures IsAscii(location) && Encode(location) == "New%20York"
  {
    NewYorkSplits();
    WordsUnchanged();
    SpaceEncoded("New", "York");
  }

  lemma NewYorkSplits()
    ensures "New York" == "New" + (" " + "York")
    ensures "New" + ("%20" + "York") == "New%20York"
  {
  }

  lemma WordsUnchanged()
    ensures IsAscii("New") && Encode("New") == "New"
    ensures IsAscii("York") && Encode("York") == "York"
  {
    UnreservedUnchanged("New");
    UnreservedUnchanged("York");
  }

  /** Two words of unreserved characters joined by a space: only the space is escaped. */
  lemma SpaceEncoded(a: string, b: string)
    requires IsAscii(a) && IsAscii(b) && Encode(a) == a && Encode(b) == b
    ensures IsAscii(a + (" " + b)) && Encode(a + (" " + b)) == a + ("%20" + b)
  {
    var space := " ";
    SpaceIsEscaped();
    EncodeAppend(space, b);
    var tail := space + b;
    EncodeAppend(a, tail);
  }

  lemma SpaceIsEscaped()
    ensures IsAscii(" ") && Encode(" ") == "%20"
  {
    assert Encode(" ") == EncodeChar(' ') + Encode([]);
  }

  /** A string of unreserved characters is sent as it is. */
  lemma {:induction false} UnreservedUnchanged(s: string)
    requires forall i :: 0 <= i < |s| ==> Unreserved(s[i]) && s[i] < 128 as char
    ensures IsAscii(s) && Encode(s) == s
    decreases |s|
  {
    if s != [] {
      UnreservedUnchanged(s[1..]);
      assert s == [s[0]] + s[1..];
    }
  }

  /** Encoding works character by character, so it distributes over concatenation. */
  lemma {:induction false} EncodeAppend(a: string, b: string)
    requires IsAscii(a) && IsAscii(b)
    ensures IsAscii(a + b) && Encode(a + b) == Encode(a) + Encode(b)
    decreases |a|
  {
    assert IsAscii(a + b) by {
      assert forall i :: 0 <= i < |a + b| ==> (a + b)[i] == if i < |a| then a[i] else b[i - |a|];
    }
    if a != [] {
      assert (a + b)[0] == a[0] && (a + b)[1..] == a[1..] + b;
      EncodeAppend(a[1..], b);
    } else {
      assert a + b == b;
    }
  }

  // ---------------------------------------------------------------------------
  // The hook as state that its callbacks update
  // ---------------------------------------------------------------------------

  class DataFetchingHook {
    var stockData: Option<StockData>
    var weatherData: Option<WeatherData>
    var cryptoData: Option<seq<CryptoData>>
    var isLoading: Loading
    var error: Option<string>

    function Current(): Hook
      reads this
    {
      Hook(stockData, weatherData, cryptoData, isLoading, error)
    }

    constructor ()
      ensures Current() == InitialHook
    {
      stockData, weatherData, cryptoData := None, None, None;
      isLoading, error := NotLoading, None;
    }

    /** The part of `fetchStockData`, `fetchWeatherData` or `fetchCryptoData` before its
        first `await`. */
    method Start(s: Source)
      modifies this`isLoading
      ensures Current() == Begin(old(Current()), s)
    {
      isLoading := WithFlag(isLoading, s, true);
    }

    /** The rest of the fetch, once the request has come back with `c`. */
    method Finish(c: Completion)
      modifies this
      ensures Current() == Complete(old(Current()), c)
    {
      match c {
        case StockDone(o) => stockData := Some(Received(o, FallbackStock));
        case WeatherDone(o) => weatherData := Some(Received(o, FallbackWeather));
        case CryptoDone(o) => cryptoData := Some(Received(o, FallbackCrypto));
      }
      if Succeeded(c) {
        error := None;
      } else {
        error := Some(ErrorMessage(SourceOf(c)));
      }
      isLoading := WithFlag(isLoading, SourceOf(c), false);
    }

    /** `fetchAllData`: start the three fetches; they complete later through `Finish`. */
    method FetchAllData()
      modifies this`isLoading
      ensures Current() == BeginAll(old(Current()))
    {
      Start(Stock);
      Start(Weather);
      Start(Crypto);
    }
  }
}
