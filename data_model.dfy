/**
  The records the data store holds (useDataStore.tsx): a stock quote, a
  weather report and a list of crypto quotes, with their optional fields as
  `Option`s, and the JavaScript idioms the dioramas apply to those fields.
*/
module DataModel {
  import opened Numeric

  datatype StockData = StockData(symbol: string, price: Option<real>, percentChange: Option<real>)

  datatype WeatherData = WeatherData(
    location: string,
    temperature: real,
    weatherCondition: string,
    cloudCover: real,
    isDay: Option<bool>)

  datatype CryptoData = CryptoData(symbol: string, price: Option<real>, percentChange: Option<real>)

  /** `x || 0` on an optional number: a missing value reads as 0. */
  function OrZero(x: Option<real>): (r: real)
    ensures x.Some? ==> r == x.value
    ensures x.None? ==> r == 0.0
  {
    x.GetOr(0.0)
  }

  /** JavaScript truthiness of an optional number: present and non-zero. */
  predicate Truthy(x: Option<real>) {
    x.Some? && x.value != 0.0
  }

  /** The per-source loading flags. */
  datatype Loading = Loading(stock: bool, weather: bool, crypto: bool)

  const NotLoading: Loading := Loading(false, false, false)
}
