/** `handleSearch` as a pure transition on the component's state
    `(weather, forecast, loading, error)`. The search runs in two steps:
    `Begin` is everything before the `await` (the two guards, then
    `loading := true`, `error := null` and the two requests), and `Settle`
    is the `try`/`catch`/`finally` once both requests have answered. The
    answers are an input, so no network is involved. */
module Search {
  import opened Wrappers
  import JsText
  import Forecast

  const MissingKeyMessage: string := "Set VITE_OWM_KEY in .env to fetch weather data."
  const EmptyCityMessage: string := "Please enter a city name."
  const NotFoundMessage: string := "City not found. Try another search."
  const FallbackMessage: string := "Something went wrong."

  /** The current conditions shown in the main panel. */
  datatype CurrentWeather = CurrentWeather(
    city: string, country: string, temp: int, description: string, icon: string,
    feelsLike: int, humidity: int, windSpeed: int, dt: int)

  /** The component's state that a search reads and writes. */
  datatype UiState = UiState(
    weather: Option<CurrentWeather>,
    forecast: seq<Forecast.ForecastEntry>,
    loading: bool,
    error: Option<string>)

  /** A value thrown inside the `try` block: an `Error` object with its
      message, or any other value. */
  datatype Thrown = ErrorObject(message: string) | NonError

  datatype SysBlock = SysBlock(country: string)
  datatype MainBlock = MainBlock(temp: int, feelsLike: int, humidity: int)
  datatype WeatherItem = WeatherItem(description: string, icon: string)
  datatype WindBlock = WindBlock(speed: int)

  /** The parsed current-conditions body. The nested objects may be missing;
      reading a field of a missing one throws. */
  datatype CurrentJson =
    | CurrentNull
    | CurrentObject(
        name: string,
        sys: Option<SysBlock>,
        main: Option<MainBlock>,
        weather: Option<seq<WeatherItem>>,
        wind: Option<WindBlock>,
        dt: int)

  /** The parsed forecast body; `list` may be missing (`undefined`/`null`). */
  datatype ForecastJson = ForecastNull | ForecastObject(list: Option<seq<Forecast.RawSample>>)

  /** The outcome of `response.json()`. */
  datatype Body<T> = Parsed(json: T) | Unparsable(thrown: Thrown)

  /** How the two requests of `Promise.all` came back: one of them rejected,
      or both responded (`currentOk` is the current-conditions `ok` flag). */
  datatype Responses =
    | Rejected(reason: Thrown)
    | Settled(currentOk: bool, current: Body<CurrentJson>, forecast: Body<ForecastJson>)

  /** The two requests a search sends, both with this city and key. */
  datatype Request = Request(city: string, apiKey: string)

  /** The state after the synchronous part of a search, and the request it
      sent, if any. */
  datatype Started = Started(state: UiState, request: Option<Request>)

  /** What the `try` block produces when nothing is thrown. */
  datatype Loaded = Loaded(weather: CurrentWeather, forecast: seq<Forecast.ForecastEntry>)

  /** The `TypeError` a property read on `undefined` or `null` throws (the
      message is the one V8 produces). */
  function ReadFailure(base: string, prop: string): Thrown {
    ErrorObject("Cannot read properties of " + base + " (reading '" + prop + "')")
  }

  /** `apiReady`: a key is configured and is not blank. */
  function ApiReady(apiKey: Option<string>): (ready: bool)
    ensures ready <==> apiKey.Some? && !JsText.IsBlank(apiKey.value)
  {
    apiKey.Some? && apiKey.value != "" && |JsText.Trim(apiKey.value)| > 0
  }

  /** The message the `catch` block shows for a thrown value. */
  function ErrorMessage(t: Thrown): (m: string)
    ensures t.ErrorObject? ==> m == t.message
    ensures t.NonError? ==> m == FallbackMessage
  {
    match t
    case ErrorObject(msg) => msg
    case NonError => FallbackMessage
  }

  /** The object passed to `setWeather`, read field by field in the order of
      the literal; the first read from a missing object throws. */
  function ToCurrentWeather(j: CurrentJson): (r: Result<CurrentWeather, Thrown>)
    ensures r.Success? <==>
      j.CurrentObject? && j.sys.Some? && j.main.Some? && j.weather.Some? && |j.weather.value| > 0 && j.wind.Some?
    ensures r.Success? ==>
      && r.value.city == j.name && r.value.country == j.sys.value.country
      && r.value.temp == j.main.value.temp && r.value.feelsLike == j.main.value.feelsLike
      && r.value.humidity == j.main.value.humidity && r.value.windSpeed == j.wind.value.speed
      && r.value.description == j.weather.value[0].description && r.value.icon == j.weather.value[0].icon
      && r.value.dt == j.dt
    ensures r.Failure? ==> r.error.ErrorObject?
  {
    match j
    case CurrentNull => Failure(ReadFailure("null", "name"))
    case CurrentObject(name, sys, main, weather, wind, dt) =>
      if sys.None? then Failure(ReadFailure("undefined", "country"))
      else if main.None? then Failure(ReadFailure("undefined", "temp"))
      else if weather.None? then Failure(ReadFailure("undefined", "0"))
      else if |weather.value| == 0 then Failure(ReadFailure("undefined", "description"))
      else if wind.None? then Failure(ReadFailure("undefined", "speed"))
      else
        var w := weather.value[0];
        Success(CurrentWeather(
          name, sys.value.country, main.value.temp, w.description, w.icon,
          main.value.feelsLike, main.value.humidity, wind.value.speed, dt))
  }

  /** `forecastJson.list ?? []`. */
  function ForecastList(j: ForecastJson): (r: Result<seq<Forecast.RawSample>, Thrown>)
    ensures r.Failure? <==> j.ForecastNull?
    ensures j.ForecastObject? && j.list.Some? ==> r == Success(j.list.value)
    ensures j.ForecastObject? && j.list.None? ==> r == Success([])
  {
    match j
    case ForecastNull => Failure(ReadFailure("null", "list"))
    case ForecastObject(list) => Success(list.GetOr([]))
  }

  /** The `try` block: what it yields, or the first value it throws. */
  function RunQuery(resp: Responses): (r: Result<Loaded, Thrown>)
    ensures resp.Rejected? ==> r == Failure(resp.reason)
    ensures resp.Settled? && !resp.currentOk ==> r == Failure(ErrorObject(NotFoundMessage))
    ensures r.Success? <==>
      && resp.Settled? && resp.currentOk
      && resp.current.Parsed? && resp.forecast.Parsed?
      && ToCurrentWeather(resp.current.json).Success?
      && !resp.forecast.json.ForecastNull?
    ensures r.Success? ==>
      && Success(r.value.weather) == ToCurrentWeather(resp.current.json)
      && r.value.forecast == Forecast.BuildDailyForecast(resp.forecast.json.list.GetOr([]))
    ensures resp.Settled? && resp.currentOk && resp.current.Unparsable? ==>
      r == Failure(resp.current.thrown)
    ensures resp.Settled? && resp.currentOk && resp.current.Parsed? && resp.forecast.Unparsable? ==>
      r == Failure(resp.forecast.thrown)
    ensures resp.Settled? && resp.currentOk && resp.current.Parsed? && resp.forecast.Parsed?
            && ToCurrentWeather(resp.current.json).Failure? ==>
      r == Failure(ToCurrentWeather(resp.current.json).error)
    ensures resp.Settled? && resp.currentOk && resp.current.Parsed? && resp.forecast.Parsed?
            && ToCurrentWeather(resp.current.json).Success? && resp.forecast.json.ForecastNull? ==>
      r == Failure(ReadFailure("null", "list"))
  {
    match resp
    case Rejected(reason) => Failure(reason)
    case Settled(ok, current, forecast) =>
      if !ok then Failure(ErrorObject(NotFoundMessage))
      else
        match current
        case Unparsable(t) => Failure(t)
        case Parsed(cj) =>
          match forecast
          case Unparsable(t) => Failure(t)
          case Parsed(fj) =>
            match ToCurrentWeather(cj)
            case Failure(t) => Failure(t)
            case Success(w) =>
              match ForecastList(fj)
              case Failure(t) => Failure(t)
              case Success(list) => Success(Loaded(w, Forecast.BuildDailyForecast(list)))
  }

  /** The synchronous part of `handleSearch`: the two guards, then the
      start of the request. */
  function Begin(st: UiState, apiKey: Option<string>, city: string): (r: Started)
    ensures r.request.None? <==> !ApiReady(apiKey) || JsText.IsBlank(city)
    ensures r.request.Some? ==> r.request.value == Request(city, apiKey.value)
    ensures r.state.weather == st.weather && r.state.forecast == st.forecast
    ensures r.request.Some? ==> r.state.loading && r.state.error.None?
    ensures r.request.None? ==> r.state.loading == st.loading
    ensures !ApiReady(apiKey) ==> r.state.error == Some(MissingKeyMessage)
    ensures ApiReady(apiKey) && JsText.IsBlank(city) ==> r.state.error == Some(EmptyCityMessage)
  {
    if !ApiReady(apiKey) then Started(st.(error := Some(MissingKeyMessage)), None)
    else if JsText.Trim(city) == "" then Started(st.(error := Some(EmptyCityMessage)), None)
    else Started(st.(loading := true, error := None), Some(Request(city, apiKey.value)))
  }

  /** The `try`/`catch`/`finally` once the requests have answered. */
  function Settle(st: UiState, resp: Responses): (r: UiState)
    ensures !r.loading
    ensures r.error.Some? || r.error == st.error
    ensures RunQuery(resp).Failure? ==>
      r == UiState(None, [], false, Some(ErrorMessage(RunQuery(resp).error)))
    ensures RunQuery(resp).Success? ==>
      && r.weather == Some(RunQuery(resp).value.weather)
      && r.forecast == RunQuery(resp).value.forecast
      && r.error == st.error && |r.forecast| <= Forecast.MaxDays
  {
    match RunQuery(resp)
    case Success(loaded) => st.(weather := Some(loaded.weather), forecast := loaded.forecast, loading := false)
    case Failure(t) => st.(weather := None, forecast := [], loading := false, error := Some(ErrorMessage(t)))
  }

  /** A whole search: the guards, and when they pass, the answer to the
      request that was sent. */
  function HandleSearch(st: UiState, apiKey: Option<string>, city: string, resp: Responses): (r: Started)
    ensures !ApiReady(apiKey) ==>
      r == Started(st.(error := Some(MissingKeyMessage)), None)
    ensures ApiReady(apiKey) && JsText.IsBlank(city) ==>
      r == Started(st.(error := Some(EmptyCityMessage)), None)
    ensures ApiReady(apiKey) && !JsText.IsBlank(city) ==>
      && r.request == Some(Request(city, apiKey.value))
      && !r.state.loading
      && (r.state.error.None? <==> r.state.weather.Some?)
      && (r.state.error.Some? ==> r.state.forecast == [])
    ensures ApiReady(apiKey) && !JsText.IsBlank(city) && resp.Settled? && !resp.currentOk ==>
      r.state == UiState(None, [], false, Some(NotFoundMessage))
    ensures ApiReady(apiKey) && !JsText.IsBlank(city) && resp.Rejected? && resp.reason.ErrorObject? ==>
      r.state == UiState(None, [], false, Some(resp.reason.message))
    ensures ApiReady(apiKey) && !JsText.IsBlank(city) && resp.Rejected? && resp.reason.NonError? ==>
      r.state == UiState(None, [], false, Some(FallbackMessage))
    ensures ApiReady(apiKey) && !JsText.IsBlank(city) && resp.Settled? && resp.currentOk
            && resp.current.Parsed? && ToCurrentWeather(resp.current.json).Success?
            && resp.forecast == Parsed(ForecastObject(None)) ==>
      r.state == UiState(Some(ToCurrentWeather(resp.current.json).value), [], false, None)
  {
    var started := Begin(st, apiKey, city);
    match started.request
    case None => started
    case Some(_) => Started(Settle(started.state, resp), started.request)
  }

  /** A search whose two responses are both well formed shows the new
      conditions and the aggregated forecast, with no error. */
  lemma SearchSuccess(st: UiState, apiKey: Option<string>, city: string, cj: CurrentJson, fj: ForecastJson, w: CurrentWeather)
    requires ApiReady(apiKey) && !JsText.IsBlank(city)
    requires ToCurrentWeather(cj) == Success(w) && fj.ForecastObject?
    ensures HandleSearch(st, apiKey, city, Settled(true, Parsed(cj), Parsed(fj))).state
      == UiState(Some(w), Forecast.BuildDailyForecast(fj.list.GetOr([])), false, None)
  {
  }
}
