# Weather widget: daily forecast aggregation and search outcome

A Dafny model of the logic inside the weather lookup component
(`src/App.tsx`). The component takes a city name, asks the weather
provider for the current conditions and the 5-day/3-hour forecast, and
shows both. Two parts of it are modelled and proved:

- **`buildDailyForecast`**: a single pass over the 3-hour forecast
  samples. Invalid samples are dropped silently. The rest are grouped by
  calendar date (the text of `dt_txt` before the first space). Each date
  gets a running minimum of `temp_min` and a running maximum of
  `temp_max`, and it keeps the icon and description of its first sample.
  Dates stay in first-seen order and only the first five are returned.
  It is modelled as a fold over an insertion-ordered sequence of
  accumulators (`Forecast.Days`). Its result is also described
  independently (`ForecastSpec.Characterises`): each day's minimum is
  attained and is a lower bound, its maximum is attained and is an upper
  bound, its icon and description come from the first valid sample of
  the date, and the dates are the de-duplicated dates of the valid
  samples. The fold is proved to meet this description, and the
  description is proved to determine the result uniquely.
- **`handleSearch`**: a pure transition on the state
  `(weather, forecast, loading, error)`. `Search.Begin` covers the two
  guards (missing key, blank city) and the start of the request.
  `Search.Settle` is the `try`/`catch`/`finally` block. It takes the
  HTTP answers as an input value (`Search.Responses`).
- **`iconUrl`**: the icon image address. The icon code is placed in it
  unmodified and can be read back.

Modules: `Wrappers` (Option/Result), `JsText` (JavaScript `trim` and
`split(' ')[0]`), `Sequences` (de-duplication in first-seen order),
`Forecast` (the aggregation), `ForecastSpec` (the independent description
and the proof that the fold meets it), `ForecastProperties` (the
guarantees for callers), `Icons`, `Search`.

Points of the code's behaviour that the model keeps:

- The guard tests `city.trim()`, but both requests carry `city`
  untrimmed (src/App.tsx:51, 62, 65). `Search.Begin` records the
  untrimmed city in the request.
- The two guard failures only set `error`. They leave `weather`,
  `forecast` and `loading` as they were (src/App.tsx:46-54). Only a value
  thrown inside `try` clears `weather` and `forecast` (src/App.tsx:89-92).
- A missing nested object of the current-conditions body (`sys`, `main`,
  `weather[0]`, `wind`) makes the property read throw a `TypeError`,
  which `catch` reports (src/App.tsx:76-86). A missing leaf value is
  copied through as `undefined` (see Left out).
- An empty icon or description is never stored: line 204 rejects them,
  so the `||` fallback at lines 213-214 never replaces anything.
  `ForecastSpec.SummaryMerge` proves that a merged day keeps the icon and
  description of its first sample.

## Model

| member | source | states |
|---|---|---|
| JsText.Trim | src/App.tsx:51 | `trim` returns the slice of the text left after removing a whitespace-only prefix and suffix; it is empty exactly when every character is ECMAScript whitespace, and a non-empty result starts and ends with non-whitespace |
| JsText.BeforeFirstSpace | src/App.tsx:197 | `split(' ')[0]` is a prefix of the text, holds no space, and is followed by a space unless it is the whole text |
| JsText.BeforeFirstSpaceOfStamp | src/App.tsx:197 | for a stamp `"<date> <time>"` whose date has no space, the date key is exactly the date |
| Icons.IconUrlRoundTrip | src/App.tsx:26-27 | the icon code can be read back out of its image address, so it is passed through unmodified |
| Icons.IconUrlInjective | src/App.tsx:26-27 | different icon codes give different image addresses |
| Forecast.Parse | src/App.tsx:197-204 | a sample is kept exactly when `dt_txt` is present, non-empty and does not start with a space, both temperatures are numbers, and icon and description are truthy; the kept reading carries the date key and copies the four values |
| Forecast.ValidReadings | src/App.tsx:196-204 | the samples that pass the filter, never more than the input, each with a non-empty space-free date and non-empty icon and description |
| Forecast.Find | src/App.tsx:206 | the lookup `days[date]` finds the accumulator of that date, or reports that no accumulator has it (for plain-key dates; see Left out) |
| Forecast.Days | src/App.tsx:196-215 | after the pass no date has two accumulators, and there are no more accumulators than samples |
| Forecast.BuildDailyForecast | src/App.tsx:217-219 | the result is the accumulators in insertion order cut to at most five (the order `Object.entries` gives for plain-key dates; see Left out) |
| Forecast.IsoDateIsPlainKey | src/App.tsx:194-217 | a `YYYY-MM-DD` date is neither an inherited `Object.prototype` name nor a digits-only key, so the object used by the component behaves like the insertion-ordered list for it |
| ForecastSpec.SummarySeed | src/App.tsx:206-208 | a date's first valid sample seeds a summary of that date |
| ForecastSpec.SummaryMerge | src/App.tsx:211-214 | a later sample of the date lowers the minimum and raises the maximum as needed; icon and description stay those of the first sample |
| ForecastSpec.InsertCharacterised | src/App.tsx:206-214 | folding one more valid sample keeps the accumulators one summary per distinct date, in first-seen order |
| ForecastSpec.DaysCharacterised | src/App.tsx:196-215 | after the pass the accumulators are exactly one summary per distinct valid date, in first-seen order: lowest `temp_min`, highest `temp_max`, icon and description of the first sample |
| ForecastSpec.CharacterisationUnique | src/App.tsx:193-220 | the summary description fixes the accumulators completely |
| ForecastProperties.ForecastDatesAreFirstDistinct | src/App.tsx:206-219 | the result's dates are exactly the first `min(5, n)` distinct valid dates, in first-seen order |
| ForecastProperties.ForecastDaysSummarise | src/App.tsx:206-214 | each returned day has the lowest `temp_min` and highest `temp_max` of all valid samples of its date, and the icon and description of the first of them |
| ForecastProperties.ForecastBounds | src/App.tsx:217-219 | at most five days, no more than the distinct valid dates, and exactly five when there are at least five |
| ForecastProperties.ForecastEmptyIffNoValidSample | src/App.tsx:194-219 | the result is empty exactly when no sample passes the filter (so an empty list gives an empty result) |
| ForecastProperties.ForecastDatesDistinct | src/App.tsx:206-207 | output dates are pairwise distinct and each is the date of a valid sample |
| ForecastProperties.ForecastDatesFirstSeen | src/App.tsx:206-218 | output dates appear in the order their dates were first seen among the valid samples, and every valid date left out was first seen after all kept dates |
| ForecastProperties.DropInvalidSample | src/App.tsx:197-204 | removing a sample the filter rejects leaves the result unchanged |
| ForecastProperties.ForecastMinAtMostMax | src/App.tsx:207-212 | if every valid sample has `temp_min <= temp_max`, every day has `min <= max` |
| ForecastProperties.PinningAndReductionExample | src/App.tsx:206-214 | two samples of one date give one day with the first sample's icon and description, the lower minimum and the higher maximum |
| Search.ApiReady | src/App.tsx:37 | the key is ready exactly when it is present and not all whitespace |
| Search.ToCurrentWeather | src/App.tsx:76-86 | the current-conditions record is built exactly when `sys`, `main`, `wind` and a first `weather` item are present, and copies each mapped field; otherwise an `Error` is thrown |
| Search.RunQuery | src/App.tsx:59-88 | a rejected request fails with its reason; a non-ok current response fails with "City not found. Try another search." whatever the forecast response; otherwise the first failure in source order is the one reported: the current body's parse error, then the forecast body's, then the `TypeError` of a missing nested object, then reading `list` of a null forecast body; success needs none of these, and its forecast is the aggregation of the list |
| Search.Begin | src/App.tsx:45-67 | a missing key sets the missing-key message and a blank city the empty-city message, sending nothing and leaving `loading` as it was; otherwise the request carries the untrimmed city and the key, `loading` is set and `error` cleared; weather and forecast are untouched either way |
| Search.Settle | src/App.tsx:59-95 | loading ends; any failure clears weather and forecast and shows the thrown value's message; success shows the loaded current conditions and their aggregated forecast (at most five days) and keeps the cleared error |
| Search.HandleSearch | src/App.tsx:45-96 | a missing key or blank city only sets the matching message and sends nothing; otherwise loading ends with either weather and no error, or an error and no weather or forecast; a non-ok current response gives the not-found message with everything cleared; a rejected request shows an `Error`'s own message or "Something went wrong." for any other value; a forecast body without `list` gives an empty forecast |
| Search.SearchSuccess | src/App.tsx:56-88 | with both bodies well formed the state shows the new conditions, the aggregated forecast, no error and no loading |

## Left out

- React rendering, JSX, `useState`/`useEffect`/`useMemo` mechanics and the default search for "London" on mount: UI plumbing, not logic.
- `fetch`, `Promise.all`, `.json()` and `encodeURIComponent`: network I/O. The requests are recorded as (city, key) and the answers are an input value.
- Reading `VITE_OWM_KEY` from the environment: the key is a parameter.
- `formatTemp`, `toFixed(1)` and `formatDay`: floating-point rounding and locale-dependent formatting.
- Overlapping searches and last-response-wins: a concurrency behaviour that a sequential transition cannot express. The model gives the state between `Begin` and `Settle` but not interleavings.
- Temperatures and the wind speed are integers, not IEEE doubles. Nothing in the aggregation depends on rounding; the decimals of the wind speed only matter to `toFixed(1)`, which is display. `NaN` (which has type number) cannot come out of a JSON body.
- A `dt_txt` that is not a string, a `list` that is not an array, or a `null` list entry makes the component throw a `TypeError` inside the aggregation, which the search reports. These are not modelled: samples are records whose `dt_txt` is a string or missing.
- Icon or description values that are truthy but not strings are not modelled: both are optional strings.
- Search.ToCurrentWeather: leaf fields (`name`, `sys.country`, `main.temp`, …) are taken as present. The component copies a missing leaf through as `undefined`.
- Search.ReadFailure: the `TypeError` message text is V8's wording. Other engines word it differently. A nested object that is JSON `null` (`"sys": null`) is modelled like a missing one, so the message says "undefined" where V8 says "null".
- Forecast.Find: the component keeps the accumulators in a plain object (src/App.tsx:194), whose lookup `days[date]` also sees the names inherited from `Object.prototype` (`Forecast.PrototypeNames`: `constructor`, `toString`, `__proto__`, …). For such a date the component takes the merge branch, writes `min`, `max`, `icon` and `description` onto the inherited object instead of creating an entry, and the date never reaches the result. For `__proto__` the `icon` and `description` land on `Object.prototype`, so a later sample without its own icon or description passes line 204. The model creates an ordinary day instead. Dates are `YYYY-MM-DD`, never such names (`Forecast.IsoDateIsPlainKey`).
- Forecast.BuildDailyForecast: the model keeps insertion order. `Object.entries` (src/App.tsx:217) lists array-index keys ("0", "2024", …) first in ascending numeric order, and then the other keys in insertion order. The two agree when no date is made only of digits, which holds for `YYYY-MM-DD` dates (`Forecast.IsoDateIsPlainKey`).
- ForecastProperties.ForecastDatesAreFirstDistinct: the first-seen order is that of the model; for digits-only or inherited-name dates the component differs as described for `Forecast.Find` and `Forecast.BuildDailyForecast`.
- ForecastProperties.ForecastDatesFirstSeen: the same restriction as `ForecastProperties.ForecastDatesAreFirstDistinct`.
- ForecastProperties.ForecastEmptyIffNoValidSample: when every valid sample has an inherited-name date the component returns no day, while the model returns one per date.
- CSS.
