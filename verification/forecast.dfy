/** The daily forecast aggregation (`buildDailyForecast` in src/App.tsx):
    a single pass over the 3-hour samples of the forecast response that
    groups them by calendar date into running min/max summaries, kept in
    the order each date was first seen, of which the first five are
    returned. */
module Forecast {
  import opened Wrappers
  import JsText
  import Sequences

  /** The most days the aggregation returns. */
  const MaxDays: nat := 5

  /** One element of the response's `list`, reduced to the fields the
      aggregation reads: `dt_txt`, `main.temp_min`, `main.temp_max`,
      `weather[0].icon` and `weather[0].description`. `None` stands for a
      value that is absent (`undefined` or `null`) or, for the two
      temperatures, is not of type number. */
  datatype RawSample = RawSample(
    dtTxt: Option<string>,
    tempMin: Option<int>,
    tempMax: Option<int>,
    icon: Option<string>,
    description: Option<string>)

  /** A sample that passed the data-quality filter. */
  datatype Reading = Reading(date: string, tempMin: int, tempMax: int, icon: string, description: string)

  /** One day of the result (`ForecastEntry` in the source). */
  datatype ForecastEntry = ForecastEntry(date: string, min: int, max: int, description: string, icon: string)

  /** JavaScript truthiness of an optional string. */
  predicate Truthy(s: Option<string>) {
    s.Some? && s.value != ""
  }

  /** What the filter guarantees of every reading it lets through. */
  predicate WellFormed(r: Reading) {
    r.date != "" && ' ' !in r.date && r.icon != "" && r.description != ""
  }

  /** The filter: a sample is kept when its date prefix is non-empty, both
      temperatures are numbers and icon and description are truthy. */
  function Parse(e: RawSample): (r: Option<Reading>)
    ensures r.Some? <==>
      && e.dtTxt.Some? && e.dtTxt.value != "" && e.dtTxt.value[0] != ' '
      && e.tempMin.Some? && e.tempMax.Some? && Truthy(e.icon) && Truthy(e.description)
    ensures r.Some? ==>
      && WellFormed(r.value)
      && r.value.date <= e.dtTxt.value
      && (|r.value.date| < |e.dtTxt.value| ==> e.dtTxt.value[|r.value.date|] == ' ')
      && r.value.tempMin == e.tempMin.value && r.value.tempMax == e.tempMax.value
      && r.value.icon == e.icon.value && r.value.description == e.description.value
  {
    match e.dtTxt
    case None => None
    case Some(txt) =>
      var date := JsText.BeforeFirstSpace(txt);
      if date == "" then None
      else if e.tempMin.None? || e.tempMax.None? || !Truthy(e.icon) || !Truthy(e.description) then None
      else Some(Reading(date, e.tempMin.value, e.tempMax.value, e.icon.value, e.description.value))
  }

  /** The samples that pass the filter, in input order. */
  function ValidReadings(list: seq<RawSample>): (rs: seq<Reading>)
    ensures |rs| <= |list|
    ensures forall j :: 0 <= j < |rs| ==> WellFormed(rs[j])
  {
    if |list| == 0 then []
    else
      var rest := ValidReadings(list[..|list| - 1]);
      match Parse(list[|list| - 1])
      case None => rest
      case Some(r) => rest + [r]
  }

  function Min(a: int, b: int): int { if a <= b then a else b }

  function Max(a: int, b: int): int { if a >= b then a else b }

  /** The accumulator a date's first reading creates. */
  function Seed(r: Reading): ForecastEntry {
    ForecastEntry(r.date, r.tempMin, r.tempMax, r.description, r.icon)
  }

  /** A later reading of the same date folded into its accumulator: running
      min and max, and icon/description replaced only when empty (`||`). */
  function Merge(e: ForecastEntry, r: Reading): ForecastEntry {
    ForecastEntry(
      e.date,
      Min(e.min, r.tempMin),
      Max(e.max, r.tempMax),
      if e.description != "" then e.description else r.description,
      if e.icon != "" then e.icon else r.icon)
  }

  /** The dates of the accumulated days, in order. */
  function EntryDates(days: seq<ForecastEntry>): (ds: seq<string>)
    ensures |ds| == |days|
    ensures forall i :: 0 <= i < |days| ==> ds[i] == days[i].date
  {
    seq(|days|, i requires 0 <= i < |days| => days[i].date)
  }

  /** The dates of the readings, in order. */
  function ReadingDates(rs: seq<Reading>): (ds: seq<string>)
    ensures |ds| == |rs|
    ensures forall j :: 0 <= j < |rs| ==> ds[j] == rs[j].date
  {
    seq(|rs|, j requires 0 <= j < |rs| => rs[j].date)
  }

  /** Position of the accumulator for `date`, if there is one (the
      `days[date]` lookup). */
  function Find(days: seq<ForecastEntry>, date: string): (r: Option<nat>)
    ensures r.None? ==> date !in EntryDates(days)
    ensures r.Some? ==> r.value < |days| && days[r.value].date == date
  {
    if |days| == 0 then None
    else if days[0].date == date then Some(0)
    else
      match Find(days[1..], date)
      case None => None
      case Some(k) => Some(k + 1)
  }

  /** One valid reading folded into the insertion-ordered accumulators. */
  function Insert(days: seq<ForecastEntry>, r: Reading): seq<ForecastEntry> {
    match Find(days, r.date)
    case None => days + [Seed(r)]
    case Some(k) => days[k := Merge(days[k], r)]
  }

  /** One iteration of the `forEach` callback. */
  function Step(days: seq<ForecastEntry>, e: RawSample): seq<ForecastEntry> {
    match Parse(e)
    case None => days
    case Some(r) => Insert(days, r)
  }

  /** The properties every object literal inherits from `Object.prototype`.
      For one of these names `days[date]` is already truthy before any
      sample of that date is stored. */
  const PrototypeNames: set<string> := {
    "constructor", "hasOwnProperty", "isPrototypeOf", "propertyIsEnumerable",
    "toString", "toLocaleString", "valueOf", "__proto__",
    "__defineGetter__", "__defineSetter__", "__lookupGetter__", "__lookupSetter__"}

  predicate IsDigit(c: char) { '0' <= c <= '9' }

  /** A key of a plain object that behaves like an entry of an
      insertion-ordered list: not an inherited name, and not made only of
      digits (every array-index key, which `Object.entries` lists first in
      numeric order, is made only of digits). */
  predicate PlainKey(d: string) {
    d !in PrototypeNames && !(d != "" && forall i :: 0 <= i < |d| ==> IsDigit(d[i]))
  }

  /** A `YYYY-MM-DD` date is a plain key. */
  lemma IsoDateIsPlainKey(d: string)
    requires |d| == 10 && d[4] == '-' && d[7] == '-'
    ensures PlainKey(d)
  {
  }

  /** The accumulators after the whole `forEach` pass: one per date, no
      date twice. */
  function Days(list: seq<RawSample>): (days: seq<ForecastEntry>)
    ensures Sequences.AllDistinct(EntryDates(days))
    ensures |days| <= |list|
  {
    if |list| == 0 then []
    else
      var before := Days(list[..|list| - 1]);
      var e := list[|list| - 1];
      Step(before, e)
  }

  /** `buildDailyForecast(list)`: the accumulators in insertion order,
      truncated to the first five. */
  function BuildDailyForecast(list: seq<RawSample>): (out: seq<ForecastEntry>)
    ensures |out| <= MaxDays
    ensures out <= Days(list)
    ensures |out| == Min(MaxDays, |Days(list)|)
  {
    var days := Days(list);
    if |days| <= MaxDays then days else days[..MaxDays]
  }
}
