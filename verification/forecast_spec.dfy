/** What `buildDailyForecast` computes, stated without the fold: each
    returned day summarises the valid samples of its date, and the days are
    the first five distinct dates in the order they were first seen. */
module ForecastSpec {
  import opened Wrappers
  import Sequences
  import opened Forecast

  /** `m` is the lowest `temp_min` among the readings dated `d`, and one of
      them has it. */
  ghost predicate IsLowest(rs: seq<Reading>, d: string, m: int) {
    && (exists j :: 0 <= j < |rs| && rs[j].date == d && rs[j].tempMin == m)
    && (forall j :: 0 <= j < |rs| && rs[j].date == d ==> m <= rs[j].tempMin)
  }

  /** `m` is the highest `temp_max` among the readings dated `d`, and one of
      them has it. */
  ghost predicate IsHighest(rs: seq<Reading>, d: string, m: int) {
    && (exists j :: 0 <= j < |rs| && rs[j].date == d && rs[j].tempMax == m)
    && (forall j :: 0 <= j < |rs| && rs[j].date == d ==> rs[j].tempMax <= m)
  }

  /** `rs[j]` is the first reading dated `d`. */
  ghost predicate IsFirstFor(rs: seq<Reading>, d: string, j: int) {
    0 <= j < |rs| && rs[j].date == d && forall k :: 0 <= k < j ==> rs[k].date != d
  }

  /** `e` is the summary of the readings of its date: their lowest minimum,
      their highest maximum, and the icon and description of the first. */
  ghost predicate Summarises(e: ForecastEntry, rs: seq<Reading>) {
    && IsLowest(rs, e.date, e.min)
    && IsHighest(rs, e.date, e.max)
    && exists j :: IsFirstFor(rs, e.date, j) && rs[j].icon == e.icon && rs[j].description == e.description
  }

  /** `days` holds one summary per distinct date of `rs`, in first-seen order. */
  ghost predicate Characterises(days: seq<ForecastEntry>, rs: seq<Reading>) {
    && EntryDates(days) == Sequences.Dedup(ReadingDates(rs))
    && forall i :: 0 <= i < |days| ==> Summarises(days[i], rs)
  }

  /** The distinct dates of the valid samples of `list`, in first-seen order. */
  function DistinctDates(list: seq<RawSample>): seq<string> {
    Sequences.Dedup(ReadingDates(ValidReadings(list)))
  }

  /** A summary stays one when a reading of another date is appended. */
  lemma SummaryExtends(e: ForecastEntry, rs: seq<Reading>, r: Reading)
    requires Summarises(e, rs)
    requires e.date != r.date
    ensures Summarises(e, rs + [r])
  {
    var rs' := rs + [r];
    var a :| 0 <= a < |rs| && rs[a].date == e.date && rs[a].tempMin == e.min;
    assert rs'[a] == rs[a];
    var b :| 0 <= b < |rs| && rs[b].date == e.date && rs[b].tempMax == e.max;
    assert rs'[b] == rs[b];
    var f :| IsFirstFor(rs, e.date, f) && rs[f].icon == e.icon && rs[f].description == e.description;
    assert rs'[f] == rs[f];
    assert IsFirstFor(rs', e.date, f);
  }

  /** A date's first reading seeds its summary. */
  lemma SummarySeed(rs: seq<Reading>, r: Reading)
    requires r.date !in ReadingDates(rs)
    ensures Summarises(Seed(r), rs + [r])
  {
    var rs' := rs + [r];
    forall j | 0 <= j < |rs|
      ensures rs'[j].date != r.date
    {
      assert ReadingDates(rs)[j] == rs[j].date;
    }
    assert rs'[|rs|] == r;
    assert IsFirstFor(rs', r.date, |rs|);
  }

  /** A later reading of a date folds into its summary; the icon and
      description of the first reading stay. */
  lemma SummaryMerge(e: ForecastEntry, rs: seq<Reading>, r: Reading)
    requires Summarises(e, rs)
    requires e.date == r.date
    requires forall j :: 0 <= j < |rs| ==> WellFormed(rs[j])
    ensures Summarises(Merge(e, r), rs + [r])
  {
    var rs' := rs + [r];
    var m := Merge(e, r);
    assert rs'[|rs|] == r;
    var a :| 0 <= a < |rs| && rs[a].date == e.date && rs[a].tempMin == e.min;
    assert rs'[a] == rs[a];
    var b :| 0 <= b < |rs| && rs[b].date == e.date && rs[b].tempMax == e.max;
    assert rs'[b] == rs[b];
    assert IsLowest(rs', m.date, m.min) by {
      if e.min <= r.tempMin {
        assert rs'[a].tempMin == m.min;
      } else {
        assert rs'[|rs|].tempMin == m.min;
      }
    }
    assert IsHighest(rs', m.date, m.max) by {
      if e.max >= r.tempMax {
        assert rs'[b].tempMax == m.max;
      } else {
        assert rs'[|rs|].tempMax == m.max;
      }
    }
    var f :| IsFirstFor(rs, e.date, f) && rs[f].icon == e.icon && rs[f].description == e.description;
    assert WellFormed(rs[f]);
    assert rs'[f] == rs[f];
    assert IsFirstFor(rs', e.date, f);
  }

  /** A reading of a new date appends a seeded summary. */
  lemma InsertNewCharacterised(days: seq<ForecastEntry>, rs: seq<Reading>, r: Reading)
    requires Characterises(days, rs)
    requires r.date !in ReadingDates(rs)
    ensures Characterises(days + [Seed(r)], rs + [r])
  {
    var rs' := rs + [r];
    var out := days + [Seed(r)];
    assert ReadingDates(rs') == ReadingDates(rs) + [r.date];
    Sequences.DedupAppend(ReadingDates(rs), r.date);
    assert EntryDates(out) == EntryDates(days) + [r.date];
    forall i | 0 <= i < |out|
      ensures Summarises(out[i], rs')
    {
      if i < |days| {
        assert EntryDates(days)[i] == days[i].date;
        assert days[i].date in ReadingDates(rs);
        SummaryExtends(days[i], rs, r);
      } else {
        SummarySeed(rs, r);
      }
    }
  }

  /** A reading of a date already present merges into that date's summary
      and leaves the others as they were. */
  lemma InsertMergeCharacterised(days: seq<ForecastEntry>, rs: seq<Reading>, r: Reading, k: nat)
    requires Characterises(days, rs)
    requires forall j :: 0 <= j < |rs| ==> WellFormed(rs[j])
    requires k < |days| && days[k].date == r.date
    ensures Characterises(days[k := Merge(days[k], r)], rs + [r])
  {
    var rs' := rs + [r];
    var out := days[k := Merge(days[k], r)];
    assert ReadingDates(rs') == ReadingDates(rs) + [r.date];
    assert EntryDates(days)[k] == r.date;
    Sequences.DedupSameElements(ReadingDates(rs));
    assert r.date in ReadingDates(rs);
    Sequences.DedupAppend(ReadingDates(rs), r.date);
    assert EntryDates(out) == EntryDates(days);
    Sequences.DedupDistinct(ReadingDates(rs));
    forall i | 0 <= i < |out|
      ensures Summarises(out[i], rs')
    {
      if i == k {
        SummaryMerge(days[k], rs, r);
      } else {
        assert EntryDates(days)[i] != EntryDates(days)[k];
        SummaryExtends(days[i], rs, r);
      }
    }
  }

  /** Folding one more valid reading keeps the accumulators a complete
      summary of the readings seen so far. */
  lemma InsertCharacterised(days: seq<ForecastEntry>, rs: seq<Reading>, r: Reading)
    requires Characterises(days, rs)
    requires forall j :: 0 <= j < |rs| ==> WellFormed(rs[j])
    ensures Characterises(Insert(days, r), rs + [r])
  {
    match Find(days, r.date)
    case None =>
      Sequences.DedupSameElements(ReadingDates(rs));
      InsertNewCharacterised(days, rs, r);
    case Some(k) =>
      InsertMergeCharacterised(days, rs, r, k);
  }

  /** The whole pass: the accumulators summarise the valid samples, one per
      distinct date, in first-seen order. */
  lemma {:induction false} DaysCharacterised(list: seq<RawSample>)
    ensures Characterises(Days(list), ValidReadings(list))
  {
    if |list| > 0 {
      var p := list[..|list| - 1];
      DaysCharacterised(p);
      match Parse(list[|list| - 1])
      case None =>
      case Some(r) =>
        InsertCharacterised(Days(p), ValidReadings(p), r);
    }
  }

  /** The characterisation fixes the accumulators completely. */
  lemma CharacterisationUnique(d1: seq<ForecastEntry>, d2: seq<ForecastEntry>, rs: seq<Reading>)
    requires Characterises(d1, rs) && Characterises(d2, rs)
    ensures d1 == d2
  {
  }
}
