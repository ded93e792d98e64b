/** The properties `buildDailyForecast` promises its caller, derived from
    the characterisation in `ForecastSpec`. */
module ForecastProperties {
  import opened Wrappers
  import Sequences
  import opened Forecast
  import opened ForecastSpec
  import JsText

  /** Filtering distributes over concatenation of sample lists. */
  lemma {:induction false} ValidReadingsConcat(a: seq<RawSample>, b: seq<RawSample>)
    ensures ValidReadings(a + b) == ValidReadings(a) + ValidReadings(b)
  {
    if |b| > 0 {
      var b' := b[..|b| - 1];
      assert (a + b)[..|a + b| - 1] == a + b';
      assert (a + b)[|a + b| - 1] == b[|b| - 1];
      ValidReadingsConcat(a, b');
    } else {
      assert a + b == a;
    }
  }

  /** No valid reading is left exactly when no sample passes the filter. */
  lemma {:induction false} ValidReadingsEmpty(list: seq<RawSample>)
    ensures ValidReadings(list) == [] <==> forall i :: 0 <= i < |list| ==> Parse(list[i]).None?
  {
    if |list| > 0 {
      var p := list[..|list| - 1];
      ValidReadingsEmpty(p);
      assert forall i :: 0 <= i < |p| ==> p[i] == list[i];
    }
  }

  /** Every valid reading is the parse of some sample. */
  lemma {:induction false} ValidReadingsSound(list: seq<RawSample>)
    ensures forall j :: 0 <= j < |ValidReadings(list)| ==>
      exists i :: 0 <= i < |list| && Parse(list[i]) == Some(ValidReadings(list)[j])
  {
    if |list| > 0 {
      var p := list[..|list| - 1];
      ValidReadingsSound(p);
      var rs := ValidReadings(list);
      forall j | 0 <= j < |rs|
        ensures exists i :: 0 <= i < |list| && Parse(list[i]) == Some(rs[j])
      {
        if j < |ValidReadings(p)| {
          var i :| 0 <= i < |p| && Parse(p[i]) == Some(ValidReadings(p)[j]);
          assert list[i] == p[i];
        } else {
          assert Parse(list[|list| - 1]) == Some(rs[j]);
        }
      }
    } else {
      assert ValidReadings(list) == [];
    }
  }

  /** The result's dates are the first `MaxDays` distinct dates of the
      valid samples, in first-seen order. */
  lemma ForecastDatesAreFirstDistinct(list: seq<RawSample>)
    ensures EntryDates(BuildDailyForecast(list)) == DistinctDates(list)[..Min(MaxDays, |DistinctDates(list)|)]
  {
    var days, out := Days(list), BuildDailyForecast(list);
    DaysCharacterised(list);
    assert EntryDates(out) == EntryDates(days)[..|out|];
  }

  /** Each returned day summarises all valid samples of its date. */
  lemma ForecastDaysSummarise(list: seq<RawSample>)
    ensures forall i :: 0 <= i < |BuildDailyForecast(list)| ==>
      Summarises(BuildDailyForecast(list)[i], ValidReadings(list))
  {
    DaysCharacterised(list);
  }

  /** At most five days, never more than there are distinct valid dates,
      and exactly five when there are at least five. */
  lemma ForecastBounds(list: seq<RawSample>)
    ensures |BuildDailyForecast(list)| <= MaxDays
    ensures |BuildDailyForecast(list)| <= |DistinctDates(list)|
    ensures |DistinctDates(list)| >= MaxDays ==> |BuildDailyForecast(list)| == MaxDays
  {
    ForecastDatesAreFirstDistinct(list);
  }

  /** The result is empty exactly when no sample passes the filter; in
      particular an empty list gives an empty result. */
  lemma ForecastEmptyIffNoValidSample(list: seq<RawSample>)
    ensures BuildDailyForecast(list) == [] <==> forall i :: 0 <= i < |list| ==> Parse(list[i]).None?
  {
    ForecastDatesAreFirstDistinct(list);
    ValidReadingsEmpty(list);
    var rs := ValidReadings(list);
    if rs != [] {
      assert ReadingDates(rs)[0] in ReadingDates(rs);
      Sequences.DedupSameElements(ReadingDates(rs));
      assert |DistinctDates(list)| > 0;
    }
  }

  /** Output dates are pairwise distinct and each is the date of a valid
      sample. */
  lemma ForecastDatesDistinct(list: seq<RawSample>)
    ensures Sequences.AllDistinct(EntryDates(BuildDailyForecast(list)))
    ensures forall i :: 0 <= i < |BuildDailyForecast(list)| ==>
      BuildDailyForecast(list)[i].date in ReadingDates(ValidReadings(list))
  {
    var out, rd := BuildDailyForecast(list), ReadingDates(ValidReadings(list));
    var ds := Sequences.Dedup(rd);
    ForecastDatesAreFirstDistinct(list);
    Sequences.DedupSameElements(rd);
    Sequences.DedupDistinct(rd);
    assert EntryDates(out) == ds[..|out|];
    forall i | 0 <= i < |out|
      ensures out[i].date in rd
    {
      assert EntryDates(out)[i] == out[i].date;
      assert ds[i] in ds;
    }
  }

  /** Output dates come in first-seen order, and every valid date left out
      was first seen after all the dates kept. */
  lemma ForecastDatesFirstSeen(list: seq<RawSample>)
    ensures var out, rd := BuildDailyForecast(list), ReadingDates(ValidReadings(list));
      && (forall i :: 0 <= i < |out| ==> out[i].date in rd)
      && (forall i, j :: 0 <= i < j < |out| ==>
            Sequences.FirstIndex(rd, out[i].date) < Sequences.FirstIndex(rd, out[j].date))
      && (forall d, i :: d in rd && d !in EntryDates(out) && 0 <= i < |out| ==>
            Sequences.FirstIndex(rd, out[i].date) < Sequences.FirstIndex(rd, d))
  {
    var out, rd := BuildDailyForecast(list), ReadingDates(ValidReadings(list));
    var ds := Sequences.Dedup(rd);
    ForecastDatesAreFirstDistinct(list);
    ForecastDatesDistinct(list);
    Sequences.DedupSameElements(rd);
    Sequences.DedupFirstSeenOrder(rd);
    var n := |out|;
    assert EntryDates(out) == ds[..n];
    forall i | 0 <= i < n
      ensures out[i].date == ds[i]
    {
      assert EntryDates(out)[i] == out[i].date;
    }
    forall d, i | d in rd && d !in EntryDates(out) && 0 <= i < n
      ensures Sequences.FirstIndex(rd, out[i].date) < Sequences.FirstIndex(rd, d)
    {
      assert d in ds;
      var q := Sequences.FirstIndex(ds, d);
      assert i < q;
    }
  }

  /** A sample the filter rejects contributes nothing: removing it leaves the
      result unchanged. */
  lemma DropInvalidSample(list: seq<RawSample>, i: nat)
    requires i < |list| && Parse(list[i]).None?
    ensures BuildDailyForecast(list[..i] + list[i + 1..]) == BuildDailyForecast(list)
  {
    var shorter := list[..i] + list[i + 1..];
    assert list == list[..i] + ([list[i]] + list[i + 1..]);
    ValidReadingsConcat(list[..i], [list[i]] + list[i + 1..]);
    ValidReadingsConcat([list[i]], list[i + 1..]);
    ValidReadingsConcat(list[..i], list[i + 1..]);
    assert [list[i]][..0] == [];
    assert ValidReadings([list[i]]) == [];
    assert ValidReadings(shorter) == ValidReadings(list);
    DaysCharacterised(list);
    DaysCharacterised(shorter);
    CharacterisationUnique(Days(list), Days(shorter), ValidReadings(list));
  }

  /** When every valid sample has `temp_min <= temp_max`, every day has
      `min <= max`. */
  lemma ForecastMinAtMostMax(list: seq<RawSample>)
    requires forall i :: 0 <= i < |list| && Parse(list[i]).Some? ==>
      list[i].tempMin.value <= list[i].tempMax.value
    ensures forall k :: 0 <= k < |BuildDailyForecast(list)| ==>
      BuildDailyForecast(list)[k].min <= BuildDailyForecast(list)[k].max
  {
    var out, rs := BuildDailyForecast(list), ValidReadings(list);
    ForecastDaysSummarise(list);
    ValidReadingsSound(list);
    forall k | 0 <= k < |out|
      ensures out[k].min <= out[k].max
    {
      assert Summarises(out[k], rs);
      var b :| 0 <= b < |rs| && rs[b].date == out[k].date && rs[b].tempMax == out[k].max;
      var i :| 0 <= i < |list| && Parse(list[i]) == Some(rs[b]);
      assert rs[b].tempMin <= rs[b].tempMax;
    }
  }

  /** Two samples of one date: the first sample's icon and description
      stay, the temperatures are reduced to the lowest minimum and the
      highest maximum. */
  lemma PinningAndReductionExample()
    ensures BuildDailyForecast([
      RawSample(Some("d1 09"), Some(10), Some(20), Some("01d"), Some("clear")),
      RawSample(Some("d1 12"), Some(5), Some(25), Some("02d"), Some("clouds"))])
      == [ForecastEntry("d1", 5, 25, "clear", "01d")]
  {
    var a := RawSample(Some("d1 09"), Some(10), Some(20), Some("01d"), Some("clear"));
    var b := RawSample(Some("d1 12"), Some(5), Some(25), Some("02d"), Some("clouds"));
    var ra := Reading("d1", 10, 20, "01d", "clear");
    var rb := Reading("d1", 5, 25, "02d", "clouds");
    JsText.BeforeFirstSpaceOfStamp("d1", "09");
    JsText.BeforeFirstSpaceOfStamp("d1", "12");
    assert "d1" + " " + "09" == "d1 09" && "d1" + " " + "12" == "d1 12";
    assert Parse(a) == Some(ra);
    assert Parse(b) == Some(rb);
    assert [a, b][..1] == [a];
    assert [a][..0] == [];
    assert Days([a]) == [Seed(ra)];
    assert Find([Seed(ra)], rb.date) == Some(0);
    assert Days([a, b]) == [Merge(Seed(ra), rb)];
  }
}
