/**
  Worked cases of the dataset's queries and of the date-setter rollback,
  on small concrete series.
 */
module Scenarios {
  import opened Series
  import opened Archive
  import opened Temps

  /** A dataset loaded with two days of 10.0 and 20.0 averages 15.0. */
  method AverageOfTwoDays() returns (average: Outcome<real>)
    ensures average == Return(15.0)
  {
    var geocode := (zip: string) => Place(Some(47.6), Some(-122.3), "Seattle");
    var archive := (q: Query) => Fetched(Daily(["d1", "d2"], [10.0, 20.0]));
    var created := HistoricalTemps.Create("98101", DefaultStart, DefaultEnd, geocode, archive);
    assert created.Return?;
    var temps := created.value;
    assert temps.series == [Day("d1", 10.0), Day("d2", 20.0)];
    average := temps.AverageTemp();
  }

  lemma ExtremeDaysOfTwoDays()
    ensures ExtremeDays([Day("d1", 10.0), Day("d2", 20.0)], 15.0) == [Day("d2", 20.0)]
  {
  }

  lemma TopDayOfThree()
    ensures TopXDays([Day("d1", 10.0), Day("d2", 30.0), Day("d3", 20.0)], 1) == [Day("d2", 30.0)]
  {
  }

  /** Asking for more days than there are returns the whole series, hottest first, ties in order. */
  lemma TopDaysBeyondLength()
    ensures TopXDays([Day("d1", 10.0), Day("d2", 30.0), Day("d3", 10.0)], DefaultTopDays) ==
            [Day("d2", 30.0), Day("d1", 10.0), Day("d3", 10.0)]
  {
  }

  /**
    A dataset loads; moving its start to a date the archive answers with an
    error object (no `daily` key) raises the start-date `LookupError` and
    leaves the range and the series as they were.
   */
  method RollbackOnInvalidStart() returns (temps: HistoricalTemps, after: Outcome<()>)
    ensures after == Raise(LookupError(InvalidStartMessage))
    ensures temps.start == DefaultStart && temps.end == DefaultEnd
    ensures temps.series == [Day("1950-08-13", 20.0)]
  {
    var geocode := (zip: string) => Place(Some(47.6), Some(-122.3), "Seattle");
    var archive := (q: Query) =>
      if q.startDate == DefaultStart then Fetched(Daily(["1950-08-13"], [20.0]))
      else Fetched(MissingKey("daily"));
    var created := HistoricalTemps.Create("98101", DefaultStart, DefaultEnd, geocode, archive);
    assert created.Return?;
    temps := created.value;
    after := temps.SetStart("1950-02-30", archive);
  }
}
