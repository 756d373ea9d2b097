/**
  The `HistoricalTemps` dataset: a postal code resolved once to a place,
  a date range, and the temperature series loaded for that range. Setting
  either end of the range reloads the series; a reload that fails with a
  `LookupError` puts the old date back.

  The geocoder and the weather archive are outside the model: both are
  passed in as functions from what is asked to what comes back.
 */
module Temps {
  import opened Series
  import opened Archive

  datatype Option<T> = None | Some(value: T)

  /**
    What the geocoder reports for a postal code; a coordinate it could not
    resolve (NaN in the source) is `None`.
   */
  datatype Place = Place(latitude: Option<real>, longitude: Option<real>, placeName: string)

  const DefaultStart := "1950-08-13"
  const DefaultEnd := "2023-08-25"

  const InvalidZipMessage := "Invalid zip code, please try again."
  const InvalidStartMessage := "Invalid start date, reloading."
  const InvalidEndMessage := "invalid end date, reloading."

  class HistoricalTemps {
    const zipCode: string
    const latitude: real
    const longitude: real
    const locName: string
    var start: string
    var end: string
    var series: seq<Day>

    /** The query a reload sends for the current location and date range. */
    function CurrentQuery(): Query
      reads this
    {
      ArchiveQuery(latitude, longitude, start, end)
    }

    /**
      The part of `__init__` after the coordinates passed the check, up to
      the initial load; the series is empty until that load.
     */
    constructor Init(zipCode: string, start: string, end: string,
                     latitude: real, longitude: real, locName: string)
      ensures this.zipCode == zipCode && this.start == start && this.end == end
      ensures this.latitude == latitude && this.longitude == longitude && this.locName == locName
      ensures series == []
    {
      this.zipCode := zipCode;
      this.start := start;
      this.end := end;
      this.latitude := latitude;
      this.longitude := longitude;
      this.locName := locName;
      series := [];
    }

    /**
      `__init__` as a whole: geocode the postal code, reject it when a
      coordinate is missing, otherwise build the dataset and load its series.
      A failing initial load raises its exception and no dataset results.
     */
    static method Create(zipCode: string, start: string, end: string,
                         geocode: string -> Place, archive: Query -> Response)
      returns (r: Outcome<HistoricalTemps>)
      ensures var place := geocode(zipCode);
              place.latitude.None? || place.longitude.None? ==>
                r == Raise(LookupError(InvalidZipMessage))
      ensures var place := geocode(zipCode);
              place.latitude.Some? && place.longitude.Some? ==>
                var loaded := Load(archive(ArchiveQuery(place.latitude.value, place.longitude.value, start, end)));
                (loaded.Raise? ==> r == Raise(loaded.exc)) &&
                (loaded.Return? ==>
                   r.Return? && fresh(r.value) &&
                   r.value.series == loaded.value &&
                   r.value.zipCode == zipCode && r.value.start == start && r.value.end == end &&
                   r.value.latitude == place.latitude.value &&
                   r.value.longitude == place.longitude.value &&
                   r.value.locName == place.placeName)
    {
      var place := geocode(zipCode);
      if place.latitude.None? || place.longitude.None? {
        return Raise(LookupError(InvalidZipMessage));
      }
      var temps := new HistoricalTemps.Init(zipCode, start, end,
                                            place.latitude.value, place.longitude.value, place.placeName);
      var loaded := temps.LoadTemps(archive);
      if loaded.Raise? {
        return Raise(loaded.exc);
      }
      r := Return(temps);
    }

    /**
      `_load_temps`: query the archive for the current range and replace
      the series with the parsed answer; on any exception the series is
      left as it was and the exception is raised.
     */
    method LoadTemps(archive: Query -> Response) returns (r: Outcome<()>)
      modifies this`series
      ensures var loaded := Load(archive(CurrentQuery()));
              (loaded.Return? ==> r == Return(()) && series == loaded.value) &&
              (loaded.Raise? ==> r == Raise(loaded.exc) && series == old(series))
    {
      var response := archive(CurrentQuery());
      match response
      case TransportFailure =>
        return Raise(RequestException);
      case Fetched(body) =>
        var parsed := ConvertJsonToList(body);
        if parsed.Raise? {
          return Raise(parsed.exc);
        }
        series := parsed.value;
        r := Return(());
    }

    /**
      The `start` setter. On success the new start date and the new series
      stand. A `LookupError` restores the old start date, keeps the old
      series and raises a fresh `LookupError`. Any other exception passes
      through uncaught: the new start date stays, with the old series.
     */
    method SetStart(newStart: string, archive: Query -> Response) returns (r: Outcome<()>)
      modifies this`start, this`series
      ensures end == old(end)
      ensures var loaded := Load(archive(ArchiveQuery(latitude, longitude, newStart, old(end))));
              (loaded.Return? ==> r == Return(()) && start == newStart && series == loaded.value) &&
              (loaded.Raise? && loaded.exc.LookupError? ==>
                 r == Raise(LookupError(InvalidStartMessage)) && start == old(start) && series == old(series)) &&
              (loaded.Raise? && !loaded.exc.LookupError? ==>
                 r == Raise(loaded.exc) && start == newStart && series == old(series))
    {
      var oldStart := start;
      start := newStart;
      r := LoadTemps(archive);
      if r.Raise? && r.exc.LookupError? {
        start := oldStart;
        r := Raise(LookupError(InvalidStartMessage));
      }
    }

    /** The `end` setter: the same protocol as `SetStart`, on the end date. */
    method SetEnd(newEnd: string, archive: Query -> Response) returns (r: Outcome<()>)
      modifies this`end, this`series
      ensures start == old(start)
      ensures var loaded := Load(archive(ArchiveQuery(latitude, longitude, old(start), newEnd)));
              (loaded.Return? ==> r == Return(()) && end == newEnd && series == loaded.value) &&
              (loaded.Raise? && loaded.exc.LookupError? ==>
                 r == Raise(LookupError(InvalidEndMessage)) && end == old(end) && series == old(series)) &&
              (loaded.Raise? && !loaded.exc.LookupError? ==>
                 r == Raise(loaded.exc) && end == newEnd && series == old(series))
    {
      var oldEnd := end;
      end := newEnd;
      r := LoadTemps(archive);
      if r.Raise? && r.exc.LookupError? {
        end := oldEnd;
        r := Raise(LookupError(InvalidEndMessage));
      }
    }

    /**
      `average_temp`: the accumulated sum of the temperatures divided by
      the number of days; an empty series raises `ZeroDivisionError`.
     */
    method AverageTemp() returns (r: Outcome<real>)
      ensures |series| == 0 <==> r == Raise(ZeroDivisionError)
      ensures |series| > 0 ==> r == Return(Sum(series) / |series| as real)
    {
      var total := 0.0;
      for i := 0 to |series|
        invariant total == Sum(series[..i])
      {
        assert series[..i + 1][..i] == series[..i];
        total := total + series[i].temp;
      }
      assert series[..|series|] == series;
      if |series| == 0 {
        return Raise(ZeroDivisionError);
      }
      r := Return(total / |series| as real);
    }
  }
}
