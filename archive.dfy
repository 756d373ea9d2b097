/**
  The weather archive as the dataset sees it: the query it sends, the
  shapes of answer it can get back, the exceptions a load can raise, and
  the step that pairs the decoded `daily.time` and
  `daily.temperature_2m_max` arrays into a series.

  The HTTP request and the JSON decoding are not modelled: a response is
  given as the outcome of both, already decoded.
 */
module Archive {
  import opened Series

  /** The exceptions of the source that the model distinguishes. */
  datatype Exception =
    | LookupError(message: string)  // LookupError, or its subclass KeyError naming the missing key
    | ValueError                     // the body is not JSON
    | TypeError                      // the body or its `daily` value is JSON but not an object
    | RequestException               // the HTTP request itself failed
    | ZeroDivisionError              // the average of an empty series

  /** A call that either returns a value or raises an exception. */
  datatype Outcome<T> = Return(value: T) | Raise(exc: Exception)

  const ArchiveUrl := "https://archive-api.open-meteo.com/v1/archive"
  const DailyVariable := "temperature_2m_max"
  const Timezone := "America/Los_Angeles"

  /** The request `_load_temps` sends: the fixed endpoint and its query parameters. */
  datatype Query = Query(
    url: string, latitude: real, longitude: real,
    startDate: string, endDate: string, daily: string, timezone: string)

  function ArchiveQuery(latitude: real, longitude: real, start: string, end: string): Query
  {
    Query(ArchiveUrl, latitude, longitude, start, end, DailyVariable, Timezone)
  }

  /** A response body, as decoding it would find it. */
  datatype Body =
    | Daily(time: seq<string>, maxTemps: seq<real>)  // `daily.time` and `daily.temperature_2m_max`
    | MissingKey(key: string)                        // JSON, but a key on that path is absent
    | NotAnObject                                    // JSON, but it or its `daily` value is not an object
    | NotJson                                        // not a JSON document

  /** What the archive answers a query with. */
  datatype Response = Fetched(body: Body) | TransportFailure

  /**
    The dates and temperatures zipped index by index; the longer array's
    extra entries are dropped, as `zip` drops them.
   */
  function Paired(dates: seq<string>, temps: seq<real>): (r: seq<Day>)
    ensures |r| == if |dates| <= |temps| then |dates| else |temps|
    ensures forall i :: 0 <= i < |r| ==> r[i] == Day(dates[i], temps[i])
  {
    if dates == [] || temps == [] then []
    else [Day(dates[0], temps[0])] + Paired(dates[1..], temps[1..])
  }

  function DatesOf(s: seq<Day>): seq<string>
  {
    seq(|s|, i requires 0 <= i < |s| => s[i].date)
  }

  function TempsOf(s: seq<Day>): seq<real>
  {
    seq(|s|, i requires 0 <= i < |s| => s[i].temp)
  }

  /** Splitting a paired series gives back the arrays, cut to the shorter length. */
  lemma PairedUnzip(dates: seq<string>, temps: seq<real>)
    ensures var m := if |dates| <= |temps| then |dates| else |temps|;
            DatesOf(Paired(dates, temps)) == dates[..m] && TempsOf(Paired(dates, temps)) == temps[..m]
  {
  }

  /** Pairing the dates and temperatures of a series rebuilds it. */
  lemma UnzipPaired(s: seq<Day>)
    ensures Paired(DatesOf(s), TempsOf(s)) == s
  {
  }

  /**
    `_convert_json_to_list`: from a decoded body, the series built by the
    pairing loop, or the exception decoding or key lookup raises.
   */
  method ConvertJsonToList(body: Body) returns (r: Outcome<seq<Day>>)
    ensures body.Daily? ==> r == Return(Paired(body.time, body.maxTemps))
    ensures body.MissingKey? ==> r == Raise(LookupError(body.key))
    ensures body.NotAnObject? ==> r == Raise(TypeError)
    ensures body.NotJson? ==> r == Raise(ValueError)
  {
    match body
    case NotAnObject =>
      r := Raise(TypeError);
    case NotJson =>
      r := Raise(ValueError);
    case MissingKey(key) =>
      r := Raise(LookupError(key));
    case Daily(dates, temps) =>
      var tempList: seq<Day> := [];
      var i := 0;
      while i < |dates| && i < |temps|
        invariant i <= |dates| && i <= |temps|
        invariant |tempList| == i
        invariant forall k :: 0 <= k < i ==> tempList[k] == Day(dates[k], temps[k])
      {
        tempList := tempList + [Day(dates[i], temps[i])];
        i := i + 1;
      }
      var paired := Paired(dates, temps);
      assert |paired| == i;
      assert forall k :: 0 <= k < i ==> tempList[k] == paired[k];
      assert tempList == paired;
      r := Return(tempList);
  }

  /** What one load makes of a response: the new series, or the exception it raises. */
  function Load(response: Response): Outcome<seq<Day>>
  {
    match response
    case TransportFailure => Raise(RequestException)
    case Fetched(Daily(dates, temps)) => Return(Paired(dates, temps))
    case Fetched(MissingKey(key)) => Raise(LookupError(key))
    case Fetched(NotAnObject) => Raise(TypeError)
    case Fetched(NotJson) => Raise(ValueError)
  }
}
