# Historical temperatures: a Dafny model of the `HistoricalTemps` dataset

The application fetches the daily maximum temperatures of a US postal code
from the Open-Meteo archive and answers three questions about them: the
average, the days above a threshold, and the hottest days. Its one
non-trivial unit is the `HistoricalTemps` class in `FinalAsst.py`. This
project models that class and proves what it promises.

- `series.dfy`, module `Series`: the series of `(date, temperature)` days
  and the pure queries over it. These are `extreme_days` (an
  order-keeping strict-threshold filter) and `top_x_days` (a stable
  descending sort by temperature, then a prefix of length `n`). The sum
  behind `average_temp` is here too.
- `archive.dfy`, module `Archive`: the query a load sends, the shapes of
  answer it can get, the exceptions a load can raise, and
  `_convert_json_to_list`, whose loop zips the decoded `daily.time` and
  `daily.temperature_2m_max` arrays.
- `temps.dfy`, module `Temps`: the class `HistoricalTemps`. It has the
  construction guard against unresolvable coordinates, `_load_temps`, the
  `start`/`end` setters with their rollback, and the accumulator loop of
  `average_temp`.
- `scenarios.dfy`, module `Scenarios`: worked cases on small concrete
  series, and client scenarios of the average and of the rollback.

Temperatures are `real`. The queries use only `>`, `>=`, `==` and the sum.

The geocoder and the archive are function parameters:
`geocode: string -> Place` and `archive: Query -> Response`. A coordinate
the geocoder cannot resolve (NaN in the source) is `None`. A response is
one of these:

- a decoded body holding both arrays;
- a body that is JSON but lacks a key on the `daily` path;
- a body that is JSON, but it or its `daily` value is not an object;
- a body that is not JSON;
- a failed request.

The rollback depends on the second case. The archive answers an invalid
date with an error object that has no `daily` key. Indexing it raises
`KeyError`, which is a subclass of `LookupError`, so the setters catch it.
A body that is not an object raises `TypeError`, a body that is not JSON
raises `ValueError`, and a failed request raises `requests`' own
exception. None of these is a `LookupError`, so all pass through the
setters uncaught.

The model follows the code:

- The construction error is `LookupError("Invalid zip code, please try
  again.")`, as the code raises it.
- Pairing truncates to the shorter array, as `zip` does, and does not
  check that the arrays have equal length.
- Only a `LookupError` rolls a setter back. Any other failure leaves the
  new date assigned and the old series in place.
- The three messages keep the source's exact text, including the
  lower-case "invalid end date, reloading.".

The Python constructor can fail, and a Dafny constructor cannot. So
`__init__` is modelled as the static method `Create`, which returns
`Outcome<HistoricalTemps>`. The constructor `Init` covers only the part
after the coordinate check. The Python properties `start`, `end`,
`zip_code` and `loc_name` are plain fields. `extreme_days` and
`top_x_days` read only `self._temp_list`, so they are modelled as
functions of the series.

## Model

| member | source | states |
|---|---|---|
| `Series.ExtremeDays` | FinalAsst.py:53-56 | the result is no longer than the series; every returned day is in the series and strictly above the threshold; the result is empty exactly when no day is above the threshold |
| `Series.ExtremeDaysIsSubsequence` | FinalAsst.py:55-56 | the filtered days keep their series order: the result is a subsequence of the series |
| `Series.ExtremeDaysCount` | FinalAsst.py:55-56 | each day occurs in the result as often as in the series when it is above the threshold, and otherwise not at all; so a day is returned iff it is in the series and above the threshold |
| `Series.ExtremeDaysAppend` | FinalAsst.py:55-56 | filtering a concatenation is the concatenation of the filtered parts: the comprehension works day by day |
| `Series.SortByTemp` | FinalAsst.py:60-61 | the sort keyed on temperature returns a permutation of the series (same length, same multiset) |
| `Series.SortByTempIsStable` | FinalAsst.py:60-61 | the sorted series is non-increasing by temperature, and the days of each temperature appear in their original relative order, as the stable `sorted(..., reverse=True)` keeps them |
| `Series.StableDescendingSortUnique` | FinalAsst.py:60-61 | any non-increasing ordering that keeps ties in series order equals `SortByTemp` of the series, so the model's sort is that ordering |
| `Series.TopXDays` | FinalAsst.py:58-62 | `top_x_days(n)` returns `min(n, len)` days; with `n` at least the length it returns the whole series as a permutation |
| `Series.TopXDaysOrder` | FinalAsst.py:60-61 | the top days are non-increasing by temperature; for each temperature they are a prefix, in series order, of that temperature's days; with `n` at least the length they are the stable descending sort of the whole series |
| `Series.TopXDaysChoice` | FinalAsst.py:60-61 | the top days are a sub-multiset of the series, and no day left out is hotter than any day returned |
| `Series.AverageWithinRange` | FinalAsst.py:45-51 | for a non-empty series whose temperatures lie in `[lo, hi]`, the sum divided by the number of days also lies in `[lo, hi]` |
| `Archive.Paired` | FinalAsst.py:124-127 | the zipped series has `min(len(dates), len(temps))` entries, and entry `i` is `(dates[i], temps[i])` |
| `Archive.PairedUnzip` | FinalAsst.py:124-127 | the dates and temperatures of the zipped series are the two arrays cut to the shorter length |
| `Archive.UnzipPaired` | FinalAsst.py:124-127 | zipping the dates and temperatures of a series rebuilds the series |
| `Archive.ConvertJsonToList` | FinalAsst.py:118-127 | the pairing loop returns exactly the zipped arrays; a missing key raises `LookupError` naming it; a body or `daily` value that is not an object raises `TypeError`; a body that is not JSON raises `ValueError` |
| `Temps.HistoricalTemps.Init` | FinalAsst.py:16-28 | a new dataset holds the given postal code, range, coordinates and place name, and an empty series until its first load |
| `Temps.HistoricalTemps.Create` | FinalAsst.py:13-29 | a missing coordinate raises `LookupError("Invalid zip code, please try again.")`; otherwise the initial load for the given range either raises its exception and yields no dataset, or yields a fresh dataset whose fields are the inputs and whose series is the loaded one |
| `Temps.HistoricalTemps.LoadTemps` | FinalAsst.py:31-43 | the archive is queried with the current coordinates and range; on success the series becomes the parsed answer; on any exception that exception is raised and the series is unchanged |
| `Temps.HistoricalTemps.SetStart` | FinalAsst.py:84-93 | the end date is untouched; on success the start is the new date and the series is the newly loaded one; on a `LookupError` the old start is restored, the series is unchanged and `LookupError("Invalid start date, reloading.")` is raised; on any other exception that exception propagates, the new start stays and the series is unchanged |
| `Temps.HistoricalTemps.SetEnd` | FinalAsst.py:95-104 | the same as `SetStart` for the end date (start untouched, message "invalid end date, reloading.") |
| `Temps.HistoricalTemps.AverageTemp` | FinalAsst.py:45-51 | the accumulator loop ends holding the sum of all temperatures; the result is that sum divided by the number of days, and an empty series raises `ZeroDivisionError` (and only then) |
| `Scenarios.AverageOfTwoDays` | FinalAsst.py:45-51 | a dataset constructed from an archive answer of two days at 10.0 and 20.0 has `AverageTemp` return 15.0 |
| `Scenarios.ExtremeDaysOfTwoDays` | FinalAsst.py:53-56 | the threshold 15.0 keeps only the 20.0 day of a 10.0/20.0 series |
| `Scenarios.TopDayOfThree` | FinalAsst.py:58-62 | the top day of a 10.0/30.0/20.0 series is the 30.0 day |
| `Scenarios.TopDaysBeyondLength` | FinalAsst.py:58-62 | asking for the default 5 days of a three-day series returns all three, hottest first, the two tied days in series order |
| `Scenarios.RollbackOnInvalidStart` | FinalAsst.py:84-93 | after a successful construction, a start date that the archive answers with an error object raises the start-date `LookupError`, and the returned dataset still has the default range and the originally loaded series |

## Left out

- `zip_to_loc_info` (pgeocode lookup, FinalAsst.py:106-116): a foreign library call. Its result is the `geocode` parameter, with an unresolvable coordinate as `None`.
- `requests.get` and the HTTP exchange (FinalAsst.py:33-41): network I/O. The request is modelled by its fields (endpoint, coordinates, dates, `daily` and `timezone` parameters), and the answer is the `archive` parameter.
- `json.loads` and the dictionary look-ups (FinalAsst.py:121-123): library parsing. The model starts from the decoded arrays, a missing key, or a body that is not JSON. A `null` temperature in the JSON array is not modelled, because temperatures are `real`.
- Floating point: rounding in `+=` and `/` in `average_temp`, and NaN coordinates. Temperatures and coordinates are exact reals, and NaN is `None`.
- Negative `num_days` in `top_x_days`: Python would slice from the end, which is not an intended use. `n` is a `nat`.
- Default arguments: Dafny has no optional parameters here. The constants `DefaultStart`, `DefaultEnd` and `DefaultTopDays` hold the defaults.
- `_temp_list = None` before the first load (FinalAsst.py:28): no dataset escapes a failed first load, so this value cannot be observed. `Init` starts with an empty series instead.
- The CLI functions `create_dataset`, `compare_average_temps`, `print_extreme_days`, `print_top_five_days`, `change_dates`, `print_menu`, `menu` and `main` (FinalAsst.py:130-291): interactive input and printing.
