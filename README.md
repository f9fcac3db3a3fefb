# Weather trend analyzer — Dafny model

This project models the core of a small weather web service. The service
resolves a city name to coordinates, fetches about thirty days of daily
maximum temperature, minimum temperature and precipitation from a weather
archive, and reduces those series to summary statistics with a naive
next-day forecast:

- the overall mean of the daily maxima, the hottest maximum and the coldest minimum;
- a warming/cooling trend, from the means of the two halves of the window split by index;
- a "momentum" forecast: the last week's mean plus 0.3 times the trend magnitude;
- a precipitation forecast floored at 0;
- the rainy-day count, the total precipitation and the number of days.

The request handler checks the city name first. It then calls the geocoder
and then the archive. It runs the analysis and zips the daily arrays into
one record per day for the client's table and chart.

Three modules, one per component:

- `Series` (`series.dfy`) holds the building blocks. These are Python's `sum`, `max` and
  `min`, `statistics.mean` (sum divided by length, defined only on a
  non-empty list), the rainy-day count, the last-week window `s[-7:]` and
  the half split `s[:half]`, `s[half:]`.
- `Analyzer` (`analyzer.dfy`) is `analyze_weather_data`, written as pure functions
  with lemmas about its result.
- `Handler` (`handler.dfy`) is `get_weather`. It covers `str.strip`, the order of the
  validation and of the outbound calls, and the loop that builds the per-day
  records (an imperative method with loop invariants). The geocoder and the
  archive are function parameters. The method returns the reply together with
  the list of outbound calls it made, so "refused before any call" can be
  stated.

Temperatures and precipitation are exact `real`s, not binary floats. The
result's `trend` is the datatype `Trend`. `TrendLabel` gives the Russian
label the service sends for it.

With one day, `half` is 0 and `statistics.mean` of the empty first half
raises (main.py:73-74). With no days, the overall mean already raises
(main.py:68). So `AnalyzeWeather` returns `None` for fewer than two days,
and `GetWeather` answers `AnalysisFailed` (an uncaught exception, which the
web framework turns into a 500).

## Model

| member | source | states |
|---|---|---|
| `Series.SumAppend` | main.py:107 | the total of a concatenation is the sum of the parts' totals |
| `Series.SumAtMost` | main.py:107 | a common upper bound on the elements bounds the total by length times that bound |
| `Series.SumAtLeast` | main.py:107 | a common lower bound on the elements bounds the total from below by length times that bound |
| `Series.Sum` | main.py:107 | Python's `sum`: the readings added left to right from 0; its properties are the lemmas `SumAppend`, `SumAtMost` and `SumAtLeast` |
| `Series.Mean` | main.py:68 | `statistics.mean`, defined only for a non-empty series: the mean times the number of elements is the total |
| `Series.CountPositive` | main.py:106 | `sum(1 for p in s if p > 0)`: the number of strictly positive readings, never more than the length |
| `Series.MeanBetween` | main.py:68 | a mean lies between any lower and any upper bound of its elements |
| `Series.MeanOfConstant` | main.py:68 | the mean of a series whose every element is `c` is `c` |
| `Series.MeanOfParts` | main.py:73-77 | length times the mean of `a + b` is the length-weighted sum of the means of `a` and `b` |
| `Series.MeanBetweenHalves` | main.py:73-77 | the overall mean lies between the two half means, strictly between them when they differ |
| `Series.Max` | main.py:69 | `max` returns one of the elements, and no element exceeds it |
| `Series.Min` | main.py:70 | `min` returns one of the elements, and no element is below it |
| `Series.MeanWithinExtremes` | main.py:68-70 | a mean lies between the minimum and the maximum of its series |
| `Series.CountPositiveIsCardinality` | main.py:106 | the rainy-day count equals the number of indices whose reading is strictly positive, and is at most the length |
| `Series.CountPositiveZero` | main.py:106 | the count is 0 exactly when no reading is positive |
| `Series.PositiveSumHasPositive` | main.py:106-107 | a positive total implies at least one positive reading |
| `Series.NonNegativeSumZero` | main.py:106-107 | with no negative readings, the total is 0 exactly when the count is 0 |
| `Series.TakeLast` | main.py:90 | for a positive `k` (the source only uses 7), `s[-k:]` has `min(k, len(s))` elements and is a suffix: the skipped prefix followed by the window is `s` |
| `Series.TakeLastAtMost` | main.py:101 | an upper bound on every reading also bounds every reading of the last-week window |
| `Series.Halves` | main.py:73-77 | the two halves concatenate to the whole series; the first has `n // 2` elements and the second has `n % 2` more |
| `Analyzer.FirstHalfMean` | main.py:73-74 | the mean of `s[:half]`; it lies between the smallest and the largest reading of the whole series |
| `Analyzer.SecondHalfMean` | main.py:73-75 | the mean of `s[half:]`; it lies between the smallest and the largest reading of the whole series |
| `Analyzer.TrendLabel` | main.py:81-85 | the Russian label sent for each trend direction |
| `Analyzer.TrendLabelsDistinct` | main.py:81-85 | the two labels are equal only for equal directions, so the label identifies the direction |
| `Analyzer.MomentumForecast` | main.py:89-95 | the last week's mean plus 0.3 times the given magnitude, so within the last week's range shifted by that amount |
| `Analyzer.ComputeTrend` | main.py:79-87 | warming exactly when the second-half mean maximum is strictly greater (a tie is cooling); the maximum magnitude is the absolute difference of the half means, so never negative; the minimum magnitude is signed by the maximum series' direction |
| `Analyzer.PrecipitationForecast` | main.py:100-103 | never negative; 0 for an empty window; equal to the last-week mean when that is positive, otherwise 0 |
| `Analyzer.AnalyzeWeather` | main.py:61-122 | defined exactly when there are at least two days; `max_temp` is one of the maxima and no maximum exceeds it; `min_temp` is one of the minima and none is below it; the trend direction iff; `trend_value >= 0`; precipitation forecast `>= 0`; `rainy_days` is the number of positive readings, at most the day count; `days_analyzed` is the length |
| `Analyzer.AverageWithinExtremes` | main.py:68-70 | the overall mean lies between the smallest daily maximum and `max_temp` |
| `Analyzer.AverageBetweenHalves` | main.py:68-87 | when warming, the overall mean is strictly between the first and second half means; when cooling, it lies between the second and the first |
| `Analyzer.ForecastMaxBounds` | main.py:89-91 | the window has `min(7, n)` days; the maximum forecast is at least the last week's mean, and lies within the last week's range shifted by 0.3 × `trend_value` |
| `Analyzer.ForecastMinBounds` | main.py:93-95 | the minimum forecast lies within the last week's range of minima shifted by 0.3 × the signed minimum-series trend |
| `Analyzer.ForecastAverageBetween` | main.py:97-98 | the forecast average lies between the forecast minimum and maximum, at equal distance from both |
| `Analyzer.TieIsCooling` | main.py:80-87 | equal half means give cooling with magnitude 0 |
| `Analyzer.ConstantSeries` | main.py:61-98 | constant temperatures give mean, extremes and forecasts equal to those constants, cooling, and magnitude 0 |
| `Analyzer.DryForecastIsZero` | main.py:100-103 | a series with no positive reading forecasts 0 precipitation |
| `Analyzer.RainSummaryConsistent` | main.py:100-107 | a positive total means at least one rainy day; with no negative readings the total is 0 exactly when there is no rainy day; no rainy day means a precipitation forecast of 0 |
| `Analyzer.PrecipitationForecastIsWeekMean` | main.py:100-103 | with no negative readings the floor never applies: the forecast is the last week's mean, at most that week's wettest day |
| `Analyzer.TenDayScenario` | main.py:61-122 | ten days rising from 20 and from 10 by one degree, with 5 mm on the last day, give mean 24.5, max 29, min 10, warming by 5, forecasts 27.5/17.5/22.5, precipitation forecast 5/7, one rainy day, total 5, ten days |
| `Handler.SkipSpaces` | main.py:134 | the left scan of `strip` passes only whitespace and stops at the end or at a non-space |
| `Handler.BackOverSpaces` | main.py:134 | the right scan of `strip` passes only whitespace and stops at its lower bound or just after a non-space |
| `Handler.Strip` | main.py:134 | `str.strip()`: the text between the left scan's stop and the right scan's stop |
| `Handler.StripDropsOnlyWhitespace` | main.py:134 | the stripped name is one contiguous piece of the input; everything dropped before and after it is whitespace |
| `Handler.StripTrimsBothEnds` | main.py:134 | the stripped name neither starts nor ends with whitespace |
| `Handler.StripBlank` | main.py:134-137 | the stripped name is empty exactly when the input is all whitespace |
| `Handler.StripIdempotent` | main.py:134 | stripping twice gives the same as stripping once |
| `Handler.AssembleDays` | main.py:161-169 | one record per entry of `time`; record `i` holds `time[i]`, the two temperatures and the precipitation at index `i`, in order |
| `Handler.ColumnsRoundTrip` | main.py:161-169 | reading the dates, maxima, minima and precipitation back out of the records gives the archive's aligned arrays again |
| `Handler.CityField` | main.py:134 | `.get('city', '')`: the posted city, or the empty string when the field is absent |
| `Handler.HasDaily` | main.py:147 | the archive answered and its answer has a `daily` object |
| `Handler.StatusCode` | main.py:137-171 | success is 200; a blank name is 400; only an unknown city is 404; exactly the missing weather data and the failed analysis are 500 |
| `Handler.GetWeather` | main.py:131-171 | a blank name is refused with no outbound call; an unknown city is refused after the geocoder call only; with a place, the geocoder and then the archive are called; a missing answer or `daily` is the 500 "unavailable" error; with `daily`, success exactly when there are at least two days, else the analysis failure; on success the reply carries the place's name and country, records whose columns are the archive's arrays, and an analysis equal to the analysis of those records |

## Left out

- `get_city_coordinates` and `get_historical_weather` (main.py:9-58) are not modelled. They make HTTP requests, decode JSON and read the clock for the date window. `GetWeather` takes their results as the parameters `geocode` and `archive`. The geocoder's folding of transport errors into "not found" is part of what `geocode` may return.
- The date window (`datetime.now()` minus 30 days) is not modelled. Neither is the archive's `timezone=auto` setting. `archive` takes only the coordinates.
- `round(x, 1)` on the reported values (main.py:110-120) is not modelled. The model states its properties on the exact, unrounded values. Binary floating point and the float accuracy of `statistics.mean` and the 0.3 factor are not modelled either.
- Handler.GetWeather: requires the archive's `daily` arrays to have one entry per date. The service assumes this and does not check it, so misaligned arrays are not modelled.
- Analyzer.AnalyzeWeather: requires the three series to have equal length, for the same reason.
- A `daily` object that lacks one of `time`, `temperature_2m_max`, `temperature_2m_min` or `precipitation_sum` is not modelled. `Daily` always carries all four arrays. In the source the missing key raises `KeyError` (main.py:63-65, 162-167), which the web framework answers with a 500.
- JSON `null` readings in the daily arrays are not modelled, so readings are always numbers. In Python a `null` would make the comparison or the sum raise.
- A `city` field that is not a string is not modelled. Neither is a request body that is not a JSON object.
- Handler.GetWeather: `AnalysisFailed` stands for the uncaught `statistics.StatisticsError`. The web framework answers it with its own 500 page, not the service's JSON error.
- The error messages' Russian text is not modelled. Each error is a `RequestError` case, and `CityNotFound` carries the stripped name that the message quotes.
- Flask wiring is framework glue and is not modelled. That covers the `index` route and template, `jsonify`, and the server start-up (main.py:6, 125-128, 171-177).
- `static/script.js` runs in the browser and is not part of this model.
