/** The `/get_weather` request handler: it validates the city name, asks
    the geocoder and then the weather archive (both outside this model, so
    both are parameters), runs the analysis, and zips the daily arrays into
    per-day records for the client's table and chart. */
module Handler {
  import opened Analyzer

  /** The characters Python's `str.isspace` accepts. */
  const Whitespace: string :=
    "\t\n\U{B}\U{C}\r\U{1C}\U{1D}\U{1E}\U{1F} \U{85}\U{A0}\U{1680}"
    + "\U{2000}\U{2001}\U{2002}\U{2003}\U{2004}\U{2005}\U{2006}\U{2007}\U{2008}\U{2009}\U{200A}"
    + "\U{2028}\U{2029}\U{202F}\U{205F}\U{3000}"

  predicate IsSpace(c: char)
  {
    c in Whitespace
  }

  /** Scans right from `i` past whitespace: everything skipped is
      whitespace and the scan stops at the end or at a non-space. */
  function SkipSpaces(s: string, i: nat): (k: nat)
    requires i <= |s|
    ensures i <= k <= |s|
    ensures forall j :: i <= j < k ==> IsSpace(s[j])
    ensures k == |s| || !IsSpace(s[k])
    decreases |s| - i
  {
    if i < |s| && IsSpace(s[i]) then SkipSpaces(s, i + 1) else i
  }

  /** Scans left from `j` back over whitespace, never below `lo`:
      everything passed is whitespace and the scan stops at `lo` or just
      after a non-space. */
  function BackOverSpaces(s: string, lo: nat, j: nat): (e: nat)
    requires lo <= j <= |s|
    ensures lo <= e <= j
    ensures forall m :: e <= m < j ==> IsSpace(s[m])
    ensures e == lo || !IsSpace(s[e - 1])
  {
    if j > lo && IsSpace(s[j - 1]) then BackOverSpaces(s, lo, j - 1) else j
  }

  /** Where the stripped text starts and ends in `s`. */
  function StripStart(s: string): nat
  {
    SkipSpaces(s, 0)
  }

  function StripEnd(s: string): nat
  {
    BackOverSpaces(s, SkipSpaces(s, 0), |s|)
  }

  /** Python's `str.strip()`: skip whitespace from the left, then back over
      whitespace from the right, and keep what lies between. */
  function Strip(s: string): string
  {
    s[StripStart(s)..StripEnd(s)]
  }

  /** Stripping keeps one contiguous piece of `s`, and everything it drops
      before and after that piece is whitespace. */
  lemma StripDropsOnlyWhitespace(s: string)
    ensures StripStart(s) <= StripEnd(s) <= |s|
    ensures Strip(s) == s[StripStart(s)..StripEnd(s)]
    ensures forall i :: 0 <= i < StripStart(s) ==> IsSpace(s[i])
    ensures forall i :: StripEnd(s) <= i < |s| ==> IsSpace(s[i])
  {
  }

  /** Stripping leaves no whitespace at either end. */
  lemma StripTrimsBothEnds(s: string)
    ensures var r := Strip(s);
            r == [] || (!IsSpace(r[0]) && !IsSpace(r[|r| - 1]))
  {
    var k, e := StripStart(s), StripEnd(s);
    if k < e {
      assert Strip(s)[0] == s[k];
      assert Strip(s)[e - k - 1] == s[e - 1];
    }
  }

  /** A name strips to nothing exactly when it is all whitespace. */
  lemma StripBlank(s: string)
    ensures Strip(s) == [] <==> forall i :: 0 <= i < |s| ==> IsSpace(s[i])
  {
    var k, e := StripStart(s), StripEnd(s);
    if k < e {
      assert !IsSpace(s[k]);
    }
  }

  /** Stripping twice changes nothing more. */
  lemma StripIdempotent(s: string)
    ensures Strip(Strip(s)) == Strip(s)
  {
    var r := Strip(s);
    StripTrimsBothEnds(s);
    if r != [] {
      assert SkipSpaces(r, 0) == 0;
      assert BackOverSpaces(r, 0, |r|) == |r|;
      assert r[0..|r|] == r;
    }
  }

  /** One day of the response's `weather_data` list. */
  datatype DayRecord = DayRecord(date: string, tempMax: real, tempMin: real, precipitation: real)

  /** The archive's `daily` object: parallel arrays indexed by day. */
  datatype Daily = Daily(
    time: seq<string>,
    temperatureMax: seq<real>,
    temperatureMin: seq<real>,
    precipitationSum: seq<real>)
  {
    /** The archive's guarantee: the four arrays have one entry per day. */
    predicate Aligned()
    {
      |temperatureMax| == |time| && |temperatureMin| == |time| && |precipitationSum| == |time|
    }
  }

  /** The loop in `get_weather` that appends one record per entry of `time`,
      reading the same index of each array: record `i` is day `i`, in order. */
  method AssembleDays(daily: Daily) returns (days: seq<DayRecord>)
    requires |daily.temperatureMax| >= |daily.time|
    requires |daily.temperatureMin| >= |daily.time|
    requires |daily.precipitationSum| >= |daily.time|
    ensures |days| == |daily.time|
    ensures forall i :: 0 <= i < |days| ==>
              days[i] == DayRecord(daily.time[i], daily.temperatureMax[i],
                                   daily.temperatureMin[i], daily.precipitationSum[i])
  {
    days := [];
    for i := 0 to |daily.time|
      invariant |days| == i
      invariant forall j :: 0 <= j < i ==>
                  days[j] == DayRecord(daily.time[j], daily.temperatureMax[j],
                                       daily.temperatureMin[j], daily.precipitationSum[j])
    {
      var day := DayRecord(daily.time[i], daily.temperatureMax[i],
                           daily.temperatureMin[i], daily.precipitationSum[i]);
      days := days + [day];
    }
  }

  /** The columns a client reads back out of the records. */
  function Dates(days: seq<DayRecord>): seq<string>
  {
    seq(|days|, i requires 0 <= i < |days| => days[i].date)
  }

  function MaxColumn(days: seq<DayRecord>): seq<real>
  {
    seq(|days|, i requires 0 <= i < |days| => days[i].tempMax)
  }

  function MinColumn(days: seq<DayRecord>): seq<real>
  {
    seq(|days|, i requires 0 <= i < |days| => days[i].tempMin)
  }

  function PrecipitationColumn(days: seq<DayRecord>): seq<real>
  {
    seq(|days|, i requires 0 <= i < |days| => days[i].precipitation)
  }

  /** Reading the columns back out of the assembled records gives the
      archive's arrays again, whenever those were aligned. */
  lemma ColumnsRoundTrip(daily: Daily, days: seq<DayRecord>)
    requires daily.Aligned()
    requires |days| == |daily.time|
    requires forall i :: 0 <= i < |days| ==>
               days[i] == DayRecord(daily.time[i], daily.temperatureMax[i],
                                    daily.temperatureMin[i], daily.precipitationSum[i])
    ensures Dates(days) == daily.time
    ensures MaxColumn(days) == daily.temperatureMax
    ensures MinColumn(days) == daily.temperatureMin
    ensures PrecipitationColumn(days) == daily.precipitationSum
  {
    assert forall i :: 0 <= i < |days| ==> Dates(days)[i] == daily.time[i];
    assert forall i :: 0 <= i < |days| ==> MaxColumn(days)[i] == daily.temperatureMax[i];
    assert forall i :: 0 <= i < |days| ==> MinColumn(days)[i] == daily.temperatureMin[i];
    assert forall i :: 0 <= i < |days| ==> PrecipitationColumn(days)[i] == daily.precipitationSum[i];
  }

  /** A place as the geocoder resolves it. */
  datatype Location = Location(lat: real, lon: real, name: string, country: string)

  /** What the archive answered; `daily` is absent from an error answer. */
  datatype ArchiveResponse = ArchiveResponse(daily: Option<Daily>)

  /** The outbound calls the handler makes, in order. */
  datatype OutboundCall = GeocodeCall(query: string) | ArchiveCall(lat: real, lon: real)

  datatype RequestError =
    | CityRequired              // blank name: 400
    | CityNotFound(city: string) // geocoder found nothing: 404
    | WeatherUnavailable         // no answer or no `daily`: 500
    | AnalysisFailed             // `statistics.mean` raised: 500

  datatype Reply =
    | Failure(error: RequestError)
    | Success(cityName: string, country: string, weatherData: seq<DayRecord>, analysis: Analysis)

  /** The HTTP status each reply is sent with. */
  function StatusCode(r: Reply): (code: nat)
    ensures r.Success? <==> code == 200
    ensures code == 400 <==> r.Failure? && r.error == CityRequired
    ensures code == 404 <==> r.Failure? && r.error.CityNotFound?
    ensures code == 500 <==> r.Failure? && (r.error == WeatherUnavailable || r.error == AnalysisFailed)
  {
    match r
    case Success(_, _, _, _) => 200
    case Failure(CityRequired) => 400
    case Failure(CityNotFound(_)) => 404
    case Failure(WeatherUnavailable) => 500
    case Failure(AnalysisFailed) => 500
  }

  /** `request.json.get('city', '')`. */
  function CityField(city: Option<string>): string
  {
    match city
    case Some(c) => c
    case None => ""
  }

  /** The archive's answer has the `daily` object the handler needs. */
  predicate HasDaily(answer: Option<ArchiveResponse>)
  {
    answer.Some? && answer.value.daily.Some?
  }

  /** `get_weather`. A blank name is refused before any outbound call; a
      name the geocoder cannot resolve is refused before the archive is
      asked; an archive answer without `daily` is a server error; fewer
      than two days make the analysis raise; otherwise the reply carries
      the resolved place, one record per day and the analysis, and that
      analysis is exactly the analysis of the records it is sent with. */
  method GetWeather(
    city: Option<string>,
    geocode: string -> Option<Location>,
    archive: (real, real) -> Option<ArchiveResponse>)
    returns (reply: Reply, calls: seq<OutboundCall>)
    requires forall lat, lon :: HasDaily(archive(lat, lon)) ==> archive(lat, lon).value.daily.value.Aligned()
    ensures var name := Strip(CityField(city));
            name == [] <==> reply == Failure(CityRequired)
    ensures var name := Strip(CityField(city));
            name == [] ==> calls == []
    ensures var name := Strip(CityField(city));
            name != [] && geocode(name).None? ==>
              reply == Failure(CityNotFound(name)) && calls == [GeocodeCall(name)]
    ensures var name := Strip(CityField(city));
            name != [] && geocode(name).Some? ==>
              var place := geocode(name).value;
              && calls == [GeocodeCall(name), ArchiveCall(place.lat, place.lon)]
              && (reply == Failure(WeatherUnavailable) <==> !HasDaily(archive(place.lat, place.lon)))
    ensures var name := Strip(CityField(city));
            name != [] && geocode(name).Some? ==>
              var place := geocode(name).value;
              HasDaily(archive(place.lat, place.lon)) ==>
                var days := |archive(place.lat, place.lon).value.daily.value.time|;
                && (reply.Success? <==> days >= 2)
                && (days < 2 ==> reply == Failure(AnalysisFailed))
    ensures reply.Success? ==>
              var name := Strip(CityField(city));
              && name != [] && geocode(name).Some?
              && var place := geocode(name).value;
              && HasDaily(archive(place.lat, place.lon))
              && var daily := archive(place.lat, place.lon).value.daily.value;
              && reply.cityName == place.name && reply.country == place.country
              && daily.Aligned() && |daily.time| >= 2
              && Dates(reply.weatherData) == daily.time
              && MaxColumn(reply.weatherData) == daily.temperatureMax
              && MinColumn(reply.weatherData) == daily.temperatureMin
              && PrecipitationColumn(reply.weatherData) == daily.precipitationSum
              && AnalyzeWeather(MaxColumn(reply.weatherData), MinColumn(reply.weatherData),
                                PrecipitationColumn(reply.weatherData)) == Some(reply.analysis)
  {
    var name := Strip(CityField(city));
    if name == [] {
      return Failure(CityRequired), [];
    }
    calls := [GeocodeCall(name)];
    var coords := geocode(name);
    if coords.None? {
      return Failure(CityNotFound(name)), calls;
    }
    var place := coords.value;
    calls := calls + [ArchiveCall(place.lat, place.lon)];
    var answer := archive(place.lat, place.lon);
    if !HasDaily(answer) {
      return Failure(WeatherUnavailable), calls;
    }
    var daily := answer.value.daily.value;
    var analysis := AnalyzeWeather(daily.temperatureMax, daily.temperatureMin, daily.precipitationSum);
    if analysis.None? {
      return Failure(AnalysisFailed), calls;
    }
    var days := AssembleDays(daily);
    ColumnsRoundTrip(daily, days);
    reply := Success(place.name, place.country, days, analysis.value);
  }
}
