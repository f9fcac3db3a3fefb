/** The trend analyzer: `analyze_weather_data` reduces the aligned daily
    series of maximum temperature, minimum temperature and precipitation to
    a fixed record of statistics and a naive next-day "momentum" forecast. */
module Analyzer {
  import opened Series

  datatype Option<T> = None | Some(value: T)

  /** Direction of the temperature trend between the two halves. */
  datatype Trend = Warming | Cooling

  /** The label the response carries for each direction. */
  function TrendLabel(t: Trend): string
  {
    match t
    case Warming => "потепление"
    case Cooling => "похолодание"
  }

  /** The two labels differ, so the client can tell the directions apart. */
  lemma TrendLabelsDistinct(t: Trend, u: Trend)
    ensures TrendLabel(t) == TrendLabel(u) <==> t == u
  {
    if t != u {
      assert TrendLabel(t)[2] != TrendLabel(u)[2];
    }
  }

  /** The statistics block of the response, before presentation rounding. */
  datatype Analysis = Analysis(
    avgTempAll: real,
    maxTemp: real,
    minTemp: real,
    trend: Trend,
    trendValue: real,
    forecastMax: real,
    forecastMin: real,
    forecastAvg: real,
    forecastPrecipitation: real,
    rainyDays: nat,
    totalPrecipitation: real,
    daysAnalyzed: nat)

  /** The trend direction with the magnitudes of both series; only the
      maximum-temperature magnitude is reported, the other feeds the
      minimum-temperature forecast. */
  datatype TrendResult = TrendResult(direction: Trend, valueMax: real, valueMin: real)

  function Abs(x: real): real
  {
    if x < 0.0 then -x else x
  }

  /** Mean of `s[:half]`; it lies within the range of the whole series. */
  function FirstHalfMean(s: seq<real>): (m: real)
    requires |s| >= 2
    ensures Min(s) <= m <= Max(s)
  {
    var first := Halves(s).0;
    assert forall i :: 0 <= i < |first| ==> first[i] == s[i];
    MeanBetween(first, Min(s), Max(s));
    Mean(first)
  }

  /** Mean of `s[half:]`; it lies within the range of the whole series. */
  function SecondHalfMean(s: seq<real>): (m: real)
    requires |s| >= 2
    ensures Min(s) <= m <= Max(s)
  {
    var h := Halves(s);
    assert forall i :: 0 <= i < |h.1| ==> h.1[i] == s[|h.0| + i];
    MeanBetween(h.1, Min(s), Max(s));
    Mean(h.1)
  }

  /** The half-split comparison. The series warms exactly when the second
      half's mean maximum is strictly greater than the first's (a tie is
      cooling); the reported magnitude is the distance between the two
      means, never negative; the minimum-temperature magnitude is measured
      in the direction the maximum series chose and may be negative. */
  function ComputeTrend(tmax: seq<real>, tmin: seq<real>): (t: TrendResult)
    requires |tmax| >= 2 && |tmin| == |tmax|
    ensures t.direction == Warming <==> SecondHalfMean(tmax) > FirstHalfMean(tmax)
    ensures t.valueMax >= 0.0
    ensures t.valueMax == Abs(SecondHalfMean(tmax) - FirstHalfMean(tmax))
    ensures t.direction == Warming ==> t.valueMin == SecondHalfMean(tmin) - FirstHalfMean(tmin)
    ensures t.direction == Cooling ==> t.valueMin == FirstHalfMean(tmin) - SecondHalfMean(tmin)
  {
    var firstMax, secondMax := FirstHalfMean(tmax), SecondHalfMean(tmax);
    var firstMin, secondMin := FirstHalfMean(tmin), SecondHalfMean(tmin);
    if secondMax > firstMax then
      TrendResult(Warming, secondMax - firstMax, secondMin - firstMin)
    else
      TrendResult(Cooling, firstMax - secondMax, firstMin - secondMin)
  }

  /** Momentum forecast for one series: the mean of its last week plus
      0.3 times the trend magnitude, so within the last week's range
      shifted by that amount. */
  function MomentumForecast(s: seq<real>, trendValue: real): (f: real)
    requires |s| > 0
    ensures var week := TakeLast(s, LastWeekDays);
            Min(week) + 0.3 * trendValue <= f <= Max(week) + 0.3 * trendValue
  {
    MeanWithinExtremes(TakeLast(s, LastWeekDays));
    Mean(TakeLast(s, LastWeekDays)) + 0.3 * trendValue
  }

  /** Precipitation forecast: the mean of the last week's precipitation, 0
      for an empty window, and never below 0. */
  function PrecipitationForecast(precip: seq<real>): (f: real)
    ensures f >= 0.0
    ensures |precip| == 0 ==> f == 0.0
    ensures |precip| > 0 ==> f >= Mean(TakeLast(precip, LastWeekDays))
    ensures |precip| > 0 && Mean(TakeLast(precip, LastWeekDays)) > 0.0 ==>
              f == Mean(TakeLast(precip, LastWeekDays))
    ensures |precip| > 0 && Mean(TakeLast(precip, LastWeekDays)) <= 0.0 ==> f == 0.0
  {
    var window := TakeLast(precip, LastWeekDays);
    var avg := if |window| > 0 then Mean(window) else 0.0;
    if 0.0 >= avg then 0.0 else avg
  }

  /** `analyze_weather_data`. `statistics.mean` raises on the empty first
      half when there are fewer than two days, so that input gives `None`. */
  function AnalyzeWeather(tmax: seq<real>, tmin: seq<real>, precip: seq<real>): (r: Option<Analysis>)
    requires |tmin| == |tmax| && |precip| == |tmax|
    ensures r.Some? <==> |tmax| >= 2
    ensures r.Some? ==> r.value.daysAnalyzed == |tmax|
    ensures r.Some? ==> r.value.maxTemp in tmax
    ensures r.Some? ==> forall i :: 0 <= i < |tmax| ==> tmax[i] <= r.value.maxTemp
    ensures r.Some? ==> r.value.minTemp in tmin
    ensures r.Some? ==> forall i :: 0 <= i < |tmin| ==> r.value.minTemp <= tmin[i]
    ensures r.Some? ==> (r.value.trend == Warming <==> SecondHalfMean(tmax) > FirstHalfMean(tmax))
    ensures r.Some? ==> r.value.trendValue >= 0.0
    ensures r.Some? ==> r.value.forecastPrecipitation >= 0.0
    ensures r.Some? ==> r.value.rainyDays == |PositiveIndices(precip)| <= |precip|
  {
    if |tmax| < 2 then None
    else
      var t := ComputeTrend(tmax, tmin);
      var forecastMax := MomentumForecast(tmax, t.valueMax);
      var forecastMin := MomentumForecast(tmin, t.valueMin);
      CountPositiveIsCardinality(precip);
      Some(Analysis(
        avgTempAll := Mean(tmax),
        maxTemp := Max(tmax),
        minTemp := Min(tmin),
        trend := t.direction,
        trendValue := t.valueMax,
        forecastMax := forecastMax,
        forecastMin := forecastMin,
        forecastAvg := (forecastMax + forecastMin) / 2.0,
        forecastPrecipitation := PrecipitationForecast(precip),
        rainyDays := CountPositive(precip),
        totalPrecipitation := Sum(precip),
        daysAnalyzed := |tmax|))
  }

  /** The overall mean temperature lies between the coldest and the hottest
      daily maximum. */
  lemma AverageWithinExtremes(tmax: seq<real>, tmin: seq<real>, precip: seq<real>)
    requires |tmin| == |tmax| && |precip| == |tmax| && |tmax| >= 2
    ensures Min(tmax) <= AnalyzeWeather(tmax, tmin, precip).value.avgTempAll
                      <= AnalyzeWeather(tmax, tmin, precip).value.maxTemp
  {
    MeanWithinExtremes(tmax);
  }

  /** The overall mean lies between the two half means the trend compares:
      strictly between them when warming, and between the second and the
      first when cooling, strictly so when those differ. */
  lemma AverageBetweenHalves(tmax: seq<real>, tmin: seq<real>, precip: seq<real>)
    requires |tmin| == |tmax| && |precip| == |tmax| && |tmax| >= 2
    ensures var a := AnalyzeWeather(tmax, tmin, precip).value;
            a.trend == Warming ==> FirstHalfMean(tmax) < a.avgTempAll < SecondHalfMean(tmax)
    ensures var a := AnalyzeWeather(tmax, tmin, precip).value;
            a.trend == Cooling ==> SecondHalfMean(tmax) <= a.avgTempAll <= FirstHalfMean(tmax)
    ensures var a := AnalyzeWeather(tmax, tmin, precip).value;
            SecondHalfMean(tmax) < FirstHalfMean(tmax) ==>
              SecondHalfMean(tmax) < a.avgTempAll < FirstHalfMean(tmax)
  {
    MeanBetweenHalves(tmax);
  }

  /** The maximum-temperature forecast never falls below the last week's
      mean, and exceeds the last week's range by at most 0.3 times the
      reported trend. */
  lemma ForecastMaxBounds(tmax: seq<real>, tmin: seq<real>, precip: seq<real>)
    requires |tmin| == |tmax| && |precip| == |tmax| && |tmax| >= 2
    ensures var a := AnalyzeWeather(tmax, tmin, precip).value;
            var week := TakeLast(tmax, LastWeekDays);
            && |week| == (if |tmax| < 7 then |tmax| else 7)
            && Mean(week) <= a.forecastMax
            && Min(week) + 0.3 * a.trendValue <= a.forecastMax
            && a.forecastMax <= Max(week) + 0.3 * a.trendValue
  {
    MeanWithinExtremes(TakeLast(tmax, LastWeekDays));
  }

  /** The minimum-temperature forecast is within 0.3 times the (signed)
      minimum-series trend of the last week's range of minima. */
  lemma ForecastMinBounds(tmax: seq<real>, tmin: seq<real>, precip: seq<real>)
    requires |tmin| == |tmax| && |precip| == |tmax| && |tmax| >= 2
    ensures var a := AnalyzeWeather(tmax, tmin, precip).value;
            var week := TakeLast(tmin, LastWeekDays);
            var shift := 0.3 * ComputeTrend(tmax, tmin).valueMin;
            Min(week) + shift <= a.forecastMin <= Max(week) + shift
  {
    var a := AnalyzeWeather(tmax, tmin, precip).value;
    var week := TakeLast(tmin, LastWeekDays);
    assert a.forecastMin == Mean(week) + 0.3 * ComputeTrend(tmax, tmin).valueMin;
    MeanWithinExtremes(week);
  }

  /** The forecast average lies between the forecast minimum and maximum. */
  lemma ForecastAverageBetween(tmax: seq<real>, tmin: seq<real>, precip: seq<real>)
    requires |tmin| == |tmax| && |precip| == |tmax| && |tmax| >= 2
    ensures var a := AnalyzeWeather(tmax, tmin, precip).value;
            && (a.forecastMin <= a.forecastMax ==> a.forecastMin <= a.forecastAvg <= a.forecastMax)
            && (a.forecastMax <= a.forecastMin ==> a.forecastMax <= a.forecastAvg <= a.forecastMin)
            && a.forecastAvg - a.forecastMin == a.forecastMax - a.forecastAvg
  {
  }

  /** Halves with equal mean maxima are reported as cooling with magnitude 0. */
  lemma TieIsCooling(tmax: seq<real>, tmin: seq<real>, precip: seq<real>)
    requires |tmin| == |tmax| && |precip| == |tmax| && |tmax| >= 2
    requires FirstHalfMean(tmax) == SecondHalfMean(tmax)
    ensures AnalyzeWeather(tmax, tmin, precip).value.trend == Cooling
    ensures AnalyzeWeather(tmax, tmin, precip).value.trendValue == 0.0
  {
  }

  /** A series that is constant in both temperatures has no trend and
      forecasts those constants again. */
  lemma ConstantSeries(tmax: seq<real>, tmin: seq<real>, precip: seq<real>, hi: real, lo: real)
    requires |tmin| == |tmax| && |precip| == |tmax| && |tmax| >= 2
    requires forall i :: 0 <= i < |tmax| ==> tmax[i] == hi
    requires forall i :: 0 <= i < |tmin| ==> tmin[i] == lo
    ensures var a := AnalyzeWeather(tmax, tmin, precip).value;
            && a.avgTempAll == hi && a.maxTemp == hi && a.minTemp == lo
            && a.trend == Cooling && a.trendValue == 0.0
            && a.forecastMax == hi && a.forecastMin == lo && a.forecastAvg == (hi + lo) / 2.0
  {
    MeanOfConstant(tmax, hi);
    var hx, hn := Halves(tmax), Halves(tmin);
    MeanOfConstant(hx.0, hi);
    MeanOfConstant(hx.1, hi);
    MeanOfConstant(hn.0, lo);
    MeanOfConstant(hn.1, lo);
    MeanOfConstant(TakeLast(tmax, LastWeekDays), hi);
    MeanOfConstant(TakeLast(tmin, LastWeekDays), lo);
  }

  /** A stretch with no positive reading forecasts no precipitation. */
  lemma DryForecastIsZero(precip: seq<real>)
    requires forall i :: 0 <= i < |precip| ==> precip[i] <= 0.0
    ensures PrecipitationForecast(precip) == 0.0
  {
    if |precip| > 0 {
      var week := TakeLast(precip, LastWeekDays);
      TakeLastAtMost(precip, LastWeekDays, 0.0);
      MeanBetween(week, Min(week), 0.0);
    }
  }

  /** Rain totals and counts agree: a positive total means at least one
      rainy day, and with no negative readings the total is 0 exactly when
      there is no rainy day, in which case the precipitation forecast is 0. */
  lemma RainSummaryConsistent(tmax: seq<real>, tmin: seq<real>, precip: seq<real>)
    requires |tmin| == |tmax| && |precip| == |tmax| && |tmax| >= 2
    ensures var a := AnalyzeWeather(tmax, tmin, precip).value;
            a.totalPrecipitation > 0.0 ==> a.rainyDays > 0
    ensures var a := AnalyzeWeather(tmax, tmin, precip).value;
            (forall i :: 0 <= i < |precip| ==> precip[i] >= 0.0) ==>
              (a.totalPrecipitation == 0.0 <==> a.rainyDays == 0)
    ensures var a := AnalyzeWeather(tmax, tmin, precip).value;
            a.rainyDays == 0 ==> a.forecastPrecipitation == 0.0
  {
    var a := AnalyzeWeather(tmax, tmin, precip).value;
    assert a.totalPrecipitation == Sum(precip);
    assert a.rainyDays == CountPositive(precip);
    assert a.forecastPrecipitation == PrecipitationForecast(precip);
    if Sum(precip) > 0.0 {
      PositiveSumHasPositive(precip);
    }
    if forall i :: 0 <= i < |precip| ==> precip[i] >= 0.0 {
      NonNegativeSumZero(precip);
    }
    CountPositiveZero(precip);
    if CountPositive(precip) == 0 {
      DryForecastIsZero(precip);
    }
  }

  /** With no negative readings the floor at 0 never applies: the
      precipitation forecast is exactly the last week's mean, and at most
      the wettest day of that week. */
  lemma PrecipitationForecastIsWeekMean(precip: seq<real>)
    requires |precip| > 0
    requires forall i :: 0 <= i < |precip| ==> precip[i] >= 0.0
    ensures var week := TakeLast(precip, LastWeekDays);
            PrecipitationForecast(precip) == Mean(week) <= Max(week)
  {
    var week := TakeLast(precip, LastWeekDays);
    SumAtLeast(week, 0.0);
    MeanWithinExtremes(week);
  }

  /** Sum of `a, a + 1, a + 2, ...`: twice the sum is `n * (2a + n - 1)`. */
  lemma {:induction false} RisingSum(s: seq<real>, a: real)
    requires forall i :: 0 <= i < |s| ==> s[i] == a + (i as real)
    ensures 2.0 * Sum(s) == (|s| as real) * (2.0 * a + (|s| as real) - 1.0)
  {
    if |s| > 0 {
      var p := s[..|s| - 1];
      RisingSum(p, a);
      var n := |s| as real;
      assert 2.0 * Sum(p) == (n - 1.0) * (2.0 * a + n - 2.0);
      assert s[|s| - 1] == a + n - 1.0;
    }
  }

  /** The mean of `a, a + 1, ..., a + n - 1` is `a + (n - 1) / 2`. */
  lemma RisingMean(s: seq<real>, a: real)
    requires |s| > 0
    requires forall i :: 0 <= i < |s| ==> s[i] == a + (i as real)
    ensures Mean(s) == a + ((|s| as real) - 1.0) / 2.0
  {
    RisingSum(s, a);
    var n := |s| as real;
    var m := a + (n - 1.0) / 2.0;
    assert Sum(s) == n * m;
    assert Mean(s) * n == n * m;
  }

  /** Half means of ten days rising by one degree a day from `a`. */
  lemma RisingHalves(s: seq<real>, a: real)
    requires |s| == 10
    requires forall i :: 0 <= i < |s| ==> s[i] == a + (i as real)
    ensures FirstHalfMean(s) == a + 2.0 && SecondHalfMean(s) == a + 7.0
  {
    var h := Halves(s);
    RisingMean(h.0, a);
    assert forall i :: 0 <= i < |h.1| ==> h.1[i] == s[5 + i];
    RisingMean(h.1, a + 5.0);
  }

  /** Last-week mean of ten days rising by one degree a day from `a`. */
  lemma RisingWeek(s: seq<real>, a: real)
    requires |s| == 10
    requires forall i :: 0 <= i < |s| ==> s[i] == a + (i as real)
    ensures Mean(TakeLast(s, LastWeekDays)) == a + 6.0
  {
    var week := TakeLast(s, LastWeekDays);
    assert week == s[3..];
    assert forall i :: 0 <= i < |week| ==> week[i] == s[3 + i];
    RisingMean(week, a + 3.0);
  }

  /** Extremes of ten days rising by one degree a day from `a`. */
  lemma RisingExtremes(s: seq<real>, a: real)
    requires |s| == 10
    requires forall i :: 0 <= i < |s| ==> s[i] == a + (i as real)
    ensures Max(s) == a + 9.0 && Min(s) == a
  {
    assert Max(s) >= s[9];
    assert Min(s) <= s[0];
    var j :| 0 <= j < |s| && s[j] == Max(s);
    var k :| 0 <= k < |s| && s[k] == Min(s);
  }

  /** Totals, count and forecast of nine dry days followed by 5 mm. */
  lemma RainOnLastDay(precip: seq<real>)
    requires precip == [0.0, 0.0, 0.0, 0.0, 0.0, 0.0, 0.0, 0.0, 0.0, 5.0]
    ensures CountPositive(precip) == 1 && Sum(precip) == 5.0
    ensures PrecipitationForecast(precip) == 5.0 / 7.0
  {
    var dry := precip[..9];
    assert precip[..|precip| - 1] == dry;
    SumAtMost(dry, 0.0);
    SumAtLeast(dry, 0.0);
    CountPositiveZero(dry);
    var week := TakeLast(precip, LastWeekDays);
    var dryWeek := precip[3..9];
    assert week == dryWeek + [5.0];
    SumAtMost(dryWeek, 0.0);
    SumAtLeast(dryWeek, 0.0);
    SumAppend(dryWeek, [5.0]);
    assert Sum(week) == 5.0;
  }

  /** The trend and the temperature forecasts of two rising ten-day series
      five degrees apart per half. */
  lemma RisingTenDaysForecast(tmax: seq<real>, tmin: seq<real>)
    requires |tmax| == 10 && |tmin| == 10
    requires forall i :: 0 <= i < |tmax| ==> tmax[i] == 20.0 + (i as real)
    requires forall i :: 0 <= i < |tmin| ==> tmin[i] == 10.0 + (i as real)
    ensures ComputeTrend(tmax, tmin) == TrendResult(Warming, 5.0, 5.0)
    ensures MomentumForecast(tmax, 5.0) == 27.5 && MomentumForecast(tmin, 5.0) == 17.5
  {
    RisingHalves(tmax, 20.0);
    RisingHalves(tmin, 10.0);
    RisingWeek(tmax, 20.0);
    RisingWeek(tmin, 10.0);
  }

  /** Ten days warming by one degree a day, with rain only on the last day. */
  lemma TenDayScenario()
    ensures var a := AnalyzeWeather(
              [20.0, 21.0, 22.0, 23.0, 24.0, 25.0, 26.0, 27.0, 28.0, 29.0],
              [10.0, 11.0, 12.0, 13.0, 14.0, 15.0, 16.0, 17.0, 18.0, 19.0],
              [0.0, 0.0, 0.0, 0.0, 0.0, 0.0, 0.0, 0.0, 0.0, 5.0]).value;
            && a.avgTempAll == 24.5 && a.maxTemp == 29.0 && a.minTemp == 10.0
            && a.trend == Warming && a.trendValue == 5.0
            && a.forecastMax == 27.5 && a.forecastMin == 17.5 && a.forecastAvg == 22.5
            && a.forecastPrecipitation == 5.0 / 7.0
            && a.rainyDays == 1 && a.totalPrecipitation == 5.0 && a.daysAnalyzed == 10
  {
    var tmax := [20.0, 21.0, 22.0, 23.0, 24.0, 25.0, 26.0, 27.0, 28.0, 29.0];
    var tmin := [10.0, 11.0, 12.0, 13.0, 14.0, 15.0, 16.0, 17.0, 18.0, 19.0];
    var precip := [0.0, 0.0, 0.0, 0.0, 0.0, 0.0, 0.0, 0.0, 0.0, 5.0];
    RisingMean(tmax, 20.0);
    RisingExtremes(tmax, 20.0);
    RisingExtremes(tmin, 10.0);
    RisingTenDaysForecast(tmax, tmin);
    RainOnLastDay(precip);
  }
}
