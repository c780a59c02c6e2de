/**
  The bookkeeping around the demand forecasts: the department multipliers and the default
  selection of departments, the cache of forecasts per department, the hourly split of a
  daily forecast and the optimisation insights read from the cache. Fitting and running
  the forecasting model is a parameter (`predict`), and a forecast is represented by its
  rows after the current time.
*/
module Forecasting {
  import opened Wrappers
  import opened Text

  /** `department_multipliers`, in the order of the dict literal. */
  const DepartmentMultipliers: seq<(string, real)> := [
    ("Sales Floor", 1.2), ("Customer Service", 1.0), ("Electronics", 1.3), ("Clothing", 1.1),
    ("Grocery", 1.4), ("Pharmacy", 0.8), ("Home & Garden", 0.9), ("Inventory", 0.7)]

  function MultiplierKeys(): (keys: seq<string>)
    ensures |keys| == |DepartmentMultipliers|
    ensures forall i :: 0 <= i < |keys| ==> keys[i] == DepartmentMultipliers[i].0
  {
    seq(|DepartmentMultipliers|, i requires 0 <= i < |DepartmentMultipliers| => DepartmentMultipliers[i].0)
  }

  /** The departments `forecast_all_departments` forecasts: those asked for, or the first three multiplier keys. */
  function TargetDepartments(departments: Option<seq<string>>): (r: seq<string>)
    ensures departments.Some? ==> r == departments.value
    ensures departments.None? ==> r == ["Sales Floor", "Customer Service", "Electronics"]
  {
    match departments
    case Some(ds) => ds
    case None => MultiplierKeys()[..3]
  }

  /** One future row of a forecast: the date label, `yhat` and the staff it calls for. */
  datatype ForecastDay = ForecastDay(date: string, yhat: real, requiredStaff: int)

  /** A forecast, by its rows whose date lies after the current time. */
  datatype Forecast = Forecast(future: seq<ForecastDay>)

  // ------------------------------------------------------------------ hourly distribution

  const DefaultPattern: seq<real> := [
    0.02, 0.01, 0.01, 0.01, 0.02, 0.03, 0.04, 0.05, 0.07, 0.09, 0.11, 0.12,
    0.10, 0.09, 0.08, 0.07, 0.06, 0.05, 0.04, 0.03, 0.02, 0.01, 0.01, 0.01]

  const GroceryPattern: seq<real> := [
    0.01, 0.01, 0.01, 0.01, 0.02, 0.03, 0.05, 0.07, 0.09, 0.10, 0.11, 0.10,
    0.09, 0.08, 0.07, 0.06, 0.08, 0.09, 0.07, 0.05, 0.03, 0.02, 0.01, 0.01]

  const ElectronicsPattern: seq<real> := [
    0.01, 0.01, 0.01, 0.01, 0.01, 0.02, 0.03, 0.04, 0.05, 0.07, 0.09, 0.11,
    0.12, 0.11, 0.10, 0.09, 0.08, 0.07, 0.06, 0.04, 0.02, 0.01, 0.01, 0.01]

  /** `hourly_patterns.get(department, hourly_patterns['default'])`. */
  function HourlyPattern(department: string): (p: seq<real>)
    ensures |p| == 24
    ensures forall h :: 0 <= h < 24 ==> 0.0 < p[h] <= 0.12
    ensures department != "Grocery" && department != "Electronics" ==> p == DefaultPattern
  {
    if department == "Grocery" then GroceryPattern
    else if department == "Electronics" then ElectronicsPattern
    else DefaultPattern
  }

  /** One entry of `get_hourly_distribution`; the confidence, a random draw, is left out. */
  datatype HourForecast = HourForecast(hour: nat, hourLabel: string, predictedCustomers: int, requiredStaff: int)

  /** `max(1, int(customers / 15))`. */
  function StaffFor(customers: int): (staff: int)
    ensures staff >= 1
    ensures customers >= 0 ==> staff == Max(1, customers / 15)
  {
    Max(1, Trunc(customers as real / 15.0))
  }

  function HourEntry(dailyCustomers: int, pattern: seq<real>, hour: nat): (e: HourForecast)
    requires hour < |pattern|
    ensures e.hour == hour
    ensures hour < 100 ==> e.hourLabel == [DigitChar(hour / 10), DigitChar(hour % 10), ':', '0', '0']
    ensures dailyCustomers >= 0 && pattern[hour] >= 0.0 ==>
              && 0 <= e.predictedCustomers
              && e.predictedCustomers as real <= dailyCustomers as real * pattern[hour] < e.predictedCustomers as real + 1.0
    ensures e.requiredStaff >= 1
    ensures e.predictedCustomers >= 0 ==> e.requiredStaff == Max(1, e.predictedCustomers / 15)
  {
    var customers := Trunc(dailyCustomers as real * pattern[hour]);
    HourForecast(hour, PadTwo(hour) + ":00", customers, StaffFor(customers))
  }

  /** `get_hourly_distribution`: 24 entries, entry `h` for hour `h`. */
  method HourlyDistribution(dailyCustomers: int, department: string) returns (hours: seq<HourForecast>)
    ensures |hours| == 24
    ensures forall h :: 0 <= h < 24 ==> hours[h] == HourEntry(dailyCustomers, HourlyPattern(department), h)
    ensures forall h :: 0 <= h < 24 ==> hours[h].hour == h && |hours[h].hourLabel| == 5 && hours[h].requiredStaff >= 1
  {
    var pattern := HourlyPattern(department);
    hours := Tabulate(24, (hour: nat) requires hour < 24 => HourEntry(dailyCustomers, pattern, hour));
  }

  // ------------------------------------------------------------------ the forecast cache

  /** The first index of a largest `yhat`, as `idxmax` picks it. */
  function PeakIndex(days: seq<ForecastDay>): (i: nat)
    requires days != []
    ensures i < |days|
    ensures forall k :: 0 <= k < |days| ==> days[k].yhat <= days[i].yhat
    ensures forall k :: 0 <= k < i ==> days[k].yhat < days[i].yhat
  {
    if |days| == 1 then 0
    else
      var j := PeakIndex(days[..|days| - 1]);
      if days[|days| - 1].yhat > days[j].yhat then |days| - 1 else j
  }

  /** The first index of a smallest `yhat`, as `idxmin` picks it. */
  function LowIndex(days: seq<ForecastDay>): (i: nat)
    requires days != []
    ensures i < |days|
    ensures forall k :: 0 <= k < |days| ==> days[i].yhat <= days[k].yhat
    ensures forall k :: 0 <= k < i ==> days[i].yhat < days[k].yhat
  {
    if |days| == 1 then 0
    else
      var j := LowIndex(days[..|days| - 1]);
      if days[|days| - 1].yhat < days[j].yhat then |days| - 1 else j
  }

  /** An entry of `peak_periods` or `low_periods`. */
  datatype Period = Period(department: string, date: string, expectedCustomers: int, requiredStaff: int)

  function PeriodOf(department: string, day: ForecastDay): Period {
    Period(department, day.date, Trunc(day.yhat), day.requiredStaff)
  }

  /** The departments asked for that have a cached forecast with future rows, in order. */
  function Reported(departments: seq<string>, cache: map<string, Forecast>): (r: seq<string>)
    ensures |r| <= |departments|
    ensures forall d :: d in r <==> d in departments && d in cache && cache[d].future != []
  {
    if departments == [] then []
    else
      var d := departments[|departments| - 1];
      Reported(departments[..|departments| - 1], cache)
      + (if d in cache && cache[d].future != [] then [d] else [])
  }

  /** Departments are reported one by one, so the report keeps the requested order and repetitions. */
  lemma {:induction false} ReportedAppend(a: seq<string>, b: seq<string>, cache: map<string, Forecast>)
    ensures Reported(a + b, cache) == Reported(a, cache) + Reported(b, cache)
    decreases |b|
  {
    if b == [] {
      assert a + b == a;
    } else {
      var init := b[..|b| - 1];
      assert (a + b)[..|a + b| - 1] == a + init;
      assert (a + b)[|a + b| - 1] == b[|b| - 1];
      ReportedAppend(a, init, cache);
    }
  }

  /** How many peak periods call for more than five staff. */
  function BusyPeaks(peaks: seq<Period>): (n: nat)
    ensures n <= |peaks|
    ensures n == 0 <==> forall k :: 0 <= k < |peaks| ==> peaks[k].requiredStaff <= 5
    ensures n == |peaks| <==> forall k :: 0 <= k < |peaks| ==> peaks[k].requiredStaff > 5
  {
    CountIfExtremes(peaks, Busy);
    CountIf(peaks, Busy)
  }

  predicate Busy(p: Period) {
    p.requiredStaff > 5
  }

  datatype Insights = Insights(peakPeriods: seq<Period>, lowPeriods: seq<Period>, staffingRecommendations: seq<string>)

  /** The three fixed-form recommendations, the first counting the busy peaks. */
  function Recommendations(peaks: seq<Period>): (r: seq<string>)
    ensures |r| == 3
    ensures r[0] == "Schedule " + NatToString(BusyPeaks(peaks)) + " additional staff for peak periods"
  {
    ["Schedule " + NatToString(BusyPeaks(peaks)) + " additional staff for peak periods",
     "Consider cross-training for departments with confidence < 0.8",
     "Implement flexible scheduling for uncertain periods"]
  }

  class ForecastingEngine {
    /** `forecast_results`: the last forecast made for each department. */
    var forecastResults: map<string, Forecast>

    constructor()
      ensures forecastResults == map[]
    {
      forecastResults := map[];
    }

    /** `forecast_demand`: runs the model for one department and caches the result. */
    method ForecastDemand(department: string, predict: string -> Forecast) returns (f: Forecast)
      modifies this
      ensures f == predict(department)
      ensures forecastResults == old(forecastResults)[department := f]
    {
      f := predict(department);
      forecastResults := forecastResults[department := f];
    }

    /** `forecast_all_departments`: one forecast per requested department, each also cached. */
    method ForecastAll(departments: Option<seq<string>>, predict: string -> Forecast)
      returns (all: map<string, Forecast>)
      modifies this
      ensures all.Keys == set d | d in TargetDepartments(departments)
      ensures forall d :: d in all ==> all[d] == predict(d)
      ensures forecastResults == old(forecastResults) + all
    {
      var targets := TargetDepartments(departments);
      all := map[];
      var i := 0;
      while i < |targets|
        invariant 0 <= i <= |targets|
        invariant all.Keys == set d | d in targets[..i]
        invariant forall d :: d in all ==> all[d] == predict(d)
        invariant forecastResults == old(forecastResults) + all
      {
        var f := ForecastDemand(targets[i], predict);
        all := all[targets[i] := f];
        assert targets[..i + 1] == targets[..i] + [targets[i]];
        i := i + 1;
      }
      assert targets[..i] == targets;
    }

    /**
      The peak and low periods and the staffing recommendations of `get_optimization_insights`:
      departments without a cached forecast, or without future rows, are skipped.
    */
    method OptimizationInsights(departments: seq<string>) returns (insights: Insights)
      ensures |insights.peakPeriods| == |insights.lowPeriods| == |Reported(departments, forecastResults)|
      ensures forall k :: 0 <= k < |insights.peakPeriods| ==>
                var d := Reported(departments, forecastResults)[k];
                var days := forecastResults[d].future;
                insights.peakPeriods[k] == PeriodOf(d, days[PeakIndex(days)])
                && insights.lowPeriods[k] == PeriodOf(d, days[LowIndex(days)])
      ensures insights.staffingRecommendations == Recommendations(insights.peakPeriods)
    {
      var cache := forecastResults;
      var reported := Reported(departments, cache);
      var peaks, lows := PeriodsOf(reported, cache);
      insights := Insights(peaks, lows, Recommendations(peaks));
    }
  }

  /** The loop of `get_optimization_insights` over the departments that report. */
  method PeriodsOf(reported: seq<string>, cache: map<string, Forecast>) returns (peaks: seq<Period>, lows: seq<Period>)
    requires forall d :: d in reported ==> d in cache && cache[d].future != []
    ensures |peaks| == |lows| == |reported|
    ensures forall k :: 0 <= k < |reported| ==>
              var days := cache[reported[k]].future;
              peaks[k] == PeriodOf(reported[k], days[PeakIndex(days)])
              && lows[k] == PeriodOf(reported[k], days[LowIndex(days)])
  {
    peaks, lows := [], [];
    var i := 0;
    while i < |reported|
      invariant 0 <= i <= |reported| && |peaks| == i && |lows| == i
      invariant forall k :: 0 <= k < i ==>
                  var days := cache[reported[k]].future;
                  peaks[k] == PeriodOf(reported[k], days[PeakIndex(days)])
                  && lows[k] == PeriodOf(reported[k], days[LowIndex(days)])
    {
      var d := reported[i];
      var days := cache[d].future;
      peaks := peaks + [PeriodOf(d, days[PeakIndex(days)])];
      lows := lows + [PeriodOf(d, days[LowIndex(days)])];
      i := i + 1;
    }
  }

  /** The peak of a forecast never expects fewer customers than its low. */
  lemma PeakAboveLow(days: seq<ForecastDay>)
    requires days != []
    ensures days[LowIndex(days)].yhat <= days[PeakIndex(days)].yhat
  {
  }
}
