/** Demand forecasting: aggregation of the sales history, the seasonal (Prophet)
    forecaster with its fitted/unfitted guard and output clean-up, the weighted-average
    fallback forecaster, and the factory that chooses between them.

    Dates are day numbers (days since a fixed epoch). Instants with a time of day,
    such as "now", are reals on the same scale, so `(a - b).days` is `(a - b).Floor`. */
module Forecasting {
  import opened Wrappers
  import opened Numeric
  import Text

  /** One row of sales history: a calendar day and the units sold in that row. */
  datatype Sale = Sale(date: int, quantity: int)

  /** One day of aggregated history: the `ds`/`y` row the seasonal model is trained on. */
  datatype DailyTotal = DailyTotal(date: int, total: int)

  /** One day of forecast: the instant of the row and predicted demand with its bounds. */
  datatype ForecastRow = ForecastRow(date: real, predicted: real, lower: real, upper: real)

  // ---------------------------------------------------------------------------
  // prepare_data: sort by date, then one row per distinct date with summed quantity

  predicate StrictlyIncreasing(series: seq<DailyTotal>)
  {
    forall i, j :: 0 <= i < j < |series| ==> series[i].date < series[j].date
  }

  function Dates(series: seq<DailyTotal>): set<int>
  {
    set e | e in series :: e.date
  }

  function SaleDates(sales: seq<Sale>): set<int>
  {
    set s | s in sales :: s.date
  }

  /** The units sold on day d, over all rows of the history. */
  function QuantityOn(sales: seq<Sale>, d: int): int
  {
    if sales == [] then 0
    else
      var last := sales[|sales| - 1];
      QuantityOn(sales[..|sales| - 1], d) + (if last.date == d then last.quantity else 0)
  }

  /** The units sold over the whole history. */
  function TotalQuantity(sales: seq<Sale>): int
  {
    if sales == [] then 0 else TotalQuantity(sales[..|sales| - 1]) + sales[|sales| - 1].quantity
  }

  /** The total recorded for day d in an aggregated series (0 if the day is absent). */
  function TotalOn(series: seq<DailyTotal>, d: int): int
  {
    if series == [] then 0
    else (if series[0].date == d then series[0].total else 0) + TotalOn(series[1..], d)
  }

  function GrandTotal(series: seq<DailyTotal>): int
  {
    if series == [] then 0 else series[0].total + GrandTotal(series[1..])
  }

  /** Adds one sale to a date-ordered aggregated series. */
  function AddSale(series: seq<DailyTotal>, s: Sale): (r: seq<DailyTotal>)
    ensures 0 < |r| && |series| <= |r| <= |series| + 1
  {
    if series == [] then [DailyTotal(s.date, s.quantity)]
    else if s.date < series[0].date then [DailyTotal(s.date, s.quantity)] + series
    else if s.date == series[0].date then [DailyTotal(s.date, series[0].total + s.quantity)] + series[1..]
    else [series[0]] + AddSale(series[1..], s)
  }

  /** The aggregated series: the history grouped by date, in date order. */
  function Aggregate(sales: seq<Sale>): (series: seq<DailyTotal>)
    ensures |series| <= |sales|
    ensures sales != [] ==> |series| > 0
  {
    if sales == [] then [] else AddSale(Aggregate(sales[..|sales| - 1]), sales[|sales| - 1])
  }

  lemma {:induction false} TotalOnAbsent(series: seq<DailyTotal>, d: int)
    requires d !in Dates(series)
    ensures TotalOn(series, d) == 0
  {
    if series != [] {
      assert series[0] in series;
      assert Dates(series[1..]) <= Dates(series) by {
        forall e | e in series[1..] ensures e in series { }
      }
      TotalOnAbsent(series[1..], d);
    }
  }

  /** Adding a sale adds its date to the set of dates and nothing else. */
  lemma {:induction false} AddSaleDates(series: seq<DailyTotal>, s: Sale)
    ensures Dates(AddSale(series, s)) == Dates(series) + {s.date}
  {
    var r := AddSale(series, s);
    if series == [] {
    } else if s.date < series[0].date {
      forall e | e in r ensures e == r[0] || e in series { }
    } else if s.date == series[0].date {
      forall e | e in r ensures e.date in Dates(series) {
        if e != r[0] { assert e in series[1..]; }
      }
      forall e | e in series ensures e.date in Dates(r) {
        if e != series[0] { assert e in series[1..]; assert e in r[1..]; }
      }
    } else {
      var tail := series[1..];
      AddSaleDates(tail, s);
      var rt := AddSale(tail, s);
      assert r == [series[0]] + rt;
      assert Dates(series) == {series[0].date} + Dates(tail) by {
        forall e | e in series ensures e == series[0] || e in tail { }
        forall e | e in tail ensures e in series { }
      }
      assert Dates(r) == {series[0].date} + Dates(rt) by {
        forall e | e in r ensures e == series[0] || e in rt { }
        forall e | e in rt ensures e in r { assert e in r[1..]; }
      }
    }
  }

  /** Every date of the series is after b. */
  predicate DatesAbove(b: int, series: seq<DailyTotal>)
  {
    forall i :: 0 <= i < |series| ==> b < series[i].date
  }

  /** A sale after b added to a series after b leaves it after b. */
  lemma {:induction false} AddSaleAbove(b: int, series: seq<DailyTotal>, s: Sale)
    requires DatesAbove(b, series) && b < s.date
    ensures DatesAbove(b, AddSale(series, s))
  {
    if series != [] && s.date > series[0].date {
      AddSaleAbove(b, series[1..], s);
      assert AddSale(series, s) == [series[0]] + AddSale(series[1..], s);
    }
  }

  lemma ConsIncreasing(x: DailyTotal, rest: seq<DailyTotal>)
    requires StrictlyIncreasing(rest) && DatesAbove(x.date, rest)
    ensures StrictlyIncreasing([x] + rest)
  {
    var r := [x] + rest;
    forall i, j | 0 <= i < j < |r| ensures r[i].date < r[j].date {
      assert r[j] == rest[j - 1];
      if i > 0 {
        assert r[i] == rest[i - 1];
      }
    }
  }

  /** Adding a sale keeps the series in strictly increasing date order. */
  lemma {:induction false} AddSaleSorted(series: seq<DailyTotal>, s: Sale)
    requires StrictlyIncreasing(series)
    ensures StrictlyIncreasing(AddSale(series, s))
  {
    if series != [] {
      var tail := series[1..];
      assert StrictlyIncreasing(tail) && DatesAbove(series[0].date, tail) by {
        forall i | 0 <= i < |tail| ensures series[0].date < tail[i].date {
          assert tail[i] == series[i + 1];
        }
      }
      if s.date < series[0].date {
        ConsIncreasing(DailyTotal(s.date, s.quantity), series);
      } else if s.date == series[0].date {
        ConsIncreasing(DailyTotal(s.date, series[0].total + s.quantity), tail);
      } else {
        AddSaleSorted(tail, s);
        AddSaleAbove(series[0].date, tail, s);
        ConsIncreasing(series[0], AddSale(tail, s));
      }
    }
  }

  /** Adding a sale adds its quantity to the total of its own date only. */
  lemma {:induction false} AddSaleTotalOn(series: seq<DailyTotal>, s: Sale, d: int)
    ensures TotalOn(AddSale(series, s), d) == TotalOn(series, d) + (if d == s.date then s.quantity else 0)
  {
    var r := AddSale(series, s);
    if series == [] {
    } else if s.date < series[0].date {
      assert r[1..] == series;
    } else if s.date == series[0].date {
      assert r[1..] == series[1..];
    } else {
      assert r[1..] == AddSale(series[1..], s);
      AddSaleTotalOn(series[1..], s, d);
    }
  }

  lemma {:induction false} AddSaleGrandTotal(series: seq<DailyTotal>, s: Sale)
    ensures GrandTotal(AddSale(series, s)) == GrandTotal(series) + s.quantity
  {
    var r := AddSale(series, s);
    if series == [] {
    } else if s.date < series[0].date {
      assert r[1..] == series;
    } else if s.date == series[0].date {
      assert r[1..] == series[1..];
    } else {
      assert r[1..] == AddSale(series[1..], s);
      AddSaleGrandTotal(series[1..], s);
    }
  }

  lemma {:induction false} EntryTotal(series: seq<DailyTotal>, i: int)
    requires StrictlyIncreasing(series) && 0 <= i < |series|
    ensures TotalOn(series, series[i].date) == series[i].total
  {
    var tail := series[1..];
    if i == 0 {
      assert series[0].date !in Dates(tail) by {
        forall e | e in tail ensures e.date != series[0].date {
          var k :| 0 <= k < |tail| && tail[k] == e;
          assert series[k + 1] == e;
        }
      }
      TotalOnAbsent(tail, series[0].date);
    } else {
      assert tail[i - 1] == series[i];
      EntryTotal(tail, i - 1);
    }
  }

  /** What `prepare_data` promises of a non-empty history:
      the aggregated series is in strictly increasing date order (one entry per
      distinct date), has exactly the history's dates, carries for each date the
      sum of that date's quantities, and preserves the total quantity. */
  lemma {:induction false} AggregateProperties(sales: seq<Sale>)
    ensures StrictlyIncreasing(Aggregate(sales))
    ensures Dates(Aggregate(sales)) == SaleDates(sales)
    ensures forall d :: TotalOn(Aggregate(sales), d) == QuantityOn(sales, d)
    ensures forall i :: 0 <= i < |Aggregate(sales)| ==>
              Aggregate(sales)[i].total == QuantityOn(sales, Aggregate(sales)[i].date)
    ensures GrandTotal(Aggregate(sales)) == TotalQuantity(sales)
  {
    AggregateSorted(sales);
    AggregateDates(sales);
    AggregateGrandTotal(sales);
    forall d ensures TotalOn(Aggregate(sales), d) == QuantityOn(sales, d) {
      AggregateTotalOn(sales, d);
    }
    var agg := Aggregate(sales);
    forall i | 0 <= i < |agg| ensures agg[i].total == QuantityOn(sales, agg[i].date) {
      EntryTotal(agg, i);
    }
  }

  lemma {:induction false} AggregateSorted(sales: seq<Sale>)
    ensures StrictlyIncreasing(Aggregate(sales))
  {
    if sales != [] {
      var prefix, last := sales[..|sales| - 1], sales[|sales| - 1];
      AggregateSorted(prefix);
      AddSaleSorted(Aggregate(prefix), last);
    }
  }

  lemma {:induction false} AggregateDates(sales: seq<Sale>)
    ensures Dates(Aggregate(sales)) == SaleDates(sales)
  {
    if sales != [] {
      var prefix, last := sales[..|sales| - 1], sales[|sales| - 1];
      AggregateDates(prefix);
      AddSaleDates(Aggregate(prefix), last);
      assert SaleDates(sales) == SaleDates(prefix) + {last.date} by {
        assert sales == prefix + [last];
        forall s | s in sales ensures s in prefix || s == last { }
      }
    }
  }

  lemma {:induction false} AggregateTotalOn(sales: seq<Sale>, d: int)
    ensures TotalOn(Aggregate(sales), d) == QuantityOn(sales, d)
  {
    if sales != [] {
      var prefix, last := sales[..|sales| - 1], sales[|sales| - 1];
      AggregateTotalOn(prefix, d);
      AddSaleTotalOn(Aggregate(prefix), last, d);
    }
  }

  lemma {:induction false} AggregateGrandTotal(sales: seq<Sale>)
    ensures GrandTotal(Aggregate(sales)) == TotalQuantity(sales)
  {
    if sales != [] {
      var prefix, last := sales[..|sales| - 1], sales[|sales| - 1];
      AggregateGrandTotal(prefix);
      AddSaleGrandTotal(Aggregate(prefix), last);
    }
  }

  /** `prepare_data`: raises on an empty history; otherwise the aggregated series. */
  function PrepareData(sales: seq<Sale>): (r: Result<seq<DailyTotal>>)
    ensures r.Failure? <==> sales == []
    ensures r.Success? ==>
      && StrictlyIncreasing(r.value)
      && Dates(r.value) == SaleDates(sales)
      && |r.value| > 0
      && (forall i :: 0 <= i < |r.value| ==> r.value[i].total == QuantityOn(sales, r.value[i].date))
      && GrandTotal(r.value) == TotalQuantity(sales)
  {
    if sales == [] then Failure("cannot forecast with empty dataset")
    else
      AggregateProperties(sales);
      assert sales[0].date in SaleDates(sales);
      Success(Aggregate(sales))
  }

  // ---------------------------------------------------------------------------
  // detect_seasonality

  datatype Seasonality = Seasonality(daily: bool, weekly: bool, monthly: bool, yearly: bool)

  function MaxDate(series: seq<DailyTotal>): (m: int)
    requires |series| > 0
    ensures forall i :: 0 <= i < |series| ==> series[i].date <= m
    ensures exists i :: 0 <= i < |series| && series[i].date == m
  {
    if |series| == 1 then series[0].date
    else
      var rest := MaxDate(series[1..]);
      assert forall i :: 1 <= i < |series| ==> series[i] == series[1..][i - 1];
      if series[0].date >= rest then series[0].date else rest
  }

  function MinDate(series: seq<DailyTotal>): (m: int)
    requires |series| > 0
    ensures forall i :: 0 <= i < |series| ==> m <= series[i].date
    ensures exists i :: 0 <= i < |series| && series[i].date == m
  {
    if |series| == 1 then series[0].date
    else
      var rest := MinDate(series[1..]);
      assert forall i :: 1 <= i < |series| ==> series[i] == series[1..][i - 1];
      if series[0].date <= rest then series[0].date else rest
  }

  /** The number of days between the first and the last date of the history. */
  function Span(series: seq<DailyTotal>): (d: nat)
    requires |series| > 0
    ensures StrictlyIncreasing(series) ==> d == series[|series| - 1].date - series[0].date
  {
    MaxDate(series) - MinDate(series)
  }

  /** Which seasonal components the history is long enough to support. */
  function DetectSeasonality(series: seq<DailyTotal>): (s: Seasonality)
    requires |series| > 0
    ensures s.daily == s.weekly == (Span(series) >= 14)
    ensures s.monthly == (Span(series) >= 60)
    ensures s.yearly == (Span(series) >= 730)
  {
    var span := Span(series);
    Seasonality(span >= 14, span >= 14, span >= 60, span >= 730)
  }

  /** Each switch is monotone in the span, and the switches are nested:
      yearly implies monthly, which implies weekly and daily. */
  lemma SeasonalityMonotone(a: seq<DailyTotal>, b: seq<DailyTotal>)
    requires |a| > 0 && |b| > 0 && Span(a) <= Span(b)
    ensures DetectSeasonality(a).weekly ==> DetectSeasonality(b).weekly
    ensures DetectSeasonality(a).daily ==> DetectSeasonality(b).daily
    ensures DetectSeasonality(a).monthly ==> DetectSeasonality(b).monthly
    ensures DetectSeasonality(a).yearly ==> DetectSeasonality(b).yearly
    ensures DetectSeasonality(a).yearly ==> DetectSeasonality(a).monthly
    ensures DetectSeasonality(a).monthly ==> DetectSeasonality(a).weekly && DetectSeasonality(a).daily
  {
  }

  // ---------------------------------------------------------------------------
  // The seasonal model and its configuration

  /** An extra seasonal component registered with `add_seasonality`. */
  datatype ExtraSeasonality = ExtraSeasonality(name: string, period: real, fourierOrder: nat, priorScale: Option<real>)

  datatype SeasonalityMode = Additive | Multiplicative

  /** The constructor arguments and extra components of the Prophet model. */
  datatype ProphetConfig = ProphetConfig(
    intervalWidth: real,
    dailySeasonality: bool,
    weeklySeasonality: bool,
    yearlySeasonality: bool,
    seasonalityMode: SeasonalityMode,
    changepointPriorScale: real,
    extraSeasonalities: seq<ExtraSeasonality>)

  /** A trained model: its configuration and the aggregated series it was fitted on. */
  datatype FittedModel = FittedModel(config: ProphetConfig, history: seq<DailyTotal>)

  /** One day of Prophet output: `yhat`, `yhat_lower`, `yhat_upper` and `trend`. */
  datatype Prediction = Prediction(yhat: real, yhatLower: real, yhatUpper: real, trend: real)

  /** Prophet's fit-and-predict, which is not part of this model: the prediction a
      trained model makes for a day. */
  type Prophet = (FittedModel, int) -> Prediction

  const MonthlySeasonality := ExtraSeasonality("monthly", 30.5, 5, None)
  const NewYearRush := ExtraSeasonality("new_year_rush", 365.25, 3, Some(10.0))

  /** A category hint naming a fitness product, compared case-insensitively. */
  predicate IsFitnessCategory(category: Option<string>)
  {
    category.Some? && Text.Contains(Text.Lower(category.value), "fitness")
  }

  /** The Prophet configuration `fit` builds for an aggregated history. */
  function Configure(intervalWidth: real, series: seq<DailyTotal>, category: Option<string>): (c: ProphetConfig)
    requires |series| > 0
    ensures c.dailySeasonality == c.weeklySeasonality == (Span(series) >= 14)
    ensures c.yearlySeasonality == (Span(series) >= 730)
    ensures MonthlySeasonality in c.extraSeasonalities <==> Span(series) >= 60
    ensures NewYearRush in c.extraSeasonalities <==> IsFitnessCategory(category)
    ensures forall x :: x in c.extraSeasonalities ==> x == MonthlySeasonality || x == NewYearRush
    ensures |c.extraSeasonalities| == (if Span(series) >= 60 then 1 else 0) + (if IsFitnessCategory(category) then 1 else 0)
    ensures |c.extraSeasonalities| == 2 ==> c.extraSeasonalities == [MonthlySeasonality, NewYearRush]
    ensures c.seasonalityMode == Multiplicative && c.changepointPriorScale == 0.05
    ensures c.intervalWidth == intervalWidth
  {
    var s := DetectSeasonality(series);
    ProphetConfig(intervalWidth, s.daily, s.weekly, s.yearly, Multiplicative, 0.05,
      (if s.monthly then [MonthlySeasonality] else []) + (if IsFitnessCategory(category) then [NewYearRush] else []))
  }

  /** `make_future_dataframe(periods=n)`: the history's dates followed by the n days after the last one. */
  function PredictionDays(history: seq<DailyTotal>, n: nat): (days: seq<int>)
    requires |history| > 0
    ensures |days| == |history| + n
    ensures forall i :: 0 <= i < |history| ==> days[i] == history[i].date
    ensures forall i :: |history| <= i < |days| ==> days[i] == history[|history| - 1].date + 1 + (i - |history|)
  {
    seq(|history|, i requires 0 <= i < |history| => history[i].date)
      + seq(n, i requires 0 <= i < n => history[|history| - 1].date + 1 + i)
  }

  /** The number of future days a requested horizon adds: none for a negative one. */
  function Horizon(daysAhead: int): nat
  {
    if daysAhead < 0 then 0 else daysAhead
  }

  /** Clip at zero, then round to whole units. */
  function Clean(x: real): (r: real)
    ensures 0.0 <= r && IsWhole(r)
    ensures 0.0 <= x ==> x - 0.5 <= r <= x + 0.5
    ensures x < 0.0 ==> r == 0.0
  {
    RoundHalfEvenOfInt(0);
    RoundHalfEvenMonotone(0.0, MaxReal(x, 0.0));
    RoundHalfEven(MaxReal(x, 0.0)) as real
  }

  lemma CleanMonotone(x: real, y: real)
    requires x <= y
    ensures Clean(x) <= Clean(y)
  {
    RoundHalfEvenMonotone(MaxReal(x, 0.0), MaxReal(y, 0.0));
  }

  function CleanRow(day: int, p: Prediction): (row: ForecastRow)
    ensures row.date == day as real
    ensures 0.0 <= row.predicted && 0.0 <= row.lower && 0.0 <= row.upper
    ensures IsWhole(row.predicted) && IsWhole(row.lower) && IsWhole(row.upper)
    ensures 0.0 <= p.yhat ==> p.yhat - 0.5 <= row.predicted <= p.yhat + 0.5
    ensures 0.0 <= p.yhatLower ==> p.yhatLower - 0.5 <= row.lower <= p.yhatLower + 0.5
    ensures 0.0 <= p.yhatUpper ==> p.yhatUpper - 0.5 <= row.upper <= p.yhatUpper + 0.5
    ensures p.yhat < 0.0 ==> row.predicted == 0.0
    ensures p.yhatLower < 0.0 ==> row.lower == 0.0
    ensures p.yhatUpper < 0.0 ==> row.upper == 0.0
  {
    ForecastRow(day as real, Clean(p.yhat), Clean(p.yhatLower), Clean(p.yhatUpper))
  }

  datatype Direction = Increasing | Decreasing

  datatype Trend = Trend(direction: Direction, strengthPercent: Option<real>, currentTrendValue: real)

  /** MAPE is `None` when some actual value is zero (NumPy yields inf or NaN there). */
  datatype Accuracy = Accuracy(mape: Option<real>, rmse: real, mae: real)

  function Abs(x: real): real { if x < 0.0 then -x else x }

  /** The seasonal forecaster: unfitted until `Fit` succeeds. */
  class DemandForecaster {
    const confidenceInterval: real
    var model: Option<FittedModel>
    var isFitted: bool

    ghost predicate Valid()
      reads this
    {
      && (isFitted ==> model.Some?)
      && (model.Some? ==> |model.value.history| >= 7 && StrictlyIncreasing(model.value.history))
    }

    constructor (confidenceInterval: real := 0.95)
      ensures Valid()
      ensures this.confidenceInterval == confidenceInterval && model == None && !isFitted
    {
      this.confidenceInterval := confidenceInterval;
      model := None;
      isFitted := false;
    }

    /** `fit`: raises on an empty history or one with fewer than 7 distinct dates,
        leaving the forecaster as it was; otherwise configures and trains the model. */
    method Fit(sales: seq<Sale>, category: Option<string>) returns (r: Outcome)
      requires Valid()
      modifies this
      ensures Valid()
      ensures sales == [] ==> r == Fail("cannot forecast with empty dataset")
      ensures r.Fail? <==> |Aggregate(sales)| < 7
      ensures r.Fail? ==> model == old(model) && isFitted == old(isFitted)
      ensures r.Pass? ==>
        isFitted && model == Some(FittedModel(Configure(confidenceInterval, Aggregate(sales), category), Aggregate(sales)))
    {
      var prepared := PrepareData(sales);
      if prepared.Failure? {
        return Fail(prepared.error);
      }
      var series := prepared.value;
      if |series| < 7 {
        return Fail("need at least 7 days of data, got " + Text.IntToString(|series|));
      }
      model := Some(FittedModel(Configure(confidenceInterval, series, category), series));
      isFitted := true;
      r := Pass;
    }

    /** `forecast`: raises when unfitted; otherwise one cleaned row per day of the
        history followed by one per future day. A negative horizon adds no future
        day, as `make_future_dataframe` gives for `periods=-1`. */
    function Forecast(daysAhead: int, prophet: Prophet): (r: Result<seq<ForecastRow>>)
      reads this
      requires Valid()
      ensures r.Failure? <==> !isFitted
      ensures r.Success? ==>
        var days := PredictionDays(model.value.history, Horizon(daysAhead));
        && |r.value| == |model.value.history| + Horizon(daysAhead)
        && (daysAhead <= 0 ==> |r.value| == |model.value.history|)
        && forall i :: 0 <= i < |r.value| ==>
             && r.value[i] == CleanRow(days[i], prophet(model.value, days[i]))
             && r.value[i].date == days[i] as real
             && 0.0 <= r.value[i].predicted && IsWhole(r.value[i].predicted)
             && 0.0 <= r.value[i].lower && IsWhole(r.value[i].lower)
             && 0.0 <= r.value[i].upper && IsWhole(r.value[i].upper)
    {
      if !isFitted then Failure("model must be fitted before forecasting")
      else
        var m := model.value;
        var days := PredictionDays(m.history, Horizon(daysAhead));
        Success(seq(|days|, i requires 0 <= i < |days| => CleanRow(days[i], prophet(m, days[i]))))
    }

    /** Cleaning keeps the bounds in order: where the model's raw interval contains
        its point estimate, the cleaned row has lower <= predicted <= upper. */
    lemma ForecastKeepsBoundsOrdered(daysAhead: int, prophet: Prophet)
      requires Valid() && isFitted
      requires forall d :: prophet(model.value, d).yhatLower <= prophet(model.value, d).yhat <= prophet(model.value, d).yhatUpper
      ensures var rows := Forecast(daysAhead, prophet).value;
        forall i :: 0 <= i < |rows| ==> rows[i].lower <= rows[i].predicted <= rows[i].upper
    {
      var m := model.value;
      var days := PredictionDays(m.history, Horizon(daysAhead));
      var rows := Forecast(daysAhead, prophet).value;
      forall i | 0 <= i < |rows| ensures rows[i].lower <= rows[i].predicted <= rows[i].upper {
        var p := prophet(m, days[i]);
        CleanMonotone(p.yhatLower, p.yhat);
        CleanMonotone(p.yhat, p.yhatUpper);
      }
    }

    /** `calculate_forecast_accuracy`: empty when unfitted, raises on an empty
        actual history, otherwise the error metrics of the model on its dates. */
    function ForecastAccuracy(actual: seq<Sale>, prophet: Prophet, sqrt: real -> real): (r: Result<Option<Accuracy>>)
      reads this
      requires Valid()
      ensures !isFitted ==> r == Success(None)
      ensures isFitted ==> (r.Failure? <==> actual == [])
      ensures r.Success? && r.value.Some? ==>
        && isFitted
        && (r.value.value.mape.None? <==> exists d :: d in SaleDates(actual) && QuantityOn(actual, d) == 0)
        && (r.value.value.mape.Some? ==> 0.0 <= r.value.value.mape.value)
        && 0.0 <= r.value.value.mae
        && (IsSqrt(sqrt) ==> 0.0 <= r.value.value.rmse)
      ensures isFitted && actual != [] ==>
        && |Aggregate(actual)| > 0
        && r == Success(Some(AccuracyOf(Aggregate(actual), model.value, prophet, sqrt)))
    {
      if !isFitted then Success(None)
      else
        var prepared := PrepareData(actual);
        if prepared.Failure? then Failure(prepared.error)
        else
          ZeroDayIff(actual);
          Success(Some(AccuracyOf(prepared.value, model.value, prophet, sqrt)))
    }

    /** `get_trend_analysis`: empty when unfitted; otherwise compares the first and
        the last of the last 7 trend values of a 7-day-ahead prediction. */
    function TrendAnalysis(prophet: Prophet): (r: Option<Trend>)
      reads this
      requires Valid()
      ensures r.None? <==> !isFitted
      ensures r.Some? ==>
        var recent := RecentTrend(model.value, prophet);
        && (r.value.direction == Increasing <==> recent[6] > recent[0])
        && (r.value.strengthPercent.None? <==> recent[0] == 0.0)
        && (r.value.strengthPercent.Some? ==>
              var exact := Abs(recent[6] - recent[0]) / recent[0] * 100.0;
              exact - 0.005 <= r.value.strengthPercent.value <= exact + 0.005)
        && recent[6] - 0.005 <= r.value.currentTrendValue <= recent[6] + 0.005
    {
      if !isFitted then None
      else
        var recent := RecentTrend(model.value, prophet);
        var first, last := recent[0], recent[6];
        Some(Trend(
          if last > first then Increasing else Decreasing,
          if first == 0.0 then None else Some(Round2(Abs(last - first) / first * 100.0)),
          Round2(last)))
    }
  }

  /** The prediction errors `y_true - y_pred` on the dates of an aggregated series. */
  function Errors(series: seq<DailyTotal>, m: FittedModel, prophet: Prophet): (e: seq<real>)
    ensures |e| == |series|
    ensures forall i :: 0 <= i < |series| ==> e[i] == series[i].total as real - prophet(m, series[i].date).yhat
  {
    seq(|series|, i requires 0 <= i < |series| => series[i].total as real - prophet(m, series[i].date).yhat)
  }

  function AbsAll(s: seq<real>): (r: seq<real>)
    ensures |r| == |s| && forall i :: 0 <= i < |s| ==> r[i] == Abs(s[i]) && 0.0 <= r[i]
  {
    seq(|s|, i requires 0 <= i < |s| => Abs(s[i]))
  }

  function Squares(s: seq<real>): (r: seq<real>)
    ensures |r| == |s| && forall i :: 0 <= i < |s| ==> r[i] == s[i] * s[i]
  {
    seq(|s|, i requires 0 <= i < |s| => s[i] * s[i])
  }

  /** The relative errors |e / y| (only used when no actual value is zero). */
  function RelativeErrors(series: seq<DailyTotal>, e: seq<real>): (r: seq<real>)
    requires |e| == |series|
    ensures |r| == |series|
    ensures forall i :: 0 <= i < |series| ==> 0.0 <= r[i]
    ensures forall i :: 0 <= i < |series| && series[i].total != 0 ==> r[i] == Abs(e[i] / series[i].total as real)
  {
    seq(|series|, i requires 0 <= i < |series| =>
      if series[i].total == 0 then 0.0 else Abs(e[i] / series[i].total as real))
  }

  predicate HasZeroActual(series: seq<DailyTotal>)
  {
    exists i :: 0 <= i < |series| && series[i].total == 0
  }

  /** Mean absolute percentage error to 2 places; `None` when some actual is zero. */
  function Mape(series: seq<DailyTotal>, e: seq<real>): (r: Option<real>)
    requires |e| == |series| > 0
    ensures r.None? <==> HasZeroActual(series)
    ensures r.Some? ==> 0.0 <= r.value
    ensures r.Some? ==>
      var exact := Mean(RelativeErrors(series, e)) * 100.0;
      exact - 0.005 <= r.value <= exact + 0.005
  {
    if HasZeroActual(series) then None
    else
      MeanNonNegative(RelativeErrors(series, e));
      Some(Round2(Mean(RelativeErrors(series, e)) * 100.0))
  }

  /** Root mean squared error to 2 places. */
  function Rmse(e: seq<real>, sqrt: real -> real): (r: real)
    requires |e| > 0
    ensures IsSqrt(sqrt) ==> 0.0 <= r
    ensures IsSqrt(sqrt) ==>
      var root := sqrt(Mean(Squares(e)));
      0.0 <= root && root * root == Mean(Squares(e)) && root - 0.005 <= r <= root + 0.005
  {
    MeanNonNegative(Squares(e));
    Round2(sqrt(Mean(Squares(e))))
  }

  /** Mean absolute error to 2 places. */
  function Mae(e: seq<real>): (r: real)
    requires |e| > 0
    ensures 0.0 <= r
    ensures Mean(AbsAll(e)) - 0.005 <= r <= Mean(AbsAll(e)) + 0.005
  {
    MeanNonNegative(AbsAll(e));
    Round2(Mean(AbsAll(e)))
  }

  /** MAPE, RMSE and MAE of a model against aggregated actuals, each rounded to 2 places. */
  function AccuracyOf(series: seq<DailyTotal>, m: FittedModel, prophet: Prophet, sqrt: real -> real): (a: Accuracy)
    requires |series| > 0
    ensures a.mape.None? <==> HasZeroActual(series)
    ensures a.mape.Some? ==> 0.0 <= a.mape.value
    ensures 0.0 <= a.mae
    ensures IsSqrt(sqrt) ==> 0.0 <= a.rmse
    ensures var e := Errors(series, m, prophet);
      && (a.mape.Some? ==>
            var exact := Mean(RelativeErrors(series, e)) * 100.0;
            exact - 0.005 <= a.mape.value <= exact + 0.005)
      && Mean(AbsAll(e)) - 0.005 <= a.mae <= Mean(AbsAll(e)) + 0.005
      && (IsSqrt(sqrt) ==>
            var root := sqrt(Mean(Squares(e)));
            0.0 <= root && root * root == Mean(Squares(e)) && root - 0.005 <= a.rmse <= root + 0.005)
  {
    var e := Errors(series, m, prophet);
    Accuracy(Mape(series, e), Rmse(e, sqrt), Mae(e))
  }

  /** Errors that are all zero give zero on each metric. */
  lemma MetricsOfZeroErrors(series: seq<DailyTotal>, e: seq<real>, sqrt: real -> real)
    requires |e| == |series| > 0 && IsSqrt(sqrt)
    requires forall i :: 0 <= i < |e| ==> e[i] == 0.0
    ensures Mae(e) == 0.0 && Rmse(e, sqrt) == 0.0
    ensures Mape(series, e).Some? ==> Mape(series, e).value == 0.0
  {
    MeanZero(AbsAll(e));
    MeanZero(Squares(e));
    MeanZero(RelativeErrors(series, e));
    SqrtZero(sqrt);
    Round2OfInt(0);
  }

  /** A model that predicts every actual exactly scores zero on all three metrics. */
  lemma ExactForecastScoresZero(series: seq<DailyTotal>, m: FittedModel, prophet: Prophet, sqrt: real -> real)
    requires |series| > 0 && IsSqrt(sqrt)
    requires forall i :: 0 <= i < |series| ==> prophet(m, series[i].date).yhat == series[i].total as real
    ensures var a := AccuracyOf(series, m, prophet, sqrt);
      a.mae == 0.0 && a.rmse == 0.0 && (a.mape.Some? ==> a.mape.value == 0.0)
  {
    MetricsOfZeroErrors(series, Errors(series, m, prophet), sqrt);
  }

  /** An aggregated day with zero actual demand is a history date whose quantities sum to 0. */
  lemma ZeroDayIff(actual: seq<Sale>)
    ensures HasZeroActual(Aggregate(actual)) <==> exists d :: d in SaleDates(actual) && QuantityOn(actual, d) == 0
  {
    var series := Aggregate(actual);
    AggregateProperties(actual);
    if HasZeroActual(series) {
      var i :| 0 <= i < |series| && series[i].total == 0;
      assert series[i] in series;
    }
    if exists d :: d in SaleDates(actual) && QuantityOn(actual, d) == 0 {
      var d :| d in SaleDates(actual) && QuantityOn(actual, d) == 0;
      assert d in Dates(series);
      var e :| e in series && e.date == d;
      var i :| 0 <= i < |series| && series[i] == e;
    }
  }

  /** `forecast['trend'].tail(7)` over the history and 7 future days. */
  function RecentTrend(m: FittedModel, prophet: Prophet): (recent: seq<real>)
    requires |m.history| > 0
    ensures |recent| == 7
  {
    var days := PredictionDays(m.history, 7);
    var trend := seq(|days|, i requires 0 <= i < |days| => prophet(m, days[i]).trend);
    trend[|trend| - 7..]
  }

  /** The 7 trend values compared are those of the 7 days after the history, so
      the trend direction compares day 1 with day 7 after the last sale. */
  lemma RecentTrendIsFutureWeek(m: FittedModel, prophet: Prophet)
    requires |m.history| > 0
    ensures forall k :: 0 <= k < 7 ==>
      RecentTrend(m, prophet)[k] == prophet(m, m.history[|m.history| - 1].date + 1 + k).trend
  {
  }

  // ---------------------------------------------------------------------------
  // The fallback model: exponentially weighted average

  /** `np.linspace(-1, 0, n)`. */
  function Linspace(n: nat): (xs: seq<real>)
    requires n > 0
    ensures |xs| == n
    ensures forall i, j :: 0 <= i < j < n ==> xs[i] < xs[j]
    ensures xs[0] == -1.0
    ensures n > 1 ==> xs[n - 1] == 0.0
    ensures forall i :: 0 < i < n ==> xs[i] - xs[i - 1] == xs[n - 1] - xs[n - 2]
  {
    if n == 1 then [-1.0]
    else
      var xs := seq(n, i requires 0 <= i < n => -1.0 + i as real / (n - 1) as real);
      assert forall i, j :: 0 <= i < j < n ==> xs[i] < xs[j] by {
        forall i, j | 0 <= i < j < n
          ensures xs[i] < xs[j]
        {
          DivideMonotone(i as real, j as real, (n - 1) as real);
        }
      }
      SelfDivide((n - 1) as real);
      xs
  }

  function Quantities(sales: seq<Sale>): (q: seq<real>)
    ensures |q| == |sales| && forall i :: 0 <= i < |sales| ==> q[i] == sales[i].quantity as real
  {
    seq(|sales|, i requires 0 <= i < |sales| => sales[i].quantity as real)
  }

  lemma {:induction false} SumPositive(s: seq<real>)
    requires |s| > 0 && forall i :: 0 <= i < |s| ==> 0.0 < s[i]
    ensures 0.0 < Sum(s)
  {
    SumNonNegative(s[..|s| - 1]);
  }

  /** Dividing every term by c divides the sum by c. */
  lemma {:induction false} SumDivide(s: seq<real>, c: real, t: seq<real>)
    requires c != 0.0 && |t| == |s|
    requires forall i :: 0 <= i < |s| ==> t[i] == s[i] / c
    ensures Sum(t) == Sum(s) / c
  {
    if s != [] {
      var k := |s| - 1;
      SumDivide(s[..k], c, t[..k]);
      assert Sum(t) == Sum(t[..k]) + t[k];
      assert Sum(s) == Sum(s[..k]) + s[k];
      assert Sum(s[..k]) / c + s[k] / c == (Sum(s[..k]) + s[k]) / c;
    }
  }

  /** `np.exp(np.linspace(-1, 0, n))`. */
  function RawWeights(n: nat, exp: real -> real): (raw: seq<real>)
    requires n > 0 && IsExp(exp)
    ensures |raw| == n
    ensures forall i :: 0 <= i < n ==> 0.0 < raw[i]
    ensures forall i, j :: 0 <= i < j < n ==> raw[i] < raw[j]
  {
    var xs := Linspace(n);
    var raw := seq(n, i requires 0 <= i < n => exp(xs[i]));
    assert forall i :: 0 <= i < n ==> raw[i] == exp(xs[i]);
    assert forall i, j :: 0 <= i < j < n ==> xs[i] < xs[j];
    raw
  }

  /** The raw weights normalised to sum to 1. */
  function Weights(n: nat, exp: real -> real): (w: seq<real>)
    requires n > 0 && IsExp(exp)
    ensures |w| == n
    ensures 0.0 < Sum(RawWeights(n, exp))
    ensures forall i :: 0 <= i < n ==> w[i] == RawWeights(n, exp)[i] / Sum(RawWeights(n, exp))
  {
    var raw := RawWeights(n, exp);
    SumPositive(raw);
    var total := Sum(raw);
    var w := seq(n, i requires 0 <= i < n => raw[i] / total);
    assert forall i :: 0 <= i < n ==> w[i] == raw[i] / total;
    w
  }

  /** The weights are positive, strictly increasing toward the latest row, and sum to 1. */
  lemma WeightsProperties(n: nat, exp: real -> real)
    requires n > 0 && IsExp(exp)
    ensures forall i :: 0 <= i < n ==> 0.0 < Weights(n, exp)[i]
    ensures forall i, j :: 0 <= i < j < n ==> Weights(n, exp)[i] < Weights(n, exp)[j]
    ensures Sum(Weights(n, exp)) == 1.0
  {
    var raw := RawWeights(n, exp);
    var total := Sum(raw);
    var w := Weights(n, exp);
    forall i | 0 <= i < n ensures 0.0 < w[i] {
      WeightPositive(n, exp, i);
    }
    forall i, j | 0 <= i < j < n ensures w[i] < w[j] {
      WeightsIncrease(n, exp, i, j);
    }
    WeightsSumToOne(n, exp);
  }

  lemma WeightPositive(n: nat, exp: real -> real, i: nat)
    requires n > 0 && IsExp(exp) && i < n
    ensures 0.0 < Weights(n, exp)[i]
  {
    SumPositive(RawWeights(n, exp));
    DividePositive(RawWeights(n, exp)[i], Sum(RawWeights(n, exp)));
  }

  lemma WeightsIncrease(n: nat, exp: real -> real, i: nat, j: nat)
    requires n > 0 && IsExp(exp) && i < j < n
    ensures Weights(n, exp)[i] < Weights(n, exp)[j]
  {
    var raw := RawWeights(n, exp);
    SumPositive(raw);
    DivideMonotone(raw[i], raw[j], Sum(raw));
  }

  lemma WeightsSumToOne(n: nat, exp: real -> real)
    requires n > 0 && IsExp(exp)
    ensures Sum(Weights(n, exp)) == 1.0
  {
    var raw := RawWeights(n, exp);
    var w := Weights(n, exp);
    var total := Sum(raw);
    assert 0.0 < total;
    SumDivide(raw, total, w);
    SelfDivide(total);
  }

  /** The dot product of quantities and weights. */
  function Dot(q: seq<real>, w: seq<real>): real
    requires |q| == |w|
  {
    if q == [] then 0.0 else Dot(q[..|q| - 1], w[..|w| - 1]) + q[|q| - 1] * w[|w| - 1]
  }

  /** `np.average(q, weights=w)`. */
  function WeightedAverage(q: seq<real>, w: seq<real>): real
    requires |q| == |w| && Sum(w) != 0.0
  {
    Dot(q, w) / Sum(w)
  }

  lemma {:induction false} DotLower(q: seq<real>, w: seq<real>, lo: real)
    requires |q| == |w|
    requires forall i :: 0 <= i < |q| ==> lo <= q[i] && 0.0 <= w[i]
    ensures lo * Sum(w) <= Dot(q, w)
  {
    if q != [] {
      var k := |q| - 1;
      DotLower(q[..k], w[..k], lo);
      DotStepLower(lo, Sum(w[..k]), w[k], Sum(w), Dot(q[..k], w[..k]), q[k], Dot(q, w));
    }
  }

  lemma {:induction false} DotUpper(q: seq<real>, w: seq<real>, hi: real)
    requires |q| == |w|
    requires forall i :: 0 <= i < |q| ==> q[i] <= hi && 0.0 <= w[i]
    ensures Dot(q, w) <= hi * Sum(w)
  {
    if q != [] {
      var k := |q| - 1;
      DotUpper(q[..k], w[..k], hi);
      DotStepUpper(hi, Sum(w[..k]), w[k], Sum(w), Dot(q[..k], w[..k]), q[k], Dot(q, w));
    }
  }

  /** One step of `DotLower`: adding a value at least lo with weight wk keeps the bound. */
  lemma DotStepLower(lo: real, s: real, wk: real, total: real, d: real, qk: real, dot: real)
    requires total == s + wk && dot == d + qk * wk
    requires lo * s <= d && lo <= qk && 0.0 <= wk
    ensures lo * total <= dot
  {
    ScaleLe(lo, qk, wk);
    Distribute(lo, s, wk, total);
  }

  /** One step of `DotUpper`. */
  lemma DotStepUpper(hi: real, s: real, wk: real, total: real, d: real, qk: real, dot: real)
    requires total == s + wk && dot == d + qk * wk
    requires d <= hi * s && qk <= hi && 0.0 <= wk
    ensures dot <= hi * total
  {
    ScaleLe(qk, hi, wk);
    Distribute(hi, s, wk, total);
  }

  lemma ScaleLe(a: real, b: real, c: real)
    requires a <= b && 0.0 <= c
    ensures a * c <= b * c
  {
    assert (b - a) * c >= 0.0;
  }

  lemma Distribute(c: real, x: real, y: real, z: real)
    requires z == x + y
    ensures c * z == c * x + c * y
  {
  }

  /** A weighted average with non-negative weights summing to 1 lies within any
      bounds of the averaged values. */
  lemma WeightedAverageBounds(q: seq<real>, w: seq<real>, lo: real, hi: real)
    requires |q| == |w| && Sum(w) == 1.0
    requires forall i :: 0 <= i < |q| ==> lo <= q[i] <= hi && 0.0 <= w[i]
    ensures lo <= WeightedAverage(q, w) <= hi
  {
    DotLower(q, w, lo);
    DotUpper(q, w, hi);
  }

  function MinQuantity(sales: seq<Sale>): (m: int)
    requires |sales| > 0
    ensures forall i :: 0 <= i < |sales| ==> m <= sales[i].quantity
    ensures exists i :: 0 <= i < |sales| && sales[i].quantity == m
  {
    if |sales| == 1 then sales[0].quantity
    else
      var rest := MinQuantity(sales[1..]);
      assert forall i :: 1 <= i < |sales| ==> sales[i] == sales[1..][i - 1];
      if sales[0].quantity <= rest then sales[0].quantity else rest
  }

  function MaxQuantity(sales: seq<Sale>): (m: int)
    requires |sales| > 0
    ensures forall i :: 0 <= i < |sales| ==> sales[i].quantity <= m
    ensures exists i :: 0 <= i < |sales| && sales[i].quantity == m
  {
    if |sales| == 1 then sales[0].quantity
    else
      var rest := MaxQuantity(sales[1..]);
      assert forall i :: 1 <= i < |sales| ==> sales[i] == sales[1..][i - 1];
      if sales[0].quantity >= rest then sales[0].quantity else rest
  }

  /** `np.random.normal(avg, std)` for the standard-normal draw z, floored at 0. */
  function Sample(avg: real, std: real, z: real): (p: real)
    ensures 0.0 <= p
    ensures avg + std * z <= p && (p == 0.0 || p == avg + std * z)
  {
    MaxReal(avg + std * z, 0.0)
  }

  /** A fallback forecast row: central estimate p with bounds at 80% and 120%. */
  function FallbackRow(date: real, p: real): (row: ForecastRow)
    requires 0.0 <= p
    ensures row.date == date
    ensures 0.0 <= row.lower <= row.predicted <= row.upper
    ensures IsWhole(row.predicted) && IsWhole(row.lower) && IsWhole(row.upper)
    ensures p - 0.5 <= row.predicted <= p + 0.5
    ensures p * 0.8 - 0.5 <= row.lower <= p * 0.8 + 0.5
    ensures p * 1.2 - 0.5 <= row.upper <= p * 1.2 + 0.5
  {
    RoundHalfEvenOfInt(0);
    RoundHalfEvenMonotone(0.0, p * 0.8);
    RoundHalfEvenMonotone(p * 0.8, p);
    RoundHalfEvenMonotone(p, p * 1.2);
    ForecastRow(date, RoundHalfEven(p) as real, RoundHalfEven(p * 0.8) as real, RoundHalfEven(p * 1.2) as real)
  }

  /** The fallback forecaster for short histories. */
  class SimpleMovingAverage {
    const window: int
    var avgDemand: real

    constructor (window: int := 7)
      ensures this.window == window && avgDemand == 0.0
    {
      this.window := window;
      avgDemand := 0.0;
    }

    /** `fit`: 0 for an empty history, otherwise the weighted average of the
        quantities, which lies between the smallest and largest quantity. */
    method Fit(sales: seq<Sale>, exp: real -> real)
      requires IsExp(exp)
      modifies this
      ensures sales == [] ==> avgDemand == 0.0
      ensures sales != [] ==>
        Sum(Weights(|sales|, exp)) == 1.0 && avgDemand == WeightedAverage(Quantities(sales), Weights(|sales|, exp))
      ensures sales != [] ==> MinQuantity(sales) as real <= avgDemand <= MaxQuantity(sales) as real
    {
      if |sales| == 0 {
        avgDemand := 0.0;
        return;
      }
      var w := Weights(|sales|, exp);
      WeightsProperties(|sales|, exp);
      WeightedAverageBounds(Quantities(sales), w, MinQuantity(sales) as real, MaxQuantity(sales) as real);
      avgDemand := WeightedAverage(Quantities(sales), w);
    }

    /** `forecast`: one row per day from the forecasting instant `now`, central value
        avg + (0.2 * avg) * z[i] for the standard-normal draws z, floored at 0.
        NumPy raises when the size `daysAhead` or the scale 0.2 * avg is negative. */
    function Forecast(daysAhead: int, now: real, z: seq<real>): (r: Result<seq<ForecastRow>>)
      reads this
      requires 0 <= daysAhead ==> |z| == daysAhead
      ensures r.Failure? <==> daysAhead < 0 || avgDemand < 0.0
      ensures r.Success? ==> |r.value| == daysAhead
      ensures r.Success? ==> forall i :: 0 <= i < daysAhead ==>
        r.value[i] == FallbackRow(now + i as real, Sample(avgDemand, avgDemand * 0.2, z[i]))
      ensures r.Success? ==> forall i :: 0 <= i < daysAhead ==>
        && r.value[i].date == now + i as real
        && 0.0 <= r.value[i].lower <= r.value[i].predicted <= r.value[i].upper
        && IsWhole(r.value[i].predicted) && IsWhole(r.value[i].lower) && IsWhole(r.value[i].upper)
    {
      var avg := avgDemand;
      var std := avg * 0.2;
      if daysAhead < 0 then Failure("negative dimensions are not allowed")
      else if std < 0.0 then Failure("scale < 0")
      else Success(seq(daysAhead, i requires 0 <= i < daysAhead => FallbackRow(now + i as real, Sample(avg, std, z[i]))))
    }
  }

  /** Fitting the fallback on a constant history recovers that constant: refitting on
      steady demand is idempotent. */
  lemma ConstantHistoryAverage(sales: seq<Sale>, c: int, exp: real -> real)
    requires |sales| > 0 && IsExp(exp)
    requires forall i :: 0 <= i < |sales| ==> sales[i].quantity == c
    ensures Sum(Weights(|sales|, exp)) == 1.0
    ensures WeightedAverage(Quantities(sales), Weights(|sales|, exp)) == c as real
  {
    WeightsProperties(|sales|, exp);
    WeightedAverageBounds(Quantities(sales), Weights(|sales|, exp), c as real, c as real);
  }

  // ---------------------------------------------------------------------------
  // get_forecaster

  datatype Forecaster = Seasonal(seasonal: DemandForecaster) | Fallback(fallback: SimpleMovingAverage)

  /** `get_forecaster`: the seasonal model when the history has at least
      `minDataPoints` rows (counted before aggregation), else the fallback. */
  method GetForecaster(sales: seq<Sale>, minDataPoints: int := 14) returns (f: Forecaster)
    ensures f.Seasonal? <==> |sales| >= minDataPoints
    ensures f.Seasonal? ==> fresh(f.seasonal) && f.seasonal.Valid() && !f.seasonal.isFitted && f.seasonal.confidenceInterval == 0.95
    ensures f.Fallback? ==> fresh(f.fallback) && f.fallback.avgDemand == 0.0 && f.fallback.window == 7
  {
    if |sales| >= minDataPoints {
      var d := new DemandForecaster();
      f := Seasonal(d);
    } else {
      var s := new SimpleMovingAverage();
      f := Fallback(s);
    }
  }

  /** The first two entries of a series of at least two are among its dates
      (`SelectedSeasonalCanStillFail` uses this to bound a single-date history). */
  lemma FirstTwoDates(series: seq<DailyTotal>)
    ensures |series| >= 2 ==> series[0].date in Dates(series) && series[1].date in Dates(series)
  {
    if |series| >= 2 {
      assert series[0] in series && series[1] in series;
    }
  }

  /** The factory counts rows, while the seasonal fit counts distinct dates: 14 rows
      on a single day select the seasonal model, whose fit then raises. */
  lemma SelectedSeasonalCanStillFail()
    ensures var sales := seq(14, i => Sale(0, 1));
      |sales| >= 14 && |Aggregate(sales)| < 7
  {
    var sales := seq(14, i => Sale(0, 1));
    AggregateProperties(sales);
    assert SaleDates(sales) == {0};
    var agg := Aggregate(sales);
    FirstTwoDates(agg);
    if |agg| >= 2 {
      assert false;
    }
  }
}
