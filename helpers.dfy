/** The classification, formatting and validation helpers of `src/utils/helpers.py`:
    threshold tables, the human-readable horizon text, the two ratio metrics, the
    product record check and the seasonal peak detector. */
module Helpers {
  import opened Wrappers
  import opened Numeric
  import opened Text
  import Inventory
  import Forecasting

  // ---------------------------------------------------------------------------
  // days_to_text
  // ---------------------------------------------------------------------------

  /** A horizon in days as text: "today", "tomorrow", then days, whole weeks below
      thirty days and whole months beyond, with a plural "s" for counts above one. */
  function DaysToText(days: int): (t: string)
    ensures days == 0 <==> t == "today"
    ensures days == 1 <==> t == "tomorrow"
  {
    if days == 0 then "today"
    else if days == 1 then "tomorrow"
    else if days < 7 then
      var n := IntToString(days);
      assert (n + " days")[0] == n[0] == if days < 0 then '-' else NatToString(days)[0];
      n + " days"
    else if days < 30 then
      var weeks := days / 7;
      var n := NatToString(weeks);
      var t := n + " week" + (if weeks > 1 then "s" else "");
      assert t[0] == n[0];
      t
    else
      var months := days / 30;
      var n := NatToString(months);
      var t := n + " month" + (if months > 1 then "s" else "");
      assert t[0] == n[0];
      t
  }

  /** A count followed by a unit word, as a reader splits "3 weeks". */
  datatype Phrase = Phrase(count: int, unit: string)

  /** The position of the first space in t, or |t| when there is none. */
  function SpaceIndex(t: string): (k: nat)
    ensures k <= |t|
    ensures forall i :: 0 <= i < k ==> t[i] != ' '
    ensures k < |t| ==> t[k] == ' '
  {
    if t == [] || t[0] == ' ' then 0 else 1 + SpaceIndex(t[1..])
  }

  predicate AllDigits(s: string)
  {
    forall i :: 0 <= i < |s| ==> IsDigit(s[i])
  }

  /** An optionally signed decimal number, or None for anything else. */
  function ReadNumber(s: string): Option<int>
  {
    if |s| > 0 && AllDigits(s) then Some(DecimalValue(s))
    else if |s| > 1 && s[0] == '-' && AllDigits(s[1..]) then Some(-(DecimalValue(s[1..]) as int))
    else None
  }

  /** Reads text of the form "<number> <unit>" back into its count and unit. */
  function ReadPhrase(t: string): Option<Phrase>
  {
    var k := SpaceIndex(t);
    if k == |t| then None
    else
      match ReadNumber(t[..k])
      case None => None
      case Some(n) => Some(Phrase(n, t[k + 1..]))
  }

  /** How many days one of a unit stands for; 0 for a word that is not a unit. */
  function UnitDays(unit: string): nat
  {
    if unit == "days" then 1
    else if unit == "week" || unit == "weeks" then 7
    else if unit == "month" || unit == "months" then 30
    else 0
  }

  predicate IsPluralUnit(unit: string)
  {
    unit == "days" || unit == "weeks" || unit == "months"
  }

  lemma {:induction false} SpaceIndexAfter(num: string, rest: string)
    requires forall i :: 0 <= i < |num| ==> num[i] != ' '
    ensures SpaceIndex(num + " " + rest) == |num|
  {
    if num != [] {
      assert (num + " " + rest)[1..] == num[1..] + " " + rest;
      SpaceIndexAfter(num[1..], rest);
    }
  }

  lemma ReadPhraseOf(num: string, unit: string)
    requires ReadNumber(num).Some?
    requires forall i :: 0 <= i < |num| ==> num[i] != ' '
    ensures ReadPhrase(num + " " + unit) == Some(Phrase(ReadNumber(num).value, unit))
  {
    var t := num + " " + unit;
    SpaceIndexAfter(num, unit);
    assert t[..|num|] == num;
    assert t[|num| + 1..] == unit;
  }

  /** The rendered horizon reads back as a count of whole units that brackets the
      horizon: `count * unit <= days < (count + 1) * unit`, in days below a week,
      weeks below thirty days and months beyond, plural exactly for counts above one
      (and for every day count, as the code writes "days" even for negative ones). */
  lemma DaysToTextReadsBack(days: int)
    requires days != 0 && days != 1
    ensures ReadPhrase(DaysToText(days)).Some?
    ensures var p := ReadPhrase(DaysToText(days)).value;
      && p.count * UnitDays(p.unit) <= days < (p.count + 1) * UnitDays(p.unit)
      && (days < 7 <==> UnitDays(p.unit) == 1)
      && (7 <= days < 30 <==> UnitDays(p.unit) == 7)
      && (30 <= days <==> UnitDays(p.unit) == 30)
      && (days >= 7 ==> (IsPluralUnit(p.unit) <==> p.count > 1))
      && (days < 7 ==> IsPluralUnit(p.unit))
  {
    if days < 7 {
      ShortHorizonText(days);
      assert UnitDays("days") == 1;
    } else if days < 30 {
      WeeksText(days);
      var w := days / 7;
      assert UnitDays(if w > 1 then "weeks" else "week") == 7;
      assert w * 7 <= days < (w + 1) * 7;
    } else {
      MonthsText(days);
      var m := days / 30;
      assert UnitDays(if m > 1 then "months" else "month") == 30;
      assert m * 30 <= days < (m + 1) * 30;
    }
  }

  lemma ShortHorizonText(days: int)
    requires days < 7 && days != 0 && days != 1
    ensures ReadPhrase(DaysToText(days)) == Some(Phrase(days, "days"))
  {
    var num := IntToString(days);
    if days < 0 {
      assert num[1..] == NatToString(-days);
      NatToStringRoundTrip(-days);
    } else {
      NatToStringRoundTrip(days);
    }
    assert ReadNumber(num) == Some(days);
    assert DaysToText(days) == num + " " + "days";
    ReadPhraseOf(num, "days");
  }

  lemma WeeksText(days: int)
    requires 7 <= days < 30
    ensures ReadPhrase(DaysToText(days)) == Some(Phrase(days / 7, if days / 7 > 1 then "weeks" else "week"))
  {
    var w := days / 7;
    var num := NatToString(w);
    var unit := if w > 1 then "weeks" else "week";
    assert DaysToText(days) == num + " " + unit;
    NatToStringRoundTrip(w);
    assert ReadNumber(num) == Some(w);
    ReadPhraseOf(num, unit);
  }

  lemma MonthsText(days: int)
    requires 30 <= days
    ensures ReadPhrase(DaysToText(days)) == Some(Phrase(days / 30, if days / 30 > 1 then "months" else "month"))
  {
    var m := days / 30;
    var num := NatToString(m);
    var unit := if m > 1 then "months" else "month";
    assert DaysToText(days) == num + " " + unit;
    NatToStringRoundTrip(m);
    assert ReadNumber(num) == Some(m);
    ReadPhraseOf(num, unit);
  }

  // ---------------------------------------------------------------------------
  // urgency_color and urgency_emoji
  // ---------------------------------------------------------------------------

  const UrgencyColors: map<string, string> :=
    map["critical" := "#ff0000", "high" := "#ff6600", "medium" := "#ffaa00", "low" := "#00aa00"]

  const DefaultColor: string := "#666666"

  /** The display colour of an urgency level; the grey default for any other text. */
  function UrgencyColor(urgency: string): (c: string)
    ensures c == DefaultColor <==> urgency !in UrgencyColors
    ensures urgency in UrgencyColors ==> c == UrgencyColors[urgency]
  {
    if urgency in UrgencyColors then UrgencyColors[urgency] else DefaultColor
  }

  /** The emoji table, character for character as the literals stand in helpers.py.
      The file stores each emoji UTF-8-encoded twice, so the strings returned are the
      mojibake of the code points below (and the warning sign has lost its last byte):
      critical U+1F6A8, high U+26A0 U+FE0F, medium U+1F4CA, low U+2705. */
  const UrgencyEmojis: map<string, string> :=
    map["critical" := "\U{F0}\U{178}\U{161}\U{A8}",
        "high" := "\U{E2}\U{161}\U{A0}\U{EF}\U{B8}",
        "medium" := "\U{F0}\U{178}\U{201C}\U{160}",
        "low" := "\U{E2}\U{153}\U{2026}"]

  /** The default, stored the same way; it stands for U+1F4E6. */
  const DefaultEmoji: string := "\U{F0}\U{178}\U{201C}\U{A6}"

  /** The display emoji of an urgency level; the package emoji for any other text. */
  function UrgencyEmoji(urgency: string): (e: string)
    ensures e == DefaultEmoji <==> urgency !in UrgencyEmojis
    ensures urgency in UrgencyEmojis ==> e == UrgencyEmojis[urgency]
  {
    if urgency in UrgencyEmojis then UrgencyEmojis[urgency] else DefaultEmoji
  }

  /** The tables are keyed by exactly the names the optimizer gives its four levels. */
  lemma UrgencyTablesCoverLevels(s: string)
    ensures s in UrgencyColors <==> exists u :: Inventory.UrgencyName(u) == s
    ensures s in UrgencyEmojis <==> exists u :: Inventory.UrgencyName(u) == s
  {
    if s in UrgencyColors {
      if s == "critical" {
        assert Inventory.UrgencyName(Inventory.Critical) == s;
      } else if s == "high" {
        assert Inventory.UrgencyName(Inventory.High) == s;
      } else if s == "medium" {
        assert Inventory.UrgencyName(Inventory.Medium) == s;
      } else {
        assert Inventory.UrgencyName(Inventory.Low) == s;
      }
    }
  }

  /** Every level the optimizer emits gets its own colour and its own emoji, and
      never the default of an unknown level. */
  lemma UrgencyDisplayDistinguishesLevels(u: Inventory.Urgency, v: Inventory.Urgency)
    ensures UrgencyColor(Inventory.UrgencyName(u)) != DefaultColor
    ensures UrgencyEmoji(Inventory.UrgencyName(u)) != DefaultEmoji
    ensures UrgencyColor(Inventory.UrgencyName(u)) == UrgencyColor(Inventory.UrgencyName(v)) <==> u == v
    ensures UrgencyEmoji(Inventory.UrgencyName(u)) == UrgencyEmoji(Inventory.UrgencyName(v)) <==> u == v
  {
  }

  // ---------------------------------------------------------------------------
  // calculate_fill_rate and calculate_inventory_turnover
  // ---------------------------------------------------------------------------

  /** The percentage of the sales days that had stock, to two places; 100.0 when
      there are no sales rows. Only the row count of the sales frame is used. */
  function CalculateFillRate(salesRows: nat, stockoutDays: int): (r: real)
    ensures salesRows == 0 ==> r == 100.0
    ensures salesRows > 0 ==>
      var exact := (salesRows - stockoutDays) as real / salesRows as real * 100.0;
      exact - 0.005 <= r <= exact + 0.005
    ensures salesRows > 0 && 0 <= stockoutDays <= salesRows ==> 0.0 <= r <= 100.0
    ensures salesRows > 0 && stockoutDays == 0 ==> r == 100.0
    ensures salesRows > 0 && stockoutDays == salesRows ==> r == 0.0
  {
    if salesRows == 0 then 100.0
    else
      var totalDays := salesRows;
      var fillRate := (totalDays - stockoutDays) as real / totalDays as real * 100.0;
      Round2OfInt(0);
      Round2OfInt(100);
      var n := totalDays as real;
      var share := (totalDays - stockoutDays) as real / n;
      assert fillRate == share * 100.0;
      assert stockoutDays == 0 ==> share == 1.0 by {
        if stockoutDays == 0 {
          assert share == n / n;
          SelfDivide(n);
        }
      }
      assert stockoutDays == salesRows ==> share == 0.0;
      if 0 <= stockoutDays <= salesRows then
        assert 0.0 <= share <= 1.0 by {
          ShareAtMostOne((totalDays - stockoutDays) as real, n);
        }
        Round2Monotone(0.0, fillRate);
        Round2Monotone(fillRate, 100.0);
        Round2(fillRate)
      else
        Round2(fillRate)
  }

  /** More stockout days over the same sales rows never raise the fill rate. */
  lemma FillRateAntitone(salesRows: nat, d1: int, d2: int)
    requires d1 <= d2
    ensures CalculateFillRate(salesRows, d2) <= CalculateFillRate(salesRows, d1)
  {
    if salesRows > 0 {
      var n := salesRows as real;
      var x1 := (salesRows - d1) as real / n;
      var x2 := (salesRows - d2) as real / n;
      assert x2 <= x1;
      assert x2 * 100.0 <= x1 * 100.0;
      Round2Monotone(x2 * 100.0, x1 * 100.0);
    }
  }

  /** Sales over average inventory, to two places; 0 when the average inventory is 0.
      The period length does not enter the ratio. */
  function CalculateInventoryTurnover(avgInventory: real, totalSales: real, periodDays: int := 365): (r: real)
    ensures avgInventory == 0.0 ==> r == 0.0
    ensures avgInventory != 0.0 ==>
      totalSales / avgInventory - 0.005 <= r <= totalSales / avgInventory + 0.005
    ensures 0.0 < avgInventory && 0.0 <= totalSales ==> 0.0 <= r
  {
    if avgInventory == 0.0 then 0.0
    else
      var turnover := totalSales / avgInventory;
      Round2(turnover)
  }

  /** For a fixed positive average inventory, more sales never lower the turnover. */
  lemma TurnoverMonotoneInSales(avgInventory: real, s1: real, s2: real, periodDays: int)
    requires 0.0 < avgInventory && s1 <= s2
    ensures CalculateInventoryTurnover(avgInventory, s1, periodDays)
         <= CalculateInventoryTurnover(avgInventory, s2, periodDays)
  {
    assert s1 / avgInventory <= s2 / avgInventory;
    Round2Monotone(s1 / avgInventory, s2 / avgInventory);
  }

  // ---------------------------------------------------------------------------
  // validate_product_data
  // ---------------------------------------------------------------------------

  /** A value of the incoming product dictionary, with Python's dynamic typing. */
  datatype Value = Null | Bool(b: bool) | Int(i: int) | Float(x: real) | Str(s: string)

  /** Python truthiness: None, False, zero and the empty string are falsy. */
  predicate Truthy(v: Value)
  {
    match v
    case Null => false
    case Bool(b) => b
    case Int(i) => i != 0
    case Float(x) => x != 0.0
    case Str(s) => s != ""
  }

  /** `v < 0`: booleans compare as 0 and 1; None and strings raise a TypeError. */
  function LessThanZero(v: Value): (r: Result<bool>)
    ensures r.Failure? <==> v.Null? || v.Str?
    ensures r.Success? ==> (r.value <==> (v.Int? && v.i < 0) || (v.Float? && v.x < 0.0))
  {
    match v
    case Null => Failure("TypeError: '<' not supported between instances of 'NoneType' and 'int'")
    case Str(_) => Failure("TypeError: '<' not supported between instances of 'str' and 'int'")
    case Bool(_) => Success(false)
    case Int(i) => Success(i < 0)
    case Float(x) => Success(x < 0.0)
  }

  /** The result pair `(is_valid, error_message)`. */
  datatype Verdict = Verdict(isValid: bool, message: string)

  const RequiredFields: seq<string> := ["sku", "name"]

  /** A field is present when its key exists and its value is truthy. */
  predicate Present(data: map<string, Value>, field: string)
  {
    field in data && Truthy(data[field])
  }

  /** The index of the first field that is not present, in list order. */
  function FirstMissing(data: map<string, Value>, fields: seq<string>): (r: Option<nat>)
    ensures r.Some? ==> r.value < |fields| && !Present(data, fields[r.value])
    ensures r.Some? ==> forall j :: 0 <= j < r.value ==> Present(data, fields[j])
    ensures r.None? <==> forall j :: 0 <= j < |fields| ==> Present(data, fields[j])
  {
    if fields == [] then None
    else if !Present(data, fields[0]) then Some(0)
    else
      match FirstMissing(data, fields[1..])
      case None => None
      case Some(i) => Some(i + 1)
  }

  /** The key is there and compares below zero. */
  predicate Negative(data: map<string, Value>, key: string)
  {
    key in data && LessThanZero(data[key]) == Success(true)
  }

  /** The key is there and cannot be compared with zero at all. */
  predicate Incomparable(data: map<string, Value>, key: string)
  {
    key in data && LessThanZero(data[key]).Failure?
  }

  /** What a record needs to be accepted: both required fields present and neither
      amount negative or of a type that cannot be compared with zero. */
  predicate Acceptable(data: map<string, Value>)
  {
    && Present(data, "sku") && Present(data, "name")
    && !Negative(data, "current_stock") && !Incomparable(data, "current_stock")
    && !Negative(data, "unit_cost") && !Incomparable(data, "unit_cost")
  }

  /** `validate_product_data`: the first missing required field is reported, then a
      negative stock, then a negative unit cost; a comparison that raises propagates
      as a Failure. */
  method ValidateProductData(data: map<string, Value>) returns (r: Result<Verdict>)
    ensures r == Success(Verdict(true, "")) <==> Acceptable(data)
    ensures r.Success? && r.value.isValid ==> r.value.message == ""
    ensures FirstMissing(data, RequiredFields).Some? ==>
      r == Success(Verdict(false, "missing required field: " + RequiredFields[FirstMissing(data, RequiredFields).value]))
    ensures FirstMissing(data, RequiredFields).None? && Negative(data, "current_stock") ==>
      r == Success(Verdict(false, "stock cannot be negative"))
    ensures && FirstMissing(data, RequiredFields).None?
            && !Negative(data, "current_stock") && !Incomparable(data, "current_stock")
            && Negative(data, "unit_cost")
        ==> r == Success(Verdict(false, "unit cost cannot be negative"))
    ensures r.Failure? <==>
      && FirstMissing(data, RequiredFields).None?
      && (Incomparable(data, "current_stock")
          || (!Negative(data, "current_stock") && Incomparable(data, "unit_cost")))
  {
    var i := 0;
    while i < |RequiredFields|
      invariant 0 <= i <= |RequiredFields|
      invariant forall j :: 0 <= j < i ==> Present(data, RequiredFields[j])
    {
      var field := RequiredFields[i];
      if field !in data || !Truthy(data[field]) {
        assert FirstMissing(data, RequiredFields) == Some(i);
        return Success(Verdict(false, "missing required field: " + field));
      }
      i := i + 1;
    }
    assert RequiredFields[0] == "sku" && RequiredFields[1] == "name";
    if "current_stock" in data {
      var below := LessThanZero(data["current_stock"]);
      if below.Failure? {
        return Failure(below.error);
      }
      if below.value {
        return Success(Verdict(false, "stock cannot be negative"));
      }
    }
    if "unit_cost" in data {
      var below := LessThanZero(data["unit_cost"]);
      if below.Failure? {
        return Failure(below.error);
      }
      if below.value {
        return Success(Verdict(false, "unit cost cannot be negative"));
      }
    }
    return Success(Verdict(true, ""));
  }

  // ---------------------------------------------------------------------------
  // categorize_product_velocity and health_score_interpretation
  // ---------------------------------------------------------------------------

  /** Fast from 10 units a day, medium from 3, slow below: exactly one category. */
  function CategorizeProductVelocity(avgDailySales: real): (c: string)
    ensures c == "fast-moving" <==> 10.0 <= avgDailySales
    ensures c == "medium-moving" <==> 3.0 <= avgDailySales < 10.0
    ensures c == "slow-moving" <==> avgDailySales < 3.0
  {
    if avgDailySales >= 10.0 then "fast-moving"
    else if avgDailySales >= 3.0 then "medium-moving"
    else "slow-moving"
  }

  /** Selling more never moves a product to a slower category. */
  lemma VelocityMonotone(a: real, b: real)
    requires a <= b
    ensures CategorizeProductVelocity(a) == "fast-moving" ==> CategorizeProductVelocity(b) == "fast-moving"
    ensures CategorizeProductVelocity(b) == "slow-moving" ==> CategorizeProductVelocity(a) == "slow-moving"
  {
  }

  /** The verdict for a health score: excellent from 90, good from 75, fair from 60,
      poor below. */
  function HealthScoreInterpretation(score: real): (v: string)
    ensures v == "excellent - inventory well managed" <==> 90.0 <= score
    ensures v == "good - minor issues to address" <==> 75.0 <= score < 90.0
    ensures v == "fair - attention needed" <==> 60.0 <= score < 75.0
    ensures v == "poor - immediate action required" <==> score < 60.0
  {
    if score >= 90.0 then "excellent - inventory well managed"
    else if score >= 75.0 then "good - minor issues to address"
    else if score >= 60.0 then "fair - attention needed"
    else "poor - immediate action required"
  }

  /** The rank of a verdict, best first. */
  function VerdictRank(v: string): nat
  {
    if v == "excellent - inventory well managed" then 0
    else if v == "good - minor issues to address" then 1
    else if v == "fair - attention needed" then 2
    else 3
  }

  /** A higher score never earns a worse verdict; a metrics report with no product at
      risk reads excellent, and one with every product at risk reads poor. */
  lemma HealthScoreInterpretationMonotone(a: real, b: real)
    requires a <= b
    ensures VerdictRank(HealthScoreInterpretation(b)) <= VerdictRank(HealthScoreInterpretation(a))
  {
  }

  lemma HealthOfExtremeInventories(n: nat)
    requires n > 0
    ensures HealthScoreInterpretation(Inventory.HealthScore(0, n)) == "excellent - inventory well managed"
    ensures HealthScoreInterpretation(Inventory.HealthScore(n, n)) == "poor - immediate action required"
  {
  }

  // ---------------------------------------------------------------------------
  // detect_seasonality_peaks
  // ---------------------------------------------------------------------------

  /** A calendar month number. */
  type Month = m: int | 1 <= m <= 12 witness 1

  const MinPeakRows: nat := 30

  /** The month number of a lower-case English month name, the inverse of `MonthName`. */
  function MonthNumber(name: string): Option<Month>
  {
    if name == "january" then Some(1) else if name == "february" then Some(2)
    else if name == "march" then Some(3) else if name == "april" then Some(4)
    else if name == "may" then Some(5) else if name == "june" then Some(6)
    else if name == "july" then Some(7) else if name == "august" then Some(8)
    else if name == "september" then Some(9) else if name == "october" then Some(10)
    else if name == "november" then Some(11) else if name == "december" then Some(12)
    else None
  }

  /** The lower-case English month name. */
  function MonthName(m: Month): (name: string)
    ensures MonthNumber(name) == Some(m)
  {
    if m == 1 then "january" else if m == 2 then "february" else if m == 3 then "march"
    else if m == 4 then "april" else if m == 5 then "may" else if m == 6 then "june"
    else if m == 7 then "july" else if m == 8 then "august" else if m == 9 then "september"
    else if m == 10 then "october" else if m == 11 then "november" else "december"
  }

  lemma MonthNameInjective(m: Month, n: Month)
    ensures MonthName(m) == MonthName(n) <==> m == n
  {
    if MonthName(m) == MonthName(n) {
      assert Some(m) == MonthNumber(MonthName(m)) == Some(n);
    }
  }

  /** Strictly increasing month numbers: calendar order without repeats. */
  predicate Ascending(ms: seq<Month>)
  {
    forall i, j :: 0 <= i < j < |ms| ==> ms[i] < ms[j]
  }

  /** The number of sales rows dated in month m. */
  function MonthCount(rows: seq<Forecasting.Sale>, monthOf: int -> Month, m: Month): nat
  {
    if rows == [] then 0
    else MonthCount(rows[..|rows| - 1], monthOf, m) + (if monthOf(rows[|rows| - 1].date) == m then 1 else 0)
  }

  /** The quantity sold over the sales rows dated in month m. */
  function MonthTotal(rows: seq<Forecasting.Sale>, monthOf: int -> Month, m: Month): int
  {
    if rows == [] then 0
    else MonthTotal(rows[..|rows| - 1], monthOf, m) + (if monthOf(rows[|rows| - 1].date) == m then rows[|rows| - 1].quantity else 0)
  }

  lemma {:induction false} MonthCountOfRow(rows: seq<Forecasting.Sale>, monthOf: int -> Month, i: nat)
    requires i < |rows|
    ensures MonthCount(rows, monthOf, monthOf(rows[i].date)) > 0
  {
    if i < |rows| - 1 {
      MonthCountOfRow(rows[..|rows| - 1], monthOf, i);
    }
  }

  lemma {:induction false} MonthTotalNonNegative(rows: seq<Forecasting.Sale>, monthOf: int -> Month, m: Month)
    requires forall i :: 0 <= i < |rows| ==> rows[i].quantity >= 0
    ensures MonthTotal(rows, monthOf, m) >= 0
  {
    if rows != [] {
      MonthTotalNonNegative(rows[..|rows| - 1], monthOf, m);
    }
  }

  /** The mean quantity of the rows of a month that has rows. */
  function MonthMean(rows: seq<Forecasting.Sale>, monthOf: int -> Month, m: Month): real
    requires MonthCount(rows, monthOf, m) > 0
  {
    MonthTotal(rows, monthOf, m) as real / MonthCount(rows, monthOf, m) as real
  }

  lemma MonthMeanNonNegative(rows: seq<Forecasting.Sale>, monthOf: int -> Month, m: Month)
    requires MonthCount(rows, monthOf, m) > 0
    requires forall i :: 0 <= i < |rows| ==> rows[i].quantity >= 0
    ensures 0.0 <= MonthMean(rows, monthOf, m)
  {
    MonthTotalNonNegative(rows, monthOf, m);
    var total := MonthTotal(rows, monthOf, m) as real;
    var count := MonthCount(rows, monthOf, m) as real;
    assert 0.0 <= total / count;
  }

  /** The months from k on that have rows, in calendar order. */
  function MonthsFrom(rows: seq<Forecasting.Sale>, monthOf: int -> Month, k: int): (ms: seq<Month>)
    requires 1 <= k <= 13
    ensures forall i :: 0 <= i < |ms| ==> k <= ms[i] && MonthCount(rows, monthOf, ms[i]) > 0
    ensures forall m: Month :: k <= m && MonthCount(rows, monthOf, m) > 0 ==> m in ms
    ensures Ascending(ms)
    decreases 13 - k
  {
    if k == 13 then []
    else if MonthCount(rows, monthOf, k) > 0 then [k as Month] + MonthsFrom(rows, monthOf, k + 1)
    else MonthsFrom(rows, monthOf, k + 1)
  }

  /** The group keys of the monthly group-by: every month with rows, ascending. */
  function PresentMonths(rows: seq<Forecasting.Sale>, monthOf: int -> Month): (ms: seq<Month>)
    ensures forall m: Month :: m in ms <==> MonthCount(rows, monthOf, m) > 0
    ensures Ascending(ms)
    ensures |rows| > 0 ==> |ms| > 0
  {
    if |rows| > 0 then
      MonthCountOfRow(rows, monthOf, 0);
      MonthsFrom(rows, monthOf, 1)
    else
      MonthsFrom(rows, monthOf, 1)
  }

  /** The monthly means of the given months, in their order. */
  function MonthlyAverages(rows: seq<Forecasting.Sale>, monthOf: int -> Month, ms: seq<Month>): (avgs: seq<real>)
    requires forall i :: 0 <= i < |ms| ==> MonthCount(rows, monthOf, ms[i]) > 0
    ensures |avgs| == |ms|
    ensures forall i :: 0 <= i < |ms| ==> avgs[i] == MonthMean(rows, monthOf, ms[i])
  {
    if ms == [] then []
    else [MonthMean(rows, monthOf, ms[0])] + MonthlyAverages(rows, monthOf, ms[1..])
  }

  /** The mean of the monthly means (each month weighs the same, whatever its rows). */
  function OverallAverage(rows: seq<Forecasting.Sale>, monthOf: int -> Month): real
    requires |rows| > 0
  {
    Mean(MonthlyAverages(rows, monthOf, PresentMonths(rows, monthOf)))
  }

  /** The months of ms whose mean exceeds the threshold, in their order. */
  function MonthsAbove(rows: seq<Forecasting.Sale>, monthOf: int -> Month, ms: seq<Month>, threshold: real): (ps: seq<Month>)
    requires forall i :: 0 <= i < |ms| ==> MonthCount(rows, monthOf, ms[i]) > 0
  {
    if ms == [] then []
    else
      var rest := MonthsAbove(rows, monthOf, ms[1..], threshold);
      if MonthMean(rows, monthOf, ms[0]) > threshold then [ms[0]] + rest else rest
  }

  /** The filter keeps exactly the months of ms above the threshold. */
  lemma {:induction false} MonthsAboveMembers(rows: seq<Forecasting.Sale>, monthOf: int -> Month, ms: seq<Month>, threshold: real, m: Month)
    requires forall i :: 0 <= i < |ms| ==> MonthCount(rows, monthOf, ms[i]) > 0
    ensures m in MonthsAbove(rows, monthOf, ms, threshold) <==>
      m in ms && MonthCount(rows, monthOf, m) > 0 && MonthMean(rows, monthOf, m) > threshold
  {
    if ms != [] {
      MonthsAboveMembers(rows, monthOf, ms[1..], threshold, m);
      assert ms == [ms[0]] + ms[1..];
    }
  }

  /** The filter keeps the calendar order. */
  lemma {:induction false} MonthsAboveSorted(rows: seq<Forecasting.Sale>, monthOf: int -> Month, ms: seq<Month>, threshold: real)
    requires forall i :: 0 <= i < |ms| ==> MonthCount(rows, monthOf, ms[i]) > 0
    requires Ascending(ms)
    ensures Ascending(MonthsAbove(rows, monthOf, ms, threshold))
  {
    if ms != [] {
      var rest := MonthsAbove(rows, monthOf, ms[1..], threshold);
      MonthsAboveSorted(rows, monthOf, ms[1..], threshold);
      forall k | 0 <= k < |rest|
        ensures ms[0] < rest[k]
      {
        MonthsAboveMembers(rows, monthOf, ms[1..], threshold, rest[k]);
      }
    }
  }

  /** The peak months: those whose mean is more than 1.3 times the mean of the monthly
      means, ascending. */
  function PeakMonths(rows: seq<Forecasting.Sale>, monthOf: int -> Month): (ps: seq<Month>)
    requires |rows| > 0
    ensures Ascending(ps)
  {
    MonthsAboveSorted(rows, monthOf, PresentMonths(rows, monthOf), PeakThreshold(rows, monthOf));
    MonthsAbove(rows, monthOf, PresentMonths(rows, monthOf), PeakThreshold(rows, monthOf))
  }

  /** The level a month's mean has to exceed: 1.3 times the mean of the monthly means. */
  function PeakThreshold(rows: seq<Forecasting.Sale>, monthOf: int -> Month): real
    requires |rows| > 0
  {
    OverallAverage(rows, monthOf) * 1.3
  }

  /** A month is a peak exactly when it has rows and its mean exceeds 1.3 times the
      mean of the monthly means. */
  lemma PeakMonthsMembers(rows: seq<Forecasting.Sale>, monthOf: int -> Month, m: Month)
    requires |rows| > 0
    ensures m in PeakMonths(rows, monthOf) <==>
      MonthCount(rows, monthOf, m) > 0 && MonthMean(rows, monthOf, m) > OverallAverage(rows, monthOf) * 1.3
  {
    MonthsAboveMembers(rows, monthOf, PresentMonths(rows, monthOf), PeakThreshold(rows, monthOf), m);
  }

  /** `detect_seasonality_peaks`: no peaks under 30 rows, else the peak months' names
      in calendar order. `monthOf` is the calendar month of a day number. */
  function DetectSeasonalityPeaks(rows: seq<Forecasting.Sale>, monthOf: int -> Month): (names: seq<string>)
    ensures |rows| < MinPeakRows ==> names == []
    ensures |rows| >= MinPeakRows ==>
      |names| == |PeakMonths(rows, monthOf)|
      && forall i :: 0 <= i < |names| ==> names[i] == MonthName(PeakMonths(rows, monthOf)[i])
  {
    if |rows| < MinPeakRows then []
    else
      var ps := PeakMonths(rows, monthOf);
      seq(|ps|, i requires 0 <= i < |ps| => MonthName(ps[i]))
  }

  /** A month is named among the peaks exactly when it has rows and its mean exceeds
      1.3 times the mean of the monthly means. */
  lemma PeakNamedIff(rows: seq<Forecasting.Sale>, monthOf: int -> Month, m: Month)
    requires |rows| >= MinPeakRows
    ensures MonthName(m) in DetectSeasonalityPeaks(rows, monthOf) <==>
      MonthCount(rows, monthOf, m) > 0 && MonthMean(rows, monthOf, m) > OverallAverage(rows, monthOf) * 1.3
  {
    var names := DetectSeasonalityPeaks(rows, monthOf);
    var ps := PeakMonths(rows, monthOf);
    PeakMonthsMembers(rows, monthOf, m);
    if MonthName(m) in names {
      var i :| 0 <= i < |names| && names[i] == MonthName(m);
      MonthNameInjective(m, ps[i]);
    }
    if m in ps {
      var i :| 0 <= i < |ps| && ps[i] == m;
      assert names[i] == MonthName(m);
    }
  }

  lemma {:induction false} SumAbove(s: seq<real>, c: real)
    requires |s| > 0
    requires forall i :: 0 <= i < |s| ==> s[i] > c
    ensures Sum(s) > |s| as real * c
  {
    var init := s[..|s| - 1];
    if init == [] {
      assert Sum(s) == Sum(init) + s[0];
    } else {
      SumAbove(init, c);
      var k := |init| as real;
      assert |s| as real * c == k * c + c;
    }
  }

  /** A non-empty column of non-negative values always has an entry at or below 1.3
      times its mean. */
  lemma NotAllAboveScaledMean(s: seq<real>)
    requires |s| > 0
    requires forall i :: 0 <= i < |s| ==> 0.0 <= s[i]
    ensures exists i :: 0 <= i < |s| && s[i] <= Mean(s) * 1.3
  {
    var c := Mean(s) * 1.3;
    if forall i :: 0 <= i < |s| ==> s[i] > c {
      var total := Sum(s);
      var n := |s| as real;
      SumNonNegative(s);
      SumAbove(s, c);
      assert false;
    }
  }

  /** With no negative quantities, some month with rows is never a peak: the months
      cannot all lie above 1.3 times their own mean. */
  lemma NotEveryMonthPeaks(rows: seq<Forecasting.Sale>, monthOf: int -> Month)
    requires |rows| > 0
    requires forall i :: 0 <= i < |rows| ==> rows[i].quantity >= 0
    ensures exists m: Month :: MonthCount(rows, monthOf, m) > 0 && m !in PeakMonths(rows, monthOf)
  {
    var ms := PresentMonths(rows, monthOf);
    var avgs := MonthlyAverages(rows, monthOf, ms);
    forall i | 0 <= i < |avgs|
      ensures 0.0 <= avgs[i]
    {
      MonthMeanNonNegative(rows, monthOf, ms[i]);
    }
    NotAllAboveScaledMean(avgs);
    var i :| 0 <= i < |avgs| && avgs[i] <= Mean(avgs) * 1.3;
    var m := ms[i];
    PeakMonthsMembers(rows, monthOf, m);
    assert MonthCount(rows, monthOf, m) > 0;
    assert MonthMean(rows, monthOf, m) == avgs[i];
  }
}
