/** The reorder optimizer: safety stock, reorder point, stockout walk, order
    quantity, urgency and reason, the per-product decision, the batch pass and the
    fleet health metrics.

    Forecast rows are the `ForecastRow`s of the forecasting module: instants on
    the day-number scale with a real-valued predicted demand. */
module Inventory {
  import opened Wrappers
  import opened Numeric
  import opened Forecasting
  import Text

  /** A product snapshot. */
  datatype Product = Product(
    sku: string,
    name: string,
    category: string,
    currentStock: int,
    unitCost: real,
    sellingPrice: real,
    leadTimeDays: int,
    minOrderQuantity: int := 10,
    storageCostPerUnit: real := 0.0)

  datatype Urgency = Critical | High | Medium | Low

  /** The sort rank of an urgency level: critical first. */
  function Rank(u: Urgency): (n: nat)
    ensures n <= 3
  {
    match u
    case Critical => 0
    case High => 1
    case Medium => 2
    case Low => 3
  }

  /** The level's name as it appears in a recommendation. */
  function UrgencyName(u: Urgency): string
  {
    match u
    case Critical => "critical"
    case High => "high"
    case Medium => "medium"
    case Low => "low"
  }

  /** Each level has its own rank and its own name. */
  lemma RankAndNameDistinguishLevels(u: Urgency, v: Urgency)
    ensures Rank(u) == Rank(v) <==> u == v
    ensures UrgencyName(u) == UrgencyName(v) <==> u == v
  {
  }

  /** The outcome of the stockout walk: the `(date, days)` pair, or `(None, None)`. */
  datatype Stockout = NoStockoutInHorizon | StockoutOn(date: real, daysUntil: int)

  function DaysUntil(s: Stockout): Option<int>
  {
    match s
    case NoStockoutInHorizon => None
    case StockoutOn(_, d) => Some(d)
  }

  /** Why a reorder is recommended; `ReasonText` renders it. */
  datatype Reason =
    | OutOfStock
    | StockoutPredicted(date: real, days: int)
    | CriticallyBelow(stock: int, reorderPoint: int)
    | BelowReorderPoint(stock: int, reorderPoint: int)
    | Preventive

  datatype Recommendation = Recommendation(
    sku: string,
    productName: string,
    currentStock: int,
    reorderPoint: int,
    recommendedQuantity: int,
    stockout: Stockout,
    urgency: Urgency,
    expectedDemand7Days: int,
    expectedDemand30Days: int,
    safetyStock: int,
    totalCost: real,
    reason: Reason)

  /** The optimizer's only setting: the multiplier on safety stock (1.5 = 50% buffer). */
  datatype Optimizer = Optimizer(safetyFactor: real := 1.5)

  /** z-score of a 95% service level. */
  const ZScore: real := 1.65
  /** Days of demand covered beyond the lead time. */
  const ReviewPeriod: int := 7
  /** Orders are rounded up to whole batches of this many units. */
  const BatchSize: int := 50
  /** Sort key used for a recommendation without a predicted stockout. */
  const UnknownDays: int := 999

  // ---------------------------------------------------------------------------
  // calculate_safety_stock

  /** A zero standard deviation is replaced by 20% of the average demand. */
  function EffectiveStd(avgDailyDemand: real, demandStd: real): real
  {
    if demandStd == 0.0 then avgDailyDemand * 0.2 else demandStd
  }

  /** `calculate_safety_stock`: ceil(1.65 * std * sqrt(lead) * safety factor).
      A negative lead time makes the square root NaN and the integer conversion
      raise, which is `None` here. */
  function SafetyStock(opt: Optimizer, avgDailyDemand: real, leadTimeDays: int, demandStd: real, sqrt: real -> real): (r: Option<int>)
    ensures r.None? <==> leadTimeDays < 0
    ensures r.Some? ==>
      var raw := ZScore * EffectiveStd(avgDailyDemand, demandStd) * sqrt(leadTimeDays as real) * opt.safetyFactor;
      raw <= r.value as real < raw + 1.0
  {
    if leadTimeDays < 0 then None
    else Some(Ceil(ZScore * EffectiveStd(avgDailyDemand, demandStd) * sqrt(leadTimeDays as real) * opt.safetyFactor))
  }

  /** Non-negative demand, spread and factor give a non-negative safety stock. */
  lemma SafetyStockNonNegative(opt: Optimizer, avg: real, lead: int, std: real, sqrt: real -> real)
    requires IsSqrt(sqrt) && 0 <= lead
    requires 0.0 <= avg && 0.0 <= std && 0.0 <= opt.safetyFactor
    ensures SafetyStock(opt, avg, lead, std, sqrt).Some?
    ensures SafetyStock(opt, avg, lead, std, sqrt).value >= 0
  {
    var sigma := EffectiveStd(avg, std);
    assert 0.0 <= sigma;
    var root := sqrt(lead as real);
    assert 0.0 <= root;
    ProductNonNegative(ZScore, sigma);
    ProductNonNegative(ZScore * sigma, root);
    ProductNonNegative(ZScore * sigma * root, opt.safetyFactor);
    var raw := ZScore * sigma * root * opt.safetyFactor;
    assert 0.0 <= raw;
    assert raw <= Ceil(raw) as real;
  }

  /** A zero spread is treated exactly as a spread of 20% of average demand. */
  lemma SafetyStockZeroStd(opt: Optimizer, avg: real, lead: int, sqrt: real -> real)
    requires avg != 0.0
    ensures SafetyStock(opt, avg, lead, 0.0, sqrt) == SafetyStock(opt, avg, lead, avg * 0.2, sqrt)
  {
    if lead >= 0 {
      assert SafetyStock(opt, avg, lead, 0.0, sqrt).value == SafetyStock(opt, avg, lead, avg * 0.2, sqrt).value;
    }
  }

  /** With no lead time there is no safety stock. */
  lemma SafetyStockZeroLead(opt: Optimizer, avg: real, std: real, sqrt: real -> real)
    requires IsSqrt(sqrt)
    ensures SafetyStock(opt, avg, 0, std, sqrt) == Some(0)
  {
    var root := sqrt(0.0);
    assert 0.0 <= root && root * root == 0.0;
    if root != 0.0 {
      ProductPositive(root, root);
    }
    var sigma := EffectiveStd(avg, std);
    assert ZScore * sigma * root * opt.safetyFactor == 0.0;
    assert SafetyStock(opt, avg, 0, std, sqrt).value == Ceil(ZScore * sigma * root * opt.safetyFactor);
  }

  // ---------------------------------------------------------------------------
  // calculate_reorder_point

  /** `calculate_reorder_point`: ceil(avg * lead + safety stock). */
  function ReorderPoint(avgDailyDemand: real, leadTimeDays: int, safetyStock: int): (r: int)
    ensures avgDailyDemand * leadTimeDays as real + safetyStock as real <= r as real
    ensures (r as real) < avgDailyDemand * leadTimeDays as real + safetyStock as real + 1.0
  {
    Ceil(avgDailyDemand * leadTimeDays as real + safetyStock as real)
  }

  /** The reorder point never falls when demand, lead time or safety stock grows. */
  lemma ReorderPointMonotone(avg1: real, avg2: real, lead1: int, lead2: int, ss1: int, ss2: int)
    requires 0.0 <= avg1 <= avg2 && 0 <= lead1 <= lead2 && ss1 <= ss2
    ensures ReorderPoint(avg1, lead1, ss1) <= ReorderPoint(avg2, lead2, ss2)
  {
    var x1 := avg1 * lead1 as real + ss1 as real;
    var x2 := avg2 * lead2 as real + ss2 as real;
    assert x1 <= x2 by {
      MulMonotone(avg1, avg2, lead1 as real, lead2 as real);
    }
    CeilMonotone(x1, x2);
    assert ReorderPoint(avg1, lead1, ss1) == Ceil(x1);
    assert ReorderPoint(avg2, lead2, ss2) == Ceil(x2);
  }

  // ---------------------------------------------------------------------------
  // calculate_economic_order_quantity

  /** A zero holding cost is replaced by an absolute 0.1. */
  function EffectiveHoldingCost(holdingCost: real): (h: real)
    ensures h != 0.0
  {
    if holdingCost == 0.0 then 0.1 else holdingCost
  }

  function EoqRadicand(annualDemand: real, orderingCost: real, holdingCost: real): real
  {
    (2.0 * annualDemand * orderingCost) / EffectiveHoldingCost(holdingCost)
  }

  /** `calculate_economic_order_quantity`: ceil(sqrt(2 D S / H)). A negative
      radicand gives NaN, on which the integer conversion raises: `None`. */
  function EconomicOrderQuantity(annualDemand: real, orderingCost: real, holdingCost: real, sqrt: real -> real): (r: Option<int>)
    ensures r.None? <==> EoqRadicand(annualDemand, orderingCost, holdingCost) < 0.0
  {
    var x := EoqRadicand(annualDemand, orderingCost, holdingCost);
    if x < 0.0 then None else Some(Ceil(sqrt(x)))
  }

  lemma MulMonotone(a: real, b: real, c: real, d: real)
    requires 0.0 <= a <= b && 0.0 <= c <= d
    ensures a * c <= b * d
  {
    ProductNonNegative(b - a, c);
    ProductNonNegative(b, d - c);
  }

  /** The economic order quantity is the least whole quantity whose square covers
      2 D S / H. */
  lemma EoqLeastSquareCover(annualDemand: real, orderingCost: real, holdingCost: real, sqrt: real -> real)
    requires IsSqrt(sqrt)
    requires 0.0 <= EoqRadicand(annualDemand, orderingCost, holdingCost)
    ensures var x := EoqRadicand(annualDemand, orderingCost, holdingCost);
      var q := EconomicOrderQuantity(annualDemand, orderingCost, holdingCost, sqrt).value;
      && 0 <= q
      && x <= q as real * q as real
      && (q == 0 || (q - 1) as real * (q - 1) as real < x)
  {
    var x := EoqRadicand(annualDemand, orderingCost, holdingCost);
    var s := sqrt(x);
    var q := Ceil(s);
    assert 0.0 <= s && s * s == x;
    assert EconomicOrderQuantity(annualDemand, orderingCost, holdingCost, sqrt).value == q;
    MulMonotone(s, q as real, s, q as real);
    if q != 0 {
      SquareStrictlyMonotone((q - 1) as real, s);
    }
  }

  lemma SquareStrictlyMonotone(a: real, b: real)
    requires 0.0 <= a < b
    ensures a * a < b * b
  {
    ProductPositive(b - a, b + a);
    assert (b - a) * (b + a) == b * b - a * a;
  }

  /** A zero holding cost gives the same quantity as a holding cost of 0.1. */
  lemma EoqZeroHoldingCost(annualDemand: real, orderingCost: real, sqrt: real -> real)
    ensures EconomicOrderQuantity(annualDemand, orderingCost, 0.0, sqrt)
         == EconomicOrderQuantity(annualDemand, orderingCost, 0.1, sqrt)
  {
  }

  // ---------------------------------------------------------------------------
  // estimate_stockout_date

  /** Predicted demand over the first k rows of the forecast. */
  function Cumulative(f: seq<ForecastRow>, k: nat): real
    requires k <= |f|
  {
    if k == 0 then 0.0 else Cumulative(f, k - 1) + f[k - 1].predicted
  }

  lemma {:induction false} CumulativeNonNegative(f: seq<ForecastRow>, k: nat)
    requires k <= |f|
    requires forall i :: 0 <= i < |f| ==> 0.0 <= f[i].predicted
    ensures 0.0 <= Cumulative(f, k)
  {
    if k > 0 {
      CumulativeNonNegative(f, k - 1);
    }
  }

  /** The first row, at index k or later, after which cumulative demand reaches `stock`. */
  function FirstReach(f: seq<ForecastRow>, stock: real, k: nat): (r: Option<nat>)
    requires k <= |f|
    ensures r.Some? ==> k <= r.value < |f| && stock <= Cumulative(f, r.value + 1)
    ensures r.Some? ==> forall j :: k < j <= r.value ==> Cumulative(f, j) < stock
    ensures r.None? ==> forall j :: k < j <= |f| ==> Cumulative(f, j) < stock
    decreases |f| - k
  {
    if k == |f| then None
    else if stock <= Cumulative(f, k + 1) then Some(k)
    else FirstReach(f, stock, k + 1)
  }

  /** `timedelta.days` of the gap from `now` to `date`, floored at 0. */
  function DaysFrom(now: real, date: real): (d: int)
    ensures 0 <= d
    ensures 0.0 <= date - now ==> d as real <= date - now < d as real + 1.0
    ensures date - now < 0.0 ==> d == 0
  {
    Max(0, (date - now).Floor)
  }

  /** The stockout the walk reports: `(now, 0)` when already out of stock, else the
      first row whose cumulative demand reaches the stock, else none. */
  function EstimateStockout(stock: int, f: seq<ForecastRow>, now: real): (r: Stockout)
    ensures stock <= 0 ==> r == StockoutOn(now, 0)
    ensures 0 < stock && r.NoStockoutInHorizon? ==> forall j :: 0 < j <= |f| ==> Cumulative(f, j) < stock as real
    ensures 0 < stock && r.StockoutOn? ==>
      exists k :: (&& 0 <= k < |f|
                   && r == StockoutOn(f[k].date, DaysFrom(now, f[k].date))
                   && stock as real <= Cumulative(f, k + 1)
                   && (forall j :: 0 < j <= k ==> Cumulative(f, j) < stock as real))
    ensures r.StockoutOn? ==> 0 <= r.daysUntil
  {
    if stock <= 0 then StockoutOn(now, 0)
    else
      match FirstReach(f, stock as real, 0)
      case None => NoStockoutInHorizon
      case Some(k) =>
        assert 0 < k + 1 <= |f| && stock as real <= Cumulative(f, k + 1);
        assert forall j :: 0 < j <= k ==> Cumulative(f, j) < stock as real;
        StockoutOn(f[k].date, DaysFrom(now, f[k].date))
  }

  /** The first row reached is the one after which demand first reaches the stock. */
  lemma {:induction false} FirstReachAt(f: seq<ForecastRow>, stock: real, k: nat, i: nat)
    requires k <= i < |f| && stock <= Cumulative(f, i + 1)
    requires forall j :: k < j <= i ==> Cumulative(f, j) < stock
    ensures FirstReach(f, stock, k) == Some(i)
    decreases i - k
  {
    if k < i {
      assert Cumulative(f, k + 1) < stock;
      FirstReachAt(f, stock, k + 1, i);
    }
  }

  /** `estimate_stockout_date`: walks the forecast, accumulating predicted demand. */
  method EstimateStockoutDate(stock: int, f: seq<ForecastRow>, now: real) returns (r: Stockout)
    ensures r == EstimateStockout(stock, f, now)
  {
    if stock <= 0 {
      return StockoutOn(now, 0);
    }
    var cumulative := 0.0;
    var i := 0;
    while i < |f|
      invariant 0 <= i <= |f|
      invariant cumulative == Cumulative(f, i)
      invariant forall j :: 0 < j <= i ==> Cumulative(f, j) < stock as real
    {
      cumulative := cumulative + f[i].predicted;
      if cumulative >= stock as real {
        FirstReachAt(f, stock as real, 0, i);
        return StockoutOn(f[i].date, DaysFrom(now, f[i].date));
      }
      i := i + 1;
    }
    return NoStockoutInHorizon;
  }

  /** More stock never brings the stockout row forward. */
  lemma StockoutNotEarlierWithMoreStock(f: seq<ForecastRow>, s1: real, s2: real)
    requires s1 <= s2
    ensures FirstReach(f, s2, 0).Some? ==>
      FirstReach(f, s1, 0).Some? && FirstReach(f, s1, 0).value <= FirstReach(f, s2, 0).value
  {
    if FirstReach(f, s2, 0).Some? {
      var k2 := FirstReach(f, s2, 0).value;
      assert s1 <= Cumulative(f, k2 + 1);
    }
  }

  // ---------------------------------------------------------------------------
  // calculate_reorder_quantity

  /** The number of rows `DataFrame.head(n)` keeps: the first n, or, for negative n,
      all but the last -n. */
  function HeadLength(len: nat, n: int): (k: nat)
    ensures k <= len
    ensures 0 <= n ==> k == if n <= len then n else len
    ensures n < 0 ==> k == if len + n >= 0 then len + n else 0
  {
    if n >= 0 then (if n <= len then n else len)
    else if len + n >= 0 then len + n
    else 0
  }

  /** Demand over the first n rows, as `head(n)['predicted_demand'].sum()`. */
  function HeadDemand(f: seq<ForecastRow>, n: int): real
  {
    Cumulative(f, HeadLength(|f|, n))
  }

  /** What the order must cover: demand over lead time plus review period, less
      stock, plus the reorder point. */
  function OrderNeed(f: seq<ForecastRow>, stock: int, reorderPoint: int, leadTimeDays: int): real
  {
    HeadDemand(f, leadTimeDays + ReviewPeriod) - stock as real + reorderPoint as real
  }

  /** `calculate_reorder_quantity`: the need rounded up to whole batches, but never
      below the minimum order. */
  function ReorderQuantity(f: seq<ForecastRow>, stock: int, reorderPoint: int, minOrderQty: int, leadTimeDays: int): (q: int)
    ensures minOrderQty <= q
    ensures OrderNeed(f, stock, reorderPoint, leadTimeDays) <= q as real
    ensures q == minOrderQty ||
      (q % BatchSize == 0 && ((q - BatchSize) as real) < OrderNeed(f, stock, reorderPoint, leadTimeDays))
    ensures forall m: int ::
      && m % BatchSize == 0
      && OrderNeed(f, stock, reorderPoint, leadTimeDays) <= m as real
      && ((m - BatchSize) as real) < OrderNeed(f, stock, reorderPoint, leadTimeDays)
      ==> m <= q
  {
    var need := OrderNeed(f, stock, reorderPoint, leadTimeDays);
    var batches := Ceil(need / BatchSize as real);
    BatchRoundUp(need, minOrderQty);
    Max(batches * BatchSize, minOrderQty)
  }

  /** The rounding of `ReorderQuantity` on a bare need. */
  lemma BatchRoundUp(need: real, minOrderQty: int)
    ensures var q := Max(Ceil(need / BatchSize as real) * BatchSize, minOrderQty);
      && minOrderQty <= q
      && need <= q as real
      && (q == minOrderQty || (q % BatchSize == 0 && ((q - BatchSize) as real) < need))
      && forall m: int :: m % BatchSize == 0 && need <= m as real && ((m - BatchSize) as real) < need ==> m <= q
  {
    var c := Ceil(need / BatchSize as real);
    var r := c * BatchSize;
    assert need / 50.0 <= c as real < need / 50.0 + 1.0;
    assert need <= r as real < need + 50.0;
    forall m: int | m % BatchSize == 0 && need <= m as real && ((m - BatchSize) as real) < need
      ensures m <= r
    {
      BatchBelowCover(m, r);
    }
  }

  /** A minimum order below the batch round-up does not win: a need of 40 with a
      minimum of 45 orders one full batch. */
  lemma MinimumBelowRoundUp()
    ensures ReorderQuantity([], -40, 0, 45, 0) == 50
  {
    assert OrderNeed([], -40, 0, 0) == 40.0;
  }

  /** Among multiples of the batch size, the order is the least one covering the need. */
  lemma ReorderQuantityLeastBatch(f: seq<ForecastRow>, stock: int, reorderPoint: int, minOrderQty: int, leadTimeDays: int, m: int)
    requires m % BatchSize == 0 && OrderNeed(f, stock, reorderPoint, leadTimeDays) <= m as real
    requires minOrderQty <= m
    ensures ReorderQuantity(f, stock, reorderPoint, minOrderQty, leadTimeDays) <= m
  {
    var q := ReorderQuantity(f, stock, reorderPoint, minOrderQty, leadTimeDays);
    if q != minOrderQty {
      BatchBelowCover(q, m);
    }
  }

  /** Of two multiples of the batch size, one less than a batch above the other is at most it. */
  lemma BatchBelowCover(q: int, m: int)
    requires q % BatchSize == 0 && m % BatchSize == 0 && q - BatchSize < m
    ensures q <= m
  {
    assert (m - q) % BatchSize == 0;
  }

  // ---------------------------------------------------------------------------
  // determine_urgency

  predicate DaysAtMost(days: Option<int>, n: int)
  {
    days.Some? && days.value <= n
  }

  /** `stock < reorder_point * 0.5`. */
  predicate BelowHalf(stock: int, reorderPoint: int)
  {
    (stock as real) < reorderPoint as real * 0.5
  }

  /** `determine_urgency`: the first matching rule wins. */
  function DetermineUrgency(days: Option<int>, stock: int, reorderPoint: int): (u: Urgency)
    ensures u == Critical <==> stock == 0 || DaysAtMost(days, 3)
    ensures u == High <==>
      (&& stock != 0 && !DaysAtMost(days, 3)
       && (DaysAtMost(days, 7) || (!DaysAtMost(days, 14) && BelowHalf(stock, reorderPoint))))
    ensures u == Medium <==>
      (&& stock != 0 && !DaysAtMost(days, 7)
       && (DaysAtMost(days, 14) || (!BelowHalf(stock, reorderPoint) && stock < reorderPoint)))
    ensures u == Low <==>
      stock != 0 && !DaysAtMost(days, 14) && !BelowHalf(stock, reorderPoint) && reorderPoint <= stock
  {
    if stock == 0 then Critical
    else if days.Some? && days.value <= 3 then Critical
    else if days.Some? && days.value <= 7 then High
    else if days.Some? && days.value <= 14 then Medium
    else if BelowHalf(stock, reorderPoint) then High
    else if stock < reorderPoint then Medium
    else Low
  }

  /** For a fixed outlook, less (non-negative) stock is never less urgent. */
  lemma UrgencyMonotoneInStock(days: Option<int>, s1: int, s2: int, reorderPoint: int)
    requires 0 <= s1 <= s2
    ensures Rank(DetermineUrgency(days, s1, reorderPoint)) <= Rank(DetermineUrgency(days, s2, reorderPoint))
  {
  }

  /** The day rules shadow the stock rules: a product 10 days from stockout rates
      medium, while the same product with 20 days left rates high. */
  lemma UrgencyNotMonotoneInDays()
    ensures DetermineUrgency(Some(10), 1, 10) == Medium
    ensures DetermineUrgency(Some(20), 1, 10) == High
  {
  }

  // ---------------------------------------------------------------------------
  // _build_reason

  /** `_build_reason`: out of stock, then stockout within 7 days, then below half the
      reorder point, then below it, else preventive; first match wins. */
  function BuildReason(stock: int, reorderPoint: int, stockout: Stockout): (r: Reason)
    ensures r == OutOfStock <==> stock == 0
    ensures r.StockoutPredicted? <==> stock != 0 && DaysAtMost(DaysUntil(stockout), 7)
    ensures r.StockoutPredicted? ==> r.date == stockout.date && r.days == stockout.daysUntil
    ensures r.CriticallyBelow? <==>
      stock != 0 && !DaysAtMost(DaysUntil(stockout), 7) && BelowHalf(stock, reorderPoint)
    ensures r.BelowReorderPoint? <==>
      stock != 0 && !DaysAtMost(DaysUntil(stockout), 7) && !BelowHalf(stock, reorderPoint) && stock < reorderPoint
    ensures (r.CriticallyBelow? || r.BelowReorderPoint?) ==> r.stock == stock && r.reorderPoint == reorderPoint
    ensures r == Preventive <==>
      stock != 0 && !DaysAtMost(DaysUntil(stockout), 7) && !BelowHalf(stock, reorderPoint) && reorderPoint <= stock
  {
    if stock == 0 then OutOfStock
    else if stockout.StockoutOn? && stockout.daysUntil <= 7 then StockoutPredicted(stockout.date, stockout.daysUntil)
    else if BelowHalf(stock, reorderPoint) then CriticallyBelow(stock, reorderPoint)
    else if stock < reorderPoint then BelowReorderPoint(stock, reorderPoint)
    else Preventive
  }

  /** The first six characters of each kind of reason text. */
  function Opening(r: Reason): string
  {
    match r
    case OutOfStock => "out of"
    case StockoutPredicted(_, _) => "stocko"
    case CriticallyBelow(_, _) => "curren"
    case BelowReorderPoint(_, _) => "stock "
    case Preventive => "preven"
  }

  lemma PrefixOfConcat(a: string, b: string, n: nat)
    requires n <= |a|
    ensures (a + b)[..n] == a[..n]
  {
  }

  /** The reason as the source words it; `formatDate` renders an instant as `%Y-%m-%d`.
      Each kind opens with its own six characters. */
  function ReasonText(r: Reason, formatDate: real -> string): (t: string)
    ensures |t| >= 6 && t[..6] == Opening(r)
  {
    match r
    case OutOfStock =>
      PrefixOfConcat("out of", " stock - immediate reorder required", 6);
      "out of" + " stock - immediate reorder required"
    case StockoutPredicted(date, days) =>
      var rest := formatDate(date) + (" (" + (Text.IntToString(days) + " days)"));
      PrefixOfConcat("stockout predicted on ", rest, 6);
      "stockout predicted on " + rest
    case CriticallyBelow(stock, rop) =>
      var rest := Text.IntToString(stock) + (") critically below reorder point (" + (Text.IntToString(rop) + ")"));
      PrefixOfConcat("current stock (", rest, 6);
      "current stock (" + rest
    case BelowReorderPoint(stock, rop) =>
      var rest := Text.IntToString(stock) + (") below reorder point (" + (Text.IntToString(rop) + ")"));
      PrefixOfConcat("stock level (", rest, 6);
      "stock level (" + rest
    case Preventive =>
      PrefixOfConcat("preven", "tive reorder based on demand forecast", 6);
      "preven" + "tive reorder based on demand forecast"
  }

  /** The text tells the kind of reason apart: the five texts have distinct openings. */
  lemma ReasonTextDeterminesKind(a: Reason, b: Reason, formatDate: real -> string)
    requires ReasonText(a, formatDate) == ReasonText(b, formatDate)
    ensures a.OutOfStock? == b.OutOfStock?
    ensures a.StockoutPredicted? == b.StockoutPredicted?
    ensures a.CriticallyBelow? == b.CriticallyBelow?
    ensures a.BelowReorderPoint? == b.BelowReorderPoint?
    ensures a.Preventive? == b.Preventive?
  {
    assert Opening(a) == Opening(b);
  }

  /** Reason and urgency agree, up to the 7- versus 14-day windows the two rules use. */
  lemma ReasonAgreesWithUrgency(stock: int, reorderPoint: int, stockout: Stockout)
    ensures var r := BuildReason(stock, reorderPoint, stockout);
      var u := DetermineUrgency(DaysUntil(stockout), stock, reorderPoint);
      && (r == OutOfStock ==> u == Critical)
      && (r.StockoutPredicted? ==> u == Critical || u == High)
      && (r.CriticallyBelow? ==> u == High || u == Medium)
      && (r.BelowReorderPoint? ==> u == Medium)
      && (r == Preventive ==> u == Medium || u == Low)
  {
  }

  // ---------------------------------------------------------------------------
  // analyze_product

  /** The mean of the predicted-demand column (at least one row), as `Series.mean()`. */
  function DemandMean(f: seq<ForecastRow>): (m: real)
    requires |f| > 0
    ensures m * |f| as real == Cumulative(f, |f|)
  {
    Cumulative(f, |f|) / |f| as real
  }

  /** Sum of squared deviations from m over the first k rows. */
  function SquaredDeviations(f: seq<ForecastRow>, k: nat, m: real): (r: real)
    requires k <= |f|
    ensures 0.0 <= r
  {
    if k == 0 then 0.0
    else
      var d := f[k - 1].predicted - m;
      SquaredDeviations(f, k - 1, m) + d * d
  }

  /** The sample standard deviation of the predicted-demand column, as `Series.std()`:
      the squared deviations from the mean are divided by one less than the count
      (`ddof = 1`). */
  function DemandStd(f: seq<ForecastRow>, sqrt: real -> real): (sd: real)
    requires |f| >= 2
    ensures IsSqrt(sqrt) ==>
      && 0.0 <= sd
      && sd * sd * (|f| - 1) as real == SquaredDeviations(f, |f|, DemandMean(f))
  {
    var v := SquaredDeviations(f, |f|, DemandMean(f)) / (|f| - 1) as real;
    DivideNonNegative(SquaredDeviations(f, |f|, DemandMean(f)), (|f| - 1) as real);
    sqrt(v)
  }

  /** Every predicted value of the forecast is c. */
  predicate ConstantForecast(f: seq<ForecastRow>, c: real)
  {
    forall i :: 0 <= i < |f| ==> f[i].predicted == c
  }

  lemma {:induction false} CumulativeConstant(f: seq<ForecastRow>, c: real, k: nat)
    requires k <= |f| && ConstantForecast(f, c)
    ensures Cumulative(f, k) == k as real * c
  {
    if k > 0 {
      CumulativeConstant(f, c, k - 1);
    }
  }

  lemma {:induction false} SquaredDeviationsConstant(f: seq<ForecastRow>, c: real, k: nat)
    requires k <= |f| && ConstantForecast(f, c)
    ensures SquaredDeviations(f, k, c) == 0.0
  {
    if k > 0 {
      SquaredDeviationsConstant(f, c, k - 1);
    }
  }

  /** A constant forecast has that constant as its mean. */
  lemma ConstantForecastMean(f: seq<ForecastRow>, c: real)
    requires |f| > 0 && ConstantForecast(f, c)
    ensures DemandMean(f) == c
  {
    CumulativeConstant(f, c, |f|);
    var n := |f| as real;
    assert DemandMean(f) * n == n * c;
    assert (DemandMean(f) - c) * n == 0.0;
  }

  /** A constant forecast has no spread. */
  lemma ConstantForecastStdZero(f: seq<ForecastRow>, c: real, sqrt: real -> real)
    requires |f| >= 2 && ConstantForecast(f, c) && IsSqrt(sqrt)
    ensures DemandStd(f, sqrt) == 0.0
  {
    ConstantForecastMean(f, c);
    SquaredDeviationsConstant(f, c, |f|);
    SqrtZero(sqrt);
  }

  /** On a constant forecast the zero spread is replaced by 20% of the mean, so the
      substitution is reached from `analyze_product`. */
  lemma ConstantForecastSafetyStock(opt: Optimizer, p: Product, f: seq<ForecastRow>, c: real, sqrt: real -> real)
    requires Analyzable(p, f) && ConstantForecast(f, c) && IsSqrt(sqrt)
    ensures SafetyStockFor(opt, p, f, sqrt) == SafetyStock(opt, c, p.leadTimeDays, c * 0.2, sqrt).value
  {
    ConstantForecastMean(f, c);
    ConstantForecastStdZero(f, c, sqrt);
    SafetyStockZeroStd(opt, c, p.leadTimeDays, sqrt);
  }

  /** Whether `analyze_product` gets past its guards: with fewer than two rows the
      mean or the spread is NaN, and with a negative lead time the square root is,
      so the ceiling conversion raises and the exception handler yields `None`; a zero
      mean is rejected outright. */
  predicate Analyzable(p: Product, f: seq<ForecastRow>)
  {
    |f| >= 2 && p.leadTimeDays >= 0 && DemandMean(f) != 0.0
  }

  function SafetyStockFor(opt: Optimizer, p: Product, f: seq<ForecastRow>, sqrt: real -> real): int
    requires Analyzable(p, f)
  {
    SafetyStock(opt, DemandMean(f), p.leadTimeDays, DemandStd(f, sqrt), sqrt).value
  }

  function ReorderPointFor(opt: Optimizer, p: Product, f: seq<ForecastRow>, sqrt: real -> real): int
    requires Analyzable(p, f)
  {
    ReorderPoint(DemandMean(f), p.leadTimeDays, SafetyStockFor(opt, p, f, sqrt))
  }

  /** The reorder trigger: below the reorder point, or a stockout within 14 days. */
  predicate NeedsReorder(stock: int, reorderPoint: int, stockout: Stockout)
    ensures 0 < stock ==>
      (NeedsReorder(stock, reorderPoint, stockout) <==> DetermineUrgency(DaysUntil(stockout), stock, reorderPoint) != Low)
  {
    stock < reorderPoint || DaysAtMost(DaysUntil(stockout), 14)
  }

  /** `qty * unit_cost`. */
  function OrderCost(quantity: int, unitCost: real): real
  {
    quantity as real * unitCost
  }

  /** The recommendation `analyze_product` builds once the guards pass, every field
      derived from the product and the forecast. */
  function Recommend(opt: Optimizer, p: Product, f: seq<ForecastRow>, now: real, sqrt: real -> real): (rec: Recommendation)
    requires Analyzable(p, f)
    ensures rec.sku == p.sku && rec.productName == p.name && rec.currentStock == p.currentStock
    ensures rec.safetyStock == SafetyStockFor(opt, p, f, sqrt)
    ensures rec.reorderPoint == ReorderPointFor(opt, p, f, sqrt)
    ensures rec.stockout == EstimateStockout(p.currentStock, f, now)
    ensures rec.urgency == DetermineUrgency(DaysUntil(rec.stockout), p.currentStock, rec.reorderPoint)
    ensures rec.reason == BuildReason(p.currentStock, rec.reorderPoint, rec.stockout)
    ensures rec.recommendedQuantity ==
      ReorderQuantity(f, p.currentStock, rec.reorderPoint, p.minOrderQuantity, p.leadTimeDays)
    ensures rec.recommendedQuantity >= p.minOrderQuantity
    ensures rec.totalCost == OrderCost(rec.recommendedQuantity, p.unitCost)
    ensures rec.expectedDemand7Days == Trunc(HeadDemand(f, 7))
    ensures rec.expectedDemand30Days == Trunc(HeadDemand(f, 30))
  {
    var safety := SafetyStockFor(opt, p, f, sqrt);
    var rop := ReorderPointFor(opt, p, f, sqrt);
    var stockout := EstimateStockout(p.currentStock, f, now);
    var urgency := DetermineUrgency(DaysUntil(stockout), p.currentStock, rop);
    var demand7 := Trunc(HeadDemand(f, 7));
    var demand30 := Trunc(HeadDemand(f, 30));
    var qty := ReorderQuantity(f, p.currentStock, rop, p.minOrderQuantity, p.leadTimeDays);
    var reason := BuildReason(p.currentStock, rop, stockout);
    Recommendation(p.sku, p.name, p.currentStock, rop, qty, stockout, urgency,
                   demand7, demand30, safety, OrderCost(qty, p.unitCost), reason)
  }

  /** `analyze_product`: a recommendation exactly when the guards pass and the
      trigger fires. */
  function AnalyzeProduct(opt: Optimizer, p: Product, f: seq<ForecastRow>, now: real, sqrt: real -> real): (r: Option<Recommendation>)
    ensures !Analyzable(p, f) ==> r.None?
    ensures Analyzable(p, f) ==>
      (r.Some? <==> NeedsReorder(p.currentStock, ReorderPointFor(opt, p, f, sqrt), EstimateStockout(p.currentStock, f, now)))
    ensures r.Some? ==> Analyzable(p, f) && r.value == Recommend(opt, p, f, now, sqrt)
  {
    if !Analyzable(p, f) then None
    else if !NeedsReorder(p.currentStock, ReorderPointFor(opt, p, f, sqrt), EstimateStockout(p.currentStock, f, now)) then None
    else Some(Recommend(opt, p, f, now, sqrt))
  }

  /** An out-of-stock product that passes the guards is always recommended, as
      critical and out of stock. */
  lemma OutOfStockIsCritical(opt: Optimizer, p: Product, f: seq<ForecastRow>, now: real, sqrt: real -> real)
    requires Analyzable(p, f) && p.currentStock == 0
    ensures AnalyzeProduct(opt, p, f, now, sqrt).Some?
    ensures AnalyzeProduct(opt, p, f, now, sqrt).value.urgency == Critical
    ensures AnalyzeProduct(opt, p, f, now, sqrt).value.reason == OutOfStock
  {
    assert EstimateStockout(p.currentStock, f, now) == StockoutOn(now, 0);
  }

  /** With non-negative predictions, stock plus the recommended order reaches the
      reorder point. */
  lemma RecommendationRestoresReorderPoint(opt: Optimizer, p: Product, f: seq<ForecastRow>, now: real, sqrt: real -> real)
    requires forall i :: 0 <= i < |f| ==> 0.0 <= f[i].predicted
    requires AnalyzeProduct(opt, p, f, now, sqrt).Some?
    ensures var rec := AnalyzeProduct(opt, p, f, now, sqrt).value;
      rec.reorderPoint <= rec.currentStock + rec.recommendedQuantity
  {
    var rec := AnalyzeProduct(opt, p, f, now, sqrt).value;
    CumulativeNonNegative(f, HeadLength(|f|, p.leadTimeDays + ReviewPeriod));
    assert OrderNeed(f, p.currentStock, rec.reorderPoint, p.leadTimeDays) <= rec.recommendedQuantity as real;
  }

  // ---------------------------------------------------------------------------
  // batch_analyze

  /** What the batch pass gets for one product: nothing without a forecast. */
  function Analysis(opt: Optimizer, p: Product, forecasts: map<string, seq<ForecastRow>>, now: real, sqrt: real -> real): Option<Recommendation>
  {
    if p.sku in forecasts then AnalyzeProduct(opt, p, forecasts[p.sku], now, sqrt) else None
  }

  /** The analysis of every product, in product order. */
  function Analyses(opt: Optimizer, products: seq<Product>, forecasts: map<string, seq<ForecastRow>>, now: real, sqrt: real -> real): (rs: seq<Option<Recommendation>>)
    ensures |rs| == |products|
    ensures forall i :: 0 <= i < |products| ==> rs[i] == Analysis(opt, products[i], forecasts, now, sqrt)
  {
    seq(|products|, i requires 0 <= i < |products| => Analysis(opt, products[i], forecasts, now, sqrt))
  }

  /** The values that are present, in order. */
  function Present<T>(xs: seq<Option<T>>): (vs: seq<T>)
    ensures |vs| <= |xs|
  {
    if xs == [] then []
    else
      match xs[|xs| - 1]
      case None => Present(xs[..|xs| - 1])
      case Some(v) => Present(xs[..|xs| - 1]) + [v]
  }

  lemma PresentSnoc<T>(xs: seq<Option<T>>, o: Option<T>)
    ensures Present(xs + [o]) == Present(xs) + (if o.Some? then [o.value] else [])
  {
    assert (xs + [o])[..|xs|] == xs;
  }

  lemma {:induction false} PresentSound<T>(xs: seq<Option<T>>, v: T)
    requires v in Present(xs)
    ensures exists i :: 0 <= i < |xs| && xs[i] == Some(v)
  {
    var init := xs[..|xs| - 1];
    if v in Present(init) {
      PresentSound(init, v);
      var i :| 0 <= i < |init| && init[i] == Some(v);
      assert xs[i] == init[i];
    }
  }

  lemma {:induction false} PresentComplete<T>(xs: seq<Option<T>>, i: nat)
    requires i < |xs| && xs[i].Some?
    ensures xs[i].value in Present(xs)
  {
    var init := xs[..|xs| - 1];
    if i < |xs| - 1 {
      assert init[i] == xs[i];
      PresentComplete(init, i);
    }
  }

  /** The recommendations of the products that have a forecast, in product order. */
  function Collected(opt: Optimizer, products: seq<Product>, forecasts: map<string, seq<ForecastRow>>, now: real, sqrt: real -> real): (recs: seq<Recommendation>)
    ensures |recs| <= |products|
  {
    Present(Analyses(opt, products, forecasts, now, sqrt))
  }

  /** Collecting one more product appends its recommendation, if it has one. */
  lemma CollectedSnoc(opt: Optimizer, products: seq<Product>, forecasts: map<string, seq<ForecastRow>>, now: real, sqrt: real -> real, i: nat)
    requires i < |products|
    ensures var o := Analysis(opt, products[i], forecasts, now, sqrt);
      Collected(opt, products[..i + 1], forecasts, now, sqrt)
      == Collected(opt, products[..i], forecasts, now, sqrt) + (if o.Some? then [o.value] else [])
  {
    var before := Analyses(opt, products[..i], forecasts, now, sqrt);
    var o := Analysis(opt, products[i], forecasts, now, sqrt);
    assert Analyses(opt, products[..i + 1], forecasts, now, sqrt) == before + [o];
    PresentSnoc(before, o);
  }

  /** One step of the batch loop: the product's analysis extends what was collected so far. */
  lemma CollectedStep(opt: Optimizer, products: seq<Product>, forecasts: map<string, seq<ForecastRow>>, now: real, sqrt: real -> real,
                      i: nat, collected: seq<Recommendation>, rec: Option<Recommendation>)
    requires i < |products|
    requires collected == Collected(opt, products[..i], forecasts, now, sqrt)
    requires rec == Analysis(opt, products[i], forecasts, now, sqrt)
    ensures Collected(opt, products[..i + 1], forecasts, now, sqrt) == collected + (if rec.Some? then [rec.value] else [])
  {
    CollectedSnoc(opt, products, forecasts, now, sqrt, i);
  }

  /** Every collected recommendation comes from some product with a forecast. */
  lemma CollectedSound(opt: Optimizer, products: seq<Product>, forecasts: map<string, seq<ForecastRow>>, now: real, sqrt: real -> real, rec: Recommendation)
    requires rec in Collected(opt, products, forecasts, now, sqrt)
    ensures exists i :: 0 <= i < |products| && Analysis(opt, products[i], forecasts, now, sqrt) == Some(rec)
  {
    var xs := Analyses(opt, products, forecasts, now, sqrt);
    PresentSound(xs, rec);
    var i :| 0 <= i < |xs| && xs[i] == Some(rec);
    assert Analysis(opt, products[i], forecasts, now, sqrt) == Some(rec);
  }

  /** Every recommendation some product with a forecast yields is collected. */
  lemma CollectedComplete(opt: Optimizer, products: seq<Product>, forecasts: map<string, seq<ForecastRow>>, now: real, sqrt: real -> real, i: nat)
    requires i < |products| && Analysis(opt, products[i], forecasts, now, sqrt).Some?
    ensures Analysis(opt, products[i], forecasts, now, sqrt).value in Collected(opt, products, forecasts, now, sqrt)
  {
    PresentComplete(Analyses(opt, products, forecasts, now, sqrt), i);
  }

  /** The batch sort key: urgency rank, then days to stockout with 999 for none. */
  datatype SortKey = SortKey(rank: int, days: int)

  function KeyOf(rec: Recommendation): SortKey
  {
    SortKey(Rank(rec.urgency),
      match rec.stockout
      case NoStockoutInHorizon => UnknownDays
      case StockoutOn(_, d) => d)
  }

  /** Lexicographic order on keys, as Python compares tuples. */
  predicate KeyLe(a: SortKey, b: SortKey)
  {
    a.rank < b.rank || (a.rank == b.rank && a.days <= b.days)
  }

  predicate SortedByKey(s: seq<Recommendation>)
  {
    forall i, j :: 0 <= i < j < |s| ==> KeyLe(KeyOf(s[i]), KeyOf(s[j]))
  }

  /** Inserts x after every element whose key is at most x's. */
  function Insert(x: Recommendation, s: seq<Recommendation>): (r: seq<Recommendation>)
    ensures |r| == |s| + 1
  {
    if s == [] then [x]
    else if KeyLe(KeyOf(s[0]), KeyOf(x)) then [s[0]] + Insert(x, s[1..])
    else [x] + s
  }

  /** The stable sort `list.sort(key=...)` performs. */
  function SortByUrgency(s: seq<Recommendation>): (r: seq<Recommendation>)
    ensures |r| == |s|
  {
    if s == [] then []
    else Insert(s[|s| - 1], SortByUrgency(s[..|s| - 1]))
  }

  lemma {:induction false} InsertPermutes(x: Recommendation, s: seq<Recommendation>)
    ensures multiset(Insert(x, s)) == multiset(s) + multiset{x}
  {
    if s != [] && KeyLe(KeyOf(s[0]), KeyOf(x)) {
      assert s == [s[0]] + s[1..];
      InsertPermutes(x, s[1..]);
    }
  }

  lemma {:induction false} SortByUrgencyPermutes(s: seq<Recommendation>)
    ensures multiset(SortByUrgency(s)) == multiset(s)
  {
    if s != [] {
      var init := s[..|s| - 1];
      assert s == init + [s[|s| - 1]];
      SortByUrgencyPermutes(init);
      InsertPermutes(s[|s| - 1], SortByUrgency(init));
    }
  }

  /** Every key in s is at least b. */
  predicate AllAbove(b: SortKey, s: seq<Recommendation>)
  {
    forall i :: 0 <= i < |s| ==> KeyLe(b, KeyOf(s[i]))
  }

  lemma {:induction false} InsertAbove(b: SortKey, x: Recommendation, s: seq<Recommendation>)
    requires AllAbove(b, s) && KeyLe(b, KeyOf(x))
    ensures AllAbove(b, Insert(x, s))
  {
    if s != [] && KeyLe(KeyOf(s[0]), KeyOf(x)) {
      InsertAbove(b, x, s[1..]);
      var t := Insert(x, s[1..]);
      assert Insert(x, s) == [s[0]] + t;
      forall i | 0 <= i < |[s[0]] + t| ensures KeyLe(b, KeyOf(([s[0]] + t)[i])) {
        if i > 0 { assert ([s[0]] + t)[i] == t[i - 1]; }
      }
    }
  }

  lemma {:induction false} InsertSorted(x: Recommendation, s: seq<Recommendation>)
    requires SortedByKey(s)
    ensures SortedByKey(Insert(x, s))
  {
    if s != [] && KeyLe(KeyOf(s[0]), KeyOf(x)) {
      var t := Insert(x, s[1..]);
      assert SortedByKey(s[1..]) by {
        forall i, j | 0 <= i < j < |s[1..]| ensures KeyLe(KeyOf(s[1..][i]), KeyOf(s[1..][j])) {
          assert s[1..][i] == s[i + 1] && s[1..][j] == s[j + 1];
        }
      }
      InsertSorted(x, s[1..]);
      assert AllAbove(KeyOf(s[0]), s[1..]) by {
        forall i | 0 <= i < |s[1..]| ensures KeyLe(KeyOf(s[0]), KeyOf(s[1..][i])) {
          assert s[1..][i] == s[i + 1];
        }
      }
      InsertAbove(KeyOf(s[0]), x, s[1..]);
      var r := [s[0]] + t;
      forall i, j | 0 <= i < j < |r| ensures KeyLe(KeyOf(r[i]), KeyOf(r[j])) {
        assert r[j] == t[j - 1];
        if i > 0 {
          assert r[i] == t[i - 1];
        }
      }
    }
  }

  lemma {:induction false} SortByUrgencySorted(s: seq<Recommendation>)
    ensures SortedByKey(SortByUrgency(s))
  {
    if s != [] {
      SortByUrgencySorted(s[..|s| - 1]);
      InsertSorted(s[|s| - 1], SortByUrgency(s[..|s| - 1]));
    }
  }

  /** The subsequence of elements carrying key k. */
  function WithKey(s: seq<Recommendation>, k: SortKey): seq<Recommendation>
  {
    if s == [] then []
    else (if KeyOf(s[0]) == k then [s[0]] else []) + WithKey(s[1..], k)
  }

  lemma {:induction false} WithKeyAppend(a: seq<Recommendation>, b: seq<Recommendation>, k: SortKey)
    ensures WithKey(a + b, k) == WithKey(a, k) + WithKey(b, k)
  {
    if a == [] {
      assert a + b == b;
    } else {
      assert (a + b)[0] == a[0];
      assert (a + b)[1..] == a[1..] + b;
      WithKeyAppend(a[1..], b, k);
    }
  }

  /** In a sorted sequence whose first key is above k, nothing carries key k. */
  lemma {:induction false} WithKeyAbove(s: seq<Recommendation>, k: SortKey)
    requires SortedByKey(s) && s != [] && !KeyLe(KeyOf(s[0]), k)
    ensures WithKey(s, k) == []
  {
    if |s| > 1 {
      SortedTail(s);
      assert KeyLe(KeyOf(s[0]), KeyOf(s[1]));
      WithKeyAbove(s[1..], k);
    }
  }

  /** The elements of key k of a sequence with x in front. */
  lemma WithKeyCons(x: Recommendation, s: seq<Recommendation>, k: SortKey)
    ensures WithKey([x] + s, k) == (if KeyOf(x) == k then [x] else []) + WithKey(s, k)
  {
    var r := [x] + s;
    assert r[0] == x && r[1..] == s;
  }

  lemma SortedTail(s: seq<Recommendation>)
    requires SortedByKey(s) && s != []
    ensures SortedByKey(s[1..])
  {
    forall i, j | 0 <= i < j < |s[1..]| ensures KeyLe(KeyOf(s[1..][i]), KeyOf(s[1..][j])) {
      assert s[1..][i] == s[i + 1] && s[1..][j] == s[j + 1];
    }
  }

  /** Putting the same element in front of t and of rest keeps the relation
      "t's elements of key k are rest's followed by tail". */
  lemma ConsKeepsKeyOrder(y: Recommendation, t: seq<Recommendation>, rest: seq<Recommendation>, tail: seq<Recommendation>, k: SortKey)
    requires WithKey(t, k) == WithKey(rest, k) + tail
    ensures WithKey([y] + t, k) == WithKey([y] + rest, k) + tail
  {
    var head: seq<Recommendation> := if KeyOf(y) == k then [y] else [];
    WithKeyCons(y, t, k);
    WithKeyCons(y, rest, k);
    assert head + (WithKey(rest, k) + tail) == (head + WithKey(rest, k)) + tail;
  }

  lemma {:induction false} InsertStable(x: Recommendation, s: seq<Recommendation>, k: SortKey)
    requires SortedByKey(s)
    ensures WithKey(Insert(x, s), k) == WithKey(s, k) + (if KeyOf(x) == k then [x] else [])
  {
    var tail: seq<Recommendation> := if KeyOf(x) == k then [x] else [];
    if s == [] {
      assert Insert(x, s) == [x] + s;
      WithKeyCons(x, s, k);
    } else if KeyLe(KeyOf(s[0]), KeyOf(x)) {
      SortedTail(s);
      InsertStable(x, s[1..], k);
      assert Insert(x, s) == [s[0]] + Insert(x, s[1..]);
      assert s == [s[0]] + s[1..];
      ConsKeepsKeyOrder(s[0], Insert(x, s[1..]), s[1..], tail, k);
    } else {
      assert Insert(x, s) == [x] + s;
      WithKeyCons(x, s, k);
      if KeyOf(x) == k {
        WithKeyAbove(s, k);
      }
    }
  }

  /** The sort is stable: elements with equal keys keep their relative order. */
  lemma {:induction false} SortByUrgencyStable(s: seq<Recommendation>, k: SortKey)
    ensures WithKey(SortByUrgency(s), k) == WithKey(s, k)
  {
    if s != [] {
      var init := s[..|s| - 1];
      var x := s[|s| - 1];
      var sortedInit := SortByUrgency(init);
      assert SortByUrgency(s) == Insert(x, sortedInit);
      SortByUrgencyStable(init, k);
      SortByUrgencySorted(init);
      InsertStable(x, sortedInit, k);
      WithKeyCons(x, [], k);
      assert [x] + [] == [x];
      assert s == init + [x];
      WithKeyAppend(init, [x], k);
    }
  }

  /** What the batch sort promises: sorted by key, a permutation, and stable. */
  lemma SortByUrgencyProperties(s: seq<Recommendation>)
    ensures SortedByKey(SortByUrgency(s))
    ensures multiset(SortByUrgency(s)) == multiset(s)
    ensures forall k :: WithKey(SortByUrgency(s), k) == WithKey(s, k)
  {
    SortByUrgencySorted(s);
    SortByUrgencyPermutes(s);
    forall k ensures WithKey(SortByUrgency(s), k) == WithKey(s, k) {
      SortByUrgencyStable(s, k);
    }
  }

  /** The collecting loop of `batch_analyze`: analyse every product that has a
      forecast and keep the recommendations, in product order. */
  method CollectRecommendations(opt: Optimizer, products: seq<Product>, forecasts: map<string, seq<ForecastRow>>, now: real, sqrt: real -> real)
    returns (collected: seq<Recommendation>)
    ensures collected == Collected(opt, products, forecasts, now, sqrt)
  {
    collected := [];
    var i := 0;
    while i < |products|
      invariant 0 <= i <= |products|
      invariant collected == Collected(opt, products[..i], forecasts, now, sqrt)
    {
      var p := products[i];
      var rec: Option<Recommendation> := None;
      if p.sku in forecasts {
        rec := AnalyzeProduct(opt, p, forecasts[p.sku], now, sqrt);
      }
      CollectedStep(opt, products, forecasts, now, sqrt, i, collected, rec);
      if rec.Some? {
        collected := collected + [rec.value];
      }
      i := i + 1;
    }
    assert products[..|products|] == products;
  }

  /** `batch_analyze`: the collected recommendations sorted by urgency rank and
      days to stockout. */
  method BatchAnalyze(opt: Optimizer, products: seq<Product>, forecasts: map<string, seq<ForecastRow>>, now: real, sqrt: real -> real)
    returns (recs: seq<Recommendation>)
    ensures recs == SortByUrgency(Collected(opt, products, forecasts, now, sqrt))
    ensures SortedByKey(recs)
    ensures multiset(recs) == multiset(Collected(opt, products, forecasts, now, sqrt))
    ensures forall k :: WithKey(recs, k) == WithKey(Collected(opt, products, forecasts, now, sqrt), k)
  {
    var collected := CollectRecommendations(opt, products, forecasts, now, sqrt);
    recs := SortByUrgency(collected);
    SortByUrgencyProperties(collected);
  }

  /** The sentinel ties with a known 999 days, and a known 1000 days sorts after it. */
  lemma SentinelOrdering(a: Recommendation, b: Recommendation, c: Recommendation)
    requires a.urgency == b.urgency == c.urgency
    requires a.stockout.NoStockoutInHorizon?
    requires b.stockout.StockoutOn? && b.stockout.daysUntil == 999
    requires c.stockout.StockoutOn? && c.stockout.daysUntil == 1000
    ensures KeyOf(a) == KeyOf(b)
    ensures KeyLe(KeyOf(a), KeyOf(c)) && !KeyLe(KeyOf(c), KeyOf(a))
  {
  }

  // ---------------------------------------------------------------------------
  // calculate_inventory_metrics

  /** How a product's days of stock classify it. */
  datatype StockRisk = AtRisk | LowStock | Adequate | Unassessed

  /** The product has a non-empty forecast with positive mean demand. */
  predicate Assessed(p: Product, forecasts: map<string, seq<ForecastRow>>)
  {
    p.sku in forecasts && |forecasts[p.sku]| > 0 && DemandMean(forecasts[p.sku]) > 0.0
  }

  /** Stock lasts at most k days of demand exactly when it is at most k days' demand. */
  lemma DaysCovered(stock: real, avg: real, k: real)
    requires 0.0 < avg
    ensures stock / avg <= k <==> stock <= k * avg
  {
    assert stock == (stock / avg) * avg;
    if stock / avg <= k {
      MulMonotoneRight(stock / avg, k, avg);
    } else {
      MulMonotoneRight(k, stock / avg, avg);
    }
  }

  lemma MulMonotoneRight(a: real, b: real, c: real)
    requires a <= b && 0.0 < c
    ensures a * c <= b * c
  {
  }

  /** No forecast, an empty forecast (its mean is NaN) or no positive mean demand
      leaves a product unassessed; otherwise stock / mean demand decides. */
  function Classify(p: Product, forecasts: map<string, seq<ForecastRow>>): (c: StockRisk)
    ensures c == Unassessed <==> !Assessed(p, forecasts)
    ensures c == AtRisk <==> Assessed(p, forecasts) && p.currentStock as real <= 7.0 * DemandMean(forecasts[p.sku])
    ensures c == LowStock <==>
      && Assessed(p, forecasts)
      && 7.0 * DemandMean(forecasts[p.sku]) < p.currentStock as real <= 14.0 * DemandMean(forecasts[p.sku])
    ensures c == Adequate <==> Assessed(p, forecasts) && 14.0 * DemandMean(forecasts[p.sku]) < p.currentStock as real
  {
    if p.sku !in forecasts || |forecasts[p.sku]| == 0 then Unassessed
    else
      var avg := DemandMean(forecasts[p.sku]);
      if avg <= 0.0 then Unassessed
      else
        var daysOfStock := p.currentStock as real / avg;
        DaysCovered(p.currentStock as real, avg, 7.0);
        DaysCovered(p.currentStock as real, avg, 14.0);
        if daysOfStock <= 7.0 then AtRisk
        else if daysOfStock <= 14.0 then LowStock
        else Adequate
  }

  function CountRisk(products: seq<Product>, forecasts: map<string, seq<ForecastRow>>, k: StockRisk): (n: nat)
    ensures n <= |products|
  {
    if products == [] then 0
    else
      var last := if Classify(products[|products| - 1], forecasts) == k then 1 else 0;
      CountRisk(products[..|products| - 1], forecasts, k) + last
  }

  lemma {:induction false} RiskCountsFit(products: seq<Product>, forecasts: map<string, seq<ForecastRow>>)
    ensures CountRisk(products, forecasts, AtRisk) + CountRisk(products, forecasts, LowStock) <= |products|
  {
    if products != [] {
      RiskCountsFit(products[..|products| - 1], forecasts);
    }
  }

  function StockValue(products: seq<Product>): real
  {
    if products == [] then 0.0
    else
      var last := products[|products| - 1];
      StockValue(products[..|products| - 1]) + last.currentStock as real * last.unitCost
  }

  function TotalUnits(products: seq<Product>): int
  {
    if products == [] then 0
    else TotalUnits(products[..|products| - 1]) + products[|products| - 1].currentStock
  }

  datatype Metrics = Metrics(
    totalInventoryValue: real,
    totalUnits: int,
    productsAtRisk: nat,
    productsLowStock: nat,
    totalProducts: nat,
    healthScore: real)

  /** The share of products not at risk, as a percentage to one place; 0 for no products. */
  function HealthScore(risks: nat, n: nat): (h: real)
    requires risks <= n
    ensures 0.0 <= h <= 100.0
    ensures n == 0 ==> h == 0.0
    ensures n > 0 && risks == 0 ==> h == 100.0
    ensures n > 0 && risks == n ==> h == 0.0
    ensures n > 0 ==>
      var exact := (1.0 - risks as real / n as real) * 100.0;
      exact - 0.05 <= h <= exact + 0.05
  {
    if n == 0 then 0.0
    else
      var share := risks as real / n as real;
      ShareAtMostOne(risks as real, n as real);
      assert risks == n ==> share == 1.0 by {
        SelfDivide(n as real);
      }
      PercentRounding(share);
      Round1((1.0 - share) * 100.0)
  }

  /** Rounding the percentage of a share to one place keeps it within 0..100 and
      keeps the ends exact. */
  lemma PercentRounding(share: real)
    requires 0.0 <= share <= 1.0
    ensures 0.0 <= Round1((1.0 - share) * 100.0) <= 100.0
    ensures share == 0.0 ==> Round1((1.0 - share) * 100.0) == 100.0
    ensures share == 1.0 ==> Round1((1.0 - share) * 100.0) == 0.0
  {
    var x := (1.0 - share) * 100.0;
    RoundHalfEvenMonotone(0.0, x * 10.0);
    RoundHalfEvenMonotone(x * 10.0, 1000.0);
    RoundHalfEvenOfInt(0);
    RoundHalfEvenOfInt(1000);
  }

  /** More products at risk never raise the health score. */
  lemma HealthScoreAntitone(fewer: nat, more: nat, n: nat)
    requires fewer <= more <= n
    ensures HealthScore(more, n) <= HealthScore(fewer, n)
  {
    if n > 0 && fewer < more {
      DivideMonotone(fewer as real, more as real, n as real);
      var hi := (1.0 - fewer as real / n as real) * 100.0;
      var lo := (1.0 - more as real / n as real) * 100.0;
      RoundHalfEvenMonotone(lo * 10.0, hi * 10.0);
    }
  }

  /** `calculate_inventory_metrics`. */
  method InventoryMetrics(products: seq<Product>, forecasts: map<string, seq<ForecastRow>>) returns (m: Metrics)
    ensures m.totalInventoryValue == Round2(StockValue(products))
    ensures m.totalUnits == TotalUnits(products)
    ensures m.productsAtRisk == CountRisk(products, forecasts, AtRisk)
    ensures m.productsLowStock == CountRisk(products, forecasts, LowStock)
    ensures m.productsAtRisk + m.productsLowStock <= m.totalProducts == |products|
    ensures 0.0 <= m.healthScore <= 100.0
    ensures m.healthScore == HealthScore(m.productsAtRisk, |products|)
  {
    var stockoutRisks := 0;
    var lowStockCount := 0;
    var i := 0;
    while i < |products|
      invariant 0 <= i <= |products|
      invariant stockoutRisks == CountRisk(products[..i], forecasts, AtRisk)
      invariant lowStockCount == CountRisk(products[..i], forecasts, LowStock)
    {
      assert products[..i + 1][..i] == products[..i];
      var p := products[i];
      if p.sku in forecasts {
        var forecast := forecasts[p.sku];
        // the mean of an empty column is NaN, which is not above 0
        if |forecast| > 0 {
          var avgDemand := DemandMean(forecast);
          if avgDemand > 0.0 {
            var daysOfStock := p.currentStock as real / avgDemand;
            if daysOfStock <= 7.0 {
              stockoutRisks := stockoutRisks + 1;
            } else if daysOfStock <= 14.0 {
              lowStockCount := lowStockCount + 1;
            }
          }
        }
      }
      i := i + 1;
    }
    assert products[..|products|] == products;
    RiskCountsFit(products, forecasts);
    m := Metrics(Round2(StockValue(products)), TotalUnits(products), stockoutRisks, lowStockCount,
                 |products|, HealthScore(stockoutRisks, |products|));
  }
}
