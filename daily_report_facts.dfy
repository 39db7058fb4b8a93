/** What the daily-report loader promises: when it fails, what its update holds, and how the
    template's figures follow from the window's orders and feedback. */
module DailyReportFacts {
  import opened Wrappers
  import opened Text
  import opened StateBag
  import opened TimeWindow
  import opened ReportStats
  import opened ProductRanking
  import opened DailyReport

  /** A successful template holds the thirteen figure slots, `star1_rate` to `star5_rate`,
      three slots for each of three ranks in both rankings, and the content: nothing else. */
  lemma TemplateSlots(env: Env, f: Figures, slot: Slot)
    ensures slot in FullTemplate(env, f) <==>
      match slot
      case FigureSlot(i) => i < 13
      case StarRateSlot(b) => b < 5
      case RevenueRankSlot(r, _) => r < 3
      case SalesRankSlot(r, _) => r < 3
      case ContentSlot => true
  {
    AllSlotsComplete(slot);
  }

  /** Every slot of a complete template holds its value. */
  lemma SlotOf(env: Env, f: Figures, slot: Slot)
    requires PutSoFar(slot, FigureCount, StarCount, RankCount, RankCount, true)
    ensures slot in FullTemplate(env, f) && FullTemplate(env, f)[slot] == SlotValue(env, f, slot)
  {
    AllSlotsComplete(slot);
  }

  /** The loader fails exactly when the context is not a job context or the window has no
      order; with no order it is the average price's division by a zero count. */
  lemma LoaderFails(env: Env, bag: Bag)
    ensures Loader(env, bag).Err? <==>
      ContextOf(bag).Err? || ComputeFigures(env, ContextOf(bag).value).count == 0
    ensures ContextOf(bag).Ok? && ComputeFigures(env, ContextOf(bag).value).count == 0 ==>
      Loader(env, bag) == Err(DivideByZero)
  {
  }

  /** A value of another kind under the context key fails the cast before anything is read. */
  lemma ContextCastFails(env: Env, bag: Bag)
    requires ContextKey in bag && !bag[ContextKey].Null? && !bag[ContextKey].JobContext?
    ensures Loader(env, bag) == Err("ClassCastException")
  {
  }

  /**
   * A successful update holds the rendered template under `data_summary`, and holds
   * `access_token` exactly when a job context is present and its parameter carries a token.
   */
  lemma LoaderUpdate(env: Env, bag: Bag)
    requires Loader(env, bag).Ok?
    ensures var u := Loader(env, bag).value;
      var context := ContextOf(bag).value;
      var f := ComputeFigures(env, context);
      && f.count > 0
      && u.Keys <= {DataSummaryKey, AccessTokenKey}
      && DataSummaryKey in u
      && u[DataSummaryKey] == Dict(Render(FullTemplate(env, f), AllSlots))
      && (AccessTokenKey in u <==> TokenOf(context).Some?)
      && (AccessTokenKey in u ==> u[AccessTokenKey] == Str(TokenOf(context).value))
    ensures ContextKey !in bag ==> AccessTokenKey !in Loader(env, bag).value
  {
    LoaderFails(env, bag);
  }

  /** Without a job context the loader reports for shard 0, named store 1. */
  lemma NoContextIsFirstStore(bag: Bag)
    requires ContextKey !in bag
    ensures ContextOf(bag) == Ok(None)
    ensures StoreName(ShardIndex(ContextOf(bag).value)) == "云原生1号门店"
  {
    assert IntToString(1) == "1";
  }

  /** The figures are those of the window's rows: counts of the current and prior windows,
      revenue sums, and the two rankings of the current window's orders. */
  lemma FiguresOfWindow(env: Env, context: Option<Value>)
    ensures var f := ComputeFigures(env, context);
      var w := LoadWindow(env.maxMonth, env.now, env.zoneOffset);
      var today := OrdersIn(env.orders, w);
      && FiguresOf(f, today)
      && f.priorCount == |OrdersIn(env.orders, PriorWindow(w))|
      && f.priorRevenue == SumWeights(OrdersIn(env.orders, PriorWindow(w)), Revenue)
      && f.valid == ValidRatings(FeedbackIn(env.feedback, w))
      && f.revenue == Total(Group(today, Revenue))
      && |f.topByRevenue| == (if |RowIds(today)| < 3 then |RowIds(today)| else 3)
      && |f.topBySales| == (if |RowIds(today)| < 3 then |RowIds(today)| else 3)
      && NonIncreasing(f.topByRevenue) && NonIncreasing(f.topBySales)
  {
    var w := LoadWindow(env.maxMonth, env.now, env.zoneOffset);
    var today := OrdersIn(env.orders, w);
    GroupsSumToTotal(today);
    Top3Facts(today, Revenue);
    Top3Facts(today, Quantity);
  }

  /** Every order row of a window is a stored row, so it carries no negative price when no
      stored row does. */
  lemma WindowPricesNonNegative(env: Env, w: Window)
    requires forall k :: 0 <= k < |env.orders| ==> env.orders[k].totalPrice >= 0
    ensures forall i :: 0 <= i < |OrdersIn(env.orders, w)| ==> WeightOf(Revenue, OrdersIn(env.orders, w)[i]) >= 0
  {
    var rows := OrdersIn(env.orders, w);
    forall i | 0 <= i < |rows| ensures WeightOf(Revenue, rows[i]) >= 0 {
      var k :| 0 <= k < |env.orders| && env.orders[k] == rows[i];
    }
  }

  /** The figures of the day's orders `today`: its revenue and its two rankings. */
  predicate FiguresOf(f: Figures, today: seq<OrderRow>) {
    && f.count == |today|
    && f.revenue == SumWeights(today, Revenue)
    && f.topByRevenue == Top3(Group(today, Revenue))
    && f.topBySales == Top3(Group(today, Quantity))
  }

  /** Rank `i` of a ranking of `today` by `m` is the `i`-th largest per-product sum: no larger
      than the ranks before it, and no product left out of the ranking has a larger sum. */
  predicate RanksIth(today: seq<OrderRow>, m: Measure, top: seq<Entry>, i: nat)
    requires i < |top|
  {
    var sum := SumWeightsFor(today, m, top[i].id);
    && top[i].id in RowIds(today)
    && top[i].value == sum
    && (forall j :: 0 <= j < i ==> top[j].value >= sum)
    && (forall k :: k in RowIds(today) && (forall j :: 0 <= j < |top| ==> top[j].id != k) ==>
          SumWeightsFor(today, m, k) <= sum)
  }

  /** The ranking of `today` by `m` has a rank `i` exactly when the rows hold more than `i`
      products, and that rank is the `i`-th largest per-product sum. */
  lemma {:induction false} RankIth(today: seq<OrderRow>, m: Measure, i: nat)
    requires i < 3
    ensures i < |Top3(Group(today, m))| <==> i < |RowIds(today)|
    ensures i < |Top3(Group(today, m))| ==> RanksIth(today, m, Top3(Group(today, m)), i)
  {
    var top := Top3(Group(today, m));
    Top3Facts(today, m);
    if i < |top| {
      assert top[i] in top;
      forall k | k in RowIds(today) && (forall j :: 0 <= j < |top| ==> top[j].id != k)
        ensures SumWeightsFor(today, m, k) <= top[i].value
      {
        Top3Dominates(today, m, k);
      }
    }
  }

  /**
   * Revenue rank `i` of the report is the `i`-th largest per-product revenue of the day's
   * orders: it names the product, shows that product's summed revenue and its share of the
   * day's revenue. With fewer than `i + 1` products the rank is padded.
   */
  lemma RevenueRankOf(env: Env, f: Figures, today: seq<OrderRow>, i: nat)
    requires i < 3 && FiguresOf(f, today)
    ensures var top := f.topByRevenue;
      && (i < |top| <==> i < |RowIds(today)|)
      && (i < |top| ==>
        && RanksIth(today, Revenue, top, i)
        && SlotValue(env, f, RevenueRankSlot(i, Name)) == Str(ProductName(env, top[i].id))
        && SlotValue(env, f, RevenueRankSlot(i, Amount)) == Str(CentsToString(SumWeightsFor(today, Revenue, top[i].id)))
        && SlotValue(env, f, RevenueRankSlot(i, Share)) ==
             Percent("", Ratio(SumWeightsFor(today, Revenue, top[i].id) * 100, SumWeights(today, Revenue)), 1, ""))
      && (i >= |top| ==>
        && SlotValue(env, f, RevenueRankSlot(i, Name)) == Str("N/A")
        && SlotValue(env, f, RevenueRankSlot(i, Amount)) == Num(0)
        && SlotValue(env, f, RevenueRankSlot(i, Share)) == Str("0.0"))
  {
    RankIth(today, Revenue, i);
    if i < |f.topByRevenue| {
      assert f.topByRevenue[i].value == SumWeightsFor(today, Revenue, f.topByRevenue[i].id);
    }
  }

  /**
   * Quantity rank `i` of the report is the `i`-th largest per-product quantity of the day's
   * orders: it names the product, shows its summed quantity and that quantity as a share of
   * the number of orders. With fewer than `i + 1` products the rank is padded.
   */
  lemma SalesRankOf(env: Env, f: Figures, today: seq<OrderRow>, i: nat)
    requires i < 3 && FiguresOf(f, today)
    ensures var top := f.topBySales;
      && (i < |top| <==> i < |RowIds(today)|)
      && (i < |top| ==>
        && RanksIth(today, Quantity, top, i)
        && SlotValue(env, f, SalesRankSlot(i, Name)) == Str(ProductName(env, top[i].id))
        && SlotValue(env, f, SalesRankSlot(i, Amount)) == Num(SumWeightsFor(today, Quantity, top[i].id))
        && SlotValue(env, f, SalesRankSlot(i, Share)) ==
             Percent("", Ratio(SumWeightsFor(today, Quantity, top[i].id) * 100, |today|), 1, ""))
      && (i >= |top| ==>
        && SlotValue(env, f, SalesRankSlot(i, Name)) == Str("N/A")
        && SlotValue(env, f, SalesRankSlot(i, Amount)) == Num(0)
        && SlotValue(env, f, SalesRankSlot(i, Share)) == Str("0.0"))
  {
    RankIth(today, Quantity, i);
    SalesSlots(env, f, i);
  }

  /** The quantity rank slots read from the figures' ranking. */
  lemma SalesSlots(env: Env, f: Figures, i: nat)
    ensures var top := f.topBySales;
      && (i < |top| ==>
        && SlotValue(env, f, SalesRankSlot(i, Name)) == Str(ProductName(env, top[i].id))
        && SlotValue(env, f, SalesRankSlot(i, Amount)) == Num(top[i].value)
        && SlotValue(env, f, SalesRankSlot(i, Share)) == Percent("", Ratio(top[i].value * 100, f.count), 1, ""))
      && (i >= |top| ==>
        && SlotValue(env, f, SalesRankSlot(i, Name)) == Str("N/A")
        && SlotValue(env, f, SalesRankSlot(i, Amount)) == Num(0)
        && SlotValue(env, f, SalesRankSlot(i, Share)) == Str("0.0"))
  {
  }

  /** With no negative price stored, the three revenue ranks together hold at most the day's
      revenue, so their share numerators add up to at most 100 times it. */
  lemma RevenueRanksWithinRevenue(env: Env, context: Option<Value>)
    requires forall k :: 0 <= k < |env.orders| ==> env.orders[k].totalPrice >= 0
    ensures var f := ComputeFigures(env, context);
      0 <= Total(f.topByRevenue) * 100 <= f.revenue * 100
  {
    var w := LoadWindow(env.maxMonth, env.now, env.zoneOffset);
    WindowPricesNonNegative(env, w);
    Top3WithinTotal(OrdersIn(env.orders, w), Revenue);
  }

  /** With no negative price stored, the revenue of both windows is non-negative. */
  lemma WindowRevenuesNonNegative(env: Env, context: Option<Value>)
    requires forall k :: 0 <= k < |env.orders| ==> env.orders[k].totalPrice >= 0
    ensures ComputeFigures(env, context).revenue >= 0 && ComputeFigures(env, context).priorRevenue >= 0
  {
    var w := LoadWindow(env.maxMonth, env.now, env.zoneOffset);
    WindowPricesNonNegative(env, w);
    WindowPricesNonNegative(env, PriorWindow(w));
    SumsNonNegative(OrdersIn(env.orders, w), Revenue, 0);
    SumsNonNegative(OrdersIn(env.orders, PriorWindow(w)), Revenue, 0);
  }

  /**
   * The growth slots compare the two windows: `sales_growth` is "📈%" exactly when the
   * revenue is at least the prior revenue, `order_change` exactly when the order count is at
   * least the prior count; otherwise each holds the drop as a percentage of the prior figure,
   * which lies in [-100, 0) when the figures are non-negative.
   */
  lemma GrowthShown(env: Env, f: Figures)
    ensures SlotValue(env, f, SalesGrowthSlot) == Str("📈%") <==> f.revenue >= f.priorRevenue
    ensures f.revenue < f.priorRevenue ==>
      SlotValue(env, f, SalesGrowthSlot) ==
        Percent("📉 ", Ratio((f.revenue - f.priorRevenue) * 100, f.priorRevenue), 2, "%")
    ensures 0 <= f.revenue < f.priorRevenue ==>
      -100 * f.priorRevenue <= (f.revenue - f.priorRevenue) * 100 < 0
    ensures SlotValue(env, f, OrderChangeSlot) == Str("📈%") <==> f.count >= f.priorCount
    ensures f.count < f.priorCount ==>
      && SlotValue(env, f, OrderChangeSlot) ==
           Percent("📉", Ratio((f.count - f.priorCount) * 100, f.priorCount), 2, "%")
      && (0 <= f.count ==> -100 * f.priorCount <= (f.count - f.priorCount) * 100 < 0)
  {
  }

  /** With every stored rating within 1..5, so is every rating of the window. */
  lemma WindowRatingsInRange(env: Env, context: Option<Value>)
    requires forall k :: 0 <= k < |env.feedback| && env.feedback[k].rating.Some? ==>
      1 <= env.feedback[k].rating.value <= 5
    ensures InStarRange(ComputeFigures(env, context).valid)
  {
    var f := ComputeFigures(env, context);
    var rows := FeedbackIn(env.feedback, LoadWindow(env.maxMonth, env.now, env.zoneOffset));
    forall i | 0 <= i < |f.valid| ensures 1 <= f.valid[i] <= 5 {
      ValidRatingsComeFromRows(rows, i);
      var j :| 0 <= j < |rows| && rows[j].rating == Some(f.valid[i]);
      var k :| 0 <= k < |env.feedback| && env.feedback[k] == rows[j];
    }
  }

  /**
   * With ratings within 1..5 and at least one of them, the five star slots and the three
   * sentiment slots are shares of the number of ratings whose numerators add up to 100 times
   * that number: each group of slots sums to 100%.
   */
  lemma RatingSharesSumToHundred(env: Env, f: Figures)
    requires InStarRange(f.valid) && |f.valid| > 0
    ensures forall b :: 0 <= b < 5 ==>
      SlotValue(env, f, StarRateSlot(b)).Percent? && SlotValue(env, f, StarRateSlot(b)).ratio.den == |f.valid|
    ensures SlotValue(env, f, StarRateSlot(0)).ratio.num + SlotValue(env, f, StarRateSlot(1)).ratio.num
      + SlotValue(env, f, StarRateSlot(2)).ratio.num + SlotValue(env, f, StarRateSlot(3)).ratio.num
      + SlotValue(env, f, StarRateSlot(4)).ratio.num == 100 * |f.valid|
    ensures && SlotValue(env, f, PositiveRateSlot).ratio.den == |f.valid|
      && SlotValue(env, f, NeutralRateSlot).ratio.den == |f.valid|
      && SlotValue(env, f, NegativeRateSlot).ratio.den == |f.valid|
    ensures SlotValue(env, f, PositiveRateSlot).ratio.num + SlotValue(env, f, NeutralRateSlot).ratio.num
      + SlotValue(env, f, NegativeRateSlot).ratio.num == 100 * |f.valid|
  {
    HistogramTotal(f.valid);
    RatesSumToHundred(f.valid);
  }

  /** The quantity share is over the number of orders: one order of two cups gives 200%. */
  lemma SalesShareCanExceedHundred(env: Env)
    requires env.maxMonth == None && env.orders == [OrderRow(7, 2, 1000, env.now)]
    ensures var f := ComputeFigures(env, None);
      && f.topBySales == [Entry(7, 2)] && f.count == 1
      && SlotValue(env, f, SalesRankSlot(0, Share)) == Percent("", Ratio(200, 1), 1, "")
  {
    OneOrderFigures(env);
  }

  /** The figures of a window holding one order of two cups of product 7. */
  lemma OneOrderFigures(env: Env)
    requires env.maxMonth == None && env.orders == [OrderRow(7, 2, 1000, env.now)]
    ensures ComputeFigures(env, None).topBySales == [Entry(7, 2)]
    ensures ComputeFigures(env, None).count == 1
  {
    var w := LoadWindow(None, env.now, env.zoneOffset);
    assert OrdersIn(env.orders, w) == env.orders;
    assert Group(env.orders, Quantity) == [Entry(7, 2)];
    assert Sort([Entry(7, 2)]) == [Entry(7, 2)];
  }
}
