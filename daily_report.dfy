/**
 * The data-loader stage of the daily store report: it reads the feedback and the orders of
 * the report window, computes the review statistics and the two product rankings, fills the
 * template slots of the report prompt, and passes on the job's access token.
 */
module DailyReport {
  import opened Wrappers
  import opened Text
  import opened StateBag
  import opened TimeWindow
  import opened ReportStats
  import opened ProductRanking

  /** A product row: name, unit price in cents and description, each possibly null. */
  datatype Product = Product(name: Option<string>, price: Option<int>, description: Option<string>)

  /**
   * What the loader reads from outside. `maxMonth` is the store's latest month with data (its
   * query reads the feedback table); `products` is the product lookup, where a lookup that
   * raises behaves as a missing product. `format1` renders a double with `"%.1f"`; the
   * clock gives `now`, the zone offset, the rendered `report_date`, and the date and time
   * rendered for `report_time`. The two dates are separate readings of `LocalDate.now()`,
   * so a run that crosses midnight between them shows different days.
   */
  datatype Env = Env(
    maxMonth: Option<string>,
    feedback: seq<FeedbackRow>,
    orders: seq<OrderRow>,
    products: map<int, Product>,
    now: int,
    zoneOffset: int,
    reportDate: string,
    reportTimeDate: string,
    reportTime: string,
    format1: Ratio -> string)

  const ContextKey: string := "xxl-job-context"
  const DataSummaryKey: string := "data_summary"
  const AccessTokenKey: string := "access_token"

  /** The three slots of one ranked product. */
  datatype Field = Name | Amount | Share

  /**
   * A slot of the report template; `SlotName` gives the key it is stored under. The thirteen
   * figure slots are numbered in the order the loader puts them.
   */
  datatype Slot =
    | FigureSlot(index: nat)
    /** `star<i+1>_rate` */
    | StarRateSlot(bucket: nat)
    /** `r_product<i+1>`, `r_product<i+1>_quantity`, `r_product<i+1>_percentage` */
    | RevenueRankSlot(rank: nat, field: Field)
    /** `product<i+1>`, `product<i+1>_quantity`, `product<i+1>_percentage` */
    | SalesRankSlot(rank: nat, field: Field)
    | ContentSlot

  const FigureCount: nat := 13
  const StoreNameSlot: Slot := FigureSlot(0)
  const FeedbacksSlot: Slot := FigureSlot(1)
  const TotalSalesSlot: Slot := FigureSlot(2)
  const YesterdayTotalSalesSlot: Slot := FigureSlot(3)
  const TotalRevenueSlot: Slot := FigureSlot(4)
  const AvgPriceSlot: Slot := FigureSlot(5)
  const SalesGrowthSlot: Slot := FigureSlot(6)
  const OrderChangeSlot: Slot := FigureSlot(7)
  const PositiveRateSlot: Slot := FigureSlot(8)
  const NeutralRateSlot: Slot := FigureSlot(9)
  const NegativeRateSlot: Slot := FigureSlot(10)
  const ReportDateSlot: Slot := FigureSlot(11)
  const ReportTimeSlot: Slot := FigureSlot(12)

  /** The keys of the figure slots, by number. */
  const FigureNames: seq<string> := [
    "store_name", "feedbacks", "total_sales", "yesterday_total_sales", "total_revenue",
    "avg_price", "sales_growth", "order_change", "positive_rate", "neutral_rate", "negative_rate",
    "report_date", "report_time"]

  function FieldSuffix(field: Field): string {
    match field
    case Name => ""
    case Amount => "_quantity"
    case Share => "_percentage"
  }

  /** The template key of a slot, as the report prompt names it (none for a figure number
      past the last figure). */
  function SlotName(slot: Slot): string {
    match slot
    case FigureSlot(i) => if i < |FigureNames| then FigureNames[i] else ""
    case StarRateSlot(i) => "star" + NatToString(i + 1) + "_rate"
    case RevenueRankSlot(i, field) => "r_product" + NatToString(i + 1) + FieldSuffix(field)
    case SalesRankSlot(i, field) => "product" + NatToString(i + 1) + FieldSuffix(field)
    case ContentSlot => "content"
  }

  /** The three slots of a rank, in the order the loader puts them. */
  const Fields: seq<Field> := [Name, Amount, Share]

  /** The slots of `n` ranks of one ranking, three per rank, in the order the loader puts them. */
  function RankSlotList(revenue: bool, n: nat): (r: seq<Slot>)
    ensures |r| == 3 * n
  {
    seq(3 * n, k requires 0 <= k => if revenue then RevenueRankSlot(k / 3, Fields[k % 3]) else SalesRankSlot(k / 3, Fields[k % 3]))
  }

  /**
   * Every slot the loader puts, in the order it puts them: the figures, `star1_rate` to
   * `star5_rate`, the three slots of each revenue rank, those of each quantity rank, and the
   * content.
   */
  function AllSlotList(): (r: seq<Slot>)
    ensures |r| == 37
  {
    seq(FigureCount, i requires 0 <= i => FigureSlot(i))
    + seq(StarCount, b requires 0 <= b => StarRateSlot(b))
    + RankSlotList(true, RankCount)
    + RankSlotList(false, RankCount)
    + [ContentSlot]
  }

  const AllSlots: seq<Slot> := AllSlotList()

  type Template = map<Slot, Value>

  /** The number of ranks each ranking fills and the number of star buckets. */
  const RankCount: nat := 3
  const StarCount: nat := 5

  /** The template as the string-keyed map the next stage reads: each slot under its name. */
  function Render(t: Template, slots: seq<Slot>): map<string, Value> {
    if slots == [] then map[]
    else
      var last := slots[|slots| - 1];
      var m := Render(t, slots[..|slots| - 1]);
      if last in t then m[SlotName(last) := t[last]] else m
  }

  /** The rendered map holds the name of each listed slot that the template fills, and nothing else. */
  lemma {:induction false} RenderKeys(t: Template, slots: seq<Slot>)
    ensures Render(t, slots).Keys == set s | s in slots && s in t :: SlotName(s)
    decreases |slots|
  {
    if slots != [] {
      var init, last := slots[..|slots| - 1], slots[|slots| - 1];
      assert slots == init + [last];
      RenderKeys(t, init);
      assert forall s :: s in slots <==> s in init || s == last;
    }
  }

  /** The feedback rows whose creation instant lies in the window, in store order. */
  function FeedbackIn(rows: seq<FeedbackRow>, w: Window): (r: seq<FeedbackRow>)
    ensures |r| <= |rows|
    ensures forall i :: 0 <= i < |r| ==> InWindow(r[i].createdAt, w) && r[i] in rows
  {
    if rows == [] then []
    else
      var rest := FeedbackIn(rows[..|rows| - 1], w);
      if InWindow(rows[|rows| - 1].createdAt, w) then rest + [rows[|rows| - 1]] else rest
  }

  /** The order rows whose creation instant lies in the window, in store order. */
  function OrdersIn(rows: seq<OrderRow>, w: Window): (r: seq<OrderRow>)
    ensures |r| <= |rows|
    ensures forall i :: 0 <= i < |r| ==> InWindow(r[i].createdAt, w) && r[i] in rows
  {
    if rows == [] then []
    else
      var rest := OrdersIn(rows[..|rows| - 1], w);
      if InWindow(rows[|rows| - 1].createdAt, w) then rest + [rows[|rows| - 1]] else rest
  }

  function Texts(rows: seq<FeedbackRow>): (r: seq<string>)
    ensures |r| == |rows| && forall i :: 0 <= i < |rows| ==> r[i] == rows[i].formatted
  {
    seq(|rows|, i requires 0 <= i < |rows| => rows[i].formatted)
  }

  function StrList(items: seq<string>): (r: seq<Value>)
    ensures |r| == |items| && forall i :: 0 <= i < |items| ==> r[i] == Str(items[i])
  {
    seq(|items|, i requires 0 <= i < |items| => Str(items[i]))
  }

  /** The job context in the state: absent or null gives none; any other kind of value
      fails the cast and raises. */
  function ContextOf(bag: Bag): (r: Result<Option<Value>>)
    ensures r.Ok? && r.value.Some? ==> r.value.value.JobContext?
  {
    if ContextKey !in bag || bag[ContextKey].Null? then Ok(None)
    else if bag[ContextKey].JobContext? then Ok(Some(bag[ContextKey]))
    else Err("ClassCastException")
  }

  /** The shard index of the context, 0 without one. */
  function ShardIndex(context: Option<Value>): int {
    if context.Some? && context.value.JobContext? then context.value.shardIndex else 0
  }

  /** The token of the job parameter; a parameter that does not decode, or that has no token,
      gives none (the loader swallows that failure). */
  function TokenOf(context: Option<Value>): (r: Option<string>)
    ensures r.Some? ==> context.Some? && context.value.JobContext?
  {
    if context.Some? && context.value.JobContext? && context.value.jobParam.Some?
      && AccessTokenKey in context.value.jobParam.value
    then Some(context.value.jobParam.value[AccessTokenKey])
    else None
  }

  function StoreName(shardIndex: int): string {
    "云原生" + IntToString(shardIndex + 1) + "号门店"
  }

  function Abs(x: int): nat {
    if x < 0 then -x else x
  }

  /** `divide(count, 2, HALF_UP)` on cents: the nearest integer, halves rounded away from zero. */
  function DivHalfUp(a: int, b: int): (q: int)
    requires b > 0
    ensures a >= 0 ==> q >= 0 && -b <= 2 * (a - q * b) < b
    ensures a < 0 ==> q <= 0 && -b < 2 * (a - q * b) <= b
  {
    var m := Abs(a);
    var r := (2 * m + b) / (2 * b);
    HalfUpBounds(m, b);
    NegMul(r, b);
    if a < 0 then -r else r
  }

  /** Rounding half up of a natural quotient lands within half the divisor. */
  lemma HalfUpBounds(m: nat, b: int)
    requires b > 0
    ensures var r := (2 * m + b) / (2 * b); r >= 0 && -b <= 2 * (m - r * b) < b
  {
    var r := (2 * m + b) / (2 * b);
    DivBounds(2 * m + b, 2 * b);
    Double(r, b);
  }

  lemma Double(r: int, b: int)
    ensures r * (2 * b) == 2 * (r * b)
  {
  }

  lemma NegMul(r: int, b: int)
    ensures (-r) * b == -(r * b)
  {
  }

  /** The floor quotient of a natural number brackets it between two multiples of the divisor. */
  lemma DivBounds(n: nat, b: int)
    requires b > 0
    ensures 0 <= (n / b) * b <= n < (n / b) * b + b
  {
    var q, r := n / b, n % b;
    assert n == b * q + r && 0 <= r < b;
    assert q * b == b * q;
    assert 0 <= q;
  }

  /** The message of the `ArithmeticException` that BigDecimal's division with a scale and a
      rounding mode raises for a zero divisor: the long division inside it fails. */
  const DivideByZero: string := "/ by zero"

  /** `avg_price`: revenue over order count, rounded half up; raises when the count is 0. */
  function AvgPrice(revenue: int, count: int): (r: Result<int>)
    requires count >= 0
    ensures r.Err? <==> count == 0
    ensures r.Err? ==> r.message == DivideByZero
    ensures r.Ok? ==> 2 * Abs(revenue - r.value * count) <= count
  {
    if count == 0 then Err(DivideByZero)
    else Ok(DivHalfUp(revenue, count))
  }

  /** `sales_growth`: the format string holds no number when revenue did not drop. */
  function SalesGrowth(revenue: int, priorRevenue: int): Value {
    if revenue - priorRevenue >= 0 then Str("📈%")
    else Percent("📉 ", Ratio((revenue - priorRevenue) * 100, priorRevenue), 2, "%")
  }

  /** `order_change`: as `sales_growth`, with no space after the arrow. */
  function OrderChange(count: int, priorCount: int): Value {
    if count - priorCount >= 0 then Str("📈%")
    else Percent("📉", Ratio((count - priorCount) * 100, priorCount), 2, "%")
  }

  function ProductOf(env: Env, id: int): Option<Product> {
    if id in env.products then Some(env.products[id]) else None
  }

  /** The product's name, or `"Product " + id` when the product or its name is missing. */
  function ProductName(env: Env, id: int): (name: string)
    ensures ProductOf(env, id).None? ==> name == "Product " + IntToString(id)
  {
    match ProductOf(env, id)
    case Some(Product(Some(n), _, _)) => n
    case _ => "Product " + IntToString(id)
  }

  /** String concatenation of a possibly null value renders null as "null". */
  function OrNull(s: Option<string>): string {
    if s.Some? then s.value else "null"
  }

  function PriceText(p: Option<Product>): string {
    match p
    case None => ""
    case Some(product) => if product.price.Some? then CentsToString(product.price.value) else "null"
  }

  function DescriptionText(p: Option<Product>): string {
    match p
    case None => ""
    case Some(product) => OrNull(product.description)
  }

  /** The values of one rank's three slots. */
  datatype RankValues = RankValues(name: Value, amount: Value, share: Value)

  function RankValue(v: RankValues, field: Field): Value {
    match field
    case Name => v.name
    case Amount => v.amount
    case Share => v.share
  }

  /** The padding of a rank past the end of its ranking. */
  const Padding: RankValues := RankValues(Str("N/A"), Num(0), Str("0.0"))

  /** Revenue rank `i`: the product's name, its revenue and its share of the total revenue. */
  function RevenueValues(env: Env, top: seq<Entry>, i: nat, revenue: int): RankValues {
    if i < |top| then
      RankValues(Str(ProductName(env, top[i].id)), Str(CentsToString(top[i].value)),
        Percent("", Ratio(top[i].value * 100, revenue), 1, ""))
    else Padding
  }

  /** Quantity rank `i`: the product's name, its quantity and its share. The share is taken
      over the number of orders, not over the total quantity. */
  function SalesValues(env: Env, top: seq<Entry>, i: nat, count: int): RankValues {
    if i < |top| then
      RankValues(Str(ProductName(env, top[i].id)), Num(top[i].value),
        Percent("", Ratio(top[i].value * 100, count), 1, ""))
    else Padding
  }

  /** The content line of revenue rank `i` (none for a padded rank). */
  function RevenueLine(env: Env, top: seq<Entry>, i: nat, revenue: int): string {
    if i < |top| then
      var p := ProductOf(env, top[i].id);
      ProductName(env, top[i].id) + " 销售额排名第" + NatToString(i + 1) + "，销售额为 "
        + CentsToString(top[i].value) + "，占比为 " + env.format1(Ratio(top[i].value * 100, revenue))
        + "%, 产品单价：" + PriceText(p) + ", 产品描述：" + DescriptionText(p) + "\n"
    else ""
  }

  function RevenueLines(env: Env, top: seq<Entry>, n: nat, revenue: int): string {
    if n == 0 then "" else RevenueLines(env, top, n - 1, revenue) + RevenueLine(env, top, n - 1, revenue)
  }

  /** The content line of quantity rank `i` (none for a padded rank). */
  function SalesLine(env: Env, top: seq<Entry>, i: nat, count: int): string {
    if i < |top| then
      ProductName(env, top[i].id) + " 销售量排名第" + NatToString(i + 1) + "，销量为 "
        + IntToString(top[i].value) + "，占比为 " + env.format1(Ratio(top[i].value * 100, count))
        + "%, 产品描述：" + DescriptionText(ProductOf(env, top[i].id)) + "\n"
    else ""
  }

  function SalesLines(env: Env, top: seq<Entry>, n: nat, count: int): string {
    if n == 0 then "" else SalesLines(env, top, n - 1, count) + SalesLine(env, top, n - 1, count)
  }

  /** The figures the slots are filled from, all computed from the loaded rows. */
  datatype Figures = Figures(
    shardIndex: int,
    feedbacks: seq<string>,
    valid: seq<int>,
    count: nat,
    priorCount: nat,
    revenue: int,
    priorRevenue: int,
    topBySales: seq<Entry>,
    topByRevenue: seq<Entry>)

  function ComputeFigures(env: Env, context: Option<Value>): (f: Figures)
    ensures |f.topBySales| <= RankCount && |f.topByRevenue| <= RankCount
  {
    var w := LoadWindow(env.maxMonth, env.now, env.zoneOffset);
    var rows := FeedbackIn(env.feedback, w);
    var today := OrdersIn(env.orders, w);
    var prior := OrdersIn(env.orders, PriorWindow(w));
    Figures(ShardIndex(context), Texts(rows), ValidRatings(rows), |today|, |prior|,
      SumWeights(today, Revenue), SumWeights(prior, Revenue),
      Top3(Group(today, Quantity)), Top3(Group(today, Revenue)))
  }

  function ContentHead(f: Figures): string {
    "用户评价反馈信息：\n" + Join(f.feedbacks, "\n") + "\n产品销量说明：\n"
  }

  /** The full `content` slot: feedback texts, then the revenue lines, then the sales lines. */
  function Content(env: Env, f: Figures): string {
    ContentHead(f) + RevenueLines(env, f.topByRevenue, RankCount, f.revenue)
      + SalesLines(env, f.topBySales, RankCount, f.count)
  }

  /** The `avg_price` slot; without orders the loader raises before putting it. */
  function AvgValue(f: Figures): Value {
    match AvgPrice(f.revenue, f.count)
    case Ok(avg) => Cents(avg)
    case Err(_) => Null
  }

  /** What the loader puts in the figure slots, by number. */
  function FigureValues(env: Env, f: Figures): (vs: seq<Value>)
    ensures |vs| == FigureCount
  {
    var n := |f.valid|;
    [ Str(StoreName(f.shardIndex)), List(StrList(f.feedbacks)), Num(f.count), Num(f.priorCount),
      Str(CentsToString(f.revenue)), AvgValue(f),
      SalesGrowth(f.revenue, f.priorRevenue), OrderChange(f.count, f.priorCount),
      Percent("", Rate(Count(f.valid, IsPositive), n), 0, "%"),
      Percent("", Rate(Count(f.valid, IsNeutral), n), 0, "%"),
      Percent("", Rate(Count(f.valid, IsNegative), n), 0, "%"),
      Str(env.reportDate), Str(env.reportTimeDate + " " + env.reportTime)]
  }

  /** What the loader puts in each slot. */
  function SlotValue(env: Env, f: Figures, slot: Slot): Value {
    match slot
    case FigureSlot(i) => if i < FigureCount then FigureValues(env, f)[i] else Null
    case StarRateSlot(i) => Percent("", Rate(CountStar(f.valid, i + 1), |f.valid|), 0, "")
    case RevenueRankSlot(i, field) => RankValue(RevenueValues(env, f.topByRevenue, i, f.revenue), field)
    case SalesRankSlot(i, field) => RankValue(SalesValues(env, f.topBySales, i, f.count), field)
    case ContentSlot => Str(Content(env, f))
  }

  /** The slots present once the first `figures` figure slots, the first `stars` star slots,
      the first `revenueRanks` and `salesRanks` ranks, and (when `content` holds) the content
      have been put. */
  predicate PutSoFar(slot: Slot, figures: nat, stars: nat, revenueRanks: nat, salesRanks: nat, content: bool) {
    match slot
    case FigureSlot(i) => i < figures
    case StarRateSlot(i) => i < stars
    case RevenueRankSlot(i, _) => i < revenueRanks
    case SalesRankSlot(i, _) => i < salesRanks
    case ContentSlot => content
  }

  /** `t` holds exactly the slots put so far, each with its value. */
  ghost predicate Filled(t: Template, env: Env, f: Figures, figures: nat, stars: nat, revenueRanks: nat, salesRanks: nat, content: bool) {
    && (forall slot :: slot in t <==> PutSoFar(slot, figures, stars, revenueRanks, salesRanks, content))
    && (forall slot :: slot in t ==> t[slot] == SlotValue(env, f, slot))
  }

  /** `AllSlots` lists exactly the slots of a complete template. */
  lemma AllSlotsComplete(slot: Slot)
    ensures slot in AllSlots <==> PutSoFar(slot, FigureCount, StarCount, RankCount, RankCount, true)
  {
    if PutSoFar(slot, FigureCount, StarCount, RankCount, RankCount, true) {
      match slot
      case FigureSlot(i) => assert slot == AllSlots[i];
      case StarRateSlot(b) => assert slot == AllSlots[13 + b];
      case RevenueRankSlot(r, field) =>
        var k := match field case Name => 0 case Amount => 1 case Share => 2;
        assert slot == AllSlots[18 + 3 * r + k];
      case SalesRankSlot(r, field) =>
        var k := match field case Name => 0 case Amount => 1 case Share => 2;
        assert slot == AllSlots[27 + 3 * r + k];
      case ContentSlot => assert slot == AllSlots[36];
    }
  }

  /** The template of a successful run: every slot of `AllSlots`, each with its value. */
  function FullTemplate(env: Env, f: Figures): (t: Template)
    ensures forall slot :: slot in t <==> PutSoFar(slot, FigureCount, StarCount, RankCount, RankCount, true)
    ensures forall slot :: slot in t ==> t[slot] == SlotValue(env, f, slot)
  {
    assert forall slot :: slot in AllSlots <==> PutSoFar(slot, FigureCount, StarCount, RankCount, RankCount, true) by {
      forall slot ensures slot in AllSlots <==> PutSoFar(slot, FigureCount, StarCount, RankCount, RankCount, true) {
        AllSlotsComplete(slot);
      }
    }
    map slot | slot in AllSlots :: SlotValue(env, f, slot)
  }

  lemma FilledIsFull(t: Template, env: Env, f: Figures)
    requires Filled(t, env, f, FigureCount, StarCount, RankCount, RankCount, true)
    ensures t == FullTemplate(env, f)
  {
  }

  /** The update of the data-loader stage. */
  function Loader(env: Env, bag: Bag): Result<Bag> {
    match ContextOf(bag)
    case Err(e) => Err(e)
    case Ok(context) =>
      var f := ComputeFigures(env, context);
      match AvgPrice(f.revenue, f.count)
      case Err(e) => Err(e)
      case Ok(_) =>
        var token := TokenOf(context);
        var summary := map[DataSummaryKey := Dict(Render(FullTemplate(env, f), AllSlots))];
        Ok(if token.Some? then summary[AccessTokenKey := Str(token.value)] else summary)
  }

  lemma AppendAssoc(a: string, b: string, x: string)
    ensures (a + b) + x == a + (b + x)
  {
  }

  /** The template once the first `k` figure slots are put. */
  function FigureTemplate(env: Env, f: Figures, k: nat): Template
    requires k <= FigureCount
  {
    if k == 0 then map[] else FigureTemplate(env, f, k - 1)[FigureSlot(k - 1) := FigureValues(env, f)[k - 1]]
  }

  /** The figure slots put so far hold their values and nothing else is put. */
  lemma {:induction false} FigureTemplateFilled(env: Env, f: Figures, k: nat)
    requires k <= FigureCount
    ensures Filled(FigureTemplate(env, f, k), env, f, k, 0, 0, 0, false)
  {
    if k > 0 {
      FigureTemplateFilled(env, f, k - 1);
      var prev, t := FigureTemplate(env, f, k - 1), FigureTemplate(env, f, k);
      var put := FigureSlot(k - 1);
      assert t == prev[put := SlotValue(env, f, put)];
      forall slot ensures slot in t <==> PutSoFar(slot, k, 0, 0, 0, false) {
        assert slot in t <==> slot in prev || slot == put;
      }
    }
  }

  /** The slots put before the average price, which may raise. */
  method PutCounts(env: Env, f: Figures) returns (t: Template)
    ensures t == FigureTemplate(env, f, 5)
  {
    t := map[];
    t := t[StoreNameSlot := Str(StoreName(f.shardIndex))];
    assert t == FigureTemplate(env, f, 1);
    t := t[FeedbacksSlot := List(StrList(f.feedbacks))];
    assert t == FigureTemplate(env, f, 2);
    t := t[TotalSalesSlot := Num(f.count)];
    assert t == FigureTemplate(env, f, 3);
    t := t[YesterdayTotalSalesSlot := Num(f.priorCount)];
    assert t == FigureTemplate(env, f, 4);
    t := t[TotalRevenueSlot := Str(CentsToString(f.revenue))];
  }

  /** The slots put after the average price: growth, rates and the report date and time. */
  method PutRates(env: Env, f: Figures, templateData: Template, avg: int) returns (t: Template)
    requires templateData == FigureTemplate(env, f, 5)
    requires AvgPrice(f.revenue, f.count) == Ok(avg)
    ensures t == FigureTemplate(env, f, FigureCount)
  {
    var n := |f.valid|;
    t := templateData[AvgPriceSlot := Cents(avg)];
    assert t == FigureTemplate(env, f, 6);
    t := t[SalesGrowthSlot := SalesGrowth(f.revenue, f.priorRevenue)];
    assert t == FigureTemplate(env, f, 7);
    t := t[OrderChangeSlot := OrderChange(f.count, f.priorCount)];
    assert t == FigureTemplate(env, f, 8);
    t := t[PositiveRateSlot := Percent("", Rate(Count(f.valid, IsPositive), n), 0, "%")];
    assert t == FigureTemplate(env, f, 9);
    t := t[NeutralRateSlot := Percent("", Rate(Count(f.valid, IsNeutral), n), 0, "%")];
    assert t == FigureTemplate(env, f, 10);
    t := t[NegativeRateSlot := Percent("", Rate(Count(f.valid, IsNegative), n), 0, "%")];
    assert t == FigureTemplate(env, f, 11);
    t := t[ReportDateSlot := Str(env.reportDate)];
    assert t == FigureTemplate(env, f, 12);
    t := t[ReportTimeSlot := Str(env.reportTimeDate + " " + env.reportTime)];
  }

  /** The star-rate loop: slot `star<i+1>_rate` gets the percentage of bucket `i`. */
  method PutStarRates(env: Env, f: Figures, templateData: Template, pct: seq<Ratio>) returns (t: Template)
    requires Filled(templateData, env, f, FigureCount, 0, 0, 0, false)
    requires |pct| == StarCount && forall i :: 0 <= i < StarCount ==> pct[i] == Rate(CountStar(f.valid, i + 1), |f.valid|)
    ensures Filled(t, env, f, FigureCount, StarCount, 0, 0, false)
  {
    t := templateData;
    for i := 0 to StarCount
      invariant Filled(t, env, f, FigureCount, i, 0, 0, false)
    {
      t := t[StarRateSlot(i) := Percent("", pct[i], 0, "")];
    }
  }

  /** Putting rank `i` of the revenue ranking extends a template filled up to rank `i`. */
  lemma PutRevenueRank(t: Template, env: Env, f: Figures, i: nat)
    requires Filled(t, env, f, FigureCount, StarCount, i, 0, false)
    ensures var v := RevenueValues(env, f.topByRevenue, i, f.revenue);
      Filled(t[RevenueRankSlot(i, Name) := v.name][RevenueRankSlot(i, Amount) := v.amount][RevenueRankSlot(i, Share) := v.share],
        env, f, FigureCount, StarCount, i + 1, 0, false)
  {
    var v := RevenueValues(env, f.topByRevenue, i, f.revenue);
    var u := t[RevenueRankSlot(i, Name) := v.name][RevenueRankSlot(i, Amount) := v.amount][RevenueRankSlot(i, Share) := v.share];
    forall slot ensures slot in u <==> PutSoFar(slot, FigureCount, StarCount, i + 1, 0, false) {
      if slot.RevenueRankSlot? && slot.rank == i {
        match slot.field
        case Name =>
        case Amount =>
        case Share =>
      }
    }
  }

  /** Putting rank `i` of the quantity ranking extends a template filled up to rank `i`. */
  lemma PutSalesRank(t: Template, env: Env, f: Figures, i: nat)
    requires Filled(t, env, f, FigureCount, StarCount, RankCount, i, false)
    ensures var v := SalesValues(env, f.topBySales, i, f.count);
      Filled(t[SalesRankSlot(i, Name) := v.name][SalesRankSlot(i, Amount) := v.amount][SalesRankSlot(i, Share) := v.share],
        env, f, FigureCount, StarCount, RankCount, i + 1, false)
  {
    var v := SalesValues(env, f.topBySales, i, f.count);
    var u := t[SalesRankSlot(i, Name) := v.name][SalesRankSlot(i, Amount) := v.amount][SalesRankSlot(i, Share) := v.share];
    forall slot ensures slot in u <==> PutSoFar(slot, FigureCount, StarCount, RankCount, i + 1, false) {
      if slot.SalesRankSlot? && slot.rank == i {
        match slot.field
        case Name =>
        case Amount =>
        case Share =>
      }
    }
  }

  /** The revenue-ranking loop: three slots per rank, padded past the ranking's end, and one
      content line per ranked product. */
  method PutRevenueSlots(env: Env, f: Figures, templateData: Template, content: string)
    returns (t: Template, c: string)
    requires Filled(templateData, env, f, FigureCount, StarCount, 0, 0, false)
    ensures Filled(t, env, f, FigureCount, StarCount, RankCount, 0, false)
    ensures c == content + RevenueLines(env, f.topByRevenue, RankCount, f.revenue)
  {
    var top, revenue := f.topByRevenue, f.revenue;
    t, c := templateData, content;
    for i := 0 to RankCount
      invariant Filled(t, env, f, FigureCount, StarCount, i, 0, false)
      invariant c == content + RevenueLines(env, top, i, revenue)
    {
      PutRevenueRank(t, env, f, i);
      if i < |top| {
        var name := ProductName(env, top[i].id);
        var percentage := Ratio(top[i].value * 100, revenue);
        t := t[RevenueRankSlot(i, Name) := Str(name)];
        t := t[RevenueRankSlot(i, Amount) := Str(CentsToString(top[i].value))];
        t := t[RevenueRankSlot(i, Share) := Percent("", percentage, 1, "")];
      } else {
        t := t[RevenueRankSlot(i, Name) := Str("N/A")];
        t := t[RevenueRankSlot(i, Amount) := Num(0)];
        t := t[RevenueRankSlot(i, Share) := Str("0.0")];
      }
      AppendAssoc(content, RevenueLines(env, top, i, revenue), RevenueLine(env, top, i, revenue));
      c := c + RevenueLine(env, top, i, revenue);
    }
  }

  /** The quantity-ranking loop, as the revenue one with the share over the order count. */
  method PutSalesSlots(env: Env, f: Figures, templateData: Template, content: string)
    returns (t: Template, c: string)
    requires Filled(templateData, env, f, FigureCount, StarCount, RankCount, 0, false)
    ensures Filled(t, env, f, FigureCount, StarCount, RankCount, RankCount, false)
    ensures c == content + SalesLines(env, f.topBySales, RankCount, f.count)
  {
    var top, count := f.topBySales, f.count;
    t, c := templateData, content;
    for i := 0 to RankCount
      invariant Filled(t, env, f, FigureCount, StarCount, RankCount, i, false)
      invariant c == content + SalesLines(env, top, i, count)
    {
      PutSalesRank(t, env, f, i);
      if i < |top| {
        var name := ProductName(env, top[i].id);
        var percentage := Ratio(top[i].value * 100, count);
        t := t[SalesRankSlot(i, Name) := Str(name)];
        t := t[SalesRankSlot(i, Amount) := Num(top[i].value)];
        t := t[SalesRankSlot(i, Share) := Percent("", percentage, 1, "")];
      } else {
        t := t[SalesRankSlot(i, Name) := Str("N/A")];
        t := t[SalesRankSlot(i, Amount) := Num(0)];
        t := t[SalesRankSlot(i, Share) := Str("0.0")];
      }
      AppendAssoc(content, SalesLines(env, top, i, count), SalesLine(env, top, i, count));
      c := c + SalesLine(env, top, i, count);
    }
  }

  /** Everything the loader puts once the average price is known, ending with `content`. */
  method PutAfterAverage(env: Env, f: Figures, templateData: Template, content: string, pct: seq<Ratio>, avg: int)
    returns (t: Template)
    requires templateData == FigureTemplate(env, f, 5)
    requires AvgPrice(f.revenue, f.count) == Ok(avg)
    requires content == "用户评价反馈信息：\n" + Join(f.feedbacks, "\n")
    requires |pct| == StarCount && forall i :: 0 <= i < StarCount ==> pct[i] == Rate(CountStar(f.valid, i + 1), |f.valid|)
    ensures t == FullTemplate(env, f)
  {
    t := PutRates(env, f, templateData, avg);
    FigureTemplateFilled(env, f, FigureCount);
    t := PutStarRates(env, f, t, pct);
    var c := content + "\n产品销量说明：\n";
    assert c == ContentHead(f);
    t, c := PutRevenueSlots(env, f, t, c);
    t, c := PutSalesSlots(env, f, t, c);
    assert c == Content(env, f);
    PutContent(t, env, f);
    t := t[ContentSlot := Str(c)];
    FilledIsFull(t, env, f);
  }

  /** Putting the content completes a template whose other slots are all filled. */
  lemma PutContent(t: Template, env: Env, f: Figures)
    requires Filled(t, env, f, FigureCount, StarCount, RankCount, RankCount, false)
    ensures Filled(t[ContentSlot := Str(Content(env, f))], env, f, FigureCount, StarCount, RankCount, RankCount, true)
  {
    var full := t[ContentSlot := Str(Content(env, f))];
    forall slot ensures slot in full <==> PutSoFar(slot, FigureCount, StarCount, RankCount, RankCount, true) {
      assert slot in full <==> slot in t || slot == ContentSlot;
    }
    forall slot | slot in full ensures full[slot] == SlotValue(env, f, slot) {
      if slot != ContentSlot {
        assert full[slot] == t[slot];
      }
    }
  }

  /**
   * The loader as the code writes it: the puts into `templateData`, the loops over the
   * star histogram and the two rankings, and the appends to `content`, in that order.
   */
  method LoadData(env: Env, bag: Bag) returns (r: Result<Bag>)
    ensures r == Loader(env, bag)
  {
    var context := ContextOf(bag);
    if context.Err? {
      return Err(context.message);
    }
    var f := ComputeFigures(env, context.value);
    var content := "用户评价反馈信息：\n" + Join(f.feedbacks, "\n");
    var dist, pct := RatingStatistics(f.valid);

    var templateData := PutCounts(env, f);
    var avg := AvgPrice(f.revenue, f.count);
    if avg.Err? {
      return Err(avg.message);
    }
    templateData := PutAfterAverage(env, f, templateData, content, pct, avg.value);

    var result: Bag := map[DataSummaryKey := Dict(Render(templateData, AllSlots))];
    var token := TokenOf(context.value);
    if token.Some? {
      result := result[AccessTokenKey := Str(token.value)];
    }
    return Ok(result);
  }
}
