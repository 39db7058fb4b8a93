/**
 * The complaint-analysis pipeline's own stages: the session loader, which turns the feedback of
 * the report window into one text per record, and the summary stage, which tallies the
 * classifier's verdicts into the alert message.
 */
module Evaluation {
  import opened Wrappers
  import opened Text
  import opened StateBag
  import opened TimeWindow
  import opened ReportStats
  import opened DailyReport

  const SessionsKey: string := "sessions"
  const AnalysisResultsKey: string := "analysis_results"
  const SummaryMessageKey: string := "summary_message"
  const ContextField: string := "context"

  /** What the session loader reads from outside: the latest month with feedback, the
      feedback rows, and the clock. */
  datatype SessionEnv = SessionEnv(maxMonth: Option<string>, feedback: seq<FeedbackRow>, now: int, zoneOffset: int)

  /** The formatted feedback of the window, one session per record, in load order. */
  function Sessions(env: SessionEnv): (sessions: seq<string>)
    ensures |sessions| <= |env.feedback|
  {
    Texts(FeedbackIn(env.feedback, LoadWindow(env.maxMonth, env.now, env.zoneOffset)))
  }

  /** The session loader's update: `sessions`, and the job's access token when there is one. */
  function SessionLoader(env: SessionEnv, bag: Bag): Result<Bag> {
    match ContextOf(bag)
    case Err(e) => Err(e)
    case Ok(context) =>
      var update := map[SessionsKey := List(StrList(Sessions(env)))];
      var token := TokenOf(context);
      Ok(if token.Some? then update[AccessTokenKey := Str(token.value)] else update)
  }

  /**
   * The loader's update holds the window's records as texts, in load order, each from a
   * record created inside the window; it holds `access_token` exactly when the job parameter
   * carries one, and fails only on a context of the wrong kind.
   */
  lemma SessionLoaderFacts(env: SessionEnv, bag: Bag)
    ensures SessionLoader(env, bag).Err? <==> ContextOf(bag).Err?
    ensures SessionLoader(env, bag).Ok? ==>
      var u := SessionLoader(env, bag).value;
      var w := LoadWindow(env.maxMonth, env.now, env.zoneOffset);
      var rows := FeedbackIn(env.feedback, w);
      && SessionsKey in u
      && u[SessionsKey].List?
      && |u[SessionsKey].items| == |rows|
      && (forall i :: 0 <= i < |rows| ==>
            u[SessionsKey].items[i] == Str(rows[i].formatted)
            && InWindow(rows[i].createdAt, w) && rows[i] in env.feedback)
      && (AccessTokenKey in u <==> TokenOf(ContextOf(bag).value).Some?)
  {
  }

  /** A JSON value of a decoded result. A number is held as the value of its literal,
      `mantissa / 10^scale`; Gson reads it into a `Double`. */
  datatype Json = JStr(s: string) | JNum(mantissa: int, scale: nat) | JBool(b: bool) | JNull | JObject | JArray

  /**
   * One element of the result list: a string Gson decodes to a JSON object, a string it
   * cannot decode, or an element that is not a string (a number, boolean, object or array),
   * which fails the cast of `for (String result : results)`. A null element, or a string
   * Gson reads as null, is an object without keys: reading `complaint` raises alike.
   */
  datatype Item = Parsed(fields: map<string, Json>) | Malformed | NotText

  /** Gson's reading of the result list text: it raises, it gives null (for an empty, blank
      or "null" text), or it gives a list. */
  datatype Decoded = Raises | NullList | ListOf(items: seq<Item>)

  /** Java's `/` on `int`: the quotient truncated toward zero. */
  function TruncDiv(a: int, b: int): (q: int)
    requires b > 0
    ensures a >= 0 ==> 0 <= q * b <= a < q * b + b
    ensures a < 0 ==> q * b - b < a <= q * b <= 0
  {
    if a >= 0 then
      DivBounds(a, b);
      a / b
    else
      DivBounds(-a, b);
      -((-a) / b)
  }

  /** The range of Java's `int`. */
  const IntMin: int := -0x8000_0000
  const IntMax: int := 0x7fff_ffff
  const IntModulus: int := 0x1_0000_0000

  /** Java's `int` arithmetic: the exact value reduced modulo 2^32 into the `int` range. */
  function Wrap(x: int): (r: int)
    ensures IntMin <= r <= IntMax
    ensures (x - r) % IntModulus == 0
    ensures IntMin <= x <= IntMax ==> r == x
  {
    (x - IntMin) % IntModulus + IntMin
  }

  /** Wrapping after every addition gives the wrapped exact sum. */
  lemma WrapAdd(a: int, b: int)
    ensures Wrap(Wrap(a) + b) == Wrap(a + b)
  {
    var k := (a - IntMin) / IntModulus;
    assert Wrap(a) == a - k * IntModulus;
    assert (Wrap(a) + b - IntMin) == (a + b - IntMin) - k * IntModulus;
  }

  /** `Number.intValue()` of the `Double` (`(int)` of a double): truncation toward zero,
      saturating at the ends of the `int` range. */
  function IntValue(v: Json): (r: int)
    requires v.JNum?
    ensures IntMin <= r <= IntMax
    ensures IntMin <= TruncDiv(v.mantissa, Pow10(v.scale)) <= IntMax ==> r == TruncDiv(v.mantissa, Pow10(v.scale))
    ensures TruncDiv(v.mantissa, Pow10(v.scale)) > IntMax ==> r == IntMax
    ensures TruncDiv(v.mantissa, Pow10(v.scale)) < IntMin ==> r == IntMin
  {
    var q := TruncDiv(v.mantissa, Pow10(v.scale));
    if q > IntMax then IntMax else if q < IntMin then IntMin else q
  }

  /** `complaint` present and not null; otherwise `toString()` raises. */
  predicate HasComplaint(item: Item) {
    item.Parsed? && "complaint" in item.fields && !item.fields["complaint"].JNull?
  }

  predicate IsComplaint(item: Item) {
    item.Parsed? && "complaint" in item.fields && item.fields["complaint"] == JStr("yes")
  }

  /** The text a complaint adds to the requirements: its summary and a newline, when the
      summary is a string. */
  function Requirement(item: Item): string {
    if IsComplaint(item) && "summary" in item.fields && item.fields["summary"].JStr? then
      item.fields["summary"].s + "\n"
    else ""
  }

  /** The satisfaction an item adds: its `intValue` when it is a number, else nothing. */
  function Satisfaction(item: Item): int {
    if item.Parsed? && "satisfaction" in item.fields && item.fields["satisfaction"].JNum? then
      IntValue(item.fields["satisfaction"])
    else 0
  }

  /** The counters of the summary loop; `satisfaction` is the `int` accumulator. */
  datatype Tally = Tally(complaints: nat, satisfaction: int, require: string)

  /** One iteration of the loop body: cast, decode, read `complaint`, then `summary` and
      `satisfaction`. */
  function Step(t: Tally, item: Item): Result<Tally> {
    if item.NotText? then Err("ClassCastException")
    else if item.Malformed? then Err("JsonSyntaxException")
    else if !HasComplaint(item) then Err("NullPointerException")
    else Ok(Tally(t.complaints + (if IsComplaint(item) then 1 else 0), Wrap(t.satisfaction + Satisfaction(item)),
      t.require + Requirement(item)))
  }

  /** The loop over the results, in order; the first item that raises aborts it. */
  function TallyOf(items: seq<Item>): Result<Tally> {
    if items == [] then Ok(Tally(0, 0, ""))
    else match TallyOf(items[..|items| - 1])
      case Err(e) => Err(e)
      case Ok(t) => Step(t, items[|items| - 1])
  }

  /** The reference figures: complaints counted, satisfactions summed and requirements
      concatenated, each over the whole list. */
  function ComplaintCount(items: seq<Item>): (n: nat)
    ensures n <= |items|
  {
    if items == [] then 0
    else ComplaintCount(items[..|items| - 1]) + (if IsComplaint(items[|items| - 1]) then 1 else 0)
  }

  function SatisfactionSum(items: seq<Item>): int {
    if items == [] then 0 else SatisfactionSum(items[..|items| - 1]) + Satisfaction(items[|items| - 1])
  }

  function Requirements(items: seq<Item>): string {
    if items == [] then "" else Requirements(items[..|items| - 1]) + Requirement(items[|items| - 1])
  }

  /**
   * The loop succeeds exactly when every item decodes and has a complaint; it then counts
   * the "yes" complaints, holds the sum of the numeric satisfactions wrapped into the `int`
   * range, and concatenates the complaint summaries, in result order.
   */
  lemma {:induction false} TallyFacts(items: seq<Item>)
    ensures TallyOf(items).Ok? <==> forall i :: 0 <= i < |items| ==> HasComplaint(items[i])
    ensures TallyOf(items).Ok? ==>
      TallyOf(items).value == Tally(ComplaintCount(items), Wrap(SatisfactionSum(items)), Requirements(items))
  {
    if items != [] {
      var init := items[..|items| - 1];
      TallyFacts(init);
      assert forall i :: 0 <= i < |init| ==> init[i] == items[i];
      if TallyOf(init).Ok? {
        WrapAdd(SatisfactionSum(init), Satisfaction(items[|items| - 1]));
      }
    }
  }

  /** The first item without a usable complaint aborts the loop, whatever follows it. */
  lemma {:induction false} FirstBadItemAborts(items: seq<Item>, k: nat)
    requires k < |items| && !HasComplaint(items[k])
    requires forall i :: 0 <= i < k ==> HasComplaint(items[i])
    ensures TallyOf(items) ==
      if items[k].NotText? then Err("ClassCastException")
      else if items[k].Malformed? then Err("JsonSyntaxException")
      else Err("NullPointerException")
    decreases |items|
  {
    var init := items[..|items| - 1];
    if k < |items| - 1 {
      assert init[k] == items[k];
      FirstBadItemAborts(init, k);
    } else {
      TallyFacts(init);
      assert forall i :: 0 <= i < |init| ==> init[i] == items[i];
    }
  }

  /** The summary loop as the code writes it: three counters updated item by item. */
  method SummarizeResults(items: seq<Item>) returns (r: Result<Tally>)
    ensures r == TallyOf(items)
  {
    var complaint: nat := 0;
    var satisfaction := 0;
    var require := "";
    for i := 0 to |items|
      invariant TallyOf(items[..i]) == Ok(Tally(complaint, satisfaction, require))
    {
      assert items[..i + 1][..i] == items[..i];
      var item := items[i];
      if item.NotText? {
        r := Err("ClassCastException");
        FailureStays(items, i + 1);
        return;
      }
      if item.Malformed? {
        r := Err("JsonSyntaxException");
        FailureStays(items, i + 1);
        return;
      }
      if !HasComplaint(item) {
        r := Err("NullPointerException");
        FailureStays(items, i + 1);
        return;
      }
      assert items[..i + 1][i] == item;
      ghost var next := Step(Tally(complaint, satisfaction, require), item);
      assert TallyOf(items[..i + 1]) == next;
      if IsComplaint(item) {
        complaint := complaint + 1;
        if "summary" in item.fields && item.fields["summary"].JStr? {
          require := require + (item.fields["summary"].s + "\n");
        }
      }
      if "satisfaction" in item.fields && item.fields["satisfaction"].JNum? {
        satisfaction := Wrap(satisfaction + IntValue(item.fields["satisfaction"]));
      }
      assert next.value.complaints == complaint;
      assert next.value.satisfaction == satisfaction;
      assert next.value.require == require;
    }
    assert items[..|items|] == items;
    r := Ok(Tally(complaint, satisfaction, require));
  }

  /** Once a prefix of the loop fails, the whole loop fails with the same message. */
  lemma {:induction false} FailureStays(items: seq<Item>, k: nat)
    requires k <= |items| && TallyOf(items[..k]).Err?
    ensures TallyOf(items) == TallyOf(items[..k])
    decreases |items| - k
  {
    if k < |items| {
      assert items[..k + 1][..k] == items[..k];
      FailureStays(items, k + 1);
    } else {
      assert items[..k] == items;
    }
  }

  /** The alert text: totals, complaint count, mean satisfaction and the requirements. */
  function Message(total: int, t: Tally): string
    requires total > 0
  {
    "用户投诉分析监控\n总评价记录数: " + IntToString(total) + "条，产品投诉: " + IntToString(t.complaints)
      + "条, 平均满意度(0～5): " + IntToString(TruncDiv(t.satisfaction, total)) + ".\n用户核心诉求："
      + t.require + "\n"
  }

  /** The list text of the state: `analysis_results`, or "[]" when absent; a value of
      another kind fails the cast to `String`. */
  function ResultsText(bag: Bag): Result<string> {
    if AnalysisResultsKey !in bag || bag[AnalysisResultsKey].Null? then Ok("[]")
    else if bag[AnalysisResultsKey].Str? then Ok(bag[AnalysisResultsKey].s)
    else Err("ClassCastException")
  }

  /** The summary stage's update; `decode` is Gson's reading of the list, and a null list
      fails at `results.size()`. */
  function Summary(decode: string -> Decoded, bag: Bag): Result<Bag> {
    match ResultsText(bag)
    case Err(e) => Err(e)
    case Ok(s) =>
      match decode(s)
      case Raises => Err("JsonSyntaxException")
      case NullList => Err("NullPointerException")
      case ListOf(items) =>
        if items == [] then Ok(map[])
        else match TallyOf(items)
          case Err(e) => Err(e)
          case Ok(t) => Ok(map[SummaryMessageKey := Dict(map[ContextField := Str(Message(|items|, t))])])
  }

  /** The stage with its loop. */
  method SummarizeStage(decode: string -> Decoded, bag: Bag) returns (r: Result<Bag>)
    ensures r == Summary(decode, bag)
  {
    var s := ResultsText(bag);
    if s.Err? {
      return Err(s.message);
    }
    var results := decode(s.value);
    if results.Raises? {
      return Err("JsonSyntaxException");
    }
    if results.NullList? {
      return Err("NullPointerException");
    }
    var items := results.items;
    if items == [] {
      return Ok(map[]);
    }
    var t := SummarizeResults(items);
    if t.Err? {
      return Err(t.message);
    }
    return Ok(map[SummaryMessageKey := Dict(map[ContextField := Str(Message(|items|, t.value))])]);
  }

  /**
   * An absent result list reads as "[]": an empty list gives an empty update, with no
   * `summary_message`, and a list text Gson reads as null fails with a NullPointerException;
   * a non-empty list whose items all carry a complaint gives exactly `summary_message`, whose
   * counts are those of the list.
   */
  lemma SummaryFacts(decode: string -> Decoded, bag: Bag)
    ensures AnalysisResultsKey !in bag ==> ResultsText(bag) == Ok("[]")
    ensures ResultsText(bag).Ok? && decode(ResultsText(bag).value) == ListOf([]) ==> Summary(decode, bag) == Ok(map[])
    ensures ResultsText(bag).Ok? && decode(ResultsText(bag).value) == NullList ==>
      Summary(decode, bag) == Err("NullPointerException")
    ensures Summary(decode, bag).Ok? && Summary(decode, bag).value != map[] ==>
      var items := decode(ResultsText(bag).value).items;
      && items != []
      && (forall i :: 0 <= i < |items| ==> HasComplaint(items[i]))
      && Summary(decode, bag).value ==
           map[SummaryMessageKey := Dict(map[ContextField := Str(Message(|items|,
             Tally(ComplaintCount(items), Wrap(SatisfactionSum(items)), Requirements(items))))])]
  {
    if ResultsText(bag).Ok? && decode(ResultsText(bag).value).ListOf? {
      TallyFacts(decode(ResultsText(bag).value).items);
    }
  }

  /** When every numeric satisfaction lies in 0..5, the accumulator does not wrap unless there
      are more than `IntMax / 5` results, and the integer mean over all results lies in 0..5. */
  lemma {:induction false} MeanInRange(items: seq<Item>)
    requires items != [] && 5 * |items| <= IntMax
    requires forall i :: 0 <= i < |items| ==> 0 <= Satisfaction(items[i]) <= 5
    ensures Wrap(SatisfactionSum(items)) == SatisfactionSum(items)
    ensures 0 <= TruncDiv(Wrap(SatisfactionSum(items)), |items|) <= 5
  {
    var sum := SatisfactionSum(items);
    SumBounds(items);
    assert IntMin <= sum <= IntMax;
    MeanBounds(sum, |items|);
  }

  /** The truncated mean of a sum of `n` values in 0..5 lies in 0..5. */
  lemma MeanBounds(sum: int, n: int)
    requires n > 0 && 0 <= sum <= 5 * n
    ensures 0 <= TruncDiv(sum, n) <= 5
  {
    var q := TruncDiv(sum, n);
    assert q * n <= 5 * n;
    MulCancel(q, 5, n);
    assert 0 * n < (q + 1) * n by {
      assert (q + 1) * n == q * n + n;
    }
    MulCancelStrict(0, q + 1, n);
  }

  /** Multiplying by a positive number keeps the order of two integers. */
  lemma MulCancel(a: int, b: int, n: int)
    requires n > 0 && a * n <= b * n
    ensures a <= b
  {
    assert (b - a) * n == b * n - a * n;
  }

  lemma MulCancelStrict(a: int, b: int, n: int)
    requires n > 0 && a * n < b * n
    ensures a < b
  {
    assert (b - a) * n == b * n - a * n;
  }

  lemma {:induction false} SumBounds(items: seq<Item>)
    requires forall i :: 0 <= i < |items| ==> 0 <= Satisfaction(items[i]) <= 5
    ensures 0 <= SatisfactionSum(items) <= 5 * |items|
  {
    if items != [] {
      var init := items[..|items| - 1];
      assert forall i :: 0 <= i < |init| ==> init[i] == items[i];
      SumBounds(init);
    }
  }
}
