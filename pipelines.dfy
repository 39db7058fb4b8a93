/**
 * The two scheduled agent graphs of the supervisor: the daily store report
 * ("OperationAnalysisAgent": loader, analysis, sender) and the complaint alert
 * ("ReviewAnalysisAgent": session loader, iteration, summary, message parse, sender).
 * Each is a straight chain over one state, every key of which is declared with the
 * replace strategy. The chat model behind the two LLM nodes and the iteration sub-graph are
 * the graph library's; they enter as parameters.
 */
module Pipelines {
  import opened Wrappers
  import opened StateBag
  import Text
  import DailyReport
  import DailyReportFacts
  import Evaluation
  import DingSender

  const SummaryToSenderKey: string := "summary_message_to_sender"
  const SenderResultKey: string := "message_sender_result"
  const ReportTitle: string := "门店经营日报"
  const AlertTitle: string := "用户投诉分析监控"

  /** The step limits the two compiled graphs are given. */
  const DailyMaxIterations: nat := 100
  const EvaluationMaxIterations: nat := 1000

  /** The keys the daily graph declares. */
  const DailyKeys: set<string> :=
    {DailyReport.DataSummaryKey, SummaryToSenderKey, SenderResultKey, DailyReport.AccessTokenKey}

  /** The iteration node's settings: where it reads the array, where it writes the results, and
      the scratch keys it keeps its place in. */
  datatype IterationConfig = IterationConfig(
    inputArrayJsonKey: string,
    tempIndexKey: string,
    outputArrayJsonKey: string,
    iteratorItemKey: string,
    iteratorResultKey: string,
    tempArrayKey: string,
    tempStartFlagKey: string,
    tempEndFlagKey: string)

  const SessionIteration: IterationConfig := IterationConfig(
    "sessions", "iteration_index1", "analysis_results", "iterator_item",
    "session_analysis_result", "test_temp_array1", "test_temp_start1", "test_temp_end1")

  /** Every key an iteration node with these settings writes. */
  function IterationKeys(c: IterationConfig): set<string> {
    {c.inputArrayJsonKey, c.tempIndexKey, c.outputArrayJsonKey, c.iteratorItemKey,
     c.iteratorResultKey, c.tempArrayKey, c.tempStartFlagKey, c.tempEndFlagKey}
  }

  /** The keys the complaint graph declares. */
  const EvaluationKeys: set<string> :=
    IterationKeys(SessionIteration) +
    {Evaluation.SummaryMessageKey, SummaryToSenderKey, SenderResultKey, DailyReport.AccessTokenKey}

  /** Both graphs declare the replace strategy for each of their keys. */
  function AllReplace(keys: set<string>): (strategies: map<string, Strategy>)
    ensures strategies.Keys == keys
    ensures forall k :: k in keys ==> StrategyOf(strategies, k) == Replace
  {
    map k | k in keys :: Replace
  }

  const DailyStrategies: map<string, Strategy> := AllReplace(DailyKeys)
  const EvaluationStrategies: map<string, Strategy> := AllReplace(EvaluationKeys)

  /**
   * An LLM node: the chat model completes the prompt built from the value at `paramsKey`
   * (none when absent or null), and the assistant message is the update under `outputKey`;
   * a failed call raises.
   */
  function LlmStage(name: string, paramsKey: string, outputKey: string,
    complete: Option<Value> -> Result<string>): Stage
  {
    Stage(name, bag => match complete(ValueOf(bag, paramsKey))
      case Err(e) => Err(e)
      case Ok(text) => Ok(map[outputKey := Message(text)]))
  }

  /** The sender node of a graph: the configured token, `access_token` in the state taking
      precedence, the analysis message as content, the outcome under `message_sender_result`. */
  function SenderFor(title: string, token: Option<string>): (s: DingSender.Sender)
    ensures s.messageContentKey == Some(SummaryToSenderKey) && s.resultKey == Some(SenderResultKey)
    ensures s.accessTokenKey == Some(DailyReport.AccessTokenKey) && s.title == Some(title)
    ensures s.accessToken == token && s.customWebhookUrl.None?
  {
    DingSender.Sender(token, Some(DailyReport.AccessTokenKey), Some(SummaryToSenderKey),
      Some(SenderResultKey), Some(title), None)
  }

  /** The daily graph's nodes in edge order, for a given loader action. */
  function DailyChain(loader: Bag -> Result<Bag>, complete: Option<Value> -> Result<string>,
    net: DingSender.Network, token: Option<string>): (stages: seq<Stage>)
    ensures |stages| == 3 && |stages| <= DailyMaxIterations
    ensures stages[0].name == "data_loader" && stages[1].name == "data_analysis"
      && stages[2].name == "message_sender"
  {
    [Stage("data_loader", loader),
     LlmStage("data_analysis", DailyReport.DataSummaryKey, SummaryToSenderKey, complete),
     Stage("message_sender", bag => DingSender.Apply(SenderFor(ReportTitle, token), net, bag))]
  }

  /** The daily graph, its loader reading the given orders, feedback and clock. */
  function DailyStages(env: DailyReport.Env, complete: Option<Value> -> Result<string>,
    net: DingSender.Network, token: Option<string>): seq<Stage>
  {
    DailyChain(bag => DailyReport.Loader(env, bag), complete, net, token)
  }

  /** The complaint graph's nodes in edge order; `iterate` runs the per-session sub-graph. */
  function EvaluationStages(env: Evaluation.SessionEnv, iterate: Bag -> Result<Bag>,
    decode: string -> Evaluation.Decoded, complete: Option<Value> -> Result<string>,
    net: DingSender.Network, token: Option<string>): (stages: seq<Stage>)
    ensures |stages| == 5 && |stages| <= EvaluationMaxIterations
    ensures stages[0].name == "session_loader_node" && stages[1].name == "iteration_session_analysis_node"
      && stages[2].name == "session_result_summary_node" && stages[3].name == "message_parse"
      && stages[4].name == "message_sender"
  {
    [Stage("session_loader_node", bag => Evaluation.SessionLoader(env, bag)),
     Stage("iteration_session_analysis_node", iterate),
     Stage("session_result_summary_node", bag => Evaluation.Summary(decode, bag)),
     LlmStage("message_parse", Evaluation.SummaryMessageKey, SummaryToSenderKey, complete),
     Stage("message_sender", bag => DingSender.Apply(SenderFor(AlertTitle, token), net, bag))]
  }

  /** The state a chain reaches one stage further: the prefix's state with that stage's update. */
  lemma {:induction false} RunStep(strategies: map<string, Strategy>, stages: seq<Stage>, k: nat, bag: Bag)
    requires k < |stages|
    ensures Run(strategies, stages[..k + 1], bag) ==
      match Run(strategies, stages[..k], bag)
      case Err(e) => Err(e)
      case Ok(b) =>
        match stages[k].action(b)
        case Err(e) => Err(e)
        case Ok(u) => Ok(ApplyUpdate(strategies, b, u))
  {
    assert stages[..k + 1] == stages[..k] + [stages[k]];
    RunAppend(strategies, stages[..k], [stages[k]], bag);
    match Run(strategies, stages[..k], bag)
    case Err(e) =>
    case Ok(b) =>
      assert [stages[k]][1..] == [];
  }

  /** A chain of three stages that all succeed, under replace strategies, lays their updates
      over the state in order. */
  lemma {:induction false} RunThree(strategies: map<string, Strategy>, stages: seq<Stage>, bag: Bag,
    u0: Bag, u1: Bag, u2: Bag)
    requires |stages| == 3
    requires stages[0].action(bag) == Ok(u0)
    requires stages[1].action(bag + u0) == Ok(u1)
    requires stages[2].action(bag + u0 + u1) == Ok(u2)
    ensures Run(strategies, stages, bag) == Ok(bag + u0 + u1 + u2)
  {
    ReplaceIsOverride(strategies, bag, u0);
    ReplaceIsOverride(strategies, bag + u0, u1);
    ReplaceIsOverride(strategies, bag + u0 + u1, u2);
    RunStep(strategies, stages, 0, bag);
    assert stages[..0] == [];
    RunStep(strategies, stages, 1, bag);
    RunStep(strategies, stages, 2, bag);
    assert stages[..3] == stages;
  }

  /** Every key a daily stage writes is declared, so each update replaces what was there. */
  lemma DailyKeysDeclared(env: DailyReport.Env, bag: Bag)
    ensures DailyReport.Loader(env, bag).Ok? ==> DailyReport.Loader(env, bag).value.Keys <= DailyKeys
    ensures SummaryToSenderKey in DailyKeys && SenderResultKey in DailyKeys
    ensures forall k :: k in DailyKeys ==> StrategyOf(DailyStrategies, k) == Replace
  {
    if DailyReport.Loader(env, bag).Ok? {
      DailyReportFacts.LoaderUpdate(env, bag);
    }
  }

  /** Every key a complaint stage writes is declared: the loader's, the iteration's, the
      summary's, the model's and the sender's. */
  lemma EvaluationKeysDeclared(env: Evaluation.SessionEnv, decode: string -> Evaluation.Decoded, bag: Bag)
    ensures Evaluation.SessionLoader(env, bag).Ok? ==>
      Evaluation.SessionLoader(env, bag).value.Keys <= EvaluationKeys
    ensures Evaluation.Summary(decode, bag).Ok? ==> Evaluation.Summary(decode, bag).value.Keys <= EvaluationKeys
    ensures IterationKeys(SessionIteration) <= EvaluationKeys
    ensures SessionIteration.inputArrayJsonKey == Evaluation.SessionsKey
    ensures SessionIteration.outputArrayJsonKey == Evaluation.AnalysisResultsKey
    ensures forall k :: k in EvaluationKeys ==> StrategyOf(EvaluationStrategies, k) == Replace
  {
  }

  /**
   * A daily run whose window holds no order stops at the loader with the "/ by zero" of the
   * average price: neither the model nor the sender is reached, so nothing is posted.
   */
  lemma DailyNoOrdersAbort(env: DailyReport.Env, complete: Option<Value> -> Result<string>,
    net: DingSender.Network, token: Option<string>, bag: Bag)
    requires DailyReport.ContextOf(bag).Ok?
    requires DailyReport.ComputeFigures(env, DailyReport.ContextOf(bag).value).count == 0
    ensures Run(DailyStrategies, DailyStages(env, complete, net, token), bag) == Err(DailyReport.DivideByZero)
  {
    var stages := DailyStages(env, complete, net, token);
    DailyReportFacts.LoaderFails(env, bag);
    assert stages[..0] == [];
    AbortAt(DailyStrategies, stages, 0, bag, bag);
  }

  /** The state the daily graph has when the sender starts: the loader's and the model's updates
      laid over the initial state. */
  function DailyBeforeSend(env: DailyReport.Env, text: string, bag: Bag): Bag
    requires DailyReport.Loader(env, bag).Ok?
  {
    bag + DailyReport.Loader(env, bag).value + map[SummaryToSenderKey := Message(text)]
  }

  /**
   * A daily chain whose loader succeeds and whose model answers the loaded summary with text
   * sends that text: the run ends with the loader's and the model's updates laid over the
   * state, and the send's outcome under `message_sender_result`.
   */
  lemma {:induction false} DailyChainSends(loader: Bag -> Result<Bag>, complete: Option<Value> -> Result<string>,
    net: DingSender.Network, token: Option<string>, bag: Bag, u: Bag, text: string)
    requires loader(bag) == Ok(u) && DailyReport.DataSummaryKey in u && !u[DailyReport.DataSummaryKey].Null?
    requires complete(Some(u[DailyReport.DataSummaryKey])) == Ok(text)
    requires text != ""
    ensures var before := bag + u + map[SummaryToSenderKey := Message(text)];
      var sender := SenderFor(ReportTitle, token);
      Run(DailyStrategies, DailyChain(loader, complete, net, token), bag)
        == Ok(before[SenderResultKey := Str(DingSender.SendReport(sender, net, before, text))])
  {
    var stages := DailyChain(loader, complete, net, token);
    var sender := SenderFor(ReportTitle, token);
    var m := map[SummaryToSenderKey := Message(text)];
    LlmAnswers("data_analysis", DailyReport.DataSummaryKey, SummaryToSenderKey, complete, bag + u, text);
    var b2 := bag + u + m;
    var out := map[SenderResultKey := Str(DingSender.SendReport(sender, net, b2, text))];
    SendsText(sender, net, b2, text);
    RunThree(DailyStrategies, stages, bag, u, m, out);
    OverrideOne(b2, SenderResultKey, Str(DingSender.SendReport(sender, net, b2, text)));
  }

  /** An LLM node whose model answers the value at its parameter key writes that answer. */
  lemma LlmAnswers(name: string, paramsKey: string, outputKey: string,
    complete: Option<Value> -> Result<string>, bag: Bag, text: string)
    requires paramsKey in bag && !bag[paramsKey].Null? && complete(Some(bag[paramsKey])) == Ok(text)
    ensures LlmStage(name, paramsKey, outputKey, complete).action(bag) == Ok(map[outputKey := Message(text)])
  {
    assert ValueOf(bag, paramsKey) == Some(bag[paramsKey]);
  }

  lemma OverrideOne(bag: Bag, key: string, v: Value)
    ensures bag + map[key := v] == bag[key := v]
  {
  }

  /**
   * A daily run whose loader succeeds and whose model answers with text ends with the send's
   * outcome for that text under `message_sender_result`.
   */
  lemma DailyReportPosted(env: DailyReport.Env, complete: Option<Value> -> Result<string>,
    net: DingSender.Network, token: Option<string>, bag: Bag, text: string)
    requires DailyReport.Loader(env, bag).Ok?
    requires complete(Some(DailyReport.Loader(env, bag).value[DailyReport.DataSummaryKey])) == Ok(text)
    requires text != ""
    ensures var before := DailyBeforeSend(env, text, bag);
      var sender := SenderFor(ReportTitle, token);
      Run(DailyStrategies, DailyStages(env, complete, net, token), bag)
        == Ok(before[SenderResultKey := Str(DingSender.SendReport(sender, net, before, text))])
  {
    DailyReportFacts.LoaderUpdate(env, bag);
    DailyChainSends(bag => DailyReport.Loader(env, bag), complete, net, token, bag,
      DailyReport.Loader(env, bag).value, text);
  }

  /** The post the daily sender makes: the analysis text titled "门店经营日报", to the webhook of
      the job's token, or of the configured token when the job parameter carries none. */
  lemma DailyReportRequest(env: DailyReport.Env, net: DingSender.Network, token: Option<string>,
    bag: Bag, text: string)
    requires DailyReport.AccessTokenKey !in bag
    requires DailyReport.Loader(env, bag).Ok?
    requires text != ""
    ensures var jobToken := DailyReport.TokenOf(DailyReport.ContextOf(bag).value);
      var used := if jobToken.Some? then jobToken else token;
      used.Some? ==>
        DingSender.Request(SenderFor(ReportTitle, token), net, DailyBeforeSend(env, text, bag))
          == Some((DingSender.WebhookUrlPrefix + used.value, DingSender.Envelope(Some(ReportTitle), text)))
    ensures var jobToken := DailyReport.TokenOf(DailyReport.ContextOf(bag).value);
      jobToken.None? && token.None? ==>
        DingSender.Request(SenderFor(ReportTitle, token), net, DailyBeforeSend(env, text, bag)).None?
  {
    var b2 := DailyBeforeSend(env, text, bag);
    var sender := SenderFor(ReportTitle, token);
    var jobToken := DailyReport.TokenOf(DailyReport.ContextOf(bag).value);
    var used := if jobToken.Some? then jobToken else token;
    assert DingSender.MessageContent(sender, b2) == Ok(Some(text));
    assert DingSender.TokenChoice(sender, b2) == (if used.Some? then Some(Str(used.value)) else None) by {
      TokenKeyHasText();
      DailyReportFacts.LoaderUpdate(env, bag);
      if jobToken.Some? {
        assert ValueOf(b2, DailyReport.AccessTokenKey) == Some(Str(jobToken.value));
      } else {
        assert ValueOf(b2, DailyReport.AccessTokenKey) == None;
      }
    }
    PostedWith(sender, net, b2, text, used);
  }

  /** The state key the senders read the token from is not blank. */
  lemma TokenKeyHasText()
    ensures Text.HasText(Some(DailyReport.AccessTokenKey))
  {
    assert !Text.IsWhitespace(DailyReport.AccessTokenKey[0]);
  }

  /** A sender with text to send and a string token posts the envelope to that token's webhook. */
  lemma PostedWith(sender: DingSender.Sender, net: DingSender.Network, bag: Bag, text: string, used: Option<string>)
    requires DingSender.MessageContent(sender, bag) == Ok(Some(text)) && text != ""
    requires sender.resultKey.Some? && sender.customWebhookUrl.None?
    requires DingSender.TokenChoice(sender, bag) == (if used.Some? then Some(Str(used.value)) else None)
    ensures used.Some? ==>
      DingSender.Request(sender, net, bag) == Some((DingSender.WebhookUrlPrefix + used.value, DingSender.Envelope(sender.title, text)))
    ensures used.None? ==> DingSender.Request(sender, net, bag).None?
  {
  }

  /** A sender whose content key holds an assistant message with text sends that text. */
  lemma SendsText(sender: DingSender.Sender, net: DingSender.Network, bag: Bag, text: string)
    requires sender.messageContentKey == Some(SummaryToSenderKey) && sender.resultKey.Some?
    requires SummaryToSenderKey in bag && bag[SummaryToSenderKey] == Message(text) && text != ""
    ensures DingSender.MessageContent(sender, bag) == Ok(Some(text))
    ensures DingSender.Apply(sender, net, bag) ==
      Ok(map[sender.resultKey.value := Str(DingSender.SendReport(sender, net, bag, text))])
  {
  }

  /** A key the state lacks, and that no stage of a prefix writes, is still absent after it. */
  lemma {:induction false} UnwrittenStaysAbsent(strategies: map<string, Strategy>, stages: seq<Stage>,
    k: nat, bag: Bag, key: string)
    requires k <= |stages| && key !in bag
    requires forall i, b :: 0 <= i < k && stages[i].action(b).Ok? ==> key !in stages[i].action(b).value
    ensures Run(strategies, stages[..k], bag).Ok? ==> key !in Run(strategies, stages[..k], bag).value
  {
    if k == 0 {
      assert stages[..0] == [];
    } else {
      UnwrittenStaysAbsent(strategies, stages, k - 1, bag, key);
      RunStep(strategies, stages, k - 1, bag);
    }
  }

  /** Neither the session loader nor an iteration that keeps to its own keys writes `summary_message`. */
  lemma NoSummaryBeforeSummarizing(env: Evaluation.SessionEnv, iterate: Bag -> Result<Bag>,
    decode: string -> Evaluation.Decoded, complete: Option<Value> -> Result<string>,
    net: DingSender.Network, token: Option<string>)
    requires forall b :: iterate(b).Ok? ==> iterate(b).value.Keys <= IterationKeys(SessionIteration)
    ensures var stages := EvaluationStages(env, iterate, decode, complete, net, token);
      forall i, b :: 0 <= i < 2 && stages[i].action(b).Ok? ==>
        Evaluation.SummaryMessageKey !in stages[i].action(b).value
  {
    var stages := EvaluationStages(env, iterate, decode, complete, net, token);
    forall i, b | 0 <= i < 2 && stages[i].action(b).Ok?
      ensures Evaluation.SummaryMessageKey !in stages[i].action(b).value
    {
      if i == 0 {
        EvaluationKeysDeclared(env, decode, b);
      }
    }
  }

  /**
   * When the iteration's results are the empty list, the summary adds nothing: the state goes
   * on to `message_parse` unchanged, and its model is asked with no `summary_message` at all
   * (the graph does not stop, and sends whatever the model answers). This holds when the
   * iteration writes only its own keys.
   */
  lemma {:induction false} EmptyResultsPromptWithoutSummary(env: Evaluation.SessionEnv, iterate: Bag -> Result<Bag>,
    decode: string -> Evaluation.Decoded, complete: Option<Value> -> Result<string>,
    net: DingSender.Network, token: Option<string>, bag: Bag, iterated: Bag)
    requires Evaluation.SummaryMessageKey !in bag
    requires forall b :: iterate(b).Ok? ==> iterate(b).value.Keys <= IterationKeys(SessionIteration)
    requires Run(EvaluationStrategies, EvaluationStages(env, iterate, decode, complete, net, token)[..2], bag) == Ok(iterated)
    requires Evaluation.ResultsText(iterated).Ok? && decode(Evaluation.ResultsText(iterated).value) == Evaluation.ListOf([])
    ensures Run(EvaluationStrategies, EvaluationStages(env, iterate, decode, complete, net, token)[..3], bag) == Ok(iterated)
    ensures ValueOf(iterated, Evaluation.SummaryMessageKey).None?
  {
    var stages := EvaluationStages(env, iterate, decode, complete, net, token);
    NoSummaryBeforeSummarizing(env, iterate, decode, complete, net, token);
    UnwrittenStaysAbsent(EvaluationStrategies, stages, 2, bag, Evaluation.SummaryMessageKey);
    Evaluation.SummaryFacts(decode, iterated);
    RunStep(EvaluationStrategies, stages, 2, bag);
    ReplaceIsOverride(EvaluationStrategies, iterated, map[]);
    assert iterated + map[] == iterated;
  }
}
