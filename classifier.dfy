/**
 * The complaint classifier stage: it takes the text of one feedback record from the state,
 * asks the chat model for a verdict and writes the answer under its output key. The node
 * keeps the last input text in a field, which later calls reuse. The chat model and the
 * prompt template are parameters.
 */
module Classifier {
  import opened Wrappers
  import opened Text
  import opened StateBag

  const MessagesKey: string := "messages"

  /** The node's settings; a `None` is a Java null. */
  datatype Config = Config(
    inputTextKey: Option<string>,
    categories: Option<seq<string>>,
    instructions: Option<seq<string>>,
    outputKey: Option<string>)

  /** The chat model: `render` fills the system prompt with the input text, the categories and
      the instructions; `chat` answers a system and a user message. */
  datatype Model = Model(render: (string, seq<string>, seq<string>) -> string, chat: (string, string) -> string)

  /** The two messages of one call. */
  datatype Prompt = Prompt(system: string, user: string)

  /** The input text after the read at the start of `apply`: with a key that has length, the
      state's string at that key, else the text left by the previous call; a value of another
      kind fails the cast and raises. */
  function NextInputText(config: Config, current: Option<string>, state: Bag): Result<Option<string>> {
    if HasLength(config.inputTextKey) then
      match ValueOf(state, config.inputTextKey.value)
      case None => Ok(current)
      case Some(v) => if v.Str? then Ok(Some(v.s)) else Err("ClassCastException")
    else Ok(current)
  }

  /** The prompt: the input text rendered into the system message and sent as the user message.
      A null input text, category list or instruction list fails `Map.of` and raises. */
  function PromptOf(config: Config, model: Model, inputText: Option<string>): Result<Prompt> {
    if inputText.None? || config.categories.None? || config.instructions.None? then Err("NullPointerException")
    else Ok(Prompt(model.render(inputText.value, config.categories.value, config.instructions.value), inputText.value))
  }

  /** The update: the answer under `outputKey`, and the answer message under "messages" when
      the state holds "messages". */
  function Update(config: Config, model: Model, inputText: Option<string>, state: Bag): Result<Bag> {
    match PromptOf(config, model, inputText)
    case Err(e) => Err(e)
    case Ok(p) =>
      var answer := model.chat(p.system, p.user);
      var u: Bag := if config.outputKey.Some? then map[config.outputKey.value := Str(answer)] else map[];
      Ok(if ValueOf(state, MessagesKey).Some? then u[MessagesKey := Message(answer)] else u)
  }

  /**
   * The update maps the output key to the model's answer, and holds "messages" exactly when
   * the state does (for an output key other than "messages"); the answer is the model's reply
   * to the input text, sent as the user message and rendered into the system message.
   */
  lemma UpdateFacts(config: Config, model: Model, inputText: Option<string>, state: Bag)
    ensures Update(config, model, inputText, state).Ok? <==>
      inputText.Some? && config.categories.Some? && config.instructions.Some?
    ensures Update(config, model, inputText, state).Ok? ==>
      var u := Update(config, model, inputText, state).value;
      var p := PromptOf(config, model, inputText).value;
      && p.user == inputText.value
      && p.system == model.render(inputText.value, config.categories.value, config.instructions.value)
      && (config.outputKey.Some? && config.outputKey.value != MessagesKey ==>
            config.outputKey.value in u && u[config.outputKey.value] == Str(model.chat(p.system, p.user)))
      && (config.outputKey != Some(MessagesKey) ==> (MessagesKey in u <==> ValueOf(state, MessagesKey).Some?))
      && u.Keys <= {MessagesKey} + (if config.outputKey.Some? then {config.outputKey.value} else {})
  {
  }

  /** With no input key the text is never changed; with a key the state lacks, the previous
      text is reused. */
  lemma InputTextFacts(config: Config, current: Option<string>, state: Bag)
    ensures !HasLength(config.inputTextKey) ==> NextInputText(config, current, state) == Ok(current)
    ensures HasLength(config.inputTextKey) && ValueOf(state, config.inputTextKey.value).None? ==>
      NextInputText(config, current, state) == Ok(current)
    ensures HasLength(config.inputTextKey) && ValueOf(state, config.inputTextKey.value).Some? ==>
      (NextInputText(config, current, state).Ok? <==> ValueOf(state, config.inputTextKey.value).value.Str?)
  {
  }

  /** Two calls in a row: when the second state lacks the input key, the second call classifies
      the text of the first. */
  lemma CarriedOver(config: Config, current: Option<string>, first: Bag, second: Bag, text: Option<string>)
    requires NextInputText(config, current, first) == Ok(text)
    requires !HasLength(config.inputTextKey) || ValueOf(second, config.inputTextKey.value).None?
    ensures NextInputText(config, text, second) == Ok(text)
  {
  }

  /** The node, with the input text it keeps between calls. */
  class ClassifierNode {
    const config: Config
    const model: Model
    var inputText: Option<string>

    constructor(model: Model, config: Config)
      ensures this.config == config && this.model == model && inputText.None?
    {
      this.config := config;
      this.model := model;
      inputText := None;
    }

    /** `apply`: read the input text into the field, then ask the model. */
    method Apply(state: Bag) returns (r: Result<Bag>)
      modifies this
      ensures match NextInputText(config, old(inputText), state)
        case Err(e) => r == Err(e) && inputText == old(inputText)
        case Ok(t) => inputText == t && r == Update(config, model, t, state)
    {
      if HasLength(config.inputTextKey) {
        var v := ValueOf(state, config.inputTextKey.value);
        if v.Some? {
          if !v.value.Str? {
            return Err("ClassCastException");
          }
          inputText := Some(v.value.s);
        }
      }
      if inputText.None? || config.categories.None? || config.instructions.None? {
        return Err("NullPointerException");
      }
      var answer := model.chat(model.render(inputText.value, config.categories.value, config.instructions.value), inputText.value);
      var updated: Bag := map[];
      if config.outputKey.Some? {
        updated := updated[config.outputKey.value := Str(answer)];
      }
      if ValueOf(state, MessagesKey).Some? {
        updated := updated[MessagesKey := Message(answer)];
      }
      r := Ok(updated);
    }
  }

  /** The node's builder. */
  class Builder {
    var model: Model
    var inputTextKey: Option<string>
    var categories: Option<seq<string>>
    var instructions: Option<seq<string>>
    var outputKey: Option<string>

    constructor(model: Model)
      ensures this.model == model
      ensures inputTextKey.None? && categories.None? && instructions.None? && outputKey.None?
    {
      this.model := model;
      inputTextKey := None;
      categories := None;
      instructions := None;
      outputKey := None;
    }

    method SetInputTextKey(v: Option<string>)
      modifies this
      ensures inputTextKey == v
      ensures model == old(model) && categories == old(categories) && instructions == old(instructions)
      ensures outputKey == old(outputKey)
    {
      inputTextKey := v;
    }

    method SetCategories(v: Option<seq<string>>)
      modifies this
      ensures categories == v
      ensures model == old(model) && inputTextKey == old(inputTextKey) && instructions == old(instructions)
      ensures outputKey == old(outputKey)
    {
      categories := v;
    }

    method SetInstructions(v: Option<seq<string>>)
      modifies this
      ensures instructions == v
      ensures model == old(model) && inputTextKey == old(inputTextKey) && categories == old(categories)
      ensures outputKey == old(outputKey)
    {
      instructions := v;
    }

    method SetOutputKey(v: Option<string>)
      modifies this
      ensures outputKey == v
      ensures model == old(model) && inputTextKey == old(inputTextKey) && categories == old(categories)
      ensures instructions == old(instructions)
    {
      outputKey := v;
    }

    /** `build`: all five settings reach the node unchanged. */
    method Build() returns (node: ClassifierNode)
      ensures fresh(node) && node.inputText.None? && node.model == model
      ensures node.config == Config(inputTextKey, categories, instructions, outputKey)
    {
      node := new ClassifierNode(model, Config(inputTextKey, categories, instructions, outputKey));
    }
  }
}
