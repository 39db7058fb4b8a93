/**
 * The graph state shared by the stages of one pipeline run: a map from key to value,
 * a merge strategy declared per key, and the linear runner that feeds each stage's
 * partial update into the state before the next stage runs.
 */
module StateBag {
  import opened Wrappers

  /** An exact quotient `num / den`, standing for a Java double computed as `num * 1.0 / den`. */
  datatype Ratio = Ratio(num: int, den: int)

  /** The values that the modelled stages put into the state. */
  datatype Value =
    | Null
    | Str(s: string)
    | Num(n: int)
    /** A BigDecimal amount of scale 2 (or its double value), in cents. */
    | Cents(c: int)
    /** `lead + String.format("%.<decimals>f", ratio) + trail`; the digits are not modelled. */
    | Percent(lead: string, ratio: Ratio, decimals: nat, trail: string)
    | List(items: seq<Value>)
    | Dict(entries: map<string, Value>)
    /** A chat-model `AssistantMessage`, with its text. */
    | Message(text: string)
    /** The XXL-JOB context of one fire: the shard index and the job parameter decoded as a
        JSON object of strings (`None` when the parameter is absent or does not decode). */
    | JobContext(shardIndex: int, jobParam: Option<map<string, string>>)

  type Bag = map<string, Value>

  /** `KeyStrategy`: only `ReplaceStrategy` is declared by the pipelines. */
  datatype Strategy = Replace

  function Get(bag: Bag, key: string): (r: Option<Value>)
    ensures r.Some? <==> key in bag
    ensures r.Some? ==> r.value == bag[key]
  {
    if key in bag then Some(bag[key]) else None
  }

  /** `OverAllState.value(key)`: empty when the key is absent or holds null. */
  function ValueOf(bag: Bag, key: string): (r: Option<Value>)
    ensures r.Some? <==> key in bag && !bag[key].Null?
    ensures r.Some? ==> r.value == bag[key]
  {
    if key in bag && !bag[key].Null? then Some(bag[key]) else None
  }

  /** The strategy of a key; keys with no declaration are replaced. */
  function StrategyOf(strategies: map<string, Strategy>, key: string): Strategy {
    if key in strategies then strategies[key] else Replace
  }

  function Merge(strategy: Strategy, current: Option<Value>, update: Value): Value {
    match strategy
    case Replace => update
  }

  /** Merge a stage's partial update into the state, key by key. */
  function ApplyUpdate(strategies: map<string, Strategy>, bag: Bag, update: Bag): (r: Bag)
    ensures r.Keys == bag.Keys + update.Keys
    ensures forall k :: k in bag && k !in update ==> r[k] == bag[k]
  {
    map k | k in bag.Keys + update.Keys ::
      if k in update then Merge(StrategyOf(strategies, k), Get(bag, k), update[k]) else bag[k]
  }

  /** Under `Replace` every key of the update overrides the state: the result is `bag + update`. */
  lemma ReplaceIsOverride(strategies: map<string, Strategy>, bag: Bag, update: Bag)
    ensures ApplyUpdate(strategies, bag, update) == bag + update
  {
    var r := ApplyUpdate(strategies, bag, update);
    forall k | k in r ensures r[k] == (bag + update)[k] {
      if k in update {
        assert StrategyOf(strategies, k) == Replace;
      }
    }
  }

  /** Writing the same key in two successive updates leaves only the later value visible. */
  lemma LatestWriteWins(strategies: map<string, Strategy>, bag: Bag, u1: Bag, u2: Bag, key: string)
    requires key in u2
    ensures ApplyUpdate(strategies, ApplyUpdate(strategies, bag, u1), u2)[key] == u2[key]
  {
    ReplaceIsOverride(strategies, bag, u1);
    ReplaceIsOverride(strategies, bag + u1, u2);
  }

  /** A node of a linear graph: a name and its action, which returns a partial update or raises. */
  datatype Stage = Stage(name: string, action: Bag -> Result<Bag>)

  /** Run the stages in order, merging each update; the first stage that raises aborts the run. */
  function Run(strategies: map<string, Strategy>, stages: seq<Stage>, bag: Bag): Result<Bag>
    decreases |stages|
  {
    if stages == [] then Ok(bag)
    else match stages[0].action(bag)
      case Err(e) => Err(e)
      case Ok(update) => Run(strategies, stages[1..], ApplyUpdate(strategies, bag, update))
  }

  /** Running two chains back to back is running their concatenation. */
  lemma {:induction false} RunAppend(strategies: map<string, Strategy>, first: seq<Stage>, rest: seq<Stage>, bag: Bag)
    ensures Run(strategies, first + rest, bag) ==
      match Run(strategies, first, bag)
      case Err(e) => Err(e)
      case Ok(b) => Run(strategies, rest, b)
    decreases |first|
  {
    if first == [] {
      assert first + rest == rest;
    } else {
      assert (first + rest)[1..] == first[1..] + rest;
      match first[0].action(bag)
      case Err(e) =>
      case Ok(update) => RunAppend(strategies, first[1..], rest, ApplyUpdate(strategies, bag, update));
    }
  }

  /** If the prefix before a stage has run, and that stage raises, no later stage runs: the run fails with its message. */
  lemma AbortAt(strategies: map<string, Strategy>, stages: seq<Stage>, k: nat, bag: Bag, reached: Bag)
    requires k < |stages|
    requires Run(strategies, stages[..k], bag) == Ok(reached)
    requires stages[k].action(reached).Err?
    ensures Run(strategies, stages, bag) == Err(stages[k].action(reached).message)
  {
    assert stages == stages[..k] + stages[k..];
    RunAppend(strategies, stages[..k], stages[k..], bag);
  }
}
