/**
 * The agent tool that schedules a known agent graph under a cron expression, and the listing
 * of the agents it can schedule. Scheduling itself is the graph library's: the model records
 * each request to schedule an agent.
 */
module CronTools {
  import opened Wrappers

  const NotFound: string := "Agent not found"
  const CreatedPrefix: string := "成功创建了一个 "
  const CreatedMiddle: string := " 的定时Agent。"

  /** A compiled agent graph, known by the name of its state graph. */
  datatype Agent = Agent(graphName: string)

  /** A request to schedule an agent: its bean name and the cron expression, passed through
      without validation. */
  datatype Schedule = Schedule(agentName: string, cron: string)

  /** The agent a name selects: none for a missing map or an unknown name. */
  function Selected(agents: Option<map<string, Agent>>, agentName: string): Option<Agent> {
    if agents.Some? && agentName in agents.value then Some(agents.value[agentName]) else None
  }

  /** The tool's reply. */
  function Reply(agents: Option<map<string, Agent>>, cron: string, agentName: string): (reply: string)
    ensures Selected(agents, agentName).None? <==> reply == NotFound
  {
    match Selected(agents, agentName)
    case None => NotFound
    case Some(agent) => CreatedPrefix + cron + CreatedMiddle + agent.graphName
  }

  /** The reply to a known agent names the cron expression and the agent's graph. */
  lemma {:induction false} ReplyFacts(agents: Option<map<string, Agent>>, cron: string, agentName: string)
    requires Selected(agents, agentName).Some?
    ensures var reply := Reply(agents, cron, agentName);
      var n := |CreatedPrefix| + |cron|;
      && reply[..|CreatedPrefix|] == CreatedPrefix
      && reply[|CreatedPrefix|..n] == cron
      && reply[n..n + |CreatedMiddle|] == CreatedMiddle
      && reply[n + |CreatedMiddle|..] == agents.value[agentName].graphName
  {
    var reply := Reply(agents, cron, agentName);
    assert reply == CreatedPrefix + cron + CreatedMiddle + agents.value[agentName].graphName;
  }

  /** One line of the listing. */
  function Describe(name: string, agent: Agent): string {
    "AgentName: " + name + ", Function Describe: " + agent.graphName
  }

  /** `order` lists every key of `keys` exactly once: the map's iteration order. */
  predicate IsListing(order: seq<string>, keys: set<string>) {
    (forall i :: 0 <= i < |order| ==> order[i] in keys)
    && (forall k :: k in keys ==> k in order)
    && (forall i, j :: 0 <= i < j < |order| ==> order[i] != order[j])
  }

  /** A listing of a set is as long as the set. */
  lemma {:induction false} ListingLength(order: seq<string>, keys: set<string>)
    requires IsListing(order, keys)
    ensures |order| == |keys|
    decreases |order|
  {
    if order != [] {
      var last := order[|order| - 1];
      var init := order[..|order| - 1];
      assert IsListing(init, keys - {last}) by {
        forall k | k in keys - {last} ensures k in init {
          var i :| 0 <= i < |order| && order[i] == k;
          assert i != |order| - 1;
          assert init[i] == k;
        }
        forall i | 0 <= i < |init| ensures init[i] in keys - {last} {
          assert init[i] == order[i];
          assert order[i] != order[|order| - 1];
        }
      }
      ListingLength(init, keys - {last});
    }
  }

  /** `cronAgentsDesc`: one line per agent, in the map's iteration order; nothing without a map. */
  function AgentsDesc(agents: Option<map<string, Agent>>, order: seq<string>): (lines: seq<string>)
    requires agents.Some? ==> IsListing(order, agents.value.Keys)
    ensures agents.None? ==> lines == []
    ensures agents.Some? ==> |lines| == |order|
    ensures agents.Some? ==>
      forall i :: 0 <= i < |order| ==> lines[i] == Describe(order[i], agents.value[order[i]])
  {
    if agents.None? then []
    else seq(|order|, i requires 0 <= i < |order| => Describe(order[i], agents.value[order[i]]))
  }

  /** The listing has exactly one line per agent. */
  lemma AgentsDescCount(agents: map<string, Agent>, order: seq<string>)
    requires IsListing(order, agents.Keys)
    ensures |AgentsDesc(Some(agents), order)| == |agents|
  {
    ListingLength(order, agents.Keys);
  }

  /** The tool, with the agents it may schedule and the schedules it has requested. */
  class CronAgentTools {
    const agents: Option<map<string, Agent>>
    var scheduled: seq<Schedule>

    constructor(agents: Option<map<string, Agent>>)
      ensures this.agents == agents && scheduled == []
    {
      this.agents := agents;
      scheduled := [];
    }

    /** `createCronAgent`: schedules a known agent once with the given cron and replies. */
    method CreateCronAgent(cron: string, agentName: string) returns (reply: string)
      modifies this
      ensures reply == Reply(agents, cron, agentName)
      ensures scheduled == old(scheduled) +
        (if Selected(agents, agentName).Some? then [Schedule(agentName, cron)] else [])
    {
      if agents.None? {
        return NotFound;
      }
      if agentName !in agents.value {
        return NotFound;
      }
      var agent := agents.value[agentName];
      scheduled := scheduled + [Schedule(agentName, cron)];
      reply := CreatedPrefix + cron + CreatedMiddle + agent.graphName;
    }
  }
}
