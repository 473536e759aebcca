/**
 * The agent registry of the Quanta backend (backend/agent_factory.py): a
 * memoising table from agent type to agent, filled on demand by one
 * create-if-absent operation per agent type, and read through lookups and
 * status reports.
 */
module AgentRegistry {
  import opened Wrappers

  /** The model every agent of a factory talks to when none is chosen. */
  const DefaultModelId: string := "anthropic.claude-3-5-sonnet-20241022-v2:0"

  /** The five agent types, the keys `get_all_agent_statuses` reports on. */
  const AgentTypes: seq<string> := ["research", "data", "experiment", "critic", "visualization"]

  /** One entry of an agent's conversation history. */
  datatype Message = Message(role: string, content: string)

  /**
   * An agent as the factory sees it: the three identifying strings it was
   * built with and its conversation history. The model client and the system
   * prompt are not part of this model.
   */
  datatype Agent = Agent(name: string, description: string, agentId: string, messages: seq<Message>)

  /** The five specialised agents, one `create_*_agent` method each. */
  datatype AgentKind = Research | Data | Experiment | Critic | Visualization
  {
    /** The key under which the factory stores this kind of agent. */
    function Key(): (t: string)
      ensures t in AgentTypes
    {
      match this
      case Research => "research"
      case Data => "data"
      case Experiment => "experiment"
      case Critic => "critic"
      case Visualization => "visualization"
    }

    function Name(): string
    {
      match this
      case Research => "Research Agent"
      case Data => "Data Agent"
      case Experiment => "Experiment Agent"
      case Critic => "Critic Agent"
      case Visualization => "Visualization Agent"
    }

    function Description(): string
    {
      match this
      case Research => "Specialized agent for discovering data sources and research information"
      case Data => "Specialized agent for fetching and processing data"
      case Experiment => "Specialized agent for designing and running experiments"
      case Critic => "Specialized agent for validating results and methodology"
      case Visualization => "Specialized agent for creating charts and reports"
    }

    function AgentId(): string
    {
      match this
      case Research => "research_agent"
      case Data => "data_agent"
      case Experiment => "experiment_agent"
      case Critic => "critic_agent"
      case Visualization => "visualization_agent"
    }

    /** The agent a `create_*_agent` call builds when its key is absent. */
    function Blueprint(): (a: Agent)
      ensures Matches(a)
      ensures a.messages == []
    {
      Agent(Name(), Description(), AgentId(), [])
    }

    /** `a` carries this kind's identifying strings, whatever its history. */
    predicate Matches(a: Agent)
    {
      a.name == Name() && a.description == Description() && a.agentId == AgentId()
    }
  }

  /** The agent kind stored under key `t`, if `t` is one of the five keys. */
  function KindOf(t: string): (k: Option<AgentKind>)
    ensures k.Some? <==> t in AgentTypes
    ensures k.Some? ==> k.value.Key() == t
  {
    if t == "research" then Some(Research)
    else if t == "data" then Some(Data)
    else if t == "experiment" then Some(Experiment)
    else if t == "critic" then Some(Critic)
    else if t == "visualization" then Some(Visualization)
    else None
  }

  /** Distinct kinds are stored under distinct keys, so `KindOf` inverts `Key`. */
  lemma KeyInjective(k: AgentKind)
    ensures KindOf(k.Key()) == Some(k)
  {
  }

  /**
   * The table invariant: every key is one of the five agent types, and the
   * agent under it was built by that type's `create_*_agent` method.
   */
  predicate WellFormed(table: map<string, Agent>)
  {
    forall t :: t in table ==> KindOf(t).Some? && KindOf(t).value.Matches(table[t])
  }

  /**
   * The table after a `create_*_agent` call for `kind`: insert the kind's
   * agent if its key is absent, otherwise leave the table as it was.
   */
  function WithAgent(table: map<string, Agent>, kind: AgentKind): (r: map<string, Agent>)
    ensures kind.Key() in r
    ensures r.Keys == table.Keys + {kind.Key()}
    ensures kind.Key() in table ==> r == table
    ensures kind.Key() !in table ==> r[kind.Key()] == kind.Blueprint()
    ensures forall t :: t in table ==> r[t] == table[t]
  {
    if kind.Key() in table then table else table[kind.Key() := kind.Blueprint()]
  }

  /** Creating the same kind twice has the effect of creating it once. */
  lemma WithAgentIdempotent(table: map<string, Agent>, kind: AgentKind)
    ensures WithAgent(WithAgent(table, kind), kind) == WithAgent(table, kind)
  {
  }

  /**
   * A create call changes the entry under its own key and no other. This
   * follows from the contract of `WithAgent`; it is kept as the named frame
   * property for a single other key.
   */
  lemma WithAgentFrame(table: map<string, Agent>, kind: AgentKind, t: string)
    requires t != kind.Key()
    ensures t in WithAgent(table, kind) <==> t in table
    ensures t in table ==> WithAgent(table, kind)[t] == table[t]
  {
  }

  /** The order in which agents are first created does not matter. */
  lemma WithAgentCommutes(table: map<string, Agent>, k1: AgentKind, k2: AgentKind)
    ensures WithAgent(WithAgent(table, k1), k2) == WithAgent(WithAgent(table, k2), k1)
  {
    if k1.Key() in table {
      CommutesPresent(table, k1, k2);
    } else if k2.Key() in table {
      CommutesPresent(table, k2, k1);
    } else if k1 != k2 {
      CommutesAbsent(table, k1, k2);
    }
  }

  lemma CommutesPresent(table: map<string, Agent>, k1: AgentKind, k2: AgentKind)
    requires k1.Key() in table
    ensures WithAgent(WithAgent(table, k1), k2) == WithAgent(WithAgent(table, k2), k1)
  {
  }

  lemma CommutesAbsent(table: map<string, Agent>, k1: AgentKind, k2: AgentKind)
    requires k1.Key() !in table && k2.Key() !in table && k1 != k2
    ensures WithAgent(WithAgent(table, k1), k2) == WithAgent(WithAgent(table, k2), k1)
  {
    KeyInjective(k1);
    KeyInjective(k2);
    var key1, key2 := k1.Key(), k2.Key();
    var b1, b2 := k1.Blueprint(), k2.Blueprint();
    assert key1 != key2;
    assert WithAgent(table, k1) == table[key1 := b1];
    assert WithAgent(table, k2) == table[key2 := b2];
    UpdatesCommute(table, key1, b1, key2, b2);
  }

  lemma UpdatesCommute<K, V>(m: map<K, V>, a: K, x: V, b: K, y: V)
    requires a != b
    ensures m[a := x][b := y] == m[b := y][a := x]
  {
  }

  /** Create calls keep the table invariant. */
  lemma WithAgentWellFormed(table: map<string, Agent>, kind: AgentKind)
    requires WellFormed(table)
    ensures WellFormed(WithAgent(table, kind))
  {
  }

  /** A well-formed table holds at most one agent per agent type: five at most. */
  lemma WellFormedBounded(table: map<string, Agent>)
    requires WellFormed(table)
    ensures table.Keys <= set t | t in AgentTypes
    ensures |table| <= |AgentTypes| == 5
  {
    var all := set t | t in AgentTypes;
    assert table.Keys <= all;
    assert all == {"research", "data", "experiment", "critic", "visualization"};
    SubsetSize(table.Keys, all);
  }

  lemma SubsetSize<T>(a: set<T>, b: set<T>)
    requires a <= b
    ensures |a| <= |b|
  {
    assert b == a + (b - a);
  }

  /**
   * What `get_agent_status` reports: for an absent type only the type, the
   * status "not_created" and no name or description; for a created agent its
   * identifying strings, the factory's model and the length of its history.
   */
  datatype AgentStatus =
    | NotCreated(agentType: string)
    | Ready(agentType: string, name: string, description: string, agentId: string,
            modelId: string, messageCount: nat)
  {
    /** The report's "status" entry. */
    function Status(): string
    {
      if NotCreated? then "not_created" else "ready"
    }

    /** The report's "name" entry (None for an agent not created). */
    function NameEntry(): Option<string>
    {
      if NotCreated? then None else Some(name)
    }

    /** The report's "description" entry (None for an agent not created). */
    function DescriptionEntry(): Option<string>
    {
      if NotCreated? then None else Some(description)
    }
  }

  /**
   * The registry itself. `agents` is the table the source keeps in
   * `self._agents`; create calls insert into it in place.
   */
  class AgentFactory {
    const modelId: string
    var agents: map<string, Agent>

    ghost predicate Valid()
      reads this
    {
      WellFormed(agents)
    }

    constructor (modelId: string := DefaultModelId)
      ensures Valid()
      ensures this.modelId == modelId && agents == map[]
    {
      this.modelId := modelId;
      agents := map[];
    }

    /**
     * The shared body of the five `create_*_agent` methods: return the stored
     * agent of `kind`, building and storing it first if its key is absent.
     */
    method GetOrCreate(kind: AgentKind) returns (a: Agent)
      requires Valid()
      modifies this
      ensures Valid()
      ensures agents == WithAgent(old(agents), kind)
      ensures kind.Key() in old(agents) ==> a == old(agents)[kind.Key()]
      ensures kind.Key() !in old(agents) ==> a == kind.Blueprint()
      ensures a == agents[kind.Key()]
    {
      WithAgentWellFormed(agents, kind);
      if kind.Key() !in agents {
        agents := agents[kind.Key() := kind.Blueprint()];
      }
      a := agents[kind.Key()];
    }

    method CreateResearchAgent() returns (a: Agent)
      requires Valid()
      modifies this
      ensures Valid() && agents == WithAgent(old(agents), Research)
      ensures a == agents["research"] && Research.Matches(a)
    {
      a := GetOrCreate(Research);
    }

    method CreateDataAgent() returns (a: Agent)
      requires Valid()
      modifies this
      ensures Valid() && agents == WithAgent(old(agents), Data)
      ensures a == agents["data"] && Data.Matches(a)
    {
      a := GetOrCreate(Data);
    }

    method CreateExperimentAgent() returns (a: Agent)
      requires Valid()
      modifies this
      ensures Valid() && agents == WithAgent(old(agents), Experiment)
      ensures a == agents["experiment"] && Experiment.Matches(a)
    {
      a := GetOrCreate(Experiment);
    }

    method CreateCriticAgent() returns (a: Agent)
      requires Valid()
      modifies this
      ensures Valid() && agents == WithAgent(old(agents), Critic)
      ensures a == agents["critic"] && Critic.Matches(a)
    {
      a := GetOrCreate(Critic);
    }

    method CreateVisualizationAgent() returns (a: Agent)
      requires Valid()
      modifies this
      ensures Valid() && agents == WithAgent(old(agents), Visualization)
      ensures a == agents["visualization"] && Visualization.Matches(a)
    {
      a := GetOrCreate(Visualization);
    }

    /** `get_agent`: the stored agent of type `t`, or None. */
    function GetAgent(t: string): (r: Option<Agent>)
      reads this
      ensures r.Some? <==> t in agents
      ensures r.Some? ==> r.value == agents[t]
    {
      if t in agents then Some(agents[t]) else None
    }

    /**
     * `get_all_agents`: a copy of the table. Maps are values here, so what a
     * caller does with the copy cannot reach the factory.
     */
    function GetAllAgents(): (m: map<string, Agent>)
      reads this
      ensures m.Keys == agents.Keys
      ensures forall t :: t in m ==> GetAgent(t) == Some(m[t])
    {
      agents
    }

    /** `get_agent_status`: the status report for agent type `t`. */
    function GetAgentStatus(t: string): (s: AgentStatus)
      reads this
      ensures s.agentType == t
      ensures s.Status() == "ready" <==> t in agents
      ensures s.Status() == "not_created" <==> t !in agents
      ensures t !in agents ==> s.NameEntry() == None && s.DescriptionEntry() == None
      ensures t in agents ==>
        && s.NameEntry() == Some(agents[t].name)
        && s.DescriptionEntry() == Some(agents[t].description)
        && s.agentId == agents[t].agentId
        && s.modelId == modelId
        && s.messageCount == |agents[t].messages|
    {
      match GetAgent(t)
      case None => NotCreated(t)
      case Some(a) => Ready(t, a.name, a.description, a.agentId, modelId, |a.messages|)
    }

    /** `get_all_agent_statuses`: a report for each of the five agent types. */
    function GetAllAgentStatuses(): (m: map<string, AgentStatus>)
      reads this
      ensures m.Keys == set t | t in AgentTypes
      ensures forall t :: t in m ==> m[t] == GetAgentStatus(t)
    {
      map t | t in AgentTypes :: GetAgentStatus(t)
    }
  }

  /**
   * In a valid factory the types reported "ready" by `get_all_agent_statuses`
   * are exactly the types created so far.
   */
  lemma ReadyTypesAreCreated(f: AgentFactory)
    requires f.Valid()
    ensures (set t | t in f.GetAllAgentStatuses() && f.GetAllAgentStatuses()[t].Status() == "ready") == f.agents.Keys
  {
  }

  /** The agent history update the backend's test double performs on every call. */
  function Converse(a: Agent, prompt: string, response: string): (b: Agent)
    ensures b.name == a.name && b.description == a.description && b.agentId == a.agentId
    ensures |b.messages| == |a.messages| + 2
    ensures b.messages[..|a.messages|] == a.messages
    ensures b.messages[|a.messages|..] == [Message("user", prompt), Message("assistant", response)]
  {
    a.(messages := a.messages + [Message("user", prompt), Message("assistant", response)])
  }

  /**
   * After an agent is called once, its status report counts two more
   * messages and otherwise stays the same.
   */
  lemma ConverseCountsTwo(f: AgentFactory, t: string, a: Agent, prompt: string, response: string)
    requires t in f.agents && f.agents[t] == Converse(a, prompt, response)
    ensures f.GetAgentStatus(t).Ready?
    ensures f.GetAgentStatus(t) == Ready(t, a.name, a.description, a.agentId, f.modelId, |a.messages| + 2)
  {
  }
}
