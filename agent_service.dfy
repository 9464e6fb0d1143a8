/** The agent table and the queries and updates of `agentService.js`. */
module AgentService {
  import opened Wrappers
  import opened Catalog

  /** The columns of an agent besides `agentId` (the row key), `priority`, `isActive` and
      `isDefault`. The sampling overrides may be null, or missing from a record built by hand. */
  datatype AgentFields = AgentFields(
    name: string,
    description: string,
    capabilities: string,
    modelId: Option<string>,
    apiKey: Option<string>,
    systemPrompt: Option<string>,
    temperature: Field<real>,
    topP: Field<real>,
    maxTokens: Field<int>)

  type Agent = Row<AgentFields>

  type AgentTable = Table<AgentFields>

  /** The agent fields an update names; a field left `Undefined` keeps its column. */
  datatype AgentChanges = AgentChanges(
    name: Option<string>,
    description: Option<string>,
    capabilities: Option<string>,
    modelId: Field<string>,
    apiKey: Field<string>,
    systemPrompt: Field<string>,
    temperature: Field<real>,
    topP: Field<real>,
    maxTokens: Field<int>)

  function ApplyAgentChanges(d: AgentFields, c: AgentChanges): AgentFields
  {
    AgentFields(
      Assign(d.name, c.name), Assign(d.description, c.description), Assign(d.capabilities, c.capabilities),
      AssignNullable(d.modelId, c.modelId), AssignNullable(d.apiKey, c.apiKey),
      AssignNullable(d.systemPrompt, c.systemPrompt),
      AssignField(d.temperature, c.temperature), AssignField(d.topP, c.topP),
      AssignField(d.maxTokens, c.maxTokens))
  }

  /** `getAllAgents(includeInactive)`: the active agents (or all of them) by priority. */
  function GetAllAgents(t: AgentTable, includeInactive: bool): (r: seq<Agent>)
    reads t
    ensures IsListing(t.rows, includeInactive, r)
  {
    t.GetAll(includeInactive)
  }

  /** `getAgentById(agentId)`. */
  function GetAgentById(t: AgentTable, agentId: string): (r: Option<Agent>)
    reads t
    ensures r.Some? ==> r.value in t.rows && r.value.key == agentId
    ensures r.None? <==> agentId !in Keys(t.rows)
  {
    t.GetByKey(agentId)
  }

  /** `getDefaultAgent()`. */
  function GetDefaultAgent(t: AgentTable): (r: Option<Agent>)
    reads t
    ensures DefaultAnswer(t.rows, r)
  {
    t.GetDefault()
  }

  /** `createAgent(agentData)`; `ok` is false when the `agentId` is taken. */
  method CreateAgent(t: AgentTable, agent: Agent) returns (ok: bool)
    requires t.Valid()
    modifies t
    ensures t.Valid()
    ensures ok <==> agent.key !in Keys(old(t.rows))
    ensures t.rows == Created(old(t.rows), agent)
  {
    ok := t.Create(agent);
  }

  /** `updateAgent(agentId, agentData)`; `ok` is false when no agent has that id. */
  method UpdateAgent(t: AgentTable, agentId: string, patch: Patch<AgentChanges>) returns (ok: bool)
    requires t.Valid()
    modifies t
    ensures t.Valid()
    ensures ok <==> agentId in Keys(old(t.rows))
    ensures t.rows == Updated(old(t.rows), agentId, patch, ApplyAgentChanges)
  {
    ok := t.Update(agentId, patch, ApplyAgentChanges);
  }

  /** `deleteAgent(agentId)`: a soft delete. */
  method DeleteAgent(t: AgentTable, agentId: string) returns (ok: bool)
    requires t.Valid()
    modifies t
    ensures t.Valid()
    ensures ok <==> agentId in Keys(old(t.rows))
    ensures t.rows == RawUpdated(old(t.rows), agentId, Deactivate(), KeepFields)
  {
    ok := t.SoftDelete(agentId);
  }
}
