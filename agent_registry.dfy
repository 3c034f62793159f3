/** The create-or-update `deploy` shared by `case_study_agent.py` and
    `architecture_agent.py`, over the project's agent list. */
module AgentRegistry {
  import opened PyStrings
  import opened FoundryRuns

  /** The fixed name, description and instructions an agent module deploys
      under. */
  datatype AgentSpec = AgentSpec(name: string, description: string, instructions: string)

  const ProjectNotConfigured: string :=
    "AZURE_AI_PROJECT_ENDPOINT is not configured. " + "Set this environment variable before deploying."
  const ModelNotConfigured: string :=
    "AZURE_OPENAI_COMPLETION_MODEL_NAME is not configured. "
      + "Set this environment variable to your chat model deployment name."

  /** `update_agent` on an existing agent: the id and the tools stay. */
  function Updated(a: Agent, spec: AgentSpec, model: string): Agent {
    a.(name := Some(spec.name), model := model, description := Some(spec.description),
       instructions := spec.instructions)
  }

  /** `create_agent` with the service-chosen id `freshId`. */
  function Created(freshId: string, spec: AgentSpec, model: string): Agent {
    Agent(freshId, Some(spec.name), model, Some(spec.description), spec.instructions, [])
  }

  /** The agent list after a deploy, and the id `deploy` returns. */
  datatype Deployment = Deployment(agents: seq<Agent>, id: string)

  function Deployed(agents: seq<Agent>, spec: AgentSpec, model: string, freshId: string): Deployment {
    match FindAgentIndex(agents, spec.name)
    case Some(k) => Deployment(agents[k := Updated(agents[k], spec, model)], agents[k].id)
    case None => Deployment(agents + [Created(freshId, spec, model)], freshId)
  }

  /** Number of agents named `name`. */
  function CountNamed(agents: seq<Agent>, name: string): nat {
    if agents == [] then 0
    else (if agents[0].name == Some(name) then 1 else 0) + CountNamed(agents[1..], name)
  }

  lemma {:induction false} CountNamedZero(agents: seq<Agent>, name: string)
    ensures CountNamed(agents, name) == 0 <==> FindAgentIndex(agents, name).None?
  {
    if agents != [] {
      CountNamedZero(agents[1..], name);
    }
  }

  lemma {:induction false} CountNamedAppend(agents: seq<Agent>, a: Agent, name: string)
    ensures CountNamed(agents + [a], name) == CountNamed(agents, name) + (if a.name == Some(name) then 1 else 0)
  {
    if agents != [] {
      assert (agents + [a])[1..] == agents[1..] + [a];
      CountNamedAppend(agents[1..], a, name);
    }
  }

  lemma {:induction false} CountNamedUpdate(agents: seq<Agent>, k: nat, a: Agent, name: string)
    requires k < |agents| && agents[k].name == Some(name) && a.name == Some(name)
    ensures CountNamed(agents[k := a], name) == CountNamed(agents, name)
  {
    if k > 0 {
      assert agents[k := a][1..] == agents[1..][k - 1 := a];
      CountNamedUpdate(agents[1..], k - 1, a, name);
    }
  }

  /** After a deploy, looking the name up finds an agent carrying the
      returned id and the deployed model, description and instructions;
      exactly one agent has the name if none had it before, and the count is
      unchanged otherwise (a re-deploy never adds a second agent); the id is
      kept when the agent existed. */
  lemma DeployedShape(agents: seq<Agent>, spec: AgentSpec, model: string, freshId: string)
    ensures var d := Deployed(agents, spec, model, freshId);
      && FindAgentByName(d.agents, spec.name).Some?
      && FindAgentByName(d.agents, spec.name).value.id == d.id
      && FindAgentByName(d.agents, spec.name).value.model == model
      && FindAgentByName(d.agents, spec.name).value.description == Some(spec.description)
      && FindAgentByName(d.agents, spec.name).value.instructions == spec.instructions
      && CountNamed(d.agents, spec.name) == (if CountNamed(agents, spec.name) == 0 then 1 else CountNamed(agents, spec.name))
      && (FindAgentByName(agents, spec.name).Some? ==> d.id == FindAgentByName(agents, spec.name).value.id)
      && |d.agents| == |agents| + (if FindAgentByName(agents, spec.name).Some? then 0 else 1)
  {
    var d := Deployed(agents, spec, model, freshId);
    CountNamedZero(agents, spec.name);
    match FindAgentIndex(agents, spec.name)
    case Some(k) =>
      CountNamedUpdate(agents, k, Updated(agents[k], spec, model), spec.name);
      forall j | 0 <= j < k ensures d.agents[j].name != Some(spec.name) {
        assert d.agents[j] == agents[j];
      }
      FindAgentIndexAt(d.agents, spec.name, k);
    case None =>
      CountNamedAppend(agents, Created(freshId, spec, model), spec.name);
      forall j | 0 <= j < |agents| ensures d.agents[j].name != Some(spec.name) {
        assert d.agents[j] == agents[j];
      }
      FindAgentIndexAt(d.agents, spec.name, |agents|);
  }

  /** Deploying twice leaves the same agent list as deploying once and
      returns the same id: `deploy` is idempotent. */
  lemma DeployIdempotent(agents: seq<Agent>, spec: AgentSpec, model: string, id1: string, id2: string)
    ensures var once := Deployed(agents, spec, model, id1);
      Deployed(once.agents, spec, model, id2) == once
  {
    var once := Deployed(agents, spec, model, id1);
    DeployedShape(agents, spec, model, id1);
    var k := FindAgentIndex(once.agents, spec.name).value;
    assert once.agents[k := Updated(once.agents[k], spec, model)] == once.agents;
  }

  /** The project's agents, which `deploy` changes through the service. */
  class Registry {
    var agents: seq<Agent>

    constructor (agents: seq<Agent>)
      ensures this.agents == agents
    {
      this.agents := agents;
    }
  }

  /** `deploy`: without a project client or a model name it raises before
      touching the agents; otherwise it updates the first agent with the
      spec's name in place (keeping its id) or creates one, and returns the
      agent's id. */
  method Deploy(registry: Registry?, model: string, spec: AgentSpec, freshId: string)
    returns (r: Outcome<string>)
    modifies registry
    ensures registry == null ==> r == Err(ProjectNotConfigured)
    ensures registry != null && model == "" ==> r == Err(ModelNotConfigured) && registry.agents == old(registry.agents)
    ensures registry != null && model != "" ==>
      var d := Deployed(old(registry.agents), spec, model, freshId);
      registry.agents == d.agents && r == Ok(d.id)
  {
    if registry == null {
      return Err(ProjectNotConfigured);
    }
    if model == "" {
      return Err(ModelNotConfigured);
    }
    var existing := FindAgentByName(registry.agents, spec.name);
    if existing.Some? {
      var k := FindAgentIndex(registry.agents, spec.name).value;
      registry.agents := registry.agents[k := Updated(registry.agents[k], spec, model)];
      r := Ok(existing.value.id);
    } else {
      registry.agents := registry.agents + [Created(freshId, spec, model)];
      r := Ok(freshId);
    }
  }
}
