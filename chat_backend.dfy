/** The backend choice both agent modules make in `run`: the deployed
    Foundry agent when a project client exists and lists an agent of that
    name, else a direct chat completion in JSON mode when a chat client
    exists, else a `RuntimeError`. */
module ChatBackend {
  import opened PyStrings
  import opened FoundryRuns

  /** The system prompt of a request; the prompt texts themselves are not
      part of this model. */
  datatype Prompt = CaseStudyInstructions | ArchitectureInstructions

  /** A direct `chat.completions.create` call. */
  datatype ChatRequest = ChatRequest(system: Prompt, user: string, responseFormat: string, temperature: real)

  /** What the services answer to one `run`: whether a project client
      exists, the agents it lists, the snapshots and messages of the thread
      run `invoke_and_wait` creates, whether a chat client exists, and the
      content of its completion (`None` for a null content, `Err` when the
      call raises). */
  datatype Services = Services(
    hasProject: bool,
    agents: seq<Agent>,
    polls: seq<RunSnapshot>,
    messages: seq<ThreadMessage>,
    hasChat: bool,
    completion: Outcome<Option<string>>)

  datatype Backend = Remote(agentId: string) | Direct | Unavailable

  /** The deployed agent is preferred; the chat client is the fallback. */
  function SelectBackend(env: Services, agentName: string): (b: Backend)
    ensures b.Remote? <==> env.hasProject && FindAgentByName(env.agents, agentName).Some?
    ensures b.Remote? ==> b.agentId == FindAgentByName(env.agents, agentName).value.id
    ensures b.Direct? <==> !b.Remote? && env.hasChat
    ensures b.Unavailable? <==> !b.Remote? && !env.hasChat
  {
    if env.hasProject && FindAgentByName(env.agents, agentName).Some? then
      Remote(FindAgentByName(env.agents, agentName).value.id)
    else if env.hasChat then Direct
    else Unavailable
  }

  /** A remote run needs a run that ends. */
  predicate RemoteRunEnds(env: Services, agentName: string) {
    SelectBackend(env, agentName).Remote? ==> Terminates(env.polls)
  }

  /** The `RuntimeError` raised when neither backend is usable. */
  function NotDeployedMessage(agentName: string, deployCommand: string): string {
    "'" + agentName + "' is not deployed and AZURE_OPENAI_COMPLETION_MODEL_NAME "
      + "is not configured. Deploy the agent first with `" + deployCommand + "`."
  }

  /** `content or "{}"`: an empty or null completion reads as an empty JSON
      object. */
  function CompletionText(content: Option<string>): (r: string)
    ensures r != ""
    ensures content.Some? && content.value != "" ==> r == content.value
    ensures content.None? || content.value == "" ==> r == "{}"
  {
    match content
    case Some(c) => if c != "" then c else "{}"
    case None => "{}"
  }
}
