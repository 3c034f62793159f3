/** `architecture_agent.py`: generate an architecture diagram as a JSON
    string through the deployed `ArchitectureAgent` or a direct completion,
    and deploy that agent (`deploy` is `AgentRegistry.Deploy` with the name
    `ArchitectureAgent`). */
module ArchitectureAgent {
  import opened PyStrings
  import opened JsonValues
  import opened FoundryRuns
  import opened ChatBackend

  const AgentName: string := "ArchitectureAgent"
  const DeployCommand: string := "deploy-architecture-agent"

  /** The user message; `technologies` is the tags joined by `", "`. */
  function UserMessage(title: string, customerName: string, technologies: string, context: string): string {
    "Title: " + title + "\nCustomer: " + customerName + "\nTechnologies: " + technologies
      + "\n\nContext:\n" + context
  }

  /** The direct request: JSON mode at temperature 0.3. */
  function DirectRequest(message: string): ChatRequest {
    ChatRequest(ArchitectureInstructions, message, "json_object", 0.3)
  }

  /** A reply is returned unchanged once `json.loads` accepts it; otherwise
      the parse error is raised. */
  function Validated(raw: string, parse: string -> Outcome<Json>): (r: Outcome<string>)
    ensures r.Ok? <==> parse(raw).Ok?
    ensures r.Ok? ==> r.value == raw
    ensures r.Err? ==> r.message == parse(raw).message
  {
    match parse(raw)
    case Ok(_) => Ok(raw)
    case Err(m) => Err(m)
  }

  /** `run`: the chosen backend's raw reply, validated as JSON, or what the
      backend raises. */
  method Run(title: string, customerName: string, context: string, tags: seq<string>,
             env: Services, parse: string -> Outcome<Json>)
    returns (r: Outcome<string>, backend: Backend, created: Option<ThreadAndRun>, request: Option<ChatRequest>)
    requires RemoteRunEnds(env, AgentName)
    ensures backend == SelectBackend(env, AgentName)
    ensures r.Ok? ==> parse(r.value).Ok?
    ensures backend.Remote? ==>
      && created == Some(ThreadAndRun(backend.agentId, [NewMessage("user", UserMessage(title, customerName, Join(", ", tags), context))]))
      && request == None
      && (InvokeResult(env.polls, env.messages).Err? ==> r == InvokeResult(env.polls, env.messages))
      && (InvokeResult(env.polls, env.messages).Ok? ==> r == Validated(InvokeResult(env.polls, env.messages).value, parse))
    ensures backend.Direct? ==>
      && created == None
      && request == Some(DirectRequest(UserMessage(title, customerName, Join(", ", tags), context)))
      && (env.completion.Err? ==> r == Err(env.completion.message))
      && (env.completion.Ok? ==> r == Validated(CompletionText(env.completion.value), parse))
    ensures backend.Unavailable? ==>
      created == None && request == None && r == Err(NotDeployedMessage(AgentName, DeployCommand))
  {
    var message := UserMessage(title, customerName, Join(", ", tags), context);
    backend := SelectBackend(env, AgentName);
    created, request := None, None;
    if env.hasProject {
      var agent := FindAgentByName(env.agents, AgentName);
      if agent.Some? {
        var raw, run, getRuns, sleeps, listed;
        raw, run, getRuns, sleeps, listed := InvokeAndWait(agent.value.id, message, env.polls, env.messages);
        created := Some(run);
        match raw {
          case Err(m) => r := Err(m);
          case Ok(text) => r := Validated(text, parse);
        }
        return;
      }
    }
    if !env.hasChat {
      r := Err(NotDeployedMessage(AgentName, DeployCommand));
      return;
    }
    request := Some(ChatRequest(ArchitectureInstructions, message, "json_object", 0.3));
    match env.completion {
      case Err(m) => r := Err(m);
      case Ok(content) => r := Validated(CompletionText(content), parse);
    }
  }
}
