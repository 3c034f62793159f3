/** `case_study_agent.py`: extract the structured metadata of a customer
    story through the deployed `CaseStudyAgent` or a direct completion, and
    deploy that agent (`deploy` is `AgentRegistry.Deploy` with the name
    `CaseStudyAgent`). */
module CaseStudyAgent {
  import opened PyStrings
  import opened JsonValues
  import opened FoundryRuns
  import opened ChatBackend

  const AgentName: string := "CaseStudyAgent"
  const DeployCommand: string := "deploy-case-study-agent"

  /** The user message sent on either backend. */
  function UserMessage(pageText: string, referenceUrl: string): string {
    "Reference URL: " + referenceUrl + "\n\nPage content:\n" + pageText
  }

  /** The direct request: JSON mode at temperature 0.1. */
  function DirectRequest(pageText: string, referenceUrl: string): ChatRequest {
    ChatRequest(CaseStudyInstructions, UserMessage(pageText, referenceUrl), "json_object", 0.1)
  }

  /** `run`: the parsed reply of the chosen backend, or what it raises.
      `parse` is `json.loads` (`Err` carries its exception text). */
  method Run(pageText: string, referenceUrl: string, env: Services, parse: string -> Outcome<Json>)
    returns (r: Outcome<Json>, backend: Backend, created: Option<ThreadAndRun>, request: Option<ChatRequest>)
    requires RemoteRunEnds(env, AgentName)
    ensures backend == SelectBackend(env, AgentName)
    ensures backend.Remote? ==>
      && created == Some(ThreadAndRun(backend.agentId, [NewMessage("user", UserMessage(pageText, referenceUrl))]))
      && request == None
      && r == (match InvokeResult(env.polls, env.messages)
               case Ok(raw) => parse(raw)
               case Err(m) => Err(m))
    ensures backend.Direct? ==>
      && created == None
      && request == Some(DirectRequest(pageText, referenceUrl))
      && r == (match env.completion
               case Ok(content) => parse(CompletionText(content))
               case Err(m) => Err(m))
    ensures backend.Unavailable? ==>
      created == None && request == None && r == Err(NotDeployedMessage(AgentName, DeployCommand))
  {
    var message := UserMessage(pageText, referenceUrl);
    backend := SelectBackend(env, AgentName);
    created, request := None, None;
    if env.hasProject {
      var agent := FindAgentByName(env.agents, AgentName);
      if agent.Some? {
        var raw, run, getRuns, sleeps, listed;
        raw, run, getRuns, sleeps, listed := InvokeAndWait(agent.value.id, message, env.polls, env.messages);
        created := Some(run);
        match raw {
          case Err(m) => r := Err(m);
          case Ok(text) => r := parse(text);
        }
        return;
      }
    }
    if !env.hasChat {
      r := Err(NotDeployedMessage(AgentName, DeployCommand));
      return;
    }
    request := Some(ChatRequest(CaseStudyInstructions, message, "json_object", 0.1));
    match env.completion
    case Err(m) => r := Err(m);
    case Ok(content) => r := parse(CompletionText(content));
  }
}
