/** The `agents_*` tools of the MCP server (`agents.py`, repeated in
    `server.py`): list the project's agents, start an invocation, and report
    its status and its result.  Each SDK call is replaced by what it answers
    (`Err` carries the exception text), and the tools record the calls they
    make. */
module McpAgents {
  import opened PyStrings
  import opened FoundryRuns
  import opened InvocationIds

  const NotConfigured: string := "Error: AZURE_AI_PROJECT_ENDPOINT is not configured."
  const ListNotConfigured: string :=
    NotConfigured + " Set this environment variable to your Azure AI Foundry project endpoint."

  // --------------------------------------------------------------- listing

  const ListHeader: string := "## Available Agents and Workflows\n"
  const NoAgents: string := "No agents are currently available in the project."
  const UnnamedAgent: string := "Unnamed Agent"

  /** `getattr(agent, 'name', None) or 'Unnamed Agent'`. */
  function DisplayName(a: Agent): (r: string)
    ensures r != ""
    ensures r == UnnamedAgent || a.name == Some(r)
    ensures a.name.None? || a.name == Some("") ==> r == UnnamedAgent
  {
    match a.name
    case Some(n) => if n != "" then n else UnnamedAgent
    case None => UnnamedAgent
  }

  /** The block written for one agent: heading, id and model, the
      description and the tool types when there are any, then a blank
      line. */
  function AgentLines(a: Agent): (r: seq<string>)
    ensures |r| == 4 + (if a.description.Some? && a.description.value != "" then 1 else 0)
                     + (if a.tools != [] then 1 else 0)
    ensures r[0] == "### " + DisplayName(a)
    ensures r[1] == "- **ID**: `" + a.id + "`"
    ensures r[|r| - 1] == ""
  {
    var described := if a.description.Some? && a.description.value != ""
                     then ["- **Description**: " + a.description.value] else [];
    var tools := if a.tools != [] then ["- **Tools**: " + Join(", ", a.tools)] else [];
    ["### " + DisplayName(a), "- **ID**: `" + a.id + "`", "- **Model**: " + a.model]
      + described + tools + [""]
  }

  /** The blocks of all agents, in listed order. */
  function Listing(agents: seq<Agent>): seq<string> {
    if agents == [] then []
    else Listing(agents[..|agents| - 1]) + AgentLines(agents[|agents| - 1])
  }

  lemma ListingStep(agents: seq<Agent>, i: nat)
    requires i < |agents|
    ensures Listing(agents[..i + 1]) == Listing(agents[..i]) + AgentLines(agents[i])
  {
    assert agents[..i + 1][..i] == agents[..i];
  }

  /** Every listed agent gets its heading line. */
  lemma {:induction false} ListingHeadings(agents: seq<Agent>, k: nat)
    requires k < |agents|
    ensures "### " + DisplayName(agents[k]) in Listing(agents)
  {
    var last := |agents| - 1;
    if k == last {
      assert AgentLines(agents[k])[0] in AgentLines(agents[k]);
    } else {
      assert agents[..last][k] == agents[k];
      ListingHeadings(agents[..last], k);
    }
  }

  /** Every agent takes at least four lines. */
  lemma {:induction false} ListingLength(agents: seq<Agent>)
    ensures |Listing(agents)| >= 4 * |agents|
  {
    if agents != [] {
      ListingLength(agents[..|agents| - 1]);
    }
  }

  /** `agents_list_agents`; `agents` is what `list_agents` answers. */
  method ListAgents(hasProject: bool, agents: Outcome<seq<Agent>>) returns (text: string)
    ensures !hasProject ==> text == ListNotConfigured
    ensures hasProject && agents.Err? ==> text == "Error listing agents: " + agents.message
    ensures hasProject && agents.Ok? && agents.value == [] ==> text == NoAgents
    ensures hasProject && agents.Ok? && agents.value != [] ==>
      text == Join("\n", [ListHeader] + Listing(agents.value))
  {
    if !hasProject {
      return ListNotConfigured;
    }
    if agents.Err? {
      return "Error listing agents: " + agents.message;
    }
    var all := agents.value;
    if all == [] {
      return NoAgents;
    }
    var lines := ListingLines(all);
    text := Join("\n", lines);
  }

  /** The `for agent in agents` loop of `agents_list_agents`. */
  method ListingLines(all: seq<Agent>) returns (lines: seq<string>)
    ensures lines == [ListHeader] + Listing(all)
  {
    var blocks := [];
    var i := 0;
    while i < |all|
      invariant 0 <= i <= |all|
      invariant blocks == Listing(all[..i])
    {
      ListingStep(all, i);
      blocks := blocks + AgentLines(all[i]);
      i := i + 1;
    }
    assert all[..i] == all;
    lines := [ListHeader] + blocks;
  }

  // ------------------------------------------------------------- invoking

  /** The task, followed by the file context when one is given and
      non-empty. */
  function ComposeContent(task: string, fileContext: Option<string>): (c: string)
    ensures StartsWith(c, task)
    ensures c == task <==> fileContext.None? || fileContext.value == ""
    ensures fileContext.Some? && fileContext.value != "" ==>
      c[|task|..] == "\n\nAdditional context:\n" + fileContext.value
  {
    match fileContext
    case Some(fc) =>
      if fc != "" then
        var c := task + "\n\nAdditional context:\n" + fc;
        assert c[..|task|] == task && c[|task|..] == "\n\nAdditional context:\n" + fc;
        c
      else task
    case None => task
  }

  /** What `create_thread_and_run` answers. */
  datatype ThreadRun = ThreadRun(threadId: string, runId: string, status: string)

  function InvocationStarted(invocationId: string, status: string): string {
    "Agent invocation started.\n- **Invocation ID**: `" + invocationId + "`\n- **Status**: " + status
      + "\n\nUse `agents_get_invocation_status` to check progress and "
      + "`agents_get_invocation_result` to retrieve results."
  }

  /** `agents_invoke_agent`: one thread with one user message holding the
      composed content; the reply carries the invocation id made from the
      thread and run ids (which parse back by `InvocationIds.ParseExactly`
      when the thread id has no `"::"` and does not end in `':'`). */
  method InvokeAgent(hasProject: bool, agentId: string, task: string, fileContext: Option<string>,
                     created: Outcome<ThreadRun>)
    returns (text: string, request: Option<ThreadAndRun>)
    ensures !hasProject ==> text == NotConfigured && request == None
    ensures hasProject ==> request == Some(ThreadAndRun(agentId, [NewMessage("user", ComposeContent(task, fileContext))]))
    ensures hasProject && created.Err? ==>
      text == "Error invoking agent '" + agentId + "': " + created.message
    ensures hasProject && created.Ok? ==>
      text == InvocationStarted(MakeInvocationId(created.value.threadId, created.value.runId),
                                created.value.status)
  {
    if !hasProject {
      return NotConfigured, None;
    }
    var content := task;
    if fileContext.Some? && fileContext.value != "" {
      content := task + "\n\nAdditional context:\n" + fileContext.value;
    }
    request := Some(ThreadAndRun(agentId, [NewMessage("user", content)]));
    match created {
      case Err(m) => text := "Error invoking agent '" + agentId + "': " + m;
      case Ok(run) => text := InvocationStarted(MakeInvocationId(run.threadId, run.runId), run.status);
    }
  }

  // --------------------------------------------------------------- status

  /** The run error: its `str()` and its `message` attribute, if it has
      one. */
  datatype RunError = RunError(text: string, message: Option<string>)

  /** What `get_run` answers; the times are shown as given. */
  datatype RunState = RunState(
    status: string,
    startedAt: Option<string>,
    completedAt: Option<string>,
    lastError: Option<RunError>)

  /** A call the status and result tools make. */
  datatype Request = GetRun(threadId: string, runId: string) | ListMessages(threadId: string)

  const FinishedLine: string :=
    "\nInvocation has finished. Use `agents_get_invocation_result` to retrieve results."
  const RunningLine: string := "\nInvocation is still running. Check again later."

  /** The status report lines: id and status, the times and the error when
      present, then whether the run has finished. */
  function StatusLines(invocationId: string, run: RunState): (r: seq<string>)
    ensures 4 <= |r| <= 7
    ensures r[0] == "## Invocation Status\n"
    ensures r[1] == "- **Invocation ID**: `" + invocationId + "`"
    ensures r[2] == "- **Status**: " + run.status
    ensures r[|r| - 1] == FinishedLine <==> run.status in TerminalStatuses
    ensures r[|r| - 1] == RunningLine <==> run.status !in TerminalStatuses
    ensures |r| == 4 + (if run.startedAt.Some? then 1 else 0) + (if run.completedAt.Some? then 1 else 0)
                     + (if run.lastError.Some? then 1 else 0)
  {
    ["## Invocation Status\n", "- **Invocation ID**: `" + invocationId + "`", "- **Status**: " + run.status]
      + (if run.startedAt.Some? then ["- **Started At**: " + run.startedAt.value] else [])
      + (if run.completedAt.Some? then ["- **Completed At**: " + run.completedAt.value] else [])
      + (if run.lastError.Some? then ["- **Error**: " + run.lastError.value.text] else [])
      + [if run.status in TerminalStatuses then FinishedLine else RunningLine]
  }

  /** `agents_get_invocation_status`: a malformed id is answered with the
      parse error and no lookup; otherwise exactly one `get_run`. */
  method InvocationStatus(hasProject: bool, invocationId: string, run: Outcome<RunState>)
    returns (text: string, requests: seq<Request>)
    ensures !hasProject ==> text == NotConfigured && requests == []
    ensures hasProject && ParseInvocationId(invocationId).Invalid? ==>
      text == ParseInvocationId(invocationId).message && requests == []
    ensures hasProject && ParseInvocationId(invocationId).Ids? ==>
      var ids := ParseInvocationId(invocationId);
      && requests == [GetRun(ids.threadId, ids.runId)]
      && (run.Err? ==> text == "Error getting status for '" + invocationId + "': " + run.message)
      && (run.Ok? ==> text == Join("\n", StatusLines(invocationId, run.value)))
  {
    requests := [];
    if !hasProject {
      return NotConfigured, requests;
    }
    var parsed := ParseInvocationId(invocationId);
    if parsed.Invalid? {
      return parsed.message, requests;
    }
    requests := [GetRun(parsed.threadId, parsed.runId)];
    if run.Err? {
      return "Error getting status for '" + invocationId + "': " + run.message, requests;
    }
    var state := run.value;
    var lines := ["## Invocation Status\n", "- **Invocation ID**: `" + invocationId + "`",
                  "- **Status**: " + state.status];
    if state.startedAt.Some? {
      lines := lines + ["- **Started At**: " + state.startedAt.value];
    }
    if state.completedAt.Some? {
      lines := lines + ["- **Completed At**: " + state.completedAt.value];
    }
    if state.lastError.Some? {
      lines := lines + ["- **Error**: " + state.lastError.value.text];
    }
    if state.status in TerminalStatuses {
      lines := lines + [FinishedLine];
    } else {
      lines := lines + [RunningLine];
    }
    assert lines == StatusLines(invocationId, state);
    text := Join("\n", lines);
  }

  // --------------------------------------------------------------- result

  function NotComplete(status: string): string {
    "Invocation is not complete yet. Current status: **" + status + "**\n"
      + "Use `agents_get_invocation_status` to monitor progress."
  }

  /** `getattr(err, "message", str(err)) if err else "Unknown error"`. */
  function FailureMessage(lastError: Option<RunError>): (m: string)
    ensures lastError.None? ==> m == "Unknown error"
    ensures lastError.Some? && lastError.value.message.Some? ==> m == lastError.value.message.value
    ensures lastError.Some? && lastError.value.message.None? ==> m == lastError.value.text
  {
    match lastError
    case None => "Unknown error"
    case Some(e) => if e.message.Some? then e.message.value else e.text
  }

  /** The lines one message part contributes: its text, or a marker for an
      image file. */
  function PartLines(p: MessagePart): seq<string> {
    match p
    case TextPart(v) => [v]
    case ImagePart(id) => ["[Image file: " + id + "]"]
    case OtherPart => []
  }

  /** The lines of all parts of a message, in order. */
  function RenderParts(parts: seq<MessagePart>): seq<string> {
    if parts == [] then []
    else RenderParts(parts[..|parts| - 1]) + PartLines(parts[|parts| - 1])
  }

  /** Rendering distributes over concatenation of parts. */
  lemma {:induction false} RenderPartsAppend(a: seq<MessagePart>, b: seq<MessagePart>)
    ensures RenderParts(a + b) == RenderParts(a) + RenderParts(b)
    decreases |b|
  {
    if b != [] {
      var last := |b| - 1;
      assert (a + b)[..|a + b| - 1] == a + b[..last];
      RenderPartsAppend(a, b[..last]);
    } else {
      assert a + b == a;
    }
  }

  function CountRendered(parts: seq<MessagePart>): nat {
    if parts == [] then 0 else (if parts[0].OtherPart? then 0 else 1) + CountRendered(parts[1..])
  }

  /** One line per text or image part, none for any other part. */
  lemma {:induction false} RenderPartsCount(parts: seq<MessagePart>)
    ensures |RenderParts(parts)| == CountRendered(parts)
  {
    if parts != [] {
      RenderPartsAppend([parts[0]], parts[1..]);
      assert [parts[0]] + parts[1..] == parts;
      assert RenderParts([parts[0]]) == RenderParts([]) + PartLines(parts[0]);
      RenderPartsCount(parts[1..]);
    }
  }

  /** Position of the newest assistant message, with or without text. */
  function FirstAssistantIndex(messages: seq<ThreadMessage>): (r: Option<nat>)
    ensures r.None? <==> forall k :: 0 <= k < |messages| ==> messages[k].role != "assistant"
    ensures r.Some? ==> r.value < |messages| && messages[r.value].role == "assistant"
    ensures r.Some? ==> forall k :: 0 <= k < r.value ==> messages[k].role != "assistant"
  {
    if messages == [] then None
    else if messages[0].role == "assistant" then Some(0)
    else match FirstAssistantIndex(messages[1..])
      case None => None
      case Some(k) => Some(k + 1)
  }

  /** The response lines: the parts of the newest assistant message only, or
      the notice that there is none. */
  function ResponseLines(messages: seq<ThreadMessage>): seq<string> {
    match FirstAssistantIndex(messages)
    case None => ["No assistant response found."]
    case Some(k) => RenderParts(messages[k].content)
  }

  function ResultHeader(invocationId: string): seq<string> {
    ["## Invocation Result\n", "- **Invocation ID**: `" + invocationId + "`\n", "### Response\n"]
  }

  /** Unlike `invoke_and_wait`, the result tool stops at the newest assistant
      message even when it has no text: an image-only reply followed by an
      older text reply renders the image marker, while `invoke_and_wait`
      returns the older text. */
  lemma ResultStopsAtNewestAssistant(fileId: string, older: string)
    ensures var messages := [ThreadMessage("assistant", [ImagePart(fileId)]),
                             ThreadMessage("assistant", [TextPart(older)])];
      && ResponseLines(messages) == ["[Image file: " + fileId + "]"]
      && NewestAssistantText(messages) == older
  {
    var messages := [ThreadMessage("assistant", [ImagePart(fileId)]),
                     ThreadMessage("assistant", [TextPart(older)])];
    assert RenderParts([ImagePart(fileId)]) == RenderParts([]) + PartLines(ImagePart(fileId));
    assert !HasText(messages[0]);
    assert messages[1..] == [messages[1]];
    assert HasText(messages[1]);
  }

  /** The scan of the messages newest first: the parts of the first
      assistant message, then `break`. */
  method RenderResponse(messages: seq<ThreadMessage>) returns (lines: seq<string>)
    ensures lines == ResponseLines(messages)
  {
    lines := [];
    var found := false;
    var i := 0;
    while i < |messages|
      invariant 0 <= i <= |messages|
      invariant !found
      invariant forall k :: 0 <= k < i ==> messages[k].role != "assistant"
    {
      if messages[i].role == "assistant" {
        found := true;
        var parts := messages[i].content;
        var j := 0;
        while j < |parts|
          invariant 0 <= j <= |parts|
          invariant lines == RenderParts(parts[..j])
        {
          assert parts[..j + 1][..j] == parts[..j];
          lines := lines + PartLines(parts[j]);
          j := j + 1;
        }
        assert parts[..j] == parts;
        break;
      }
      i := i + 1;
    }
    if !found {
      lines := lines + ["No assistant response found."];
    }
  }

  /** `agents_get_invocation_result`: a malformed id gets the parse error; a
      run that has not ended reports its status; a failed run its error; a
      cancelled or expired run its status; only a completed run has its
      messages listed, and only the newest assistant message is shown. */
  method InvocationResult(hasProject: bool, invocationId: string, run: Outcome<RunState>,
                          messages: Outcome<seq<ThreadMessage>>)
    returns (text: string, requests: seq<Request>)
    ensures !hasProject ==> text == NotConfigured && requests == []
    ensures hasProject && ParseInvocationId(invocationId).Invalid? ==>
      text == ParseInvocationId(invocationId).message && requests == []
    ensures hasProject && ParseInvocationId(invocationId).Ids? ==>
      var ids := ParseInvocationId(invocationId);
      var failed := "Error retrieving result for '" + invocationId + "': ";
      && |requests| >= 1 && requests[0] == GetRun(ids.threadId, ids.runId)
      && (run.Err? ==> text == failed + run.message && |requests| == 1)
      && (run.Ok? && run.value.status !in TerminalStatuses ==>
            text == NotComplete(run.value.status) && |requests| == 1)
      && (run.Ok? && run.value.status == "failed" ==>
            text == "Invocation **failed**: " + FailureMessage(run.value.lastError) && |requests| == 1)
      && (run.Ok? && run.value.status in {"cancelled", "expired"} ==>
            text == "Invocation was **" + run.value.status + "**." && |requests| == 1)
      && (run.Ok? && run.value.status == "completed" ==>
            && requests == [GetRun(ids.threadId, ids.runId), ListMessages(ids.threadId)]
            && (messages.Err? ==> text == failed + messages.message)
            && (messages.Ok? ==>
                  text == Join("\n", ResultHeader(invocationId) + ResponseLines(messages.value))))
  {
    requests := [];
    if !hasProject {
      return NotConfigured, requests;
    }
    var parsed := ParseInvocationId(invocationId);
    if parsed.Invalid? {
      return parsed.message, requests;
    }
    var failed := "Error retrieving result for '" + invocationId + "': ";
    requests := [GetRun(parsed.threadId, parsed.runId)];
    if run.Err? {
      return failed + run.message, requests;
    }
    var status := run.value.status;
    if status !in TerminalStatuses {
      return NotComplete(status), requests;
    }
    if status == "failed" {
      var err := run.value.lastError;
      var msg := if err.Some? then (if err.value.message.Some? then err.value.message.value else err.value.text)
                 else "Unknown error";
      return "Invocation **failed**: " + msg, requests;
    }
    if status == "cancelled" || status == "expired" {
      return "Invocation was **" + status + "**.", requests;
    }
    requests := requests + [ListMessages(parsed.threadId)];
    if messages.Err? {
      return failed + messages.message, requests;
    }
    var response := RenderResponse(messages.value);
    text := Join("\n", ResultHeader(invocationId) + response);
  }
}
