/** The Foundry agent helpers of `_foundry.py`: looking an agent up by name,
    and running one to completion by polling a thread run and reading the
    newest assistant reply.  The agents service is replaced by what it
    returns: the list of agents, the sequence of run snapshots successive
    `get_run` calls report, and the thread's messages newest first. */
module FoundryRuns {
  import opened PyStrings

  /** `_TERMINAL_STATUSES`. */
  const TerminalStatuses: set<string> := {"completed", "failed", "cancelled", "expired"}

  /** An agent as `list_agents` reports it; `name` and `description` may be
      unset. */
  datatype Agent = Agent(
    id: string,
    name: Option<string>,
    model: string,
    description: Option<string>,
    instructions: string,
    tools: seq<string>)

  // --------------------------------------------------------- lookup by name

  /** Position of the first agent whose name is exactly `name`. */
  function FindAgentIndex(agents: seq<Agent>, name: string): (r: Option<nat>)
    ensures r.None? <==> forall k :: 0 <= k < |agents| ==> agents[k].name != Some(name)
    ensures r.Some? ==> r.value < |agents| && agents[r.value].name == Some(name)
    ensures r.Some? ==> forall k :: 0 <= k < r.value ==> agents[k].name != Some(name)
  {
    if agents == [] then None
    else if agents[0].name == Some(name) then Some(0)
    else match FindAgentIndex(agents[1..], name)
      case None => None
      case Some(k) => Some(k + 1)
  }

  /** The first position holding the name is the one found. */
  lemma FindAgentIndexAt(agents: seq<Agent>, name: string, k: nat)
    requires k < |agents| && agents[k].name == Some(name)
    requires forall j :: 0 <= j < k ==> agents[j].name != Some(name)
    ensures FindAgentIndex(agents, name) == Some(k)
  {
    var r := FindAgentIndex(agents, name);
    assert r.Some?;
    assert !(r.value < k);
  }

  /** `find_agent_by_name_sync`: the first agent with that name, or `None`. */
  function FindAgentByName(agents: seq<Agent>, name: string): (r: Option<Agent>)
    ensures r.None? <==> FindAgentIndex(agents, name).None?
    ensures r.Some? ==> r.value == agents[FindAgentIndex(agents, name).value]
  {
    match FindAgentIndex(agents, name)
    case None => None
    case Some(k) => Some(agents[k])
  }

  /** Agents listed after the first match do not change the lookup. */
  lemma {:induction false} FindAgentAppend(agents: seq<Agent>, more: seq<Agent>, name: string)
    requires FindAgentIndex(agents, name).Some?
    ensures FindAgentIndex(agents + more, name) == FindAgentIndex(agents, name)
  {
    if agents[0].name != Some(name) {
      assert (agents + more)[1..] == agents[1..] + more;
      FindAgentAppend(agents[1..], more, name);
    }
  }

  // ------------------------------------------------------------- messages

  /** One content part of a thread message. */
  datatype MessagePart = TextPart(value: string) | ImagePart(fileId: string) | OtherPart

  /** A thread message; `role` is the text of its role. */
  datatype ThreadMessage = ThreadMessage(role: string, content: seq<MessagePart>)

  /** The one message a new thread is created with. */
  datatype NewMessage = NewMessage(role: string, content: string)

  /** A `create_thread_and_run` call: the agent the run targets and the
      messages the new thread starts with. */
  datatype ThreadAndRun = ThreadAndRun(agentId: string, messages: seq<NewMessage>)

  /** Position of the first text part of a message. */
  function FirstTextIndex(parts: seq<MessagePart>): (r: Option<nat>)
    ensures r.None? <==> forall k :: 0 <= k < |parts| ==> !parts[k].TextPart?
    ensures r.Some? ==> r.value < |parts| && parts[r.value].TextPart?
    ensures r.Some? ==> forall k :: 0 <= k < r.value ==> !parts[k].TextPart?
  {
    if parts == [] then None
    else if parts[0].TextPart? then Some(0)
    else match FirstTextIndex(parts[1..])
      case None => None
      case Some(k) => Some(k + 1)
  }

  /** The text of the first text part, if any. */
  function FirstText(parts: seq<MessagePart>): (r: Option<string>)
    ensures r.None? <==> FirstTextIndex(parts).None?
    ensures r.Some? ==> r.value == parts[FirstTextIndex(parts).value].value
  {
    match FirstTextIndex(parts)
    case None => None
    case Some(k) => Some(parts[k].value)
  }

  predicate HasText(m: ThreadMessage) {
    m.role == "assistant" && FirstText(m.content).Some?
  }

  /** The reply `invoke_and_wait` returns from messages listed newest first:
      the first text part of the newest assistant message that has one. */
  function NewestAssistantText(messages: seq<ThreadMessage>): string {
    if messages == [] then ""
    else if HasText(messages[0]) then FirstText(messages[0].content).value
    else NewestAssistantText(messages[1..])
  }

  /** The reply is empty when no assistant message carries text; otherwise it
      is the first text part of the first such message, and an assistant
      message without text does not stop the scan. */
  lemma {:induction false} NewestAssistantTextChosen(messages: seq<ThreadMessage>, i: nat)
    requires i <= |messages|
    requires forall k :: 0 <= k < i ==> !HasText(messages[k])
    ensures i == |messages| ==> NewestAssistantText(messages) == ""
    ensures i < |messages| && HasText(messages[i]) ==>
      NewestAssistantText(messages) == FirstText(messages[i].content).value
  {
    if messages != [] && i > 0 {
      NewestAssistantTextChosen(messages[1..], i - 1);
    }
  }

  /** The nested scan of `invoke_and_wait` over the listed messages. */
  method NewestAssistantReply(messages: seq<ThreadMessage>) returns (text: string)
    ensures text == NewestAssistantText(messages)
  {
    var i := 0;
    while i < |messages|
      invariant 0 <= i <= |messages|
      invariant NewestAssistantText(messages) == NewestAssistantText(messages[i..])
    {
      if messages[i].role == "assistant" {
        var parts := messages[i].content;
        var j := 0;
        while j < |parts|
          invariant 0 <= j <= |parts|
          invariant forall k :: 0 <= k < j ==> !parts[k].TextPart?
        {
          if parts[j].TextPart? {
            assert FirstText(parts[j..]) == Some(parts[j].value);
            FirstTextAfterSkipped(parts, j);
            text := parts[j].value;
            return;
          }
          j := j + 1;
        }
        FirstTextAfterSkipped(parts, j);
      }
      assert messages[i..][1..] == messages[i + 1..];
      i := i + 1;
    }
    text := "";
  }

  lemma {:induction false} FirstTextAfterSkipped(parts: seq<MessagePart>, j: nat)
    requires j <= |parts|
    requires forall k :: 0 <= k < j ==> !parts[k].TextPart?
    ensures FirstText(parts) == FirstText(parts[j..])
  {
    if j > 0 {
      assert parts[1..][j - 1..] == parts[j..];
      FirstTextAfterSkipped(parts[1..], j - 1);
    }
  }

  // ------------------------------------------------------------ run polling

  /** What one `get_run` call reports: the status text and, when the run
      carries an error, its message. */
  datatype RunSnapshot = RunSnapshot(status: string, lastError: Option<string>)

  predicate IsTerminal(run: RunSnapshot) {
    run.status in TerminalStatuses
  }

  /** The run eventually reaches a terminal status. */
  predicate Terminates(polls: seq<RunSnapshot>) {
    exists k :: 0 <= k < |polls| && IsTerminal(polls[k])
  }

  /** The poll at which the loop stops. */
  function FirstTerminal(polls: seq<RunSnapshot>): (k: nat)
    requires Terminates(polls)
    ensures k < |polls| && IsTerminal(polls[k])
    ensures forall j :: 0 <= j < k ==> !IsTerminal(polls[j])
  {
    if IsTerminal(polls[0]) then 0
    else
      var j :| 0 <= j < |polls| && IsTerminal(polls[j]);
      assert IsTerminal(polls[1..][j - 1]);
      FirstTerminal(polls[1..]) + 1
  }

  /** The `RuntimeError` text for a run that ended in another terminal
      status than `completed`. */
  function RunEndedMessage(run: RunSnapshot): string {
    "Agent run ended with status '" + run.status + "': "
      + (match run.lastError case None => "unknown error" case Some(m) => m)
  }

  /** What `invoke_and_wait` returns (`Ok`) or raises (`Err`) for a run that
      ends with the first terminal snapshot of `polls`. */
  function InvokeResult(polls: seq<RunSnapshot>, messages: seq<ThreadMessage>): (r: Outcome<string>)
    requires Terminates(polls)
  {
    var run := polls[FirstTerminal(polls)];
    if run.status == "completed" then Ok(NewestAssistantText(messages)) else Err(RunEndedMessage(run))
  }

  /** `invoke_and_wait`: create a thread holding the one user message and a
      run of `agentId`, poll `get_run` (sleeping between polls) until the
      status is terminal, then either raise with the status and the run's
      error or return the newest assistant text.  The outputs report the
      thread and run created, how many `get_run` and sleep calls were made, and
      whether the messages were listed. */
  method InvokeAndWait(agentId: string, userMessage: string, polls: seq<RunSnapshot>,
                       messages: seq<ThreadMessage>)
    returns (r: Outcome<string>, created: ThreadAndRun, getRuns: nat, sleeps: nat, listed: bool)
    requires Terminates(polls)
    ensures created == ThreadAndRun(agentId, [NewMessage("user", userMessage)])
    ensures getRuns == FirstTerminal(polls) + 1 && sleeps == FirstTerminal(polls)
    ensures listed <==> polls[FirstTerminal(polls)].status == "completed"
    ensures r == InvokeResult(polls, messages)
  {
    created := ThreadAndRun(agentId, [NewMessage("user", userMessage)]);
    var i := 0;
    var run := polls[0];
    getRuns, sleeps := 1, 0;
    while !IsTerminal(run)
      invariant 0 <= i <= FirstTerminal(polls)
      invariant run == polls[i]
      invariant getRuns == i + 1 && sleeps == i
      decreases FirstTerminal(polls) - i
    {
      sleeps := sleeps + 1;
      i := i + 1;
      run := polls[i];
      getRuns := getRuns + 1;
    }
    if run.status != "completed" {
      r, listed := Err(RunEndedMessage(run)), false;
      return;
    }
    listed := true;
    var text := NewestAssistantReply(messages);
    r := Ok(text);
  }

  /** Statuses other than the four terminal ones keep the loop polling: a run
      that reports `requires_action` and then `completed` is read twice and
      slept on once. */
  lemma PollsPastRequiresAction(last: Option<string>)
    ensures var polls := [RunSnapshot("requires_action", None), RunSnapshot("completed", last)];
      Terminates(polls) && FirstTerminal(polls) == 1
  {
    var polls := [RunSnapshot("requires_action", None), RunSnapshot("completed", last)];
    assert IsTerminal(polls[1]);
    assert !IsTerminal(polls[0]) by {
      assert |"requires_action"| != |"completed"| && |"requires_action"| != |"cancelled"|;
      assert |"requires_action"| != |"failed"| && |"requires_action"| != |"expired"|;
    }
  }
}
