/** `workflows_run_project_log_workflow` of the MCP server's `workflows.py`:
    the same four steps as `run_pipeline`, but both agents are plain chat
    completions made by `_run_chat_agent`, and the component/pattern summary
    runs outside the `try` that guards the architecture reply.  As in
    `ProjectLogWorkflow`, every outside call is replaced by its outcome: the
    page text or the fetch exception, the two completions, and the string
    `_ingest_project_log_doc` returns or the exception it raises; `parse` is
    `json.loads`. */
module McpWorkflows {
  import opened PyStrings
  import opened JsonValues
  import opened ChatBackend
  import opened WorkflowReport
  import CaseStudyAgent
  import ProjectLogWorkflow

  /** The `RuntimeError` of `_run_chat_agent` without a chat client. */
  const ChatNotConfigured: string :=
    "AZURE_OPENAI_COMPLETION_MODEL_NAME is not configured. "
      + "Set this environment variable to your chat model deployment name."

  /** The request `_run_chat_agent` sends: JSON mode at temperature 0.1,
      whichever agent it stands for. */
  function ChatRequestFor(system: Prompt, user: string): (q: ChatRequest)
    ensures q.system == system && q.user == user
    ensures q.responseFormat == "json_object" && q.temperature == 0.1
  {
    ChatRequest(system, user, "json_object", 0.1)
  }

  /** The value of `_run_chat_agent`: the completion content, `""` for an
      empty or null content, or what it raises.  It differs from the agents'
      direct path (`ChatBackend.CompletionText`) only where that path reads an
      empty reply as `"{}"`. */
  function ChatReply(hasChat: bool, completion: Outcome<Option<string>>): (r: Outcome<string>)
    ensures r.Err? <==> !hasChat || completion.Err?
    ensures !hasChat ==> r == Err(ChatNotConfigured)
    ensures hasChat && completion.Err? ==> r == Err(completion.message)
    ensures r.Ok? ==> (r.value == "" <==> completion.value.None? || completion.value.value == "")
    ensures r.Ok? ==> CompletionText(completion.value) == if r.value == "" then "{}" else r.value
  {
    if !hasChat then Err(ChatNotConfigured)
    else match completion
      case Err(m) => Err(m)
      case Ok(content) =>
        match content
        case Some(c) => Ok(c)
        case None => Ok("")
  }

  /** Step 2's `try`: the chat reply and its parse; either failure is
      reported as the case-study failure. */
  function CaseStudyOutcome(hasChat: bool, completion: Outcome<Option<string>>,
                            parse: string -> Outcome<Json>): (r: Outcome<Json>)
    ensures ChatReply(hasChat, completion).Err? ==> r == Err(ChatReply(hasChat, completion).message)
    ensures ChatReply(hasChat, completion).Ok? ==> r == parse(ChatReply(hasChat, completion).value)
  {
    match ChatReply(hasChat, completion)
    case Err(m) => Err(m)
    case Ok(raw) => parse(raw)
  }

  /** What step 3 leaves: the stored architecture string and its lines, or
      the exception that escapes the workflow. */
  datatype McpArchitecture = Recovered(stored: string, lines: seq<string>) | Escapes(error: string)

  /** Reply and parse are guarded; the summary in the `else` branch is not,
      so a summary failure escapes instead of being recovered. */
  function McpArchitectureStage(reply: Outcome<string>, parse: string -> Outcome<Json>): (a: McpArchitecture)
    ensures a.Escapes? <==>
      reply.Ok? && parse(reply.value).Ok? && Summary(parse(reply.value).value).failure.Some?
    ensures a.Escapes? ==> a.error == Summary(parse(reply.value).value).failure.value
    ensures a.Recovered? ==> (reply.Ok? && a.stored == reply.value) || StartsWith(a.stored, "{\"error\": \"")
    ensures reply.Err? ==> a == Recovered(ErrorObject(reply.message), [ArchitectureWarning(reply.message)])
    ensures reply.Ok? && parse(reply.value).Err? ==>
      var m := parse(reply.value).message;
      a == Recovered(ErrorObject(m), [ArchitectureWarning(m)])
    ensures reply.Ok? && parse(reply.value).Ok? && Summary(parse(reply.value).value).failure.None? ==>
      a == Recovered(reply.value, Summary(parse(reply.value).value).lines)
  {
    match reply
    case Err(m) => Recovered(ErrorObject(m), [ArchitectureWarning(m)])
    case Ok(raw) =>
      match parse(raw)
      case Err(m) => Recovered(ErrorObject(m), [ArchitectureWarning(m)])
      case Ok(data) =>
        var p := Summary(data);
        match p.failure
        case None => Recovered(raw, p.lines)
        case Some(m) => Escapes(m)
  }

  /** The two pipelines agree on step 3 whenever the MCP one recovers; where
      the MCP one lets the summary failure escape, `run_pipeline` stores the
      error object and ends its lines with the warning. */
  lemma ArchitectureVariantsAgree(reply: Outcome<string>, parse: string -> Outcome<Json>)
    ensures var m := McpArchitectureStage(reply, parse);
      var a := ProjectLogWorkflow.ArchitectureStage(reply, parse);
      && (m.Recovered? ==> m.stored == a.stored && m.lines == a.lines)
      && (m.Escapes? ==>
            && a.stored == ErrorObject(m.error)
            && |a.lines| >= 1 && a.lines[|a.lines| - 1] == ArchitectureWarning(m.error))
  {
  }

  /** A parsed reply that is not an object is stored by `run_pipeline` but
      escapes the MCP workflow. */
  lemma NonObjectReplyEscapes(raw: string, parse: string -> Outcome<Json>)
    requires parse(raw).Ok? && !parse(raw).value.JObj?
    ensures McpArchitectureStage(Ok(raw), parse) == Escapes(NoAttribute(parse(raw).value, "get"))
    ensures ProjectLogWorkflow.ArchitectureStage(Ok(raw), parse).stored == ErrorObject(NoAttribute(parse(raw).value, "get"))
  {
  }

  /** Steps 3 and 4 for the fields `f`, the joined tags and the outcome
      `arch` of the architecture stage, entered with the four report lines
      and the two calls of steps 1 and 2. */
  method ArchitectureAndIngest(head: seq<string>, before: seq<Stage>, f: Fields, tagsText: string,
                               projectName: string, hasChat: bool, arch: McpArchitecture, ingest: Outcome<string>)
    returns (r: Report, lines: seq<string>, calls: seq<Stage>, requests: seq<ChatRequest>)
    requires |head| == 4 && head[0] == Header && InOrder(before) && |before| == 2
    ensures arch.Escapes? ==> lines == head + FieldLines(f, tagsText) + [ArchitectureStep]
    ensures arch.Recovered? ==>
      lines == head + FieldLines(f, tagsText) + [ArchitectureStep] + arch.lines + [IngestStep]
               + (if ingest.Ok? then [ingest.value, Completed] else [])
    ensures 3 <= |calls| && calls[0] == before[0] && calls[1] == before[1] && InOrder(calls)
    ensures requests == if hasChat then [ChatRequestFor(ArchitectureInstructions, ArchitectureMessage(f, tagsText))] else []
    ensures r.Returned? ==> StartsWith(r.text, Header)
    ensures ArchitectureLaterSteps(f, tagsText, projectName, arch, ingest, r, lines, calls)
  {
    var message := ArchitectureMessage(f, tagsText);
    lines := head + FieldLines(f, tagsText) + [ArchitectureStep];
    InOrderExtend(before, [Architecture(message)]);
    calls := before + [Architecture(message)];
    requests := if hasChat then [ChatRequest(ArchitectureInstructions, message, "json_object", 0.1)] else [];
    if arch.Escapes? {
      r := Raised(arch.error);
      return;
    }
    lines := lines + arch.lines + [IngestStep];
    var next := [Ingest(IngestRequestOf(f, projectName, arch.stored))];
    InOrderExtend(calls, next);
    calls := calls + next;
    if ingest.Err? {
      r := Returned(Join("\n", lines) + IngestionFailed(ingest.message));
      ReportStartsWithHeader(lines, IngestionFailed(ingest.message));
      return;
    }
    lines := lines + [ingest.value, Completed];
    r := Returned(Join("\n", lines));
    ReportStartsWithHeader(lines, "");
    assert Join("\n", lines) + "" == Join("\n", lines);
  }

  /** `workflows_run_project_log_workflow`.  `lines` is the report's line
      list when it returns, `requests` the chat completions sent. */
  method RunWorkflow(storyUrl: string, projectName: string, fetch: Outcome<string>, hasChat: bool,
                     caseStudyCompletion: Outcome<Option<string>>,
                     architectureCompletion: Outcome<Option<string>>,
                     parse: string -> Outcome<Json>, ingest: Outcome<string>)
    returns (r: Report, lines: seq<string>, calls: seq<Stage>, requests: seq<ChatRequest>)
    ensures InOrder(calls) && |calls| >= 1 && calls[0] == Fetch(storyUrl)
    ensures |lines| >= 2 && lines[0] == Header && lines[1] == FetchStep
    ensures r.Returned? ==> StartsWith(r.text, Header)
    ensures JsonMode(requests) && (!hasChat ==> requests == [])
    ensures fetch.Err? ==>
      && calls == [Fetch(storyUrl)] && requests == []
      && r == Returned(Join("\n", lines) + FetchFailed(storyUrl, fetch.message))
    ensures fetch.Ok? ==>
      McpAfterFetch(fetch.value, storyUrl, projectName, hasChat,
                    CaseStudyOutcome(hasChat, caseStudyCompletion, parse),
                    McpArchitectureStage(ChatReply(hasChat, architectureCompletion), parse),
                    ingest, r, lines, calls, requests)
  {
    lines := [Header, FetchStep];
    calls := [Fetch(storyUrl)];
    requests := [];
    if fetch.Err? {
      r := Returned(Join("\n", lines) + FetchFailed(storyUrl, fetch.message));
      ReportStartsWithHeader(lines, FetchFailed(storyUrl, fetch.message));
      return;
    }
    r, lines, calls, requests :=
      AfterFetch(fetch.value, storyUrl, projectName, hasChat, CaseStudyOutcome(hasChat, caseStudyCompletion, parse),
                 McpArchitectureStage(ChatReply(hasChat, architectureCompletion), parse), ingest);
  }

  /** What the workflow leaves once the page is fetched, given the outcome
      of the case-study stage and of the architecture stage: the fetched and
      case-study lines and the case-study request; a case-study failure ends
      the report, unusable fields raise, and otherwise steps 3 and 4 follow
      with the architecture request second. */
  predicate McpAfterFetch(pageText: string, storyUrl: string, projectName: string, hasChat: bool,
                          caseStudy: Outcome<Json>, arch: McpArchitecture, ingest: Outcome<string>,
                          r: Report, lines: seq<string>, calls: seq<Stage>, requests: seq<ChatRequest>)
  {
    && |calls| >= 2 && calls[1] == CaseStudy(CaseStudyAgent.UserMessage(pageText, storyUrl))
    && |lines| >= 4 && lines[2] == FetchedLine(pageText, storyUrl) && lines[3] == CaseStudyStep
    && (hasChat ==> |requests| >= 1 && requests[0] == ChatRequestFor(CaseStudyInstructions, calls[1].userMessage))
    && (caseStudy.Err? ==>
          |calls| == 2 && r == Returned(Join("\n", lines) + CaseStudyFailed(caseStudy.message)))
    && (caseStudy.Ok? && !ProjectLogWorkflow.UsableFields(caseStudy.value, storyUrl) ==>
          r.Raised? && |calls| == 2)
    && (caseStudy.Ok? && ProjectLogWorkflow.UsableFields(caseStudy.value, storyUrl) ==>
          && |calls| >= 3
          && McpLaterSteps(caseStudy.value, storyUrl, projectName, arch, ingest, r, lines, calls)
          && calls[2].Architecture?
          && (hasChat ==> |requests| == 2 && requests[1] == ChatRequestFor(ArchitectureInstructions, calls[2].userMessage)))
  }

  /** Steps 2 to 4, after the page text was fetched, for the outcomes of the
      case-study and architecture stages. */
  method AfterFetch(pageText: string, storyUrl: string, projectName: string, hasChat: bool,
                    caseStudy: Outcome<Json>, arch: McpArchitecture, ingest: Outcome<string>)
    returns (r: Report, lines: seq<string>, calls: seq<Stage>, requests: seq<ChatRequest>)
    ensures InOrder(calls) && |calls| >= 1 && calls[0] == Fetch(storyUrl)
    ensures |lines| >= 2 && lines[0] == Header && lines[1] == FetchStep
    ensures r.Returned? ==> StartsWith(r.text, Header)
    ensures JsonMode(requests) && (!hasChat ==> requests == [])
    ensures McpAfterFetch(pageText, storyUrl, projectName, hasChat, caseStudy, arch, ingest, r, lines, calls, requests)
  {
    var message := CaseStudyAgent.UserMessage(pageText, storyUrl);
    lines := [Header, FetchStep, FetchedLine(pageText, storyUrl), CaseStudyStep];
    calls := [Fetch(storyUrl), CaseStudy(message)];
    requests := if hasChat then [ChatRequest(CaseStudyInstructions, message, "json_object", 0.1)] else [];
    if caseStudy.Err? {
      r := Returned(Join("\n", lines) + CaseStudyFailed(caseStudy.message));
      ReportStartsWithHeader(lines, CaseStudyFailed(caseStudy.message));
      return;
    }
    var tail, rest, sent;
    r, tail, rest, sent := FieldsAndLater(lines, calls, caseStudy.value, storyUrl, projectName, hasChat, arch, ingest);
    if hasChat {
      JsonModeCons(requests[0], sent);
    }
    lines, calls, requests := tail, rest, requests + sent;
  }

  /** What steps 3 and 4 leave for a case study with usable fields and the
      outcome `arch` of the architecture stage. */
  predicate McpLaterSteps(caseStudy: Json, storyUrl: string, projectName: string, arch: McpArchitecture,
                          ingest: Outcome<string>, r: Report, lines: seq<string>, calls: seq<Stage>)
    requires ProjectLogWorkflow.UsableFields(caseStudy, storyUrl)
  {
    var f := ReadFields(caseStudy, storyUrl).value;
    ArchitectureLaterSteps(f, JoinStrs(", ", f.tags).value, projectName, arch, ingest, r, lines, calls)
  }

  /** Steps 3 and 4 for the fields `f` and the joined tags: after the first
      four lines the report holds the field lines and the step 3 heading,
      then, unless the summary escaped, the architecture stage's lines, the
      step 4 heading and, when the ingest succeeded, its text; the
      architecture request is about those fields, a summary that raises
      escapes before any ingest, and otherwise the stored architecture is
      ingested and the ingest text or its error ends the report. */
  predicate ArchitectureLaterSteps(f: Fields, tagsText: string, projectName: string, a: McpArchitecture,
                                   ingest: Outcome<string>, r: Report, lines: seq<string>, calls: seq<Stage>)
  {
    && |calls| >= 3 && calls[2] == Architecture(ArchitectureMessage(f, tagsText))
    && |lines| >= 4
    && (a.Escapes? ==>
          && r == Raised(a.error) && |calls| == 3
          && lines[4..] == FieldLines(f, tagsText) + [ArchitectureStep])
    && (a.Recovered? ==>
          && lines[4..] == FieldLines(f, tagsText) + [ArchitectureStep] + a.lines + [IngestStep]
                           + (if ingest.Ok? then [ingest.value, Completed] else [])
          && |calls| == 4
          && calls[3] == Ingest(IngestRequestOf(f, projectName, a.stored))
          && (ingest.Err? ==> r == Returned(Join("\n", lines) + IngestionFailed(ingest.message)))
          && (ingest.Ok? ==>
                && |lines| >= 2
                && r == Returned(Join("\n", lines))
                && lines[|lines| - 2] == ingest.value
                && lines[|lines| - 1] == Completed))
  }

  /** A chat or parse failure in step 3 leaves its warning in the report as
      the tenth line, before the step 4 heading; a summary failure instead
      escapes with no line after the step 3 heading. */
  lemma McpFailureWarns(f: Fields, tagsText: string, projectName: string,
                        reply: Outcome<string>, parse: string -> Outcome<Json>,
                        ingest: Outcome<string>, r: Report, lines: seq<string>, calls: seq<Stage>)
    requires ArchitectureLaterSteps(f, tagsText, projectName, McpArchitectureStage(reply, parse), ingest, r, lines, calls)
    ensures reply.Err? ==>
      |lines| > 10 && lines[9] == ArchitectureWarning(reply.message) && lines[10] == IngestStep
    ensures reply.Ok? && parse(reply.value).Err? ==>
      |lines| > 10 && lines[9] == ArchitectureWarning(parse(reply.value).message) && lines[10] == IngestStep
    ensures McpArchitectureStage(reply, parse).Escapes? ==> |lines| == 9 && lines[8] == ArchitectureStep
  {
    var a := McpArchitectureStage(reply, parse);
    McpStageLinesInReport(f, tagsText, projectName, a, ingest, r, lines, calls);
  }

  /** Where the stage's lines sit in the report: after the first nine lines
      and before the step 4 heading, or nowhere when the summary escaped. */
  lemma McpStageLinesInReport(f: Fields, tagsText: string, projectName: string, a: McpArchitecture,
                              ingest: Outcome<string>, r: Report, lines: seq<string>, calls: seq<Stage>)
    requires ArchitectureLaterSteps(f, tagsText, projectName, a, ingest, r, lines, calls)
    ensures a.Escapes? ==> |lines| == 9 && lines[8] == ArchitectureStep
    ensures a.Recovered? ==>
      && |lines| > 9 + |a.lines| && lines[9 + |a.lines|] == IngestStep
      && forall k :: 0 <= k < |a.lines| ==> lines[9 + k] == a.lines[k]
  {
    assert |FieldLines(f, tagsText)| == 4;
    if a.Escapes? {
      assert lines[8] == lines[4..][4];
    } else {
      var mid := FieldLines(f, tagsText) + [ArchitectureStep] + a.lines + [IngestStep];
      assert lines[4..][..|mid|] == mid;
      forall k | 0 <= k < |a.lines| ensures lines[9 + k] == a.lines[k] {
        assert lines[9 + k] == mid[5 + k];
      }
      assert lines[9 + |a.lines|] == mid[5 + |a.lines|];
    }
  }

  /** The field reading, which raises on a case study without usable
      fields, then steps 3 and 4; `requests` holds the architecture request. */
  method FieldsAndLater(head: seq<string>, before: seq<Stage>, caseStudy: Json, storyUrl: string,
                        projectName: string, hasChat: bool, arch: McpArchitecture, ingest: Outcome<string>)
    returns (r: Report, lines: seq<string>, calls: seq<Stage>, requests: seq<ChatRequest>)
    requires |head| == 4 && head[0] == Header && InOrder(before) && |before| == 2
    ensures |lines| >= 4 && forall k :: 0 <= k < 4 ==> lines[k] == head[k]
    ensures |calls| >= 2 && calls[0] == before[0] && calls[1] == before[1] && InOrder(calls)
    ensures r.Returned? ==> StartsWith(r.text, Header)
    ensures JsonMode(requests) && (!hasChat ==> requests == [])
    ensures !ProjectLogWorkflow.UsableFields(caseStudy, storyUrl) ==> r.Raised? && |calls| == 2 && requests == []
    ensures ProjectLogWorkflow.UsableFields(caseStudy, storyUrl) ==>
      && |calls| >= 3
      && requests == (if hasChat then [ChatRequestFor(ArchitectureInstructions, calls[2].userMessage)] else [])
      && McpLaterSteps(caseStudy, storyUrl, projectName, arch, ingest, r, lines, calls)
  {
    lines, calls, requests := head, before, [];
    var fields := ReadFields(caseStudy, storyUrl);
    if fields.Err? {
      r := Raised(fields.message);
      return;
    }
    var f := fields.value;
    var tagsText := JoinStrs(", ", f.tags);
    if tagsText.Err? {
      r := Raised(tagsText.message);
      return;
    }
    r, lines, calls, requests := ArchitectureAndIngest(head, before, f, tagsText.value, projectName, hasChat,
                                                       arch, ingest);
  }

  /** Every request is a JSON-mode completion at temperature 0.1. */
  predicate JsonMode(requests: seq<ChatRequest>) {
    forall k :: 0 <= k < |requests| ==>
      requests[k].temperature == 0.1 && requests[k].responseFormat == "json_object"
  }

  /** A JSON-mode request in front of JSON-mode requests keeps them so. */
  lemma JsonModeCons(q: ChatRequest, rest: seq<ChatRequest>)
    requires q.temperature == 0.1 && q.responseFormat == "json_object" && JsonMode(rest)
    ensures JsonMode([q] + rest)
  {
    assert forall k :: 1 <= k < |[q] + rest| ==> ([q] + rest)[k] == rest[k - 1];
  }
}
