/** `run_pipeline` of `project_log_workflow.py`: fetch the story page, run
    the case-study agent, run the architecture agent, ingest the combined
    entry, and report each step.  Every stage is replaced by its outcome:
    the page text or the fetch exception, the case-study object or what the
    agent raised, the architecture reply or what the agent raised, the
    ingested document id or the ingest exception; `parse` is `json.loads`. */
module ProjectLogWorkflow {
  import opened PyStrings
  import opened JsonValues
  import opened WorkflowReport
  import CaseStudyAgent

  /** The stored architecture string and the lines the architecture stage
      writes. */
  datatype ArchOutcome = ArchOutcome(stored: string, lines: seq<string>)

  /** Reply, parse and summary share one `try`: whatever fails there stores
      the serialised error object and appends the warning after any summary
      line already written. */
  function ArchitectureStage(reply: Outcome<string>, parse: string -> Outcome<Json>): (a: ArchOutcome)
    ensures (reply.Ok? && a.stored == reply.value) || StartsWith(a.stored, "{\"error\": \"")
    ensures 1 <= |a.lines| <= 3
    ensures reply.Err? ==> a == ArchOutcome(ErrorObject(reply.message), [ArchitectureWarning(reply.message)])
    ensures reply.Ok? && parse(reply.value).Err? ==>
      var m := parse(reply.value).message;
      a == ArchOutcome(ErrorObject(m), [ArchitectureWarning(m)])
    ensures reply.Ok? && parse(reply.value).Ok? && Summary(parse(reply.value).value).failure.None? ==>
      a == ArchOutcome(reply.value, Summary(parse(reply.value).value).lines)
    ensures reply.Ok? && parse(reply.value).Ok? && Summary(parse(reply.value).value).failure.Some? ==>
      var p := Summary(parse(reply.value).value);
      a == ArchOutcome(ErrorObject(p.failure.value), p.lines + [ArchitectureWarning(p.failure.value)])
  {
    match reply
    case Err(m) => ArchOutcome(ErrorObject(m), [ArchitectureWarning(m)])
    case Ok(raw) =>
      match parse(raw)
      case Err(m) => ArchOutcome(ErrorObject(m), [ArchitectureWarning(m)])
      case Ok(data) =>
        var p := Summary(data);
        match p.failure
        case None => ArchOutcome(raw, p.lines)
        case Some(m) => ArchOutcome(ErrorObject(m), p.lines + [ArchitectureWarning(m)])
  }

  /** A reply that parses to something other than an object is recovered:
      the error object is stored and the warning is the only line. */
  lemma NonObjectReplyRecovered(raw: string, parse: string -> Outcome<Json>)
    requires parse(raw).Ok? && !parse(raw).value.JObj?
    ensures var m := NoAttribute(parse(raw).value, "get");
      ArchitectureStage(Ok(raw), parse) == ArchOutcome(ErrorObject(m), [ArchitectureWarning(m)])
  {
  }

  /** The message of the exception step 3 catches: the agent's error, the
      parse error, or the summary's error; none when the reply is usable. */
  function ArchitectureFailure(reply: Outcome<string>, parse: string -> Outcome<Json>): Option<string> {
    match reply
    case Err(m) => Some(m)
    case Ok(raw) =>
      match parse(raw)
      case Err(m) => Some(m)
      case Ok(data) => Summary(data).failure
  }

  /** Whatever fails in step 3 stores the error object and leaves its
      warning in the report, right before the step 4 heading; when nothing
      fails the reply itself is stored. */
  lemma ArchitectureFailureWarns(f: Fields, tagsText: string, projectName: string,
                                 reply: Outcome<string>, parse: string -> Outcome<Json>,
                                 ingest: Outcome<string>, r: Report, lines: seq<string>, calls: seq<Stage>)
    requires FieldsLaterSteps(f, tagsText, projectName, ArchitectureStage(reply, parse), ingest, r, lines, calls)
    ensures var a := ArchitectureStage(reply, parse);
      && |lines| > 9 + |a.lines|
      && lines[9 + |a.lines|] == IngestStep
      && (ArchitectureFailure(reply, parse).None? ==> reply.Ok? && a.stored == reply.value)
      && (ArchitectureFailure(reply, parse).Some? ==>
            var m := ArchitectureFailure(reply, parse).value;
            && a.stored == ErrorObject(m)
            && lines[8 + |a.lines|] == ArchitectureWarning(m))
  {
    var a := ArchitectureStage(reply, parse);
    StageLinesInReport(f, tagsText, projectName, a, ingest, r, lines, calls);
    FailureEndsStageLines(reply, parse);
  }

  /** A failure in step 3 stores the error object and ends the stage's
      lines with its warning; without one the reply is stored. */
  lemma FailureEndsStageLines(reply: Outcome<string>, parse: string -> Outcome<Json>)
    ensures var a := ArchitectureStage(reply, parse);
      && (ArchitectureFailure(reply, parse).None? ==> reply.Ok? && a.stored == reply.value)
      && (ArchitectureFailure(reply, parse).Some? ==>
            var m := ArchitectureFailure(reply, parse).value;
            a.stored == ErrorObject(m) && |a.lines| >= 1 && a.lines[|a.lines| - 1] == ArchitectureWarning(m))
  {
  }

  /** The architecture stage's lines sit in the report after the first nine
      lines, followed by the step 4 heading. */
  lemma StageLinesInReport(f: Fields, tagsText: string, projectName: string, a: ArchOutcome,
                           ingest: Outcome<string>, r: Report, lines: seq<string>, calls: seq<Stage>)
    requires FieldsLaterSteps(f, tagsText, projectName, a, ingest, r, lines, calls)
    ensures |lines| > 9 + |a.lines| && lines[9 + |a.lines|] == IngestStep
    ensures forall k :: 0 <= k < |a.lines| ==> lines[9 + k] == a.lines[k]
  {
    var mid := FieldLines(f, tagsText) + [ArchitectureStep] + a.lines + [IngestStep];
    assert |FieldLines(f, tagsText)| == 4;
    assert lines[4..][..|mid|] == mid;
    forall k | 0 <= k < |a.lines| ensures lines[9 + k] == a.lines[k] {
      assert lines[9 + k] == mid[5 + k];
    }
    assert lines[9 + |a.lines|] == mid[5 + |a.lines|];
  }

  /** The pipeline gets past the case study and its report lines. */
  predicate ReachesArchitecture(storyUrl: string, fetch: Outcome<string>, caseStudy: Outcome<Json>) {
    fetch.Ok? && caseStudy.Ok? && UsableFields(caseStudy.value, storyUrl)
  }

  /** The case study's fields can be read and its tags joined. */
  predicate UsableFields(caseStudy: Json, storyUrl: string) {
    && ReadFields(caseStudy, storyUrl).Ok?
    && JoinStrs(", ", ReadFields(caseStudy, storyUrl).value.tags).Ok?
  }

  /** What steps 3 and 4 leave for a case study with usable fields and the
      outcome `arch` of the architecture stage. */
  predicate LaterSteps(caseStudy: Json, storyUrl: string, projectName: string, arch: ArchOutcome,
                       ingest: Outcome<string>, r: Report, lines: seq<string>, calls: seq<Stage>)
    requires UsableFields(caseStudy, storyUrl)
  {
    var f := ReadFields(caseStudy, storyUrl).value;
    FieldsLaterSteps(f, JoinStrs(", ", f.tags).value, projectName, arch, ingest, r, lines, calls)
  }

  /** Steps 3 and 4 for the fields `f` and the joined tags: after the first
      four lines the report holds the field lines, the step 3 heading, the
      architecture stage's lines, the step 4 heading and, when the ingest
      succeeded, its lines; the architecture agent is asked about those
      fields, the stored architecture is ingested with them, and the report
      ends with the ingestion error or with the success lines. */
  predicate FieldsLaterSteps(f: Fields, tagsText: string, projectName: string, arch: ArchOutcome,
                             ingest: Outcome<string>, r: Report, lines: seq<string>, calls: seq<Stage>)
  {
    && |lines| >= 4
    && lines[4..] == FieldLines(f, tagsText) + [ArchitectureStep] + arch.lines + [IngestStep]
                     + (if ingest.Ok? then [IngestedLines(ingest.value, f), Completed] else [])
    && |calls| == 4
    && calls[2] == Architecture(ArchitectureMessage(f, tagsText))
    && calls[3] == Ingest(IngestRequestOf(f, projectName, arch.stored))
    && (ingest.Err? ==> r == Returned(Join("\n", lines) + IngestionFailed(ingest.message)))
    && (ingest.Ok? ==>
          && |lines| >= 2
          && r == Returned(Join("\n", lines))
          && lines[|lines| - 2] == IngestedLines(ingest.value, f)
          && lines[|lines| - 1] == Completed)
  }

  function IngestedLines(docId: string, f: Fields): string {
    "Project log ingested successfully.\n- **ID**: `" + docId + "`\n- **Title**: " + PyStr(f.title)
      + "\n- **Customer**: " + PyStr(f.customerName)
  }

  /** Steps 3 and 4 of `run_pipeline` for the fields `f`, the joined tags
      and the outcome `arch` of the architecture stage, entered with the
      four report lines and the two calls of steps 1 and 2. */
  method ArchitectureAndIngest(head: seq<string>, before: seq<Stage>, f: Fields, tagsText: string,
                               projectName: string, arch: ArchOutcome, ingest: Outcome<string>)
    returns (r: Report, lines: seq<string>, calls: seq<Stage>)
    requires |head| == 4 && head[0] == Header && InOrder(before) && |before| == 2
    ensures lines == head + FieldLines(f, tagsText) + [ArchitectureStep] + arch.lines + [IngestStep]
                     + (if ingest.Ok? then [IngestedLines(ingest.value, f), Completed] else [])
    ensures r.Returned? && StartsWith(r.text, Header)
    ensures |calls| == 4 && calls[0] == before[0] && calls[1] == before[1] && InOrder(calls)
    ensures FieldsLaterSteps(f, tagsText, projectName, arch, ingest, r, lines, calls)
  {
    lines := head + FieldLines(f, tagsText) + [ArchitectureStep] + arch.lines + [IngestStep];
    var next := [Architecture(ArchitectureMessage(f, tagsText)), Ingest(IngestRequestOf(f, projectName, arch.stored))];
    InOrderExtend(before, next);
    calls := before + next;
    if ingest.Err? {
      r := Returned(Join("\n", lines) + IngestionFailed(ingest.message));
      ReportStartsWithHeader(lines, IngestionFailed(ingest.message));
      return;
    }
    lines := lines + [IngestedLines(ingest.value, f), Completed];
    r := Returned(Join("\n", lines));
    ReportStartsWithHeader(lines, "");
    assert Join("\n", lines) + "" == Join("\n", lines);
  }

  /** `run_pipeline`.  `lines` is the report's line list when it returns. */
  method RunPipeline(storyUrl: string, projectName: string, fetch: Outcome<string>,
                     caseStudy: Outcome<Json>, architecture: Outcome<string>,
                     parse: string -> Outcome<Json>, ingest: Outcome<string>)
    returns (r: Report, lines: seq<string>, calls: seq<Stage>)
    ensures InOrder(calls) && |calls| >= 1 && calls[0] == Fetch(storyUrl)
    ensures |lines| >= 2 && lines[0] == Header && lines[1] == FetchStep
    ensures r.Returned? ==> StartsWith(r.text, Header)
    ensures fetch.Err? ==>
      calls == [Fetch(storyUrl)] && r == Returned(Join("\n", lines) + FetchFailed(storyUrl, fetch.message))
    ensures fetch.Ok? ==>
      && |calls| >= 2 && calls[1] == CaseStudy(CaseStudyAgent.UserMessage(fetch.value, storyUrl))
      && |lines| >= 4 && lines[2] == FetchedLine(fetch.value, storyUrl) && lines[3] == CaseStudyStep
    ensures fetch.Ok? && caseStudy.Err? ==>
      |calls| == 2 && r == Returned(Join("\n", lines) + CaseStudyFailed(caseStudy.message))
    ensures r.Raised? <==> fetch.Ok? && caseStudy.Ok? && !ReachesArchitecture(storyUrl, fetch, caseStudy)
    ensures r.Raised? ==> |calls| == 2
    ensures |calls| == 4 <==> ReachesArchitecture(storyUrl, fetch, caseStudy)
    ensures ReachesArchitecture(storyUrl, fetch, caseStudy) ==>
      LaterSteps(caseStudy.value, storyUrl, projectName, ArchitectureStage(architecture, parse), ingest, r, lines, calls)
  {
    lines := [Header, FetchStep];
    calls := [Fetch(storyUrl)];
    if fetch.Err? {
      r := Returned(Join("\n", lines) + FetchFailed(storyUrl, fetch.message));
      ReportStartsWithHeader(lines, FetchFailed(storyUrl, fetch.message));
      return;
    }
    var pageText := fetch.value;
    lines := lines + [FetchedLine(pageText, storyUrl), CaseStudyStep];
    InOrderExtend(calls, [CaseStudy(CaseStudyAgent.UserMessage(pageText, storyUrl))]);
    calls := calls + [CaseStudy(CaseStudyAgent.UserMessage(pageText, storyUrl))];
    if caseStudy.Err? {
      r := Returned(Join("\n", lines) + CaseStudyFailed(caseStudy.message));
      ReportStartsWithHeader(lines, CaseStudyFailed(caseStudy.message));
      return;
    }
    var tail, rest;
    r, tail, rest := FieldsAndLater(lines, calls, caseStudy.value, storyUrl, projectName,
                                    ArchitectureStage(architecture, parse), ingest);
    lines, calls := tail, rest;
  }

  /** The field reading of step 2, which raises on a case study without
      usable fields, then steps 3 and 4 with the architecture stage's
      outcome `arch`. */
  method FieldsAndLater(head: seq<string>, before: seq<Stage>, caseStudy: Json, storyUrl: string,
                        projectName: string, arch: ArchOutcome, ingest: Outcome<string>)
    returns (r: Report, lines: seq<string>, calls: seq<Stage>)
    requires |head| == 4 && head[0] == Header && InOrder(before) && |before| == 2
    ensures |lines| >= 4 && forall k :: 0 <= k < 4 ==> lines[k] == head[k]
    ensures |calls| >= 2 && calls[0] == before[0] && calls[1] == before[1] && InOrder(calls)
    ensures r.Returned? ==> StartsWith(r.text, Header)
    ensures r.Raised? <==> !UsableFields(caseStudy, storyUrl)
    ensures r.Raised? ==> |calls| == 2
    ensures |calls| == 4 <==> UsableFields(caseStudy, storyUrl)
    ensures UsableFields(caseStudy, storyUrl) ==>
      LaterSteps(caseStudy, storyUrl, projectName, arch, ingest, r, lines, calls)
  {
    lines, calls := head, before;
    var fields := ReadFields(caseStudy, storyUrl);
    if fields.Err? {
      r := Raised(fields.message);
      return;
    }
    var f := fields.value;
    var tagsText := JoinStrs(", ", f.tags);
    if tagsText.Err? {
      r := Raised(tagsText.message);
      return;
    }
    r, lines, calls := ArchitectureAndIngest(head, before, f, tagsText.value, projectName, arch, ingest);
  }
}
