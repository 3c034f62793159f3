/** What the two project-log pipelines (`run_pipeline` in
    `project_log_workflow.py` and `workflows_run_project_log_workflow` in
    `workflows.py`) share: the report lines, the field defaults read from
    the case study, the component/pattern summary of the architecture, and
    the stage calls they make. */
module WorkflowReport {
  import opened PyStrings
  import opened JsonValues
  import ArchitectureAgent

  const Header: string := "## Project-Log Workflow\n"
  const FetchStep: string := "### Step 1: Fetching customer story page…\n"
  const CaseStudyStep: string := "### Step 2: CaseStudyAgent – extracting metadata…\n"
  const ArchitectureStep: string := "### Step 3: ArchitectureAgent – generating architecture diagram…\n"
  const IngestStep: string := "### Step 4: Ingesting into project-log vector index…\n"
  const Completed: string := "\n✅ Project-log workflow completed successfully."
  const UntitledStory: string := "Untitled Customer Story"

  function FetchFailed(url: string, exc: string): string {
    "\n❌ Failed to fetch `" + url + "`: " + exc
  }

  /** `f"Fetched {len(page_text):,} characters from `{story_url}`.\n"`. */
  function FetchedLine(pageText: string, url: string): string {
    "Fetched " + GroupedNat(|pageText|) + " characters from `" + url + "`.\n"
  }

  function CaseStudyFailed(exc: string): string {
    "\n❌ CaseStudyAgent failed: " + exc
  }

  function IngestionFailed(exc: string): string {
    "\n❌ Ingestion failed: " + exc
  }

  function ArchitectureWarning(exc: string): string {
    "⚠️ Architecture generation failed: " + exc + ". Storing empty diagram.\n"
  }

  /** The report returned by a pipeline, or the exception that escapes it. */
  datatype Report = Returned(text: string) | Raised(error: string)

  /** A report that begins with the header line keeps it whatever follows. */
  lemma ReportStartsWithHeader(lines: seq<string>, tail: string)
    requires |lines| > 0 && lines[0] == Header
    ensures StartsWith(Join("\n", lines) + tail, Header)
  {
    JoinStartsWithFirst("\n", lines);
    assert (Join("\n", lines) + tail)[..|Header|] == Join("\n", lines)[..|Header|];
  }

  // ------------------------------------------------------------- fields

  /** The six values read from the case-study object. */
  datatype Fields = Fields(
    title: Json,
    customerName: Json,
    shortSummary: Json,
    context: Json,
    tags: Json,
    referenceUrl: Json)

  /** The six `case_study.get(...)` reads: only a dict has `get`; the title
      defaults to "Untitled Customer Story" only when the key is absent
      (a present null or empty title is kept); customer, summary and context
      default to `""`, tags to `[]`; the reference URL is the story URL
      whenever the stored one is absent or falsy. */
  function ReadFields(caseStudy: Json, storyUrl: string): (r: Outcome<Fields>)
    ensures r.Err? <==> !caseStudy.JObj?
    ensures r.Err? ==> r.message == NoAttribute(caseStudy, "get")
    ensures r.Ok? ==>
      var m := caseStudy.members;
      && (KeyIndex(m, "title").None? ==> r.value.title == JStr(UntitledStory))
      && (KeyIndex(m, "title").Some? ==> r.value.title == m[KeyIndex(m, "title").value].value)
      && (KeyIndex(m, "customer_name").None? ==> r.value.customerName == JStr(""))
      && (KeyIndex(m, "customer_name").Some? ==>
            r.value.customerName == m[KeyIndex(m, "customer_name").value].value)
      && (KeyIndex(m, "short_summary").None? ==> r.value.shortSummary == JStr(""))
      && (KeyIndex(m, "short_summary").Some? ==>
            r.value.shortSummary == m[KeyIndex(m, "short_summary").value].value)
      && (KeyIndex(m, "context").None? ==> r.value.context == JStr(""))
      && (KeyIndex(m, "context").Some? ==> r.value.context == m[KeyIndex(m, "context").value].value)
      && (KeyIndex(m, "tags").None? ==> r.value.tags == JArr([]))
      && (KeyIndex(m, "tags").Some? ==> r.value.tags == m[KeyIndex(m, "tags").value].value)
      && (KeyIndex(m, "reference_url").Some? && Truthy(m[KeyIndex(m, "reference_url").value].value) ==>
            r.value.referenceUrl == m[KeyIndex(m, "reference_url").value].value)
      && (KeyIndex(m, "reference_url").None? || !Truthy(m[KeyIndex(m, "reference_url").value].value) ==>
            r.value.referenceUrl == JStr(storyUrl))
  {
    match caseStudy
    case JObj(m) =>
      Ok(Fields(
        Field(m, "title", JStr(UntitledStory)),
        Field(m, "customer_name", JStr("")),
        Field(m, "short_summary", JStr("")),
        Field(m, "context", JStr("")),
        Field(m, "tags", JArr([])),
        Or(Field(m, "reference_url", JStr(storyUrl)), JStr(storyUrl))))
    case _ => Err(NoAttribute(caseStudy, "get"))
  }

  /** The four lines written after the case study; `tagsText` is the tags
      joined by `", "`. */
  function FieldLines(f: Fields, tagsText: string): seq<string> {
    [ "- **Title**: " + PyStr(f.title),
      "- **Customer**: " + PyStr(f.customerName),
      "- **Tags**: " + tagsText,
      "- **Summary**: " + PyStr(f.shortSummary) + "\n" ]
  }

  /** The architecture user message built from the fields. */
  function ArchitectureMessage(f: Fields, tagsText: string): string {
    ArchitectureAgent.UserMessage(PyStr(f.title), PyStr(f.customerName), tagsText, PyStr(f.context))
  }

  // ------------------------------------------------------------ summary

  /** `[c.get("name", "") for c in components]`: the first item that is not
      a dict raises. */
  function ComponentNames(items: seq<Json>): (r: Outcome<seq<Json>>)
    ensures r.Ok? <==> forall k :: 0 <= k < |items| ==> items[k].JObj?
    ensures r.Ok? ==> |r.value| == |items|
    ensures r.Ok? ==> forall k :: 0 <= k < |items| ==> r.value[k] == Field(items[k].members, "name", JStr(""))
  {
    if items == [] then Ok([])
    else match Get(items[0], "name", JStr(""))
      case Err(m) => Err(m)
      case Ok(n) =>
        match ComponentNames(items[1..])
        case Err(m) => Err(m)
        case Ok(ns) => Ok([n] + ns)
  }

  /** The summary lines written so far and the exception, if one was
      raised while writing them. */
  datatype Partial = Partial(lines: seq<string>, failure: Option<string>)

  function ComponentsLine(count: nat, shown: string): string {
    "- **Components** (" + NatToString(count) + "): " + shown
  }

  function PatternsLine(patterns: string): string {
    "- **Patterns**: " + patterns + "\n"
  }

  /** The components line for a parsed architecture: the count of all
      components and the names of the first six, or the exception raised
      while writing it. */
  function ComponentsStep(arch: Json): (r: Outcome<string>)
    ensures !arch.JObj? ==> r == Err(NoAttribute(arch, "get"))
  {
    match Get(arch, "components", JArr([]))
    case Err(m) => Err(m)
    case Ok(components) =>
      match Iterate(components)
      case Err(m) => Err(m)
      case Ok(items) =>
        match ComponentNames(items)
        case Err(m) => Err(m)
        case Ok(names) =>
          var shown := if |names| <= 6 then names else names[..6];
          match JoinItems(", ", shown)
          case Err(m) => Err(m)
          case Ok(s) => Ok(ComponentsLine(|names|, s))
  }

  /** The component and pattern lines for a parsed architecture. Each step
      can raise; the components line stays written when only the patterns
      fail. */
  function Summary(arch: Json): (p: Partial)
    ensures |p.lines| <= 2
    ensures p.failure.None? ==> |p.lines| == 2
    ensures !arch.JObj? ==> p == Partial([], Some(NoAttribute(arch, "get")))
  {
    match ComponentsStep(arch)
    case Err(m) => Partial([], Some(m))
    case Ok(first) =>
      match JoinStrs(", ", Field(arch.members, "patterns", JArr([])))
      case Err(m) => Partial([first], Some(m))
      case Ok(patterns) => Partial([first, PatternsLine(patterns)], None)
  }

  /** Every component is a dict whose name is a string. */
  predicate WellFormedComponents(components: seq<Json>) {
    forall k :: 0 <= k < |components| ==>
      components[k].JObj? && Field(components[k].members, "name", JStr("")).JStr?
  }

  /** The names of the first six components. */
  function ShownNames(components: seq<Json>): (r: seq<string>)
    requires WellFormedComponents(components)
    ensures |r| == if |components| <= 6 then |components| else 6
  {
    var n := if |components| <= 6 then |components| else 6;
    seq(n, k requires 0 <= k < n => Field(components[k].members, "name", JStr("")).s)
  }

  /** The components line for well-formed components: the count of all of
      them and the names of the first six. */
  lemma ComponentsLineOf(members: seq<Member>, components: seq<Json>)
    requires Field(members, "components", JArr([])) == JArr(components)
    requires WellFormedComponents(components)
    ensures ComponentsStep(JObj(members)) == Ok(ComponentsLine(|components|, Join(", ", ShownNames(components))))
  {
    var names := ComponentNames(components).value;
    var shown := if |names| <= 6 then names else names[..6];
    assert forall k :: 0 <= k < |shown| ==> shown[k] == JStr(ShownNames(components)[k]);
    assert Strings(shown) == ShownNames(components);
  }

  /** A diagram whose components are dicts with string names and whose
      patterns are strings is summarised without error: the count of all
      components with the names of the first six, then the patterns. */
  lemma SummaryOfWellFormed(members: seq<Member>, components: seq<Json>, patterns: seq<Json>)
    requires Field(members, "components", JArr([])) == JArr(components)
    requires Field(members, "patterns", JArr([])) == JArr(patterns)
    requires WellFormedComponents(components)
    requires forall k :: 0 <= k < |patterns| ==> patterns[k].JStr?
    ensures Summary(JObj(members)) ==
      Partial([ComponentsLine(|components|, Join(", ", ShownNames(components))),
               PatternsLine(Join(", ", Strings(patterns)))], None)
  {
    ComponentsLineOf(members, components);
  }

  /** When only the patterns cannot be joined, the components line stays
      written and the join's error is raised. */
  lemma SummaryKeepsComponentsLine(members: seq<Member>, components: seq<Json>)
    requires Field(members, "components", JArr([])) == JArr(components)
    requires WellFormedComponents(components)
    requires JoinStrs(", ", Field(members, "patterns", JArr([]))).Err?
    ensures Summary(JObj(members)) ==
      Partial([ComponentsLine(|components|, Join(", ", ShownNames(components)))],
              Some(JoinStrs(", ", Field(members, "patterns", JArr([]))).message))
  {
    ComponentsLineOf(members, components);
  }

  /** Components that cannot be iterated raise before any line is written. */
  lemma SummaryComponentsNotIterable(members: seq<Member>)
    requires Iterate(Field(members, "components", JArr([]))).Err?
    ensures Summary(JObj(members)) ==
      Partial([], Some(Iterate(Field(members, "components", JArr([]))).message))
  {
  }

  // ------------------------------------------------------------- stages

  /** The keyword arguments of the ingest call. */
  datatype IngestRequest = IngestRequest(
    title: Json,
    entryType: string,
    customerName: Json,
    shortSummary: Json,
    context: Json,
    projectName: string,
    tags: Json,
    referenceUrl: Json,
    architecture: string)

  /** Both pipelines ingest with `entry_type="blog"` and the architecture
      string as stored. */
  function IngestRequestOf(f: Fields, projectName: string, architecture: string): (q: IngestRequest)
    ensures q.entryType == "blog" && q.architecture == architecture && q.projectName == projectName
  {
    IngestRequest(f.title, "blog", f.customerName, f.shortSummary, f.context, projectName,
                  f.tags, f.referenceUrl, architecture)
  }

  /** One stage call with its input. */
  datatype Stage =
    | Fetch(url: string)
    | CaseStudy(userMessage: string)
    | Architecture(userMessage: string)
    | Ingest(request: IngestRequest)

  function StageIndex(s: Stage): nat {
    match s
    case Fetch(_) => 0
    case CaseStudy(_) => 1
    case Architecture(_) => 2
    case Ingest(_) => 3
  }

  /** The calls made are a prefix of fetch, case study, architecture,
      ingest: each at most once and in that order. */
  predicate InOrder(calls: seq<Stage>) {
    |calls| <= 4 && forall k :: 0 <= k < |calls| ==> StageIndex(calls[k]) == k
  }

  /** Appending the stages that come next keeps the calls in order. */
  lemma InOrderExtend(calls: seq<Stage>, next: seq<Stage>)
    requires InOrder(calls) && |calls| + |next| <= 4
    requires forall k :: 0 <= k < |next| ==> StageIndex(next[k]) == |calls| + k
    ensures InOrder(calls + next)
  {
    forall k | 0 <= k < |calls + next|
      ensures StageIndex((calls + next)[k]) == k
    {
      if k >= |calls| {
        assert (calls + next)[k] == next[k - |calls|];
      }
    }
  }
}
