# Foundry agents MCP server — a Dafny model

This project models the core of the Foundry agents MCP server. The server
exposes Azure AI Foundry agents and an Azure AI Search "project log" vector
index as MCP tools, and ships a project-log workflow. The workflow fetches a
customer-story page, extracts its visible text and asks a case-study agent
for structured metadata. It then asks an architecture agent for a JSON
diagram and ingests the result as a document into the search index.

There are two implementations of that workflow, and both are modelled:

- the `foundry_agents` package, where agents are looked up by name and run
  remotely, with a direct chat-completion fallback;
- the MCP server's `workflows` module, which always calls the chat model.

The MCP tools are modelled the same way: listing, invoking and inspecting
agent runs, searching and adding to the vector database, and creating and
filling the project-log index.

Everything the source gets from the outside world is an input to the model:

- the HTTP page and the HTML tokenizer's callbacks;
- the Azure SDK's answers (agent lists, run snapshots, thread messages,
  upload results, embeddings);
- `json.loads`, which is an oracle `parse` function;
- the environment configuration, as flags and a `SearchConfig`.

The search service is a class whose methods record the calls they make and
update its map of indexes. The HTML extractor is a class with the source's
`texts` and `depth` fields.

Modules:

| module | source |
|---|---|
| `PyStrings` | Python `str` operations (`strip`, `join`, `split`, `find`), integer formatting |
| `JsonValues` | the JSON values `json.loads` yields; `dict.get`, truthiness, `or`, iteration, `str`, `json.dumps` |
| `HtmlText` | `_TextExtractor` and `extract_text` |
| `InvocationIds` | `_make_invocation_id` and `_parse_invocation_id` |
| `Documents` | the search document built by `build_document`, and the comma-separated tag parsing |
| `IndexSchema` | the index field list `_build_index_fields` |
| `SearchService` | the search and index clients the code calls |
| `FoundryIngest` | `ensure_index` and `ingest_document` of the package |
| `McpIndex` | the `index_*` MCP tools |
| `FoundryRuns` | `find_agent_by_name_sync` and `invoke_and_wait` |
| `AgentRegistry` | the `deploy` functions of the two agents |
| `ChatBackend` | how each agent picks the remote agent, the chat model or neither |
| `CaseStudyAgent`, `ArchitectureAgent` | the two agents' `run` |
| `WorkflowReport` | the report lines, field reading and architecture summary shared by both pipelines |
| `ProjectLogWorkflow` | `run_pipeline` |
| `McpWorkflows` | `workflows_run_project_log_workflow` |
| `McpAgents` | the `agents_*` MCP tools |
| `McpSearch` | the `search_*` MCP tools |

## Model

| member | source | states |
|---|---|---|
| PyStrings.TrimLeft | src/foundry_agents/_html.py:33-34 | the result is a suffix of the input, what was dropped is all whitespace, and the result does not start with whitespace |
| PyStrings.TrimRight | src/foundry_agents/_html.py:33-34 | the result is a prefix, what was dropped is all whitespace, and the result does not end with whitespace |
| PyStrings.StripSpec | src/foundry_agents/_html.py:33-34 | `strip()` leaves no whitespace at either end and is empty exactly when the input is all whitespace (the `data.strip()` test) |
| PyStrings.JoinNonEmpty | src/foundry_agents/project_log_workflow.py:63-71 | a join whose first part is non-empty is non-empty |
| PyStrings.JoinStartsWithFirst | src/foundry_agents/project_log_workflow.py:63-71 | `"\n".join(lines)` begins with its first line |
| PyStrings.OccursAtTail | src/foundry_agents_mcp/client.py:173-174 | a separator occurs at j+1 in s exactly when it occurs at j in s without its first character |
| PyStrings.Find | src/foundry_agents_mcp/client.py:173-174 | the index found is the first occurrence of the separator; no index means it does not occur |
| PyStrings.SplitJoin | src/foundry_agents_mcp/client.py:173-174 | `str.split(sep)` gives at least one piece, joining the pieces with `sep` gives back the input, and no piece contains `sep` |
| PyStrings.SplitNoOccurrence | src/foundry_agents_mcp/client.py:173-174 | a string without the separator splits into itself alone |
| PyStrings.CountCharAppend | src/foundry_agents_mcp/index.py:283 | the count of a character in a concatenation is the sum of the counts |
| PyStrings.CountCharNone | src/foundry_agents_mcp/index.py:283 | a string without the character counts zero of it |
| PyStrings.SplitCharCount | src/foundry_agents_mcp/index.py:283 | splitting on a one-character separator gives one more piece than there are occurrences |
| PyStrings.AsciiLowerChars | src/foundry_agents/_html.py:25 | `lower()` on ASCII letters maps each of `A`..`Z` to its lower-case letter and keeps every other character, position by position |
| PyStrings.AsciiLowerIgnoresCase | src/foundry_agents/_html.py:25 | two strings that differ only in ASCII letter case lower-case to the same string |
| PyStrings.NatToStringDigits | src/foundry_agents/project_log_workflow.py:113 | `str(len(components))` is all decimal digits, reads back as the count, and starts with `0` only for zero |
| PyStrings.GroupedNatUngroups | src/foundry_agents/project_log_workflow.py:73 | `f"{n:,}"` with its commas removed is `str(n)` |
| PyStrings.GroupedNatCommas | src/foundry_agents_mcp/workflows.py:241 | `f"{n:,}"` does not start with a comma, every other character is a digit, and a comma stands exactly where a multiple of four characters remain, so every group after the first has three digits |
| JsonValues.KeyIndex | src/foundry_agents_mcp/search.py:80-90 | the key is absent exactly when no member has it; otherwise the index is that of the last member with that key |
| JsonValues.Get | src/foundry_agents/project_log_workflow.py:88-93 | `.get` raises `AttributeError` exactly on a non-dict; otherwise it gives the stored value or the default |
| JsonValues.Or | src/foundry_agents/project_log_workflow.py:93 | `a or b` is `a` when `a` is truthy and `b` otherwise |
| JsonValues.Iterate | src/foundry_agents/project_log_workflow.py:97 | iteration succeeds exactly on lists, strings (characters) and dicts (the keys of the dict `json.loads` built); anything else is "object is not iterable" |
| JsonValues.DedupKeys | src/foundry_agents/project_log_workflow.py:111 | the dict built from a decoded object has exactly the object's keys, and is empty only for an empty object |
| JsonValues.DedupDistinct | src/foundry_agents/project_log_workflow.py:111 | the dict built from a decoded object holds each key once |
| JsonValues.DedupValues | src/foundry_agents/project_log_workflow.py:111 | under each key the dict holds the key's last value, the one `get` finds |
| JsonValues.IterateObjectKeys | src/foundry_agents/project_log_workflow.py:97 | iterating a dict yields strings, no key twice, and exactly the keys of the decoded object |
| JsonValues.FirstNonStr | src/foundry_agents/project_log_workflow.py:97 | the index found is the first item that is not a string; none means all are strings |
| JsonValues.Strings | src/foundry_agents/project_log_workflow.py:97 | the strings of an all-string list, in order |
| JsonValues.JoinItems | src/foundry_agents/project_log_workflow.py:97 | joining succeeds exactly when every item is a string, and then it is the join of those strings |
| JsonValues.JoinStrs | src/foundry_agents/project_log_workflow.py:97 | `", ".join(x)` on a non-iterable scalar raises "can only join an iterable"; on a list it is the item join; a string or a dict always joins |
| JsonValues.JoinStrsOfStrings | src/foundry_agents/project_log_workflow.py:97 | a list of strings joins to the plain string join |
| JsonValues.JoinStrsOfString | src/foundry_agents/project_log_workflow.py:97 | a string joins its own characters, each as a one-character string |
| JsonValues.JoinStrsOfObject | src/foundry_agents/project_log_workflow.py:97 | a dict joins its keys, each once, in the order of first appearance |
| JsonValues.PyStr | src/foundry_agents/project_log_workflow.py:95-98 | an f-string shows a string as itself and any other value by its `repr` |
| JsonValues.ReprCases | src/foundry_agents/project_log_workflow.py:95-98 | `None`, `True` and `False` print as themselves; a list prints its items' reprs joined by ", " in square brackets; a dict prints `key: value` for each of its keys once, joined by ", " in braces |
| JsonValues.ReprItemsJoin | src/foundry_agents/project_log_workflow.py:95-98 | the items of a list repr are the items' reprs joined by ", " |
| JsonValues.ReprMembersJoin | src/foundry_agents/project_log_workflow.py:95-98 | the members of a dict repr are `key: value` pairs joined by ", " |
| JsonValues.StrRepr | src/foundry_agents/project_log_workflow.py:95-98 | a string `repr` is enclosed in matching quotes, double exactly when the string holds a single quote and no double quote |
| JsonValues.StrReprRoundTrip | src/foundry_agents/project_log_workflow.py:95-98 | reading the escapes between the quotes of a string `repr` back gives the string |
| JsonValues.HexDigit | src/foundry_agents/project_log_workflow.py:117 | a hex digit is printable ASCII |
| JsonValues.Hex4 | src/foundry_agents/project_log_workflow.py:117 | a `\uXXXX` escape is six printable ASCII characters |
| JsonValues.EscapeChar | src/foundry_agents/project_log_workflow.py:117 | `json.dumps` (ASCII-only) escapes give printable ASCII, and a character stays as itself exactly when it is printable ASCII other than `"` and `\` |
| JsonValues.EscapeAll | src/foundry_agents/project_log_workflow.py:117 | an escaped string is all printable ASCII |
| JsonValues.JsonQuote | src/foundry_agents/project_log_workflow.py:117 | a JSON string literal is quoted and all printable ASCII |
| JsonValues.EscapeAllPlain | src/foundry_agents/project_log_workflow.py:117 | text needing no escape is emitted unchanged |
| JsonValues.ErrorObject | src/foundry_agents/project_log_workflow.py:117 | `json.dumps({"error": str(exc)})` starts with `{"error": "` and is printable ASCII |
| HtmlText.RunSnoc | src/foundry_agents/_html.py:24-34 | feeding one more callback applies one more step to the extractor state |
| HtmlText.StepKeepsFragments | src/foundry_agents/_html.py:32-34 | every callback keeps the invariant that each stored text is stripped and non-empty |
| HtmlText.StripIsFragment | src/foundry_agents/_html.py:33-34 | a stripped datum is empty exactly when it is blank, and otherwise is a valid stored text |
| HtmlText.RunKeepsFragments | src/foundry_agents/_html.py:32-34 | the stored-texts invariant holds after any sequence of callbacks |
| HtmlText.TextsEmptyIff | src/foundry_agents/_html.py:24-34 | nothing is stored exactly when every non-blank datum arrives inside a skipped tag |
| HtmlText.VisibleTextEmptyIff | src/foundry_agents/_html.py:36-37 | the extracted text is empty exactly when no non-blank datum is outside the skipped tags |
| HtmlText.MismatchedSkipTagsClose | src/foundry_agents/_html.py:24-34 | any skipped end tag closes any skipped start tag: depth is a counter, not a tag stack, so data after the pair is kept |
| HtmlText.SkipTagOpensAndCloses | src/foundry_agents/_html.py:24-34 | from depth zero a skipped start tag enters depth one, where data is dropped and any skipped end tag returns to depth zero |
| HtmlText.KeptData | src/foundry_agents/_html.py:32-34 | at depth zero a datum with something left after stripping is stored stripped |
| HtmlText.StepTextsEmpty | src/foundry_agents/_html.py:24-34 | after one callback nothing is stored exactly when nothing was and the callback is not a non-blank datum at depth zero |
| HtmlText.SkipTagIgnoresCase | src/foundry_agents/_html.py:24-30 | two tag names that differ only in ASCII letter case are both skipped or both not |
| HtmlText.SpaceRun | src/foundry_agents/_html.py:37 | the length of the leading whitespace run, maximal |
| HtmlText.CollapseNonEmpty | src/foundry_agents/_html.py:37 | replacing whitespace runs keeps a non-empty string non-empty |
| HtmlText.CollapseHead | src/foundry_agents/_html.py:37 | a string starting with a visible character keeps it first |
| HtmlText.TripleShift | src/foundry_agents/_html.py:37 | a run of three whitespace characters stays where it is, shifted, after a prefix |
| HtmlText.TriplePrefix | src/foundry_agents/_html.py:37 | a run of three whitespace characters in a prefix is one in the whole |
| HtmlText.NoTripleAfterShortRun | src/foundry_agents/_html.py:37 | at most two spaces before a visible character create no run of three |
| HtmlText.NoTripleAfterVisible | src/foundry_agents/_html.py:37 | a visible character in front creates no run of three |
| HtmlText.CollapseNoTriple | src/foundry_agents/_html.py:37 | after `re.sub(r"\s{3,}", "\n\n", ...)` no three whitespace characters are adjacent |
| HtmlText.NonSpaceAppend | src/foundry_agents/_html.py:37 | the visible characters of a concatenation are those of its parts |
| HtmlText.NonSpaceBlank | src/foundry_agents/_html.py:37 | a blank string has no visible characters |
| HtmlText.CollapseKeepsNonSpace | src/foundry_agents/_html.py:37 | the substitution keeps every visible character, in order |
| HtmlText.CollapseKeepsShortRuns | src/foundry_agents/_html.py:37 | a text without a run of three whitespace characters is unchanged |
| HtmlText.CollapseIdempotent | src/foundry_agents/_html.py:37 | collapsing twice is collapsing once |
| HtmlText.Truncate | src/foundry_agents/_html.py:44 | `s[:n]` is a prefix of length min(n, len) for n ≥ 0, and drops -n characters from the end for negative n |
| HtmlText.TextExtractor.constructor | src/foundry_agents/_html.py:19-22 | a new extractor has no texts and depth zero |
| HtmlText.TextExtractor.HandleStartTag | src/foundry_agents/_html.py:24-26 | a skipped start tag raises the depth by one; texts are unchanged |
| HtmlText.TextExtractor.HandleEndTag | src/foundry_agents/_html.py:28-30 | a skipped end tag lowers a positive depth by one; texts are unchanged |
| HtmlText.TextExtractor.HandleData | src/foundry_agents/_html.py:32-34 | at depth zero a non-blank datum is appended stripped; the depth is unchanged |
| HtmlText.TextExtractor.Feed | src/foundry_agents/_html.py:43 | feeding callbacks leaves the state the step function gives for them |
| HtmlText.ExtractText | src/foundry_agents/_html.py:40-44 | `extract_text` is the truncated collapsed join of the visible texts |
| HtmlText.ExtractedTextShape | src/foundry_agents/_html.py:40-44 | the extracted text is at most `max_chars` long, a prefix of the full text, the whole of it when it fits, and has no run of three whitespace characters |
| InvocationIds.ParseInvocationId | src/foundry_agents_mcp/client.py:173-180 | the id is accepted exactly when it splits on `"::"` into two pieces; the pieces rebuild the id and contain no `"::"`; otherwise the `ValueError` text |
| InvocationIds.SeparatorAt | src/foundry_agents_mcp/client.py:174 | `"::"` occurs at j exactly when characters j and j+1 are colons |
| InvocationIds.ParseExactly | src/foundry_agents_mcp/client.py:169-180 | parsing yields (a, b) exactly when the id is `a::b`, a has no `"::"` and does not end in `':'`, and b has no `"::"` |
| InvocationIds.RoundTrip | src/foundry_agents_mcp/client.py:169-180 | ids without colons parse back to themselves |
| InvocationIds.TrailingColonBreaksRoundTrip | src/foundry_agents_mcp/client.py:169-180 | a thread id ending in a colon does not round-trip: `x:` and `y` come back as `x` and `:y` |
| InvocationIds.ParseAcceptsWellFormed | src/foundry_agents_mcp/client.py:173-180 | `t123::r456` parses into its two halves |
| InvocationIds.ParseAcceptsEmptyHalves | src/foundry_agents_mcp/client.py:173-180 | `::` is accepted with two empty ids |
| InvocationIds.ParseRejectsNoSeparator | src/foundry_agents_mcp/client.py:175-179 | an id without `"::"` is rejected with the documented message |
| InvocationIds.ParseRejectsTwoSeparators | src/foundry_agents_mcp/client.py:175-179 | an id with two `"::"` is rejected |
| Documents.TagsOrEmpty | src/foundry_agents/_client.py:165 | `tags or []` is empty exactly when tags are absent or empty, and is the tags otherwise |
| Documents.BuildDocumentKeepsEntry | src/foundry_agents/_client.py:142-170 | every argument reaches its document field unchanged, the id and vector are the given ones, both dates are the same timestamp, and only the tags are normalised |
| Documents.RebuildDocument | src/foundry_agents/_client.py:142-170 | a document with equal dates is rebuilt exactly from its own fields |
| Documents.ParseTags | src/foundry_agents_mcp/index.py:283 | an empty string has no tags; otherwise there is one tag per comma plus one, each stripped |
| Documents.ParseTagsPieces | src/foundry_agents_mcp/index.py:283 | the tags are the stripped comma-free pieces whose comma join is the input |
| IndexSchema.FieldNames | src/foundry_agents_mcp/index.py:239 | the names of the fields, in order |
| IndexSchema.IndexFieldsShape | src/foundry_agents_mcp/index.py:32-95 | thirteen fields named exactly as the document keys, distinct, `id` the only key, and `context_vector` the only vector field with the configured dimensions and the HNSW profile |
| IndexSchema.DistinctKeys | src/foundry_agents/_client.py:156-169 | the document keys are pairwise distinct |
| SearchService.CountSucceededPositive | src/foundry_agents/_ingest.py:126 | a positive count of succeeded uploads is the same as `any(r.succeeded)` |
| SearchService.Service.constructor | src/foundry_agents_mcp/index.py:103-105 | a client over the given indexes and service answers, with no calls yet |
| SearchService.Service.GetIndex | src/foundry_agents_mcp/index.py:109-115 | the lookup finds the index exactly when it exists, and records one lookup |
| SearchService.Service.CreateOrUpdateIndex | src/foundry_agents_mcp/index.py:127-132 | a successful creation stores the definition under its name; a failure leaves the indexes unchanged |
| SearchService.Service.Embed | src/foundry_agents/_client.py:126-137 | the embedding is the service's vector for the text, and one embedding call is recorded |
| SearchService.Service.UploadDocument | src/foundry_agents/_ingest.py:123-126 | the result is the number of succeeded results for the document, and one upload is recorded |
| SearchService.AfterEnsureProperties | src/foundry_agents/_ingest.py:56-82 | "create if absent" is idempotent, never removes or alters an existing index, leaves the index present unless creation failed, and adds nothing else |
| SearchService.EnsureTwiceCalls | src/foundry_agents/_ingest.py:69-71 | a second ensure after a successful one only looks the index up |
| FoundryIngest.EnsureIndex | src/foundry_agents/_ingest.py:56-82 | without an endpoint it raises and touches nothing; otherwise it looks the index up, creates it only when absent, and raises the creation error |
| FoundryIngest.IngestDocument | src/foundry_agents/_ingest.py:85-129 | ensure the index, embed the context, upload the built document, and return its id exactly when some upload result succeeded |
| McpIndex.EnsureIndexExists | src/foundry_agents_mcp/index.py:98-132 | the not-configured error, or the index present after a lookup and at most one creation, with the creation error as text |
| McpIndex.IngestProjectLogDoc | src/foundry_agents_mcp/index.py:135-188 | ensure the index, then embed, upload, and report success exactly when some upload succeeded; earlier errors stop it before any embedding |
| McpIndex.CreateProjectLogIndex | src/foundry_agents_mcp/index.py:191-247 | the not-configured error, "already exists" without creating, the creation error, or the created index with its field names |
| McpIndex.CreateMessageErrorIff | src/foundry_agents_mcp/server.py:759-761 | the create tool's answer starts with "Error" exactly when the endpoint is missing or a needed creation failed |
| McpIndex.IngestProjectLog | src/foundry_agents_mcp/index.py:250-298 | the comma-separated tags are parsed and stored; not configured without any call, the creation error after the ensure calls only, or one embedding and one upload reported as success exactly when some upload succeeded; the index is present afterwards unless its creation failed |
| McpIndex.ServerIngestProjectLog | src/foundry_agents_mcp/server.py:745-802 | the server's variant probes the index first, creates it through the create tool only when absent, stops on its error, then embeds and uploads |
| FoundryRuns.FindAgentIndex | src/foundry_agents/_foundry.py:18-24 | the index of the first agent with the name; none exactly when no agent has it |
| FoundryRuns.FindAgentIndexAt | src/foundry_agents/_foundry.py:18-24 | the first matching position is the one found |
| FoundryRuns.FindAgentByName | src/foundry_agents/_foundry.py:18-24 | the first agent with the name, or `None` exactly when there is none |
| FoundryRuns.FindAgentAppend | src/foundry_agents/_foundry.py:18-24 | agents added after a match do not change which agent is found |
| FoundryRuns.FirstTextIndex | src/foundry_agents/_foundry.py:83-86 | the first part with text; none exactly when no part has text |
| FoundryRuns.FirstText | src/foundry_agents/_foundry.py:83-86 | the value of the first text part, when there is one |
| FoundryRuns.NewestAssistantTextChosen | src/foundry_agents/_foundry.py:81-88 | the reply is the first text of the newest assistant message with text, and "" when there is none; assistant messages without text are skipped |
| FoundryRuns.NewestAssistantReply | src/foundry_agents/_foundry.py:81-88 | the nested loop returns the newest assistant text |
| FoundryRuns.FirstTextAfterSkipped | src/foundry_agents/_foundry.py:83-86 | skipping parts without text does not change the first text |
| FoundryRuns.FirstTerminal | src/foundry_agents/_foundry.py:60-67 | the first poll whose status is terminal; every earlier one is not |
| FoundryRuns.InvokeAndWait | src/foundry_agents/_foundry.py:32-88 | one thread-and-run request for the given agent id whose thread holds the one user message, one `get_run` per poll up to the first terminal status with a sleep between, messages listed only for a completed run, and the reply or the "ended with status" error |
| FoundryRuns.PollsPastRequiresAction | src/foundry_agents/_foundry.py:60-67 | `requires_action` is not terminal, so polling continues past it |
| AgentRegistry.CountNamedZero | src/foundry_agents/_foundry.py:18-24 | no agent bears the name exactly when the lookup finds none |
| AgentRegistry.CountNamedAppend | src/foundry_agents/case_study_agent.py:62-106 | creating an agent adds one to the count of its name |
| AgentRegistry.CountNamedUpdate | src/foundry_agents/case_study_agent.py:62-106 | updating a named agent in place keeps the count of its name |
| AgentRegistry.DeployedShape | src/foundry_agents/case_study_agent.py:62-106 | after a deploy the name is found with the returned id, the model, description and instructions; an existing agent keeps its id and no duplicate appears |
| AgentRegistry.DeployIdempotent | src/foundry_agents/architecture_agent.py:74-117 | deploying twice gives the same agents and id as deploying once |
| AgentRegistry.Registry.constructor | src/foundry_agents/case_study_agent.py:62-106 | a registry over the project's agents |
| AgentRegistry.Deploy | src/foundry_agents/case_study_agent.py:62-106 | the missing client and missing model errors, or the agents updated or created in place with the returned id |
| ChatBackend.SelectBackend | src/foundry_agents/case_study_agent.py:126-145 | the deployed agent is used exactly when there is a project client and an agent with the name; else the chat model when configured; else neither |
| ChatBackend.CompletionText | src/foundry_agents/case_study_agent.py:159 | `content or "{}"` is never empty and keeps non-empty content |
| CaseStudyAgent.Run | src/foundry_agents/case_study_agent.py:111-159 | the chosen backend's parsed reply or its error: the remote run targets the found agent's id with a thread of one user message, the direct request is JSON mode at temperature 0.1, and with neither available it raises the not-deployed error |
| ArchitectureAgent.Validated | src/foundry_agents/architecture_agent.py:177-179 | a reply is returned unchanged exactly when it parses, else the parse error |
| ArchitectureAgent.Run | src/foundry_agents/architecture_agent.py:122-179 | every returned reply parses as JSON; remote, direct (temperature 0.3) and unavailable paths as in the case-study agent, with tags joined by ", " |
| WorkflowReport.ReportStartsWithHeader | src/foundry_agents/project_log_workflow.py:63-71 | every report begins with the header line |
| WorkflowReport.ReadFields | src/foundry_agents/project_log_workflow.py:88-93 | reading fields raises exactly on a non-object reply; present fields are read as stored, absent ones take their defaults, and a falsy reference URL falls back to the story URL |
| WorkflowReport.ComponentNames | src/foundry_agents/project_log_workflow.py:112 | names are read exactly when every component is an object, one per component, with "" for a missing name |
| WorkflowReport.Summary | src/foundry_agents/project_log_workflow.py:111-114 | at most two summary lines, both when nothing raised, and none with the `get` error for a non-object |
| WorkflowReport.ShownNames | src/foundry_agents/project_log_workflow.py:113 | at most six names are shown, all of them when there are six or fewer |
| WorkflowReport.ComponentsLineOf | src/foundry_agents/project_log_workflow.py:111-113 | for components that are dicts with string names, the components line is the count of all of them and the first six names joined by ", " |
| WorkflowReport.SummaryOfWellFormed | src/foundry_agents/project_log_workflow.py:111-114 | a well-formed architecture never raises: the components line, then the patterns joined by ", " |
| WorkflowReport.SummaryKeepsComponentsLine | src/foundry_agents/project_log_workflow.py:111-114 | when only the patterns cannot be joined, the components line stays written and the join error is raised |
| WorkflowReport.SummaryComponentsNotIterable | src/foundry_agents/project_log_workflow.py:111-112 | components that cannot be iterated raise before any line is written |
| WorkflowReport.IngestRequestOf | src/foundry_agents/project_log_workflow.py:123-133 | the document is ingested as a "blog" with the project name and the stored architecture |
| WorkflowReport.InOrderExtend | src/foundry_agents/project_log_workflow.py:65-136 | appending the next stages keeps the calls a prefix of fetch, case study, architecture, ingest |
| ProjectLogWorkflow.ArchitectureStage | src/foundry_agents/project_log_workflow.py:101-118 | an agent or parse error stores the error object with only the warning line; a summary error stores the error object after the lines written so far and the warning; otherwise the reply is stored with the two summary lines |
| ProjectLogWorkflow.NonObjectReplyRecovered | src/foundry_agents/project_log_workflow.py:111-118 | a reply that parses to a non-object is replaced by the error object with a warning |
| ProjectLogWorkflow.ArchitectureAndIngest | src/foundry_agents/project_log_workflow.py:100-145 | for a given outcome of the architecture stage, the whole report: the earlier lines, the field lines, the step-3 heading, the stage's summary and warning lines, the step-4 heading, then the ingested and completed lines only when ingestion succeeds; stage order kept |
| ProjectLogWorkflow.RunPipeline | src/foundry_agents/project_log_workflow.py:36-145 | stages in order, each at most once; the report keeps the header; fetch and case-study errors stop it; a reply without usable fields raises; otherwise every report line after the header is given: fields, step headings, the architecture stage's lines, ingestion |
| ProjectLogWorkflow.ArchitectureFailureWarns | src/foundry_agents/project_log_workflow.py:100-136 | when the agent, the parse or the summary fails, the error object is stored and the report line just before the step-4 heading is the warning with that message; otherwise the reply itself is stored |
| ProjectLogWorkflow.FailureEndsStageLines | src/foundry_agents/project_log_workflow.py:114-118 | a failed architecture stage ends its lines with the warning and stores the error object; a stage without failure stores the reply |
| ProjectLogWorkflow.StageLinesInReport | src/foundry_agents/project_log_workflow.py:100-123 | in the report the stage's lines start at line 9, right after the four header, four field lines and the step-3 heading, and the step-4 heading follows them |
| McpWorkflows.ChatRequestFor | src/foundry_agents_mcp/workflows.py:139-149 | the MCP chat request is JSON mode at temperature 0.1 with the given prompts |
| McpWorkflows.ChatReply | src/foundry_agents_mcp/workflows.py:130-150 | fails exactly without a chat client or when the completion fails; an empty or null reply is "", which the `or "{}"` of the package would turn into `{}` |
| McpWorkflows.CaseStudyOutcome | src/foundry_agents_mcp/workflows.py:245-254 | the case study is the parsed chat reply, or the chat error |
| McpWorkflows.McpArchitectureStage | src/foundry_agents_mcp/workflows.py:269-290 | the architecture summary escapes exactly when the reply parses and the summary raises; a chat or parse error stores the error object with only the warning line; otherwise the reply is stored with the two summary lines |
| McpWorkflows.ArchitectureVariantsAgree | src/foundry_agents_mcp/workflows.py:269-290 | the two pipelines agree except where the MCP summary escapes; there the package stores the error object and warns |
| McpWorkflows.NonObjectReplyEscapes | src/foundry_agents_mcp/workflows.py:284-290 | a reply that parses to a non-object escapes the MCP workflow, while the package recovers from it |
| McpWorkflows.ArchitectureAndIngest | src/foundry_agents_mcp/workflows.py:269-312 | steps 3 and 4 of the MCP workflow for a given outcome of the architecture stage: one chat request about the fields; the report is the earlier lines, the field lines and the step-3 heading, then on escape nothing more, else the stage's lines, the step-4 heading and, when ingestion succeeds, its text and the completion line |
| McpWorkflows.McpFailureWarns | src/foundry_agents_mcp/workflows.py:269-312 | a chat or parse error puts the warning with its message at line 9, just before the step-4 heading; an escaping summary leaves the report at nine lines ending with the step-3 heading |
| McpWorkflows.McpStageLinesInReport | src/foundry_agents_mcp/workflows.py:269-298 | in the report the stage's lines start at line 9, after the header, the field lines and the step-3 heading, and the step-4 heading follows them |
| McpWorkflows.AfterFetch | src/foundry_agents_mcp/workflows.py:243-312 | steps 2 to 4 for given stage outcomes: the case-study request first, a case-study failure ends the report, unusable fields raise, otherwise the architecture request second and every later report line as in steps 3 and 4 |
| McpWorkflows.RunWorkflow | src/foundry_agents_mcp/workflows.py:204-312 | stages in order; every chat request at temperature 0.1; fetch and case-study errors stop it; the architecture summary can escape; otherwise every report line after the header is given, ending with the ingest result |
| McpAgents.DisplayName | src/foundry_agents_mcp/agents.py:46 | the name, or "Unnamed Agent" when it is missing or empty |
| McpAgents.AgentLines | src/foundry_agents_mcp/agents.py:46-59 | one block per agent: heading, id, model, description and tools when present, blank line |
| McpAgents.ListingStep | src/foundry_agents_mcp/agents.py:45-59 | the listing grows by one agent's block per iteration |
| McpAgents.ListingHeadings | src/foundry_agents_mcp/agents.py:45-59 | every agent's heading appears in the listing |
| McpAgents.ListingLength | src/foundry_agents_mcp/agents.py:45-59 | each agent contributes at least four lines |
| McpAgents.ListAgents | src/foundry_agents_mcp/agents.py:20-65 | not configured, the listing error, "no agents", or the header followed by every agent's block |
| McpAgents.ListingLines | src/foundry_agents_mcp/agents.py:44-59 | the loop yields the header and every block in order |
| McpAgents.ComposeContent | src/foundry_agents_mcp/agents.py:100-102 | the content starts with the task and equals it exactly when the file context is falsy; otherwise the context follows under "Additional context" |
| McpAgents.InvokeAgent | src/foundry_agents_mcp/agents.py:68-124 | not configured, or one thread-and-run request for the given agent id holding one user message; the reply carries the invocation id built from the thread and run ids, or the invocation error |
| McpAgents.StatusLines | src/foundry_agents_mcp/agents.py:156-175 | header, id and status lines, optional timing and error lines, and a last line saying finished exactly for a terminal status |
| McpAgents.InvocationStatus | src/foundry_agents_mcp/agents.py:127-181 | not configured, the invalid-id message without any request, or one `get_run` and the status lines or the error |
| McpAgents.FailureMessage | src/foundry_agents_mcp/agents.py:221-222 | the error's message, its string form, or "Unknown error" |
| McpAgents.RenderPartsAppend | src/foundry_agents_mcp/agents.py:247-254 | rendering distributes over concatenated parts |
| McpAgents.RenderPartsCount | src/foundry_agents_mcp/agents.py:247-254 | one line per text or image part, none for other parts |
| McpAgents.FirstAssistantIndex | src/foundry_agents_mcp/agents.py:244-246 | the newest assistant message; none exactly when there is no assistant message |
| McpAgents.ResultStopsAtNewestAssistant | src/foundry_agents_mcp/agents.py:243-258 | the result tool stops at the newest assistant message even without text, unlike `invoke_and_wait` |
| McpAgents.RenderResponse | src/foundry_agents_mcp/agents.py:243-258 | the loop with `break` renders the newest assistant message, or "No assistant response found." |
| McpAgents.InvocationResult | src/foundry_agents_mcp/agents.py:184-264 | not configured, invalid id, "not complete", failed, cancelled or expired, or the rendered response; messages are listed only for a completed run |
| McpSearch.HitOptionalLines | src/foundry_agents_mcp/search.py:85-92 | one line each for present tags, a truthy reference and a score, the tags line first |
| McpSearch.HitLines | src/foundry_agents_mcp/search.py:80-93 | a hit's block exists exactly when its tags can be joined; heading first, the tags line when present, blank line last |
| McpSearch.JoinedHitsList | src/foundry_agents_mcp/search.py:78-95 | when every hit's tags can be joined, the listing succeeds |
| McpSearch.HitsNumbered | src/foundry_agents_mcp/search.py:79-80 | the hit at position k is listed under number k+1 |
| McpSearch.ListHits | src/foundry_agents_mcp/search.py:78-93 | the loop builds the listing, or stops with the first join error |
| McpSearch.HitsListingFails | src/foundry_agents_mcp/search.py:78-93 | a failing prefix makes the whole listing fail with its error |
| McpSearch.SearchVectorDb | src/foundry_agents_mcp/search.py:22-99 | not configured, the search error, "no results", or the header and the numbered hits |
| McpSearch.AddToVectorDb | src/foundry_agents_mcp/search.py:102-172 | not configured without any call; otherwise embed the content, upload the document with the parsed tags, and report success exactly when some upload succeeded |

## Left out

- Fetching the page over HTTP and Python's `html.parser` tokenizer are not modelled. The extractor receives the tokenizer's callbacks as a sequence of start-tag, end-tag and data events.
- `json.loads` is an input function (`parse`). The model does not parse JSON text.
- Azure SDK calls are inputs: agent lists, run snapshots, thread messages, embeddings, upload results and index creation failures. Only some failures are modelled: listing agents, invoking an agent, reading a run, the agents' direct chat completion, the chat completion of the MCP workflow, searching and creating an index. The other calls always answer; the members this affects are listed below.
- ChatBackend.Services: the agent lookup, thread, run and message calls always answer. So CaseStudyAgent.Run, ArchitectureAgent.Run and FoundryRuns.InvokeAndWait never raise an SDK exception from them; a failing direct chat completion is modelled, as the `Err` of `completion`.
- SearchService.Service: GetIndex, Embed and UploadDocument always answer; only index creation can fail. So FoundryIngest.EnsureIndex and FoundryIngest.IngestDocument never raise a lookup, embedding or upload error.
- McpIndex.CreateProjectLogIndex: it never returns the "Error creating index: …" text for a failed `get_index` lookup, because the lookup always answers.
- McpIndex.IngestProjectLog: it never returns "Error ingesting project log: …", because the services it calls never raise.
- McpIndex.ServerIngestProjectLog: it never returns "Error ingesting project log: …", because the services it calls never raise.
- Embedding vectors and relevance scores are opaque. The score is taken already formatted with `:.4f`, because floating-point formatting is out of scope.
- Generated ids (`uuid4`) and timestamps (`datetime.now`) are parameters.
- Environment configuration is modelled as booleans and a `SearchConfig`.
- `asyncio.to_thread` and `asyncio.sleep` are not timed. The model counts polls and sleeps and assumes the calls happen one at a time.
- FoundryRuns.InvokeAndWait: it requires a run trace that reaches a terminal status, because the source's loop has no bound and a run that never ends is not modelled.
- McpAgents.AgentLines: the `- **Metadata**` line with `json.dumps(metadata)` is left out. The tool types are joined as given.
- Run statuses are the strings `str(run.status)` yields. Start and completion times and the error object are rendered as given.
- Agent objects, error objects and run objects are assumed truthy, as SDK objects are.
- JsonValues.Repr: the escaping of a string `repr` covers backslash, the quote, newline, carriage return and tab only. Other non-printable characters are left as they are.
- A decoded JSON object keeps its members as written. `get` finds a repeated key's last value, and iteration and `repr` see the dict `json.loads` builds: each key once, where it first appears, with its last value (JsonValues.Dedup). Dict equality, which ignores order, is not modelled.
- McpSearch.JoinedHitsList: only one direction is proved. If every hit's tags can be joined, the listing succeeds. That the listing fails when some hit's tags cannot be joined is shown for a failing prefix by McpSearch.HitsListingFails, not as a full converse.
- McpSearch.AddToVectorDb and McpIndex.IngestProjectLogDoc: exceptions raised by the embedding or the upload are not modelled. The services always answer.
- The CLI entry points (`run_cmd`, `deploy_cmd`, `main`) and `workflows_list_sample_workflows` are not modelled: they only print or return fixed text.
- The agents' instruction prompts are modelled as two named constants, not as their full text.
- `server.py` repeats most tools of the `foundry_agents_mcp` modules. Each is modelled once. The server's own variant of project-log ingestion (probe first, then create through the create tool) is modelled separately as McpIndex.ServerIngestProjectLog.
- The `__init__.py` files are not modelled: they only re-export names.
