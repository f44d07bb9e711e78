# python_agents in Dafny

This project models the Python multi-agent pipeline of `python_agents` and proves properties of the model. The pipeline turns a Jira ticket into an HSD ticket, a PRD and architecture documentation. Its parts:

- **The three agents** (`agents.py`):
  - the Jira analyst fetches the ticket and creates the HSD ticket;
  - the technical architect splits the model's reply into impact analysis and solution architecture, and draws the component diagram;
  - the product manager parses the model's reply as a PRD, builds the diagrams and the architecture document, and publishes a Confluence page.
  The language model's reply is an input, as are the collaborators' outcomes: the fetched ticket, the export, the page service, the DATADEV key and an exception's text.
- **The workflow engine** (`workflow_engine.py`): a class holding the registry of workflow states and the progress callbacks. A progress callback is a token, and the updates delivered to callbacks are kept as a log.
- **The two servers**:
  - `main.py`: the websocket `ConnectionManager` class and the shaping of the start and status replies;
  - `start_server.py`: the HSD endpoint and its bounded, newest-first list of results, as a class.
- **The clients**:
  - `jira_client.py`: parsing Jira JSON into the ticket record, the record's `dict()`, the HSD and DATADEV descriptions, the HSD payload and the error path of `get_ticket`;
  - `confluence_client.py`: the configuration and the markdown-to-Confluence converter.
- **The documents**:
  - `mermaid_generator.py`: the four diagram builders, action extraction and HTML rendering;
  - `document_processor.py`: components, story diagrams, impact analysis and markdown;
  - `ticket_document_manager.py`: file-name sanitising, the download loop, the summary record and the PRD markdown.
- **The retrieval index** (`vector_store.py`): a class over a map of documents and their insertion order, with filtering, stable ranking and top-k.
- **The schema records** (`workflow_state.py`).

JSON values and Python dictionaries are a `Value` datatype. A dictionary is an association list that keeps Python's insertion order (`values.dfy`). Python's string operations are written out in `text.dfy`: `find`, `replace`, `split`, `join`, `strip`, `lower` and slicing, including negative slice bounds. Loops in the source become methods with loop invariants, and each method's postcondition ties its result to a recursive specification function. Properties are proved about those functions as lemmas. Exceptions become `None`, `Failed` or `Raised` results.

## Model

| member | source | states |
|---|---|---|
| Schema.Progress | python_agents/workflow_state.py:48-53 | a progress report is not `completed` by default and carries the given agent and progress |
| Schema.PrdToValue | python_agents/workflow_state.py:21-31 | `prd.dict()` has exactly eight entries with distinct keys |
| Schema.PrdNeedsTitle | python_agents/workflow_state.py:21-31 | PRD validation succeeds only when `title` is present and a string |
| Schema.StrListBack | python_agents/workflow_state.py:21-31 | a list of strings written as JSON validates back to the same list |
| Schema.StrDictBack | python_agents/workflow_state.py:21-31 | a string-to-string map written as JSON validates back to the same map |
| Schema.PrdLookups | python_agents/workflow_state.py:21-31 | each of the eight fields of `prd.dict()` is found under its schema name with its encoded value |
| Schema.PrdFromFields | python_agents/workflow_state.py:21-31 | validation reads each field by key alone: any dictionary holding the eight encoded fields, whatever else it holds, validates to that PRD |
| Schema.PrdRoundTrip | python_agents/workflow_state.py:21-31 | validating the dictionary of any PRD gives back that PRD: all eight fields are required and none has a default |
| Schema.AsStrList | python_agents/workflow_state.py:21-31 | validation of a list-of-strings field succeeds only on a JSON list, one string per item |
| Schema.AsStrDict | python_agents/workflow_state.py:21-31 | validation of a string map succeeds only on a JSON object, one string per entry |
| Schema.StrList | python_agents/workflow_state.py:21-31 | a list of strings as JSON keeps its length |
| Schema.StrDict | python_agents/workflow_state.py:21-31 | a string map as JSON keeps its length |
| Schema.RequestFromValue | python_agents/workflow_state.py:33-37 | a valid request body has the string `jira_ticket_id`; without `engine_type` the engine type is `langchain` |
| Schema.RequestRoundTrip | python_agents/workflow_state.py:33-37 | a serialised request validates back to itself |
| Schema.Response | python_agents/workflow_state.py:39-46 | `current_step` and `error` default to None; the other fields are as given |
| Schema.ResponseToValue | python_agents/workflow_state.py:39-46 | the response body has the five fields in order, with the absent optionals written as `null` |
| Engine.InitialState | python_agents/workflow_engine.py:30-41 | a new state has distinct keys, the given `jira_ticket_id`, `current_step` `jira_analyst`, `currentAgent` `jira-analyst` and the metadata with engine type and version |
| Engine.CompletedStateReads | python_agents/workflow_engine.py:79-95 | after success, every analyst result key reads its value, `current_step` and `currentAgent` read `completed`, and every other key is unchanged |
| Engine.FailedStateReads | python_agents/workflow_engine.py:108-111 | after failure the state reads the message under `error` and `failed` under `current_step`, and nothing else changes |
| Engine.UpdateUnique | python_agents/workflow_engine.py:79 | `state.update(result)` keeps the keys distinct |
| Engine.WrittenStatesUnique | python_agents/workflow_engine.py:79-111 | both states the engine writes keep distinct keys |
| Engine.Forwarded | python_agents/workflow_engine.py:64-71 | every analyst report is forwarded once, in order, tagged with the workflow id and not completed |
| Engine.ExecutedEvents | python_agents/workflow_engine.py:64-120 | after the forwarded reports, a success adds exactly two completed reports at 100 (`jira-analyst`, then `workflow`), and a failure adds one `workflow` report reading `Workflow failed: ` plus the message |
| Engine.ExecutedState | python_agents/workflow_engine.py:73-120 | an execution leaves `current_step` `completed` with the result merged in, or `failed` with `error` set to the analyst's error or exception text |
| Engine.AnalystResultUnique | python_agents/agents.py:111-119 | the analyst's seven result keys are distinct |
| Engine.AnalystRunUnique | python_agents/agents.py:111-119 | a completed analyst run returns a dictionary with distinct keys |
| Engine.AnalystDecidesWorkflow | python_agents/workflow_engine.py:73-120 | a ticket that cannot be fetched fails the workflow with the analyst's `Unable to fetch Jira ticket` error; a fetched one completes it with the ticket data in the state |
| Engine.HasKeyOf | python_agents/workflow_engine.py:79 | every entry's key is a key of the dictionary |
| Engine.ExecutedWellFormed | python_agents/workflow_state.py:14 | every state the engine writes has distinct keys and a `current_step` naming a workflow step (`failed` included) |
| Engine.WorkflowEngine.constructor | python_agents/workflow_engine.py:15-21 | the registry, the callbacks and the delivery log start empty |
| Engine.WorkflowEngine.StartWorkflow | python_agents/workflow_engine.py:23-49 | the id is registered with its initial state and other entries are unchanged; a callback is stored only when one is given |
| Engine.WorkflowEngine.ExecuteWorkflow | python_agents/workflow_engine.py:51-120 | an unknown id or an empty state changes nothing and delivers nothing; otherwise the state becomes the execution's, and the reports go to the registered callback, if any |
| Engine.WorkflowEngine.WorkflowStatus | python_agents/workflow_engine.py:122-124 | the stored state of a registered id, well formed, and None for an unknown id |
| Engine.WorkflowEngine.AllWorkflows | python_agents/workflow_engine.py:126-128 | a copy of the registry, equal to it |
| Engine.WorkflowEngine.CleanupWorkflow | python_agents/workflow_engine.py:130-135 | the id leaves both maps; other workflows and an unknown id are untouched |
| Engine.Deliveries | python_agents/workflow_engine.py:64-71 | each update is handed to the workflow's callback once, in order |
| Agents.StripKeepsHeading | python_agents/agents.py:214-216 | stripping text that opens with a heading keeps the heading at the front |
| Agents.SectionsWithoutHeading | python_agents/agents.py:212-221 | without the delimiter, the whole stripped reply minus its impact heading is the impact analysis |
| Agents.SectionsWithHeading | python_agents/agents.py:212-221 | with the delimiter, the impact analysis precedes it and the solution runs from it to its next occurrence |
| Agents.HeadingsTrimmed | python_agents/agents.py:214-216 | both headings are non-empty and the solution heading has no surrounding whitespace |
| Agents.ArchitectWithoutSolution | python_agents/agents.py:212-221 | a reply without `## Solution Architecture` has an empty solution architecture, and the impact analysis is the stripped reply without `## Impact Analysis` |
| Agents.ArchitectSectionsSplit | python_agents/agents.py:212-221 | with the heading first at `i`, the impact analysis is the stripped text before it minus its heading, and the solution opens with the heading and stops at its second occurrence |
| Agents.SchemaLines | python_agents/agents.py:238-252 | one schema line per PRD field |
| Agents.PrdKeysAreFields | python_agents/agents.py:238-252 | a PRD's dictionary has exactly the fields the format instructions list, in their order |
| Agents.InstructionsNameEveryField | python_agents/agents.py:238-252 | the format instructions name every key that PRD validation requires |
| Agents.FindChar | python_agents/agents.py:397-400 | `find` of one character is its first index at or after the start |
| Agents.BraceSpanBetween | python_agents/agents.py:397-400 | text around a braced object, with no `{` before and no `}` after, is narrowed to the object |
| Agents.FencedObjectExtracted | python_agents/agents.py:386-400 | an object inside a json fence reaches `json.loads` exactly as written |
| Agents.UnfencedKept | python_agents/agents.py:386-400 | a reply that opens with `{` and closes with `}` passes the fence stripping unchanged |
| Agents.BareObjectExtracted | python_agents/agents.py:386-400 | a reply that is a bare object reaches `json.loads` unchanged |
| Agents.SkipSpaces | python_agents/agents.py:415-417 | the regex's `\s*` skips exactly the whitespace run |
| Agents.FieldFromAbsent | python_agents/agents.py:415-417 | a reply that never names a key has no regex match for it |
| Agents.RegexFieldReads | python_agents/agents.py:415-417 | a reply with `"key": "v"` gives `v` back for any non-empty `v` without quotes |
| Agents.FallbackDefaults | python_agents/agents.py:408-428 | a reply naming none of the three keys gets the fixed title, introduction and problem statement |
| Agents.FallbackReadsTitle | python_agents/agents.py:408-428 | a reply that opens with a quoted title keeps that title even when the JSON cannot be parsed |
| Agents.ParseStructuredResponse | python_agents/agents.py:382-440 | no PRD comes out exactly when the loaded JSON is valid but not an object, since `PRD(**parsed)` then raises outside the handler |
| Agents.StructuredRoundTrip | python_agents/agents.py:382-440 | a reply whose JSON is a PRD's dictionary gives that PRD; malformed JSON gives the fallback PRD |
| Agents.FencedPrdParsed | python_agents/agents.py:382-406 | a PRD's JSON inside a json fence parses to that PRD |
| Agents.StepsUpClimbs | python_agents/agents.py:49-364 | reports that each rise above the one before, from the same agent, rise across the whole list |
| Agents.ProgressClimbsToCompletion | python_agents/agents.py:49-364 | each agent's reported progress strictly increases and ends at 100 |
| Agents.Returned | python_agents/agents.py:207-210 | a failed agent returns `{'error': message}` |
| Agents.AnalystResultShape | python_agents/agents.py:111-119 | the completed analyst result lists its seven keys in order, maps `current_step` to `completed` and `jira_ticket_data` to the ticket's dictionary, and has no `error` key |
| Agents.AnalystOutcomes | python_agents/agents.py:46-121 | the analyst either fails after its first report naming the ticket, or reports four steps and returns its seven keys with `current_step` and `status` `completed`; a failed fetch always fails |
| Agents.ComponentLabelsEach | python_agents/agents.py:155-161 | one label per component, in order |
| Agents.ComponentLabelNames | python_agents/agents.py:155-161 | a dict component is labelled by its string `name`, a dict without one by its own `str()`, and a string by itself |
| Agents.CollectComponentLabels | python_agents/agents.py:155-161 | the loop collects exactly the labels of the components |
| Agents.DiagramInputs | python_agents/agents.py:183-186 | the diagram gets the first five names, each typed `service` |
| Agents.TechnicalArchitectExecute | python_agents/agents.py:137-210 | the method's run equals the architect's run function |
| Agents.ArchitectNeedsTicket | python_agents/agents.py:145-146 | without ticket data the architect reports one step and returns the error, without an exception |
| Agents.ArchitectFailures | python_agents/agents.py:137-210 | without a reply from the model the architect fails; every failure is its error after one or two steps |
| Agents.ArchitectResultFields | python_agents/agents.py:196-205 | the result has four keys, `current_step` is `product_manager`, and the diagram is stored as title, code and description |
| Agents.ArchitectCompletes | python_agents/agents.py:137-205 | a completed run reports all four steps and returns the reply's sections and the diagram of the first five components |
| Agents.StoryEntries | python_agents/agents.py:288-298 | at most three story flows, each numbered and described by its story |
| Agents.BuildDiagrams | python_agents/agents.py:288-316 | the loop builds exactly the diagram list |
| Agents.DiagramListShape | python_agents/agents.py:288-316 | the list holds one flow per story up to three, then the workflow, then the architecture diagram exactly when the state has one |
| Agents.SectionsOf | python_agents/agents.py:336-342 | one page section per diagram, in order |
| Agents.SectionsTextDefined | python_agents/agents.py:336-342 | the diagrams render exactly when every code is a string |
| Agents.SectionsTextShow | python_agents/agents.py:336-342 | every diagram's code appears fenced in the rendered text |
| Agents.PageShowsDiagrams | python_agents/agents.py:333-342 | the page exists iff every code is a string, opens with the document and shows every code fenced |
| Agents.AppendDiagramSections | python_agents/agents.py:336-342 | the `+=` loop appends exactly the rendered sections |
| Agents.SectionsTextFail | python_agents/agents.py:336-342 | once a prefix fails to render, the whole list fails |
| Agents.ProductManagerExecute | python_agents/agents.py:254-380 | the method's run equals the product manager's run function |
| Agents.PublishPrd | python_agents/agents.py:282-380 | the steps after parsing produce the run the product manager's run function gives for that PRD: a missing architecture stops after three reports, a page that cannot be written after five, otherwise the page is posted with every report |
| Agents.PmNeedsInputs | python_agents/agents.py:262-263 | without ticket data, impact analysis or solution architecture, the manager reports one step and returns the error |
| Agents.PmStopStopsEarly | python_agents/agents.py:377-380 | a failure after `n` steps keeps a proper prefix of the reports |
| Agents.PmPublishStopsEarly | python_agents/agents.py:322-380 | failures while publishing stop before the last report |
| Agents.PmFromReplyStopsEarly | python_agents/agents.py:280-380 | failures after the reply stop before the last report |
| Agents.PmFailures | python_agents/agents.py:254-380 | no reply from the model is a failure, and every failure is the manager's error after a proper prefix of its reports |
| Agents.PmPublishPosts | python_agents/agents.py:322-375 | a published run posts a page titled after the PRD that opens with the document and shows every diagram's code |
| Agents.PmCompletes | python_agents/agents.py:254-375 | a completed run had all inputs and a reply, and publishes the parsed PRD with its diagram list and document |
| Agents.PmFromReplyPublishes | python_agents/agents.py:280-375 | a completed run parsed a PRD, found the architecture diagram and published |
| Jira.Strs | python_agents/jira_client.py:163-169 | a list converts to strings iff every item is a string, one per item |
| Jira.AllOfEach | python_agents/jira_client.py:163-197 | an append loop succeeds iff every item converts, keeping one entry per item in order |
| Jira.CollectAll | python_agents/jira_client.py:163-197 | the loop computes exactly the converted list |
| Jira.TicketDictFields | python_agents/jira_client.py:38-59 | `dict()` yields exactly the declared fields, in order, each once |
| Jira.TicketDictOmitsExtras | python_agents/jira_client.py:38-59 | `story_points` and `resolution` set after construction are not in `dict()` |
| Jira.Normalize | python_agents/jira_client.py:214-215 | normalising leaves no carriage return |
| Jira.CommentOf | python_agents/jira_client.py:172-184 | a parsed comment body holds no carriage return |
| Jira.AttachmentOf | python_agents/jira_client.py:187-197 | an attachment's url is the attachment prefix, then its id, `/` and its file name |
| Jira.ParseTicketData | python_agents/jira_client.py:158-247 | the method with three append loops computes the parsed ticket |
| Jira.ParsedDescription | python_agents/jira_client.py:208-215 | the description is the JSON description when truthy and otherwise the summary; it is normalised |
| Jira.ParsedCommentBodies | python_agents/jira_client.py:172-184 | no comment body holds a carriage return |
| Jira.ParsedLists | python_agents/jira_client.py:163-197 | components, comments and attachments keep the JSON's order with `''` (size `0`) defaults; comments are read only under `comment.comments` |
| Jira.ParsedSprintAndResolution | python_agents/jira_client.py:200-202 | `sprint` is `str()` of a truthy `customfield_10015`, else `''`; `resolution` is the name, or `''` when falsy |
| Jira.ParseNeedsDicts | python_agents/jira_client.py:158-247 | JSON that is not an object, or whose `fields` is not one, yields no ticket |
| Jira.AttachmentLines | python_agents/jira_client.py:523-531 | one line per attachment |
| Jira.AttachmentBlockShape | python_agents/jira_client.py:523-531 | at most five attachment lines, then `... and N more attachments` exactly when there are more than five |
| Jira.FormatHsdDescription | python_agents/jira_client.py:408-542 | the method computes the HSD description |
| Jira.HsdFront | python_agents/jira_client.py:408-450 | builds the source details, the optional story points and current priority, the original summary and description, then the optional delivery page and value stream, in that order |
| Jira.AppendHsdMiddle | python_agents/jira_client.py:450-505 | appends the assignee, reporter, labels, components and sprint blocks, each only when present |
| Jira.AppendHsdEnd | python_agents/jira_client.py:505-542 | appends the timeline, the attachment count and listing, and the comment summary and footer |
| Jira.AppendTimeline | python_agents/jira_client.py:505-520 | the timeline lines, the due date only when set |
| Jira.AppendAttachmentBlock | python_agents/jira_client.py:523-531 | the loop over the first five attachments appends the attachment block |
| Jira.HsdDescriptionStart | python_agents/jira_client.py:408-412 | the description opens with `# HSD Implementation for ` and the key |
| Jira.HsdFixedFieldsLookup | python_agents/jira_client.py:319-364 | the payload's labels, priority and description read as built |
| Jira.HsdPayloadFields | python_agents/jira_client.py:319-364 | the labels are the three generated ones then the source's, the priority is the source's or `Medium`, and the description is the formatted one |
| Jira.HsdPayloadFailures | python_agents/jira_client.py:319-364 | the payload fails iff the description fails or the labels are truthy but not a list |
| Jira.DatadevDescription | python_agents/jira_client.py:544-576 | the DATADEV description opens with the PRD title, `Feature` by default, and cites the source ticket |
| Jira.GetTicketErrors | python_agents/jira_client.py:75-105 | a fetch that yields nothing raises, and every raised message names the ticket id |
| Confluence.RStripSlash | python_agents/confluence_client.py:28-44 | `rstrip('/')` removes exactly the trailing slashes |
| Confluence.LoadConfig | python_agents/confluence_client.py:28-44 | a configuration exists iff base URL, user name and token are set and non-empty; the base URL loses trailing `/`, the space defaults to `DEV` |
| Confluence.InlineRulesThatFire | python_agents/confluence_client.py:120-132 | after `# ` becomes `<h1>` no `# ` remains, so the `##`/`###` rules never fire; the result holds no `*` |
| Confluence.Step | python_agents/confluence_client.py:139-153 | one loop iteration keeps the converter state consistent |
| Confluence.Fold | python_agents/confluence_client.py:135-153 | the loop's state stays consistent |
| Confluence.MarkdownToConfluence | python_agents/confluence_client.py:120-159 | the method computes the joined output of the line fold |
| Confluence.RunLength | python_agents/confluence_client.py:139-153 | the open list run is a suffix of the lines |
| Confluence.FoldIsReference | python_agents/confluence_client.py:135-157 | the loop computes the reference output, and `in_list` holds exactly while a run is open |
| Confluence.OpenersAreNotItems | python_agents/confluence_client.py:141-149 | `<ul>` and `<ol>` are not `<li>` lines |
| Confluence.ConversionIsReference | python_agents/confluence_client.py:120-159 | the whole conversion equals the reference output |
| Confluence.ReferenceCount | python_agents/confluence_client.py:135-157 | each input line yields exactly one output line, and each run adds one opener and one closer |
| Confluence.StarBulletsNeverSeen | python_agents/confluence_client.py:131-140 | no converted line starts with `* `, so that branch is never taken |
| Confluence.LinesWithoutStar | python_agents/confluence_client.py:131-140 | text without `*` has no line starting with `* ` |
| Confluence.SingleBulletClosedAsOrdered | python_agents/confluence_client.py:150-153 | as written, a one-item bullet list followed by a plain line is closed with `</ol>` |
| Confluence.NumberedListClosedAsBullets | python_agents/confluence_client.py:155-157 | as written, a numbered list open at the end is closed with `</ul>` |
| Confluence.FixedClosesWhatItOpened | python_agents/confluence_client.py:139-157 | in the corrected converter the pending closer always matches the opener of the open run |
| Confluence.FixedStepKeepsOpener | python_agents/confluence_client.py:139-153 | one corrected step keeps the open run's opener in place |
| Confluence.BlurSnoc | python_agents/confluence_client.py:150-157 | ignoring which closer is used distributes over appending |
| Confluence.FixedDiffersOnlyInClosers | python_agents/confluence_client.py:135-157 | the corrected converter emits the same lines in the same places, except that a closer may be the other one |
| Confluence.StepsBlurAlike | python_agents/confluence_client.py:139-153 | one step of each converter keeps them equal up to closers |
| Mermaid.DiagramComponents | python_agents/mermaid_generator.py:23-24 | an absent or empty component list falls back to a non-empty default |
| Mermaid.Participants | python_agents/mermaid_generator.py:23-33 | at most four participants, the first ones in order, spaces removed |
| Mermaid.ParticipantPieces | python_agents/mermaid_generator.py:32-33 | one participant line each |
| Mermaid.GenerateSequenceDiagram | python_agents/mermaid_generator.py:21-70 | the `+=` loop builds the sequence diagram |
| Mermaid.SequenceDefaults | python_agents/mermaid_generator.py:23-24 | with no components the participants are exactly User, System, Backend |
| Mermaid.ParticipantsKeepNames | python_agents/mermaid_generator.py:23-33 | up to four names without spaces are kept unchanged |
| Mermaid.SpaceFree | python_agents/mermaid_generator.py:33 | removing spaces leaves a space-free name unchanged |
| Mermaid.ParticipantsHaveNoSpaces | python_agents/mermaid_generator.py:33 | no participant name holds a space |
| Mermaid.InteractionPriority | python_agents/mermaid_generator.py:36-64 | the login flow wins whenever the story mentions login, then payment, then search, else the generic flow |
| Mermaid.SequenceTitleShape | python_agents/mermaid_generator.py:26 | the title is `Sequence Diagram: `, at most fifty characters of the story, then `...` |
| Mermaid.NodeLabel | python_agents/mermaid_generator.py:79-93 | node labels have at most twenty characters |
| Mermaid.NodePieces | python_agents/mermaid_generator.py:79-93 | one node per component |
| Mermaid.EdgePieces | python_agents/mermaid_generator.py:95-98 | exactly n-1 chain edges `A{i} --> A{i+1}` when n > 1 |
| Mermaid.GenerateArchitectureDiagram | python_agents/mermaid_generator.py:72-104 | the loops build the architecture diagram |
| Mermaid.ArchitectureNodes | python_agents/mermaid_generator.py:79-93 | node `A{i}` is component i, labelled by its name cut to twenty characters |
| Mermaid.ActionLabel | python_agents/mermaid_generator.py:191-192 | a step label has at most 23 characters |
| Mermaid.ExtractAction | python_agents/mermaid_generator.py:181-196 | with `i want to` present the action has at most 23 characters |
| Mermaid.LowerSlice | python_agents/mermaid_generator.py:184-191 | lower-casing commutes with slicing |
| Mermaid.ActionSpan | python_agents/mermaid_generator.py:186-192 | the action text is the slice of the story that starts after `i want to` and ends before the next ` so that` (or at the end), and holds no ` so that` in any case |
| Mermaid.ActionStopsAtSoThat | python_agents/mermaid_generator.py:186-192 | the action is cut from the text after `i want to` that holds no ` so that` |
| Mermaid.ActionFallback | python_agents/mermaid_generator.py:193-196 | without `i want to` the action is the first three words and `...` |
| Mermaid.StepPieces | python_agents/mermaid_generator.py:113-118 | at most six step nodes |
| Mermaid.GenerateWorkflowDiagram | python_agents/mermaid_generator.py:106-130 | the loop builds the workflow diagram |
| Mermaid.StepPieceIsNotDecision | python_agents/mermaid_generator.py:113-124 | a step piece is never the decision block |
| Mermaid.WorkflowDecision | python_agents/mermaid_generator.py:113-124 | at most six steps; the decision block follows iff the full list has more than two stories |
| Mermaid.WithRisk | python_agents/mermaid_generator.py:139-141 | a group keeps only items of its level, in order |
| Mermaid.WithRiskMembers | python_agents/mermaid_generator.py:139-141 | an item is in a group iff it is an input item of that level |
| Mermaid.RiskPartition | python_agents/mermaid_generator.py:139-173 | high, medium and low groups partition the items of those levels; others are dropped |
| Mermaid.GroupPieces | python_agents/mermaid_generator.py:143-159 | one node per group item |
| Mermaid.ClassPieces | python_agents/mermaid_generator.py:168-173 | one class line per kept item |
| Mermaid.AppendAll | python_agents/mermaid_generator.py:143-173 | the `+=` loop appends the pieces in order |
| Mermaid.GenerateImpactDiagram | python_agents/mermaid_generator.py:132-179 | the loops build the impact diagram |
| Mermaid.ImpactGroups | python_agents/mermaid_generator.py:143-147 | a group lists its items in order as `H0`, `H1`, ... |
| Mermaid.RenderEmbedsChart | python_agents/mermaid_generator.py:198-217 | the HTML holds the chart verbatim in the container and ends with the loader script |
| DocumentProcessor.ComponentsOf | python_agents/document_processor.py:67-88 | one component per requirement |
| DocumentProcessor.ExtractComponents | python_agents/document_processor.py:67-88 | the loop builds exactly those components, in order |
| DocumentProcessor.ComponentKindPriority | python_agents/document_processor.py:71-80 | api/endpoint wins over ui/interface, which wins over database/storage; otherwise service |
| DocumentProcessor.ComponentNames | python_agents/document_processor.py:81-86 | the name is the requirement, or its first fifty characters and `...` when longer; the description is the requirement and `apis` is empty |
| DocumentProcessor.StoryTemplatePriority | python_agents/document_processor.py:110-148 | the login template wins whenever login is mentioned, then payment, else the generic one |
| DocumentProcessor.StoryDiagrams | python_agents/document_processor.py:90-108 | one diagram per story |
| DocumentProcessor.GenerateSequenceDiagrams | python_agents/document_processor.py:90-108 | the loop builds exactly those diagrams |
| DocumentProcessor.StoryDiagramTitles | python_agents/document_processor.py:94-104 | story i is titled `User Story i+1 Flow` and described by its own text |
| DocumentProcessor.ImpactsOf | python_agents/document_processor.py:150-176 | one impact entry per requirement |
| DocumentProcessor.GenerateImpactAnalysis | python_agents/document_processor.py:150-176 | the loop builds the entries; an absent list gives none |
| DocumentProcessor.AnyInThree | python_agents/document_processor.py:162-167 | `any` over three keywords is their disjunction |
| DocumentProcessor.ImpactServices | python_agents/document_processor.py:157-172 | high for database/migration/schema adds the data services; medium for api/integration/external adds the API services; low otherwise; `Primary Service` comes first; the component has at most 33 characters |
| DocumentProcessor.AppendNumbered | python_agents/document_processor.py:191-221 | the numbered-list loops write `n. item` from one |
| DocumentProcessor.AppendNfr | python_agents/document_processor.py:205-207 | NFRs are written as `- **k**: v` in order |
| DocumentProcessor.GenerateMarkdownContent | python_agents/document_processor.py:178-230 | builds the markdown section by section: header, user stories, technical requirements, non-functional requirements, out of scope, success metrics, ticket footer, absent lists written as empty ones |
| DocumentProcessor.NumberedLineListed | python_agents/document_processor.py:191-221 | item i appears as the line `i+1. item` |
| DocumentProcessor.MarkdownFrame | python_agents/document_processor.py:178-228 | the document opens with the title heading and ends with the ticket footer (`N/A` defaults) |
| DocumentProcessor.MarkdownListsItems | python_agents/document_processor.py:191-199 | every user story and technical requirement appears as its numbered line |
| DocumentProcessor.ProcessPrdDocument | python_agents/document_processor.py:35-65 | title defaults to `Untitled Document`, summary to `''`; components, story diagrams, impact and markdown are the specified ones |
| TicketDocs.ReplaceUnsafe | python_agents/ticket_document_manager.py:77 | each unsafe character becomes `_` and nothing else changes |
| TicketDocs.SplitExt | python_agents/ticket_document_manager.py:80 | `splitext` splits a name into a stem and an extension that starts with its only dot |
| TicketDocs.SanitizeFilename | python_agents/ticket_document_manager.py:73-82 | as written: no unsafe character, and short names are only substituted |
| TicketDocs.SafeParts | python_agents/ticket_document_manager.py:79-81 | a cut name with its extension stays safe |
| TicketDocs.SanitizeCutsLongNames | python_agents/ticket_document_manager.py:79-81 | a long name with an extension of at most 200 characters is cut to exactly 200, keeping the extension |
| TicketDocs.LongExtensionSplit | python_agents/ticket_document_manager.py:80 | for `"a." + x` with no dot or slash in `x`, `splitext` gives the stem `a` and the extension `"." + x` |
| TicketDocs.LongExtensionEscapesLimit | python_agents/ticket_document_manager.py:79-81 | as written, `"a." + x` with a 200-character `x` sanitises to 201 characters |
| TicketDocs.SafeFilename | python_agents/ticket_document_manager.py:73-82 | corrected: safe, at most 200 characters, and cut to exactly 200 when longer |
| TicketDocs.SafeFilenameAgrees | python_agents/ticket_document_manager.py:73-82 | the correction agrees with the original whenever the extension fits |
| TicketDocs.SafeFilenameKeepsSafeNames | python_agents/ticket_document_manager.py:73-82 | a safe, short name is kept as is |
| TicketDocs.RequestOf | python_agents/ticket_document_manager.py:39-48 | a request is sent only with a truthy url and a non-empty string file name |
| TicketDocs.DownloadAttachment | python_agents/ticket_document_manager.py:36-66 | a path comes back iff a request was sent and answered 200, and it is the folder, `attachments` and the name as `_sanitize_filename` writes it |
| TicketDocs.LongNameDownloadPath | python_agents/ticket_document_manager.py:48-49 | the saved path of `"a." + x` ends in the 201-character extension alone, as the sanitiser is written |
| TicketDocs.NoRequestWithoutUrlOrName | python_agents/ticket_document_manager.py:43-45 | without url or file name the result is None, whatever a request would do |
| TicketDocs.DownloadedPathsAreTruthy | python_agents/ticket_document_manager.py:167-178 | every returned path is non-empty, hence kept |
| TicketDocs.DownloadsDefined | python_agents/ticket_document_manager.py:167-178 | the loop gets through iff every attachment is a dict, keeping at most one path each |
| TicketDocs.DownloadsAreSuccesses | python_agents/ticket_document_manager.py:167-178 | every kept path is an attachment's successful download |
| TicketDocs.DownloadsAllSucceed | python_agents/ticket_document_manager.py:167-178 | when all succeed, the i-th path is the i-th attachment's |
| TicketDocs.DownloadsNoneSucceed | python_agents/ticket_document_manager.py:167-178 | when none succeed, nothing is kept |
| TicketDocs.DownloadAll | python_agents/ticket_document_manager.py:167-178 | the loop computes exactly the kept paths, each named by `_sanitize_filename` as written |
| TicketDocs.SummaryOf | python_agents/ticket_document_manager.py:195-215 | `attachments_downloaded` is the count of paths, `prd_generated` iff a PRD is given, `prd_title` None without one |
| TicketDocs.EmptyPrdHasNoTitle | python_agents/ticket_document_manager.py:208-209 | an empty PRD counts as generated but has no title |
| TicketDocs.ProcessedFolderAndCount | python_agents/ticket_document_manager.py:154-193 | a ticket without a key goes to `unknown`, and the summary counts the kept paths |
| TicketDocs.ProcessTicketDocuments | python_agents/ticket_document_manager.py:154-193 | the method computes the download loop, with the file names as `_sanitize_filename` writes them, and the summary |
| Values.EscapeChar | python_agents/jira_client.py:457 | `repr` inside a rendered list writes a control character, the no-break space and the soft hyphen as `\x` and two lower-case hex digits; any other character except the quote and the backslash is written as it is |
| TicketDocs.BulletsAppend | python_agents/ticket_document_manager.py:133-150 | the bullet text of a concatenation is the concatenation of bullet texts |
| TicketDocs.BulletsSplitAt | python_agents/ticket_document_manager.py:133-150 | each item contributes its own line at its own place |
| TicketDocs.AppendBullets | python_agents/ticket_document_manager.py:133-150 | the loop writes `- item` per entry, in order |
| TicketDocs.AppendNfrLines | python_agents/ticket_document_manager.py:140-142 | the loop writes `- **k:** v` per entry, in order |
| TicketDocs.FormatPrdAsMarkdown | python_agents/ticket_document_manager.py:116-152 | the method computes the PRD markdown |
| TicketDocs.PrdDefaults | python_agents/ticket_document_manager.py:118-128 | missing text fields get their fixed defaults |
| TicketDocs.PrdMarkdownWithoutLists | python_agents/ticket_document_manager.py:130-150 | a PRD without list fields gets the fixed `No ... provided.` texts |
| TicketDocs.FieldsRender | python_agents/ticket_document_manager.py:116-152 | any dictionary holding a PRD's encoded title and list fields renders, its header opening with the ticket, the timestamp and that title, and its body listing each field's items |
| TicketDocs.RecordRenders | python_agents/ticket_document_manager.py:116-152 | a PRD's dictionary always renders under its own title with each user story on its line |
| VectorStore.Contents | python_agents/vector_store.py:60 | one content per document |
| VectorStore.DocsInOrder | python_agents/vector_store.py:60-79 | the documents in insertion order, one per id |
| VectorStore.AdmittedExactly | python_agents/vector_store.py:82-88 | a position is admitted iff its document passes every filter, in increasing order |
| VectorStore.NoFilterAdmitsAll | python_agents/vector_store.py:82-88 | without filters every document is admitted |
| VectorStore.Scores | python_agents/vector_store.py:76 | one score per document |
| VectorStore.Candidates | python_agents/vector_store.py:91 | one candidate per admitted position |
| VectorStore.InsertRanked | python_agents/vector_store.py:91-92 | insertion keeps the multiset |
| VectorStore.SortDesc | python_agents/vector_store.py:91-92 | the sort is a permutation |
| VectorStore.InsertKeepsRanked | python_agents/vector_store.py:91-92 | inserting a later element keeps the ranking |
| VectorStore.SortDescRanked | python_agents/vector_store.py:91-92 | the stable descending sort ranks by score, ties by position |
| VectorStore.RankedPairwise | python_agents/vector_store.py:91-92 | a ranked list is pairwise ordered |
| VectorStore.AsResults | python_agents/vector_store.py:95-100 | one result per scored position |
| VectorStore.KeptIsPrefix | python_agents/vector_store.py:95-100 | dropping scores not above zero keeps a prefix of the ranking |
| VectorStore.RankedCandidates | python_agents/vector_store.py:82-92 | positions of the ranking are documents of the store |
| VectorStore.RankedCandidatesOrder | python_agents/vector_store.py:82-92 | the candidates are ranked by score, ties by position, and are exactly the admitted documents with their scores |
| VectorStore.SearchSound | python_agents/vector_store.py:64-102 | at most k results, each a filtered document with its own positive score, best first, a prefix of the ranking |
| VectorStore.FilterIndices | python_agents/vector_store.py:82-88 | the filter loop computes the admitted positions |
| VectorStore.KeepHits | python_agents/vector_store.py:95-100 | the result loop keeps the positive-score results |
| VectorStore.SimpleVectorStore.DocList | python_agents/vector_store.py:76-79 | one document per id, in insertion order |
| VectorStore.SimpleVectorStore.constructor | python_agents/vector_store.py:31-39 | an empty, unfitted store |
| VectorStore.SimpleVectorStore.DocumentCount | python_agents/vector_store.py:104-106 | the count is the number of distinct ids |
| VectorStore.SimpleVectorStore.AddDocument | python_agents/vector_store.py:41-53 | insert or overwrite by id, metadata `{}` by default, an id keeps its first position, the index is stale |
| VectorStore.SimpleVectorStore.FitVectorizer | python_agents/vector_store.py:55-62 | fits on the current contents unless the store is empty |
| VectorStore.SimpleVectorStore.SearchSimilar | python_agents/vector_store.py:64-102 | an empty store gives `[]`; otherwise it refits when stale and returns the specified search |
| VectorStore.SimpleVectorStore.LoadSampleDocuments | python_agents/vector_store.py:108-139 | each sample id maps to its sample content and metadata, every other document keeps its own, and new ids follow the old order in sample order |
| VectorStore.SimpleVectorStore.AddDocuments | python_agents/vector_store.py:138-139 | adding entries one by one: an id's last entry is its document, other documents are unchanged, the keys are the old ones and the entries' ids, the old order is a prefix, and distinct new ids follow it in entry order |
| VectorStore.AddAllKeys | python_agents/vector_store.py:41-53 | after the adds the keys are the old keys and the added ids |
| VectorStore.AddAllKeepsOthers | python_agents/vector_store.py:41-53 | an id no entry names keeps its document, or stays absent |
| VectorStore.AddAllLastWins | python_agents/vector_store.py:41-53 | an id maps to the document of its last entry |
| VectorStore.AppendNewExtends | python_agents/vector_store.py:41-53 | the old insertion order stays a prefix, and the order holds exactly the old and the added ids |
| VectorStore.AppendNewFresh | python_agents/vector_store.py:41-53 | distinct new ids are appended in their own order |
| VectorStore.CountKeys | python_agents/vector_store.py:104-106 | with distinct ids keying the map, the map has one entry per id |
| Server.RemoveFirst | python_agents/main.py:29-31 | an absent socket leaves the list; otherwise one occurrence is removed |
| Server.RemoveFirstAt | python_agents/main.py:29-31 | the first occurrence is the one removed |
| Server.RemoveEachSnoc | python_agents/main.py:42-44 | removing a list of sockets one after another |
| Server.UnreachedSnoc | python_agents/main.py:35-41 | the failed sends of a list grown by one |
| Server.UnreachedAreUnreachable | python_agents/main.py:35-41 | every socket in the failed list failed its send |
| Server.RemoveEachKeepsHead | python_agents/main.py:42-44 | removing sockets other than the head keeps the head |
| Server.PruneKeepsReached | python_agents/main.py:35-44 | pruning removes exactly the failed connections, keeping the others' order, even with duplicates |
| Server.Sent | python_agents/main.py:35-40 | each connection receives the message once, in list order |
| Server.ConnectionManager.constructor | python_agents/main.py:22-23 | no connections and no sends |
| Server.ConnectionManager.Connect | python_agents/main.py:25-27 | the socket joins the end of the list |
| Server.ConnectionManager.Disconnect | python_agents/main.py:29-31 | the first occurrence is removed; an absent socket changes nothing |
| Server.ConnectionManager.Broadcast | python_agents/main.py:33-44 | every connection is sent the message once, in order, and exactly the reachable ones remain, in order |
| Server.ProgressMessage | python_agents/main.py:91-99 | the callback's broadcast has the six keys, type `agent_progress` and the report's fields |
| Server.StartedMessage | python_agents/main.py:106-111 | the start broadcast has type `python_workflow_started`, the workflow id and the ticket id |
| Server.StatusReply | python_agents/main.py:125-136 | 404 for an unknown id or an empty state; otherwise the id, `current_step` (default `unknown`) and the state |
| Server.StatusOfRegistered | python_agents/main.py:125-136 | a registered workflow's status is the step its state names |
| Server.StartEndpoint | python_agents/main.py:86-122 | registers the workflow with its callback, broadcasts the start, and answers `started` at `jira_analyst` |
| Server.StartedThenStatus | python_agents/main.py:86-136 | a started workflow is at once reported at `jira_analyst` |
| HsdServer.RememberNewestFirst | python_agents/start_server.py:72-75 | a stored result goes in front with the newest old ones after it, at most ten kept; an error is not stored |
| HsdServer.TicketState | python_agents/start_server.py:66 | the analyst's state holds the given ticket id |
| HsdServer.HsdReplyFailed | python_agents/start_server.py:80-82 | an exception becomes `error` with the server prefix and the exception text |
| HsdServer.HsdReplyOutcome | python_agents/start_server.py:66-82 | an unfetched ticket gives an error; an answer without `error` holds the fetched ticket's data |
| HsdServer.HsdOutcomes | python_agents/start_server.py:48-82 | a missing id gives the fixed error; an answer without `error` comes from a fetched ticket |
| HsdServer.HsdUnfetched | python_agents/start_server.py:66-82 | an unfetched ticket's error names it after the server prefix |
| HsdServer.HsdAnalystAnswer | python_agents/start_server.py:66-82 | the answer after the analyst, in terms of what the analyst promises |
| HsdServer.HsdService.constructor | python_agents/start_server.py:39-40 | the list starts empty |
| HsdServer.HsdService.GenerateHsd | python_agents/start_server.py:48-82 | answers the request; a missing id leaves the list, otherwise a result without `error` is remembered |
| HsdServer.HsdService.RecentHsdTickets | python_agents/start_server.py:85-87 | the list newest first, at most ten |

## Left out

- HTTP, file and network I/O: the Jira fetch, the Jira and Confluence POSTs, `_create_ticket_link`, the attachment downloads, the folder and file writes and the Excel export. Their outcomes are parameters: a fetched ticket or None, a response status, a page value, a DATADEV key.
- The language model calls: each reply is a parameter, `None` when the call raises.
- `json.loads` and pydantic: the decoder is a function parameter returning a value or `Malformed`. PRD validation is strict and does not coerce types.
- The exception text of a collaborator is the `failure` parameter, including the `KeyError` texts for missing `architecture_diagram` keys.
- TF-IDF and cosine similarity: the score is an abstract function to reals, and the stored vectors are left out.
- Identifiers and clocks: the UUID, `datetime.now` and the timestamps are parameters; the mock page id from `hash()` is left out.
- asyncio: `create_task`, the interleaving of workflows, and concurrent changes to the connection list during a broadcast. Execution is an explicit method call.
- Engine.WorkflowEngine.constructor: the vector store loading and prints in the engine's constructor are left out.
- Engine.WorkflowEngine.AllWorkflows: the copy shares its state dictionaries in Python; the model's states are values, so this sharing is not captured.
- Engine.WorkflowEngine.ExecuteWorkflow: callbacks are tokens that are assumed not to raise. The updates they receive are logged in `delivered`, not forwarded to the websocket broadcast.
- Server.StartEndpoint: the HTTP 500 path cannot be reached in the model, because starting and broadcasting do not raise there. The messages are values, not `json.dumps` text.
- The health endpoints, `GET /workflows` and the websocket receive loop.
- The analyst's branch for non-dict input is left out; the state is always a dictionary.
- The product manager's `acceptance_criteria` lookups are not modelled as failures.
- The final fallback in `_parse_structured_response` is left out: `re.search` does not raise, so it cannot be reached.
- The start server's progress callback only logs, so it is left out.
- Path joins are written as `/` concatenation.
- Python's cross-type equality in the vector store's metadata filter is written as structural equality of values.
- `str.lower()` is ASCII-only, and `str.strip()` strips Python's ASCII and Unicode whitespace set written out.
- JSON numbers with a fraction or exponent: `Value` has no float case, so a story point such as `5.0` cannot be represented. This affects Jira.ParseTicketData, the `Story Points` line of Jira.HsdFront and Jira.FormatHsdDescription, and the copied story points in Jira.HsdPayloadFields.
- Values.EscapeChar: `repr` escapes of characters above 255 that Python does not print (`\u2028`, unassigned and format characters and others) are not modelled; such characters are written as they are.
- VectorStore.SimpleVectorStore.SearchSimilar: the `ValueError` that fitting raises when no document yields a term outside the English stop words (an empty vocabulary, vector_store.py:61) is not modelled; the search always answers. The tokenizer and stop-word list are part of the left-out TF-IDF.
- `jira_export_tool.py` and `test_jira_connection.py` are not part of this model.

## Findings

| source | as written | input that shows it | evidently intended | confidence | as-written member | corrected member |
|---|---|---|---|---|---|---|
| python_agents/ticket_document_manager.py:79-81 | `name[:200-len(ext)] + ext`, with a negative bound once the extension exceeds 200 characters | `"a." + x` with `x` 200 safe characters without a dot gives 201 characters | file names are at most 200 characters | not executed | TicketDocs.LongExtensionEscapesLimit | TicketDocs.SafeFilename |
| python_agents/confluence_client.py:150-157 | the closer is `</ul>` if the line before last is `<li>`, else `</ol>`, and `</ul>` at the end | a one-item bullet list then a plain line is closed with `</ol>`; a numbered list open at the end is closed with `</ul>` | each list is closed by the tag that opened it | not executed | Confluence.SingleBulletClosedAsOrdered | Confluence.FixedClosesWhatItOpened |
