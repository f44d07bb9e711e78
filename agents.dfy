/*
 * The three agents of the pipeline: the Jira analyst (fetch, Excel export,
 * HSD ticket), the technical architect (impact analysis, solution
 * architecture, architecture diagram) and the product manager (PRD, diagrams,
 * architecture document, Confluence page, DATADEV ticket).
 *
 * The language model, the Jira and Confluence services, the Excel exporter
 * and `json.loads` are parameters: a reply, a fetched ticket, a loader from
 * text to a value. What the agents do with those answers (the parsing of the
 * replies, the progress they report, the error dictionaries they return and
 * the documents they assemble) is modelled here.
 */
module Agents {
  import opened PyText
  import opened Values
  import opened Schema
  import Jira
  import Mermaid
  import DocumentProcessor

  type Entries = seq<(string, Value)>

  /* ---------- the architect's reply ---------- */

  const SolutionHeading := "## Solution Architecture"
  const ImpactHeading := "## Impact Analysis"

  datatype ArchitectSections = ArchitectSections(impactAnalysis: string, solutionArchitecture: string)

  /**
   * `_parse_architect_response`: the text before the first solution heading,
   * without the impact heading, is the impact analysis; the heading and the
   * text up to its second occurrence are the solution architecture.
   */
  function ParseArchitectResponse(response: string): ArchitectSections {
    SectionsBy(response, SolutionHeading, ImpactHeading)
  }

  function SectionsBy(response: string, heading: string, dropped: string): ArchitectSections
    requires |heading| > 0 && |dropped| > 0
  {
    var sections := Split(response, heading);
    ArchitectSections(
      Strip(Replace(sections[0], dropped, "")),
      if |sections| > 1 then Strip(heading + sections[1]) else "")
  }

  /** Stripping text that opens with a heading without surrounding spaces keeps the whole heading. */
  lemma StripKeepsHeading(heading: string, rest: string)
    requires |heading| > 0 && !IsSpace(heading[0]) && !IsSpace(heading[|heading| - 1])
    ensures StartsWith(Strip(heading + rest), heading)
  {
    var s := heading + rest;
    assert s[..|heading|] == heading;
    assert !IsSpace(s[0]);
    assert StripLeft(s) == s;
    assert !IsSpace(s[|heading| - 1]);
    StripRightKeepsNonSpace(s, |heading| - 1);
    var r := StripRight(s);
    assert r[..|heading|] == s[..|heading|];
  }

  lemma SectionsWithoutHeading(response: string, heading: string, dropped: string)
    requires |heading| > 0 && |dropped| > 0 && !Contains(response, heading)
    ensures SectionsBy(response, heading, dropped) == ArchitectSections(Strip(Replace(response, dropped, "")), "")
  {
    SplitHead(response, heading);
  }

  lemma SectionsWithHeading(response: string, heading: string, dropped: string, i: nat, rest: string, j: int)
    requires |heading| > 0 && |dropped| > 0 && !IsSpace(heading[0]) && !IsSpace(heading[|heading| - 1])
    requires i == Find(response, heading, 0)
    requires rest == response[i + |heading|..]
    requires j == Find(rest, heading, 0)
    ensures SectionsBy(response, heading, dropped) == ArchitectSections(
        Strip(Replace(response[..i], dropped, "")), Strip(heading + UpTo(rest, j)))
    ensures StartsWith(SectionsBy(response, heading, dropped).solutionArchitecture, heading)
  {
    SplitFirstTwo(response, heading, i, j);
    StripKeepsHeading(heading, UpTo(rest, j));
  }

  lemma HeadingsTrimmed()
    ensures |SolutionHeading| > 0 && |ImpactHeading| > 0
    ensures !IsSpace(SolutionHeading[0]) && !IsSpace(SolutionHeading[|SolutionHeading| - 1])
  {
  }

  /** A reply without the solution heading is all impact analysis, and the solution architecture is empty. */
  lemma ArchitectWithoutSolution(response: string)
    requires !Contains(response, SolutionHeading)
    ensures ParseArchitectResponse(response) == ArchitectSections(Strip(Replace(response, ImpactHeading, "")), "")
  {
    SectionsWithoutHeading(response, SolutionHeading, ImpactHeading);
  }

  /**
   * With the solution heading first at `i`, the impact analysis is what
   * precedes it, and the solution architecture opens with the heading and
   * runs up to its next occurrence (at `j` in the rest), or to the end.
   */
  lemma ArchitectSectionsSplit(response: string, i: nat, j: int)
    requires i == Find(response, SolutionHeading, 0)
    requires j == Find(response[i + |SolutionHeading|..], SolutionHeading, 0)
    ensures ParseArchitectResponse(response) == ArchitectSections(
      Strip(Replace(response[..i], ImpactHeading, "")),
      Strip(SolutionHeading + UpTo(response[i + |SolutionHeading|..], j)))
    ensures StartsWith(ParseArchitectResponse(response).solutionArchitecture, SolutionHeading)
  {
    HeadingsTrimmed();
    SectionsWithHeading(response, SolutionHeading, ImpactHeading, i, response[i + |SolutionHeading|..], j);
  }

  /* ---------- the product manager's format instructions ---------- */

  /** The PRD fields, by their schema names, in declaration order. */
  const PrdFields: seq<string> := [
    "title", "introduction", "problem_statement", "user_stories", "technical_requirements",
    "non_functional_requirements", "out_of_scope", "success_metrics"]

  /** What the instructions ask for in each field. */
  const FieldHints: seq<string> := [
    "\"string - The title of the feature or change\"",
    "\"string - Brief overview of the project's purpose and goals\"",
    "\"string - Clear description of the problem being solved\"",
    "[\"array of strings - User stories in 'As a [user type], I want [goal] so that [benefit]' format\"]",
    "[\"array of strings - Specific technical requirements from the solution architecture\"]",
    "{\"object - Performance, Security, Scalability requirements\"}",
    "[\"array of strings - Items explicitly not part of this project\"]",
    "[\"array of strings - Quantifiable metrics to measure success\"]"]

  const InstructionsOpening := "Please respond with a valid JSON object that matches this exact schema:\n{\n"
  const InstructionsClosing :=
    "\n}\n\nEnsure the JSON is valid and complete. Do not include any text before or after the JSON object."

  /** The line of field `i`, preceded by the separator from the line before. */
  function SchemaLine(i: nat): string
    requires i < |PrdFields|
  {
    (if i == 0 then "" else ",\n") + "  " + ("\"" + PrdFields[i] + "\":") + " " + FieldHints[i]
  }

  function SchemaLines(): (ls: seq<string>)
    ensures |ls| == |PrdFields|
  {
    seq(|PrdFields|, i requires 0 <= i < |PrdFields| => SchemaLine(i))
  }

  /** `_create_format_instructions`: the schema as a JSON template, one field per line. */
  function FormatInstructions(): string {
    InstructionsOpening + Concat(SchemaLines()) + InstructionsClosing
  }

  /** The PRD's dictionary has exactly the fields the instructions list, in their order. */
  lemma PrdKeysAreFields(p: PRD)
    ensures Keys(PrdToValue(p).entries) == PrdFields
  {
  }

  /** The instructions ask for every key that PRD validation requires. */
  lemma InstructionsNameEveryField(i: nat)
    requires i < |PrdFields|
    ensures Contains(FormatInstructions(), "\"" + PrdFields[i] + "\":")
  {
    var ls := SchemaLines();
    var key := "\"" + PrdFields[i] + "\":";
    var pre := (if i == 0 then "" else ",\n") + "  ";
    assert ls[i] == SchemaLine(i);
    assert ls[i] == pre + key + (" " + FieldHints[i]);
    ContainsMiddle(pre, key, " " + FieldHints[i]);
    ConcatContains(ls, i);
    ContainsTrans(Concat(ls), ls[i], key);
    ContainsExtend(InstructionsOpening, Concat(ls), InstructionsClosing, key);
  }

  /* ---------- the product manager's reply ---------- */

  /**
   * The text handed to `json.loads`: the stripped reply without a leading
   * ```` ```json ```` or ```` ``` ```` fence and a trailing ```` ``` ````.
   */
  function StripFences(response: string): string {
    var s0 := Strip(response);
    var s1 := if StartsWith(s0, "```json") then s0[7..] else s0;
    var s2 := if StartsWith(s1, "```") then s1[3..] else s1;
    if EndsWith(s2, "```") then s2[..|s2| - 3] else s2
  }

  /**
   * `re.search(r'\{.*\}', s, re.DOTALL)`: the leftmost match is greedy, so
   * it spans from the first `{` to the last `}`; with no such pair the text
   * is left as it is.
   */
  function BraceSpan(s: string): string {
    var a := Find(s, "{", 0);
    var b := LastIndex(s, '}');
    if 0 <= a < b then s[a..b + 1] else s
  }

  function JsonCandidate(response: string): string {
    BraceSpan(StripFences(response))
  }

  /** `Find` of a single character: the first index at or after `start` holding it. */
  lemma FindChar(s: string, c: char, start: nat, k: nat)
    requires start <= k < |s| && s[k] == c
    requires forall m :: start <= m < k ==> s[m] != c
    ensures Find(s, [c], start) == k
  {
    FindFirst(s, [c], start);
    assert OccursAt(s, [c], k) by { assert s[k..k + 1] == [c]; }
    forall m | start <= m < k ensures !OccursAt(s, [c], m) {
      assert m + 1 <= |s| ==> s[m..m + 1] == [s[m]];
    }
  }

  /** Text around a braced object, with no `{` before it and no `}` after it, is cut down to the object. */
  lemma BraceSpanBetween(pre: string, mid: string, post: string)
    requires Lacks(pre, '{') && Lacks(post, '}')
    ensures BraceSpan(pre + "{" + mid + "}" + post) == "{" + mid + "}"
  {
    var s := pre + "{" + mid + "}" + post;
    var b := |pre| + 1 + |mid|;
    assert s[|pre|] == '{';
    forall m | 0 <= m < |pre| ensures s[m] != '{' {
      assert s[m] == pre[m];
    }
    FindChar(s, '{', 0, |pre|);
    assert s[b] == '}';
    forall j | b < j < |s| ensures s[j] != '}' {
      assert s[j] == post[j - b - 1];
    }
    LastIndexIs(s, '}', b);
    assert s[|pre|..b + 1] == "{" + mid + "}";
  }

  /** A reply that is a ```` ```json ```` fence around text opening with a line break loses exactly the fence. */
  lemma FenceRemoved(body: string)
    requires |body| > 0 && body[0] == '\n'
    ensures StripFences("```json" + body + "```") == body
  {
    var x := "```json" + body + "```";
    StripTrimmed(x);
    assert x[..7] == "```json";
    var s1 := x[7..];
    assert s1 == body + "```";
    assert !StartsWith(s1, "```") by { assert s1[0] == '\n'; }
    assert s1[|s1| - 3..] == "```";
    assert s1[..|s1| - 3] == body;
  }

  /** A braced object inside a ```` ```json ```` fence reaches `json.loads` exactly as written. */
  lemma FencedObjectExtracted(mid: string)
    ensures JsonCandidate("```json\n{" + mid + "}\n```") == "{" + mid + "}"
  {
    var body := "\n" + "{" + mid + "}" + "\n";
    assert "```json\n{" + mid + "}\n```" == "```json" + body + "```";
    FenceRemoved(body);
    BraceSpanBetween("\n", mid, "\n");
  }

  /** A reply that is a bare braced object reaches `json.loads` unchanged. */
  lemma BareObjectExtracted(mid: string)
    ensures JsonCandidate("{" + mid + "}") == "{" + mid + "}"
  {
    var x := "{" + mid + "}";
    UnfencedKept(x);
    BraceSpanBetween("", mid, "");
    assert "" + "{" + mid + "}" + "" == x;
  }

  /** A reply that opens with `{` and closes with `}` has no fence to strip. */
  lemma UnfencedKept(x: string)
    requires |x| > 0 && x[0] == '{' && x[|x| - 1] == '}'
    ensures StripFences(x) == x
  {
    StripTrimmed(x);
    assert !StartsWith(x, "```json") by { assert x[0] == '{'; }
    assert !StartsWith(x, "```") by { assert x[0] == '{'; }
    assert !EndsWith(x, "```") by { assert x[|x| - 1] == '}'; }
  }

  /* ---------- the fallback's regular expressions ---------- */

  /** `\s*`: the first index at or after `j` that is not whitespace. */
  function SkipSpaces(s: string, j: nat): (k: nat)
    requires j <= |s|
    ensures j <= k <= |s|
    ensures forall m :: j <= m < k ==> IsSpace(s[m])
    ensures k < |s| ==> !IsSpace(s[k])
    decreases |s| - j
  {
    if j < |s| && IsSpace(s[j]) then SkipSpaces(s, j + 1) else j
  }

  /** The quoted key and colon that open the pattern `"key":\s*"([^"]+)"`. */
  function KeyPattern(key: string): string {
    "\"" + key + "\":"
  }

  /** The pattern `"key":\s*"([^"]+)"` matched at index `i`: its group, if it matches there. */
  function FieldAt(s: string, key: string, i: nat): Option<string> {
    var pat := KeyPattern(key);
    if !OccursAt(s, pat, i) then None
    else
      var w := SkipSpaces(s, i + |pat|);
      if w >= |s| || s[w] != '"' then None
      else
        var close := Find(s, "\"", w + 1);
        if close <= w + 1 then None else Some(s[w + 1..close])
  }

  function FieldFrom(s: string, key: string, i: nat): Option<string>
    decreases |s| - i
  {
    if i > |s| then None
    else match FieldAt(s, key, i)
      case Some(v) => Some(v)
      case None => FieldFrom(s, key, i + 1)
  }

  /** `re.search(r'"key":\s*"([^"]+)"', s)`: the group of the leftmost match. */
  function RegexField(s: string, key: string): Option<string> {
    FieldFrom(s, key, 0)
  }

  /** Text that never names the key has no match. */
  lemma {:induction false} FieldFromAbsent(s: string, key: string, i: nat)
    requires !Contains(s, KeyPattern(key))
    ensures FieldFrom(s, key, i) == None
    decreases |s| - i
  {
    if i <= |s| {
      if OccursAt(s, KeyPattern(key), i) {
        ContainsAt(s, KeyPattern(key), i);
      }
      FieldFromAbsent(s, key, i + 1);
    }
  }

  /** A reply that opens with `"key": "v"` gives `v` back, for any non-empty `v` without quotes. */
  lemma RegexFieldReads(key: string, v: string, rest: string)
    requires |v| > 0 && Lacks(v, '"')
    ensures RegexField(KeyPattern(key) + " \"" + v + "\"" + rest, key) == Some(v)
  {
    var pat := KeyPattern(key);
    var s := pat + " \"" + v + "\"" + rest;
    assert s[..|pat|] == pat;
    var w := |pat| + 1;
    assert s[|pat|] == ' ' && s[w] == '"';
    assert SkipSpaces(s, w) == w;
    assert SkipSpaces(s, |pat|) == w;
    var close := w + 1 + |v|;
    assert s[close] == '"';
    forall m | w + 1 <= m < close ensures s[m] != '"' {
      assert s[m] == v[m - w - 1];
    }
    FindChar(s, '"', w + 1, close);
    assert s[w + 1..close] == v;
    assert FieldAt(s, key, 0) == Some(v);
  }

  /** The fallback PRD: three fields read from the raw reply when they can be, fixed defaults for the rest. */
  function FallbackPrd(response: string): PRD {
    PRD(
      GetOr(RegexField(response, "title"), "Digital Telco Feature"),
      GetOr(RegexField(response, "introduction"),
        "This project aims to implement new features for the Digital Telco platform."),
      GetOr(RegexField(response, "problem_statement"),
        "Users need improved functionality for managing their services."),
      ["As a user, I want to manage my services effectively"],
      ["Implement API endpoints", "Update UI components", "Integrate with backend services"],
      [("Performance", "Response time < 2 seconds"), ("Security", "Secure data transmission")],
      ["External integrations"],
      ["User satisfaction > 80%", "System uptime > 99%"])
  }

  /** A reply that names none of the three keys gets the default title, introduction and problem statement. */
  lemma FallbackDefaults(response: string)
    requires !Contains(response, KeyPattern("title"))
    requires !Contains(response, KeyPattern("introduction"))
    requires !Contains(response, KeyPattern("problem_statement"))
    ensures FallbackPrd(response).title == "Digital Telco Feature"
    ensures FallbackPrd(response).introduction ==
      "This project aims to implement new features for the Digital Telco platform."
    ensures FallbackPrd(response).problemStatement ==
      "Users need improved functionality for managing their services."
  {
    FieldFromAbsent(response, "title", 0);
    FieldFromAbsent(response, "introduction", 0);
    FieldFromAbsent(response, "problem_statement", 0);
  }

  /** A reply that opens with a quoted title keeps that title even when the rest cannot be parsed. */
  lemma FallbackReadsTitle(title: string, rest: string)
    requires |title| > 0 && Lacks(title, '"')
    ensures FallbackPrd(KeyPattern("title") + " \"" + title + "\"" + rest).title == title
  {
    RegexFieldReads("title", title, rest);
  }

  /** What `json.loads` makes of a text: a decode error or a value. */
  datatype Json = Malformed | Loaded(value: Value)

  /**
   * `_parse_structured_response`: the loaded value validated as a PRD; a
   * decode or validation error falls back to `FallbackPrd`. A value that is
   * not a dictionary cannot be spread into `PRD(**parsed)` and raises a
   * TypeError the function does not catch: `None`.
   */
  function ParseStructuredResponse(response: string, loads: string -> Json): (r: Option<PRD>)
    ensures r.None? <==> loads(JsonCandidate(response)).Loaded? && !loads(JsonCandidate(response)).value.Dict?
  {
    match loads(JsonCandidate(response))
    case Malformed => Some(FallbackPrd(response))
    case Loaded(v) =>
      if !v.Dict? then None
      else match PrdFromEntries(v.entries)
        case Some(p) => Some(p)
        case None => Some(FallbackPrd(response))
  }

  /** A reply whose JSON is a PRD's dictionary is that PRD; a reply whose JSON is not valid gets the fallback. */
  lemma StructuredRoundTrip(p: PRD, response: string, loads: string -> Json)
    ensures loads(JsonCandidate(response)) == Loaded(PrdToValue(p)) ==>
      ParseStructuredResponse(response, loads) == Some(p)
    ensures loads(JsonCandidate(response)).Malformed? ==>
      ParseStructuredResponse(response, loads) == Some(FallbackPrd(response))
  {
    PrdRoundTrip(p);
  }

  /** The usual reply, a PRD's JSON inside a ```` ```json ```` fence, parses to that PRD. */
  lemma FencedPrdParsed(p: PRD, mid: string, loads: string -> Json)
    requires loads("{" + mid + "}") == Loaded(PrdToValue(p))
    ensures ParseStructuredResponse("```json\n{" + mid + "}\n```", loads) == Some(p)
  {
    FencedObjectExtracted(mid);
    StructuredRoundTrip(p, "```json\n{" + mid + "}\n```", loads);
  }

  /* ---------- progress and outcomes ---------- */

  /** One progress report: `progress_callback(agent, message, progress)`. */
  datatype Event = Event(agent: string, message: string, progress: int)

  /** The reports reach the caller only when it passed a callback. */
  function Reported(reporting: bool, es: seq<Event>): seq<Event> {
    if reporting then es else []
  }

  const AnalystEvents: seq<Event> := [
    Event("jira-analyst", "Starting ticket data fetch...", 10),
    Event("jira-analyst", "Exporting ticket data to Excel...", 30),
    Event("jira-analyst", "Creating HSD ticket...", 70),
    Event("jira-analyst", "Workflow completed successfully", 100)]

  const ArchitectEvents: seq<Event> := [
    Event("tech-architect", "Starting impact analysis...", 20),
    Event("tech-architect", "Analyzing impact with Chain-of-Thought reasoning...", 40),
    Event("tech-architect", "Generating architecture diagrams...", 70),
    Event("tech-architect", "Impact analysis and solution architecture completed", 100)]

  const ProductManagerEvents: seq<Event> := [
    Event("product-manager", "Starting PRD generation...", 20),
    Event("product-manager", "Generating comprehensive PRD with structured validation...", 40),
    Event("product-manager", "Generating Mermaid diagrams...", 60),
    Event("product-manager", "Creating comprehensive document...", 70),
    Event("product-manager", "Posting to Confluence...", 85),
    Event("product-manager", "Creating DATADEV ticket for implementation...", 95),
    Event("product-manager", "PRD document with diagrams completed and posted to Confluence", 100)]

  /** Progress only grows, and every report comes from the same agent. */
  predicate Climbs(es: seq<Event>) {
    forall i, j :: 0 <= i < j < |es| ==> es[i].progress < es[j].progress && es[i].agent == es[j].agent
  }

  /**
   * Rising step by step is rising throughout: when each report is above the
   * one before it and from the same agent, progress climbs across the list.
   */
  lemma {:induction false} StepsUpClimbs(es: seq<Event>)
    requires forall i :: 0 < i < |es| ==> es[i - 1].progress < es[i].progress && es[i - 1].agent == es[i].agent
    ensures Climbs(es)
  {
    if |es| > 1 {
      var init := es[..|es| - 1];
      forall i | 0 < i < |init| ensures init[i - 1].progress < init[i].progress && init[i - 1].agent == init[i].agent {
        assert init[i - 1] == es[i - 1] && init[i] == es[i];
      }
      StepsUpClimbs(init);
      forall i, j | 0 <= i < j < |es| ensures es[i].progress < es[j].progress && es[i].agent == es[j].agent {
        if j < |es| - 1 {
          assert es[i] == init[i] && es[j] == init[j];
        } else if i < j - 1 {
          assert es[i] == init[i] && es[j - 1] == init[j - 1];
        }
      }
    }
  }

  /** Each agent's reports climb from a first step to 100. */
  lemma ProgressClimbsToCompletion()
    ensures Climbs(AnalystEvents) && AnalystEvents[|AnalystEvents| - 1].progress == 100
    ensures Climbs(ArchitectEvents) && ArchitectEvents[|ArchitectEvents| - 1].progress == 100
    ensures Climbs(ProductManagerEvents) && ProductManagerEvents[|ProductManagerEvents| - 1].progress == 100
  {
    StepsUpClimbs(AnalystEvents);
    StepsUpClimbs(ArchitectEvents);
    StepsUpClimbs(ProductManagerEvents);
  }

  /** How a call ends: with its result, or with the error it reports. */
  datatype Outcome<T> = Done(value: T) | Failed(error: string)

  /** The reports a call made and how it ended. */
  datatype Run<T> = Run(events: seq<Event>, outcome: Outcome<T>)

  /** The dictionary an agent returns: its result, or `{'error': message}`. */
  function Returned(o: Outcome<Entries>): (d: Entries)
    ensures o.Failed? ==> Lookup(d, "error") == Some(Str(o.error))
  {
    match o
    case Done(es) => es
    case Failed(m) => [("error", Str(m))]
  }

  /** `str(KeyError(k))`: the missing key's repr. */
  function KeyErrorMessage(k: string): string {
    ReprStr(k)
  }

  /* ---------- the Jira analyst ---------- */

  /**
   * The Excel file the analyst reports: the exporter's path if it returned
   * a non-empty one that exists; `None` after a failed or raising export.
   */
  function ExcelFile(exported: Option<string>, onDisk: string -> bool): Option<string> {
    if exported.Some? && |exported.value| > 0 && onDisk(exported.value) then exported else None
  }

  function AnalystResult(t: Jira.Ticket, excel: Option<string>, hsd: Option<string>): Entries {
    [("jira_ticket_data", Dict(Jira.TicketDict(t))),
     ("current_step", Str("completed")),
     ("ticket_key", t.key),
     ("summary", t.summary),
     ("excel_export", OptStr(excel)),
     ("hsd_ticket_key", OptStr(hsd)),
     ("status", Str("completed"))]
  }

  /**
   * `LangChainJiraAnalystAgent.execute` on a state dictionary: fetch the
   * ticket named by `jira_ticket_id` (its exception propagates), export it,
   * create the HSD ticket (a failure of either leaves `None`), report four
   * steps. `fetched`, `fetchDetail` stand for the Jira answer, `exported`
   * and `onDisk` for the exporter and the file system, `hsd` for the HSD
   * key the client returns.
   */
  function AnalystRun(state: Entries, reporting: bool, fetched: Option<Jira.Ticket>, fetchDetail: string,
                      exported: Option<string>, onDisk: string -> bool, hsd: Option<string>): Run<Entries>
  {
    var id := PyStr(Field(state, "jira_ticket_id", Null));
    match Jira.GetTicket(id, fetched, fetchDetail)
    case Raised(m) => Run(Reported(reporting, AnalystEvents[..1]), Failed(m))
    case Fetched(t) =>
      Run(Reported(reporting, AnalystEvents), Done(AnalystResult(t, ExcelFile(exported, onDisk), hsd)))
  }

  /**
   * The analyst either raises after its first report, naming the ticket, or
   * reports all four steps and returns its seven keys with `current_step`
   * set to `completed` and no `error`. A failed fetch always raises.
   */
  lemma AnalystOutcomes(state: Entries, reporting: bool, fetched: Option<Jira.Ticket>, fetchDetail: string,
                        exported: Option<string>, onDisk: string -> bool, hsd: Option<string>)
    ensures var run := AnalystRun(state, reporting, fetched, fetchDetail, exported, onDisk, hsd);
      && (fetched.None? ==> run.outcome.Failed?)
      && (run.outcome.Failed? ==>
            run.events == Reported(reporting, AnalystEvents[..1])
            && StartsWith(run.outcome.error,
                 "Unable to fetch Jira ticket " + PyStr(Field(state, "jira_ticket_id", Null))))
      && (run.outcome.Done? ==>
            run.events == Reported(reporting, AnalystEvents)
            && fetched.Some?
            && Keys(run.outcome.value) == ["jira_ticket_data", "current_step", "ticket_key", "summary",
                                           "excel_export", "hsd_ticket_key", "status"]
            && Lookup(run.outcome.value, "current_step") == Some(Str("completed"))
            && Lookup(run.outcome.value, "jira_ticket_data") == Some(Dict(Jira.TicketDict(fetched.value)))
            && !HasKey(run.outcome.value, "error"))
  {
    var id := PyStr(Field(state, "jira_ticket_id", Null));
    Jira.GetTicketErrors(id, fetched, fetchDetail);
    var run := AnalystRun(state, reporting, fetched, fetchDetail, exported, onDisk, hsd);
    if run.outcome.Done? {
      AnalystResultShape(fetched.value, ExcelFile(exported, onDisk), hsd);
    }
  }

  /** The analyst's result has its seven keys, `current_step` set to `completed`, the ticket's data, and no `error`. */
  lemma AnalystResultShape(t: Jira.Ticket, excel: Option<string>, hsd: Option<string>)
    ensures var es := AnalystResult(t, excel, hsd);
      && Keys(es) == ["jira_ticket_data", "current_step", "ticket_key", "summary", "excel_export", "hsd_ticket_key", "status"]
      && Lookup(es, "current_step") == Some(Str("completed"))
      && Lookup(es, "jira_ticket_data") == Some(Dict(Jira.TicketDict(t)))
      && !HasKey(es, "error")
  {
    var es := AnalystResult(t, excel, hsd);
    LookupFirst(es, 0);
    LookupFirst(es, 1);
  }

  /* ---------- the technical architect ---------- */

  const ArchitectFailed := "TechnicalArchitectAgent failed: "

  /** How one component of the ticket is named: `str(c.get('name', c))` for a dict, else `str(c)`. */
  function ComponentLabel(c: Value): string {
    if c.Dict? then PyStr(Field(c.entries, "name", c)) else PyStr(c)
  }

  /** The names of all components, in order. */
  function ComponentLabels(cs: seq<Value>): seq<string> {
    if |cs| == 0 then [] else ComponentLabels(cs[..|cs| - 1]) + [ComponentLabel(cs[|cs| - 1])]
  }

  /** One name per component, in order; a named dict gives its name, a string itself. */
  lemma {:induction false} ComponentLabelsEach(cs: seq<Value>)
    ensures |ComponentLabels(cs)| == |cs|
    ensures forall i :: 0 <= i < |cs| ==> ComponentLabels(cs)[i] == ComponentLabel(cs[i])
  {
    if |cs| > 0 {
      ComponentLabelsEach(cs[..|cs| - 1]);
    }
  }

  /** A component that is a dict with a string name is labelled by that name; a string labels itself. */
  lemma ComponentLabelNames(c: Value)
    ensures c.Dict? && Lookup(c.entries, "name").Some? && Lookup(c.entries, "name").value.Str? ==>
      ComponentLabel(c) == Lookup(c.entries, "name").value.s
    ensures c.Dict? && !HasKey(c.entries, "name") ==> ComponentLabel(c) == PyStr(c)
    ensures c.Str? ==> ComponentLabel(c) == c.s
  {
  }

  /** The loop over the ticket's components. */
  method CollectComponentLabels(cs: seq<Value>) returns (labels: seq<string>)
    ensures labels == ComponentLabels(cs)
  {
    labels := [];
    var i := 0;
    while i < |cs|
      invariant 0 <= i <= |cs|
      invariant labels == ComponentLabels(cs[..i])
    {
      assert cs[..i + 1][..i] == cs[..i];
      labels := labels + [ComponentLabel(cs[i])];
      i := i + 1;
    }
    assert cs[..i] == cs;
  }

  /** The diagram's components: the first five names, each a service. */
  function DiagramInputs(labels: seq<string>): (cs: seq<Mermaid.ArchComponent>)
    ensures |cs| == if |labels| <= 5 then |labels| else 5
    ensures forall i :: 0 <= i < |cs| ==> cs[i] == Mermaid.ArchComponent(Some(labels[i]), Some("service"))
  {
    var shown := PySliceTo(labels, 5);
    seq(|shown|, i requires 0 <= i < |shown| => Mermaid.ArchComponent(Some(shown[i]), Some("service")))
  }

  /**
   * The error raised while the prompt's inputs are read from the ticket
   * dictionary, in the order the prompt dictionary is built: a missing
   * summary, description or priority, an issue type that is not a
   * dictionary, or a `rag_context` that does not join.
   */
  function ArchitectPromptError(ticket: Entries, state: Entries, failure: string): Option<string> {
    if !HasKey(ticket, "summary") then Some(KeyErrorMessage("summary"))
    else if !HasKey(ticket, "description") then Some(KeyErrorMessage("description"))
    else if !HasKey(ticket, "priority") then Some(KeyErrorMessage("priority"))
    else if Get(Field(ticket, "issuetype", Dict([])), "name", Str("Story")).None? then Some(failure)
    else if Jira.JoinValue(Field(state, "rag_context", List([])), "\n---\n").None? then Some(failure)
    else None
  }

  function ArchitectResult(sections: ArchitectSections, d: Mermaid.Diagram): Entries {
    [("impact_analysis", Str(sections.impactAnalysis)),
     ("solution_architecture", Str(sections.solutionArchitecture)),
     ("architecture_diagram",
        Dict([("title", Str(d.title)), ("mermaidCode", Str(d.chart)), ("description", Str(d.description))])),
     ("current_step", Str("product_manager"))]
  }

  /** The architect stops after `n` reports with `message`. */
  function ArchitectStop(reporting: bool, n: nat, message: string): Run<Entries>
    requires n <= |ArchitectEvents|
  {
    Run(Reported(reporting, ArchitectEvents[..n]), Failed(ArchitectFailed + message))
  }

  /**
   * `LangChainTechnicalArchitectAgent.execute`: check the ticket data,
   * name its components, ask the model (`response`, `None` when the call
   * raises), split the reply and draw the first five components. Every
   * exception becomes `{'error': ...}`; `failure` stands for the text of
   * one raised by code outside this model.
   */
  function ArchitectRun(state: Entries, reporting: bool, response: Option<string>, failure: string): Run<Entries> {
    var ticket := Field(state, "jira_ticket_data", Null);
    if !Truthy(ticket) then ArchitectStop(reporting, 1, "Jira ticket data not available")
    else if !ticket.Dict? then ArchitectStop(reporting, 2, failure)
    else if !HasKey(ticket.entries, "components") then ArchitectStop(reporting, 2, KeyErrorMessage("components"))
    else match Items(Field(ticket.entries, "components", Null))
      case None => ArchitectStop(reporting, 2, failure)
      case Some(cs) =>
        match ArchitectPromptError(ticket.entries, state, failure)
        case Some(m) => ArchitectStop(reporting, 2, m)
        case None =>
          match response
          case None => ArchitectStop(reporting, 2, failure)
          case Some(text) =>
            var d := Mermaid.ArchitectureDiagram(DiagramInputs(ComponentLabels(cs)));
            Run(Reported(reporting, ArchitectEvents), Done(ArchitectResult(ParseArchitectResponse(text), d)))
  }

  method TechnicalArchitectExecute(state: Entries, reporting: bool, response: Option<string>, failure: string)
    returns (run: Run<Entries>)
    ensures run == ArchitectRun(state, reporting, response, failure)
  {
    var ticket := Field(state, "jira_ticket_data", Null);
    if !Truthy(ticket) {
      return ArchitectStop(reporting, 1, "Jira ticket data not available");
    }
    if !ticket.Dict? {
      return ArchitectStop(reporting, 2, failure);
    }
    if !HasKey(ticket.entries, "components") {
      return ArchitectStop(reporting, 2, KeyErrorMessage("components"));
    }
    var items := Items(Field(ticket.entries, "components", Null));
    if items.None? {
      return ArchitectStop(reporting, 2, failure);
    }
    var labels := CollectComponentLabels(items.value);
    var promptError := ArchitectPromptError(ticket.entries, state, failure);
    if promptError.Some? {
      return ArchitectStop(reporting, 2, promptError.value);
    }
    if response.None? {
      return ArchitectStop(reporting, 2, failure);
    }
    var sections := ParseArchitectResponse(response.value);
    var d := Mermaid.GenerateArchitectureDiagram(DiagramInputs(labels));
    run := Run(Reported(reporting, ArchitectEvents), Done(ArchitectResult(sections, d)));
  }

  /** Without ticket data the architect reports one step and returns the error. */
  lemma ArchitectNeedsTicket(state: Entries, reporting: bool, response: Option<string>, failure: string)
    requires !Truthy(Field(state, "jira_ticket_data", Null))
    ensures ArchitectRun(state, reporting, response, failure) ==
      Run(Reported(reporting, ArchitectEvents[..1]), Failed(ArchitectFailed + "Jira ticket data not available"))
  {
  }

  /**
   * Every failure is reported as the architect's error after one or two
   * steps; without an answer from the model the architect always fails.
   */
  lemma ArchitectFailures(state: Entries, reporting: bool, response: Option<string>, failure: string)
    ensures response.None? ==> ArchitectRun(state, reporting, response, failure).outcome.Failed?
    ensures var run := ArchitectRun(state, reporting, response, failure);
      run.outcome.Failed? ==>
        StartsWith(run.outcome.error, ArchitectFailed)
        && (run.events == Reported(reporting, ArchitectEvents[..1])
            || run.events == Reported(reporting, ArchitectEvents[..2]))
  {
    var run := ArchitectRun(state, reporting, response, failure);
    if run.outcome.Failed? {
      assert run.outcome.error[..|ArchitectFailed|] == ArchitectFailed;
    }
  }

  /** The architect's dictionary: four keys, the diagram stored as title, code and description. */
  lemma ArchitectResultFields(sections: ArchitectSections, d: Mermaid.Diagram)
    ensures var es := ArchitectResult(sections, d);
      && Keys(es) == ["impact_analysis", "solution_architecture", "architecture_diagram", "current_step"]
      && Lookup(es, "current_step") == Some(Str("product_manager"))
      && Lookup(es, "impact_analysis") == Some(Str(sections.impactAnalysis))
      && Lookup(es, "solution_architecture") == Some(Str(sections.solutionArchitecture))
      && Lookup(es, "architecture_diagram") ==
           Some(Dict([("title", Str(d.title)), ("mermaidCode", Str(d.chart)), ("description", Str(d.description))]))
      && !HasKey(es, "error")
  {
    var es := ArchitectResult(sections, d);
    assert UniqueKeys(es);
    LookupAt(es, 0);
    LookupAt(es, 1);
    LookupAt(es, 2);
    LookupAt(es, 3);
  }

  /**
   * A completed run reports all four steps, has asked the model, and hands
   * the product manager the sections of the reply and the diagram of the
   * first five components.
   */
  lemma ArchitectCompletes(state: Entries, reporting: bool, response: Option<string>, failure: string)
    requires ArchitectRun(state, reporting, response, failure).outcome.Done?
    ensures var run := ArchitectRun(state, reporting, response, failure);
      var ticket := Field(state, "jira_ticket_data", Null).entries;
      var cs := Items(Field(ticket, "components", Null)).value;
      && response.Some?
      && run.events == Reported(reporting, ArchitectEvents)
      && run.outcome.value ==
           ArchitectResult(ParseArchitectResponse(response.value),
                           Mermaid.ArchitectureDiagram(DiagramInputs(ComponentLabels(cs))))
      && |DiagramInputs(ComponentLabels(cs))| == if |cs| <= 5 then |cs| else 5
  {
    var ticket := Field(state, "jira_ticket_data", Null).entries;
    ComponentLabelsEach(Items(Field(ticket, "components", Null)).value);
  }

  /* ---------- the product manager ---------- */

  const ProductManagerFailed := "ProductManagerAgent failed: "

  /** One entry of the diagram list; title, description and code come from the state as any value. */
  datatype DiagramEntry = DiagramEntry(title: Value, description: Value, mermaidCode: Value, kind: string)

  /** The sequence diagram of the `i`-th user story (counting from zero). */
  function StoryEntry(i: nat, story: string): DiagramEntry {
    DiagramEntry(Str("User Story " + NatToStr(i + 1) + " Flow"), Str(story),
                 Str(Mermaid.SequenceDiagram(story, None).chart), "sequence")
  }

  function StoryEntries(stories: seq<string>): (ds: seq<DiagramEntry>)
    ensures |ds| == if |stories| <= 3 then |stories| else 3
    ensures forall i :: 0 <= i < |ds| ==> ds[i] == StoryEntry(i, stories[i])
  {
    var shown := PySliceTo(stories, 3);
    seq(|shown|, i requires 0 <= i < |shown| => StoryEntry(i, shown[i]))
  }

  function WorkflowEntry(stories: seq<string>): DiagramEntry {
    var d := Mermaid.WorkflowDiagram(stories);
    DiagramEntry(Str(d.title), Str(d.description), Str(d.chart), "workflow")
  }

  /**
   * The architect's diagram from the state: absent (`Some(None)`), or a
   * dictionary with a title, description and code; anything else raises
   * (`None`).
   */
  function ArchitectureEntry(state: Entries): Option<Option<DiagramEntry>> {
    if !HasKey(state, "architecture_diagram") then Some(None)
    else
      var a := Field(state, "architecture_diagram", Null);
      if a.Dict? && HasKey(a.entries, "title") && HasKey(a.entries, "description") && HasKey(a.entries, "mermaidCode")
      then Some(Some(DiagramEntry(Field(a.entries, "title", Null), Field(a.entries, "description", Null),
                                  Field(a.entries, "mermaidCode", Null), "architecture")))
      else None
  }

  /** The diagrams: at most three story flows, the workflow, and the architecture when present. */
  function DiagramList(stories: seq<string>, arch: Option<DiagramEntry>): seq<DiagramEntry> {
    StoryEntries(stories) + [WorkflowEntry(stories)] + (if arch.Some? then [arch.value] else [])
  }

  /** The loop that builds the diagram list. */
  method BuildDiagrams(stories: seq<string>, arch: Option<DiagramEntry>) returns (ds: seq<DiagramEntry>)
    ensures ds == DiagramList(stories, arch)
  {
    var shown := PySliceTo(stories, 3);
    ghost var entries := StoryEntries(stories);
    ds := [];
    var i := 0;
    while i < |shown|
      invariant 0 <= i <= |shown| == |entries|
      invariant ds == entries[..i]
    {
      var d := Mermaid.GenerateSequenceDiagram(shown[i], None);
      var e := DiagramEntry(Str("User Story " + NatToStr(i + 1) + " Flow"), Str(shown[i]), Str(d.chart), "sequence");
      assert e == entries[i];
      TakeSnoc(entries, i);
      ds := ds + [e];
      i := i + 1;
    }
    assert entries[..i] == entries;
    var w := Mermaid.GenerateWorkflowDiagram(stories);
    ds := ds + [DiagramEntry(Str(w.title), Str(w.description), Str(w.chart), "workflow")];
    if arch.Some? {
      ds := ds + [arch.value];
    }
  }

  /**
   * The list holds one flow per story up to three, titled by its number
   * and described by the story, then the workflow, then the architecture
   * diagram exactly when the state has one.
   */
  lemma DiagramListShape(stories: seq<string>, arch: Option<DiagramEntry>)
    ensures var ds := DiagramList(stories, arch);
      var n := if |stories| <= 3 then |stories| else 3;
      && |ds| == n + 1 + (if arch.Some? then 1 else 0)
      && (forall i :: 0 <= i < n ==>
            ds[i].kind == "sequence" && ds[i].description == Str(stories[i])
            && ds[i].title == Str("User Story " + NatToStr(i + 1) + " Flow"))
      && ds[n].kind == "workflow"
      && (arch.Some? ==> ds[n + 1] == arch.value)
  {
  }

  /** A diagram as the page shows it: the heading and description lines, then its code. */
  datatype Section = Section(heading: string, code: Value)

  function SectionOf(d: DiagramEntry): Section {
    Section("### " + PyStr(d.title) + "\n" + PyStr(d.description) + "\n\n", d.mermaidCode)
  }

  function SectionsOf(ds: seq<DiagramEntry>): (ss: seq<Section>)
    ensures |ss| == |ds|
    ensures forall i :: 0 <= i < |ds| ==> ss[i] == SectionOf(ds[i])
  {
    seq(|ds|, i requires 0 <= i < |ds| => SectionOf(ds[i]))
  }

  /** The fenced block a diagram's code appears in. */
  function Fenced(code: string): string {
    "```mermaid\n" + code + "\n```"
  }

  /** The markdown one diagram adds to the page; `None` when its code is not a string. */
  function SectionText(s: Section): Option<string> {
    if !s.code.Str? then None else Some(s.heading + Fenced(s.code.s) + "\n\n")
  }

  function SectionsText(ss: seq<Section>): Option<string> {
    if |ss| == 0 then Some("")
    else match SectionsText(ss[..|ss| - 1])
      case None => None
      case Some(init) =>
        match SectionText(ss[|ss| - 1])
        case None => None
        case Some(t) => Some(init + t)
  }

  /** The page: the document, the diagrams heading, then each diagram in turn. */
  function PageContent(content: string, ds: seq<DiagramEntry>): Option<string> {
    match SectionsText(SectionsOf(ds))
    case None => None
    case Some(t) => Some(content + "\n\n## Architecture Diagrams\n\n" + t)
  }

  /** The diagrams render exactly when every code is a string. */
  lemma {:induction false} SectionsTextDefined(ss: seq<Section>)
    ensures SectionsText(ss).Some? <==> forall i :: 0 <= i < |ss| ==> ss[i].code.Str?
  {
    if |ss| > 0 {
      var init := ss[..|ss| - 1];
      SectionsTextDefined(init);
      assert forall i :: 0 <= i < |init| ==> init[i] == ss[i];
    }
  }

  /** Every diagram's code appears fenced in the rendered diagrams. */
  lemma {:induction false} SectionsTextShow(ss: seq<Section>, i: nat)
    requires i < |ss| && SectionsText(ss).Some?
    ensures ss[i].code.Str? && Contains(SectionsText(ss).value, Fenced(ss[i].code.s))
  {
    var init := ss[..|ss| - 1];
    var last := ss[|ss| - 1];
    var pre := SectionsText(init).value;
    var t := SectionText(last).value;
    assert SectionsText(ss).value == pre + t;
    if i < |init| {
      assert init[i] == ss[i];
      SectionsTextShow(init, i);
      ContainsExtend("", pre, t, Fenced(ss[i].code.s));
      assert "" + pre + t == pre + t;
    } else {
      ContainsMiddle(last.heading, Fenced(last.code.s), "\n\n");
      ContainsExtend(pre, t, "", Fenced(last.code.s));
      assert pre + t + "" == pre + t;
    }
  }

  /**
   * The page exists exactly when every diagram's code is a string; it opens
   * with the document and the diagrams heading and shows every code fenced.
   */
  lemma PageShowsDiagrams(content: string, ds: seq<DiagramEntry>, i: nat)
    ensures PageContent(content, ds).Some? <==> forall j :: 0 <= j < |ds| ==> ds[j].mermaidCode.Str?
    ensures PageContent(content, ds).Some? ==>
      StartsWith(PageContent(content, ds).value, content + "\n\n## Architecture Diagrams\n\n")
    ensures PageContent(content, ds).Some? && i < |ds| ==>
      ds[i].mermaidCode.Str? && Contains(PageContent(content, ds).value, Fenced(ds[i].mermaidCode.s))
  {
    var ss := SectionsOf(ds);
    SectionsTextDefined(ss);
    if PageContent(content, ds).Some? {
      var head := content + "\n\n## Architecture Diagrams\n\n";
      var t := SectionsText(ss).value;
      assert PageContent(content, ds).value == head + t;
      assert (head + t)[..|head|] == head;
      if i < |ds| {
        SectionsTextShow(ss, i);
        ContainsExtend(head, t, "", Fenced(ss[i].code.s));
        assert head + t + "" == head + t;
      }
    }
  }

  /** The loop that writes the diagrams onto the page. */
  method AppendDiagramSections(content0: string, ds: seq<DiagramEntry>) returns (r: Option<string>)
    ensures r == (match SectionsText(SectionsOf(ds)) case None => None case Some(t) => Some(content0 + t))
  {
    ghost var ss := SectionsOf(ds);
    var content := content0;
    ghost var added := "";
    var i := 0;
    while i < |ds|
      invariant 0 <= i <= |ds|
      invariant SectionsText(ss[..i]) == Some(added) && content == content0 + added
    {
      assert ss[..i + 1][..i] == ss[..i];
      var section := SectionOf(ds[i]);
      if !section.code.Str? {
        SectionsTextFail(ss, i + 1);
        return None;
      }
      var text := section.heading + Fenced(section.code.s) + "\n\n";
      SeqAssoc(content0, added, text);
      content := content + text;
      added := added + text;
      i := i + 1;
    }
    assert ss[..i] == ss;
    r := Some(content);
  }

  /** Once a prefix of the list fails to render, so does the whole list. */
  lemma {:induction false} SectionsTextFail(ss: seq<Section>, n: nat)
    requires n <= |ss| && SectionsText(ss[..n]).None?
    ensures SectionsText(ss).None?
    decreases |ss| - n
  {
    if n < |ss| {
      assert ss[..n + 1][..n] == ss[..n];
      SectionsTextFail(ss, n + 1);
    } else {
      assert ss[..n] == ss;
    }
  }

  /** The PRD as the document processor reads it: every field present. */
  function PrdDataOf(p: PRD): DocumentProcessor.PrdData {
    DocumentProcessor.PrdData(Some(p.title), Some(p.introduction), Some(p.problemStatement), Some(p.userStories),
      Some(p.technicalRequirements), Some(p.nonFunctionalRequirements), Some(p.outOfScope), Some(p.successMetrics))
  }

  /** The architecture document `process_prd_document` builds from a PRD and the ticket. */
  function DocumentOf(p: PRD, ticket: Entries): DocumentProcessor.ArchitectureDocument {
    DocumentProcessor.ArchitectureDocument(p.title, p.introduction,
      DocumentProcessor.ComponentsOf(p.technicalRequirements), DocumentProcessor.StoryDiagrams(p.userStories),
      DocumentProcessor.ImpactsOf(p.technicalRequirements), DocumentProcessor.MarkdownContent(PrdDataOf(p), ticket))
  }

  /** The page posted to Confluence. */
  datatype Page = Page(title: string, content: string)

  /** What a completed product manager run produced. */
  datatype PmOutput = PmOutput(
    prd: PRD,
    document: DocumentProcessor.ArchitectureDocument,
    diagrams: seq<DiagramEntry>,
    page: Page,
    confluenceResult: Value,
    datadevTicketKey: Option<string>)

  /** The error raised while the prompt's ticket inputs are read: a non-dict ticket, a missing summary or description. */
  function PmPromptError(ticket: Value, failure: string): Option<string> {
    if !ticket.Dict? then Some(failure)
    else if !HasKey(ticket.entries, "summary") then Some(KeyErrorMessage("summary"))
    else if !HasKey(ticket.entries, "description") then Some(KeyErrorMessage("description"))
    else None
  }

  predicate HasPmInputs(state: Entries) {
    HasKey(state, "jira_ticket_data") && HasKey(state, "impact_analysis") && HasKey(state, "solution_architecture")
  }

  function PmStop(reporting: bool, n: nat, message: string): Run<PmOutput>
    requires n <= |ProductManagerEvents|
  {
    Run(Reported(reporting, ProductManagerEvents[..n]), Failed(ProductManagerFailed + message))
  }

  /**
   * `LangChainProductManagerAgent.execute`: check the inputs, ask the model
   * (`response`, `None` when the call raises), parse the PRD, list the
   * diagrams, build the document, post the page (`post` stands for the
   * Confluence client) and create the DATADEV ticket (`datadev`, `None`
   * when it fails). Every exception becomes `{'error': ...}`; `failure`
   * stands for the text of one raised by code outside this model.
   */
  function PmRun(state: Entries, reporting: bool, response: Option<string>, loads: string -> Json, failure: string,
                 post: (string, string) -> Value, datadev: Option<string>): Run<PmOutput>
  {
    if !HasPmInputs(state) then PmStop(reporting, 1, "Required data not available for PRD generation")
    else
      var ticket := Field(state, "jira_ticket_data", Null);
      match PmPromptError(ticket, failure)
      case Some(m) => PmStop(reporting, 2, m)
      case None =>
        if response.None? then PmStop(reporting, 2, failure)
        else PmFromReply(state, reporting, ticket.entries, ParseStructuredResponse(response.value, loads),
                         failure, post, datadev)
  }

  /** The run once the model has answered: the parsed PRD, the diagrams, the document and the page. */
  function PmFromReply(state: Entries, reporting: bool, ticket: Entries, parsed: Option<PRD>, failure: string,
                       post: (string, string) -> Value, datadev: Option<string>): Run<PmOutput>
  {
    match parsed
    case None => PmStop(reporting, 2, failure)
    case Some(prd) =>
      match ArchitectureEntry(state)
      case None => PmStop(reporting, 3, failure)
      case Some(arch) =>
        PmPublish(reporting, prd, DiagramList(prd.userStories, arch), DocumentOf(prd, ticket), failure, post, datadev)
  }

  /** The run once the diagrams and the document exist: the page is written, posted, and the ticket created. */
  function PmPublish(reporting: bool, prd: PRD, ds: seq<DiagramEntry>, doc: DocumentProcessor.ArchitectureDocument,
                     failure: string, post: (string, string) -> Value, datadev: Option<string>): Run<PmOutput>
  {
    match PageContent(doc.content, ds)
    case None => PmStop(reporting, 5, failure)
    case Some(content) =>
      var page := Page("PRD: " + prd.title, content);
      Run(Reported(reporting, ProductManagerEvents),
          Done(PmOutput(prd, doc, ds, page, post(page.title, page.content), datadev)))
  }

  method ProductManagerExecute(state: Entries, reporting: bool, response: Option<string>, loads: string -> Json,
                               failure: string, post: (string, string) -> Value, datadev: Option<string>)
    returns (run: Run<PmOutput>)
    ensures run == PmRun(state, reporting, response, loads, failure, post, datadev)
  {
    if !HasPmInputs(state) {
      return PmStop(reporting, 1, "Required data not available for PRD generation");
    }
    var ticket := Field(state, "jira_ticket_data", Null);
    var promptError := PmPromptError(ticket, failure);
    if promptError.Some? {
      return PmStop(reporting, 2, promptError.value);
    }
    if response.None? {
      return PmStop(reporting, 2, failure);
    }
    var parsed := ParseStructuredResponse(response.value, loads);
    if parsed.None? {
      return PmStop(reporting, 2, failure);
    }
    run := PublishPrd(state, reporting, ticket.entries, parsed.value, failure, post, datadev);
  }

  /** The part of `execute` after the PRD is parsed: diagrams, document, page and ticket. */
  method PublishPrd(state: Entries, reporting: bool, ticket: Entries, prd: PRD, failure: string,
                    post: (string, string) -> Value, datadev: Option<string>)
    returns (run: Run<PmOutput>)
    ensures run == PmFromReply(state, reporting, ticket, Some(prd), failure, post, datadev)
  {
    var arch := ArchitectureEntry(state);
    if arch.None? {
      return PmStop(reporting, 3, failure);
    }
    var ds := BuildDiagrams(prd.userStories, arch.value);
    var doc := DocumentProcessor.ProcessPrdDocument(PrdDataOf(prd), ticket);
    var content := AppendDiagramSections(doc.content + "\n\n## Architecture Diagrams\n\n", ds);
    if content.None? {
      return PmStop(reporting, 5, failure);
    }
    var page := Page("PRD: " + prd.title, content.value);
    run := Run(Reported(reporting, ProductManagerEvents),
               Done(PmOutput(prd, doc, ds, page, post(page.title, page.content), datadev)));
  }

  /** Without the ticket data, impact analysis and solution architecture in the state the manager reports one step and returns the error. */
  lemma PmNeedsInputs(state: Entries, reporting: bool, response: Option<string>, loads: string -> Json, failure: string,
                      post: (string, string) -> Value, datadev: Option<string>)
    requires !HasKey(state, "jira_ticket_data") || !HasKey(state, "impact_analysis")
          || !HasKey(state, "solution_architecture")
    ensures PmRun(state, reporting, response, loads, failure, post, datadev) ==
      Run(Reported(reporting, ProductManagerEvents[..1]),
          Failed(ProductManagerFailed + "Required data not available for PRD generation"))
  {
  }

  /** A failed run returns the manager's error after a proper prefix of its reports. */
  predicate StoppedEarly(run: Run<PmOutput>, reporting: bool) {
    run.outcome.Failed? ==>
      StartsWith(run.outcome.error, ProductManagerFailed)
      && exists n :: 1 <= n < |ProductManagerEvents| && run.events == Reported(reporting, ProductManagerEvents[..n])
  }

  lemma PmStopStopsEarly(reporting: bool, n: nat, message: string)
    requires 1 <= n < |ProductManagerEvents|
    ensures StoppedEarly(PmStop(reporting, n, message), reporting)
  {
    var e := PmStop(reporting, n, message).outcome.error;
    assert e[..|ProductManagerFailed|] == ProductManagerFailed;
  }

  lemma PmPublishStopsEarly(reporting: bool, prd: PRD, ds: seq<DiagramEntry>, doc: DocumentProcessor.ArchitectureDocument,
                            failure: string, post: (string, string) -> Value, datadev: Option<string>)
    ensures StoppedEarly(PmPublish(reporting, prd, ds, doc, failure, post, datadev), reporting)
  {
    PmStopStopsEarly(reporting, 5, failure);
  }

  lemma PmFromReplyStopsEarly(state: Entries, reporting: bool, ticket: Entries, parsed: Option<PRD>, failure: string,
                              post: (string, string) -> Value, datadev: Option<string>)
    ensures StoppedEarly(PmFromReply(state, reporting, ticket, parsed, failure, post, datadev), reporting)
  {
    if parsed.None? {
      PmStopStopsEarly(reporting, 2, failure);
    } else if ArchitectureEntry(state).None? {
      PmStopStopsEarly(reporting, 3, failure);
    } else {
      var prd := parsed.value;
      PmPublishStopsEarly(reporting, prd, DiagramList(prd.userStories, ArchitectureEntry(state).value),
                          DocumentOf(prd, ticket), failure, post, datadev);
    }
  }

  /** Every failure is the manager's error after a proper prefix of its reports; no answer from the model is a failure. */
  lemma PmFailures(state: Entries, reporting: bool, response: Option<string>, loads: string -> Json, failure: string,
                   post: (string, string) -> Value, datadev: Option<string>)
    ensures response.None? ==> PmRun(state, reporting, response, loads, failure, post, datadev).outcome.Failed?
    ensures StoppedEarly(PmRun(state, reporting, response, loads, failure, post, datadev), reporting)
  {
    if !HasPmInputs(state) {
      PmStopStopsEarly(reporting, 1, "Required data not available for PRD generation");
    } else {
      var ticket := Field(state, "jira_ticket_data", Null);
      var promptError := PmPromptError(ticket, failure);
      if promptError.Some? {
        PmStopStopsEarly(reporting, 2, promptError.value);
      } else if response.None? {
        PmStopStopsEarly(reporting, 2, failure);
      } else {
        PmFromReplyStopsEarly(state, reporting, ticket.entries, ParseStructuredResponse(response.value, loads),
                              failure, post, datadev);
      }
    }
  }

  /** A published run posts a page titled after the PRD that opens with the document and shows every diagram's code. */
  lemma PmPublishPosts(reporting: bool, prd: PRD, ds: seq<DiagramEntry>, doc: DocumentProcessor.ArchitectureDocument,
                       failure: string, post: (string, string) -> Value, datadev: Option<string>, i: nat)
    requires PmPublish(reporting, prd, ds, doc, failure, post, datadev).outcome.Done?
    ensures var run := PmPublish(reporting, prd, ds, doc, failure, post, datadev);
      var out := run.outcome.value;
      && run.events == Reported(reporting, ProductManagerEvents)
      && out.prd == prd && out.diagrams == ds && out.document == doc
      && out.page.title == "PRD: " + prd.title
      && StartsWith(out.page.content, doc.content + "\n\n## Architecture Diagrams\n\n")
      && (i < |ds| ==> ds[i].mermaidCode.Str? && Contains(out.page.content, Fenced(ds[i].mermaidCode.s)))
      && out.confluenceResult == post(out.page.title, out.page.content)
      && out.datadevTicketKey == datadev
  {
    PageShowsDiagrams(doc.content, ds, i);
  }

  /**
   * A completed run had all its inputs and an answer, reports all seven
   * steps, and publishes the parsed PRD with its diagram list and the
   * document built from it.
   */
  lemma PmCompletes(state: Entries, reporting: bool, response: Option<string>, loads: string -> Json, failure: string,
                    post: (string, string) -> Value, datadev: Option<string>)
    requires PmRun(state, reporting, response, loads, failure, post, datadev).outcome.Done?
    ensures response.Some? && HasPmInputs(state)
    ensures var ticket := Field(state, "jira_ticket_data", Null);
      var prd := ParseStructuredResponse(response.value, loads).value;
      && ticket.Dict? && ParseStructuredResponse(response.value, loads).Some? && ArchitectureEntry(state).Some?
      && PmRun(state, reporting, response, loads, failure, post, datadev) ==
           PmPublish(reporting, prd, DiagramList(prd.userStories, ArchitectureEntry(state).value),
                     DocumentOf(prd, ticket.entries), failure, post, datadev)
  {
    var ticket := Field(state, "jira_ticket_data", Null);
    var run := PmRun(state, reporting, response, loads, failure, post, datadev);
    assert HasPmInputs(state) && PmPromptError(ticket, failure).None? && response.Some?;
    var parsed := ParseStructuredResponse(response.value, loads);
    assert run == PmFromReply(state, reporting, ticket.entries, parsed, failure, post, datadev);
    PmFromReplyPublishes(state, reporting, ticket.entries, parsed, failure, post, datadev);
  }

  /** A run that completes after the model's answer parsed the PRD, found the architecture diagram and published. */
  lemma PmFromReplyPublishes(state: Entries, reporting: bool, ticket: Entries, parsed: Option<PRD>, failure: string,
                             post: (string, string) -> Value, datadev: Option<string>)
    requires PmFromReply(state, reporting, ticket, parsed, failure, post, datadev).outcome.Done?
    ensures parsed.Some? && ArchitectureEntry(state).Some?
    ensures PmFromReply(state, reporting, ticket, parsed, failure, post, datadev) ==
      PmPublish(reporting, parsed.value, DiagramList(parsed.value.userStories, ArchitectureEntry(state).value),
                DocumentOf(parsed.value, ticket), failure, post, datadev)
  {
  }
}
