/*
 * The document processor: turns the PRD dictionary of a ticket into an
 * architecture document (components, per-story sequence diagrams, an impact
 * analysis and a markdown rendering). Every list is built by a loop that
 * appends one entry per input item; each loop is proved to produce the
 * entry-by-entry map that the functions here define.
 */
module DocumentProcessor {
  import opened PyText
  import opened Values

  /**
   * The PRD dictionary the processor reads. A key that is absent is `None`;
   * present values are of the PRD schema's types.
   */
  datatype PrdData = PrdData(
    title: Option<string>,
    introduction: Option<string>,
    problemStatement: Option<string>,
    userStories: Option<seq<string>>,
    technicalRequirements: Option<seq<string>>,
    nonFunctionalRequirements: Option<seq<(string, string)>>,
    outOfScope: Option<seq<string>>,
    successMetrics: Option<seq<string>>)

  /* ---------- components ---------- */

  datatype Component = Component(name: string, kind: string, description: string, apis: seq<string>)

  /** The component type, by the first keyword group the lower-cased requirement mentions. */
  function ComponentKind(req: string): string {
    var lower := Lower(req);
    if Contains(lower, "api") || Contains(lower, "endpoint") then "api"
    else if Contains(lower, "ui") || Contains(lower, "interface") then "frontend"
    else if Contains(lower, "database") || Contains(lower, "storage") then "database"
    else "service"
  }

  function ComponentOf(req: string): Component {
    Component(Ellipsize(req, 50), ComponentKind(req), req, [])
  }

  function ComponentsOf(reqs: seq<string>): (cs: seq<Component>)
    ensures |cs| == |reqs|
  {
    seq(|reqs|, i requires 0 <= i < |reqs| => ComponentOf(reqs[i]))
  }

  /** One component per requirement, in order, typed by keyword as the loop body decides it. */
  method ExtractComponents(reqs: seq<string>) returns (components: seq<Component>)
    ensures components == ComponentsOf(reqs)
  {
    components := [];
    for i := 0 to |reqs|
      invariant components == ComponentsOf(reqs[..i])
    {
      var req := reqs[i];
      var lower := Lower(req);
      var kind := "service";
      if Contains(lower, "api") || Contains(lower, "endpoint") {
        kind := "api";
      } else if Contains(lower, "ui") || Contains(lower, "interface") {
        kind := "frontend";
      } else if Contains(lower, "database") || Contains(lower, "storage") {
        kind := "database";
      }
      var name := if |req| > 50 then req[..50] + "..." else req;
      components := components + [Component(name, kind, req, [])];
      assert reqs[..i + 1] == reqs[..i] + [reqs[i]];
    }
    assert reqs[..|reqs|] == reqs;
  }

  /**
   * The keyword priority: api/endpoint wins over ui/interface, which wins over
   * database/storage; a requirement with none of them is a service.
   */
  lemma ComponentKindPriority(req: string)
    ensures ComponentKind(req) in {"api", "frontend", "database", "service"}
    ensures Contains(Lower(req), "endpoint") ==> ComponentKind(req) == "api"
    ensures ComponentKind(req) == "database" ==>
      !Contains(Lower(req), "api") && !Contains(Lower(req), "endpoint") && !Contains(Lower(req), "ui")
      && !Contains(Lower(req), "interface") && (Contains(Lower(req), "database") || Contains(Lower(req), "storage"))
    ensures ComponentKind(req) == "service" <==>
      !Contains(Lower(req), "api") && !Contains(Lower(req), "endpoint") && !Contains(Lower(req), "ui")
      && !Contains(Lower(req), "interface") && !Contains(Lower(req), "database") && !Contains(Lower(req), "storage")
  {
  }

  /** A component's name is the requirement, cut to fifty characters plus "..." when longer; nothing else is lost. */
  lemma ComponentNames(reqs: seq<string>, i: nat)
    requires i < |reqs|
    ensures ComponentsOf(reqs)[i].description == reqs[i]
    ensures ComponentsOf(reqs)[i].apis == []
    ensures |reqs[i]| <= 50 ==> ComponentsOf(reqs)[i].name == reqs[i]
    ensures |reqs[i]| > 50 ==> |ComponentsOf(reqs)[i].name| == 53 && StartsWith(reqs[i], ComponentsOf(reqs)[i].name[..50])
  {
  }

  /* ---------- sequence diagrams per user story ---------- */

  const GenericStoryFlow: string :=
    "sequenceDiagram\n" +
    "    participant User\n" +
    "    participant System\n" +
    "    participant Backend\n" +
    "    \n" +
    "    User->>System: Initiate Action\n" +
    "    System->>Backend: Process Request\n" +
    "    Backend-->>System: Return Response\n" +
    "    System-->>User: Display Result\n"

  const LoginStoryFlow: string :=
    "sequenceDiagram\n" +
    "    participant User\n" +
    "    participant AuthSystem\n" +
    "    participant Database\n" +
    "    \n" +
    "    User->>AuthSystem: Login Request\n" +
    "    AuthSystem->>Database: Validate Credentials\n" +
    "    Database-->>AuthSystem: User Data\n" +
    "    AuthSystem-->>User: Authentication Token\n"

  const PaymentStoryFlow: string :=
    "sequenceDiagram\n" +
    "    participant User\n" +
    "    participant PaymentSystem\n" +
    "    participant Bank\n" +
    "    \n" +
    "    User->>PaymentSystem: Payment Request\n" +
    "    PaymentSystem->>Bank: Process Payment\n" +
    "    Bank-->>PaymentSystem: Payment Status\n" +
    "    PaymentSystem-->>User: Confirmation\n"

  /** The template for a story: login first, then payment, else the generic one. */
  function UserStoryToMermaid(story: string): string {
    if Contains(Lower(story), "login") then LoginStoryFlow
    else if Contains(Lower(story), "payment") then PaymentStoryFlow
    else GenericStoryFlow
  }

  /** The login template wins whenever the story mentions login; the generic one is used only without either keyword. */
  lemma StoryTemplatePriority(story: string)
    ensures Contains(Lower(story), "login") ==> UserStoryToMermaid(story) == LoginStoryFlow
    ensures UserStoryToMermaid(story) == PaymentStoryFlow <==>
      !Contains(Lower(story), "login") && Contains(Lower(story), "payment")
    ensures UserStoryToMermaid(story) == GenericStoryFlow <==>
      !Contains(Lower(story), "login") && !Contains(Lower(story), "payment")
  {
    assert LoginStoryFlow[53] != PaymentStoryFlow[53];
    assert LoginStoryFlow[53] != GenericStoryFlow[53];
    assert PaymentStoryFlow[53] != GenericStoryFlow[53];
  }

  datatype StoryDiagram = StoryDiagram(title: string, description: string, mermaidCode: string, content: string)

  /** The diagram of story number `n` (counted from one). */
  function StoryDiagramOf(n: nat, story: string): StoryDiagram {
    StoryDiagram("User Story " + IntToStr(n) + " Flow", story, UserStoryToMermaid(story), story)
  }

  function StoryDiagrams(stories: seq<string>): (ds: seq<StoryDiagram>)
    ensures |ds| == |stories|
  {
    seq(|stories|, i requires 0 <= i < |stories| => StoryDiagramOf(i + 1, stories[i]))
  }

  /** One diagram per story, in order; the per-story failure path cannot be taken on strings. */
  method GenerateSequenceDiagrams(stories: seq<string>) returns (diagrams: seq<StoryDiagram>)
    ensures diagrams == StoryDiagrams(stories)
  {
    diagrams := [];
    for i := 0 to |stories|
      invariant diagrams == StoryDiagrams(stories[..i])
    {
      var code := UserStoryToMermaid(stories[i]);
      diagrams := diagrams + [StoryDiagram("User Story " + IntToStr(i + 1) + " Flow", stories[i], code, stories[i])];
      assert stories[..i + 1] == stories[..i] + [stories[i]];
    }
    assert stories[..|stories|] == stories;
  }

  /** Story i (from zero) is titled "User Story i+1 Flow" and described by its own text. */
  lemma StoryDiagramTitles(stories: seq<string>, i: nat)
    requires i < |stories|
    ensures StoryDiagrams(stories)[i].title == "User Story " + IntToStr(i + 1) + " Flow"
    ensures StoryDiagrams(stories)[i].description == stories[i] == StoryDiagrams(stories)[i].content
  {
  }

  /* ---------- impact analysis ---------- */

  datatype ImpactEntry = ImpactEntry(component: string, riskLevel: string, affectedServices: seq<string>, description: string)

  /** `any(k in s for k in keywords)`. */
  predicate AnyIn(s: string, keywords: seq<string>) {
    exists k :: 0 <= k < |keywords| && Contains(s, keywords[k])
  }

  const HighRiskWords: seq<string> := ["database", "migration", "schema"]
  const MediumRiskWords: seq<string> := ["api", "integration", "external"]

  function RiskOf(req: string): string {
    if AnyIn(Lower(req), HighRiskWords) then "high"
    else if AnyIn(Lower(req), MediumRiskWords) then "medium"
    else "low"
  }

  function ServicesOf(req: string): seq<string> {
    ["Primary Service"] +
    (if RiskOf(req) == "high" then ["Database", "Data Layer"]
     else if RiskOf(req) == "medium" then ["API Gateway", "External Services"]
     else [])
  }

  function ImpactOf(req: string): ImpactEntry {
    ImpactEntry(Ellipsize(req, 30), RiskOf(req), ServicesOf(req), "Implementation of: " + req)
  }

  function ImpactsOf(reqs: seq<string>): (es: seq<ImpactEntry>)
    ensures |es| == |reqs|
  {
    seq(|reqs|, i requires 0 <= i < |reqs| => ImpactOf(reqs[i]))
  }

  /** The impact entries: one per technical requirement (none when the key is absent). */
  method GenerateImpactAnalysis(prd: PrdData) returns (impact: seq<ImpactEntry>)
    ensures impact == ImpactsOf(GetOr(prd.technicalRequirements, []))
  {
    var reqs := GetOr(prd.technicalRequirements, []);
    impact := [];
    for i := 0 to |reqs|
      invariant impact == ImpactsOf(reqs[..i])
    {
      var req := reqs[i];
      var lower := Lower(req);
      var high := Contains(lower, "database") || Contains(lower, "migration") || Contains(lower, "schema");
      var medium := Contains(lower, "api") || Contains(lower, "integration") || Contains(lower, "external");
      var risk := "low";
      var services := ["Primary Service"];
      if high {
        risk := "high";
        services := services + ["Database", "Data Layer"];
      } else if medium {
        risk := "medium";
        services := services + ["API Gateway", "External Services"];
      }
      var component := if |req| > 30 then req[..30] + "..." else req;
      ImpactFromTests(req, high, medium);
      assert component == Ellipsize(req, 30);
      assert ImpactEntry(component, risk, services, "Implementation of: " + req) == ImpactOf(req);
      impact := impact + [ImpactEntry(component, risk, services, "Implementation of: " + req)];
      ImpactsSnoc(reqs, i);
    }
    assert reqs[..|reqs|] == reqs;
  }

  /** The entry of a requirement, from the outcomes of the two keyword tests. */
  lemma ImpactFromTests(req: string, high: bool, medium: bool)
    requires high == (Contains(Lower(req), "database") || Contains(Lower(req), "migration") || Contains(Lower(req), "schema"))
    requires medium == (Contains(Lower(req), "api") || Contains(Lower(req), "integration") || Contains(Lower(req), "external"))
    ensures ImpactOf(req) == ImpactEntry(
      Ellipsize(req, 30),
      if high then "high" else if medium then "medium" else "low",
      ["Primary Service"] + (if high then ["Database", "Data Layer"] else if medium then ["API Gateway", "External Services"] else []),
      "Implementation of: " + req)
  {
    AnyInThree(Lower(req), HighRiskWords);
    AnyInThree(Lower(req), MediumRiskWords);
  }

  lemma ImpactsSnoc(reqs: seq<string>, i: nat)
    requires i < |reqs|
    ensures ImpactsOf(reqs[..i + 1]) == ImpactsOf(reqs[..i]) + [ImpactOf(reqs[i])]
  {
  }

  /** `any` over a three-keyword list is the disjunction of the three tests. */
  lemma AnyInThree(s: string, keywords: seq<string>)
    requires |keywords| == 3
    ensures AnyIn(s, keywords) <==>
      Contains(s, keywords[0]) || Contains(s, keywords[1]) || Contains(s, keywords[2])
  {
    if AnyIn(s, keywords) {
      var k :| 0 <= k < 3 && Contains(s, keywords[k]);
      assert k == 0 || k == 1 || k == 2;
    }
  }

  /**
   * Every entry lists "Primary Service" first; the high level adds the data
   * services, the medium level the API services, the low level nothing.
   */
  lemma ImpactServices(req: string)
    ensures ImpactOf(req).affectedServices[0] == "Primary Service"
    ensures ImpactOf(req).riskLevel in {"high", "medium", "low"}
    ensures |ImpactOf(req).affectedServices| == 1 <==> ImpactOf(req).riskLevel == "low"
    ensures ImpactOf(req).riskLevel == "high" <==>
      Contains(Lower(req), "database") || Contains(Lower(req), "migration") || Contains(Lower(req), "schema")
    ensures "Database" in ImpactOf(req).affectedServices <==> ImpactOf(req).riskLevel == "high"
    ensures |ImpactOf(req).component| <= 33
  {
    AnyInThree(Lower(req), HighRiskWords);
    assert ServicesOf(req)[0] == "Primary Service";
  }

  /* ---------- markdown ---------- */

  /** Line `n. item` of a numbered list. */
  function NumberedLine(n: nat, item: string): string {
    IntToStr(n) + ". " + item + "\n"
  }

  /** The numbered list of `items`, counted from one. */
  function NumberedLines(items: seq<string>): string {
    Concat(seq(|items|, i requires 0 <= i < |items| => NumberedLine(i + 1, items[i])))
  }

  function NfrLine(entry: (string, string)): string {
    "- **" + entry.0 + "**: " + entry.1 + "\n"
  }

  function NfrLines(nfr: seq<(string, string)>): string {
    Concat(seq(|nfr|, i requires 0 <= i < |nfr| => NfrLine(nfr[i])))
  }

  /** Appends `n. item` for each item, numbering from one, as each numbered-list loop does. */
  method AppendNumbered(content0: string, items: seq<string>) returns (content: string)
    ensures content == content0 + NumberedLines(items)
  {
    ghost var lines := seq(|items|, i requires 0 <= i < |items| => NumberedLine(i + 1, items[i]));
    content := content0;
    var i := 0;
    while i < |items|
      invariant 0 <= i <= |items|
      invariant content == content0 + Concat(lines[..i])
    {
      SeqAssoc(content0, Concat(lines[..i]), NumberedLine(i + 1, items[i]));
      content := content + NumberedLine(i + 1, items[i]);
      ConcatPrefix(lines, i);
      i := i + 1;
    }
    assert lines[..i] == lines;
  }

  /** Appends `- **k**: v` for each entry in dictionary order. */
  method AppendNfr(content0: string, nfr: seq<(string, string)>) returns (content: string)
    ensures content == content0 + NfrLines(nfr)
  {
    ghost var lines := seq(|nfr|, i requires 0 <= i < |nfr| => NfrLine(nfr[i]));
    content := content0;
    var i := 0;
    while i < |nfr|
      invariant 0 <= i <= |nfr|
      invariant content == content0 + Concat(lines[..i])
    {
      SeqAssoc(content0, Concat(lines[..i]), NfrLine(nfr[i]));
      content := content + NfrLine(nfr[i]);
      ConcatPrefix(lines, i);
      i := i + 1;
    }
    assert lines[..i] == lines;
  }

  /** The title heading line. */
  function MarkdownTitle(prd: PrdData): string {
    "# " + GetOr(prd.title, "Product Requirements Document") + "\n"
  }

  /** The title, the overview and the problem statement, up to the user stories heading. */
  function MarkdownHeader(prd: PrdData): string {
    MarkdownTitle(prd) + ("\n## Overview\n"
      + GetOr(prd.introduction, "No introduction provided") + "\n\n## Problem Statement\n"
      + GetOr(prd.problemStatement, "No problem statement provided") + "\n\n## User Stories\n")
  }

  /** The ticket footer: key, summary and priority as `str()` renders them, "N/A" when absent. */
  function MarkdownFooter(ticket: seq<(string, Value)>): string {
    "\n## Original Jira Ticket\n- **Key**: " + PyStr(GetOr(Lookup(ticket, "key"), Str("N/A")))
      + "\n- **Summary**: " + PyStr(GetOr(Lookup(ticket, "summary"), Str("N/A")))
      + "\n- **Priority**: " + PyStr(GetOr(Lookup(ticket, "priority"), Str("N/A"))) + "\n"
  }

  const TechHeading := "\n## Technical Requirements\n"
  const NfrHeading := "\n## Non-Functional Requirements\n"
  const OutOfScopeHeading := "\n## Out of Scope\n"
  const MetricsHeading := "\n## Success Metrics\n"

  /**
   * The markdown, piece by piece in the order the generator appends them:
   * absent lists are written as empty ones.
   */
  function MarkdownContent(prd: PrdData, ticket: seq<(string, Value)>): string {
    MarkdownHeader(prd) + NumberedLines(GetOr(prd.userStories, []))
    + TechHeading + NumberedLines(GetOr(prd.technicalRequirements, []))
    + NfrHeading + NfrLines(GetOr(prd.nonFunctionalRequirements, []))
    + OutOfScopeHeading + NumberedLines(GetOr(prd.outOfScope, []))
    + MetricsHeading + NumberedLines(GetOr(prd.successMetrics, []))
    + MarkdownFooter(ticket)
  }

  method GenerateMarkdownContent(prd: PrdData, ticket: seq<(string, Value)>) returns (content: string)
    ensures content == MarkdownContent(prd, ticket)
  {
    content := MarkdownHeader(prd);
    content := AppendNumbered(content, GetOr(prd.userStories, []));
    content := content + TechHeading;
    content := AppendNumbered(content, GetOr(prd.technicalRequirements, []));
    content := content + NfrHeading;
    content := AppendNfr(content, GetOr(prd.nonFunctionalRequirements, []));
    content := content + OutOfScopeHeading;
    content := AppendNumbered(content, GetOr(prd.outOfScope, []));
    content := content + MetricsHeading;
    content := AppendNumbered(content, GetOr(prd.successMetrics, []));
    content := content + MarkdownFooter(ticket);
  }

  /** Item i of a list is written as the line `i+1. item`, which occurs in the list. */
  lemma NumberedLineListed(items: seq<string>, i: nat)
    requires i < |items|
    ensures Contains(NumberedLines(items), NumberedLine(i + 1, items[i]))
  {
    var lines := seq(|items|, k requires 0 <= k < |items| => NumberedLine(k + 1, items[k]));
    ConcatContains(lines, i);
  }

  /** The document opens with the title heading and ends with the ticket footer. */
  lemma MarkdownFrame(prd: PrdData, ticket: seq<(string, Value)>)
    ensures StartsWith(MarkdownContent(prd, ticket), "# " + GetOr(prd.title, "Product Requirements Document") + "\n")
    ensures EndsWith(MarkdownContent(prd, ticket), MarkdownFooter(ticket))
  {
    var title := MarkdownTitle(prd);
    var h := MarkdownHeader(prd);
    var n1, n2 := NumberedLines(GetOr(prd.userStories, [])), NumberedLines(GetOr(prd.technicalRequirements, []));
    var nl := NfrLines(GetOr(prd.nonFunctionalRequirements, []));
    var n3, n4 := NumberedLines(GetOr(prd.outOfScope, [])), NumberedLines(GetOr(prd.successMetrics, []));
    var f := MarkdownFooter(ticket);
    assert title[..|title|] == title;
    StartsLeft(title, h[|title|..], title);
    assert title + h[|title|..] == h;
    StartsLeft(h, n1, title);
    StartsLeft(h + n1, TechHeading, title);
    StartsLeft(h + n1 + TechHeading, n2, title);
    StartsLeft(h + n1 + TechHeading + n2, NfrHeading, title);
    StartsLeft(h + n1 + TechHeading + n2 + NfrHeading, nl, title);
    StartsLeft(h + n1 + TechHeading + n2 + NfrHeading + nl, OutOfScopeHeading, title);
    StartsLeft(h + n1 + TechHeading + n2 + NfrHeading + nl + OutOfScopeHeading, n3, title);
    StartsLeft(h + n1 + TechHeading + n2 + NfrHeading + nl + OutOfScopeHeading + n3, MetricsHeading, title);
    var body := h + n1 + TechHeading + n2 + NfrHeading + nl + OutOfScopeHeading + n3 + MetricsHeading;
    StartsLeft(body, n4, title);
    StartsLeft(body + n4, f, title);
    assert (body + n4 + f)[|body + n4|..] == f;
  }

  /** What the markdown holds up to the technical requirements, it still holds once the later sections are appended. */
  lemma KeptOnAppend(c: string, p: string, a: string, b: string, d: string, e: string, g: string, k: string, m: string)
    requires Contains(c, p)
    ensures Contains(c + a + b + d + e + g + k + m, p)
  {
    ContainsLeft(c, a, p);
    ContainsLeft(c + a, b, p);
    ContainsLeft(c + a + b, d, p);
    ContainsLeft(c + a + b + d, e, p);
    ContainsLeft(c + a + b + d + e, g, p);
    ContainsLeft(c + a + b + d + e + g, k, p);
    ContainsLeft(c + a + b + d + e + g + k, m, p);
  }

  /** Every user story and every technical requirement appears as its numbered line. */
  lemma MarkdownListsItems(prd: PrdData, ticket: seq<(string, Value)>)
    ensures forall i :: 0 <= i < |GetOr(prd.userStories, [])| ==>
      Contains(MarkdownContent(prd, ticket), NumberedLine(i + 1, GetOr(prd.userStories, [])[i]))
    ensures forall i :: 0 <= i < |GetOr(prd.technicalRequirements, [])| ==>
      Contains(MarkdownContent(prd, ticket), NumberedLine(i + 1, GetOr(prd.technicalRequirements, [])[i]))
  {
    var stories := GetOr(prd.userStories, []);
    var reqs := GetOr(prd.technicalRequirements, []);
    var h := MarkdownHeader(prd);
    var n1, n2 := NumberedLines(stories), NumberedLines(reqs);
    var nl := NfrLines(GetOr(prd.nonFunctionalRequirements, []));
    var n3, n4 := NumberedLines(GetOr(prd.outOfScope, [])), NumberedLines(GetOr(prd.successMetrics, []));
    var f := MarkdownFooter(ticket);
    var content := MarkdownContent(prd, ticket);
    var c1 := h + n1;
    ContainsMiddle(h, n1, "");
    assert h + n1 + "" == c1;
    var c3 := c1 + TechHeading + n2;
    ContainsMiddle(c1 + TechHeading, n2, "");
    assert c1 + TechHeading + n2 + "" == c3;
    ContainsLeft(c1, TechHeading, n1);
    ContainsLeft(c1 + TechHeading, n2, n1);
    KeptOnAppend(c3, n1, NfrHeading, nl, OutOfScopeHeading, n3, MetricsHeading, n4, f);
    KeptOnAppend(c3, n2, NfrHeading, nl, OutOfScopeHeading, n3, MetricsHeading, n4, f);
    forall i | 0 <= i < |stories| ensures Contains(content, NumberedLine(i + 1, stories[i])) {
      NumberedLineListed(stories, i);
      ContainsTrans(content, n1, NumberedLine(i + 1, stories[i]));
    }
    forall i | 0 <= i < |reqs| ensures Contains(content, NumberedLine(i + 1, reqs[i])) {
      NumberedLineListed(reqs, i);
      ContainsTrans(content, n2, NumberedLine(i + 1, reqs[i]));
    }
  }

  /* ---------- the whole document ---------- */

  datatype ArchitectureDocument = ArchitectureDocument(
    title: string,
    summary: string,
    components: seq<Component>,
    sequenceDiagrams: seq<StoryDiagram>,
    impactAnalysis: seq<ImpactEntry>,
    content: string)

  /**
   * `process_prd_document`: components from the technical requirements, one
   * diagram per user story, the impact analysis and the markdown.
   */
  method ProcessPrdDocument(prd: PrdData, ticket: seq<(string, Value)>) returns (doc: ArchitectureDocument)
    ensures doc.title == GetOr(prd.title, "Untitled Document")
    ensures doc.summary == GetOr(prd.introduction, "")
    ensures doc.components == ComponentsOf(GetOr(prd.technicalRequirements, []))
    ensures doc.sequenceDiagrams == StoryDiagrams(GetOr(prd.userStories, []))
    ensures doc.impactAnalysis == ImpactsOf(GetOr(prd.technicalRequirements, []))
    ensures doc.content == MarkdownContent(prd, ticket)
    ensures |doc.components| == |doc.impactAnalysis|
  {
    var components := ExtractComponents(GetOr(prd.technicalRequirements, []));
    var diagrams := GenerateSequenceDiagrams(GetOr(prd.userStories, []));
    var impact := GenerateImpactAnalysis(prd);
    var content := GenerateMarkdownContent(prd, ticket);
    doc := ArchitectureDocument(GetOr(prd.title, "Untitled Document"), GetOr(prd.introduction, ""),
                                components, diagrams, impact, content);
  }
}
