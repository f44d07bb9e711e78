/*
 * Mermaid diagram text built from user stories, architecture components and
 * impact items. Each generator appends pieces to a chart string in a loop;
 * the functions here name the list of pieces, and the methods build the
 * chart the way the generator does and are proved to produce their
 * concatenation.
 */
module Mermaid {
  import opened PyText
  import opened Values

  datatype Diagram = Diagram(chart: string, title: string, description: string)

  /* ---------- sequence diagram ---------- */

  const DefaultComponents: seq<string> := ["User", "System", "Backend"]

  /** `if not components`: a missing or empty list falls back to the three defaults. */
  function DiagramComponents(components: Option<seq<string>>): (cs: seq<string>)
    ensures |cs| > 0
  {
    if components.None? || |components.value| == 0 then DefaultComponents else components.value
  }

  /** The participant names: at most four, with the spaces removed. */
  function Participants(components: Option<seq<string>>): (ps: seq<string>)
    ensures |ps| <= 4 && |ps| <= |DiagramComponents(components)|
    ensures |ps| == 4 || |ps| == |DiagramComponents(components)|
    ensures forall i :: 0 <= i < |ps| ==> ps[i] == Replace(DiagramComponents(components)[i], " ", "")
  {
    var cs := PySliceTo(DiagramComponents(components), 4);
    seq(|cs|, i requires 0 <= i < |cs| => Replace(cs[i], " ", ""))
  }

  function ParticipantPiece(name: string): string {
    "    participant " + name + "\n"
  }

  const LoginFlow: string :=
    "    User->>System: Login Request\n" +
    "    System->>Backend: Authenticate User\n" +
    "    Backend-->>System: Authentication Result\n" +
    "    System-->>User: Login Response\n"

  const PaymentFlow: string :=
    "    User->>System: Payment Request\n" +
    "    System->>Backend: Process Payment\n" +
    "    Backend->>PaymentGateway: Charge Card\n" +
    "    PaymentGateway-->>Backend: Payment Status\n" +
    "    Backend-->>System: Transaction Result\n" +
    "    System-->>User: Payment Confirmation\n"

  const SearchFlow: string :=
    "    User->>System: Search Query\n" +
    "    System->>Backend: Execute Search\n" +
    "    Backend->>Database: Query Data\n" +
    "    Database-->>Backend: Search Results\n" +
    "    Backend-->>System: Formatted Results\n" +
    "    System-->>User: Display Results\n"

  const GenericFlow: string :=
    "    User->>System: User Action\n" +
    "    System->>Backend: Process Request\n" +
    "    Backend-->>System: Response Data\n" +
    "    System-->>User: Updated View\n"

  /** The interaction block: the first keyword among login, payment, search, matched case-insensitively. */
  function InteractionFlow(story: string): string {
    var lower := Lower(story);
    if Contains(lower, "login") then LoginFlow
    else if Contains(lower, "payment") then PaymentFlow
    else if Contains(lower, "search") then SearchFlow
    else GenericFlow
  }

  function ParticipantPieces(components: Option<seq<string>>): (ps: seq<string>)
    ensures |ps| == |Participants(components)|
  {
    var names := Participants(components);
    seq(|names|, i requires 0 <= i < |names| => ParticipantPiece(names[i]))
  }

  function SequenceTitle(story: string): string {
    "Sequence Diagram: " + Take(story, 50) + "..."
  }

  /** The sequence diagram: header, one line per participant, the interaction block. */
  function SequenceDiagram(story: string, components: Option<seq<string>>): Diagram {
    var chart := "sequenceDiagram\n" + Concat(ParticipantPieces(components)) + InteractionFlow(story);
    Diagram(chart, SequenceTitle(story), story)
  }

  method GenerateSequenceDiagram(story: string, components: Option<seq<string>>) returns (d: Diagram)
    ensures d == SequenceDiagram(story, components)
  {
    var names := Participants(components);
    ghost var pieces := ParticipantPieces(components);
    var chart := "sequenceDiagram\n";
    ghost var header := chart;
    var i := 0;
    while i < |names|
      invariant 0 <= i <= |names|
      invariant chart == header + Concat(pieces[..i])
    {
      assert pieces[i] == ParticipantPiece(names[i]);
      SeqAssoc(header, Concat(pieces[..i]), pieces[i]);
      chart := chart + ParticipantPiece(names[i]);
      ConcatPrefix(pieces, i);
      i := i + 1;
    }
    assert pieces[..i] == pieces;
    var flow := InteractionFlow(story);
    chart := chart + flow;
    d := Diagram(chart, SequenceTitle(story), story);
  }

  /** With no components, the participants are exactly User, System and Backend. */
  lemma SequenceDefaults(story: string)
    ensures Participants(None) == ["User", "System", "Backend"]
    ensures Participants(Some([])) == Participants(None)
  {
    var cs := DefaultComponents;
    forall i | 0 <= i < |cs| ensures Lacks(cs[i], ' ') {
      assert cs[i] == "User" || cs[i] == "System" || cs[i] == "Backend";
    }
    ParticipantsKeepNames(None);
  }

  /** Up to four names without spaces are taken over unchanged. */
  lemma ParticipantsKeepNames(components: Option<seq<string>>)
    requires |DiagramComponents(components)| <= 4
    requires forall i :: 0 <= i < |DiagramComponents(components)| ==> Lacks(DiagramComponents(components)[i], ' ')
    ensures Participants(components) == DiagramComponents(components)
  {
    var cs := DiagramComponents(components);
    forall i | 0 <= i < |cs| ensures Participants(components)[i] == cs[i] {
      SpaceFree(cs[i]);
    }
  }

  /** A name without spaces is its own participant name. */
  lemma SpaceFree(name: string)
    requires Lacks(name, ' ')
    ensures Replace(name, " ", "") == name
  {
    LacksNotContains(name, ' ');
    ReplaceAbsent(name, " ", "");
  }

  /** No participant name has a space in it. */
  lemma ParticipantsHaveNoSpaces(components: Option<seq<string>>)
    ensures forall i :: 0 <= i < |Participants(components)| ==> Lacks(Participants(components)[i], ' ')
  {
    var cs := DiagramComponents(components);
    forall i | 0 <= i < |Participants(components)|
      ensures Lacks(Participants(components)[i], ' ')
    {
      ReplaceCharRemoves(cs[i], ' ', "");
    }
  }

  /**
   * The keyword order: a login story gets the login flow whatever else it
   * mentions, a payment story the payment flow unless it mentions login.
   */
  lemma InteractionPriority(story: string)
    ensures Contains(Lower(story), "login") ==> InteractionFlow(story) == LoginFlow
    ensures InteractionFlow(story) == PaymentFlow <==>
      !Contains(Lower(story), "login") && Contains(Lower(story), "payment")
    ensures InteractionFlow(story) == GenericFlow <==>
      !Contains(Lower(story), "login") && !Contains(Lower(story), "payment") && !Contains(Lower(story), "search")
  {
    assert LoginFlow[19] != PaymentFlow[19];
    assert SearchFlow[19] != PaymentFlow[19];
    assert GenericFlow[19] != PaymentFlow[19];
    assert LoginFlow[19] != GenericFlow[19];
    assert SearchFlow[19] != GenericFlow[19];
  }

  /** The title keeps at most fifty characters of the story and always ends in "...". */
  lemma SequenceTitleShape(story: string)
    ensures StartsWith(SequenceTitle(story), "Sequence Diagram: ")
    ensures EndsWith(SequenceTitle(story), "...")
    ensures |SequenceTitle(story)| <= 18 + 50 + 3
    ensures |story| <= 50 ==> SequenceTitle(story) == "Sequence Diagram: " + story + "..."
  {
  }

  /* ---------- architecture diagram ---------- */

  /** A component as the generator reads it: `name` and `type` may be missing. */
  datatype ArchComponent = ArchComponent(name: Option<string>, kind: Option<string>)

  function NodeId(i: nat): string {
    "A" + IntToStr(i)
  }

  /** The node label: the name, or "Component i", cut to twenty characters. */
  function NodeLabel(i: nat, c: ArchComponent): (text: string)
    ensures |text| <= 20
  {
    var name := if c.name.Some? then c.name.value else "Component " + IntToStr(i);
    Take(name, 20)
  }

  /** The text one component adds: its node shaped by type, plus a link for a frontend. */
  function NodePiece(i: nat, c: ArchComponent): string {
    var id := NodeId(i);
    var name := NodeLabel(i, c);
    var kind := if c.kind.Some? then c.kind.value else "service";
    if kind == "frontend" then "    " + id + "[" + name + "]\n" + "    " + id + " --> B0[Backend Services]\n"
    else if kind == "api" then "    " + id + "{{API: " + name + "}}\n"
    else if kind == "database" then "    " + id + "[(" + name + ")]\n"
    else "    " + id + "[" + name + "]\n"
  }

  function EdgePiece(i: nat): string {
    "    " + NodeId(i) + " --> " + NodeId(i + 1) + "\n"
  }

  function NodePieces(cs: seq<ArchComponent>): (ps: seq<string>)
    ensures |ps| == |cs|
  {
    seq(|cs|, i requires 0 <= i < |cs| => NodePiece(i, cs[i]))
  }

  /** The chain `A0 --> A1 --> ...`: one edge between each pair of neighbours. */
  function EdgePieces(n: nat): (es: seq<string>)
    ensures |es| == if n > 1 then n - 1 else 0
    ensures forall i :: 0 <= i < |es| ==> es[i] == EdgePiece(i)
  {
    if n > 1 then seq(n - 1, i requires 0 <= i < n - 1 => EdgePiece(i)) else []
  }

  const ArchitectureTitle := "System Architecture Overview"
  const ArchitectureDescription := "High-level system architecture showing component relationships"

  /** The architecture diagram: header, one node piece per component, then the chain of edges. */
  function ArchitectureDiagram(cs: seq<ArchComponent>): Diagram {
    var chart := "graph TD\n" + Concat(NodePieces(cs)) + Concat(EdgePieces(|cs|));
    Diagram(chart, ArchitectureTitle, ArchitectureDescription)
  }

  method GenerateArchitectureDiagram(cs: seq<ArchComponent>) returns (d: Diagram)
    ensures d == ArchitectureDiagram(cs)
  {
    ghost var nodes := NodePieces(cs);
    ghost var edges := EdgePieces(|cs|);
    var chart := "graph TD\n";
    var i := 0;
    while i < |cs|
      invariant 0 <= i <= |cs|
      invariant chart == "graph TD\n" + Concat(nodes[..i])
    {
      SeqAssoc("graph TD\n", Concat(nodes[..i]), NodePiece(i, cs[i]));
      chart := chart + NodePiece(i, cs[i]);
      ConcatPrefix(nodes, i);
      i := i + 1;
    }
    assert nodes[..i] == nodes;
    ghost var base := chart;
    if |cs| > 1 {
      var j := 0;
      while j < |cs| - 1
        invariant 0 <= j <= |cs| - 1
        invariant chart == base + Concat(edges[..j])
      {
        SeqAssoc(base, Concat(edges[..j]), EdgePiece(j));
        chart := chart + EdgePiece(j);
        ConcatPrefix(edges, j);
        j := j + 1;
      }
      assert edges[..j] == edges;
    } else {
      assert edges == [];
    }
    SeqAssoc("graph TD\n", Concat(nodes), Concat(edges));
    assert chart == "graph TD\n" + Concat(nodes) + Concat(edges);
    d := Diagram(chart, ArchitectureTitle, ArchitectureDescription);
  }

  /** Node `A{i}` is component i and its label starts like the component's name. */
  lemma ArchitectureNodes(cs: seq<ArchComponent>, i: nat)
    requires i < |cs|
    ensures StartsWith(NodePiece(i, cs[i]), "    " + NodeId(i))
    ensures cs[i].name.Some? ==> NodeLabel(i, cs[i]) == Take(cs[i].name.value, 20)
    ensures cs[i].name.Some? && |cs[i].name.value| <= 20 ==> NodeLabel(i, cs[i]) == cs[i].name.value
  {
  }


  /* ---------- workflow diagram ---------- */

  /** A step label: the text stripped, then cut to twenty characters plus "...". */
  function ActionLabel(text: string): (r: string)
    ensures |r| <= 23
  {
    Ellipsize(Strip(text), 20)
  }

  /**
   * The action of a user story: the words after "i want to" (skipping one
   * more character) up to " so that", stripped and cut to twenty characters
   * plus "..."; without the phrase, the first three words plus "...".
   */
  function ExtractAction(story: string): (r: string)
    ensures |r| <= 23 || !Contains(Lower(story), "i want to")
  {
    if Contains(Lower(story), "i want to") then ActionLabel(ActionText(story))
    else Join(PySliceTo(SplitWords(story), 3), " ") + "..."
  }

  /** The text the action is cut from: one character past "i want to", up to the next " so that" or the end. */
  function ActionText(story: string): string {
    var lower := Lower(story);
    var start := Find(lower, "i want to", 0) + 10;
    var found := Find(lower, " so that", start);
    var end := if found == -1 then |lower| else found;
    PySlice(story, start, end)
  }

  /** `Lower` commutes with slicing. */
  lemma LowerSlice(s: string, a: nat, b: nat)
    requires a <= b <= |s|
    ensures Lower(s[a..b]) == Lower(s)[a..b]
  {
  }

  /**
   * The action never runs into the "so that" clause: the text it is cut
   * from starts after "i want to" and holds no " so that", in any case.
   */
  lemma ActionStopsAtSoThat(story: string)
    requires Contains(Lower(story), "i want to")
    ensures exists a: nat, b: nat ::
      a <= b <= |story| && a >= Find(Lower(story), "i want to", 0) + 9
      && !Contains(Lower(story[a..b]), " so that")
      && ExtractAction(story) == ActionLabel(story[a..b])
  {
    var a, b := ActionSpan(story);
    assert ExtractAction(story) == ActionLabel(story[a..b]);
  }

  /** Where the action text lies in the story, and that it holds no " so that". */
  lemma ActionSpan(story: string) returns (a: nat, b: nat)
    requires Contains(Lower(story), "i want to")
    ensures a <= b <= |story| && a >= Find(Lower(story), "i want to", 0) + 9
    ensures !Contains(Lower(story[a..b]), " so that")
    ensures ActionText(story) == story[a..b]
  {
    var lower := Lower(story);
    var start := Find(lower, "i want to", 0) + 10;
    var found := Find(lower, " so that", start);
    var end := if found == -1 then |lower| else found;
    ActionTextIs(story, start, end);
    if start <= end {
      LowerSliceWithout(story, " so that", start, end);
      a, b := start, end;
      assert PySlice(story, start, end) == story[a..b];
    } else {
      a, b := |story|, |story|;
      EmptyTailWithout(story, " so that");
      assert PySlice(story, start, end) == "" == story[a..b];
    }
  }

  /** The action text is the story between the two offsets found in its lower-cased form. */
  lemma ActionTextIs(story: string, start: nat, end: int)
    requires start == Find(Lower(story), "i want to", 0) + 10
    requires end == (if Find(Lower(story), " so that", start) == -1 then |story| else Find(Lower(story), " so that", start))
    ensures end >= 0 && ActionText(story) == PySlice(story, start, end)
  {
  }

  /** In any case, the story from `start` up to the next occurrence of `p` (or the end) does not hold `p`. */
  lemma LowerSliceWithout(story: string, p: string, start: nat, end: int)
    requires |p| > 0 && start <= end
    requires end == (if Find(Lower(story), p, start) == -1 then |story| else Find(Lower(story), p, start))
    ensures end <= |story| && !Contains(Lower(story[start..end]), p)
  {
    NothingBeforeFind(Lower(story), p, start, end);
    LowerSlice(story, start, end);
  }

  /** The empty rest of a story holds no phrase. */
  lemma EmptyTailWithout(story: string, p: string)
    requires |p| > 0
    ensures !Contains(Lower(story[|story|..]), p)
  {
    assert Lower(story[|story|..]) == "";
  }

  /** Without "i want to", the action is the first three words followed by "...". */
  lemma ActionFallback(story: string)
    requires !Contains(Lower(story), "i want to")
    ensures EndsWith(ExtractAction(story), "...")
    ensures ExtractAction(story) == Join(PySliceTo(SplitWords(story), 3), " ") + "..."
  {
  }

  /** Step i: its node, labelled with the story's action. */
  function StepNode(i: nat, action: string): string {
    "    " + NodeId(i) + "[" + action + "]\n"
  }

  /** Every step after the first is linked from the one before it. */
  function StepPiece(i: nat, action: string): string {
    StepNode(i, action) + (if i > 0 then "    " + NodeId(i - 1) + " --> " + NodeId(i) + "\n" else "")
  }

  const DecisionPiece: string :=
    "    A1 --> Decision{Success?}\n" +
    "    Decision -->|Yes| A2\n" +
    "    Decision -->|No| Error[Error State]\n"

  function StepPieces(stories: seq<string>): (ps: seq<string>)
    ensures |ps| == if |stories| <= 6 then |stories| else 6
  {
    var shown := PySliceTo(stories, 6);
    seq(|shown|, i requires 0 <= i < |shown| => StepPiece(i, ExtractAction(shown[i])))
  }

  /** The decision block is added exactly when the whole list has more than two stories. */
  function DecisionTail(stories: seq<string>): string {
    if |stories| > 2 then DecisionPiece else ""
  }

  const WorkflowTitle := "User Workflow"
  const WorkflowDescription := "User workflow showing the sequence of actions"

  function WorkflowDiagram(stories: seq<string>): Diagram {
    var chart := "flowchart LR\n" + Concat(StepPieces(stories)) + DecisionTail(stories);
    Diagram(chart, WorkflowTitle, WorkflowDescription)
  }

  method GenerateWorkflowDiagram(stories: seq<string>) returns (d: Diagram)
    ensures d == WorkflowDiagram(stories)
  {
    ghost var steps := StepPieces(stories);
    var shown := PySliceTo(stories, 6);
    var chart := "flowchart LR\n";
    ghost var header := chart;
    var i := 0;
    while i < |shown|
      invariant 0 <= i <= |shown| == |steps|
      invariant chart == header + Concat(steps[..i])
    {
      ghost var before := chart;
      var action := ExtractAction(shown[i]);
      chart := chart + StepNode(i, action);
      if i > 0 {
        chart := chart + ("    " + NodeId(i - 1) + " --> " + NodeId(i) + "\n");
      }
      StepAppended(before, i, action, chart);
      assert steps[i] == StepPiece(i, action);
      SeqAssoc(header, Concat(steps[..i]), steps[i]);
      ConcatPrefix(steps, i);
      i := i + 1;
    }
    assert steps[..i] == steps;
    if |stories| > 2 {
      chart := chart + DecisionPiece;
    }
    d := Diagram(chart, WorkflowTitle, WorkflowDescription);
  }

  /** The node and, after the first step, the edge, appended one after the other, add up to the step's piece. */
  lemma StepAppended(before: string, i: nat, action: string, after: string)
    requires after == if i > 0 then before + StepNode(i, action) + ("    " + NodeId(i - 1) + " --> " + NodeId(i) + "\n")
                      else before + StepNode(i, action)
    ensures after == before + StepPiece(i, action)
  {
  }

  /** A step piece opens with a node declaration `    A<digits>[`, so it is never the decision block. */
  lemma StepPieceIsNotDecision(i: nat, action: string)
    ensures StepPiece(i, action) != DecisionPiece
  {
    var digits := NatToStr(i);
    NatToStrDigits(i);
    var head := "    " + NodeId(i) + "[";
    assert |head| >= 7;
    assert head[6] == if |digits| == 1 then '[' else digits[1];
    var p := StepPiece(i, action);
    assert p[6] == head[6];
    assert DecisionPiece[6] == ' ';
  }

  /**
   * At most six steps are drawn, and the decision block follows them exactly
   * when the whole list has more than two stories, even if only six are drawn.
   */
  lemma WorkflowDecision(stories: seq<string>)
    ensures |StepPieces(stories)| <= 6
    ensures (exists k :: 0 <= k < |StepPieces(stories)| && StepPieces(stories)[k] == DecisionPiece) == false
    ensures DecisionTail(stories) == DecisionPiece <==> |stories| > 2
  {
    var shown := PySliceTo(stories, 6);
    forall k | 0 <= k < |StepPieces(stories)| ensures StepPieces(stories)[k] != DecisionPiece {
      StepPieceIsNotDecision(k, ExtractAction(shown[k]));
    }
  }

  /* ---------- impact diagram ---------- */

  /** An impact item as the generator reads it: `riskLevel` and `component` may be missing. */
  datatype ImpactItem = ImpactItem(riskLevel: Option<string>, component: Option<string>)

  /** The items whose `riskLevel` is `level`, in their original order. */
  function WithRisk(items: seq<ImpactItem>, level: string): (r: seq<ImpactItem>)
    ensures |r| <= |items|
    ensures forall i :: 0 <= i < |r| ==> r[i].riskLevel == Some(level)
  {
    if |items| == 0 then []
    else
      var last := items[|items| - 1];
      WithRisk(items[..|items| - 1], level) + (if last.riskLevel == Some(level) then [last] else [])
  }

  /** An item is drawn in a subgraph exactly when its level is that subgraph's. */
  lemma {:induction false} WithRiskMembers(items: seq<ImpactItem>, level: string, x: ImpactItem)
    ensures x in WithRisk(items, level) <==> x in items && x.riskLevel == Some(level)
    decreases |items|
  {
    if |items| > 0 {
      WithRiskMembers(items[..|items| - 1], level, x);
      assert items == items[..|items| - 1] + [items[|items| - 1]];
    }
  }

  /** Every item lands in at most one of the three groups; other levels in none. */
  lemma {:induction false} RiskPartition(items: seq<ImpactItem>)
    ensures |WithRisk(items, "high")| + |WithRisk(items, "medium")| + |WithRisk(items, "low")| <= |items|
    ensures (forall i :: 0 <= i < |items| ==> items[i].riskLevel in {Some("high"), Some("medium"), Some("low")})
      ==> |WithRisk(items, "high")| + |WithRisk(items, "medium")| + |WithRisk(items, "low")| == |items|
    decreases |items|
  {
    if |items| > 0 {
      RiskPartition(items[..|items| - 1]);
    }
  }

  function ItemPiece(prefix: string, i: nat, item: ImpactItem): string {
    var name := if item.component.Some? then item.component.value else "Component " + IntToStr(i);
    "        " + prefix + IntToStr(i) + "[" + Take(name, 15) + "]\n"
  }

  function GroupPieces(prefix: string, items: seq<ImpactItem>): (ps: seq<string>)
    ensures |ps| == |items|
  {
    seq(|items|, i requires 0 <= i < |items| => ItemPiece(prefix, i, items[i]))
  }

  function ClassPieces(prefix: string, cls: string, n: nat): (ps: seq<string>)
    ensures |ps| == n
  {
    seq(n, i requires 0 <= i < n => "    class " + prefix + IntToStr(i) + " " + cls + ";\n")
  }

  const ImpactStyles: string :=
    "\n" +
    "    classDef highRisk fill:#ff6b6b,stroke:#d63031,color:#fff\n" +
    "    classDef mediumRisk fill:#fdcb6e,stroke:#e17055,color:#2d3436\n" +
    "    classDef lowRisk fill:#6c5ce7,stroke:#a29bfe,color:#fff\n"

  const ImpactTitle := "Impact Analysis"
  const ImpactDescription := "Visual representation of implementation risks and impacts"

  /** The impact diagram: the High, Medium and Low subgraphs in that order, the styles, the class lines. */
  function ImpactDiagram(items: seq<ImpactItem>): Diagram {
    var high := WithRisk(items, "high");
    var medium := WithRisk(items, "medium");
    var low := WithRisk(items, "low");
    var chart := "graph TB\n"
      + "    subgraph High Risk\n" + Concat(GroupPieces("H", high)) + "    end\n"
      + "    subgraph Medium Risk\n" + Concat(GroupPieces("M", medium)) + "    end\n"
      + "    subgraph Low Risk\n" + Concat(GroupPieces("L", low)) + "    end\n"
      + ImpactStyles
      + Concat(ClassPieces("H", "highRisk", |high|))
      + Concat(ClassPieces("M", "mediumRisk", |medium|))
      + Concat(ClassPieces("L", "lowRisk", |low|));
    Diagram(chart, ImpactTitle, ImpactDescription)
  }

  /** Appends the pieces of `ps` to `chart` one by one, as the generator's `+=` loops do. */
  method AppendAll(chart0: string, ps: seq<string>) returns (chart: string)
    ensures chart == chart0 + Concat(ps)
  {
    chart := chart0;
    var i := 0;
    while i < |ps|
      invariant 0 <= i <= |ps|
      invariant chart == chart0 + Concat(ps[..i])
    {
      chart := chart + ps[i];
      ConcatPrefix(ps, i);
      i := i + 1;
    }
    assert ps[..i] == ps;
  }

  method GenerateImpactDiagram(items: seq<ImpactItem>) returns (d: Diagram)
    ensures d == ImpactDiagram(items)
  {
    var high := WithRisk(items, "high");
    var medium := WithRisk(items, "medium");
    var low := WithRisk(items, "low");
    var chart := "graph TB\n" + "    subgraph High Risk\n";
    chart := AppendAll(chart, GroupPieces("H", high));
    chart := chart + "    end\n" + "    subgraph Medium Risk\n";
    chart := AppendAll(chart, GroupPieces("M", medium));
    chart := chart + "    end\n" + "    subgraph Low Risk\n";
    chart := AppendAll(chart, GroupPieces("L", low));
    chart := chart + "    end\n" + ImpactStyles;
    chart := AppendAll(chart, ClassPieces("H", "highRisk", |high|));
    chart := AppendAll(chart, ClassPieces("M", "mediumRisk", |medium|));
    chart := AppendAll(chart, ClassPieces("L", "lowRisk", |low|));
    d := Diagram(chart, ImpactTitle, ImpactDescription);
  }

  /** Each group lists its items in order as `H0`, `H1`, ... with names cut to fifteen characters. */
  lemma ImpactGroups(items: seq<ImpactItem>, i: nat)
    requires i < |WithRisk(items, "high")|
    ensures WithRisk(items, "high")[i] in items
    ensures GroupPieces("H", WithRisk(items, "high"))[i] == ItemPiece("H", i, WithRisk(items, "high")[i])
  {
    WithRiskMembers(items, "high", WithRisk(items, "high")[i]);
  }

  /* ---------- HTML rendering ---------- */

  const MermaidScript: string :=
    "<script src=\"https://cdn.jsdelivr.net/npm/mermaid/dist/mermaid.min.js\"></script>\n" +
    "<script>\n" +
    "    mermaid.initialize({ startOnLoad: true });\n" +
    "</script>\n"

  /** The container `<div>` opening with the title and description, up to where the chart goes. */
  function HtmlHead(d: Diagram): string {
    "\n<div class=\"mermaid-container\">\n    <h3>" + d.title + "</h3>\n    <p>" + d.description
      + "</p>\n    <div class=\"mermaid\">\n"
  }

  /** The diagram wrapped in a Mermaid container followed by the loader script. */
  function RenderHtml(d: Diagram): string {
    HtmlHead(d) + d.chart + ("\n    </div>\n</div>\n\n" + MermaidScript)
  }

  /** The rendered page holds the chart verbatim inside the container, and ends with the loader script. */
  lemma RenderEmbedsChart(d: Diagram)
    ensures Contains(RenderHtml(d), d.chart)
    ensures StartsWith(RenderHtml(d), "\n<div class=\"mermaid-container\">")
    ensures EndsWith(RenderHtml(d), MermaidScript)
  {
    var head, close := HtmlHead(d), "\n    </div>\n</div>\n\n";
    ContainsMiddle(head, d.chart, close + MermaidScript);
    HeadOpens(d);
    StartsLeft(head, d.chart, "\n<div class=\"mermaid-container\">");
    StartsLeft(head + d.chart, close + MermaidScript, "\n<div class=\"mermaid-container\">");
    SeqAssoc(head + d.chart, close, MermaidScript);
    EndsRight(head + d.chart + close, MermaidScript);
  }

  /** The container opens the head. */
  lemma HeadOpens(d: Diagram)
    ensures StartsWith(HtmlHead(d), "\n<div class=\"mermaid-container\">")
  {
    var open := "\n<div class=\"mermaid-container\">";
    var first := "\n<div class=\"mermaid-container\">\n    <h3>";
    assert first[..|open|] == open;
    StartsLeft(first, d.title, open);
    StartsLeft(first + d.title, "</h3>\n    <p>", open);
    StartsLeft(first + d.title + "</h3>\n    <p>", d.description, open);
    StartsLeft(first + d.title + "</h3>\n    <p>" + d.description, "</p>\n    <div class=\"mermaid\">\n", open);
  }
}
