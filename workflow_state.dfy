/*
 * The records shared by the workflow engine, the agents and the HTTP layer:
 * the PRD schema, the workflow request and response, the progress event and
 * the steps a workflow passes through.
 */
module Schema {
  import opened Values

  /** The product requirements document. All eight fields are required. */
  datatype PRD = PRD(
    title: string,
    introduction: string,
    problemStatement: string,
    userStories: seq<string>,
    technicalRequirements: seq<string>,
    nonFunctionalRequirements: seq<(string, string)>,
    outOfScope: seq<string>,
    successMetrics: seq<string>)

  /** The steps a workflow state names in `current_step`: the documented ones and `failed`. */
  predicate IsStep(step: string) {
    step in {"jira_analyst", "tech_architect", "product_manager", "completed", "failed"}
  }

  datatype WorkflowRequest = WorkflowRequest(jiraTicketId: string, engineType: string)

  datatype WorkflowResponse = WorkflowResponse(
    workflowId: string,
    status: string,
    message: string,
    currentStep: Option<string>,
    error: Option<string>)

  /** A progress update; `completed` is false unless the sender says otherwise. */
  datatype AgentProgress = AgentProgress(
    workflowId: string,
    agent: string,
    message: string,
    progress: int,
    completed: bool)

  function Progress(workflowId: string, agent: string, message: string, progress: int): (p: AgentProgress)
    ensures !p.completed && p.progress == progress && p.agent == agent
  {
    AgentProgress(workflowId, agent, message, progress, false)
  }

  /* ---------- PRD as a dictionary ---------- */

  function StrList(xs: seq<string>): (v: Value)
    ensures v.List? && |v.items| == |xs|
  {
    List(seq(|xs|, i requires 0 <= i < |xs| => Str(xs[i])))
  }

  function StrDict(es: seq<(string, string)>): (v: Value)
    ensures v.Dict? && |v.entries| == |es|
  {
    Dict(seq(|es|, i requires 0 <= i < |es| => (es[i].0, Str(es[i].1))))
  }

  /** `prd.dict()`: the eight fields under their schema names, in declaration order. */
  function PrdToValue(p: PRD): (v: Value)
    ensures v.Dict? && |v.entries| == 8 && UniqueKeys(v.entries)
  {
    Dict([
      ("title", Str(p.title)),
      ("introduction", Str(p.introduction)),
      ("problem_statement", Str(p.problemStatement)),
      ("user_stories", StrList(p.userStories)),
      ("technical_requirements", StrList(p.technicalRequirements)),
      ("non_functional_requirements", StrDict(p.nonFunctionalRequirements)),
      ("out_of_scope", StrList(p.outOfScope)),
      ("success_metrics", StrList(p.successMetrics))])
  }

  function AsStr(v: Option<Value>): Option<string> {
    if v.Some? && v.value.Str? then Some(v.value.s) else None
  }

  function AsStrList(v: Option<Value>): (r: Option<seq<string>>)
    ensures r.Some? ==> v.Some? && v.value.List? && |r.value| == |v.value.items|
  {
    if v.Some? && v.value.List? && forall i :: 0 <= i < |v.value.items| ==> v.value.items[i].Str?
    then Some(seq(|v.value.items|, i requires 0 <= i < |v.value.items| => v.value.items[i].s))
    else None
  }

  function AsStrDict(v: Option<Value>): (r: Option<seq<(string, string)>>)
    ensures r.Some? ==> v.Some? && v.value.Dict? && |r.value| == |v.value.entries|
  {
    if v.Some? && v.value.Dict? && forall i :: 0 <= i < |v.value.entries| ==> v.value.entries[i].1.Str?
    then Some(seq(|v.value.entries|, i requires 0 <= i < |v.value.entries| =>
      (v.value.entries[i].0, v.value.entries[i].1.s)))
    else None
  }

  /**
   * `PRD(**d)` for a dictionary `d`: every field must be present with its
   * declared type; other keys are ignored. `None` is the validation error.
   */
  function PrdFromEntries(es: seq<(string, Value)>): Option<PRD> {
    var title := AsStr(Lookup(es, "title"));
    var intro := AsStr(Lookup(es, "introduction"));
    var problem := AsStr(Lookup(es, "problem_statement"));
    var stories := AsStrList(Lookup(es, "user_stories"));
    var reqs := AsStrList(Lookup(es, "technical_requirements"));
    var nfr := AsStrDict(Lookup(es, "non_functional_requirements"));
    var oos := AsStrList(Lookup(es, "out_of_scope"));
    var metrics := AsStrList(Lookup(es, "success_metrics"));
    if title.Some? && intro.Some? && problem.Some? && stories.Some? && reqs.Some?
       && nfr.Some? && oos.Some? && metrics.Some?
    then Some(PRD(title.value, intro.value, problem.value, stories.value, reqs.value,
                  nfr.value, oos.value, metrics.value))
    else None
  }

  /** Validation succeeds only when the title is present and a string. */
  lemma PrdNeedsTitle(es: seq<(string, Value)>)
    ensures PrdFromEntries(es).Some? ==> HasKey(es, "title") && Lookup(es, "title").value.Str?
  {
  }

  lemma StrListBack(xs: seq<string>)
    ensures AsStrList(Some(StrList(xs))) == Some(xs)
  {
    var v := StrList(xs);
    assert forall i :: 0 <= i < |v.items| ==> v.items[i] == Str(xs[i]);
    assert forall i :: 0 <= i < |v.items| ==> v.items[i].Str?;
    var ys := seq(|v.items|, i requires 0 <= i < |v.items| => v.items[i].s);
    assert ys == xs;
  }

  lemma StrDictBack(es: seq<(string, string)>)
    ensures AsStrDict(Some(StrDict(es))) == Some(es)
  {
    var v := StrDict(es);
    assert forall i :: 0 <= i < |v.entries| ==> v.entries[i] == (es[i].0, Str(es[i].1));
    assert forall i :: 0 <= i < |v.entries| ==> v.entries[i].1.Str?;
    var ys := seq(|v.entries|, i requires 0 <= i < |v.entries| => (v.entries[i].0, v.entries[i].1.s));
    assert ys == es;
  }

  /** Each field of a PRD's dictionary is found under its own key. */
  lemma PrdLookups(p: PRD)
    ensures var es := PrdToValue(p).entries;
      && Lookup(es, "title") == Some(Str(p.title))
      && Lookup(es, "introduction") == Some(Str(p.introduction))
      && Lookup(es, "problem_statement") == Some(Str(p.problemStatement))
      && Lookup(es, "user_stories") == Some(StrList(p.userStories))
      && Lookup(es, "technical_requirements") == Some(StrList(p.technicalRequirements))
      && Lookup(es, "non_functional_requirements") == Some(StrDict(p.nonFunctionalRequirements))
      && Lookup(es, "out_of_scope") == Some(StrList(p.outOfScope))
      && Lookup(es, "success_metrics") == Some(StrList(p.successMetrics))
  {
    var es := PrdToValue(p).entries;
    LookupAt(es, 0); LookupAt(es, 1); LookupAt(es, 2); LookupAt(es, 3);
    LookupAt(es, 4); LookupAt(es, 5); LookupAt(es, 6); LookupAt(es, 7);
  }

  /** Validation reads each field through its key alone: entries holding the encoded fields give back the PRD. */
  lemma PrdFromFields(es: seq<(string, Value)>, p: PRD)
    requires Lookup(es, "title") == Some(Str(p.title))
    requires Lookup(es, "introduction") == Some(Str(p.introduction))
    requires Lookup(es, "problem_statement") == Some(Str(p.problemStatement))
    requires Lookup(es, "user_stories") == Some(StrList(p.userStories))
    requires Lookup(es, "technical_requirements") == Some(StrList(p.technicalRequirements))
    requires Lookup(es, "non_functional_requirements") == Some(StrDict(p.nonFunctionalRequirements))
    requires Lookup(es, "out_of_scope") == Some(StrList(p.outOfScope))
    requires Lookup(es, "success_metrics") == Some(StrList(p.successMetrics))
    ensures PrdFromEntries(es) == Some(p)
  {
    StrListBack(p.userStories);
    StrListBack(p.technicalRequirements);
    StrDictBack(p.nonFunctionalRequirements);
    StrListBack(p.outOfScope);
    StrListBack(p.successMetrics);
  }

  /** Validating the dictionary of a PRD gives back that PRD. */
  lemma PrdRoundTrip(p: PRD)
    ensures PrdFromEntries(PrdToValue(p).entries) == Some(p)
  {
    PrdLookups(p);
    PrdFromFields(PrdToValue(p).entries, p);
  }

  /* ---------- request and response bodies ---------- */

  /**
   * Validation of a `WorkflowRequest` body: `jira_ticket_id` is a required
   * string, `engine_type` an optional string defaulting to "langchain".
   */
  function RequestFromValue(v: Value): (r: Option<WorkflowRequest>)
    ensures r.Some? ==> v.Dict? && Lookup(v.entries, "jira_ticket_id") == Some(Str(r.value.jiraTicketId))
    ensures r.Some? && !HasKey(v.entries, "engine_type") ==> r.value.engineType == "langchain"
  {
    if !v.Dict? then None
    else
      var id := AsStr(Lookup(v.entries, "jira_ticket_id"));
      var engine := Lookup(v.entries, "engine_type");
      if id.None? then None
      else if engine.None? then Some(WorkflowRequest(id.value, "langchain"))
      else if engine.value.Str? then Some(WorkflowRequest(id.value, engine.value.s))
      else None
  }

  function RequestToValue(r: WorkflowRequest): Value {
    Dict([("jira_ticket_id", Str(r.jiraTicketId)), ("engine_type", Str(r.engineType))])
  }

  /** A serialised request validates back to itself. */
  lemma RequestRoundTrip(r: WorkflowRequest)
    ensures RequestFromValue(RequestToValue(r)) == Some(r)
  {
    var es := RequestToValue(r).entries;
    assert UniqueKeys(es);
    LookupAt(es, 0);
    LookupAt(es, 1);
  }

  function OptStr(o: Option<string>): Value {
    if o.Some? then Str(o.value) else Null
  }

  /** `WorkflowResponse(...)` with `current_step` and `error` left at their default. */
  function Response(workflowId: string, status: string, message: string): (r: WorkflowResponse)
    ensures r.currentStep.None? && r.error.None?
    ensures r.workflowId == workflowId && r.status == status && r.message == message
  {
    WorkflowResponse(workflowId, status, message, None, None)
  }

  /** The response body: five fields, absent optionals written as `null`. */
  function ResponseToValue(r: WorkflowResponse): (v: Value)
    ensures v.Dict? && Keys(v.entries) == ["workflow_id", "status", "message", "current_step", "error"]
    ensures r.currentStep.None? ==> Lookup(v.entries, "current_step") == Some(Null)
    ensures r.error.None? ==> Lookup(v.entries, "error") == Some(Null)
  {
    var es := [
      ("workflow_id", Str(r.workflowId)),
      ("status", Str(r.status)),
      ("message", Str(r.message)),
      ("current_step", OptStr(r.currentStep)),
      ("error", OptStr(r.error))];
    assert UniqueKeys(es);
    LookupAt(es, 3);
    LookupAt(es, 4);
    Dict(es)
  }
}
