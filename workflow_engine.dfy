/*
 * The workflow engine: a registry from workflow id to the workflow's state
 * dictionary, the progress callbacks registered for some of them, and the
 * execution of a workflow, which at present runs the Jira analyst only.
 *
 * The id (a fresh UUID), the start time and the analyst's collaborators
 * (the Jira answer, the exporter, the file system, the HSD key) are
 * parameters. What the callbacks receive is recorded in `delivered`.
 */
module Engine {
  import opened PyText
  import opened Values
  import opened Schema
  import Agents
  import Jira

  type Entries = seq<(string, Value)>

  /** A caller's progress callback; only its identity matters here. */
  datatype Callback = Callback(handle: nat)

  /* ---------- the states the engine writes ---------- */

  /** The state a new workflow starts with. */
  function InitialState(ticketId: string, startTime: string): (s: Entries)
    ensures UniqueKeys(s)
    ensures Lookup(s, "jira_ticket_id") == Some(Str(ticketId))
    ensures Lookup(s, "current_step") == Some(Str("jira_analyst"))
    ensures Lookup(s, "currentAgent") == Some(Str("jira-analyst"))
    ensures Lookup(s, "metadata") == Some(Dict([("start_time", Str(startTime)),
                                                 ("engine_type", Str("langchain-python")),
                                                 ("version", Str("2.0"))]))
  {
    var s := [("jira_ticket_id", Str(ticketId)),
              ("current_step", Str("jira_analyst")),
              ("currentAgent", Str("jira-analyst")),
              ("metadata", Dict([("start_time", Str(startTime)),
                                 ("engine_type", Str("langchain-python")),
                                 ("version", Str("2.0"))]))];
    LookupAt(s, 0);
    LookupAt(s, 1);
    LookupAt(s, 2);
    LookupAt(s, 3);
    s
  }

  /** The state after a successful analyst run: its result merged in, then marked completed. */
  function CompletedState(state: Entries, result: Entries): Entries {
    var merged := Update(state, result);
    var marked := Put(merged, "currentAgent", Str("completed"));
    Put(Put(marked, "current_step", Str("completed")), "currentAgent", Str("completed"))
  }

  /** The state after a failed run: the error message recorded and the step set to `failed`. */
  function FailedState(state: Entries, message: string): Entries {
    Put(Put(state, "error", Str(message)), "current_step", Str("failed"))
  }

  /**
   * A completed state holds every key of the analyst's result with its value,
   * except that `current_step` and `currentAgent` read `completed`; every
   * other key keeps the value it had.
   */
  lemma CompletedStateReads(state: Entries, result: Entries, k: string)
    requires UniqueKeys(result)
    ensures Lookup(CompletedState(state, result), k) ==
      if k == "current_step" || k == "currentAgent" then Some(Str("completed"))
      else if HasKey(result, k) then Lookup(result, k)
      else Lookup(state, k)
  {
    var merged := Update(state, result);
    var marked := Put(merged, "currentAgent", Str("completed"));
    var stepped := Put(marked, "current_step", Str("completed"));
    UpdateLookup(state, result, k);
    PutLookup(merged, "currentAgent", Str("completed"), k);
    PutLookup(marked, "current_step", Str("completed"), k);
    PutLookup(stepped, "currentAgent", Str("completed"), k);
  }

  /** A failed state reads the message under `error` and `failed` under `current_step`; nothing else changes. */
  lemma FailedStateReads(state: Entries, message: string, k: string)
    ensures Lookup(FailedState(state, message), k) ==
      if k == "error" then Some(Str(message))
      else if k == "current_step" then Some(Str("failed"))
      else Lookup(state, k)
  {
    PutLookup(state, "error", Str(message), k);
    PutLookup(Put(state, "error", Str(message)), "current_step", Str("failed"), k);
  }

  /** `d.update(other)` keeps a dictionary's keys unique. */
  lemma {:induction false} UpdateUnique(es: Entries, other: Entries)
    requires UniqueKeys(es)
    ensures UniqueKeys(Update(es, other))
    decreases |other|
  {
    if |other| > 0 {
      PutUnique(es, other[0].0, other[0].1);
      UpdateUnique(Put(es, other[0].0, other[0].1), other[1..]);
    }
  }

  /** Both states the engine writes keep the keys unique. */
  lemma WrittenStatesUnique(state: Entries, result: Entries, message: string)
    requires UniqueKeys(state)
    ensures UniqueKeys(CompletedState(state, result)) && UniqueKeys(FailedState(state, message))
  {
    UpdateUnique(state, result);
    var merged := Update(state, result);
    PutUnique(merged, "currentAgent", Str("completed"));
    var marked := Put(merged, "currentAgent", Str("completed"));
    PutUnique(marked, "current_step", Str("completed"));
    PutUnique(Put(marked, "current_step", Str("completed")), "currentAgent", Str("completed"));
    PutUnique(state, "error", Str(message));
    PutUnique(Put(state, "error", Str(message)), "current_step", Str("failed"));
  }

  /* ---------- the progress the engine reports ---------- */

  /** The analyst's reports as the engine forwards them: tagged with the workflow id, not completed. */
  function Forwarded(id: string, es: seq<Agents.Event>): (ps: seq<AgentProgress>)
    ensures |ps| == |es|
    ensures forall i :: 0 <= i < |es| ==>
      ps[i].workflowId == id && ps[i].agent == es[i].agent && ps[i].message == es[i].message
      && ps[i].progress == es[i].progress && !ps[i].completed
  {
    seq(|es|, i requires 0 <= i < |es| => Progress(id, es[i].agent, es[i].message, es[i].progress))
  }

  function CompletionEvents(id: string): seq<AgentProgress> {
    [AgentProgress(id, "jira-analyst", "Ticket data fetch and Excel export completed", 100, true),
     AgentProgress(id, "workflow", "LangChain workflow completed successfully", 100, true)]
  }

  function FailureEvent(id: string, message: string): AgentProgress {
    AgentProgress(id, "workflow", "Workflow failed: " + message, 100, true)
  }

  /**
   * The error the engine raises from the analyst's run: the analyst's own
   * exception, or the truthy `error` entry of its result (as `str()` shows it).
   */
  function AnalystError(o: Agents.Outcome<Entries>): Option<string> {
    match o
    case Failed(m) => Some(m)
    case Done(es) =>
      var e := Field(es, "error", Null);
      if Truthy(e) then Some(PyStr(e)) else None
  }

  /** What executing a workflow leaves: its new state and the progress sent to its callback. */
  datatype Execution = Execution(state: Entries, events: seq<AgentProgress>)

  /** `_execute_workflow` on a registered, non-empty state, given the analyst's run. */
  function Executed(id: string, state: Entries, run: Agents.Run<Entries>): Execution {
    var forwarded := Forwarded(id, run.events);
    match AnalystError(run.outcome)
    case Some(m) => Execution(FailedState(state, m), forwarded + [FailureEvent(id, m)])
    case None => Execution(CompletedState(state, run.outcome.value), forwarded + CompletionEvents(id))
  }

  /**
   * A successful execution forwards the analyst's reports and then exactly two
   * completed reports at 100, first the analyst's and then the workflow's; a
   * failed one forwards them and then one workflow report naming the error.
   */
  lemma ExecutedEvents(id: string, state: Entries, run: Agents.Run<Entries>)
    ensures var ex := Executed(id, state, run);
      var n := |run.events|;
      && ex.events[..n] == Forwarded(id, run.events)
      && (forall i :: 0 <= i < n ==> !ex.events[i].completed)
      && (AnalystError(run.outcome).None? ==>
            |ex.events| == n + 2
            && ex.events[n].agent == "jira-analyst" && ex.events[n + 1].agent == "workflow"
            && ex.events[n].completed && ex.events[n + 1].completed
            && ex.events[n].progress == 100 && ex.events[n + 1].progress == 100)
      && (AnalystError(run.outcome).Some? ==>
            |ex.events| == n + 1
            && ex.events[n] == AgentProgress(id, "workflow", "Workflow failed: " + AnalystError(run.outcome).value,
                                             100, true))
  {
    var ex := Executed(id, state, run);
    var n := |run.events|;
    assert ex.events[..n] == Forwarded(id, run.events);
    assert forall i :: 0 <= i < n ==> ex.events[i] == Forwarded(id, run.events)[i];
  }

  /**
   * The step every execution leaves: `completed` with the result's keys
   * merged in, or `failed` with the error recorded; either way the step is
   * one the workflow state names.
   */
  lemma ExecutedState(id: string, state: Entries, run: Agents.Run<Entries>, k: string)
    requires run.outcome.Done? ==> UniqueKeys(run.outcome.value)
    ensures var s := Executed(id, state, run).state;
      && (AnalystError(run.outcome).None? ==>
            Lookup(s, "current_step") == Some(Str("completed"))
            && Lookup(s, "currentAgent") == Some(Str("completed"))
            && (k != "current_step" && k != "currentAgent" && HasKey(run.outcome.value, k) ==>
                  Lookup(s, k) == Lookup(run.outcome.value, k)))
      && (AnalystError(run.outcome).Some? ==>
            Lookup(s, "current_step") == Some(Str("failed"))
            && Lookup(s, "error") == Some(Str(AnalystError(run.outcome).value)))
  {
    match AnalystError(run.outcome)
    case Some(m) =>
      FailedStateReads(state, m, "current_step");
      FailedStateReads(state, m, "error");
    case None =>
      CompletedStateReads(state, run.outcome.value, "current_step");
      CompletedStateReads(state, run.outcome.value, "currentAgent");
      CompletedStateReads(state, run.outcome.value, k);
  }

  /** The analyst's seven result keys are distinct. */
  lemma AnalystResultUnique(t: Jira.Ticket, excel: Option<string>, hsd: Option<string>)
    ensures UniqueKeys(Agents.AnalystResult(t, excel, hsd))
  {
    var es := Agents.AnalystResult(t, excel, hsd);
    var ks := ["jira_ticket_data", "current_step", "ticket_key", "summary", "excel_export", "hsd_ticket_key", "status"];
    assert Keys(es) == ks;
    forall i, j | 0 <= i < j < |es| ensures es[i].0 != es[j].0 {
      assert es[i].0 == ks[i] && es[j].0 == ks[j];
    }
  }

  /** A completed analyst run returns a proper dictionary. */
  lemma AnalystRunUnique(state: Entries, fetched: Option<Jira.Ticket>, fetchDetail: string,
                         exported: Option<string>, onDisk: string -> bool, hsd: Option<string>)
    ensures var run := Agents.AnalystRun(state, true, fetched, fetchDetail, exported, onDisk, hsd);
      run.outcome.Done? ==> UniqueKeys(run.outcome.value)
  {
    var run := Agents.AnalystRun(state, true, fetched, fetchDetail, exported, onDisk, hsd);
    Agents.AnalystOutcomes(state, true, fetched, fetchDetail, exported, onDisk, hsd);
    if run.outcome.Done? {
      assert run.outcome.value == Agents.AnalystResult(fetched.value, Agents.ExcelFile(exported, onDisk), hsd);
      AnalystResultUnique(fetched.value, Agents.ExcelFile(exported, onDisk), hsd);
    }
  }

  /**
   * With the analyst as it is: a ticket that cannot be fetched fails the
   * workflow with the analyst's "Unable to fetch Jira ticket" error; a
   * fetched one completes it with the ticket data stored in the state.
   */
  lemma AnalystDecidesWorkflow(id: string, state: Entries, fetched: Option<Jira.Ticket>, fetchDetail: string,
                               exported: Option<string>, onDisk: string -> bool, hsd: Option<string>)
    ensures var run := Agents.AnalystRun(state, true, fetched, fetchDetail, exported, onDisk, hsd);
      var s := Executed(id, state, run).state;
      && (run.outcome.Failed? ==>
            Lookup(s, "current_step") == Some(Str("failed"))
            && StartsWith(AnalystError(run.outcome).value,
                 "Unable to fetch Jira ticket " + PyStr(Field(state, "jira_ticket_id", Null))))
      && (fetched.None? ==> run.outcome.Failed?)
      && (run.outcome.Done? ==>
            Lookup(s, "current_step") == Some(Str("completed"))
            && Lookup(s, "jira_ticket_data") == Some(Dict(Jira.TicketDict(fetched.value))))
  {
    var run := Agents.AnalystRun(state, true, fetched, fetchDetail, exported, onDisk, hsd);
    Agents.AnalystOutcomes(state, true, fetched, fetchDetail, exported, onDisk, hsd);
    if run.outcome.Done? {
      var es := run.outcome.value;
      assert es == Agents.AnalystResult(fetched.value, Agents.ExcelFile(exported, onDisk), hsd);
      AnalystResultUnique(fetched.value, Agents.ExcelFile(exported, onDisk), hsd);
      assert AnalystError(run.outcome).None?;
      ExecutedState(id, state, run, "jira_ticket_data");
      HasKeyOf(es, 0);
    } else {
      ExecutedState(id, state, run, "current_step");
    }
  }

  lemma HasKeyOf(es: Entries, i: nat)
    requires i < |es|
    ensures HasKey(es, es[i].0)
  {
  }

  /** Every registered state has unique keys and names a known step. */
  ghost predicate WellFormed(s: Entries) {
    UniqueKeys(s) && exists step :: Lookup(s, "current_step") == Some(Str(step)) && IsStep(step)
  }

  lemma ExecutedWellFormed(id: string, state: Entries, run: Agents.Run<Entries>)
    requires UniqueKeys(state)
    requires run.outcome.Done? ==> UniqueKeys(run.outcome.value)
    ensures WellFormed(Executed(id, state, run).state)
  {
    var s := Executed(id, state, run).state;
    ExecutedState(id, state, run, "current_step");
    match AnalystError(run.outcome)
    case Some(m) =>
      WrittenStatesUnique(state, [], m);
      assert IsStep("failed");
    case None =>
      WrittenStatesUnique(state, run.outcome.value, "");
      assert IsStep("completed");
  }

  /* ---------- the engine ---------- */

  class WorkflowEngine {
    /** `active_workflows`: each workflow's state by id. */
    var workflows: map<string, Entries>
    /** `progress_callbacks`: the callback registered for a workflow, if any. */
    var callbacks: map<string, Callback>
    /** Every progress update handed to a callback, in order, with the callback that got it. */
    var delivered: seq<(Callback, AgentProgress)>

    ghost predicate Valid()
      reads this
    {
      forall id :: id in workflows ==> WellFormed(workflows[id])
    }

    constructor()
      ensures Valid() && workflows == map[] && callbacks == map[] && delivered == []
    {
      workflows := map[];
      callbacks := map[];
      delivered := [];
    }

    /**
     * `start_workflow`: register `id` (a fresh UUID in the engine) with its
     * initial state and, when one is given, its callback.
     */
    method StartWorkflow(ticketId: string, callback: Option<Callback>, id: string, startTime: string)
      returns (r: string)
      requires Valid()
      modifies this
      ensures Valid() && r == id
      ensures workflows == old(workflows)[id := InitialState(ticketId, startTime)]
      ensures callbacks == if callback.Some? then old(callbacks)[id := callback.value] else old(callbacks)
      ensures delivered == old(delivered)
    {
      var state := InitialState(ticketId, startTime);
      assert IsStep("jira_analyst");
      workflows := workflows[id := state];
      if callback.Some? {
        callbacks := callbacks[id := callback.value];
      }
      r := id;
    }

    /**
     * `_execute_workflow`: run the analyst on the workflow's state and record
     * its outcome in the state; an unknown id or an empty state does nothing.
     */
    method ExecuteWorkflow(id: string, fetched: Option<Jira.Ticket>, fetchDetail: string,
                           exported: Option<string>, onDisk: string -> bool, hsd: Option<string>)
      requires Valid()
      modifies this
      ensures Valid() && callbacks == old(callbacks)
      ensures id !in old(workflows) || |old(workflows)[id]| == 0 ==>
        workflows == old(workflows) && delivered == old(delivered)
      ensures id in old(workflows) && |old(workflows)[id]| > 0 ==>
        var ex := Executed(id, old(workflows)[id],
                           Agents.AnalystRun(old(workflows)[id], true, fetched, fetchDetail, exported, onDisk, hsd));
        && workflows == old(workflows)[id := ex.state]
        && delivered == old(delivered) + (if id in callbacks then Deliveries(callbacks[id], ex.events) else [])
    {
      if id !in workflows || |workflows[id]| == 0 {
        return;
      }
      var state := workflows[id];
      var run := Agents.AnalystRun(state, true, fetched, fetchDetail, exported, onDisk, hsd);
      AnalystRunUnique(state, fetched, fetchDetail, exported, onDisk, hsd);
      var ex := Executed(id, state, run);
      ExecutedWellFormed(id, state, run);
      workflows := workflows[id := ex.state];
      if id in callbacks {
        delivered := delivered + Deliveries(callbacks[id], ex.events);
      }
    }

    /** `get_workflow_status`: the workflow's state, `None` for an unknown id. */
    function WorkflowStatus(id: string): (r: Option<Entries>)
      reads this
      requires Valid()
      ensures r.Some? <==> id in workflows
      ensures r.Some? ==> WellFormed(r.value) && r.value == workflows[id]
    {
      if id in workflows then Some(workflows[id]) else None
    }

    /** `get_all_workflows`: a copy of the registry. */
    method AllWorkflows() returns (r: map<string, Entries>)
      ensures r == workflows
    {
      r := workflows;
    }

    /** `cleanup_workflow`: forget the workflow and its callback; other workflows stay as they were. */
    method CleanupWorkflow(id: string)
      requires Valid()
      modifies this
      ensures Valid()
      ensures workflows == old(workflows) - {id} && callbacks == old(callbacks) - {id}
      ensures delivered == old(delivered)
    {
      if id in workflows {
        workflows := workflows - {id};
      }
      if id in callbacks {
        callbacks := callbacks - {id};
      }
    }
  }

  /** The updates handed to one callback. */
  function Deliveries(cb: Callback, ps: seq<AgentProgress>): (ds: seq<(Callback, AgentProgress)>)
    ensures |ds| == |ps|
    ensures forall i :: 0 <= i < |ps| ==> ds[i] == (cb, ps[i])
  {
    seq(|ps|, i requires 0 <= i < |ps| => (cb, ps[i]))
  }
}
