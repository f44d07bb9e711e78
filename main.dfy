/*
 * The HTTP front of the agents: the websocket connection list that progress
 * updates are broadcast to, and the results of the start and status
 * endpoints. A socket's `send_text` succeeding or raising is a parameter
 * (`reachable`); the JSON text sent is the message value itself.
 */
module Server {
  import opened PyText
  import opened Values
  import opened Schema
  import Engine

  type Entries = seq<(string, Value)>

  /** An accepted websocket. */
  datatype Socket = Socket(handle: nat)

  /* ---------- the connection list ---------- */

  /** `list.remove(x)` guarded by `x in list`: drop the first occurrence, if any. */
  function RemoveFirst(cs: seq<Socket>, x: Socket): (r: seq<Socket>)
    ensures x !in cs ==> r == cs
    ensures x in cs ==> |r| == |cs| - 1 && multiset(r) == multiset(cs) - multiset{x}
  {
    if |cs| == 0 then cs
    else
      assert cs == [cs[0]] + cs[1..];
      if cs[0] == x then cs[1..] else [cs[0]] + RemoveFirst(cs[1..], x)
  }

  /** The first occurrence is the one removed: what precedes it stays, then what follows. */
  lemma {:induction false} RemoveFirstAt(cs: seq<Socket>, x: Socket, i: nat)
    requires i < |cs| && cs[i] == x && x !in cs[..i]
    ensures RemoveFirst(cs, x) == cs[..i] + cs[i + 1..]
  {
    if i > 0 {
      var tail := cs[1..];
      assert cs[..i] == [cs[0]] + tail[..i - 1];
      assert cs[0] != x;
      RemoveFirstAt(tail, x, i - 1);
      assert tail[i..] == cs[i + 1..];
    }
  }

  /** The `disconnect` calls after a broadcast, one per failed connection, in order. */
  function RemoveEach(cs: seq<Socket>, xs: seq<Socket>): seq<Socket>
    decreases |xs|
  {
    if |xs| == 0 then cs else RemoveEach(RemoveFirst(cs, xs[0]), xs[1..])
  }

  lemma {:induction false} RemoveEachSnoc(cs: seq<Socket>, xs: seq<Socket>, y: Socket)
    ensures RemoveEach(cs, xs + [y]) == RemoveFirst(RemoveEach(cs, xs), y)
    decreases |xs|
  {
    if |xs| > 0 {
      assert (xs + [y])[1..] == xs[1..] + [y];
      RemoveEachSnoc(RemoveFirst(cs, xs[0]), xs[1..], y);
    }
  }

  /** The connections whose send succeeded, in list order. */
  function Reached(cs: seq<Socket>, reachable: Socket -> bool): seq<Socket> {
    if |cs| == 0 then [] else (if reachable(cs[0]) then [cs[0]] else []) + Reached(cs[1..], reachable)
  }

  /** The connections whose send raised, in list order: the `disconnected` list. */
  function Unreached(cs: seq<Socket>, reachable: Socket -> bool): seq<Socket> {
    if |cs| == 0 then [] else (if reachable(cs[0]) then [] else [cs[0]]) + Unreached(cs[1..], reachable)
  }

  lemma {:induction false} UnreachedSnoc(cs: seq<Socket>, c: Socket, reachable: Socket -> bool)
    ensures Unreached(cs + [c], reachable) == Unreached(cs, reachable) + (if reachable(c) then [] else [c])
  {
    if |cs| > 0 {
      assert (cs + [c])[1..] == cs[1..] + [c];
      UnreachedSnoc(cs[1..], c, reachable);
    } else {
      assert (cs + [c])[1..] == [];
    }
  }

  lemma {:induction false} UnreachedAreUnreachable(cs: seq<Socket>, reachable: Socket -> bool)
    ensures forall x :: x in Unreached(cs, reachable) ==> !reachable(x)
  {
    if |cs| > 0 {
      UnreachedAreUnreachable(cs[1..], reachable);
    }
  }

  /** Removing sockets that are not at the head leaves the head in place. */
  lemma {:induction false} RemoveEachKeepsHead(c: Socket, rest: seq<Socket>, xs: seq<Socket>)
    requires c !in xs
    ensures RemoveEach([c] + rest, xs) == [c] + RemoveEach(rest, xs)
    decreases |xs|
  {
    if |xs| > 0 {
      assert RemoveFirst([c] + rest, xs[0]) == [c] + RemoveFirst(rest, xs[0]) by {
        assert ([c] + rest)[1..] == rest;
      }
      RemoveEachKeepsHead(c, RemoveFirst(rest, xs[0]), xs[1..]);
    }
  }

  /**
   * Pruning after a broadcast removes exactly the connections whose send
   * failed; the others keep their relative order. This holds even when a
   * socket is listed twice, since both of its sends fail alike.
   */
  lemma {:induction false} PruneKeepsReached(cs: seq<Socket>, reachable: Socket -> bool)
    ensures RemoveEach(cs, Unreached(cs, reachable)) == Reached(cs, reachable)
  {
    if |cs| > 0 {
      var c, rest := cs[0], cs[1..];
      assert cs == [c] + rest;
      PruneKeepsReached(rest, reachable);
      if reachable(c) {
        UnreachedAreUnreachable(rest, reachable);
        assert Unreached(cs, reachable) == Unreached(rest, reachable);
        RemoveEachKeepsHead(c, rest, Unreached(rest, reachable));
      } else {
        assert Unreached(cs, reachable) == [c] + Unreached(rest, reachable);
        assert RemoveFirst(cs, c) == rest;
        assert ([c] + Unreached(rest, reachable))[1..] == Unreached(rest, reachable);
      }
    }
  }

  /** What each connection received during one broadcast. */
  function Sent(cs: seq<Socket>, message: Value): (ms: seq<(Socket, Value)>)
    ensures |ms| == |cs|
    ensures forall i :: 0 <= i < |cs| ==> ms[i] == (cs[i], message)
  {
    seq(|cs|, i requires 0 <= i < |cs| => (cs[i], message))
  }

  lemma SentSnoc(cs: seq<Socket>, c: Socket, message: Value)
    ensures Sent(cs + [c], message) == Sent(cs, message) + [(c, message)]
  {
  }

  class ConnectionManager {
    /** `active_connections`, in the order they connected. */
    var connections: seq<Socket>
    /** Every `send_text` attempted, in order, with the message. */
    var attempts: seq<(Socket, Value)>

    constructor()
      ensures connections == [] && attempts == []
    {
      connections := [];
      attempts := [];
    }

    /** `connect`: the accepted socket joins the end of the list. */
    method Connect(ws: Socket)
      modifies this
      ensures connections == old(connections) + [ws] && attempts == old(attempts)
    {
      connections := connections + [ws];
    }

    /** `disconnect`: drop the socket's first occurrence; an absent socket changes nothing. */
    method Disconnect(ws: Socket)
      modifies this
      ensures connections == RemoveFirst(old(connections), ws) && attempts == old(attempts)
    {
      if ws in connections {
        var i := 0;
        while connections[i] != ws
          invariant 0 <= i < |connections| && ws in connections[i..] && ws !in connections[..i]
          decreases |connections| - i
        {
          assert connections[i..] == [connections[i]] + connections[i + 1..];
          assert connections[..i + 1] == connections[..i] + [connections[i]];
          i := i + 1;
        }
        RemoveFirstAt(connections, ws, i);
        connections := connections[..i] + connections[i + 1..];
      }
    }

    /**
     * `broadcast`: send the message to every connection once, in list
     * order, then disconnect those whose send raised. Afterwards exactly the
     * reachable connections remain, in their order.
     */
    method Broadcast(message: Value, reachable: Socket -> bool)
      modifies this
      ensures attempts == old(attempts) + Sent(old(connections), message)
      ensures connections == Reached(old(connections), reachable)
    {
      var cs := connections;
      var disconnected := [];
      var i := 0;
      while i < |cs|
        invariant 0 <= i <= |cs| && connections == cs
        invariant attempts == old(attempts) + Sent(cs[..i], message)
        invariant disconnected == Unreached(cs[..i], reachable)
      {
        TakeSnoc(cs, i);
        UnreachedSnoc(cs[..i], cs[i], reachable);
        SentSnoc(cs[..i], cs[i], message);
        SeqAssoc(old(attempts), Sent(cs[..i], message), [(cs[i], message)]);
        attempts := attempts + [(cs[i], message)];
        if !reachable(cs[i]) {
          disconnected := disconnected + [cs[i]];
        }
        i := i + 1;
      }
      assert cs[..i] == cs;
      var j := 0;
      while j < |disconnected|
        invariant 0 <= j <= |disconnected|
        invariant connections == RemoveEach(cs, disconnected[..j])
        invariant attempts == old(attempts) + Sent(cs, message)
      {
        TakeSnoc(disconnected, j);
        RemoveEachSnoc(cs, disconnected[..j], disconnected[j]);
        Disconnect(disconnected[j]);
        j := j + 1;
      }
      assert disconnected[..j] == disconnected;
      PruneKeepsReached(cs, reachable);
    }
  }

  /* ---------- the endpoints ---------- */

  /** The broadcast a workflow's progress callback sends. */
  function ProgressMessage(p: AgentProgress): (v: Value)
    ensures v.Dict? && Keys(v.entries) == ["type", "workflow_id", "agent", "message", "progress", "completed"]
    ensures Lookup(v.entries, "type") == Some(Str("agent_progress"))
    ensures Lookup(v.entries, "completed") == Some(Bool(p.completed))
  {
    var es := [("type", Str("agent_progress")),
               ("workflow_id", Str(p.workflowId)),
               ("agent", Str(p.agent)),
               ("message", Str(p.message)),
               ("progress", Int(p.progress)),
               ("completed", Bool(p.completed))];
    LookupAt(es, 0);
    LookupAt(es, 5);
    Dict(es)
  }

  /** The broadcast announcing a started workflow. */
  function StartedMessage(id: string, ticketId: string): (v: Value)
    ensures v.Dict? && Lookup(v.entries, "type") == Some(Str("python_workflow_started"))
    ensures Lookup(v.entries, "workflow_id") == Some(Str(id))
    ensures Lookup(v.entries, "jira_ticket_id") == Some(Str(ticketId))
  {
    var es := [("type", Str("python_workflow_started")),
               ("workflow_id", Str(id)),
               ("jira_ticket_id", Str(ticketId)),
               ("engine_type", Str("python-langchain"))];
    LookupAt(es, 0);
    LookupAt(es, 1);
    LookupAt(es, 2);
    Dict(es)
  }

  /** The answer of the status endpoint: a 404 detail, or the body. */
  datatype Reply = NotFound(detail: string) | Body(value: Value)

  /**
   * `GET /workflow/{id}`: 404 for an unknown id or an empty state; otherwise
   * the id, the state's `current_step` (`unknown` when absent) and the state.
   */
  function StatusReply(id: string, state: Option<Entries>): (r: Reply)
    ensures r.NotFound? <==> state.None? || |state.value| == 0
    ensures r.NotFound? ==> r.detail == "Workflow not found"
    ensures r.Body? ==>
      && r.value.Dict?
      && Lookup(r.value.entries, "workflow_id") == Some(Str(id))
      && Lookup(r.value.entries, "status") == Some(GetOr(Lookup(state.value, "current_step"), Str("unknown")))
      && Lookup(r.value.entries, "state") == Some(Dict(state.value))
  {
    if state.None? || |state.value| == 0 then NotFound("Workflow not found")
    else
      var es := [("workflow_id", Str(id)),
                 ("status", Field(state.value, "current_step", Str("unknown"))),
                 ("state", Dict(state.value))];
      LookupAt(es, 0);
      LookupAt(es, 1);
      LookupAt(es, 2);
      Body(Dict(es))
  }

  /** A registered workflow's status reads the step its state names. */
  lemma StatusOfRegistered(id: string, state: Entries, step: string)
    requires Lookup(state, "current_step") == Some(Str(step))
    ensures StatusReply(id, Some(state)).Body?
    ensures Lookup(StatusReply(id, Some(state)).value.entries, "status") == Some(Str(step))
  {

  }

  /**
   * `POST /workflow/start`: start the workflow with a callback that
   * broadcasts its progress, announce it, and answer `started` at the
   * `jira_analyst` step.
   */
  method StartEndpoint(engine: Engine.WorkflowEngine, manager: ConnectionManager, request: WorkflowRequest,
                       callback: Engine.Callback, id: string, startTime: string, reachable: Socket -> bool)
    returns (r: WorkflowResponse)
    requires engine.Valid()
    modifies engine, manager
    ensures engine.Valid()
    ensures engine.workflows == old(engine.workflows)[id := Engine.InitialState(request.jiraTicketId, startTime)]
    ensures engine.callbacks == old(engine.callbacks)[id := callback]
    ensures manager.attempts ==
      old(manager.attempts) + Sent(old(manager.connections), StartedMessage(id, request.jiraTicketId))
    ensures manager.connections == Reached(old(manager.connections), reachable)
    ensures r == WorkflowResponse(id, "started", "Python LangChain workflow started for " + request.jiraTicketId,
                                  Some("jira_analyst"), None)
  {
    var workflowId := engine.StartWorkflow(request.jiraTicketId, Some(callback), id, startTime);
    manager.Broadcast(StartedMessage(workflowId, request.jiraTicketId), reachable);
    r := WorkflowResponse(workflowId, "started", "Python LangChain workflow started for " + request.jiraTicketId,
                          Some("jira_analyst"), None);
  }

  /** A started workflow is at once visible to the status endpoint at its first step. */
  lemma StartedThenStatus(ticketId: string, startTime: string, id: string)
    ensures StatusReply(id, Some(Engine.InitialState(ticketId, startTime))).Body?
    ensures Lookup(StatusReply(id, Some(Engine.InitialState(ticketId, startTime))).value.entries, "status")
            == Some(Str("jira_analyst"))
  {
    StatusOfRegistered(id, Engine.InitialState(ticketId, startTime), "jira_analyst");
  }
}
