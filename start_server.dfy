/*
 * The HSD server: `POST /generate-hsd` runs the Jira analyst on one ticket
 * id and keeps the ten most recent successful results, newest first, for
 * `GET /recent-hsd-tickets`.
 */
module HsdServer {
  import opened PyText
  import opened Values
  import Agents
  import Jira

  type Entries = seq<(string, Value)>

  /** How many results the server remembers. */
  const RecentLimit := 10

  const MissingId := "HSD generation failed: jira_ticket_id is required"

  /**
   * The list after a result: a result without an `error` key goes in front
   * and only the newest ten stay; one with `error` is not stored.
   */
  function Remember(recent: seq<Entries>, result: Entries): seq<Entries> {
    if HasKey(result, "error") then recent else PySliceTo([result] + recent, RecentLimit)
  }

  /**
   * A stored result is the newest entry, followed by the newest of the old
   * ones; the list never grows past ten; an error leaves it as it was.
   */
  lemma RememberNewestFirst(recent: seq<Entries>, result: Entries)
    requires |recent| <= RecentLimit
    ensures |Remember(recent, result)| <= RecentLimit
    ensures HasKey(result, "error") ==> Remember(recent, result) == recent
    ensures !HasKey(result, "error") ==>
      var r := Remember(recent, result);
      && r[0] == result
      && r[1..] == recent[..|r| - 1]
      && |r| == if |recent| < RecentLimit then |recent| + 1 else RecentLimit
  {
    if !HasKey(result, "error") {
      var r := Remember(recent, result);
      assert r == ([result] + recent)[..|r|];
      assert r[1..] == recent[..|r| - 1];
    }
  }

  /**
   * `generate_hsd`'s answer: the error for a falsy `jira_ticket_id`, or what
   * the analyst makes of `{'jira_ticket_id': id}`. `fetched`, `fetchDetail`,
   * `exported`, `onDisk` and `hsd` stand for its collaborators.
   */
  function HsdResult(request: Entries, fetched: Option<Jira.Ticket>, fetchDetail: string,
                     exported: Option<string>, onDisk: string -> bool, hsd: Option<string>): Entries
  {
    var id := Field(request, "jira_ticket_id", Null);
    if !Truthy(id) then [("error", Str(MissingId))]
    else HsdReply(Agents.AnalystRun(TicketState(id), true, fetched, fetchDetail, exported, onDisk, hsd).outcome)
  }

  /** The state the analyst is handed: `{'jira_ticket_id': id}`. */
  function TicketState(id: Value): (state: Entries)
    ensures Field(state, "jira_ticket_id", Null) == id
  {
    [("jira_ticket_id", id)]
  }

  /** The analyst's result, or its exception's text behind the server's prefix. */
  function HsdReply(o: Agents.Outcome<Entries>): Entries {
    match o
    case Failed(m) => [("error", Str("HSD generation failed: " + m))]
    case Done(result) => result
  }

  /** An exception becomes an `error` entry that keeps the exception's text after the prefix. */
  lemma HsdReplyFailed(m: string, p: string)
    requires StartsWith(m, p)
    ensures var r := HsdReply(Agents.Failed(m));
      HasKey(r, "error") && Lookup(r, "error").value.Str?
      && StartsWith(Lookup(r, "error").value.s, "HSD generation failed: " + p)
  {
    var r := HsdReply(Agents.Failed(m));
    assert r[0].0 == "error";
    var q := "HSD generation failed: " + p;
    assert ("HSD generation failed: " + m)[..|q|] == q;
  }

  /** The server's answer once the analyst has run, in terms of what the analyst promises. */
  lemma HsdReplyOutcome(o: Agents.Outcome<Entries>, p: string, fetched: Option<Jira.Ticket>)
    requires fetched.None? ==> o.Failed?
    requires o.Failed? ==> StartsWith(o.error, p)
    requires o.Done? ==>
      && fetched.Some? && !HasKey(o.value, "error")
      && Lookup(o.value, "jira_ticket_data") == Some(Dict(Jira.TicketDict(fetched.value)))
    ensures var r := HsdReply(o);
      && (fetched.None? ==>
            HasKey(r, "error") && Lookup(r, "error").value.Str?
            && StartsWith(Lookup(r, "error").value.s, "HSD generation failed: " + p))
      && (!HasKey(r, "error") ==>
            fetched.Some? && Lookup(r, "jira_ticket_data") == Some(Dict(Jira.TicketDict(fetched.value))))
  {
    if o.Failed? {
      HsdReplyFailed(o.error, p);
    }
  }

  /**
   * Without a ticket id the answer is the fixed error; an answer without
   * `error` comes from a fetched ticket and holds its data.
   */
  lemma HsdOutcomes(request: Entries, fetched: Option<Jira.Ticket>, fetchDetail: string,
                    exported: Option<string>, onDisk: string -> bool, hsd: Option<string>)
    ensures var id := Field(request, "jira_ticket_id", Null);
      var r := HsdResult(request, fetched, fetchDetail, exported, onDisk, hsd);
      && (!Truthy(id) ==> r == [("error", Str(MissingId))])
      && (Truthy(id) && !HasKey(r, "error") ==>
            fetched.Some? && Lookup(r, "jira_ticket_data") == Some(Dict(Jira.TicketDict(fetched.value))))
  {
    var id := Field(request, "jira_ticket_id", Null);
    if Truthy(id) {
      HsdAnalystAnswer(TicketState(id), fetched, fetchDetail, exported, onDisk, hsd, PyStr(id));
    }
  }

  /**
   * A ticket that cannot be fetched gives an error naming it (`ticket` is
   * the id as `str()` shows it).
   */
  lemma HsdUnfetched(request: Entries, fetchDetail: string, exported: Option<string>, onDisk: string -> bool,
                     hsd: Option<string>, ticket: string)
    requires Truthy(Field(request, "jira_ticket_id", Null))
    requires ticket == PyStr(Field(request, "jira_ticket_id", Null))
    ensures var r := HsdResult(request, None, fetchDetail, exported, onDisk, hsd);
      HasKey(r, "error") && Lookup(r, "error").value.Str?
      && StartsWith(Lookup(r, "error").value.s, "HSD generation failed: " + ("Unable to fetch Jira ticket " + ticket))
  {
    HsdAnalystAnswer(TicketState(Field(request, "jira_ticket_id", Null)), None, fetchDetail, exported, onDisk, hsd, ticket);
  }

  /** What the server answers once the analyst has run on a state. */
  lemma HsdAnalystAnswer(state: Entries, fetched: Option<Jira.Ticket>, fetchDetail: string,
                         exported: Option<string>, onDisk: string -> bool, hsd: Option<string>, ticket: string)
    requires ticket == PyStr(Field(state, "jira_ticket_id", Null))
    ensures var r := HsdReply(Agents.AnalystRun(state, true, fetched, fetchDetail, exported, onDisk, hsd).outcome);
      && (fetched.None? ==>
            HasKey(r, "error") && Lookup(r, "error").value.Str?
            && StartsWith(Lookup(r, "error").value.s, "HSD generation failed: " + ("Unable to fetch Jira ticket " + ticket)))
      && (!HasKey(r, "error") ==>
            fetched.Some? && Lookup(r, "jira_ticket_data") == Some(Dict(Jira.TicketDict(fetched.value))))
  {
    Agents.AnalystOutcomes(state, true, fetched, fetchDetail, exported, onDisk, hsd);
    var run := Agents.AnalystRun(state, true, fetched, fetchDetail, exported, onDisk, hsd);
    HsdReplyOutcome(run.outcome, "Unable to fetch Jira ticket " + ticket, fetched);
  }

  class HsdService {
    /** `recent_hsd_tickets`: the stored results, newest first. */
    var recent: seq<Entries>

    ghost predicate Valid()
      reads this
    {
      |recent| <= RecentLimit
    }

    constructor()
      ensures Valid() && recent == []
    {
      recent := [];
    }

    /** `generate_hsd`: answer the request and remember a result without `error`. */
    method GenerateHsd(request: Entries, fetched: Option<Jira.Ticket>, fetchDetail: string,
                       exported: Option<string>, onDisk: string -> bool, hsd: Option<string>)
      returns (r: Entries)
      requires Valid()
      modifies this
      ensures Valid()
      ensures r == HsdResult(request, fetched, fetchDetail, exported, onDisk, hsd)
      ensures recent == if !Truthy(Field(request, "jira_ticket_id", Null)) then old(recent)
                        else Remember(old(recent), r)
    {
      var id := Field(request, "jira_ticket_id", Null);
      if !Truthy(id) {
        return [("error", Str(MissingId))];
      }
      var run := Agents.AnalystRun(TicketState(id), true, fetched, fetchDetail, exported, onDisk, hsd);
      if run.outcome.Failed? {
        r := [("error", Str("HSD generation failed: " + run.outcome.error))];
        assert r[0].0 == "error";
        return;
      }
      r := run.outcome.value;
      RememberNewestFirst(recent, r);
      if !HasKey(r, "error") {
        recent := [r] + recent;
        recent := PySliceTo(recent, RecentLimit);
      }
    }

    /** `get_recent_hsd_tickets`: the stored results, newest first. */
    method RecentHsdTickets() returns (r: seq<Entries>)
      requires Valid()
      ensures r == recent && |r| <= RecentLimit
    {
      r := recent;
    }
  }
}
