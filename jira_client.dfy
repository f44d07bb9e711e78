/*
 * The Jira client's own logic, around the HTTP calls it makes: the ticket
 * record and its `dict()`, the parse of the REST API's issue JSON into that
 * record, the HSD and DATADEV description texts, the HSD creation payload
 * and the exception `get_ticket` raises.
 *
 * Every Python exception these functions can raise on odd JSON (a `.get` on
 * a non-dict, iterating `None`, joining non-strings, ...) is caught by the
 * caller and turned into "no result", so each is modelled as `None`.
 */
module Jira {
  import opened PyText
  import opened Values

  /* ---------- dynamic-value helpers ---------- */

  /** The strings of a list of values, or None when one is not a string. */
  function Strs(vs: seq<Value>): (r: Option<seq<string>>)
    ensures r.Some? <==> forall i :: 0 <= i < |vs| ==> vs[i].Str?
    ensures r.Some? ==> |r.value| == |vs| && forall i :: 0 <= i < |vs| ==> r.value[i] == vs[i].s
  {
    if forall i :: 0 <= i < |vs| ==> vs[i].Str? then Some(seq(|vs|, i requires 0 <= i < |vs| => vs[i].s)) else None
  }

  /** `sep.join(v)`: TypeError unless `v` is iterable and yields only strings. */
  function JoinValue(v: Value, sep: string): Option<string> {
    match Items(v)
    case None => None
    case Some(xs) => match Strs(xs) case None => None case Some(ss) => Some(Join(ss, sep))
  }

  /**
   * `out = []; for x in xs: out.append(f(x))`, where `f` raising ends the
   * whole parse: the result of the loop over all of `xs`.
   */
  function AllOf<T>(xs: seq<Value>, f: Value -> Option<T>): Option<seq<T>> {
    if |xs| == 0 then Some([])
    else match AllOf(xs[..|xs| - 1], f)
      case None => None
      case Some(init) => match f(xs[|xs| - 1]) case None => None case Some(y) => Some(init + [y])
  }

  /** The loop succeeds iff every item converts, and then keeps one entry per item, in order. */
  lemma {:induction false} AllOfEach<T>(xs: seq<Value>, f: Value -> Option<T>)
    ensures AllOf(xs, f).Some? <==> forall i :: 0 <= i < |xs| ==> f(xs[i]).Some?
    ensures AllOf(xs, f).Some? ==>
      |AllOf(xs, f).value| == |xs| && forall i :: 0 <= i < |xs| ==> AllOf(xs, f).value[i] == f(xs[i]).value
  {
    if |xs| > 0 {
      var init := xs[..|xs| - 1];
      AllOfEach(init, f);
      assert forall i :: 0 <= i < |init| ==> init[i] == xs[i];
    }
  }

  method CollectAll<T>(xs: seq<Value>, f: Value -> Option<T>) returns (r: Option<seq<T>>)
    ensures r == AllOf(xs, f)
  {
    var out: seq<T> := [];
    var i := 0;
    while i < |xs|
      invariant 0 <= i <= |xs|
      invariant AllOf(xs[..i], f) == Some(out)
    {
      assert xs[..i + 1][..i] == xs[..i];
      var y := f(xs[i]);
      if y.None? {
        AllOfEach(xs[..i + 1], f);
        AllOfEach(xs, f);
        assert xs[..i + 1][i] == xs[i];
        return None;
      }
      out := out + [y.value];
      i := i + 1;
    }
    assert xs[..i] == xs;
    return Some(out);
  }

  /* ---------- the ticket record ---------- */

  datatype Component = Component(id: Value, name: Value, description: Value)

  datatype Comment = Comment(id: Value, author: Value, body: string, created: Value, updated: Value, authorName: Value)

  datatype Attachment = Attachment(
    id: Value, filename: Value, size: Value, mimeType: Value, created: Value, author: Value, url: string)

  /**
   * `JiraTicketData`: the nineteen declared fields, then the five attributes
   * the parser sets on the object afterwards.
   */
  datatype Ticket = Ticket(
    key: Value, summary: Value, description: Value, status: Value, priority: Value,
    assignee: Value, reporter: Value, created: Value, updated: Value, labels: Value,
    components: seq<Component>, attachments: seq<Attachment>, comments: seq<Comment>,
    issuetype: Value, project: Value, environment: Value, duedate: Value, epicLink: Value, sprint: string,
    storyPoints: Value, deliveryPage: Value, valueStream: Value, resolution: Value, currentPriority: Value)

  const DeclaredFields: seq<string> := [
    "key", "summary", "description", "status", "priority", "assignee", "reporter", "created", "updated",
    "labels", "components", "attachments", "comments", "issuetype", "project", "environment", "duedate",
    "epic_link", "sprint"]

  function ComponentValue(c: Component): Value {
    Dict([("id", c.id), ("name", c.name), ("description", c.description)])
  }

  function CommentValue(c: Comment): Value {
    Dict([("id", c.id), ("author", c.author), ("body", Str(c.body)), ("created", c.created),
          ("updated", c.updated), ("author_name", c.authorName)])
  }

  function AttachmentValue(a: Attachment): Value {
    Dict([("id", a.id), ("filename", a.filename), ("size", a.size), ("mimeType", a.mimeType),
          ("created", a.created), ("author", a.author), ("url", Str(a.url))])
  }

  /** `JiraTicketData.dict()`. */
  function TicketDict(t: Ticket): seq<(string, Value)> {
    [("key", t.key), ("summary", t.summary), ("description", t.description), ("status", t.status),
     ("priority", t.priority), ("assignee", t.assignee), ("reporter", t.reporter), ("created", t.created),
     ("updated", t.updated), ("labels", t.labels),
     ("components", List(seq(|t.components|, i requires 0 <= i < |t.components| => ComponentValue(t.components[i])))),
     ("attachments", List(seq(|t.attachments|, i requires 0 <= i < |t.attachments| => AttachmentValue(t.attachments[i])))),
     ("comments", List(seq(|t.comments|, i requires 0 <= i < |t.comments| => CommentValue(t.comments[i])))),
     ("issuetype", t.issuetype), ("project", t.project), ("environment", t.environment),
     ("duedate", t.duedate), ("epic_link", t.epicLink), ("sprint", Str(t.sprint))]
  }

  /** `dict()` yields exactly the declared fields, in declaration order, each once. */
  lemma TicketDictFields(t: Ticket)
    ensures Keys(TicketDict(t)) == DeclaredFields
    ensures UniqueKeys(TicketDict(t))
  {
    var d := TicketDict(t);
    assert Keys(d) == DeclaredFields;
    forall i, j | 0 <= i < j < |d| ensures d[i].0 != d[j].0 {
      assert d[i].0 == DeclaredFields[i] && d[j].0 == DeclaredFields[j];
    }
  }

  /** The attributes the parser adds after construction are not in `dict()`; declared fields map to the record's. */
  lemma TicketDictOmitsExtras(t: Ticket)
    ensures !HasKey(TicketDict(t), "story_points") && !HasKey(TicketDict(t), "resolution")
    ensures Lookup(TicketDict(t), "key") == Some(t.key) && Lookup(TicketDict(t), "sprint") == Some(Str(t.sprint))
  {
    var d := TicketDict(t);
    TicketDictFields(t);
    forall i | 0 <= i < |d| ensures d[i].0 != "story_points" && d[i].0 != "resolution" {
      assert d[i].0 == DeclaredFields[i];
    }
    LookupAt(d, 0);
    LookupAt(d, 18);
  }

  /* ---------- parsing the issue JSON ---------- */

  /** `s.replace('\r\n', '\n').replace('\r', '\n')`. */
  function Normalize(s: string): (r: string)
    ensures Lacks(r, '\r')
  {
    ReplaceCharRemoves(Replace(s, "\r\n", "\n"), '\r', "\n");
    Replace(Replace(s, "\r\n", "\n"), "\r", "\n")
  }

  function ComponentOf(c: Value): Option<Component> {
    if !c.Dict? then None
    else Some(Component(Field(c.entries, "id", Str("")), Field(c.entries, "name", Str("")),
                        Field(c.entries, "description", Str(""))))
  }

  /** A comment needs a dict author (for its display name) and a string body. */
  function CommentOf(c: Value): (r: Option<Comment>)
    ensures r.Some? ==> Lacks(r.value.body, '\r')
  {
    if !c.Dict? then None
    else
      var author := Field(c.entries, "author", Dict([]));
      var body := Field(c.entries, "body", Str(""));
      if !author.Dict? || !body.Str? then None
      else Some(Comment(Field(c.entries, "id", Str("")), author, Normalize(body.s),
                        Field(c.entries, "created", Str("")), Field(c.entries, "updated", Str("")),
                        Field(author.entries, "displayName", Str("Unknown"))))
  }

  const AttachmentUrlPrefix: string := "https://jira.telekom.de/secure/attachment/"

  function AttachmentOf(a: Value): (r: Option<Attachment>)
    ensures r.Some? ==> r.value.url == AttachmentUrlPrefix + PyStr(r.value.id) + "/" + PyStr(r.value.filename)
  {
    if !a.Dict? then None
    else
      var id := Field(a.entries, "id", Str(""));
      var filename := Field(a.entries, "filename", Str(""));
      Some(Attachment(id, filename, Field(a.entries, "size", Int(0)), Field(a.entries, "mimeType", Str("")),
                      Field(a.entries, "created", Str("")), Field(a.entries, "author", Dict([])),
                      AttachmentUrlPrefix + PyStr(id) + "/" + PyStr(filename)))
  }

  /**
   * What the comment loop iterates: `fields['comment']['comments']` when
   * both `in` tests pass, nothing otherwise. An `in` test on a non-container
   * raises, and so does indexing a list or string by a string key.
   */
  function CommentItems(fields: seq<(string, Value)>): Option<seq<Value>> {
    if !HasKey(fields, "comment") then Some([])
    else match Lookup(fields, "comment").value
      case Dict(es) => if HasKey(es, "comments") then Items(Lookup(es, "comments").value) else Some([])
      case List(xs) => if Str("comments") in xs then None else Some([])
      case Str(s) => if Contains(s, "comments") then None else Some([])
      case _ => None
  }

  /** `x.get('name', '')` on a value that must be a dict, as for `status` and `priority`. */
  function NameOf(v: Value): Option<Value> {
    if v.Dict? then Some(Field(v.entries, "name", Str(""))) else None
  }

  /** The description, falling back to the summary when falsy, normalised when truthy (which needs a string). */
  function DescriptionOf(fields: seq<(string, Value)>): Option<Value> {
    var d := Field(fields, "description", Str(""));
    var d' := if Truthy(d) then d else Field(fields, "summary", Str(""));
    if !Truthy(d') then Some(d')
    else if d'.Str? then Some(Str(Normalize(d'.s)))
    else None
  }

  /** `str(fields['customfield_10015'])` when present and truthy, else "". */
  function SprintOf(fields: seq<(string, Value)>): string {
    if HasKey(fields, "customfield_10015") && Truthy(Lookup(fields, "customfield_10015").value)
    then PyStr(Lookup(fields, "customfield_10015").value)
    else ""
  }

  /** The resolution's name when the resolution is truthy (it must then be a dict), else "". */
  function ResolutionOf(fields: seq<(string, Value)>): Option<Value> {
    var r := Field(fields, "resolution", Null);
    if !Truthy(r) then Some(Str("")) else NameOf(r)
  }

  /** `_parse_ticket_data` as a whole; None where it would raise. */
  function TicketOf(data: Value): Option<Ticket> {
    if !data.Dict? then None
    else
      var fieldsValue := Field(data.entries, "fields", Dict([]));
      if !fieldsValue.Dict? then None
      else
        var fields := fieldsValue.entries;
        var compItems := Items(Field(fields, "components", List([])));
        var commentItems := CommentItems(fields);
        var attItems := Items(Field(fields, "attachment", List([])));
        if compItems.None? || commentItems.None? || attItems.None? then None
        else
          var components := AllOf(compItems.value, ComponentOf);
          var comments := AllOf(commentItems.value, CommentOf);
          var attachments := AllOf(attItems.value, AttachmentOf);
          var description := DescriptionOf(fields);
          var status := NameOf(Field(fields, "status", Dict([])));
          var priority := NameOf(Field(fields, "priority", Dict([])));
          var resolution := ResolutionOf(fields);
          if components.None? || comments.None? || attachments.None? || description.None?
             || status.None? || priority.None? || resolution.None? then None
          else Some(Ticket(
            Field(data.entries, "key", Str("")), Field(fields, "summary", Str("")), description.value,
            status.value, priority.value, Field(fields, "assignee", Dict([])), Field(fields, "reporter", Dict([])),
            Field(fields, "created", Str("")), Field(fields, "updated", Str("")), Field(fields, "labels", List([])),
            components.value, attachments.value, comments.value,
            Field(fields, "issuetype", Dict([])), Field(fields, "project", Dict([])),
            Field(fields, "environment", Str("")), Field(fields, "duedate", Null),
            Field(fields, "customfield_10014", Str("")), SprintOf(fields),
            Field(fields, "customfield_10002", Str("")), Field(fields, "customfield_10501", Str("")),
            Field(fields, "customfield_10502", Str("")), resolution.value, Field(fields, "customfield_10003", Str(""))))
  }

  /** The parser: three append loops, then the record and the attributes set on it. */
  method ParseTicketData(data: Value) returns (r: Option<Ticket>)
    ensures r == TicketOf(data)
  {
    if !data.Dict? {
      return None;
    }
    var fieldsValue := Field(data.entries, "fields", Dict([]));
    if !fieldsValue.Dict? {
      return None;
    }
    var fields := fieldsValue.entries;
    var compItems := Items(Field(fields, "components", List([])));
    if compItems.None? {
      return None;
    }
    var components := CollectAll(compItems.value, ComponentOf);
    var commentItems := CommentItems(fields);
    if components.None? || commentItems.None? {
      return None;
    }
    var comments := CollectAll(commentItems.value, CommentOf);
    var attItems := Items(Field(fields, "attachment", List([])));
    if comments.None? || attItems.None? {
      return None;
    }
    var attachments := CollectAll(attItems.value, AttachmentOf);
    var description := DescriptionOf(fields);
    var status := NameOf(Field(fields, "status", Dict([])));
    var priority := NameOf(Field(fields, "priority", Dict([])));
    var resolution := ResolutionOf(fields);
    if attachments.None? || description.None? || status.None? || priority.None? || resolution.None? {
      return None;
    }
    r := Some(Ticket(
      Field(data.entries, "key", Str("")), Field(fields, "summary", Str("")), description.value,
      status.value, priority.value, Field(fields, "assignee", Dict([])), Field(fields, "reporter", Dict([])),
      Field(fields, "created", Str("")), Field(fields, "updated", Str("")), Field(fields, "labels", List([])),
      components.value, attachments.value, comments.value,
      Field(fields, "issuetype", Dict([])), Field(fields, "project", Dict([])),
      Field(fields, "environment", Str("")), Field(fields, "duedate", Null),
      Field(fields, "customfield_10014", Str("")), SprintOf(fields),
      Field(fields, "customfield_10002", Str("")), Field(fields, "customfield_10501", Str("")),
      Field(fields, "customfield_10502", Str("")), resolution.value, Field(fields, "customfield_10003", Str(""))));
  }

  /** The `fields` dict of the issue JSON, or no entries where the parse fails before reaching it. */
  function FieldsOf(data: Value): seq<(string, Value)> {
    if data.Dict? && Field(data.entries, "fields", Dict([])).Dict? then Field(data.entries, "fields", Dict([])).entries
    else []
  }

  /**
   * The description is the JSON description when truthy, and otherwise
   * falls back to the summary; a string one is normalised, and after that
   * neither it nor any comment body holds a carriage return.
   */
  lemma ParsedDescription(data: Value)
    requires TicketOf(data).Some?
    ensures var t := TicketOf(data).value;
      var d := Field(FieldsOf(data), "description", Str(""));
      (Truthy(d) ==> d.Str? && t.description == Str(Normalize(d.s)))
      && (!Truthy(d) && Truthy(t.summary) ==> t.summary.Str? && t.description == Str(Normalize(t.summary.s)))
      && (!Truthy(d) && !Truthy(t.summary) ==> t.description == t.summary)
    ensures var t := TicketOf(data).value;
      t.description.Str? ==> Lacks(t.description.s, '\r')
  {
    var fields := FieldsOf(data);
    assert TicketOf(data).value.description == DescriptionOf(fields).value;
    assert TicketOf(data).value.summary == Field(fields, "summary", Str(""));
  }

  /** Every comment body is normalised: no carriage return is left. */
  lemma ParsedCommentBodies(data: Value)
    requires TicketOf(data).Some?
    ensures var t := TicketOf(data).value;
      forall i :: 0 <= i < |t.comments| ==> Lacks(t.comments[i].body, '\r')
  {
    var items := CommentItems(FieldsOf(data)).value;
    AllOfEach(items, CommentOf);
    assert TicketOf(data).value.comments == AllOf(items, CommentOf).value;
  }

  /**
   * Components, comments and attachments keep the JSON's order, one entry
   * each, with `''` for a missing subfield (`0` for a size); comments are
   * read only when `fields['comment']` has a `comments` entry; each
   * attachment's url is built from its id and file name.
   */
  lemma ParsedLists(data: Value)
    requires TicketOf(data).Some?
    ensures var t := TicketOf(data).value;
      var fields := FieldsOf(data);
      var comps := Items(Field(fields, "components", List([]))).value;
      |t.components| == |comps|
      && forall i :: 0 <= i < |comps| ==>
           comps[i].Dict? && t.components[i].name == Field(comps[i].entries, "name", Str(""))
           && (!HasKey(comps[i].entries, "id") ==> t.components[i].id == Str(""))
    ensures var t := TicketOf(data).value;
      var atts := Items(Field(FieldsOf(data), "attachment", List([]))).value;
      |t.attachments| == |atts|
      && forall i :: 0 <= i < |atts| ==>
           atts[i].Dict? && t.attachments[i].filename == Field(atts[i].entries, "filename", Str(""))
           && (!HasKey(atts[i].entries, "size") ==> t.attachments[i].size == Int(0))
           && t.attachments[i].url == AttachmentUrlPrefix + PyStr(t.attachments[i].id) + "/" + PyStr(t.attachments[i].filename)
    ensures var t := TicketOf(data).value;
      !HasKey(FieldsOf(data), "comment") ==> t.comments == []
  {
    var fields := FieldsOf(data);
    AllOfEach(Items(Field(fields, "components", List([]))).value, ComponentOf);
    AllOfEach(Items(Field(fields, "attachment", List([]))).value, AttachmentOf);
  }

  /**
   * `sprint` is `str()` of a truthy `customfield_10015` and `''` otherwise;
   * `resolution` is the resolution's name, or `''` for a falsy resolution.
   */
  lemma ParsedSprintAndResolution(data: Value)
    requires TicketOf(data).Some?
    ensures var t := TicketOf(data).value;
      var fields := FieldsOf(data);
      (HasKey(fields, "customfield_10015") && Truthy(Field(fields, "customfield_10015", Null)) ==>
         t.sprint == PyStr(Field(fields, "customfield_10015", Null)))
      && (!HasKey(fields, "customfield_10015") || !Truthy(Field(fields, "customfield_10015", Null)) ==> t.sprint == "")
    ensures var t := TicketOf(data).value;
      var r := Field(FieldsOf(data), "resolution", Null);
      (Truthy(r) ==> r.Dict? && t.resolution == Field(r.entries, "name", Str("")))
      && (!Truthy(r) ==> t.resolution == Str(""))
  {
  }

  /** A JSON value that is not a dict, or whose `fields` is not one, yields no ticket. */
  lemma ParseNeedsDicts(data: Value)
    ensures !data.Dict? ==> TicketOf(data).None?
    ensures data.Dict? && !Field(data.entries, "fields", Dict([])).Dict? ==> TicketOf(data).None?
  {
  }

  /* ---------- the HSD description ---------- */

  /** The text each attachment among the first five contributes. */
  function AttachmentLine(a: Attachment): string {
    "  - " + PyStr(a.filename) + " (" + PyStr(a.mimeType) + ")"
  }

  function AttachmentLines(atts: seq<Attachment>): (r: seq<string>)
    ensures |r| == |atts| && forall i :: 0 <= i < |atts| ==> r[i] == AttachmentLine(atts[i])
  {
    seq(|atts|, i requires 0 <= i < |atts| => AttachmentLine(atts[i]))
  }

  function MoreAttachmentsLine(extra: nat): string {
    "  - ... and " + NatToStr(extra) + " more attachments"
  }

  /** The attachment listing: the first five files, then a count of the rest when there are more. */
  function AttachmentBlock(atts: seq<Attachment>): seq<string> {
    if |atts| == 0 then []
    else
      var shown := if |atts| > 5 then atts[..5] else atts;
      ["- **Attachment files**:"] + AttachmentLines(shown)
      + (if |atts| > 5 then [MoreAttachmentsLine(|atts| - 5)] else [])
  }

  /**
   * At most five attachment lines are listed; the listing ends with the
   * count of the others exactly when there are more than five, and with an
   * attachment's `(mime type)` otherwise.
   */
  lemma AttachmentBlockShape(atts: seq<Attachment>)
    ensures var b := AttachmentBlock(atts);
      (|atts| == 0 <==> b == [])
      && (|atts| > 0 ==> |b| == 1 + (if |atts| > 5 then 6 else |atts|))
      && (|atts| > 5 ==> b[|b| - 1] == MoreAttachmentsLine(|atts| - 5))
      && (0 < |atts| <= 5 ==> EndsWith(b[|b| - 1], ")") && !EndsWith(b[|b| - 1], "attachments"))
  {
    var b := AttachmentBlock(atts);
    if 0 < |atts| <= 5 {
      var last := b[|b| - 1];
      assert last == AttachmentLine(atts[|atts| - 1]);
      assert last[|last| - 1] == ')';
      assert "attachments"[10] == 's';
    }
  }

  /** A truthy optional field: the given lines, otherwise none. */
  function When(v: Value, lines: seq<string>): seq<string> {
    if Truthy(v) then lines else []
  }

  /** `', '.join(component_names)`, each name being the component's `name`. */
  function ComponentNames(cs: seq<Component>): seq<Value> {
    seq(|cs|, i requires 0 <= i < |cs| => cs[i].name)
  }

  /** Where formatting the HSD description raises: `.get` on a non-dict, a joined non-string, a non-string part. */
  predicate HsdDescriptionRaises(t: Ticket) {
    !t.issuetype.Dict? || !t.project.Dict? || !t.summary.Str?
    || (Truthy(t.description) && !t.description.Str?)
    || (Truthy(t.assignee) && !t.assignee.Dict?)
    || (Truthy(t.reporter) && !t.reporter.Dict?)
    || (Truthy(t.labels) && JoinValue(t.labels, ", ").None?)
    || (|t.components| > 0 && Strs(ComponentNames(t.components)).None?)
  }

  function HsdHeader(t: Ticket): seq<string>
    requires !HsdDescriptionRaises(t)
  {
    ["# HSD Implementation for " + PyStr(t.key), "", "## Source Ticket Information",
     "- **Original Ticket**: " + PyStr(t.key),
     "- **Type**: " + PyStr(Field(t.issuetype.entries, "name", Str("N/A"))),
     "- **Priority**: " + PyStr(t.priority), "- **Status**: " + PyStr(t.status),
     "- **Resolution**: " + PyStr(t.resolution),
     "- **Project**: " + PyStr(Field(t.project.entries, "name", Str("N/A"))), ""]
  }

  function OriginalTextBlock(t: Ticket): seq<string>
    requires !HsdDescriptionRaises(t)
  {
    ["## Original Summary", t.summary.s, "", "## Original Description",
     if Truthy(t.description) then t.description.s else "No description provided", ""]
  }

  function PersonBlock(heading: string, role: string, p: Value): seq<string>
    requires Truthy(p) ==> p.Dict?
  {
    if !Truthy(p) then []
    else [heading, "- **" + role + "**: " + PyStr(Field(p.entries, "displayName", Str("N/A"))),
          "- **Email**: " + PyStr(Field(p.entries, "emailAddress", Str("N/A"))), ""]
  }

  function LabelsBlock(t: Ticket): seq<string>
    requires !HsdDescriptionRaises(t)
  {
    if Truthy(t.labels) then ["## Labels", "- " + JoinValue(t.labels, ", ").value, ""] else []
  }

  function ComponentsBlock(t: Ticket): seq<string>
    requires !HsdDescriptionRaises(t)
  {
    if |t.components| > 0 then ["## Components", "- " + Join(Strs(ComponentNames(t.components)).value, ", "), ""] else []
  }

  function StoryPointsLines(t: Ticket): seq<string> {
    ["- **Story Points**: " + PyStr(t.storyPoints), ""]
  }

  function CurrentPriorityLines(t: Ticket): seq<string> {
    ["- **Current Priority**: " + PyStr(t.currentPriority), ""]
  }

  function DeliveryLines(t: Ticket): seq<string> {
    ["## Delivery Information", "- **Delivery Page**: " + PyStr(t.deliveryPage), ""]
  }

  function ValueStreamLines(t: Ticket): seq<string> {
    ["- **Value Stream**: " + PyStr(t.valueStream), ""]
  }

  function SprintLines(t: Ticket): seq<string> {
    ["## Sprint Information", "- **Sprint**: " + t.sprint, ""]
  }

  function TimelineLines(t: Ticket): seq<string> {
    ["## Timeline", "- **Created**: " + PyStr(t.created), "- **Updated**: " + PyStr(t.updated)]
  }

  function DueDateLines(t: Ticket): seq<string> {
    ["- **Due Date**: " + PyStr(t.duedate)]
  }

  function AttachmentCountLines(t: Ticket): seq<string> {
    ["", "## Attachments Information", "- **Number of attachments**: " + NatToStr(|t.attachments|)]
  }

  function HsdTail(t: Ticket): seq<string> {
    ["", "## Comments Summary", "- **Number of comments**: " + NatToStr(|t.comments|), "", "---",
     "*This HSD ticket was automatically created from " + PyStr(t.key) + " with all relevant details transferred.*"]
  }

  /** The source ticket's details, the optional story points and priority, its summary and description. */
  function HsdFrontLines(t: Ticket): seq<string>
    requires !HsdDescriptionRaises(t)
  {
    HsdHeader(t) + When(t.storyPoints, StoryPointsLines(t)) + When(t.currentPriority, CurrentPriorityLines(t))
    + OriginalTextBlock(t) + When(t.deliveryPage, DeliveryLines(t)) + When(t.valueStream, ValueStreamLines(t))
  }

  /** The above, then the people, labels, components and sprint. */
  function HsdMiddleLines(t: Ticket): seq<string>
    requires !HsdDescriptionRaises(t)
  {
    HsdFrontLines(t) + PersonBlock("## Assignee Information", "Assignee", t.assignee)
    + PersonBlock("## Reporter Information", "Reporter", t.reporter) + LabelsBlock(t) + ComponentsBlock(t)
    + (if t.sprint != "" then SprintLines(t) else [])
  }

  /** `description_parts` in the order the formatter extends it: the above, the timeline, the attachments, the closing lines. */
  function HsdLines(t: Ticket): seq<string>
    requires !HsdDescriptionRaises(t)
  {
    HsdMiddleLines(t) + (TimelineLines(t) + When(t.duedate, DueDateLines(t))) + AttachmentCountLines(t)
    + AttachmentBlock(t.attachments) + HsdTail(t)
  }

  function HsdDescription(t: Ticket): Option<string> {
    if HsdDescriptionRaises(t) then None else Some(Join(HsdLines(t), "\n"))
  }

  /** `_format_hsd_description`: the parts list extended block by block, with the attachment loop. */
  method FormatHsdDescription(t: Ticket) returns (r: Option<string>)
    ensures r == HsdDescription(t)
  {
    if HsdDescriptionRaises(t) {
      return None;
    }
    var parts := HsdFront(t);
    parts := AppendHsdMiddle(parts, t);
    parts := AppendHsdEnd(parts, t);
    return Some(Join(parts, "\n"));
  }

  method HsdFront(t: Ticket) returns (parts: seq<string>)
    requires !HsdDescriptionRaises(t)
    ensures parts == HsdFrontLines(t)
  {
    parts := HsdHeader(t);
    ghost var front := parts;
    if Truthy(t.storyPoints) {
      parts := parts + StoryPointsLines(t);
    }
    assert parts == front + When(t.storyPoints, StoryPointsLines(t));
    front := parts;
    if Truthy(t.currentPriority) {
      parts := parts + CurrentPriorityLines(t);
    }
    assert parts == front + When(t.currentPriority, CurrentPriorityLines(t));
    parts := parts + OriginalTextBlock(t);
    front := parts;
    if Truthy(t.deliveryPage) {
      parts := parts + DeliveryLines(t);
    }
    assert parts == front + When(t.deliveryPage, DeliveryLines(t));
    front := parts;
    if Truthy(t.valueStream) {
      parts := parts + ValueStreamLines(t);
    }
    assert parts == front + When(t.valueStream, ValueStreamLines(t));
  }

  method AppendHsdMiddle(parts0: seq<string>, t: Ticket) returns (parts: seq<string>)
    requires !HsdDescriptionRaises(t) && parts0 == HsdFrontLines(t)
    ensures parts == HsdMiddleLines(t)
  {
    parts := parts0;
    parts := parts + PersonBlock("## Assignee Information", "Assignee", t.assignee);
    parts := parts + PersonBlock("## Reporter Information", "Reporter", t.reporter);
    parts := parts + LabelsBlock(t);
    parts := parts + ComponentsBlock(t);
    if t.sprint != "" {
      parts := parts + SprintLines(t);
    }
  }

  method AppendHsdEnd(parts0: seq<string>, t: Ticket) returns (parts: seq<string>)
    requires !HsdDescriptionRaises(t) && parts0 == HsdMiddleLines(t)
    ensures parts == HsdLines(t)
  {
    parts := AppendTimeline(parts0, t);
    parts := parts + AttachmentCountLines(t);
    parts := AppendAttachmentBlock(parts, t.attachments);
    parts := parts + HsdTail(t);
  }

  method AppendTimeline(parts0: seq<string>, t: Ticket) returns (parts: seq<string>)
    ensures parts == parts0 + (TimelineLines(t) + When(t.duedate, DueDateLines(t)))
  {
    parts := parts0 + TimelineLines(t);
    if Truthy(t.duedate) {
      parts := parts + DueDateLines(t);
    }
  }

  /** The attachment listing: a loop over the first five, then the count of the rest. */
  method AppendAttachmentBlock(parts0: seq<string>, atts: seq<Attachment>) returns (parts: seq<string>)
    ensures parts == parts0 + AttachmentBlock(atts)
  {
    parts := parts0;
    if |atts| > 0 {
      parts := parts + ["- **Attachment files**:"];
      var shown := if |atts| > 5 then atts[..5] else atts;
      ghost var head := parts;
      for i := 0 to |shown|
        invariant parts == head + AttachmentLines(shown[..i])
      {
        assert AttachmentLines(shown[..i + 1]) == AttachmentLines(shown[..i]) + [AttachmentLine(shown[i])];
        parts := parts + [AttachmentLine(shown[i])];
      }
      assert shown[..|shown|] == shown;
      if |atts| > 5 {
        parts := parts + [MoreAttachmentsLine(|atts| - 5)];
      }
    }
  }

  /** The description opens with the HSD heading for the source key. */
  lemma HsdDescriptionStart(t: Ticket)
    requires HsdDescription(t).Some?
    ensures StartsWith(HsdDescription(t).value, "# HSD Implementation for " + PyStr(t.key))
  {
    var parts := HsdLines(t);
    var first := "# HSD Implementation for " + PyStr(t.key);
    assert HsdFrontLines(t)[0] == HsdHeader(t)[0] == first;
    assert HsdMiddleLines(t)[0] == first;
    assert parts[0] == first;
    JoinStarts(parts, "\n");
  }


  /* ---------- the HSD creation payload ---------- */

  /** `source.labels or []`: a truthy value must be a list to be concatenated. */
  function SourceLabels(t: Ticket): Option<seq<Value>> {
    if !Truthy(t.labels) then Some([]) else if t.labels.List? then Some(t.labels.items) else None
  }

  /** The optional entries of `fields`, in the order the client adds them. */
  function OptionalHsdFields(t: Ticket): seq<(string, Value)> {
    (if |t.components| > 0
     then [("components", List(seq(|t.components|, i requires 0 <= i < |t.components| => Dict([("name", t.components[i].name)]))))]
     else [])
    + (if t.sprint != "" then [("customfield_10015", Str(t.sprint))] else [])
    + (if Truthy(t.storyPoints) then [("customfield_10002", t.storyPoints)] else [])
    + (if Truthy(t.deliveryPage) then [("customfield_10501", t.deliveryPage)] else [])
    + (if Truthy(t.valueStream) then [("customfield_10502", t.valueStream)] else [])
  }

  /** The entries of `fields` the client always sets. */
  function HsdFixedFields(t: Ticket, description: string, labels: seq<Value>): seq<(string, Value)> {
    [("project", Dict([("key", Str("HSD"))])),
     ("summary", Str("HSD Implementation: " + PyStr(t.summary))),
     ("description", Str(description)),
     ("issuetype", Dict([("name", Str("Task"))])),
     ("priority", Dict([("name", if Truthy(t.priority) then t.priority else Str("Medium"))])),
     ("labels", List([Str("HSD-Generated"), Str("OneApp"), Str("Source-" + PyStr(t.key))] + labels)),
     ("customfield_74704", List([Dict([("value", Str("OneTV"))])]))]
  }

  /** The JSON body `create_hsd_ticket` posts; None where building it raises. */
  function HsdPayload(t: Ticket): Option<Value> {
    match HsdDescription(t)
    case None => None
    case Some(description) =>
      match SourceLabels(t)
      case None => None
      case Some(labels) => Some(Dict([("fields", Dict(HsdFixedFields(t, description, labels) + OptionalHsdFields(t)))]))
  }

  lemma HsdFixedFieldsLookup(t: Ticket, description: string, labels: seq<Value>, more: seq<(string, Value)>)
    ensures var fields := HsdFixedFields(t, description, labels) + more;
      Lookup(fields, "labels") == Some(List([Str("HSD-Generated"), Str("OneApp"), Str("Source-" + PyStr(t.key))] + labels))
      && Lookup(fields, "priority") == Some(Dict([("name", if Truthy(t.priority) then t.priority else Str("Medium"))]))
      && Lookup(fields, "description") == Some(Str(description))
  {
    var fixed := HsdFixedFields(t, description, labels);
    LookupFirst(fixed, 2);
    LookupFirst(fixed, 4);
    LookupFirst(fixed, 5);
    LookupPrefix(fixed, more, "labels");
    LookupPrefix(fixed, more, "priority");
    LookupPrefix(fixed, more, "description");
  }

  /**
   * The payload's labels are the three generated ones followed by the
   * source's; its priority is the source's when truthy and `Medium`
   * otherwise; the description is the formatted HSD description.
   */
  lemma HsdPayloadFields(t: Ticket)
    requires HsdPayload(t).Some?
    ensures var p := HsdPayload(t).value;
      p.Dict? && |p.entries| == 1 && p.entries[0].0 == "fields" && p.entries[0].1.Dict?
    ensures var fields := HsdPayload(t).value.entries[0].1.entries;
      Lookup(fields, "labels") == Some(List([Str("HSD-Generated"), Str("OneApp"), Str("Source-" + PyStr(t.key))]
                                            + SourceLabels(t).value))
      && Lookup(fields, "priority") == Some(Dict([("name", if Truthy(t.priority) then t.priority else Str("Medium"))]))
      && Lookup(fields, "description") == Some(Str(HsdDescription(t).value))
  {
    HsdFixedFieldsLookup(t, HsdDescription(t).value, SourceLabels(t).value, OptionalHsdFields(t));
  }

  /** A truthy label value that is not a list makes the payload fail, as does a failing description. */
  lemma HsdPayloadFailures(t: Ticket)
    ensures HsdPayload(t).None? <==> HsdDescriptionRaises(t) || (Truthy(t.labels) && !t.labels.List?)
  {
  }

  /* ---------- the DATADEV description ---------- */

  /** `chr(10).join(f"# {x}" for x in items)`. */
  function HashLines(items: seq<Value>): string {
    Join(seq(|items|, i requires 0 <= i < |items| => "# " + PyStr(items[i])), "\n")
  }

  /** `chr(10).join(f"# {k}: {v}" for k, v in d.items())`. */
  function HashPairs(es: seq<(string, Value)>): string {
    Join(seq(|es|, i requires 0 <= i < |es| => "# " + es[i].0 + ": " + PyStr(es[i].1)), "\n")
  }

  function DatadevOpening(title: string): string {
    "*Tasks*:\n# Implement " + title
  }

  /** The fixed task, prerequisite and benefit lines between the title and the PRD reference. */
  function DatadevPlan(key: string): string {
    " based on PRD requirements\n"
    + "# Develop data processing components as specified in technical requirements\n"
    + "# Create necessary API endpoints and data models\n"
    + "# Implement data validation and error handling\n\n"
    + "*Pre-requisites*:\n# Review PRD document for " + key + "\n"
    + "# Understand technical requirements and architecture\n"
    + "# Coordinate with development team\n\n"
    + "*Benefits*:\n# Automated data processing implementation\n# Improved system functionality\n"
    + "# Enhanced user experience\n\n"
    + "*Documentation*:\n"
  }

  function DatadevReference(key: string): string {
    "# PRD Reference: " + key + "\n"
  }

  /** The documentation lines after the reference, then the metric, NFR and out-of-scope sections. */
  function DatadevRest(tech: string, stories: string, metrics: seq<Value>, nfr: seq<(string, Value)>, outOfScope: seq<Value>): string {
    "# Technical Requirements: " + tech + "\n"
    + "# User Stories: " + stories + "\n\n"
    + "*Success Metrics*:\n" + HashLines(metrics) + "\n\n"
    + "*Non-Functional Requirements*:\n" + HashPairs(nfr) + "\n\n"
    + "*Out of Scope*:\n" + HashLines(outOfScope) + "\n"
  }

  /**
   * `_format_datadev_description`. It starts with the task to implement the
   * PRD's title (`Feature` when it has none) and cites the source ticket as
   * the PRD reference. None where the template raises (a joined list holding
   * a non-string, a non-iterable list field, a non-dict
   * `non_functional_requirements`).
   */
  function DatadevDescription(prd: seq<(string, Value)>, key: string): (r: Option<string>)
    ensures r.Some? ==> StartsWith(r.value, DatadevOpening(PyStr(Field(prd, "title", Str("Feature")))))
    ensures r.Some? ==> Contains(r.value, "# PRD Reference: " + key + "\n")
  {
    var tech := JoinValue(Field(prd, "technical_requirements", List([])), ", ");
    var stories := JoinValue(Field(prd, "user_stories", List([])), ", ");
    var metrics := Items(Field(prd, "success_metrics", List([])));
    var nfr := Field(prd, "non_functional_requirements", Dict([]));
    var outOfScope := Items(Field(prd, "out_of_scope", List([])));
    if tech.None? || stories.None? || metrics.None? || !nfr.Dict? || outOfScope.None? then None
    else
      var opening := DatadevOpening(PyStr(Field(prd, "title", Str("Feature"))));
      var rest := DatadevRest(tech.value, stories.value, metrics.value, nfr.entries, outOfScope.value);
      StartsAndContains(opening, DatadevPlan(key), DatadevReference(key), rest);
      Some(opening + DatadevPlan(key) + DatadevReference(key) + rest)
  }

  /* ---------- get_ticket ---------- */

  datatype Fetched = Fetched(ticket: Ticket) | Raised(message: string)

  /**
   * The summary `get_ticket` logs on success raises where the ticket's
   * shape does not allow it: `.get` on a non-dict type, project or truthy
   * assignee, a join of non-strings, or a description that cannot be sliced.
   */
  predicate LoggingRaises(t: Ticket) {
    !t.issuetype.Dict? || !t.project.Dict?
    || (Truthy(t.assignee) && !t.assignee.Dict?)
    || (Truthy(t.labels) && JoinValue(t.labels, ", ").None?)
    || (|t.components| > 0 && Strs(ComponentNames(t.components)).None?)
    || !(t.description.Str? || t.description.List?)
  }

  /**
   * `get_ticket`: the fetched ticket, or the exception it raises. A failed
   * fetch raises inside the `try` and is re-raised with the outer prefix;
   * `detail` stands for `str(e)` of an exception raised while logging.
   */
  function GetTicket(ticketId: string, fetched: Option<Ticket>, detail: string): Fetched {
    var prefix := "Unable to fetch Jira ticket " + ticketId;
    match fetched
    case None => Raised(prefix + ": " + prefix + " - API request failed")
    case Some(t) => if LoggingRaises(t) then Raised(prefix + ": " + detail) else Fetched(t)
  }

  /** Whenever nothing is fetched the call raises, and every message it raises names the ticket id. */
  lemma GetTicketErrors(ticketId: string, fetched: Option<Ticket>, detail: string)
    ensures fetched.None? ==> GetTicket(ticketId, fetched, detail).Raised?
    ensures GetTicket(ticketId, fetched, detail).Raised? ==>
      StartsWith(GetTicket(ticketId, fetched, detail).message, "Unable to fetch Jira ticket " + ticketId)
      && Contains(GetTicket(ticketId, fetched, detail).message, ticketId)
    ensures GetTicket(ticketId, fetched, detail).Fetched? ==> fetched == Some(GetTicket(ticketId, fetched, detail).ticket)
  {
    var r := GetTicket(ticketId, fetched, detail);
    if r.Raised? {
      var prefix := "Unable to fetch Jira ticket ";
      var m := r.message;
      assert m[..|prefix + ticketId|] == prefix + ticketId;
      ContainsMiddle(prefix, ticketId, m[|prefix + ticketId|..]);
      assert m == prefix + ticketId + m[|prefix + ticketId|..];
    }
  }
}
