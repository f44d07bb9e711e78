/*
 * The ticket document manager's own logic: the file-name sanitiser, the
 * markdown rendering of a PRD, the attachment-download loop of
 * `process_ticket_documents` and the summary record it writes.
 *
 * The file system, the HTTP downloads and the clock are outside the model:
 * what a download request yields is an oracle `respond(i)` for the i-th
 * attachment, and the "Generated" timestamp is a parameter.
 */
module TicketDocs {
  import opened PyText
  import opened Values
  import Schema

  /* ---------- _sanitize_filename ---------- */

  /** The length a sanitised file name is meant to be limited to. */
  const MaxNameLength := 200

  /** The characters of the class `[<>:"/\\|?*]`. */
  predicate IsUnsafe(c: char) {
    c == '<' || c == '>' || c == ':' || c == '"' || c == '/' || c == '\\' || c == '|' || c == '?' || c == '*'
  }

  predicate AllSafe(s: string) {
    forall i :: 0 <= i < |s| ==> !IsUnsafe(s[i])
  }

  /** `re.sub(r'[<>:"/\\|?*]', '_', s)`: each unsafe character becomes `_`, nothing else moves. */
  function ReplaceUnsafe(s: string): (r: string)
    ensures |r| == |s| && AllSafe(r)
    ensures forall i :: 0 <= i < |s| && !IsUnsafe(s[i]) ==> r[i] == s[i]
    ensures AllSafe(s) ==> r == s
  {
    seq(|s|, i requires 0 <= i < |s| => if IsUnsafe(s[i]) then '_' else s[i])
  }

  /**
   * POSIX `os.path.splitext`: the extension runs from the last `.` of the
   * last path component, unless that component has only dots before it
   * (so `.bashrc` has no extension).
   */
  function SplitExt(p: string): (r: (string, string))
    ensures r.0 + r.1 == p
    ensures r.1 == "" || (r.1[0] == '.' && Lacks(r.1[1..], '.') && Lacks(r.1, '/'))
  {
    var sep := LastIndex(p, '/');
    var dot := LastIndex(p, '.');
    if sep < dot && exists i :: sep < i < dot && p[i] != '.' then
      assert p[..dot] + p[dot..] == p;
      (p[..dot], p[dot..])
    else (p, "")
  }

  /**
   * `_sanitize_filename` as written: after the substitution, a name longer
   * than 200 characters becomes `name[:200-len(ext)] + ext`. Once the
   * extension is longer than 200 characters the slice bound is negative and
   * Python counts it from the end of `name`.
   */
  function SanitizeFilename(filename: string): (r: string)
    ensures AllSafe(r)
    ensures |ReplaceUnsafe(filename)| <= MaxNameLength ==> r == ReplaceUnsafe(filename)
  {
    var safe := ReplaceUnsafe(filename);
    if |safe| > MaxNameLength then
      var (name, ext) := SplitExt(safe);
      SafeParts(name, ext, MaxNameLength - |ext|);
      PySliceTo(name, MaxNameLength - |ext|) + ext
    else safe
  }

  /** A prefix of the name followed by the extension has only characters of the whole. */
  lemma SafeParts(name: string, ext: string, n: int)
    requires AllSafe(name + ext)
    ensures AllSafe(PySliceTo(name, n) + ext)
  {
    var kept := PySliceTo(name, n);
    forall i | 0 <= i < |kept + ext| ensures !IsUnsafe((kept + ext)[i]) {
      if i < |kept| {
        assert (kept + ext)[i] == (name + ext)[i];
      } else {
        assert (kept + ext)[i] == (name + ext)[|name| + i - |kept|];
      }
    }
  }

  /** As written, a long name with an extension of at most 200 characters is cut to exactly 200, keeping it. */
  lemma SanitizeCutsLongNames(filename: string)
    requires |ReplaceUnsafe(filename)| > MaxNameLength
    requires |SplitExt(ReplaceUnsafe(filename)).1| <= MaxNameLength
    ensures |SanitizeFilename(filename)| == MaxNameLength
    ensures EndsWith(SanitizeFilename(filename), SplitExt(ReplaceUnsafe(filename)).1)
  {
    var (name, ext) := SplitExt(ReplaceUnsafe(filename));
    var r := PySliceTo(name, MaxNameLength - |ext|) + ext;
    assert r[|r| - |ext|..] == ext;
  }

  /**
   * As written, the limit fails once the "extension" is over 200 characters:
   * for `"a." + x` with a 200-character `x` free of dots and unsafe
   * characters, the result is the whole 201-character extension.
   */
  lemma LongExtensionEscapesLimit(x: string)
    requires |x| >= MaxNameLength && AllSafe(x) && Lacks(x, '.')
    ensures SanitizeFilename("a." + x) == "." + x
    ensures |SanitizeFilename("a." + x)| > MaxNameLength
  {
    var p := "a." + x;
    PrefixedSafe(x);
    assert ReplaceUnsafe(p) == p;
    LongExtensionSplit(x);
  }

  /** Putting `a.` before safe text keeps it safe. */
  lemma PrefixedSafe(x: string)
    requires AllSafe(x)
    ensures AllSafe("a." + x)
  {
    var p := "a." + x;
    forall i | 0 <= i < |p| ensures !IsUnsafe(p[i]) {
      if i >= 2 { assert p[i] == x[i - 2]; }
    }
  }

  /** In `"a." + x`, with no dot and no slash in `x`, the extension is `"." + x`. */
  lemma LongExtensionSplit(x: string)
    requires AllSafe(x) && Lacks(x, '.')
    ensures SplitExt("a." + x) == ("a", "." + x)
  {
    var p := "a." + x;
    PrefixedSafe(x);
    assert LastIndex(p, '/') == -1 by {
      var k := LastIndex(p, '/');
      assert k >= 0 ==> IsUnsafe(p[k]);
    }
    assert LastIndex(p, '.') == 1 by {
      assert p[1] == '.';
      assert forall j :: 1 < j < |p| ==> p[j] == x[j - 2];
      LastIndexIs(p, '.', 1);
    }
    assert p[0] != '.';
    assert p[..1] == "a" && p[1..] == "." + x;
  }

  /**
   * The sanitiser as evidently intended: never longer than 200 characters.
   * An extension too long to keep is cut along with the name.
   */
  function SafeFilename(filename: string): (r: string)
    ensures AllSafe(r) && |r| <= MaxNameLength
    ensures |ReplaceUnsafe(filename)| <= MaxNameLength ==> r == ReplaceUnsafe(filename)
    ensures |ReplaceUnsafe(filename)| > MaxNameLength ==> |r| == MaxNameLength
  {
    var safe := ReplaceUnsafe(filename);
    if |safe| > MaxNameLength && |SplitExt(safe).1| > MaxNameLength then safe[..MaxNameLength]
    else SanitizeFilename(filename)
  }

  /** The corrected sanitiser agrees with the one as written wherever that one keeps the limit. */
  lemma SafeFilenameAgrees(filename: string)
    requires |SplitExt(ReplaceUnsafe(filename)).1| <= MaxNameLength
    ensures SafeFilename(filename) == SanitizeFilename(filename)
  {
  }

  /** A name that is already safe and short enough is left as it is. */
  lemma SafeFilenameKeepsSafeNames(filename: string)
    requires AllSafe(filename) && |filename| <= MaxNameLength
    ensures SafeFilename(filename) == filename
  {
  }

  /* ---------- download_attachment ---------- */

  /** What the GET request ends in: a response status, or an exception (network, file write). */
  datatype Outcome = Status(code: int) | Failed

  /** `attachment.get(k, '')` on an attachment dict. */
  function AttachmentField(attachment: seq<(string, Value)>, k: string): Value {
    Field(attachment, k, Str(""))
  }

  /** Where the attachment is written: `ticket_folder / "attachments" / safe_filename`. */
  function AttachmentPath(folder: string, filename: string): string {
    folder + "/attachments/" + SanitizeFilename(filename)
  }

  /** As written, the saved path of `"a." + x` ends in the 201-character extension alone. */
  lemma LongNameDownloadPath(folder: string, x: string)
    requires |x| >= MaxNameLength && AllSafe(x) && Lacks(x, '.')
    ensures AttachmentPath(folder, "a." + x) == folder + "/attachments/" + "." + x
    ensures |AttachmentPath(folder, "a." + x)| > |folder| + |"/attachments/"| + MaxNameLength
  {
    LongExtensionEscapesLimit(x);
  }

  /**
   * The request `download_attachment` sends, as the pair of URL and file
   * name, or None when it returns (or raises) before sending one: the url
   * or the file name is falsy, or the file name is not a string for the
   * sanitiser.
   */
  function RequestOf(attachment: seq<(string, Value)>): (r: Option<(Value, string)>)
    ensures r.Some? ==> Truthy(AttachmentField(attachment, "url")) && r.value.0 == AttachmentField(attachment, "url")
    ensures r.Some? ==> AttachmentField(attachment, "filename") == Str(r.value.1) && |r.value.1| > 0
  {
    var filename := AttachmentField(attachment, "filename");
    var url := AttachmentField(attachment, "url");
    if !Truthy(url) || !Truthy(filename) || !filename.Str? then None
    else Some((url, filename.s))
  }

  /** `download_attachment`: the saved path on status 200, None otherwise (the exception handler included). */
  function DownloadAttachment(attachment: seq<(string, Value)>, folder: string, response: Outcome): (r: Option<string>)
    ensures r.Some? <==> RequestOf(attachment).Some? && response == Status(200)
    ensures r.Some? ==> r.value == AttachmentPath(folder, RequestOf(attachment).value.1)
  {
    match RequestOf(attachment)
    case None => None
    case Some((_, filename)) => if response == Status(200) then Some(AttachmentPath(folder, filename)) else None
  }

  /** Without a url or a file name nothing is requested, so the result is None whatever a request would have done. */
  lemma NoRequestWithoutUrlOrName(attachment: seq<(string, Value)>, folder: string, response: Outcome)
    requires !Truthy(AttachmentField(attachment, "url")) || !Truthy(AttachmentField(attachment, "filename"))
    ensures RequestOf(attachment) == None
    ensures DownloadAttachment(attachment, folder, response) == None
  {
  }

  /* ---------- the download loop of process_ticket_documents ---------- */

  /** What one iteration's download yields, given the attachment's position and dict. */
  type Downloader = (nat, seq<(string, Value)>) -> Option<string>

  /** `download_attachment` into `folder`, with `respond(i)` the outcome of the i-th request. */
  function DownloadInto(folder: string, respond: nat -> Outcome): Downloader {
    (i: nat, a: seq<(string, Value)>) => DownloadAttachment(a, folder, respond(i))
  }

  /** Every path `download_attachment` returns is non-empty, hence truthy. */
  lemma DownloadedPathsAreTruthy(folder: string, respond: nat -> Outcome, i: nat, a: seq<(string, Value)>)
    requires DownloadInto(folder, respond)(i, a).Some?
    ensures |DownloadInto(folder, respond)(i, a).value| > 0
  {
    var p := DownloadAttachment(a, folder, respond(i));
    assert p.value == folder + "/attachments/" + SanitizeFilename(RequestOf(a).value.1);
  }

  /**
   * The attachments loop over all of `atts`: the logging call before each
   * download reads `attachment.get(...)`, so a non-dict attachment raises
   * out of the whole call (None). Otherwise every truthy path is kept.
   */
  function Downloads(atts: seq<Value>, download: Downloader): Option<seq<string>> {
    if |atts| == 0 then Some([])
    else match Downloads(atts[..|atts| - 1], download)
      case None => None
      case Some(init) =>
        var a := atts[|atts| - 1];
        if !a.Dict? then None
        else match download(|atts| - 1, a.entries)
          case Some(p) => if |p| > 0 then Some(init + [p]) else Some(init)
          case None => Some(init)
  }

  /** The loop gets through iff every attachment is a dict, and keeps at most one path per attachment. */
  lemma {:induction false} DownloadsDefined(atts: seq<Value>, download: Downloader)
    ensures Downloads(atts, download).Some? <==> forall i :: 0 <= i < |atts| ==> atts[i].Dict?
    ensures Downloads(atts, download).Some? ==> |Downloads(atts, download).value| <= |atts|
  {
    if |atts| > 0 {
      var init := atts[..|atts| - 1];
      DownloadsDefined(init, download);
      assert forall i :: 0 <= i < |init| ==> init[i] == atts[i];
    }
  }

  /** Every kept path is the successful download of one of the attachments. */
  lemma {:induction false} DownloadsAreSuccesses(atts: seq<Value>, download: Downloader)
    requires Downloads(atts, download).Some?
    ensures forall k :: 0 <= k < |Downloads(atts, download).value| ==>
      exists i :: 0 <= i < |atts| && atts[i].Dict? && download(i, atts[i].entries) == Some(Downloads(atts, download).value[k])
  {
    if |atts| > 0 {
      var init := atts[..|atts| - 1];
      DownloadsAreSuccesses(init, download);
      var prev := Downloads(init, download).value;
      var out := Downloads(atts, download).value;
      forall k | 0 <= k < |out|
        ensures exists i :: 0 <= i < |atts| && atts[i].Dict? && download(i, atts[i].entries) == Some(out[k])
      {
        if k < |prev| {
          assert out[k] == prev[k];
          var i :| 0 <= i < |init| && init[i].Dict? && download(i, init[i].entries) == Some(prev[k]);
          assert init[i] == atts[i];
        } else {
          assert download(|atts| - 1, atts[|atts| - 1].entries) == Some(out[k]);
        }
      }
    }
  }

  /** When every download yields a path, the i-th kept path is the i-th attachment's. */
  lemma {:induction false} DownloadsAllSucceed(atts: seq<Value>, download: Downloader)
    requires forall i :: 0 <= i < |atts| ==>
      atts[i].Dict? && download(i, atts[i].entries).Some? && |download(i, atts[i].entries).value| > 0
    ensures Downloads(atts, download).Some?
    ensures |Downloads(atts, download).value| == |atts|
    ensures forall i :: 0 <= i < |atts| ==> Some(Downloads(atts, download).value[i]) == download(i, atts[i].entries)
  {
    if |atts| > 0 {
      var init := atts[..|atts| - 1];
      assert forall i :: 0 <= i < |init| ==> init[i] == atts[i];
      DownloadsAllSucceed(init, download);
    }
  }

  /** When no download yields a path, nothing is kept. */
  lemma {:induction false} DownloadsNoneSucceed(atts: seq<Value>, download: Downloader)
    requires forall i :: 0 <= i < |atts| ==> atts[i].Dict? && download(i, atts[i].entries).None?
    ensures Downloads(atts, download) == Some([])
  {
    if |atts| > 0 {
      var init := atts[..|atts| - 1];
      assert forall i :: 0 <= i < |init| ==> init[i] == atts[i];
      DownloadsNoneSucceed(init, download);
    }
  }

  /** The loop of `process_ticket_documents`, appending each successful path to `downloaded_files`. */
  method DownloadAll(atts: seq<Value>, folder: string, respond: nat -> Outcome) returns (r: Option<seq<string>>)
    ensures r == Downloads(atts, DownloadInto(folder, respond))
  {
    var downloaded: seq<string> := [];
    for i := 0 to |atts|
      invariant Downloads(atts[..i], DownloadInto(folder, respond)) == Some(downloaded)
    {
      assert atts[..i + 1][..i] == atts[..i];
      var attachment := atts[i];
      if !attachment.Dict? {
        DownloadsDefined(atts[..i + 1], DownloadInto(folder, respond));
        DownloadsDefined(atts, DownloadInto(folder, respond));
        return None;
      }
      var filePath := DownloadAttachment(attachment.entries, folder, respond(i));
      if filePath.Some? && |filePath.value| > 0 {
        downloaded := downloaded + [filePath.value];
      }
    }
    assert atts[..|atts|] == atts;
    return Some(downloaded);
  }

  /* ---------- process_ticket_documents and the summary file ---------- */

  /** The summary written to `summary.json`. */
  datatype Summary = Summary(
    ticketKey: Value, summary: Value, status: Value, priority: Value, created: Value, updated: Value,
    attachmentsDownloaded: nat, attachmentFiles: seq<string>,
    prdGenerated: bool, prdTitle: Option<Value>,
    folderStructure: seq<(string, string)>)

  const FolderStructure: seq<(string, string)> := [("attachments", "attachments/"), ("prd", "prd/"), ("metadata", "metadata/")]

  /** `_create_summary_file`'s record; `prd` is None for Python's None. */
  function SummaryOf(ticket: seq<(string, Value)>, downloaded: seq<string>, prd: Option<seq<(string, Value)>>): (r: Summary)
    ensures r.attachmentsDownloaded == |downloaded| && r.attachmentFiles == downloaded
    ensures r.prdGenerated <==> prd.Some?
    ensures prd.None? ==> r.prdTitle.None?
    ensures r.ticketKey == Field(ticket, "key", Str(""))
  {
    Summary(
      Field(ticket, "key", Str("")), Field(ticket, "summary", Str("")), Field(ticket, "status", Str("")),
      Field(ticket, "priority", Str("")), Field(ticket, "created", Str("")), Field(ticket, "updated", Str("")),
      |downloaded|, downloaded,
      prd.Some?, if prd.Some? && |prd.value| > 0 then Some(Field(prd.value, "title", Str(""))) else None,
      FolderStructure)
  }

  /** An empty PRD dict counts as generated but, being falsy, has no title. */
  lemma EmptyPrdHasNoTitle(ticket: seq<(string, Value)>, downloaded: seq<string>)
    ensures SummaryOf(ticket, downloaded, Some([])).prdGenerated
    ensures SummaryOf(ticket, downloaded, Some([])).prdTitle == None
  {
  }

  /** What `process_ticket_documents` leaves behind: the ticket folder, the kept downloads and the summary. */
  datatype Processed = Processed(folder: string, downloaded: seq<string>, summary: Summary)

  /** The ticket key the folder is named after: `ticket_data.get('key', 'unknown')`. */
  function FolderKey(ticket: seq<(string, Value)>): Value {
    Field(ticket, "key", Str("unknown"))
  }

  /**
   * `process_ticket_documents`: None when it raises (a key that is not a
   * string cannot name a folder, attachments that are not iterable, an
   * attachment that is not a dict).
   */
  function ProcessTicket(base: string, ticket: seq<(string, Value)>, prd: Option<seq<(string, Value)>>, respond: nat -> Outcome): Option<Processed> {
    var key := FolderKey(ticket);
    if !key.Str? then None
    else
      var folder := base + "/" + key.s;
      match Items(Field(ticket, "attachments", List([])))
      case None => None
      case Some(atts) =>
        match Downloads(atts, DownloadInto(folder, respond))
        case None => None
        case Some(downloaded) => Some(Processed(folder, downloaded, SummaryOf(ticket, downloaded, prd)))
  }

  /** A ticket without a key goes to the folder `unknown`, and its summary counts what was kept. */
  lemma ProcessedFolderAndCount(base: string, ticket: seq<(string, Value)>, prd: Option<seq<(string, Value)>>, respond: nat -> Outcome)
    requires ProcessTicket(base, ticket, prd, respond).Some?
    ensures !HasKey(ticket, "key") ==> ProcessTicket(base, ticket, prd, respond).value.folder == base + "/unknown"
    ensures !HasKey(ticket, "key") ==> ProcessTicket(base, ticket, prd, respond).value.summary.ticketKey == Str("")
    ensures ProcessTicket(base, ticket, prd, respond).value.summary.attachmentsDownloaded ==
            |ProcessTicket(base, ticket, prd, respond).value.downloaded|
  {
  }

  /** The method: the download loop, then the summary. */
  method ProcessTicketDocuments(base: string, ticket: seq<(string, Value)>, prd: Option<seq<(string, Value)>>, respond: nat -> Outcome)
    returns (r: Option<Processed>)
    ensures r == ProcessTicket(base, ticket, prd, respond)
  {
    var key := FolderKey(ticket);
    if !key.Str? {
      return None;
    }
    var folder := base + "/" + key.s;
    var attachments := Items(Field(ticket, "attachments", List([])));
    if attachments.None? {
      return None;
    }
    var downloaded := DownloadAll(attachments.value, folder, respond);
    if downloaded.None? {
      return None;
    }
    return Some(Processed(folder, downloaded.value, SummaryOf(ticket, downloaded.value, prd)));
  }

  /* ---------- _format_prd_as_markdown ---------- */

  /** The text before the user stories, with the timestamp as a parameter. */
  function PrdHeader(prd: seq<(string, Value)>, key: string, generated: string): string {
    "# Product Requirements Document (PRD)\n**Ticket:** " + key + "\n**Generated:** " + generated
    + "\n\n## " + PyStr(Field(prd, "title", Str("Product Requirements Document")))
    + "\n\n### Introduction\n" + PyStr(Field(prd, "introduction", Str("No introduction provided.")))
    + "\n\n### Problem Statement\n" + PyStr(Field(prd, "problem_statement", Str("No problem statement provided.")))
    + "\n\n### User Stories\n"
  }

  function BulletLine(x: Value): string {
    "- " + PyStr(x) + "\n"
  }

  /** One `- item` line per item, in order. */
  function Bullets(xs: seq<Value>): string {
    if |xs| == 0 then "" else Bullets(xs[..|xs| - 1]) + BulletLine(xs[|xs| - 1])
  }

  /** The bullet text of a concatenation is the concatenation of the bullet texts. */
  lemma {:induction false} BulletsAppend(xs: seq<Value>, ys: seq<Value>)
    ensures Bullets(xs + ys) == Bullets(xs) + Bullets(ys)
    decreases |ys|
  {
    if |ys| > 0 {
      var ys' := ys[..|ys| - 1];
      assert (xs + ys)[..|xs + ys| - 1] == xs + ys';
      assert (xs + ys)[|xs + ys| - 1] == ys[|ys| - 1];
      BulletsAppend(xs, ys');
      SeqAssoc(Bullets(xs), Bullets(ys'), BulletLine(ys[|ys| - 1]));
      assert Bullets(ys) == Bullets(ys') + BulletLine(ys[|ys| - 1]);
    } else {
      assert xs + ys == xs;
    }
  }

  /** Hence every item contributes its own line at its own place. */
  lemma BulletsSplitAt(xs: seq<Value>, i: int)
    requires 0 <= i < |xs|
    ensures Bullets(xs) == Bullets(xs[..i]) + BulletLine(xs[i]) + Bullets(xs[i + 1..])
  {
    var pre, x, post := xs[..i], xs[i], xs[i + 1..];
    ElementAt(xs, i);
    BulletsAppend(pre + [x], post);
    BulletsAppend(pre, [x]);
    BulletsSingle(x);
  }

  lemma BulletsSingle(x: Value)
    ensures Bullets([x]) == BulletLine(x)
  {
    assert [x][..0] == [];
    assert Bullets([x]) == Bullets([]) + BulletLine(x);
  }

  function NfrLine(e: (string, Value)): string {
    "- **" + e.0 + ":** " + PyStr(e.1) + "\n"
  }

  /** One `- **key:** value` line per entry, in insertion order. */
  function NfrLines(es: seq<(string, Value)>): string {
    if |es| == 0 then "" else NfrLines(es[..|es| - 1]) + NfrLine(es[|es| - 1])
  }

  /** The document once every section's items are known. */
  function PrdBody(header: string, stories: seq<Value>, reqs: seq<Value>, nfrs: seq<(string, Value)>,
                   outOfScope: seq<Value>, metrics: seq<Value>): string {
    header + Bullets(stories)
    + "\n### Technical Requirements\n" + Bullets(reqs)
    + "\n### Non-Functional Requirements\n" + NfrLines(nfrs)
    + "\n### Out of Scope\n" + Bullets(outOfScope)
    + "\n### Success Metrics\n" + Bullets(metrics)
  }

  /**
   * `_format_prd_as_markdown`. A list field that cannot be iterated, or a
   * non-functional-requirements field that is not a dict, raises; the
   * caller catches it and writes no markdown (None).
   */
  function PrdMarkdown(prd: seq<(string, Value)>, key: string, generated: string): Option<string> {
    var stories := Items(Field(prd, "user_stories", List([])));
    var reqs := Items(Field(prd, "technical_requirements", List([])));
    var nfr := Field(prd, "non_functional_requirements", Dict([]));
    var outOfScope := Items(Field(prd, "out_of_scope", List([])));
    var metrics := Items(Field(prd, "success_metrics", List([])));
    if stories.None? || reqs.None? || !nfr.Dict? || outOfScope.None? || metrics.None? then None
    else Some(PrdBody(PrdHeader(prd, key, generated), stories.value, reqs.value, nfr.entries, outOfScope.value, metrics.value))
  }

  /** `for x in xs: md_content += f"- {x}\n"`. */
  method AppendBullets(md: string, xs: seq<Value>) returns (r: string)
    ensures r == md + Bullets(xs)
  {
    r := md;
    for i := 0 to |xs|
      invariant r == md + Bullets(xs[..i])
    {
      assert xs[..i + 1][..i] == xs[..i];
      SeqAssoc(md, Bullets(xs[..i]), BulletLine(xs[i]));
      r := r + BulletLine(xs[i]);
    }
    assert xs[..|xs|] == xs;
  }

  /** `for key, value in nfr.items(): md_content += f"- **{key}:** {value}\n"`. */
  method AppendNfrLines(md: string, es: seq<(string, Value)>) returns (r: string)
    ensures r == md + NfrLines(es)
  {
    r := md;
    for i := 0 to |es|
      invariant r == md + NfrLines(es[..i])
    {
      assert es[..i + 1][..i] == es[..i];
      SeqAssoc(md, NfrLines(es[..i]), NfrLine(es[i]));
      r := r + NfrLine(es[i]);
    }
    assert es[..|es|] == es;
  }

  /** The method, section by section. */
  method FormatPrdAsMarkdown(prd: seq<(string, Value)>, key: string, generated: string) returns (r: Option<string>)
    ensures r == PrdMarkdown(prd, key, generated)
  {
    var stories := Items(Field(prd, "user_stories", List([])));
    if stories.None? {
      return None;
    }
    var md := PrdHeader(prd, key, generated);
    md := AppendBullets(md, stories.value);
    md := md + "\n### Technical Requirements\n";
    var reqs := Items(Field(prd, "technical_requirements", List([])));
    if reqs.None? {
      return None;
    }
    md := AppendBullets(md, reqs.value);
    md := md + "\n### Non-Functional Requirements\n";
    var nfr := Field(prd, "non_functional_requirements", Dict([]));
    if !nfr.Dict? {
      return None;
    }
    md := AppendNfrLines(md, nfr.entries);
    md := md + "\n### Out of Scope\n";
    var outOfScope := Items(Field(prd, "out_of_scope", List([])));
    if outOfScope.None? {
      return None;
    }
    md := AppendBullets(md, outOfScope.value);
    md := md + "\n### Success Metrics\n";
    var metrics := Items(Field(prd, "success_metrics", List([])));
    if metrics.None? {
      return None;
    }
    md := AppendBullets(md, metrics.value);
    return Some(md);
  }

  /** Missing text fields are replaced by their fixed defaults. */
  lemma PrdDefaults(prd: seq<(string, Value)>, key: string, generated: string)
    requires !HasKey(prd, "title") && !HasKey(prd, "introduction") && !HasKey(prd, "problem_statement")
    ensures PrdHeader(prd, key, generated) ==
      "# Product Requirements Document (PRD)\n**Ticket:** " + key + "\n**Generated:** " + generated
      + "\n\n## " + "Product Requirements Document"
      + "\n\n### Introduction\n" + "No introduction provided."
      + "\n\n### Problem Statement\n" + "No problem statement provided."
      + "\n\n### User Stories\n"
  {
  }

  /** A dict missing every list field renders all five sections empty. */
  lemma PrdMarkdownWithoutLists(prd: seq<(string, Value)>, key: string, generated: string)
    requires !HasKey(prd, "user_stories") && !HasKey(prd, "technical_requirements")
    requires !HasKey(prd, "non_functional_requirements") && !HasKey(prd, "out_of_scope") && !HasKey(prd, "success_metrics")
    ensures PrdMarkdown(prd, key, generated) == Some(PrdHeader(prd, key, generated)
      + "\n### Technical Requirements\n" + "\n### Non-Functional Requirements\n"
      + "\n### Out of Scope\n" + "\n### Success Metrics\n")
  {
    assert Items(Field(prd, "user_stories", List([]))) == Some([]);
    assert Items(Field(prd, "technical_requirements", List([]))) == Some([]);
    assert Field(prd, "non_functional_requirements", Dict([])) == Dict([]);
    assert Items(Field(prd, "out_of_scope", List([]))) == Some([]);
    assert Items(Field(prd, "success_metrics", List([]))) == Some([]);
    var h := PrdHeader(prd, key, generated);
    var t, n, o, m := "\n### Technical Requirements\n", "\n### Non-Functional Requirements\n", "\n### Out of Scope\n", "\n### Success Metrics\n";
    assert PrdBody(h, [], [], [], [], []) == h + "" + t + "" + n + "" + o + "" + m + "";
    assert h + "" == h;
    assert h + t + "" == h + t;
    assert h + t + n + "" == h + t + n;
    assert h + t + n + o + "" == h + t + n + o;
    assert h + t + n + o + m + "" == h + t + n + o + m;
  }

  /**
   * A PRD produced by the product manager (its `dict()`) always renders,
   * under its own title, with each user story on its own line.
   */
  lemma RecordRenders(p: Schema.PRD, key: string, generated: string)
    ensures PrdMarkdown(Schema.PrdToValue(p).entries, key, generated).Some?
    ensures StartsWith(PrdHeader(Schema.PrdToValue(p).entries, key, generated),
      "# Product Requirements Document (PRD)\n**Ticket:** " + key + "\n**Generated:** " + generated + "\n\n## " + p.title)
    ensures PrdMarkdown(Schema.PrdToValue(p).entries, key, generated).value ==
      PrdBody(PrdHeader(Schema.PrdToValue(p).entries, key, generated), Schema.StrList(p.userStories).items,
              Schema.StrList(p.technicalRequirements).items, Schema.StrDict(p.nonFunctionalRequirements).entries,
              Schema.StrList(p.outOfScope).items, Schema.StrList(p.successMetrics).items)
  {
    Schema.PrdLookups(p);
    FieldsRender(Schema.PrdToValue(p).entries, p, key, generated);
  }

  /** Any dictionary holding a PRD's encoded fields renders the way the PRD's own dictionary does. */
  lemma FieldsRender(es: seq<(string, Value)>, p: Schema.PRD, key: string, generated: string)
    requires Lookup(es, "title") == Some(Str(p.title))
    requires Lookup(es, "user_stories") == Some(Schema.StrList(p.userStories))
    requires Lookup(es, "technical_requirements") == Some(Schema.StrList(p.technicalRequirements))
    requires Lookup(es, "non_functional_requirements") == Some(Schema.StrDict(p.nonFunctionalRequirements))
    requires Lookup(es, "out_of_scope") == Some(Schema.StrList(p.outOfScope))
    requires Lookup(es, "success_metrics") == Some(Schema.StrList(p.successMetrics))
    ensures PrdMarkdown(es, key, generated).Some?
    ensures StartsWith(PrdHeader(es, key, generated),
      "# Product Requirements Document (PRD)\n**Ticket:** " + key + "\n**Generated:** " + generated + "\n\n## " + p.title)
    ensures PrdMarkdown(es, key, generated).value ==
      PrdBody(PrdHeader(es, key, generated), Schema.StrList(p.userStories).items,
              Schema.StrList(p.technicalRequirements).items, Schema.StrDict(p.nonFunctionalRequirements).entries,
              Schema.StrList(p.outOfScope).items, Schema.StrList(p.successMetrics).items)
  {
    var t := PyStr(Field(es, "title", Str("Product Requirements Document")));
    var intro := PyStr(Field(es, "introduction", Str("No introduction provided.")));
    var problem := PyStr(Field(es, "problem_statement", Str("No problem statement provided.")));
    var a := "# Product Requirements Document (PRD)\n**Ticket:** " + key + "\n**Generated:** " + generated + "\n\n## " + t;
    StartsAndContains(a, "\n\n### Introduction\n", intro, "\n\n### Problem Statement\n");
    StartsLeft(a + "\n\n### Introduction\n" + intro + "\n\n### Problem Statement\n", problem, a);
    StartsLeft(a + "\n\n### Introduction\n" + intro + "\n\n### Problem Statement\n" + problem, "\n\n### User Stories\n", a);
    assert t == p.title;
  }
}
