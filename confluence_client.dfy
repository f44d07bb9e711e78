/*
 * The Confluence client's pure parts: reading its configuration from the
 * environment, and the markdown-to-storage-format conversion, a chain of
 * textual replacements followed by a line-by-line pass that wraps list runs
 * in `<ul>`/`<ol>` tags.
 */
module Confluence {
  import opened PyText
  import opened Values

  /* ---------- configuration ---------- */

  datatype ConfluenceConfig = ConfluenceConfig(baseUrl: string, username: string, apiToken: string, spaceKey: string)

  /** `s.rstrip('/')`. */
  function RStripSlash(s: string): (r: string)
    ensures |r| <= |s| && r == s[..|r|]
    ensures r == [] || r[|r| - 1] != '/'
    ensures forall i :: |r| <= i < |s| ==> s[i] == '/'
  {
    if |s| > 0 && s[|s| - 1] == '/' then RStripSlash(s[..|s| - 1]) else s
  }

  /** `os.getenv(name)` is truthy: set and non-empty. */
  predicate Set(env: map<string, string>, name: string) {
    name in env && |env[name]| > 0
  }

  /**
   * The configuration, or `None` (mock mode) unless the base URL, user name
   * and API token are all set and non-empty; the space key defaults to "DEV".
   */
  function LoadConfig(env: map<string, string>): (c: Option<ConfluenceConfig>)
    ensures c.Some? <==> Set(env, "CONFLUENCE_BASE_URL") && Set(env, "CONFLUENCE_USERNAME") && Set(env, "CONFLUENCE_API_TOKEN")
    ensures c.Some? ==> c.value.username == env["CONFLUENCE_USERNAME"] && c.value.apiToken == env["CONFLUENCE_API_TOKEN"]
    ensures c.Some? && "CONFLUENCE_SPACE_KEY" !in env ==> c.value.spaceKey == "DEV"
    ensures c.Some? && "CONFLUENCE_SPACE_KEY" in env ==> c.value.spaceKey == env["CONFLUENCE_SPACE_KEY"]
    ensures c.Some? ==>
      StartsWith(env["CONFLUENCE_BASE_URL"], c.value.baseUrl)
      && (c.value.baseUrl == [] || c.value.baseUrl[|c.value.baseUrl| - 1] != '/')
  {
    var spaceKey := if "CONFLUENCE_SPACE_KEY" in env then env["CONFLUENCE_SPACE_KEY"] else "DEV";
    if !(Set(env, "CONFLUENCE_BASE_URL") && Set(env, "CONFLUENCE_USERNAME") && Set(env, "CONFLUENCE_API_TOKEN")) then None
    else Some(ConfluenceConfig(RStripSlash(env["CONFLUENCE_BASE_URL"]), env["CONFLUENCE_USERNAME"],
                               env["CONFLUENCE_API_TOKEN"], spaceKey))
  }

  /* ---------- inline replacements ---------- */

  /** The replacement chain, rule by rule in the converter's order. */
  function ConvertInline(md: string): string {
    var h1 := Replace(Replace(md, "# ", "<h1>"), "\n# ", "</h1>\n<h1>");
    var h2 := Replace(Replace(h1, "## ", "<h2>"), "\n## ", "</h2>\n<h2>");
    var h3 := Replace(Replace(h2, "### ", "<h3>"), "\n### ", "</h3>\n<h3>");
    var strong := Replace(Replace(h3, "**", "<strong>"), "**", "</strong>");
    Replace(Replace(strong, "*", "<em>"), "*", "</em>")
  }

  /**
   * Once every `# ` has become `<h1>`, no `# ` is left, so the closing-tag
   * rule for `\n# ` and all the `##`/`###` rules change nothing; likewise the
   * second `**` and `*` rules. The result holds no `*` at all.
   */
  lemma InlineRulesThatFire(md: string)
    ensures ConvertInline(md) == Replace(Replace(Replace(md, "# ", "<h1>"), "**", "<strong>"), "*", "<em>")
    ensures Lacks(ConvertInline(md), '*')
    ensures !Contains(Replace(md, "# ", "<h1>"), "# ")
  {
    var t1 := Replace(md, "# ", "<h1>");
    ReplacePairRemoves(md, '#', ' ', "<h1>");
    NoPairNotContains(t1, '#', ' ');
    NotContainsLongerLeft(t1, "\n", "# ");
    assert "\n" + "# " == "\n# ";
    ReplaceAbsent(t1, "\n# ", "</h1>\n<h1>");
    NotContainsLongerLeft(t1, "#", "# ");
    assert "#" + "# " == "## ";
    ReplaceAbsent(t1, "## ", "<h2>");
    NotContainsLongerLeft(t1, "\n#", "# ");
    assert "\n#" + "# " == "\n## ";
    ReplaceAbsent(t1, "\n## ", "</h2>\n<h2>");
    NotContainsLongerLeft(t1, "##", "# ");
    assert "##" + "# " == "### ";
    ReplaceAbsent(t1, "### ", "<h3>");
    NotContainsLongerLeft(t1, "\n##", "# ");
    assert "\n##" + "# " == "\n### ";
    ReplaceAbsent(t1, "\n### ", "</h3>\n<h3>");
    var t2 := Replace(t1, "**", "<strong>");
    ReplacePairRemoves(t1, '*', '*', "<strong>");
    NoPairNotContains(t2, '*', '*');
    ReplaceAbsent(t2, "**", "</strong>");
    var t3 := Replace(t2, "*", "<em>");
    ReplaceCharRemoves(t2, '*', "<em>");
    LacksNotContains(t3, '*');
    ReplaceAbsent(t3, "*", "</em>");
  }

  /* ---------- list pass: the converter's state machine ---------- */

  /** `line.strip().startswith(('1. ', ..., '9. '))`. */
  predicate NumberedItem(t: string) {
    |t| >= 3 && '1' <= t[0] <= '9' && t[1] == '.' && t[2] == ' '
  }

  predicate BulletItem(t: string) {
    StartsWith(t, "- ") || StartsWith(t, "* ")
  }

  datatype LineKind = Bullet | Numbered | Plain

  function KindOf(line: string): LineKind {
    var t := Strip(line);
    if BulletItem(t) then Bullet else if NumberedItem(t) then Numbered else Plain
  }

  /** What a line becomes: an item's text after its marker, wrapped in `<li>`; any other line as it is. */
  function Image(line: string): string {
    var t := Strip(line);
    match KindOf(line)
    case Bullet => "<li>" + t[2..] + "</li>"
    case Numbered => "<li>" + t[3..] + "</li>"
    case Plain => line
  }

  function Opener(k: LineKind): string {
    if k == Bullet then "<ul>" else "<ol>"
  }

  /** The lines emitted so far and the `in_list` flag. */
  datatype ListState = ListState(processed: seq<string>, inList: bool)

  /** Inside a list at least the opener and one item have been emitted. */
  predicate ValidState(st: ListState) {
    st.inList ==> |st.processed| >= 2
  }

  /**
   * One iteration of the converter's loop: an item line opens a list when
   * none is open and becomes its image; any other line first closes an open
   * list, with the tag chosen by looking at the line before the last one
   * emitted.
   */
  function Step(st: ListState, line: string): (r: ListState)
    requires ValidState(st)
    ensures ValidState(r)
  {
    var kind := KindOf(line);
    if kind != Plain then
      var withOpener := if !st.inList then st.processed + [Opener(kind)] else st.processed;
      ListState(withOpener + [Image(line)], true)
    else
      var p := st.processed;
      var closed := if st.inList then p + [if StartsWith(p[|p| - 2], "<li>") then "</ul>" else "</ol>"] else p;
      ListState(closed + [line], false)
  }

  function Fold(lines: seq<string>): (st: ListState)
    ensures ValidState(st)
  {
    if |lines| == 0 then ListState([], false) else Step(Fold(lines[..|lines| - 1]), lines[|lines| - 1])
  }

  /** After the last line an open list is always closed with `</ul>`. */
  function Finish(st: ListState): seq<string> {
    if st.inList then st.processed + ["</ul>"] else st.processed
  }

  method MarkdownToConfluence(md: string) returns (out: string)
    ensures out == Join(Finish(Fold(Split(ConvertInline(md), "\n"))), "\n")
  {
    var content := ConvertInline(md);
    var lines := Split(content, "\n");
    var processed: seq<string> := [];
    var inList := false;
    for i := 0 to |lines|
      invariant ListState(processed, inList) == Fold(lines[..i])
    {
      var line := lines[i];
      ghost var next := Step(ListState(processed, inList), line);
      assert lines[..i + 1][..i] == lines[..i];
      assert Fold(lines[..i + 1]) == next;
      var t := Strip(line);
      if StartsWith(t, "- ") || StartsWith(t, "* ") {
        if !inList {
          processed := processed + ["<ul>"];
          inList := true;
        }
        processed := processed + ["<li>" + t[2..] + "</li>"];
        assert KindOf(line) == Bullet && Image(line) == "<li>" + t[2..] + "</li>";
      } else if NumberedItem(t) {
        if !inList {
          processed := processed + ["<ol>"];
          inList := true;
        }
        processed := processed + ["<li>" + t[3..] + "</li>"];
        assert KindOf(line) == Numbered && Image(line) == "<li>" + t[3..] + "</li>";
      } else {
        if inList {
          processed := processed + [if StartsWith(processed[|processed| - 2], "<li>") then "</ul>" else "</ol>"];
          inList := false;
        }
        processed := processed + [line];
        assert KindOf(line) == Plain;
      }
      assert ListState(processed, inList) == next;
    }
    assert lines[..|lines|] == lines;
    if inList {
      processed := processed + ["</ul>"];
    }
    out := Join(processed, "\n");
  }

  /* ---------- the list pass, described by runs ---------- */

  /** The number of list lines at the end of `lines`. */
  function RunLength(lines: seq<string>): (n: nat)
    ensures n <= |lines|
  {
    if |lines| == 0 || KindOf(lines[|lines| - 1]) == Plain then 0
    else RunLength(lines[..|lines| - 1]) + 1
  }

  /** The closer of a run of `n` items: `</ul>` for two or more, `</ol>` for one. */
  function Closer(n: nat): string {
    if n >= 2 then "</ul>" else "</ol>"
  }

  /**
   * The reference output: each line's image in order, an opener before the
   * first item of a run (chosen by that item's kind), a closer before the
   * plain line that ends a run (chosen by the run's length).
   */
  function Reference(lines: seq<string>): seq<string> {
    if |lines| == 0 then []
    else
      var init := lines[..|lines| - 1];
      var line := lines[|lines| - 1];
      var before :=
        if KindOf(line) == Plain then (if RunLength(init) > 0 then [Closer(RunLength(init))] else [])
        else (if RunLength(init) == 0 then [Opener(KindOf(line))] else []);
      Reference(init) + before + [Image(line)]
  }

  function ReferenceOutput(lines: seq<string>): seq<string> {
    Reference(lines) + (if RunLength(lines) > 0 then ["</ul>"] else [])
  }

  /**
   * The converter's loop computes the reference output: `in_list` holds
   * exactly while a run is open, and its look at the line before last is
   * a look at the run's length.
   */
  lemma {:induction false} FoldIsReference(lines: seq<string>)
    ensures Fold(lines).processed == Reference(lines)
    ensures Fold(lines).inList <==> RunLength(lines) > 0
    ensures RunLength(lines) > 0 ==>
      var r := Reference(lines);
      |r| >= 2 && StartsWith(r[|r| - 1], "<li>")
      && (StartsWith(r[|r| - 2], "<li>") <==> RunLength(lines) >= 2)
  {
    if |lines| > 0 {
      var init := lines[..|lines| - 1];
      FoldIsReference(init);
      var line := lines[|lines| - 1];
      if KindOf(line) == Plain {
        PlainAgrees(lines);
      } else if RunLength(init) > 0 {
        ItemContinuesAgrees(lines);
      } else {
        ItemOpensAgrees(lines);
      }
    }
  }

  /** The three facts `FoldIsReference` states about `lines`. */
  ghost predicate Agrees(lines: seq<string>) {
    && Fold(lines).processed == Reference(lines)
    && (Fold(lines).inList <==> RunLength(lines) > 0)
    && (RunLength(lines) > 0 ==>
          var r := Reference(lines);
          |r| >= 2 && StartsWith(r[|r| - 1], "<li>")
          && (StartsWith(r[|r| - 2], "<li>") <==> RunLength(lines) >= 2))
  }

  /** An item's image is an `<li>` line. */
  lemma ItemImage(line: string)
    requires KindOf(line) != Plain
    ensures StartsWith(Image(line), "<li>")
  {
  }

  lemma PlainAgrees(lines: seq<string>)
    requires |lines| > 0 && KindOf(lines[|lines| - 1]) == Plain
    requires Agrees(lines[..|lines| - 1])
    ensures Agrees(lines)
  {
  }

  lemma ItemContinuesAgrees(lines: seq<string>)
    requires |lines| > 0 && KindOf(lines[|lines| - 1]) != Plain
    requires RunLength(lines[..|lines| - 1]) > 0
    requires Agrees(lines[..|lines| - 1])
    ensures Agrees(lines)
  {
    var init, line := lines[..|lines| - 1], lines[|lines| - 1];
    var r0 := Reference(init);
    var r := Reference(lines);
    ItemImage(line);
    assert r == r0 + [Image(line)];
    assert r[|r| - 2] == r0[|r0| - 1];
  }

  lemma ItemOpensAgrees(lines: seq<string>)
    requires |lines| > 0 && KindOf(lines[|lines| - 1]) != Plain
    requires RunLength(lines[..|lines| - 1]) == 0
    requires Agrees(lines[..|lines| - 1])
    ensures Agrees(lines)
  {
    var init, line := lines[..|lines| - 1], lines[|lines| - 1];
    var r0 := Reference(init);
    var r := Reference(lines);
    ItemImage(line);
    OpenersAreNotItems();
    assert r == r0 + [Opener(KindOf(line)), Image(line)];
  }

  lemma OpenersAreNotItems()
    ensures !StartsWith("<ul>", "<li>") && !StartsWith("<ol>", "<li>")
  {
    assert "<ul>"[1] != "<li>"[1];
    assert "<ol>"[1] != "<li>"[1];
  }

  /** The whole conversion, stated with the reference output. */
  lemma ConversionIsReference(md: string)
    ensures Join(Finish(Fold(Split(ConvertInline(md), "\n"))), "\n")
         == Join(ReferenceOutput(Split(ConvertInline(md), "\n")), "\n")
  {
    var lines := Split(ConvertInline(md), "\n");
    FoldIsReference(lines);
    assert Finish(Fold(lines)) == ReferenceOutput(lines);
  }

  /** The number of list runs: lines that are items following a non-item (or the start). */
  function Runs(lines: seq<string>): nat {
    if |lines| == 0 then 0
    else
      var init := lines[..|lines| - 1];
      Runs(init) + (if KindOf(lines[|lines| - 1]) != Plain && RunLength(init) == 0 then 1 else 0)
  }

  /**
   * Each input line yields exactly one output line, and each list run adds
   * exactly one opener and one closer.
   */
  lemma {:induction false} ReferenceCount(lines: seq<string>)
    ensures |Reference(lines)| + (if RunLength(lines) > 0 then 1 else 0) == |lines| + 2 * Runs(lines)
    ensures |ReferenceOutput(lines)| == |lines| + 2 * Runs(lines)
    ensures RunLength(lines) > 0 ==> Runs(lines) > 0
  {
    if |lines| > 0 {
      ReferenceCount(lines[..|lines| - 1]);
    }
  }

  /**
   * No line of the converted text starts with `* ` after stripping, since the
   * replacements removed every `*`: a bullet item always starts with `- `.
   */
  lemma StarBulletsNeverSeen(md: string)
    ensures forall k :: 0 <= k < |Split(ConvertInline(md), "\n")| ==>
      !StartsWith(Strip(Split(ConvertInline(md), "\n")[k]), "* ")
  {
    InlineRulesThatFire(md);
    LinesWithoutStar(ConvertInline(md));
  }

  lemma LinesWithoutStar(text: string)
    requires Lacks(text, '*')
    ensures forall k :: 0 <= k < |Split(text, "\n")| ==> !StartsWith(Strip(Split(text, "\n")[k]), "* ")
  {
    SplitPiecesLack(text, "\n", '*');
    var lines := Split(text, "\n");
    forall k | 0 <= k < |lines| ensures !StartsWith(Strip(lines[k]), "* ") {
      StripLacks(lines[k], '*');
    }
  }

  /* ---------- closing tags: the converter as written and as intended ---------- */

  /**
   * As written, the closing tag is chosen by the length of the run, not by
   * its opener: a one-item bullet list followed by a plain line is closed
   * with `</ol>`, and a numbered list still open at the end of the text
   * with `</ul>`.
   */
  lemma SingleBulletClosedAsOrdered(bullet: string, plain: string)
    requires KindOf(bullet) == Bullet && KindOf(plain) == Plain
    ensures Fold([bullet, plain]).processed == ["<ul>", Image(bullet), "</ol>", plain]
  {
    var afterItem := ListState(["<ul>", Image(bullet)], true);
    assert Fold([bullet]) == afterItem by { assert [bullet][..0] == []; }
    assert [bullet, plain][..1] == [bullet];
    OpenersAreNotItems();
    assert !StartsWith(afterItem.processed[0], "<li>");
  }

  lemma NumberedListClosedAsBullets(numbered: string)
    requires KindOf(numbered) == Numbered
    ensures Finish(Fold([numbered])) == ["<ol>", Image(numbered), "</ul>"]
  {
    assert [numbered][..0] == [];
  }

  function CloseTag(k: LineKind): string {
    if k == Bullet then "</ul>" else "</ol>"
  }

  /** The intended converter remembers the kind of the open list, if any, and closes it with the matching tag. */
  datatype FixedState = FixedState(processed: seq<string>, open: Option<LineKind>)

  function FixedStep(st: FixedState, line: string): FixedState {
    var kind := KindOf(line);
    if kind != Plain then
      var withOpener := if st.open.None? then st.processed + [Opener(kind)] else st.processed;
      FixedState(withOpener + [Image(line)], if st.open.None? then Some(kind) else st.open)
    else
      var closed := if st.open.Some? then st.processed + [CloseTag(st.open.value)] else st.processed;
      FixedState(closed + [line], None)
  }

  function FixedFold(lines: seq<string>): FixedState {
    if |lines| == 0 then FixedState([], None) else FixedStep(FixedFold(lines[..|lines| - 1]), lines[|lines| - 1])
  }

  function FixedFinish(st: FixedState): seq<string> {
    if st.open.Some? then st.processed + [CloseTag(st.open.value)] else st.processed
  }

  function FixedMarkdownToConfluence(md: string): string {
    Join(FixedFinish(FixedFold(Split(ConvertInline(md), "\n"))), "\n")
  }

  /** In the intended converter the pending closer always partners the opener of the current run. */
  lemma {:induction false} FixedClosesWhatItOpened(lines: seq<string>)
    ensures OpenerInPlace(FixedFold(lines), RunLength(lines))
  {
    if |lines| > 0 {
      var init := lines[..|lines| - 1];
      var line := lines[|lines| - 1];
      FixedClosesWhatItOpened(init);
      FixedStepKeepsOpener(FixedFold(init), line, RunLength(init));
      assert FixedFold(lines) == FixedStep(FixedFold(init), line);
      assert RunLength(lines) == if KindOf(line) == Plain then 0 else RunLength(init) + 1;
    }
  }

  /**
   * A list is open exactly while a run of `m` items is, and the run's opener
   * sits just before its items, with the kind the closer will be chosen by.
   */
  predicate OpenerInPlace(st: FixedState, m: nat) {
    (st.open.Some? <==> m > 0)
    && (st.open.Some? ==> |st.processed| > m && st.processed[|st.processed| - m - 1] == Opener(st.open.value))
  }

  /** One step of the intended converter keeps the opener of the open list in its place. */
  lemma FixedStepKeepsOpener(st: FixedState, line: string, m: nat)
    requires OpenerInPlace(st, m)
    ensures OpenerInPlace(FixedStep(st, line), if KindOf(line) == Plain then 0 else m + 1)
  {
    var p0 := st.processed;
    var p := FixedStep(st, line).processed;
    if KindOf(line) != Plain && m > 0 {
      var img := Image(line);
      assert p == p0 + [img];
      assert p[|p0| - m - 1] == p0[|p0| - m - 1];
    } else if KindOf(line) != Plain {
      assert p == p0 + [Opener(KindOf(line)), Image(line)];
    }
  }

  /** The two closing tags made indistinguishable. */
  function Unify(line: string): string {
    if line == "</ol>" then "</ul>" else line
  }

  function Blur(p: seq<string>): seq<string> {
    if |p| == 0 then [] else Blur(p[..|p| - 1]) + [Unify(p[|p| - 1])]
  }

  lemma BlurSnoc(p: seq<string>, x: string)
    ensures Blur(p + [x]) == Blur(p) + [Unify(x)]
  {
    assert (p + [x])[..|p|] == p;
  }

  /**
   * The intended converter emits the same lines as the one as written, in the
   * same places, except that a closing tag may be the other one.
   */
  lemma {:induction false} FixedDiffersOnlyInClosers(lines: seq<string>)
    ensures FixedFold(lines).open.Some? == Fold(lines).inList
    ensures Blur(FixedFold(lines).processed) == Blur(Fold(lines).processed)
  {
    if |lines| > 0 {
      var init := lines[..|lines| - 1];
      FixedDiffersOnlyInClosers(init);
      StepsBlurAlike(Fold(init), FixedFold(init), lines[|lines| - 1]);
    }
  }

  /** One step of each converter, from states that agree up to closing tags, appends lines that agree up to closing tags. */
  lemma StepsBlurAlike(st: ListState, fst: FixedState, line: string)
    requires ValidState(st) && fst.open.Some? == st.inList && Blur(fst.processed) == Blur(st.processed)
    ensures FixedStep(fst, line).open.Some? == Step(st, line).inList
    ensures Blur(FixedStep(fst, line).processed) == Blur(Step(st, line).processed)
  {
    var p0 := st.processed;
    var q0 := fst.processed;
    var kind := KindOf(line);
    if kind != Plain && st.inList {
      BlurSnoc(p0, Image(line));
      BlurSnoc(q0, Image(line));
    } else if kind != Plain {
      BlurSnoc(p0, Opener(kind));
      BlurSnoc(q0, Opener(kind));
      BlurSnoc(p0 + [Opener(kind)], Image(line));
      BlurSnoc(q0 + [Opener(kind)], Image(line));
    } else if st.inList {
      var closer := if StartsWith(p0[|p0| - 2], "<li>") then "</ul>" else "</ol>";
      var fixedCloser := CloseTag(fst.open.value);
      assert Unify(closer) == Unify(fixedCloser);
      BlurSnoc(p0, closer);
      BlurSnoc(q0, fixedCloser);
      BlurSnoc(p0 + [closer], line);
      BlurSnoc(q0 + [fixedCloser], line);
    } else {
      BlurSnoc(p0, line);
      BlurSnoc(q0, line);
    }
  }
}
