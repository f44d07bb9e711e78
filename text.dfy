/** Python string operations used throughout the pipeline, written out over
    `string` (a sequence of Unicode scalar values, as Python's `str`). */
module PyText {

  /** `s[:n]` for a non-negative `n`. */
  function Take(s: string, n: nat): (r: string)
    ensures |r| == if n <= |s| then n else |s|
    ensures r == s[..|r|]
  {
    if n <= |s| then s[..n] else s
  }

  /** `s[:n]` for any integer `n`, with Python's negative-index semantics. */
  function PySliceTo<T>(s: seq<T>, n: int): (r: seq<T>)
    ensures 0 <= n ==> |r| == if n <= |s| then n else |s|
    ensures n < 0 ==> |r| == if -n <= |s| then |s| + n else 0
    ensures r == s[..|r|]
  {
    if 0 <= n then (if n <= |s| then s[..n] else s)
    else if -n <= |s| then s[..|s| + n] else []
  }

  predicate StartsWith(s: string, p: string) {
    |p| <= |s| && s[..|p|] == p
  }

  predicate EndsWith(s: string, p: string) {
    |p| <= |s| && s[|s| - |p|..] == p
  }

  /** `p` occurs in `s` at index `i`. */
  predicate OccursAt(s: string, p: string, i: int) {
    0 <= i && i + |p| <= |s| && s[i..i + |p|] == p
  }

  /** `str.find(p, start)`: the first index at or after `start` where `p` occurs, or -1. */
  function Find(s: string, p: string, start: nat): (r: int)
    ensures r == -1 || (start <= r && OccursAt(s, p, r))
    decreases |s| - start
  {
    if start + |p| > |s| then -1
    else if s[start..start + |p|] == p then start
    else Find(s, p, start + 1)
  }

  /** `Find` returns the first occurrence: no earlier index at or after `start` matches. */
  lemma {:induction false} FindFirst(s: string, p: string, start: nat)
    ensures Find(s, p, start) == -1 ==> forall i :: start <= i ==> !OccursAt(s, p, i)
    ensures Find(s, p, start) >= 0 ==> forall i :: start <= i < Find(s, p, start) ==> !OccursAt(s, p, i)
    decreases |s| - start
  {
    if start + |p| <= |s| && s[start..start + |p|] != p {
      FindFirst(s, p, start + 1);
    }
  }

  /** `s.rfind(c)`: the last index holding `c`, or -1. */
  function LastIndex(s: string, c: char): (r: int)
    ensures -1 <= r < |s|
    ensures r >= 0 ==> s[r] == c
    ensures forall j :: r < j < |s| ==> s[j] != c
  {
    if |s| == 0 then -1
    else if s[|s| - 1] == c then |s| - 1
    else LastIndex(s[..|s| - 1], c)
  }

  /** `LastIndex` finds the position after which `c` no longer occurs. */
  lemma {:induction false} LastIndexIs(s: string, c: char, k: int)
    requires 0 <= k < |s| && s[k] == c && forall j :: k < j < |s| ==> s[j] != c
    ensures LastIndex(s, c) == k
    decreases |s|
  {
    if |s| - 1 != k {
      LastIndexIs(s[..|s| - 1], c, k);
    }
  }

  /** The `in` operator on strings: `p in s`. */
  predicate Contains(s: string, p: string) {
    Find(s, p, 0) >= 0
  }

  /** An occurrence inside a slice is an occurrence in the whole text, shifted by the slice's start. */
  lemma OccursInSlice(s: string, p: string, a: nat, b: nat, j: int)
    requires a <= b <= |s| && OccursAt(s[a..b], p, j)
    ensures OccursAt(s, p, a + j)
  {
    var t := s[a..b];
    var u, v := t[j..j + |p|], s[a + j..a + j + |p|];
    forall k | 0 <= k < |p| ensures u[k] == v[k] {
      assert u[k] == t[j + k] == s[a + j + k];
    }
    assert u == v;
  }

  /** A slice of a text holds a phrase only if the phrase occurs in the text within the slice's bounds. */
  lemma SliceWithout(s: string, p: string, a: nat, b: nat)
    requires |p| > 0 && a <= b <= |s| && forall k :: a <= k < b ==> !OccursAt(s, p, k)
    ensures !Contains(s[a..b], p)
  {
    var j := Find(s[a..b], p, 0);
    if j >= 0 {
      OccursInSlice(s, p, a, b, j);
      assert false;
    }
  }

  /** The text from `start` up to the next occurrence (or the end) does not hold the phrase. */
  lemma NothingBeforeFind(s: string, p: string, start: nat, end: int)
    requires |p| > 0 && start <= end
    requires end == (if Find(s, p, start) == -1 then |s| else Find(s, p, start))
    ensures end <= |s| && !Contains(s[start..end], p)
  {
    FindFirst(s, p, start);
    SliceWithout(s, p, start, end);
  }

  lemma ContainsAt(s: string, p: string, i: int)
    requires OccursAt(s, p, i)
    ensures Contains(s, p)
  {
    FindFirst(s, p, 0);
  }

  lemma ContainsMiddle(a: string, p: string, b: string)
    ensures Contains(a + p + b, p)
  {
    assert (a + p + b)[|a|..|a| + |p|] == p;
    ContainsAt(a + p + b, p, |a|);
  }

  /** Four pieces joined start with the first and contain the third. */
  lemma StartsAndContains(a: string, b: string, c: string, d: string)
    ensures StartsWith(a + b + c + d, a) && Contains(a + b + c + d, c)
  {
    assert (a + b + c + d)[..|a|] == a;
    ContainsMiddle(a + b, c, d);
  }

  /** A string that contains `p` contains it when anything is added around it. */
  lemma ContainsExtend(a: string, s: string, b: string, p: string)
    requires Contains(s, p)
    ensures Contains(a + s + b, p)
  {
    var i := Find(s, p, 0);
    assert (a + s + b)[|a| + i..|a| + i + |p|] == s[i..i + |p|];
    ContainsAt(a + s + b, p, |a| + i);
  }

  /** Adding text after a string keeps what it contains. */
  lemma ContainsLeft(a: string, b: string, p: string)
    requires Contains(a, p)
    ensures Contains(a + b, p)
  {
    ContainsExtend("", a, b, p);
    assert "" + a + b == a + b;
  }

  /** Adding text before a string keeps what it contains. */
  lemma ContainsRight(a: string, b: string, p: string)
    requires Contains(b, p)
    ensures Contains(a + b, p)
  {
    ContainsExtend(a, b, "", p);
    assert a + b + "" == a + b;
  }

  /** A string ends with whatever was added last. */
  lemma EndsRight(a: string, b: string)
    ensures EndsWith(a + b, b)
  {
    assert (a + b)[|a|..] == b;
  }

  /** Adding text after a string keeps how it starts. */
  lemma StartsLeft(a: string, b: string, p: string)
    requires StartsWith(a, p)
    ensures StartsWith(a + b, p)
  {
    assert (a + b)[..|p|] == a[..|p|];
  }

  /** `in` is transitive: a pattern inside a substring is inside the whole string. */
  lemma ContainsTrans(s: string, t: string, p: string)
    requires Contains(s, t) && Contains(t, p)
    ensures Contains(s, p)
  {
    var i := Find(s, t, 0);
    var j := Find(t, p, 0);
    assert s[i..i + |t|] == t;
    OccursInSlice(s, p, i, i + |t|, j);
    ContainsAt(s, p, i + j);
  }

  /** Every piece of a concatenation occurs in it. */
  lemma ConcatContains(parts: seq<string>, i: nat)
    requires i < |parts|
    ensures Contains(Concat(parts), parts[i])
  {
    var front := parts[..i + 1];
    var back := parts[i + 1..];
    assert parts == front + back;
    ConcatAppend(front, back);
    ConcatPrefix(parts, i);
    var whole := Concat(parts[..i]) + parts[i] + Concat(back);
    assert Concat(parts) == whole;
    ContainsMiddle(Concat(parts[..i]), parts[i], Concat(back));
  }

  function LowerChar(c: char): char {
    if 'A' <= c <= 'Z' then (c as int + 32) as char else c
  }

  /** `str.lower()` restricted to ASCII letters. */
  function Lower(s: string): (r: string)
    ensures |r| == |s|
    ensures forall i :: 0 <= i < |s| ==> r[i] == LowerChar(s[i])
  {
    seq(|s|, i requires 0 <= i < |s| => LowerChar(s[i]))
  }

  /** The characters for which Python's `str.isspace()` is true. */
  predicate IsSpace(c: char) {
    ('\t' <= c <= '\r') || ('\U{1C}' <= c <= ' ') || c == '\U{85}' || c == '\U{A0}'
    || c == '\U{1680}' || ('\U{2000}' <= c <= '\U{200A}') || c == '\U{2028}' || c == '\U{2029}'
    || c == '\U{202F}' || c == '\U{205F}' || c == '\U{3000}'
  }

  function StripLeft(s: string): (r: string)
    ensures |r| <= |s| && r == s[|s| - |r|..]
    ensures r == [] || !IsSpace(r[0])
  {
    if |s| > 0 && IsSpace(s[0]) then StripLeft(s[1..]) else s
  }

  function StripRight(s: string): (r: string)
    ensures |r| <= |s| && r == s[..|r|]
    ensures r == [] || !IsSpace(r[|r| - 1])
  {
    if |s| > 0 && IsSpace(s[|s| - 1]) then StripRight(s[..|s| - 1]) else s
  }

  /** `str.strip()`. */
  function Strip(s: string): (r: string)
    ensures |r| <= |s|
    ensures r == [] || (!IsSpace(r[0]) && !IsSpace(r[|r| - 1]))
  {
    StripRight(StripLeft(s))
  }

  /** A string with no surrounding whitespace is its own strip. */
  lemma StripTrimmed(s: string)
    requires |s| > 0 && !IsSpace(s[0]) && !IsSpace(s[|s| - 1])
    ensures Strip(s) == s
  {
    assert StripLeft(s) == s;
  }

  /** Stripping a string that starts with a non-space character keeps that start. */
  lemma StripKeepsStart(s: string, p: string)
    requires StartsWith(s, p) && |p| > 0 && !IsSpace(p[0])
    ensures StartsWith(Strip(s), p) || (exists k :: 0 < k < |p| && Strip(s) == p[..k])
  {
    assert StripLeft(s) == s;
    StripRightPrefix(s, p);
  }

  lemma StripRightPrefix(s: string, p: string)
    requires StartsWith(s, p) && |p| > 0 && !IsSpace(p[0])
    ensures StartsWith(StripRight(s), p) || (exists k :: 0 < k < |p| && StripRight(s) == p[..k])
    decreases |s|
  {
    if |s| > 0 && IsSpace(s[|s| - 1]) {
      if |s| - 1 >= |p| {
        assert StartsWith(s[..|s| - 1], p);
        StripRightPrefix(s[..|s| - 1], p);
      } else {
        var r := StripRight(s);
        assert r == s[..|r|];
        assert |r| > 0 by { assert !IsSpace(s[0]); StripRightKeepsNonSpace(s, 0); }
        assert r == p[..|r|];
      }
    }
  }

  lemma StripRightKeepsNonSpace(s: string, i: nat)
    requires i < |s| && !IsSpace(s[i])
    ensures |StripRight(s)| > i
    decreases |s|
  {
    if |s| > 0 && IsSpace(s[|s| - 1]) {
      StripRightKeepsNonSpace(s[..|s| - 1], i);
    }
  }

  /** `str.split(sep)` for a non-empty separator. */
  function Split(s: string, sep: string): (r: seq<string>)
    requires |sep| > 0
    ensures |r| >= 1
    decreases |s|
  {
    var i := Find(s, sep, 0);
    if i < 0 then [s] else [s[..i]] + Split(s[i + |sep|..], sep)
  }

  /** The text of `s` before index `j`, or all of `s` when `j` is negative (the -1 of a failed `find`). */
  function UpTo(s: string, j: int): string {
    if j < 0 || j > |s| then s else s[..j]
  }

  /** With the separator first at `i` and next at `j` after it, the first two pieces are the texts around it. */
  lemma SplitFirstTwo(s: string, sep: string, i: nat, j: int)
    requires |sep| > 0
    requires i == Find(s, sep, 0) && j == Find(s[i + |sep|..], sep, 0)
    ensures |Split(s, sep)| >= 2 && Split(s, sep)[0] == s[..i]
    ensures Split(s, sep)[1] == UpTo(s[i + |sep|..], j)
  {
    SplitHead(s, sep);
    SplitHead(s[i + |sep|..], sep);
  }

  /** `sep.join(parts)`. */
  function Join(parts: seq<string>, sep: string): string {
    if |parts| == 0 then ""
    else if |parts| == 1 then parts[0]
    else parts[0] + sep + Join(parts[1..], sep)
  }

  /** Joining the pieces of a split with the same separator gives back the text. */
  lemma {:induction false} JoinSplit(s: string, sep: string)
    requires |sep| > 0
    ensures Join(Split(s, sep), sep) == s
    decreases |s|
  {
    var i := Find(s, sep, 0);
    if i >= 0 {
      JoinSplit(s[i + |sep|..], sep);
      JoinSplitStep(s, sep, i);
    } else {
      assert Split(s, sep) == [s];
    }
  }

  lemma JoinSplitStep(s: string, sep: string, i: int)
    requires |sep| > 0 && i == Find(s, sep, 0) >= 0
    requires Join(Split(s[i + |sep|..], sep), sep) == s[i + |sep|..]
    ensures Join(Split(s, sep), sep) == s
  {
    SplitUnfold(s, sep);
    JoinCons(s[..i], Split(s[i + |sep|..], sep), sep);
    SplitAround(s, sep, i);
  }

  lemma SplitUnfold(s: string, sep: string)
    requires |sep| > 0 && Find(s, sep, 0) >= 0
    ensures Split(s, sep) == [s[..Find(s, sep, 0)]] + Split(s[Find(s, sep, 0) + |sep|..], sep)
  {
  }

  lemma SplitAround(s: string, sep: string, i: int)
    requires OccursAt(s, sep, i)
    ensures s == s[..i] + sep + s[i + |sep|..]
  {
    assert s == s[..i] + s[i..i + |sep|] + s[i + |sep|..];
  }

  /** A join starts with its first part. */
  lemma JoinStarts(parts: seq<string>, sep: string)
    requires |parts| > 0
    ensures StartsWith(Join(parts, sep), parts[0])
  {
    if |parts| > 1 {
      var rest := sep + Join(parts[1..], sep);
      assert Join(parts, sep) == parts[0] + rest;
      assert (parts[0] + rest)[..|parts[0]|] == parts[0];
    }
  }

  lemma JoinCons(x: string, parts: seq<string>, sep: string)
    requires |parts| > 0
    ensures Join([x] + parts, sep) == x + sep + Join(parts, sep)
  {
    assert ([x] + parts)[1..] == parts;
  }

  /** The first piece of a split is the text before the first occurrence of the separator. */
  lemma SplitHead(s: string, sep: string)
    requires |sep| > 0
    ensures Find(s, sep, 0) < 0 ==> Split(s, sep) == [s]
    ensures Find(s, sep, 0) >= 0 ==>
      (Split(s, sep)[0] == s[..Find(s, sep, 0)]
      && |Split(s, sep)| >= 2
      && Split(s, sep)[1..] == Split(s[Find(s, sep, 0) + |sep|..], sep))
  {
  }

  /** No piece of a split contains the separator. */
  lemma {:induction false} SplitPiecesFree(s: string, sep: string)
    requires |sep| > 0
    ensures forall k :: 0 <= k < |Split(s, sep)| ==> !Contains(Split(s, sep)[k], sep)
    decreases |s|
  {
    var i := Find(s, sep, 0);
    if i < 0 {
    } else {
      FindFirst(s, sep, 0);
      var rest := s[i + |sep|..];
      SplitPiecesFree(rest, sep);
      forall j | 0 <= j && j + |sep| <= i
        ensures !OccursAt(s[..i], sep, j)
      {
        assert s[..i][j..j + |sep|] == s[j..j + |sep|];
        assert j < i;
        assert !OccursAt(s, sep, j);
      }
      var r := Split(s, sep);
      assert r == [s[..i]] + Split(rest, sep);
      forall k | 0 <= k < |r| ensures !Contains(r[k], sep) {
        if k > 0 {
          assert r[k] == Split(rest, sep)[k - 1];
        }
      }
    }
  }

  /** `str.replace(p, q)` for a non-empty `p`: left to right, non-overlapping. */
  function Replace(s: string, p: string, q: string): (r: string)
    requires |p| > 0
    decreases |s|
  {
    if |s| < |p| then s
    else if s[..|p|] == p then q + Replace(s[|p|..], p, q)
    else [s[0]] + Replace(s[1..], p, q)
  }

  /** Replacing a pattern that does not occur changes nothing. */
  lemma {:induction false} ReplaceAbsent(s: string, p: string, q: string)
    requires |p| > 0 && !Contains(s, p)
    ensures Replace(s, p, q) == s
    decreases |s|
  {
    if |s| >= |p| {
      FindFirst(s, p, 0);
      assert !OccursAt(s, p, 0);
      forall i | 0 <= i && i + |p| <= |s| - 1 ensures !OccursAt(s[1..], p, i) {
        assert s[1..][i..i + |p|] == s[i + 1..i + 1 + |p|];
        assert !OccursAt(s, p, i + 1);
      }
      ReplaceAbsent(s[1..], p, q);
      assert s == [s[0]] + s[1..];
    }
  }

  /** `c` does not appear in `s`. */
  predicate Lacks(s: string, c: char) {
    forall i :: 0 <= i < |s| ==> s[i] != c
  }

  /** Replacing a one-character pattern by text without that character removes it. */
  lemma {:induction false} ReplaceCharRemoves(s: string, c: char, q: string)
    requires Lacks(q, c)
    ensures Lacks(Replace(s, [c], q), c)
    decreases |s|
  {
    if |s| >= 1 {
      ReplaceCharRemoves(s[1..], c, q);
      if s[..1] == [c] {
        assert Replace(s, [c], q) == q + Replace(s[1..], [c], q);
      } else {
        assert s[0] != c;
        assert Replace(s, [c], q) == [s[0]] + Replace(s[1..], [c], q);
      }
    }
  }

  /** A character that is not in the pattern's first position and not in the text
      keeps out of the result: `Lacks` is preserved by replacement. */
  lemma {:induction false} ReplaceKeepsLack(s: string, p: string, q: string, c: char)
    requires |p| > 0 && Lacks(s, c) && Lacks(q, c)
    ensures Lacks(Replace(s, p, q), c)
    decreases |s|
  {
    if |s| >= |p| {
      if s[..|p|] == p {
        ReplaceKeepsLack(s[|p|..], p, q, c);
      } else {
        ReplaceKeepsLack(s[1..], p, q, c);
      }
    }
  }

  /** The text contains no character `a` immediately followed by `b`. */
  predicate NoPair(s: string, a: char, b: char) {
    forall i :: 0 <= i < |s| - 1 ==> !(s[i] == a && s[i + 1] == b)
  }

  /** Replacing the two-character pattern `ab` by a text that neither starts with `b`
      nor ends with `a` nor contains `ab` leaves no `ab` behind. */
  lemma {:induction false} ReplacePairRemoves(s: string, a: char, b: char, q: string)
    requires |q| > 0 && q[0] != b && q[|q| - 1] != a && NoPair(q, a, b)
    ensures NoPair(Replace(s, [a, b], q), a, b)
    ensures |s| > 0 ==> |Replace(s, [a, b], q)| > 0
    ensures |s| > 0 && Replace(s, [a, b], q)[0] == b ==> s[0] == b
    decreases |s|
  {
    var r := Replace(s, [a, b], q);
    if |s| < 2 {
    } else if s[..2] == [a, b] {
      var t := Replace(s[2..], [a, b], q);
      ReplacePairRemoves(s[2..], a, b, q);
      assert r == q + t;
      forall i | 0 <= i < |r| - 1 ensures !(r[i] == a && r[i + 1] == b) {
        if i < |q| - 1 {
          assert r[i] == q[i] && r[i + 1] == q[i + 1];
        } else if i == |q| - 1 {
          assert r[i] == q[|q| - 1];
        } else {
          assert r[i] == t[i - |q|] && r[i + 1] == t[i + 1 - |q|];
        }
      }
    } else {
      var t := Replace(s[1..], [a, b], q);
      ReplacePairRemoves(s[1..], a, b, q);
      assert r == [s[0]] + t;
      forall i | 0 <= i < |r| - 1 ensures !(r[i] == a && r[i + 1] == b) {
        if i == 0 {
          assert r[0] == s[0] && r[1] == t[0];
          assert s[..2] == [s[0], s[1..][0]];
        } else {
          assert r[i] == t[i - 1] && r[i + 1] == t[i];
        }
      }
    }
  }

  lemma NoPairNotContains(s: string, a: char, b: char)
    requires NoPair(s, a, b)
    ensures !Contains(s, [a, b])
  {
    forall i | 0 <= i && i + 2 <= |s| ensures !OccursAt(s, [a, b], i) {
      assert s[i..i + 2] == [s[i], s[i + 1]];
    }
  }

  /** Every piece is free of the character. */
  predicate PiecesLack(parts: seq<string>, c: char) {
    forall k :: 0 <= k < |parts| ==> Lacks(parts[k], c)
  }

  /** Every piece of a split is free of a character the text is free of. */
  lemma {:induction false} SplitPiecesLack(s: string, sep: string, c: char)
    requires |sep| > 0 && Lacks(s, c)
    ensures PiecesLack(Split(s, sep), c)
    decreases |s|
  {
    var i := Find(s, sep, 0);
    if i >= 0 {
      var rest := s[i + |sep|..];
      TakeDropLack(s, c, i, i + |sep|);
      SplitPiecesLack(rest, sep, c);
      assert Split(s, sep) == [s[..i]] + Split(rest, sep);
      ConsLack(s[..i], Split(rest, sep), c);
    }
  }

  /** A piece free of a character, put before pieces free of it, leaves every piece free of it. */
  lemma ConsLack(x: string, xs: seq<string>, c: char)
    requires Lacks(x, c) && PiecesLack(xs, c)
    ensures PiecesLack([x] + xs, c)
  {
    var parts := [x] + xs;
    forall k | 0 <= k < |parts| ensures Lacks(parts[k], c) {
      if k > 0 { assert parts[k] == xs[k - 1]; }
    }
  }

  /** The text before `i` and the text from `j` on are free of a character the whole text is free of. */
  lemma TakeDropLack(s: string, c: char, i: int, j: int)
    requires 0 <= i <= |s| && 0 <= j <= |s| && Lacks(s, c)
    ensures Lacks(s[..i], c) && Lacks(s[j..], c)
  {
    var t, u := s[..i], s[j..];
    forall k | 0 <= k < |t| ensures t[k] != c { assert t[k] == s[k]; }
    forall k | 0 <= k < |u| ensures u[k] != c { assert u[k] == s[j + k]; }
  }

  /** Stripping keeps a text free of a character. */
  lemma StripLacks(s: string, c: char)
    requires Lacks(s, c)
    ensures Lacks(Strip(s), c)
  {
    var l := StripLeft(s);
    var r := StripRight(l);
    assert Strip(s) == r;
    forall j | 0 <= j < |r| ensures r[j] != c {
      assert r[j] == l[j];
      assert l[j] == s[|s| - |l| + j];
    }
  }

  lemma LacksNotContains(s: string, c: char)
    requires Lacks(s, c)
    ensures !Contains(s, [c])
  {
    forall i | 0 <= i && i + 1 <= |s| ensures !OccursAt(s, [c], i) {
      assert s[i..i + 1] == [s[i]];
    }
  }

  /** A text that does not contain `p` does not contain any longer pattern starting with `p`. */
  lemma NotContainsLonger(s: string, p: string, rest: string)
    requires !Contains(s, p)
    ensures !Contains(s, p + rest)
  {
    var i := Find(s, p + rest, 0);
    if i >= 0 {
      assert s[i..i + |p|] == (p + rest)[..|p|];
      ContainsAt(s, p, i);
    }
  }

  /** A text that does not contain `p` does not contain any longer pattern ending with `p`. */
  lemma NotContainsLongerLeft(s: string, pre: string, p: string)
    requires !Contains(s, p)
    ensures !Contains(s, pre + p)
  {
    var i := Find(s, pre + p, 0);
    if i >= 0 {
      assert s[i + |pre|..i + |pre| + |p|] == (pre + p)[|pre|..];
      ContainsAt(s, p, i + |pre|);
    }
  }

  /** The maximal leading run of non-space characters. */
  function Word(s: string): (w: string)
    ensures |w| <= |s| && w == s[..|w|]
    ensures forall i :: 0 <= i < |w| ==> !IsSpace(w[i])
    ensures |w| < |s| ==> IsSpace(s[|w|])
  {
    if |s| == 0 || IsSpace(s[0]) then "" else [s[0]] + Word(s[1..])
  }

  /** `str.split()` without arguments: the maximal runs of non-space characters. */
  function SplitWords(s: string): (ws: seq<string>)
    ensures forall k :: 0 <= k < |ws| ==> |ws[k]| > 0
    decreases |s|
  {
    if |s| == 0 then []
    else if IsSpace(s[0]) then SplitWords(s[1..])
    else var w := Word(s); [w] + SplitWords(s[|w|..])
  }

  /** Concatenation is associative; stated once so that proofs need not re-derive it elementwise. */
  lemma SeqAssoc<T>(a: seq<T>, b: seq<T>, c: seq<T>)
    ensures (a + b) + c == a + (b + c)
  {
  }

  /** A prefix one longer is the prefix followed by the next element. */
  lemma TakeSnoc<T>(s: seq<T>, i: int)
    requires 0 <= i < |s|
    ensures s[..i + 1] == s[..i] + [s[i]]
  {
  }

  /** A prefix of a prefix is a prefix of the whole. */
  lemma TakeTake<T>(s: seq<T>, m: int, n: int)
    requires 0 <= n <= m <= |s|
    ensures s[..m][..n] == s[..n]
  {
  }

  /** A sequence is what precedes position i, the element there, and what follows. */
  lemma ElementAt<T>(xs: seq<T>, i: int)
    requires 0 <= i < |xs|
    ensures xs == (xs[..i] + [xs[i]]) + xs[i + 1..]
  {
  }

  /** The concatenation of a list of strings (`"".join(parts)`). */
  function Concat(parts: seq<string>): string {
    if |parts| == 0 then "" else Concat(parts[..|parts| - 1]) + parts[|parts| - 1]
  }

  lemma {:induction false} ConcatAppend(a: seq<string>, b: seq<string>)
    ensures Concat(a + b) == Concat(a) + Concat(b)
    decreases |b|
  {
    if |b| > 0 {
      ConcatAppend(a, b[..|b| - 1]);
      assert (a + b)[..|a + b| - 1] == a + b[..|b| - 1];
      assert (a + b)[|a + b| - 1] == b[|b| - 1];
      assert Concat(a + b) == Concat(a + b[..|b| - 1]) + b[|b| - 1];
      assert Concat(b) == Concat(b[..|b| - 1]) + b[|b| - 1];
    } else {
      assert a + b == a;
    }
  }

  /** Appending one more piece to a concatenation. */
  lemma ConcatPrefix(parts: seq<string>, i: nat)
    requires i < |parts|
    ensures Concat(parts[..i + 1]) == Concat(parts[..i]) + parts[i]
  {
    assert parts[..i + 1][..i] == parts[..i];
  }

  /** `s[a:b]` for non-negative bounds: both are clamped to the length, an empty range gives "". */
  function PySlice(s: string, a: nat, b: nat): (r: string)
    ensures |r| <= |s|
    ensures a <= b <= |s| ==> r == s[a..b]
    ensures b <= a || |s| <= a ==> r == ""
  {
    var lo := if a <= |s| then a else |s|;
    var hi := if b <= |s| then b else |s|;
    if hi <= lo then "" else s[lo..hi]
  }

  /** `s[:n] + "..." if len(s) > n else s`: the cut used for labels and names. */
  function Ellipsize(s: string, n: nat): (r: string)
    ensures |s| <= n ==> r == s
    ensures |s| > n ==> |r| == n + 3 && r == s[..n] + "..."
  {
    if |s| > n then s[..n] + "..." else s
  }

  function DigitChar(d: nat): char
    requires d < 10
  {
    "0123456789"[d]
  }

  /** `str(n)` for a natural number. */
  function NatToStr(n: nat): (r: string)
    ensures |r| > 0
  {
    if n < 10 then [DigitChar(n)] else NatToStr(n / 10) + [DigitChar(n % 10)]
  }

  /** `str(n)` of a natural number is made of decimal digits only. */
  lemma {:induction false} NatToStrDigits(n: nat)
    ensures forall i :: 0 <= i < |NatToStr(n)| ==> '0' <= NatToStr(n)[i] <= '9'
  {
    if n >= 10 {
      NatToStrDigits(n / 10);
    }
  }

  /** `str(n)` for any integer. */
  function IntToStr(n: int): string {
    if n < 0 then "-" + NatToStr(-n) else NatToStr(n)
  }
}
