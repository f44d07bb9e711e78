/*
 * The dynamic Python values the services pass around as `Dict[str, Any]`:
 * what `json.loads` yields, floats aside, with Python's truthiness,
 * `dict.get`, insertion-ordered dictionary update and `str()`.
 */
module Values {
  import opened PyText

  datatype Option<T> = None | Some(value: T)

  /** `d.get(k, default)` once the lookup is done: the value if present, else the default. */
  function GetOr<T>(o: Option<T>, dflt: T): T {
    if o.Some? then o.value else dflt
  }

  /** A JSON-compatible Python value. A dict keeps its entries in insertion order. */
  datatype Value =
    | Null
    | Bool(b: bool)
    | Int(i: int)
    | Str(s: string)
    | List(items: seq<Value>)
    | Dict(entries: seq<(string, Value)>)

  /** Python's truth test (`if v:`). */
  predicate Truthy(v: Value) {
    match v
    case Null => false
    case Bool(b) => b
    case Int(i) => i != 0
    case Str(s) => |s| > 0
    case List(xs) => |xs| > 0
    case Dict(es) => |es| > 0
  }

  /* ---------- insertion-ordered dictionaries ---------- */

  /** The keys of a dictionary, in insertion order. */
  function Keys<V>(es: seq<(string, V)>): (ks: seq<string>)
    ensures |ks| == |es|
    ensures forall i :: 0 <= i < |es| ==> ks[i] == es[i].0
  {
    seq(|es|, i requires 0 <= i < |es| => es[i].0)
  }

  /** No key occurs twice: the shape of every Python dict. */
  predicate UniqueKeys<V>(es: seq<(string, V)>) {
    forall i, j :: 0 <= i < j < |es| ==> es[i].0 != es[j].0
  }

  predicate HasKey<V>(es: seq<(string, V)>, k: string) {
    exists i :: 0 <= i < |es| && es[i].0 == k
  }

  lemma HasKeyTail<V>(es: seq<(string, V)>, k: string)
    requires |es| > 0
    ensures HasKey(es, k) <==> es[0].0 == k || HasKey(es[1..], k)
  {
    if HasKey(es, k) && es[0].0 != k {
      var i :| 0 <= i < |es| && es[i].0 == k;
      assert es[1..][i - 1].0 == k;
    }
    if HasKey(es[1..], k) {
      var i :| 0 <= i < |es[1..]| && es[1..][i].0 == k;
      assert es[i + 1].0 == k;
    }
  }

  /** `d.get(k)` on the entries: the value stored under `k`, if any. */
  function Lookup<V>(es: seq<(string, V)>, k: string): (r: Option<V>)
    ensures r.Some? <==> HasKey(es, k)
    ensures r.Some? ==> exists i :: 0 <= i < |es| && es[i] == (k, r.value)
  {
    if |es| == 0 then None
    else if es[0].0 == k then Some(es[0].1)
    else
      var r := Lookup(es[1..], k);
      assert r.Some? ==> exists i :: 0 <= i < |es[1..]| && es[1..][i] == (k, r.value);
      HasKeyTail(es, k);
      r
  }

  /** `Lookup` finds the first entry with the key. */
  lemma {:induction false} LookupFirst<V>(es: seq<(string, V)>, i: int)
    requires 0 <= i < |es| && forall j :: 0 <= j < i ==> es[j].0 != es[i].0
    ensures Lookup(es, es[i].0) == Some(es[i].1)
    decreases i
  {
    if i > 0 {
      assert es[1..][i - 1] == es[i];
      LookupFirst(es[1..], i - 1);
    }
  }

  /** A key found among the first entries is found there whatever follows. */
  lemma {:induction false} LookupPrefix<V>(es: seq<(string, V)>, more: seq<(string, V)>, k: string)
    requires HasKey(es, k)
    ensures Lookup(es + more, k) == Lookup(es, k)
    decreases |es|
  {
    HasKeyTail(es, k);
    if es[0].0 != k {
      assert (es + more)[1..] == es[1..] + more;
      LookupPrefix(es[1..], more, k);
    }
  }

  /** With unique keys, the entry at position `i` is what `Lookup` finds for its key. */
  lemma {:induction false} LookupAt<V>(es: seq<(string, V)>, i: int)
    requires UniqueKeys(es) && 0 <= i < |es|
    ensures Lookup(es, es[i].0) == Some(es[i].1)
    decreases i
  {
    if i > 0 {
      assert es[0].0 != es[i].0;
      assert UniqueKeys(es[1..]);
      assert es[1..][i - 1] == es[i];
      LookupAt(es[1..], i - 1);
    }
  }

  /**
   * `d[k] = v`: an existing key keeps its position and gets the new value,
   * a new key is appended at the end.
   */
  function Put<V>(es: seq<(string, V)>, k: string, v: V): (r: seq<(string, V)>)
    ensures |r| == if HasKey(es, k) then |es| else |es| + 1
  {
    if |es| == 0 then [(k, v)]
    else if es[0].0 == k then [(k, v)] + es[1..]
    else
      HasKeyTail(es, k);
      [es[0]] + Put(es[1..], k, v)
  }

  /** After `d[k] = v`, `k` maps to `v`, every other key to what it mapped to before. */
  lemma {:induction false} PutLookup<V>(es: seq<(string, V)>, k: string, v: V, k': string)
    ensures Lookup(Put(es, k, v), k') == if k' == k then Some(v) else Lookup(es, k')
    decreases |es|
  {
    if |es| > 0 && es[0].0 != k {
      PutLookup(es[1..], k, v, k');
      assert Put(es, k, v)[1..] == Put(es[1..], k, v);
    } else if |es| > 0 {
      assert Put(es, k, v)[1..] == es[1..];
    }
  }

  /** `d[k] = v` keeps the keys in order and appends a new key at the end. */
  lemma {:induction false} PutKeys<V>(es: seq<(string, V)>, k: string, v: V)
    ensures Keys(Put(es, k, v)) == if HasKey(es, k) then Keys(es) else Keys(es) + [k]
    decreases |es|
  {
    if |es| > 0 && es[0].0 != k {
      PutKeys(es[1..], k, v);
      HasKeyTail(es, k);
      assert Keys(Put(es, k, v)) == [es[0].0] + Keys(Put(es[1..], k, v));
      assert Keys(es) == [es[0].0] + Keys(es[1..]);
    } else if |es| > 0 {
      assert HasKey(es, k);
      assert Keys(Put(es, k, v)) == Keys(es);
    }
  }

  /** `d[k] = v` keeps a dictionary's keys unique. */
  lemma PutUnique<V>(es: seq<(string, V)>, k: string, v: V)
    requires UniqueKeys(es)
    ensures UniqueKeys(Put(es, k, v))
  {
    var r := Put(es, k, v);
    PutKeys(es, k, v);
    assert forall i :: 0 <= i < |r| ==> r[i].0 == Keys(r)[i];
    forall i, j | 0 <= i < j < |r| ensures r[i].0 != r[j].0 {
      assert r[i].0 == Keys(r)[i] && r[j].0 == Keys(r)[j];
      if j == |es| {
        assert !HasKey(es, k) && Keys(r)[j] == k;
        assert Keys(r)[i] == es[i].0;
      } else {
        assert Keys(r)[i] == es[i].0 && Keys(r)[j] == es[j].0;
      }
    }
  }

  /** `d.update(other)`: `Put` of every entry of `other`, in its order. */
  function Update<V>(es: seq<(string, V)>, other: seq<(string, V)>): seq<(string, V)>
    decreases |other|
  {
    if |other| == 0 then es
    else Update(Put(es, other[0].0, other[0].1), other[1..])
  }

  /** After `d.update(other)`, a key of `other` maps to its value there, any other key is unchanged. */
  lemma {:induction false} UpdateLookup<V>(es: seq<(string, V)>, other: seq<(string, V)>, k: string)
    requires UniqueKeys(other)
    ensures Lookup(Update(es, other), k) ==
      if HasKey(other, k) then Lookup(other, k) else Lookup(es, k)
    decreases |other|
  {
    if |other| > 0 {
      assert UniqueKeys(other[1..]);
      UpdateLookup(Put(es, other[0].0, other[0].1), other[1..], k);
      PutLookup(es, other[0].0, other[0].1, k);
      HasKeyTail(other, k);
      if other[0].0 == k {
        forall i | 0 <= i < |other[1..]| ensures other[1..][i].0 != k {
          assert other[i + 1].0 != other[0].0;
        }
      }
    }
  }

  /**
   * `v.get(k, dflt)` on a value: `None` stands for the AttributeError a
   * non-dict raises.
   */
  function Get(v: Value, k: string, dflt: Value): (r: Option<Value>)
    ensures r.Some? <==> v.Dict?
    ensures v.Dict? && !HasKey(v.entries, k) ==> r == Some(dflt)
    ensures v.Dict? && HasKey(v.entries, k) ==> r == Lookup(v.entries, k)
  {
    if !v.Dict? then None
    else match Lookup(v.entries, k)
      case Some(x) => Some(x)
      case None => Some(dflt)
  }

  /** `d.get(k, dflt)` on a dict's entries. */
  function Field(es: seq<(string, Value)>, k: string, dflt: Value): Value {
    GetOr(Lookup(es, k), dflt)
  }

  /**
   * `for x in v`: a list yields its items, a string its characters, a dict
   * its keys; anything else raises TypeError.
   */
  function Items(v: Value): (r: Option<seq<Value>>)
    ensures r.None? <==> !(v.List? || v.Str? || v.Dict?)
    ensures v.List? ==> r == Some(v.items)
  {
    match v
    case List(xs) => Some(xs)
    case Str(s) => Some(seq(|s|, i requires 0 <= i < |s| => Str([s[i]])))
    case Dict(es) => Some(seq(|es|, i requires 0 <= i < |es| => Str(es[i].0)))
    case _ => None
  }

  /* ---------- str() ---------- */

  /**
   * The characters below 256 that `repr` does not print as they are: the
   * control ranges 0-31 and 127-159, the no-break space 160 and the soft
   * hyphen 173.
   */
  predicate Unprintable(c: char) {
    c as int < 32 || (127 <= c as int <= 160) || c as int == 173
  }

  /** A lower-case hexadecimal digit. */
  function HexDigit(n: int): char
    requires 0 <= n < 16
  {
    "0123456789abcdef"[n]
  }

  /** The character of a string literal as `repr` writes it between `quote` characters. */
  function EscapeChar(c: char, quote: char): (r: string)
    ensures Unprintable(c) && c != quote && c != '\n' && c != '\r' && c != '\t' ==> |r| == 4 && r[..2] == "\\x"
    ensures !Unprintable(c) && c != '\\' && c != quote ==> r == [c]
  {
    if c == '\\' then "\\\\"
    else if c == quote then ['\\', quote]
    else if c == '\n' then "\\n"
    else if c == '\r' then "\\r"
    else if c == '\t' then "\\t"
    else if Unprintable(c) then ['\\', 'x', HexDigit(c as int / 16), HexDigit(c as int % 16)]
    else [c]
  }

  function EscapeAll(s: string, quote: char): string {
    if |s| == 0 then "" else EscapeAll(s[..|s| - 1], quote) + EscapeChar(s[|s| - 1], quote)
  }

  /** `repr` of a string: double quotes exactly when it holds a `'` and no `"`. */
  function ReprStr(s: string): (r: string)
    ensures |r| >= 2 && r[0] == r[|r| - 1] && (r[0] == '\'' || r[0] == '"')
  {
    var quote := if Contains(s, "'") && !Contains(s, "\"") then '"' else '\'';
    [quote] + EscapeAll(s, quote) + [quote]
  }

  function BoolStr(b: bool): string {
    if b then "True" else "False"
  }

  /** `repr(v)`: how a value is written inside a list or dict. */
  function Repr(v: Value): string
    decreases v, 1
  {
    match v
    case Str(s) => ReprStr(s)
    case _ => PyStr(v)
  }

  /** `str(v)`, as an f-string or `str()` renders the value. */
  function PyStr(v: Value): string
    decreases v, 0
  {
    match v
    case Null => "None"
    case Bool(b) => BoolStr(b)
    case Int(i) => IntToStr(i)
    case Str(s) => s
    case List(xs) =>
      "[" + Join(seq(|xs|, i requires 0 <= i < |xs| => Repr(xs[i])), ", ") + "]"
    case Dict(es) =>
      "{" + Join(seq(|es|, i requires 0 <= i < |es| => ReprStr(es[i].0) + ": " + Repr(es[i].1)), ", ") + "}"
  }

  /** `str()` is the identity on strings and never yields the empty string for a non-string. */
  lemma PyStrShape(v: Value)
    ensures v.Str? ==> PyStr(v) == v.s
    ensures !v.Str? ==> |PyStr(v)| > 0
    ensures v.List? ==> PyStr(v)[0] == '[' && PyStr(v)[|PyStr(v)| - 1] == ']'
    ensures v.Dict? ==> PyStr(v)[0] == '{' && PyStr(v)[|PyStr(v)| - 1] == '}'
  {
    if v.Int? {
      if v.i < 0 { assert |NatToStr(-v.i)| > 0; } else { assert |NatToStr(v.i)| > 0; }
    }
  }
}
