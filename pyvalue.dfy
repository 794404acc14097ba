/** The Python values that flow from the pipeline into the chat formatter:
    what a dict, a list or a pydantic model can hold, with `str()`, `repr()`,
    `dict.get`, truthiness and iteration as Python defines them. */
module PyValue {
  import opened Wrappers
  import opened PyText

  datatype Value =
    | VNone
    | VBool(b: bool)
    | VInt(i: int)
      /** A float, carried as the text `str()` prints for it. */
    | VFloat(text: string)
    | VStr(s: string)
    | VList(items: seq<Value>)
    | VTuple(items: seq<Value>)
      /** A dict, its entries in insertion order. */
    | VDict(entries: seq<(string, Value)>)
      /** A pydantic model instance: its class name and the fields `model_dump()` returns. */
    | VModel(name: string, fields: seq<(string, Value)>)

  function DigitChar(d: nat): char
    requires d < 10
  {
    ('0' as int + d) as char
  }

  function NatText(n: nat): (r: string)
    ensures |r| > 0
    ensures forall k :: 0 <= k < |r| ==> '0' <= r[k] <= '9'
  {
    if n < 10 then [DigitChar(n)] else NatText(n / 10) + [DigitChar(n % 10)]
  }

  /** `str(i)` for an int. */
  function IntText(i: int): string {
    if i < 0 then "-" + NatText(-i) else NatText(i)
  }

  function Escape(s: string, quote: char): string {
    if s == [] then ""
    else
      var c := s[0];
      var e := if c == '\\' then "\\\\"
               else if c == quote then ['\\', quote]
               else if c == '\n' then "\\n"
               else if c == '\r' then "\\r"
               else if c == '\t' then "\\t"
               else [c];
      e + Escape(s[1..], quote)
  }

  /** Escaping never shortens a text, and leaves a text without a backslash,
      the quote or a control character it escapes as it is. */
  lemma {:induction false} EscapeKeeps(s: string, quote: char)
    ensures |Escape(s, quote)| >= |s|
    ensures (forall k :: 0 <= k < |s| ==> s[k] !in {'\\', quote, '\n', '\r', '\t'}) ==> Escape(s, quote) == s
  {
    if s != [] {
      EscapeKeeps(s[1..], quote);
      if forall k :: 0 <= k < |s| ==> s[k] !in {'\\', quote, '\n', '\r', '\t'} {
        assert forall k :: 0 <= k < |s[1..]| ==> s[1..][k] == s[k + 1];
        assert s == [s[0]] + s[1..];
      }
    }
  }

  /** `repr(s)` for a str: double quotes when the text holds a single quote and
      no double quote, single quotes otherwise. */
  function QuoteText(s: string): string {
    if '\'' in s && '"' !in s then "\"" + Escape(s, '"') + "\""
    else "'" + Escape(s, '\'') + "'"
  }

  function Repr(v: Value): string {
    match v
    case VNone => "None"
    case VBool(b) => if b then "True" else "False"
    case VInt(i) => IntText(i)
    case VFloat(t) => t
    case VStr(s) => QuoteText(s)
    case VList(items) =>
      "[" + Join(seq(|items|, k requires 0 <= k < |items| => Repr(items[k])), ", ") + "]"
    case VTuple(items) =>
      if |items| == 1 then "(" + Repr(items[0]) + ",)"
      else "(" + Join(seq(|items|, k requires 0 <= k < |items| => Repr(items[k])), ", ") + ")"
    case VDict(es) =>
      "{" + Join(seq(|es|, k requires 0 <= k < |es| => QuoteText(es[k].0) + ": " + Repr(es[k].1)), ", ") + "}"
    case VModel(n, fs) =>
      n + "(" + Join(seq(|fs|, k requires 0 <= k < |fs| => fs[k].0 + "=" + Repr(fs[k].1)), ", ") + ")"
  }

  /** `str(v)`, which is also what an f-string placeholder `{v}` inserts. */
  function Str(v: Value): string {
    match v
    case VStr(s) => s
    case VModel(_, fs) =>
      Join(seq(|fs|, k requires 0 <= k < |fs| => fs[k].0 + "=" + Repr(fs[k].1)), " ")
    case _ => Repr(v)
  }

  /** `repr()` brackets each kind of value the way Python prints it, and a
      str is quoted: in double quotes exactly when it holds a single quote and
      no double quote. */
  lemma ReprShape(v: Value)
    ensures v.VNone? ==> Repr(v) == "None"
    ensures v.VBool? ==> Repr(v) == (if v.b then "True" else "False")
    ensures v.VStr? ==>
              var q := if '\'' in v.s && '"' !in v.s then '"' else '\'';
              |Repr(v)| >= |v.s| + 2 && Repr(v)[0] == q && Repr(v)[|Repr(v)| - 1] == q
    ensures v.VList? ==> StartsWith(Repr(v), "[") && EndsWith(Repr(v), "]")
    ensures v.VTuple? ==> StartsWith(Repr(v), "(") && EndsWith(Repr(v), ")")
    ensures v.VDict? ==> StartsWith(Repr(v), "{") && EndsWith(Repr(v), "}")
    ensures v.VModel? ==> StartsWith(Repr(v), v.name + "(") && EndsWith(Repr(v), ")")
  {
    match v
    case VStr(s) => ReprQuoted(s);
    case VList(items) => Enclosed("[", Join(seq(|items|, k requires 0 <= k < |items| => Repr(items[k])), ", "), "]");
    case VTuple(items) => ReprTuple(items);
    case VDict(es) => ReprDict(es);
    case VModel(n, fs) => ReprModel(n, fs);
    case _ =>
  }

  lemma Enclosed(open: string, body: string, close: string)
    ensures StartsWith(open + body + close, open) && EndsWith(open + body + close, close)
  {
    ConcatEnds(open, body + close);
    ConcatEnds(open + body, close);
  }

  lemma ReprQuoted(s: string)
    ensures var q := if '\'' in s && '"' !in s then '"' else '\'';
            |Repr(VStr(s))| >= |s| + 2 && Repr(VStr(s))[0] == q && Repr(VStr(s))[|Repr(VStr(s))| - 1] == q
  {
    if '\'' in s && '"' !in s {
      EscapeKeeps(s, '"');
    } else {
      EscapeKeeps(s, '\'');
    }
  }

  lemma ReprTuple(items: seq<Value>)
    ensures StartsWith(Repr(VTuple(items)), "(") && EndsWith(Repr(VTuple(items)), ")")
  {
    if |items| == 1 {
      Enclosed("(", Repr(items[0]) + ",", ")");
    } else {
      Enclosed("(", Join(seq(|items|, k requires 0 <= k < |items| => Repr(items[k])), ", "), ")");
    }
  }

  lemma ReprDict(es: seq<(string, Value)>)
    ensures StartsWith(Repr(VDict(es)), "{") && EndsWith(Repr(VDict(es)), "}")
  {
    Enclosed("{", Join(seq(|es|, k requires 0 <= k < |es| => QuoteText(es[k].0) + ": " + Repr(es[k].1)), ", "), "}");
  }

  lemma ReprModel(n: string, fs: seq<(string, Value)>)
    ensures StartsWith(Repr(VModel(n, fs)), n + "(") && EndsWith(Repr(VModel(n, fs)), ")")
  {
    Enclosed(n + "(", Join(seq(|fs|, k requires 0 <= k < |fs| => fs[k].0 + "=" + Repr(fs[k].1)), ", "), ")");
  }

  /** `str()` of a str is the text itself, where `repr()` quotes it; a model
      prints its fields; every other value prints as its `repr()`. */
  lemma StrVsRepr(v: Value)
    ensures v.VStr? ==> Str(v) == v.s && Str(v) != Repr(v)
    ensures !v.VStr? && !v.VModel? ==> Str(v) == Repr(v)
  {
    if v.VStr? {
      ReprShape(v);
    }
  }

  /** A Python list of str. */
  function StrList(xs: seq<string>): (v: Value)
    ensures v.VList? && |v.items| == |xs|
    ensures forall k :: 0 <= k < |xs| ==> v.items[k] == VStr(xs[k])
  {
    VList(seq(|xs|, k requires 0 <= k < |xs| => VStr(xs[k])))
  }

  /** `key in d`. */
  predicate HasKey(es: seq<(string, Value)>, key: string) {
    es != [] && (es[0].0 == key || HasKey(es[1..], key))
  }

  /** `key in d` holds exactly when some entry has that key. */
  lemma {:induction false} HasKeyIff(es: seq<(string, Value)>, key: string)
    ensures HasKey(es, key) <==> exists k :: 0 <= k < |es| && es[k].0 == key
  {
    if es != [] {
      HasKeyIff(es[1..], key);
      if HasKey(es[1..], key) {
        var k :| 0 <= k < |es[1..]| && es[1..][k].0 == key;
        assert es[k + 1].0 == key;
      }
      forall k | 1 <= k < |es| && es[k].0 == key ensures HasKey(es[1..], key) {
        assert es[1..][k - 1].0 == key;
      }
    }
  }

  lemma KeyAt(es: seq<(string, Value)>, k: nat, key: string)
    requires k < |es| && es[k].0 == key
    ensures HasKey(es, key)
  {
    HasKeyIff(es, key);
  }

  lemma NoKey(es: seq<(string, Value)>, key: string)
    requires forall k :: 0 <= k < |es| ==> es[k].0 != key
    ensures !HasKey(es, key)
  {
    HasKeyIff(es, key);
  }

  /** `d.get(key, default)`. */
  function GetOr(es: seq<(string, Value)>, key: string, default: Value): Value {
    if es == [] then default
    else if es[0].0 == key then es[0].1
    else GetOr(es[1..], key, default)
  }

  /** The first entry with the key decides what `get` returns. */
  lemma {:induction false} GetAt(es: seq<(string, Value)>, k: nat, key: string, default: Value)
    requires k < |es| && es[k].0 == key
    requires forall j :: 0 <= j < k ==> es[j].0 != key
    ensures GetOr(es, key, default) == es[k].1
  {
    if k > 0 {
      assert es[0].0 != key;
      GetAt(es[1..], k - 1, key, default);
    }
  }

  /** Without the key, `get` returns the default. */
  lemma {:induction false} GetMissing(es: seq<(string, Value)>, key: string, default: Value)
    requires !HasKey(es, key)
    ensures GetOr(es, key, default) == default
  {
    if es != [] {
      GetMissing(es[1..], key, default);
    }
  }

  /** `d.get(key, default)` is the value of the first entry with the key, or
      the default when no entry has it. */
  lemma {:induction false} GetOrFirst(es: seq<(string, Value)>, key: string, default: Value)
    ensures !HasKey(es, key) ==> GetOr(es, key, default) == default
    ensures HasKey(es, key) ==>
              exists k :: 0 <= k < |es| && es[k].0 == key && GetOr(es, key, default) == es[k].1
                          && forall j :: 0 <= j < k ==> es[j].0 != key
  {
    if es != [] && es[0].0 != key {
      GetOrFirst(es[1..], key, default);
      if HasKey(es[1..], key) {
        var k :| 0 <= k < |es[1..]| && es[1..][k].0 == key && GetOr(es[1..], key, default) == es[1..][k].1
                 && forall j :: 0 <= j < k ==> es[1..][j].0 != key;
        assert es[k + 1].0 == key;
        assert forall j :: 0 < j < k + 1 ==> es[j].0 == es[1..][j - 1].0;
      }
    } else if es != [] {
      assert es[0].0 == key;
    }
  }

  /** `d.get(key)`. */
  function Get(es: seq<(string, Value)>, key: string): Value {
    GetOr(es, key, VNone)
  }

  /** Python truthiness (`if v:`). A float is false exactly when it prints as a zero. */
  predicate Truthy(v: Value) {
    match v
    case VNone => false
    case VBool(b) => b
    case VInt(i) => i != 0
    case VFloat(t) => t != "0.0" && t != "-0.0"
    case VStr(s) => s != []
    case VList(items) => items != []
    case VTuple(items) => items != []
    case VDict(es) => es != []
    case VModel(_, _) => true
  }

  /** A str, list, tuple or dict is true exactly when a for-loop over it
      visits something; None is false and a model instance always true. */
  lemma TruthyIsNonEmpty(v: Value)
    ensures v.VStr? || v.VList? || v.VTuple? || v.VDict? ==>
              (Truthy(v) <==> Iterate(v).Ok? && Iterate(v).value != [])
    ensures v.VBool? ==> (Truthy(v) <==> v.b)
    ensures v.VInt? ==> (Truthy(v) <==> v.i != 0)
    ensures v.VNone? ==> !Truthy(v)
    ensures v.VModel? ==> Truthy(v)
  {
  }

  function TypeName(v: Value): string {
    match v
    case VNone => "NoneType"
    case VBool(_) => "bool"
    case VInt(_) => "int"
    case VFloat(_) => "float"
    case VStr(_) => "str"
    case VList(_) => "list"
    case VTuple(_) => "tuple"
    case VDict(_) => "dict"
    case VModel(n, _) => n
  }

  /** `for x in v`: the elements a Python for-loop visits, or the text of the
      TypeError it raises. A str yields its characters, a dict its keys and a
      pydantic model its (field, value) pairs. */
  function Iterate(v: Value): (r: Result<seq<Value>, string>)
    ensures v.VList? ==> r == Ok(v.items)
    ensures r.Err? <==> v.VNone? || v.VBool? || v.VInt? || v.VFloat?
  {
    match v
    case VList(items) => Ok(items)
    case VTuple(items) => Ok(items)
    case VStr(s) => Ok(seq(|s|, k requires 0 <= k < |s| => VStr([s[k]])))
    case VDict(es) => Ok(seq(|es|, k requires 0 <= k < |es| => VStr(es[k].0)))
    case VModel(_, fs) => Ok(seq(|fs|, k requires 0 <= k < |fs| => VTuple([VStr(fs[k].0), fs[k].1])))
    case _ => Err("'" + TypeName(v) + "' object is not iterable")
  }

  /** Looping over None, a bool, an int or a float raises the TypeError that
      names the value's type. */
  lemma IterateFails(v: Value)
    ensures Iterate(v).Err? ==> Iterate(v).error == "'" + TypeName(v) + "' object is not iterable"
  {
  }
}
