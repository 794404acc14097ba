/** The few Python `str` operations the scripts use, on `seq<char>`. */
module PyText {
  import opened Wrappers

  /** The characters for which Python's `str.isspace()` holds: those
      `str.strip()` removes when called without an argument. */
  const Whitespace: set<char> := {
    '\t', '\n', '\U{b}', '\U{c}', '\r', '\U{1c}', '\U{1d}', '\U{1e}', '\U{1f}', ' ',
    '\U{85}', '\U{a0}', '\U{1680}',
    '\U{2000}', '\U{2001}', '\U{2002}', '\U{2003}', '\U{2004}', '\U{2005}',
    '\U{2006}', '\U{2007}', '\U{2008}', '\U{2009}', '\U{200a}',
    '\U{2028}', '\U{2029}', '\U{202f}', '\U{205f}', '\U{3000}'}

  predicate IsSpace(c: char) {
    c in Whitespace
  }

  /** No printable ASCII character is whitespace. */
  lemma GraphicNotSpace(c: char)
    requires '!' <= c <= '~'
    ensures !IsSpace(c)
  {
  }

  const Backtick: set<char> := {'`'}

  predicate AllDropped(s: string, drop: set<char>) {
    forall i :: 0 <= i < |s| ==> s[i] in drop
  }

  /** Neither end of `s` is a character `drop` picks. */
  predicate Trimmed(s: string, drop: set<char>) {
    s == [] || (s[0] !in drop && s[|s| - 1] !in drop)
  }

  /** Removes the longest prefix of characters picked by `drop`. */
  function TrimStart(s: string, drop: set<char>): string {
    if s != [] && s[0] in drop then TrimStart(s[1..], drop) else s
  }

  /** `r` is `s` without a prefix of picked characters, and starts with a kept one. */
  predicate IsTrimStartOf(r: string, s: string, drop: set<char>) {
    |r| <= |s| && r == s[|s| - |r|..] && AllDropped(s[..|s| - |r|], drop) && (r != [] ==> r[0] !in drop)
  }

  lemma {:induction false} TrimStartSpec(s: string, drop: set<char>)
    ensures IsTrimStartOf(TrimStart(s, drop), s, drop)
  {
    if s != [] && s[0] in drop {
      var r := TrimStart(s[1..], drop);
      TrimStartSpec(s[1..], drop);
      assert forall i :: 1 <= i < |s| - |r| ==> s[i] == s[1..][i - 1];
    }
  }

  /** Removes the longest suffix of characters picked by `drop`. */
  function TrimEnd(s: string, drop: set<char>): string {
    if s != [] && s[|s| - 1] in drop then TrimEnd(s[..|s| - 1], drop) else s
  }

  /** `r` is `s` without a suffix of picked characters, and ends with a kept one. */
  predicate IsTrimEndOf(r: string, s: string, drop: set<char>) {
    |r| <= |s| && r == s[..|r|] && AllDropped(s[|r|..], drop) && (r != [] ==> r[|r| - 1] !in drop)
  }

  lemma {:induction false} TrimEndSpec(s: string, drop: set<char>)
    ensures IsTrimEndOf(TrimEnd(s, drop), s, drop)
  {
    if s != [] && s[|s| - 1] in drop {
      var r := TrimEnd(s[..|s| - 1], drop);
      TrimEndSpec(s[..|s| - 1], drop);
      assert forall i :: |r| <= i < |s| - 1 ==> s[i] == s[..|s| - 1][i];
    }
  }

  /** Python's `s.strip(chars)`, with `drop` the characters to remove. */
  function StripBy(s: string, drop: set<char>): (r: string)
    ensures Trimmed(r, drop)
  {
    TrimStartSpec(s, drop);
    TrimEndSpec(TrimStart(s, drop), drop);
    TrimEnd(TrimStart(s, drop), drop)
  }

  /** What stripping removes: a run of picked characters on each side. */
  lemma StripBySlice(s: string, drop: set<char>) returns (i: nat, j: nat)
    ensures i <= j <= |s| && StripBy(s, drop) == s[i..j]
    ensures AllDropped(s[..i], drop) && AllDropped(s[j..], drop)
  {
    var t := TrimStart(s, drop);
    var r := TrimEnd(t, drop);
    TrimStartSpec(s, drop);
    TrimEndSpec(t, drop);
    i, j := |s| - |t|, |s| - |t| + |r|;
    assert t[..|r|] == s[i..j];
    assert s[j..] == t[|r|..];
  }

  /** A kept character at index `k` survives trimming the end. */
  lemma {:induction false} TrimEndKeeps(s: string, k: nat, drop: set<char>)
    requires k < |s| && s[k] !in drop
    ensures |TrimEnd(s, drop)| > k
  {
    if s[|s| - 1] in drop {
      assert s[..|s| - 1][k] == s[k];
      TrimEndKeeps(s[..|s| - 1], k, drop);
    }
  }

  /** Python's `s.strip()`. */
  function Strip(s: string): (r: string)
    ensures Trimmed(r, Whitespace)
  {
    StripBy(s, Whitespace)
  }

  lemma {:induction false} TrimStartOver(ws: string, t: string, drop: set<char>)
    requires AllDropped(ws, drop)
    requires t == [] || t[0] !in drop
    ensures TrimStart(ws + t, drop) == t
  {
    if ws != [] {
      assert (ws + t)[1..] == ws[1..] + t;
      TrimStartOver(ws[1..], t, drop);
    } else {
      assert ws + t == t;
    }
  }

  lemma {:induction false} TrimEndOver(t: string, ws: string, drop: set<char>)
    requires AllDropped(ws, drop)
    requires t == [] || t[|t| - 1] !in drop
    ensures TrimEnd(t + ws, drop) == t
  {
    if ws != [] {
      assert (t + ws)[..|t + ws| - 1] == t + ws[..|ws| - 1];
      TrimEndOver(t, ws[..|ws| - 1], drop);
    } else {
      assert t + ws == t;
    }
  }

  /** Stripping removes exactly the surrounding characters: text whose ends are
      kept comes back unchanged from between any run of removed characters. */
  lemma StripByAround(ws1: string, t: string, ws2: string, drop: set<char>)
    requires AllDropped(ws1, drop) && AllDropped(ws2, drop)
    requires Trimmed(t, drop)
    ensures StripBy(ws1 + t + ws2, drop) == t
  {
    assert ws1 + t + ws2 == ws1 + (t + ws2);
    if t == [] {
      assert AllDropped(ws1 + ws2, drop);
      assert ws1 + t + ws2 == ws1 + ws2 + [];
      TrimStartOver(ws1 + ws2, [], drop);
      TrimEndOver([], [], drop);
    } else {
      TrimStartOver(ws1, t + ws2, drop);
      TrimEndOver(t, ws2, drop);
    }
  }

  lemma StripAround(ws1: string, t: string, ws2: string)
    requires AllDropped(ws1, Whitespace) && AllDropped(ws2, Whitespace)
    requires Trimmed(t, Whitespace)
    ensures Strip(ws1 + t + ws2) == t
  {
    StripByAround(ws1, t, ws2, Whitespace);
  }

  lemma StripDropsTrailing(t: string, ws: string)
    requires Trimmed(t, Whitespace) && AllDropped(ws, Whitespace)
    ensures Strip(t + ws) == t
  {
    assert t + ws == [] + t + ws;
    StripAround([], t, ws);
  }

  /** Stripping keeps a first character that is not whitespace, and the
      characters after it up to the last non-whitespace one. */
  lemma StripKeepsStart(s: string, n: nat)
    requires n <= |s| && forall k :: 0 <= k < n ==> !IsSpace(s[k])
    ensures |Strip(s)| >= n && Strip(s)[..n] == s[..n]
  {
    if n > 0 {
      assert TrimStart(s, Whitespace) == s;
      TrimEndKeeps(s, n - 1, Whitespace);
      TrimEndSpec(s, Whitespace);
    }
  }

  /** Text whose ends are kept is a fixed point of stripping; in particular
      stripping twice is stripping once. */
  lemma StripByKeeps(t: string, drop: set<char>)
    requires Trimmed(t, drop)
    ensures StripBy(t, drop) == t
  {
    assert [] + t + [] == t;
    StripByAround([], t, [], drop);
  }

  lemma StripIdempotent(s: string)
    ensures Strip(Strip(s)) == Strip(s)
  {
    StripByKeeps(Strip(s), Whitespace);
  }

  predicate StartsWith(s: string, prefix: string) {
    |prefix| <= |s| && s[..|prefix|] == prefix
  }

  predicate EndsWith(s: string, suffix: string) {
    |suffix| <= |s| && s[|s| - |suffix|..] == suffix
  }

  /** A concatenation starts with its first part and ends with its second. */
  lemma ConcatEnds(a: string, b: string)
    ensures StartsWith(a + b, a) && EndsWith(a + b, b)
  {
    assert (a + b)[..|a|] == a;
    assert (a + b)[|a|..] == b;
  }

  /** `sub` sits in `s` starting at index `i`. */
  predicate OccursAt(s: string, sub: string, i: int) {
    0 <= i && i + |sub| <= |s| && s[i..i + |sub|] == sub
  }

  /** Python's `sub in s`. */
  function Contains(s: string, sub: string): (b: bool)
    ensures b <==> exists i :: OccursAt(s, sub, i)
  {
    if |sub| > |s| then
      false
    else if s[..|sub|] == sub then
      assert OccursAt(s, sub, 0);
      true
    else
      var rest := s[1..];
      var b := Contains(rest, sub);
      if b then
        var i :| OccursAt(rest, sub, i);
        assert OccursAt(s, sub, i + 1) by {
          assert rest[i..i + |sub|] == s[i + 1..i + 1 + |sub|];
        }
        b
      else
        assert forall i :: OccursAt(s, sub, i) ==> OccursAt(rest, sub, i - 1) by {
          forall i | OccursAt(s, sub, i) ensures OccursAt(rest, sub, i - 1) {
            assert i != 0;
            assert rest[i - 1..i - 1 + |sub|] == s[i..i + |sub|];
          }
        }
        b
  }

  /** The first index of `c` in `s`, as the split of Python's
      `s.split(c, 1)` finds it. */
  function IndexOf(s: string, c: char): (r: Option<nat>)
    ensures r.None? <==> c !in s
    ensures r.Some? ==> r.value < |s| && s[r.value] == c && c !in s[..r.value]
  {
    if s == [] then None
    else if s[0] == c then Some(0)
    else
      match IndexOf(s[1..], c)
      case None => None
      case Some(i) =>
        assert s[..i + 1] == [s[0]] + s[1..][..i];
        Some(i + 1)
  }

  lemma IndexOfFirst(s: string, c: char, k: nat)
    requires k < |s| && s[k] == c && c !in s[..k]
    ensures IndexOf(s, c) == Some(k)
  {
  }

  /** `p` is `a`, then `b`, then `c`, and nothing else. */
  predicate Layout(p: string, a: string, b: string, c: string) {
    |p| == |a| + |b| + |c| && StartsWith(p, a) && OccursAt(p, b, |a|) && EndsWith(p, c)
  }

  lemma LayoutOf(a: string, b: string, c: string)
    ensures Layout(a + b + c, a, b, c)
  {
    var p := a + b + c;
    assert p[..|a|] == a;
    assert p[|a|..|a| + |b|] == b;
    assert p[|p| - |c|..] == c;
  }

  /** Lower-case for the ASCII letters; every other character is kept. */
  function LowerChar(c: char): char {
    if 'A' <= c <= 'Z' then (c as int + 32) as char else c
  }

  function Lower(s: string): (r: string)
    ensures |r| == |s| && forall i :: 0 <= i < |s| ==> r[i] == LowerChar(s[i])
  {
    seq(|s|, i requires 0 <= i < |s| => LowerChar(s[i]))
  }

  /** `sep.join(parts)`. */
  function Join(parts: seq<string>, sep: string): string {
    if parts == [] then ""
    else if |parts| == 1 then parts[0]
    else parts[0] + sep + Join(parts[1..], sep)
  }
}
