/** The structured-output script: its fixed prompt and its regular-expression
    code-fence cleaner `re.sub(r"^```json\n?|```$", "", raw.strip(), flags=re.IGNORECASE).strip()`. */
module StructuredOutput {
  import opened Wrappers
  import opened PyText

  const PromptHead: string :=
    "\nYou are a helpful and enthusiastic travel planning assistant.\n\n"
    + "Based on the following user request, generate a JSON response matching this schema:\n"
    + "- destination: string\n- duration_days: integer\n- budget: float\n"
    + "- activities: list of strings\n- notes: a helpful string with extra suggestions\n\n"
    + "Respond ONLY with JSON matching that structure. No markdown, no explanation.\n\n"
    + "User query:\n\""

  /** The prompt: a fixed text ending in "User query:" and a newline, then the
      query between double quotes on its own line. */
  function BuildPrompt(query: string): (p: string)
    ensures StartsWith(p, PromptHead) && EndsWith(p, "\"\n")
    ensures |p| == |PromptHead| + |query| + 2 && p[|PromptHead|..|p| - 2] == query
  {
    PromptHead + query + "\"\n"
  }

  /** The query embedded in a prompt of this shape. */
  function QueryOf(p: string): Option<string> {
    if |p| >= |PromptHead| + 2 && StartsWith(p, PromptHead) && EndsWith(p, "\"\n")
    then Some(p[|PromptHead|..|p| - 2]) else None
  }

  /** The prompt depends on nothing but the query, and the query can be read back. */
  lemma PromptRoundTrip(query: string)
    ensures QueryOf(BuildPrompt(query)) == Some(query)
  {
  }

  lemma PromptInjective(q1: string, q2: string)
    requires BuildPrompt(q1) == BuildPrompt(q2)
    ensures q1 == q2
  {
    PromptRoundTrip(q1);
    PromptRoundTrip(q2);
  }

  /** `re.IGNORECASE` matching of a lower-case letter of "json": the letter in
      either case, and for 's' also U+017F (long s), which Python's `re`
      treats as a case variant of 's'. */
  predicate CaseMatch(c: char, letter: char)
    requires letter in "json"
  {
    c == letter || c == (letter as int - 32) as char || (letter == 's' && c == '\U{17f}')
  }

  predicate TaggedOpening(s: string) {
    && |s| >= 7 && s[..3] == "```"
    && CaseMatch(s[3], 'j') && CaseMatch(s[4], 's') && CaseMatch(s[5], 'o') && CaseMatch(s[6], 'n')
  }

  /** Length of the text the first alternative `^```json\n?` matches at the start. */
  function OpeningLength(s: string): (n: nat)
    ensures n <= |s| && (n == 0 || n == 7 || n == 8)
    ensures n != 0 <==> TaggedOpening(s)
    ensures n == 8 <==> TaggedOpening(s) && |s| >= 8 && s[7] == '\n'
  {
    if TaggedOpening(s) then (if |s| >= 8 && s[7] == '\n' then 8 else 7) else 0
  }

  /** Where the second alternative "```$" matches: at the very end, or just
      before a final newline, since `$` also matches there. */
  function ClosingStart(s: string): (r: Option<nat>)
    ensures r.Some? <==> EndsWith(s, "```") || EndsWith(s, "```\n")
    ensures r.Some? ==> r.value + 3 <= |s| && s[r.value..r.value + 3] == "```"
    ensures r.Some? ==> r.value + 3 == |s| || (r.value + 4 == |s| && s[|s| - 1] == '\n')
    ensures EndsWith(s, "```") ==> r == Some(|s| - 3)
    ensures r.Some? ==> r.value >= OpeningLength(s)
  {
    if EndsWith(s, "```") then Some(|s| - 3)
    else if EndsWith(s, "```\n") then Some(|s| - 4)
    else None
  }

  /** The `re.sub` call: the left-to-right scan can find the opening only at
      index 0 and the closing only at `ClosingStart`, which never overlaps
      the opening. */
  function StripFences(s: string): (r: string)
    ensures ClosingStart(s).None? ==> r == s[OpeningLength(s)..]
    ensures |s| - OpeningLength(s) - 3 <= |r| <= |s| - OpeningLength(s)
    ensures ClosingStart(s).Some? ==> |r| == |s| - OpeningLength(s) - 3
    ensures ClosingStart(s).Some? ==>
              r == s[OpeningLength(s)..ClosingStart(s).value] + s[ClosingStart(s).value + 3..]
  {
    var e := OpeningLength(s);
    match ClosingStart(s)
    case Some(c) => s[e..c] + s[c + 3..]
    case None => s[e..]
  }

  /** Line 64: strip, remove the fences, strip again. */
  function Clean(raw: string): (r: string)
    ensures Trimmed(r, Whitespace)
  {
    Strip(StripFences(Strip(raw)))
  }

  /** A stripped text cannot end in a newline, so `$` can only match at its end. */
  lemma StrippedNoFinalNewline(t: string)
    requires Trimmed(t, Whitespace)
    ensures !EndsWith(t, "```\n")
  {
    if |t| >= 4 {
      assert t[|t| - 4..][3] == t[|t| - 1] != '\n';
    }
  }

  lemma FencesBoth(t: string)
    requires TaggedOpening(t) && EndsWith(t, "```") && |t| >= 10
    ensures StripFences(t) == t[OpeningLength(t)..|t| - 3]
  {
    assert ClosingStart(t) == Some(|t| - 3);
    assert t[|t|..] == [];
  }

  lemma FencesOpeningOnly(t: string)
    requires Trimmed(t, Whitespace) && TaggedOpening(t) && !EndsWith(t, "```")
    ensures StripFences(t) == t[OpeningLength(t)..]
  {
    StrippedNoFinalNewline(t);
  }

  lemma FencesClosingOnly(t: string)
    requires !TaggedOpening(t) && EndsWith(t, "```")
    ensures StripFences(t) == t[..|t| - 3]
  {
    assert OpeningLength(t) == 0;
    assert ClosingStart(t) == Some(|t| - 3);
  }

  lemma FencesNeither(t: string)
    requires Trimmed(t, Whitespace) && !TaggedOpening(t) && !EndsWith(t, "```")
    ensures StripFences(t) == t
  {
    StrippedNoFinalNewline(t);
  }

  /** A tagged opening (any letter case, at most one newline after it) and a
      closing fence at the end are both removed, leaving the stripped body. */
  lemma CleanTaggedBlock(raw: string, t: string)
    requires t == Strip(raw) && TaggedOpening(t) && EndsWith(t, "```") && |t| >= 10
    ensures Clean(raw) == Strip(t[OpeningLength(t)..|t| - 3])
  {
    FencesBoth(t);
  }

  /** The opening goes even when no closing fence follows. */
  lemma CleanTaggedOpeningOnly(raw: string, t: string)
    requires t == Strip(raw) && TaggedOpening(t) && !EndsWith(t, "```")
    ensures Clean(raw) == Strip(t[OpeningLength(t)..])
  {
    FencesOpeningOnly(t);
  }

  /** The closing fence goes even without an opening tag; the text before it is
      kept, including a bare "```" at its start. */
  lemma CleanClosingOnly(raw: string, t: string)
    requires t == Strip(raw) && !TaggedOpening(t) && EndsWith(t, "```")
    ensures Clean(raw) == Strip(t[..|t| - 3])
  {
    FencesClosingOnly(t);
  }

  lemma BareOpeningFences(t: string)
    requires Trimmed(t, Whitespace) && StartsWith(t, "```") && !TaggedOpening(t) && |t| >= 6
    ensures StartsWith(StripFences(t), "```")
  {
    StrippedNoFinalNewline(t);
    if EndsWith(t, "```") {
      FencesClosingOnly(t);
      assert t[..|t| - 3][..3] == t[..3];
    } else {
      FencesNeither(t);
    }
  }

  /** Stripping keeps a leading "```". */
  lemma StripKeepsBacktickStart(f: string)
    requires StartsWith(f, "```")
    ensures StartsWith(Strip(f), "```")
  {
    assert f[0] == '`' && f[1] == '`' && f[2] == '`' by {
      assert f[..3] == "```";
    }
    StripKeepsStart(f, 3);
  }

  /** A bare opening "```" without the json tag is not removed. */
  lemma CleanKeepsBareOpening(raw: string, t: string)
    requires t == Strip(raw) && StartsWith(t, "```") && !TaggedOpening(t) && |t| >= 6
    ensures StartsWith(Clean(raw), "```")
  {
    BareOpeningFences(t);
    StripKeepsBacktickStart(StripFences(t));
  }

  /** `n` backticks in a row. */
  function Backticks(n: nat): (r: string)
    ensures |r| == n && forall k :: 0 <= k < n ==> r[k] == '`'
  {
    seq(n, _ => '`')
  }

  /** A reply made only of backticks never carries the json tag, so the closing
      alternative eats its last three: "```" cleans to "", "````" to "`". */
  lemma CleanBackticksOnly(n: nat)
    requires n >= 3
    ensures Clean(Backticks(n)) == Backticks(n - 3)
  {
    var t := Backticks(n);
    GraphicNotSpace('`');
    StripByKeeps(t, Whitespace);
    assert !TaggedOpening(t) by { if n >= 7 { assert t[3] == '`'; } }
    assert t[n - 3..] == "```";
    var u := StripFences(t);
    assert u == Backticks(n - 3);
    if n > 3 {
      StripByKeeps(u, Whitespace);
    } else {
      assert u == [];
    }
  }

  /** Text with neither fence pattern comes back stripped and otherwise unchanged. */
  lemma CleanWithoutFences(raw: string, t: string)
    requires t == Strip(raw) && !TaggedOpening(t) && !EndsWith(t, "```")
    ensures Clean(raw) == t
  {
    FencesNeither(t);
    StripIdempotent(raw);
  }

  lemma FencedJsonIsStripped(body: string)
    ensures Strip("```json\n" + body + "\n```") == "```json\n" + body + "\n```"
  {
    var raw := "```json\n" + body + "\n```";
    assert Trimmed(raw, Whitespace);
    StripByKeeps(raw, Whitespace);
  }

  lemma FencedJsonFences(body: string)
    ensures StripFences("```json\n" + body + "\n```") == body + "\n"
  {
    var raw := "```json\n" + body + "\n```";
    assert raw[..3] == "```";
    assert TaggedOpening(raw) && EndsWith(raw, "```");
    FencesBoth(raw);
    assert raw[8..|raw| - 3] == body + "\n";
  }

  lemma FencedJsonClean(body: string)
    ensures Clean("```json\n" + body + "\n```") == Strip(body + "\n")
  {
    FencedJsonIsStripped(body);
    FencedJsonFences(body);
  }

  /** The usual model reply: a json-tagged code block around a JSON body. */
  lemma CleanFencedJson(body: string)
    requires Trimmed(body, Whitespace)
    ensures Clean("```json\n" + body + "\n```") == body
  {
    FencedJsonClean(body);
    StripDropsTrailing(body, "\n");
  }

  lemma TaggedPrefixTrimmed(body: string)
    requires Trimmed(body, Whitespace) && body != []
    ensures Trimmed("```json\n" + body, Whitespace)
  {
    var raw := "```json\n" + body;
    assert raw[|raw| - 1] == body[|body| - 1];
  }

  lemma TaggedPrefixUnclosed(body: string)
    requires body != [] && !EndsWith(body, "```")
    ensures !EndsWith("```json\n" + body, "```")
  {
    var raw := "```json\n" + body;
    if |body| >= 3 {
      assert raw[|raw| - 3..] == body[|body| - 3..];
    } else {
      assert raw[|raw| - 3] in "\nn`" && raw[|raw| - 3] != '`';
    }
  }

  lemma TaggedPrefixStripped(body: string)
    requires Trimmed(body, Whitespace) && body != [] && !EndsWith(body, "```")
    ensures var raw := "```json\n" + body;
            Strip(raw) == raw && !EndsWith(raw, "```") && Trimmed(raw, Whitespace)
  {
    TaggedPrefixTrimmed(body);
    StripByKeeps("```json\n" + body, Whitespace);
    TaggedPrefixUnclosed(body);
  }

  lemma TaggedPrefixFences(body: string)
    requires var raw := "```json\n" + body; Trimmed(raw, Whitespace) && !EndsWith(raw, "```")
    ensures StripFences("```json\n" + body) == body
  {
    var raw := "```json\n" + body;
    assert raw[..3] == "```";
    assert TaggedOpening(raw) && OpeningLength(raw) == 8;
    FencesOpeningOnly(raw);
    assert raw[8..] == body;
  }

  lemma TaggedPrefixClean(body: string)
    requires Trimmed(body, Whitespace) && body != [] && !EndsWith(body, "```")
    ensures Clean("```json\n" + body) == body
  {
    TaggedPrefixStripped(body);
    TaggedPrefixFences(body);
    StripByKeeps(body, Whitespace);
  }

  /** The cleaner is not idempotent: a reply with the tagged opening twice
      keeps the second one, which a second pass removes. */
  lemma CleanNotIdempotent(body: string)
    requires Trimmed(body, Whitespace) && body != [] && !EndsWith(body, "```")
    ensures Clean("```json\n```json\n" + body) == "```json\n" + body
    ensures Clean(Clean("```json\n```json\n" + body)) == body
  {
    var twice := "```json\n" + body;
    assert "```json\n```json\n" + body == "```json\n" + twice;
    assert Trimmed(twice, Whitespace);
    assert !EndsWith(twice, "```") by {
      if |body| >= 3 {
        assert twice[|twice| - 3..] == body[|body| - 3..];
      } else {
        assert twice[|twice| - 3] in "\nn`" && twice[|twice| - 3] != '`';
      }
    }
    TaggedPrefixClean(twice);
    TaggedPrefixClean(body);
  }
}
