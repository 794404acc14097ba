/** The guardrail script: a budget check with the user's query first, then
    the routed request with the user's preferences in the prompt. Replies are
    cleaned by `strip().strip('`').strip()` and the dropping of a leading
    "json" line. */
module Guardrails {
  import opened Wrappers
  import opened PyText
  import opened PyValue
  import opened Travel
  import opened Routing

  // ---------------------------------------------------------------- prompts

  const Preamble: string := "\nYou are a helpful travel assistant.\nUser Preferences:\n"
  const SchemaLead: string := "\n\nRespond ONLY with a JSON object that matches this schema:\n"
  const QueryLead: string := "\n\nUser Query: "

  /** The four preference lines; the lists print as Python lists do. */
  function ContextText(context: UserContext): string {
    "Preferred Airlines: " + Str(StrList(context.preferredAirlines))
    + "\nHotel Amenities: " + Str(StrList(context.hotelAmenities))
    + "\nBudget Level: " + context.budgetLevel
    + "\nSession Start: " + context.sessionStart
  }

  /** The preference lines start with the airlines printed as a Python list,
      end with the session start, and never carry the user id. */
  lemma ContextShape(context: UserContext, otherId: string)
    ensures StartsWith(ContextText(context), "Preferred Airlines: [")
    ensures StartsWith(ContextText(context),
                       "Preferred Airlines: " + Str(StrList(context.preferredAirlines))
                       + "\nHotel Amenities: " + Str(StrList(context.hotelAmenities))
                       + "\nBudget Level: " + context.budgetLevel + "\n")
    ensures EndsWith(ContextText(context), "\nSession Start: " + context.sessionStart)
    ensures ContextText(context.(userId := otherId)) == ContextText(context)
  {
    ListTextBracketed(context.preferredAirlines);
    ContextFrame("Preferred Airlines: ", Str(StrList(context.preferredAirlines)),
                 "\nHotel Amenities: ", Str(StrList(context.hotelAmenities)),
                 "\nBudget Level: ", context.budgetLevel, "\nSession Start: ", context.sessionStart, "[", "\n");
  }

  lemma ContextFrame(a1: string, l1: string, a2: string, l2: string, a3: string, level: string,
                     a4: string, start: string, prefix: string, lead: string)
    requires StartsWith(l1, prefix) && StartsWith(a4, lead)
    ensures var t := a1 + l1 + a2 + l2 + a3 + level + a4 + start;
            && StartsWith(t, a1 + prefix)
            && StartsWith(t, a1 + l1 + a2 + l2 + a3 + level + lead)
            && EndsWith(t, a4 + start)
  {
    var t := a1 + l1 + a2 + l2 + a3 + level + a4 + start;
    var front := a1 + l1 + a2 + l2 + a3 + level;
    assert t[..|a1 + prefix|] == a1 + l1[..|prefix|];
    assert t == front + (a4 + start);
    assert t[..|front + lead|] == front + a4[..|lead|];
    ConcatEnds(front, a4 + start);
  }

  lemma ListTextBracketed(xs: seq<string>)
    ensures StartsWith(Str(StrList(xs)), "[")
  {
    StrVsRepr(StrList(xs));
    ReprShape(StrList(xs));
  }

  /** The `schemas` dict of `build_prompt`: three keys. */
  function SchemaTable(schemas: SchemaTexts): map<string, string> {
    map["flight" := schemas.flight, "hotel" := schemas.hotel, "plan" := schemas.plan]
  }

  /** `build_prompt`: `None` stands for the KeyError of `schemas[task_type]`.
      A prompt is the preferences, then the schema of the task, then the query
      line, and nothing else. */
  function BuildPrompt(taskType: string, query: string, context: UserContext, schemas: SchemaTexts): (p: Option<string>)
    ensures p.Some? <==> taskType in {"flight", "hotel", "plan"}
    ensures p.Some? ==>
              Layout(p.value, Preamble + ContextText(context) + SchemaLead,
                     SchemaTable(schemas)[taskType], QueryLead + query + "\n")
  {
    var table := SchemaTable(schemas);
    if taskType in table then
      var a := Preamble + ContextText(context) + SchemaLead;
      var c := QueryLead + query + "\n";
      LayoutOf(a, table[taskType], c);
      Some(a + table[taskType] + c)
    else
      None
  }

  /** The routed task is always a key of the schema table, and its prompt
      embeds the schema of the routed model. */
  lemma RoutedPrompt(query: string, context: UserContext, schemas: SchemaTexts)
    ensures var routed := Route(query);
            var p := BuildPrompt(routed.taskType, query, context, schemas);
            p.Some? && Layout(p.value, Preamble + ContextText(context) + SchemaLead,
                              SchemaOf(schemas, routed.model), QueryLead + query + "\n")
  {
    var routed := Route(query);
    match routed.model
    case FlightKind => assert routed.taskType == "flight";
    case HotelKind => assert routed.taskType == "hotel";
    case PlanKind => assert routed.taskType == "plan";
  }

  /** Two prompts for the same task and preferences are equal only for the same query. */
  lemma PromptInjective(taskType: string, q1: string, q2: string, context: UserContext, schemas: SchemaTexts)
    requires BuildPrompt(taskType, q1, context, schemas).Some?
    requires BuildPrompt(taskType, q1, context, schemas) == BuildPrompt(taskType, q2, context, schemas)
    ensures q1 == q2
  {
    var p := BuildPrompt(taskType, q1, context, schemas).value;
    var c1 := QueryLead + q1 + "\n";
    var c2 := QueryLead + q2 + "\n";
    assert |c1| == |c2|;
    assert c1 == p[|p| - |c1|..] == c2;
    assert q1 == c1[|QueryLead|..|c1| - 1];
    assert q2 == c2[|QueryLead|..|c2| - 1];
  }

  const BudgetLead: string :=
    "\nYou are a budget check assistant.\nEvaluate if this travel budget is realistic.\n"
    + "Respond ONLY with JSON that matches:\n"

  /** Everything in the budget-check prompt before the query: fixed text and
      the budget schema, nothing from the user. */
  function BudgetHead(schemas: SchemaTexts): string {
    BudgetLead + schemas.budget + "\n\nQuery: "
  }

  /** `build_budget_check_prompt`: the query is its only varying part. */
  function BuildBudgetCheckPrompt(query: string, schemas: SchemaTexts): (p: string)
    ensures Layout(p, BudgetHead(schemas), query, "\n")
  {
    LayoutOf(BudgetHead(schemas), query, "\n");
    BudgetHead(schemas) + query + "\n"
  }

  lemma BudgetPromptInjective(q1: string, q2: string, schemas: SchemaTexts)
    requires BuildBudgetCheckPrompt(q1, schemas) == BuildBudgetCheckPrompt(q2, schemas)
    ensures q1 == q2
  {
    var p := BuildBudgetCheckPrompt(q1, schemas);
    var n := |BudgetHead(schemas)|;
    assert q1 == p[n..n + |q1|];
    assert q2 == p[n..n + |q2|];
  }

  // -------------------------------------------------------------- sanitiser

  /** The exceptions `handle_query` lets through. */
  datatype PyException =
    | GatewayError(message: string)
      /** `split("\n", 1)[1]` on a text without a newline. */
    | IndexError

  function ExceptionText(e: PyException): string {
    match e
    case GatewayError(m) => m
    case IndexError => "list index out of range"
  }

  /** `text.strip().strip('`').strip()`. */
  function Unwrapped(text: string): (t: string)
    ensures Trimmed(t, Whitespace)
  {
    Strip(StripBy(Strip(text), Backtick))
  }

  /** `if t.startswith("json"): t = t.split("\n", 1)[1]`: a text starting with
      "json" loses everything up to its first newline, and has to have one. */
  function DropTagLine(t: string): (r: Result<string, PyException>)
    ensures !StartsWith(t, "json") ==> r == Ok(t)
    ensures StartsWith(t, "json") ==> (r.Err? <==> '\n' !in t)
    ensures r.Err? ==> r.error == IndexError
    ensures StartsWith(t, "json") && r.Ok? ==>
              exists k :: 0 <= k < |t| && t[k] == '\n' && '\n' !in t[..k] && r.value == t[k + 1..]
  {
    if StartsWith(t, "json") then
      match IndexOf(t, '\n')
      case Some(k) =>
        assert t[k] == '\n' && '\n' !in t[..k];
        Ok(t[k + 1..])
      case None => Err(IndexError)
    else
      Ok(t)
  }

  lemma DropTagLineOfFirstLine(rest: string)
    ensures DropTagLine("json\n" + rest) == Ok(rest)
  {
    var t := "json\n" + rest;
    assert t[..4] == "json";
    assert t[4] == '\n';
    assert t[..4] == ['j', 's', 'o', 'n'];
    IndexOfFirst(t, '\n', 4);
    assert t[5..] == rest;
  }

  lemma DropTagLineOfBareTag()
    ensures DropTagLine("json") == Err(IndexError)
  {
    assert StartsWith("json", "json");
    assert "json" == ['j', 's', 'o', 'n'];
  }

  /** The reply cleaning of both the guardrail and the main reply. */
  function Sanitize(text: string): Result<string, PyException> {
    DropTagLine(Unwrapped(text))
  }

  /** The cleaning keeps a final part of the unwrapped text: all of it when
      it does not start with "json", the part after its first newline when it
      does; it fails, with IndexError, exactly when a "json" text has no newline. */
  lemma SanitizeSteps(text: string)
    ensures var u := Unwrapped(text);
            && (!StartsWith(u, "json") ==> Sanitize(text) == Ok(u))
            && (Sanitize(text).Ok? ==> EndsWith(u, Sanitize(text).value))
            && (Sanitize(text).Err? <==> StartsWith(u, "json") && '\n' !in u)
            && (Sanitize(text).Err? ==> Sanitize(text).error == IndexError)
  {
    var u := Unwrapped(text);
    SanitizeVia(text, u);
    if StartsWith(u, "json") && DropTagLine(u).Ok? {
      var k :| 0 <= k < |u| && u[k] == '\n' && '\n' !in u[..k] && DropTagLine(u).value == u[k + 1..];
      assert u[|u| - |u[k + 1..]|..] == u[k + 1..];
    } else if !StartsWith(u, "json") {
      assert u[|u| - |u|..] == u;
    }
  }

  /** A text that does not start with "json" after the unwrapping comes back
      with no surrounding whitespace. */
  lemma SanitizeUntaggedTrimmed(text: string)
    requires !StartsWith(Unwrapped(text), "json")
    ensures Sanitize(text).Ok? && Trimmed(Sanitize(text).value, Whitespace)
  {
  }

  /** A JSON object with only whitespace around it comes back as it is. */
  lemma SanitizeCleanObject(ws1: string, obj: string, ws2: string)
    requires AllDropped(ws1, Whitespace) && AllDropped(ws2, Whitespace)
    requires |obj| >= 2 && obj[0] == '{' && obj[|obj| - 1] == '}'
    ensures Sanitize(ws1 + obj + ws2) == Ok(obj)
  {
    UnwrappedObject(ws1, obj, ws2);
    NotTagged(obj);
    SanitizeVia(ws1 + obj + ws2, obj);
  }

  lemma NotTagged(obj: string)
    requires |obj| >= 2 && obj[0] == '{'
    ensures DropTagLine(obj) == Ok(obj)
  {
    assert !StartsWith(obj, "json") by {
      assert obj[0] != 'j';
    }
  }

  lemma SanitizeVia(text: string, u: string)
    requires Unwrapped(text) == u
    ensures Sanitize(text) == DropTagLine(u)
  {
  }

  lemma UnwrappedObject(ws1: string, obj: string, ws2: string)
    requires AllDropped(ws1, Whitespace) && AllDropped(ws2, Whitespace)
    requires |obj| >= 2 && obj[0] == '{' && obj[|obj| - 1] == '}'
    ensures Unwrapped(ws1 + obj + ws2) == obj
  {
    GraphicNotSpace('{');
    GraphicNotSpace('}');
    StripAround(ws1, obj, ws2);
    StripByKeeps(obj, Backtick);
    StripByKeeps(obj, Whitespace);
  }

  /** Backtick runs around a text that starts and ends with neither a
      backtick nor whitespace are all the unwrapping removes, with the
      whitespace they enclose. */
  lemma UnwrapBetween(ticks1: string, inner: string, ticks2: string)
    requires |ticks1| >= 1 && |ticks2| >= 1
    requires AllDropped(ticks1, Backtick) && AllDropped(ticks2, Backtick)
    requires |inner| >= 1 && inner[0] != '`' && inner[|inner| - 1] != '`'
    ensures Unwrapped(ticks1 + inner + ticks2) == Strip(inner)
  {
    var raw := ticks1 + inner + ticks2;
    assert raw[0] == '`' && raw[|raw| - 1] == '`';
    StripByKeeps(raw, Whitespace);
    StripByAround(ticks1, inner, ticks2, Backtick);
  }

  lemma FenceUnwraps(body: string)
    requires body != [] && Trimmed(body, Whitespace)
    ensures Unwrapped("```json\n" + body + "\n```") == "json\n" + body
  {
    var tagged := "json\n" + body;
    var inner := tagged + "\n";
    assert "```json\n" + body + "\n```" == "```" + inner + "```";
    UnwrapBetween("```", inner, "```");
    TagLineTrimmed(body);
    assert AllDropped("\n", Whitespace);
    StripDropsTrailing(tagged, "\n");
  }

  /** A json code block around a non-empty body with no surrounding
      whitespace yields that body. */
  lemma SanitizeFencedJson(body: string)
    requires body != [] && Trimmed(body, Whitespace)
    ensures Sanitize("```json\n" + body + "\n```") == Ok(body)
  {
    FenceUnwraps(body);
    DropTagLineOfFirstLine(body);
  }

  lemma TagLineTrimmed(body: string)
    requires body != [] && Trimmed(body, Whitespace)
    ensures Trimmed("json\n" + body, Whitespace)
  {
    var tagged := "json\n" + body;
    GraphicNotSpace('j');
    assert tagged[0] == 'j';
    assert tagged[|tagged| - 1] == body[|body| - 1];
  }

  lemma BlankFenceUnwraps(ws: string)
    requires AllDropped(ws, Whitespace)
    ensures Unwrapped("```json" + ws + "```") == "json"
  {
    var inner := "json" + ws;
    assert "```json" + ws + "```" == "```" + inner + "```";
    assert inner[|inner| - 1] != '`' by {
      if ws != [] {
        assert inner[|inner| - 1] == ws[|ws| - 1];
      }
    }
    UnwrapBetween("```", inner, "```");
    BareTagThenBlank(ws);
  }

  lemma BareTagThenBlank(ws: string)
    requires AllDropped(ws, Whitespace)
    ensures Strip("json" + ws) == "json"
  {
    GraphicNotSpace('j');
    GraphicNotSpace('n');
    assert Trimmed("json", Whitespace);
    StripDropsTrailing("json", ws);
  }

  /** An empty json code block leaves "json" without a newline, and the split
      raises IndexError. */
  lemma SanitizeBlankFence(ws: string)
    requires AllDropped(ws, Whitespace)
    ensures Sanitize("```json" + ws + "```") == Err(IndexError)
  {
    BlankFenceUnwraps(ws);
    DropTagLineOfBareTag();
  }

  // --------------------------------------------------------------- guardrail

  /** What the budget check decides: block with the parsed reasoning, let the
      query through, or let it through because the check failed. */
  datatype Verdict = Block(reasoning: string, suggestedBudget: Option<Float>) | Pass | Indeterminate

  /** The guardrail block of `handle_query`: only a parsed analysis with
      `is_realistic` false blocks; every failure on the way fails open. */
  function CheckBudget(reply: GatewayReply, validate: string -> Result<BudgetAnalysis, string>): (v: Verdict)
    ensures !v.Indeterminate? <==>
              reply.Completion? && Sanitize(reply.text).Ok? && validate(Sanitize(reply.text).value).Ok?
    ensures v.Block? ==>
              var analysis := validate(Sanitize(reply.text).value).value;
              !analysis.isRealistic && v == Block(analysis.reasoning, analysis.suggestedBudget)
    ensures v.Pass? ==> validate(Sanitize(reply.text).value).value.isRealistic
  {
    match reply
    case GatewayFailure(_) => Indeterminate
    case Completion(text) =>
      match Sanitize(text)
      case Err(_) => Indeterminate
      case Ok(json) =>
        match validate(json)
        case Err(_) => Indeterminate
        case Ok(analysis) =>
          if analysis.isRealistic then Pass
          else Block(analysis.reasoning, analysis.suggestedBudget)
  }

  // ---------------------------------------------------------------- handler

  /** What `handle_query` returns: the guardrail dict, the error dict, or a
      record of the routed model. */
  datatype QueryResult =
    | GuardrailResult(reasoning: string, suggestedBudget: Option<Float>)
    | ErrorResult(error: string)
    | RecordResult(record: Record)

  /** `handle_query` returns a result or raises. */
  datatype Outcome = Returned(result: QueryResult) | Raised(exception: PyException)

  function OptionalFloat(f: Option<Float>): Value {
    match f
    case None => VNone
    case Some(x) => FloatValue(x)
  }

  /** The result as the Python object the caller receives. */
  function ResultValue(q: QueryResult): Value {
    match q
    case GuardrailResult(reasoning, suggested) =>
      VDict([("type", VStr("guardrail")), ("reasoning", VStr(reasoning)),
             ("suggested_budget", OptionalFloat(suggested))])
    case ErrorResult(error) => VDict([("type", VStr("error")), ("error", VStr(error))])
    case RecordResult(record) => ModelValue(record)
  }

  /** The main call's reply handling: only a validation failure is caught
      (as the error dict); the gateway's exception and the IndexError of the
      cleaning propagate. */
  function MainOutcome(reply: GatewayReply, validators: Validators, kind: SchemaKind): (o: Outcome)
    ensures reply.GatewayFailure? ==> o == Raised(GatewayError(reply.message))
    ensures reply.Completion? && Sanitize(reply.text).Err? ==> o == Raised(IndexError)
    ensures reply.Completion? && Sanitize(reply.text).Ok? ==>
              var checked := Validate(validators, kind, Sanitize(reply.text).value);
              o == Returned(if checked.Ok? then RecordResult(checked.value) else ErrorResult(checked.error))
    ensures o.Returned? ==> !o.result.GuardrailResult?
    ensures o.Returned? && o.result.RecordResult? ==> KindOf(o.result.record) == kind
  {
    match reply
    case GatewayFailure(m) => Raised(GatewayError(m))
    case Completion(text) =>
      match Sanitize(text)
      case Err(e) => Raised(e)
      case Ok(json) =>
        match Validate(validators, kind, json)
        case Ok(record) => Returned(RecordResult(record))
        case Err(e) => Returned(ErrorResult(e))
  }

  /** What one run of `handle_query` returns, with the calls it makes to the
      gateway in order: the budget check, then the routed call unless the
      check blocked. */
  function QueryRun(query: string, context: UserContext, schemas: SchemaTexts,
                    gateway: GatewayCall -> GatewayReply, validators: Validators): (Outcome, seq<GatewayCall>)
  {
    var budgetCall := GatewayCall(BuildBudgetCheckPrompt(query, schemas), 0.2);
    var verdict := CheckBudget(gateway(budgetCall), validators.budget);
    if verdict.Block? then
      (Returned(GuardrailResult(verdict.reasoning, verdict.suggestedBudget)), [budgetCall])
    else
      var routed := Route(query);
      RoutedPrompt(query, context, schemas);
      var mainCall := GatewayCall(BuildPrompt(routed.taskType, query, context, schemas).value, 0.7);
      (MainOutcome(gateway(mainCall), validators, routed.model), [budgetCall, mainCall])
  }

  /** The run's calls and outcome: one call and the guardrail dict exactly when
      the budget check blocks, otherwise the routed prompt at 0.7 whose reply
      decides the outcome. */
  lemma QueryRunSteps(query: string, context: UserContext, schemas: SchemaTexts,
                      gateway: GatewayCall -> GatewayReply, validators: Validators)
    ensures var (outcome, calls) := QueryRun(query, context, schemas, gateway, validators);
            && 1 <= |calls| <= 2
            && calls[0] == GatewayCall(BuildBudgetCheckPrompt(query, schemas), 0.2)
            && var verdict := CheckBudget(gateway(calls[0]), validators.budget);
            && (|calls| == 1 <==> verdict.Block?)
            && (verdict.Block? ==> outcome == Returned(GuardrailResult(verdict.reasoning, verdict.suggestedBudget)))
            && (|calls| == 2 ==>
                  && BuildPrompt(Route(query).taskType, query, context, schemas).Some?
                  && calls[1] == GatewayCall(BuildPrompt(Route(query).taskType, query, context, schemas).value, 0.7)
                  && outcome == MainOutcome(gateway(calls[1]), validators, Route(query).model))
            && (outcome.Returned? && outcome.result.RecordResult? ==>
                  KindOf(outcome.result.record) == Route(query).model)
  {
    RoutedPrompt(query, context, schemas);
  }

  /** `handle_query`, with the calls it makes to the gateway in order. */
  method HandleQuery(query: string, context: UserContext, schemas: SchemaTexts,
                     gateway: GatewayCall -> GatewayReply, validators: Validators)
    returns (outcome: Outcome, calls: seq<GatewayCall>)
    ensures 1 <= |calls| <= 2
    ensures calls[0] == GatewayCall(BuildBudgetCheckPrompt(query, schemas), 0.2)
    ensures var verdict := CheckBudget(gateway(calls[0]), validators.budget);
            && (|calls| == 1 <==> verdict.Block?)
            && (verdict.Block? ==> outcome == Returned(GuardrailResult(verdict.reasoning, verdict.suggestedBudget)))
    ensures |calls| == 2 ==>
              var routed := Route(query);
              && BuildPrompt(routed.taskType, query, context, schemas).Some?
              && calls[1] == GatewayCall(BuildPrompt(routed.taskType, query, context, schemas).value, 0.7)
              && outcome == MainOutcome(gateway(calls[1]), validators, routed.model)
    ensures outcome.Returned? && outcome.result.RecordResult? ==>
              KindOf(outcome.result.record) == Route(query).model
    ensures (outcome, calls) == QueryRun(query, context, schemas, gateway, validators)
  {
    var guardrailCall, blocked := GuardrailStep(query, schemas, gateway, validators);
    if blocked.Some? {
      outcome := Returned(blocked.value);
      calls := [guardrailCall];
      QueryRunSteps(query, context, schemas, gateway, validators);
      return;
    }

    var routed := Route(query);
    RoutedPrompt(query, context, schemas);
    var mainPrompt := BuildPrompt(routed.taskType, query, context, schemas).value;
    var mainCall;
    mainCall, outcome := MainStep(mainPrompt, gateway, validators, routed.model);
    calls := [guardrailCall, mainCall];
    QueryRunSteps(query, context, schemas, gateway, validators);
  }

  /** The `try` block of the budget check: one call, and the guardrail dict
      when the reply parses as an unrealistic budget. */
  method GuardrailStep(query: string, schemas: SchemaTexts, gateway: GatewayCall -> GatewayReply,
                       validators: Validators)
    returns (call: GatewayCall, blocked: Option<QueryResult>)
    ensures call == GatewayCall(BuildBudgetCheckPrompt(query, schemas), 0.2)
    ensures var verdict := CheckBudget(gateway(call), validators.budget);
            && (blocked.Some? <==> verdict.Block?)
            && (verdict.Block? ==> blocked == Some(GuardrailResult(verdict.reasoning, verdict.suggestedBudget)))
  {
    call := GatewayCall(BuildBudgetCheckPrompt(query, schemas), 0.2);
    blocked := None;
    var guardrailReply := gateway(call);
    if guardrailReply.Completion? {
      var guardrailJson := Sanitize(guardrailReply.text);
      if guardrailJson.Ok? {
        var budgetInfo := validators.budget(guardrailJson.value);
        if budgetInfo.Ok? && !budgetInfo.value.isRealistic {
          blocked := Some(GuardrailResult(budgetInfo.value.reasoning, budgetInfo.value.suggestedBudget));
        }
      }
    }
  }

  /** The main call and its reply handling. */
  method MainStep(prompt: string, gateway: GatewayCall -> GatewayReply, validators: Validators,
                  kind: SchemaKind)
    returns (call: GatewayCall, outcome: Outcome)
    ensures call == GatewayCall(prompt, 0.7)
    ensures outcome == MainOutcome(gateway(call), validators, kind)
  {
    call := GatewayCall(prompt, 0.7);
    match gateway(call)
    case GatewayFailure(m) =>
      outcome := Raised(GatewayError(m));
    case Completion(text) =>
      match Sanitize(text)
      case Err(e) =>
        outcome := Raised(e);
      case Ok(outputRaw) =>
        match Validate(validators, kind, outputRaw)
        case Ok(record) =>
          outcome := Returned(RecordResult(record));
        case Err(e) =>
          outcome := Returned(ErrorResult(e));
  }
}
