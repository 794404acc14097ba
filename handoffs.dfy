/** The hand-off script: the keyword router picks the output model, a
    per-model prompt asks for it, and the reply is only trimmed before
    validation; a validation failure yields `None`. */
module Handoffs {
  import opened Wrappers
  import opened PyText
  import opened Travel
  import opened Routing

  /** `build_prompt` picks its template by task name: "flight" and "hotel" have
      their own, every other name gets the travel-plan one. */
  function TemplateKind(taskType: string): (k: SchemaKind)
    ensures k == FlightKind <==> taskType == "flight"
    ensures k == HotelKind <==> taskType == "hotel"
  {
    if taskType == "flight" then FlightKind
    else if taskType == "hotel" then HotelKind
    else PlanKind
  }

  function Persona(kind: SchemaKind): string {
    match kind
    case FlightKind => "\nYou are a flight booking assistant.\n"
    case HotelKind => "\nYou are a hotel booking assistant.\n"
    case PlanKind => "\nYou are a travel planner.\n"
  }

  function Usage(kind: SchemaKind): string {
    match kind
    case FlightKind => "Use the following query to return a flight recommendation in this JSON format:\n"
    case HotelKind => "Use the following query to return a hotel recommendation in this JSON format:\n"
    case PlanKind => "Use the following query to return a travel plan in this JSON format:\n"
  }

  function Header(kind: SchemaKind): string {
    Persona(kind) + Usage(kind)
  }

  const Closing: string := "Only return valid JSON.\nUser: "
  /** Everything in a prompt before the query. */
  function Head(kind: SchemaKind, schemas: SchemaTexts): string {
    Header(kind) + SchemaOf(schemas, kind) + "\n\n" + Closing
  }

  /** Every prompt is the template's persona and schema, then "Only return
      valid JSON." and the query on the "User:" line, which ends the prompt. */
  function BuildPrompt(taskType: string, query: string, schemas: SchemaTexts): (p: string)
    ensures StartsWith(p, Head(TemplateKind(taskType), schemas))
    ensures EndsWith(p, Closing + query + "\n")
  {
    var kind := TemplateKind(taskType);
    PromptParts(Header(kind) + SchemaOf(schemas, kind) + "\n\n", query);
    Head(kind, schemas) + query + "\n"
  }

  lemma PromptParts(front: string, query: string)
    ensures StartsWith(front + Closing + query + "\n", front + Closing)
    ensures EndsWith(front + Closing + query + "\n", Closing + query + "\n")
  {
    var p := front + Closing + query + "\n";
    assert p == (front + Closing) + (query + "\n");
    ConcatEnds(front + Closing, query + "\n");
    assert p == front + (Closing + query + "\n");
    ConcatEnds(front, Closing + query + "\n");
  }

  /** Reads back which template and which query a prompt was built from. */
  function ParsePrompt(p: string, schemas: SchemaTexts): Option<(SchemaKind, string)> {
    if ParsesAs(p, schemas, FlightKind) then Some((FlightKind, QueryPart(p, schemas, FlightKind)))
    else if ParsesAs(p, schemas, HotelKind) then Some((HotelKind, QueryPart(p, schemas, HotelKind)))
    else if ParsesAs(p, schemas, PlanKind) then Some((PlanKind, QueryPart(p, schemas, PlanKind)))
    else None
  }

  predicate ParsesAs(p: string, schemas: SchemaTexts, kind: SchemaKind) {
    var head := Head(kind, schemas);
    |p| >= |head| + 1 && StartsWith(p, head) && p[|p| - 1] == '\n'
  }

  function QueryPart(p: string, schemas: SchemaTexts, kind: SchemaKind): string
    requires ParsesAs(p, schemas, kind)
  {
    p[|Head(kind, schemas)|..|p| - 1]
  }

  /** The three personas differ from the eleventh character on, so a prompt
      starts with at most one of the headers. */
  function Mark(kind: SchemaKind): char {
    match kind
    case FlightKind => 'f'
    case HotelKind => 'h'
    case PlanKind => 't'
  }

  lemma HeaderMark(kind: SchemaKind)
    ensures |Header(kind)| > 11 && Header(kind)[11] == Mark(kind)
  {
    match kind
    case FlightKind => assert Persona(kind)[11] == 'f';
    case HotelKind => assert Persona(kind)[11] == 'h';
    case PlanKind => assert Persona(kind)[11] == 't';
  }

  lemma ParsedMark(p: string, schemas: SchemaTexts, kind: SchemaKind)
    requires ParsesAs(p, schemas, kind)
    ensures |p| > 11 && p[11] == Mark(kind)
  {
    var head := Head(kind, schemas);
    HeaderMark(kind);
    assert head[11] == Header(kind)[11];
    assert p[..|head|] == head;
    assert p[11] == p[..|head|][11];
  }

  lemma HeadersDistinct(p: string, schemas: SchemaTexts, k1: SchemaKind, k2: SchemaKind)
    requires ParsesAs(p, schemas, k1) && ParsesAs(p, schemas, k2)
    ensures k1 == k2
  {
    ParsedMark(p, schemas, k1);
    ParsedMark(p, schemas, k2);
  }

  /** The template and the query can both be read back from the prompt: the
      prompt embeds the template named by the task and the query verbatim. */
  lemma PromptRoundTrip(taskType: string, query: string, schemas: SchemaTexts)
    ensures ParsePrompt(BuildPrompt(taskType, query, schemas), schemas) == Some((TemplateKind(taskType), query))
  {
    BuiltParses(taskType, query, schemas, BuildPrompt(taskType, query, schemas));
    ParseUnique(BuildPrompt(taskType, query, schemas), schemas, TemplateKind(taskType));
  }

  lemma BuiltParses(taskType: string, query: string, schemas: SchemaTexts, p: string)
    requires p == BuildPrompt(taskType, query, schemas)
    ensures ParsesAs(p, schemas, TemplateKind(taskType)) && QueryPart(p, schemas, TemplateKind(taskType)) == query
  {
    var head := Head(TemplateKind(taskType), schemas);
    assert p[|head|..|p| - 1] == query;
  }

  /** A prompt that parses as one template parses as that one only. */
  lemma ParseUnique(p: string, schemas: SchemaTexts, kind: SchemaKind)
    requires ParsesAs(p, schemas, kind)
    ensures ParsePrompt(p, schemas) == Some((kind, QueryPart(p, schemas, kind)))
  {
    if ParsesAs(p, schemas, FlightKind) {
      HeadersDistinct(p, schemas, FlightKind, kind);
    } else if ParsesAs(p, schemas, HotelKind) {
      HeadersDistinct(p, schemas, HotelKind, kind);
    }
  }

  lemma PromptInjective(t1: string, q1: string, t2: string, q2: string, schemas: SchemaTexts)
    requires BuildPrompt(t1, q1, schemas) == BuildPrompt(t2, q2, schemas)
    ensures q1 == q2 && TemplateKind(t1) == TemplateKind(t2)
  {
    PromptRoundTrip(t1, q1, schemas);
    PromptRoundTrip(t2, q2, schemas);
  }

  /** The router's task name selects the template of the routed model. */
  lemma RoutedTemplate(query: string)
    ensures TemplateKind(Route(query).taskType) == Route(query).model
  {
    var r := Route(query);
    match r.model
    case FlightKind => assert r.taskType == "flight";
    case HotelKind => assert r.taskType == "hotel";
    case PlanKind => assert r.taskType == "plan";
  }

  /** The result of `handle_query`: the validated record or `None`, or the
      exception the gateway call raised, which is not caught. */
  datatype HandoffOutcome = Parsed(record: Option<Record>) | Raised(message: string)

  datatype HandoffRun = HandoffRun(call: GatewayCall, outcome: HandoffOutcome)

  /** The reply handling after the call: the gateway's exception propagates,
      otherwise the whitespace-trimmed text goes to the validator and a
      validation failure becomes `None`. */
  function ReplyOutcome(reply: GatewayReply, validators: Validators, kind: SchemaKind): (o: HandoffOutcome)
    ensures reply.GatewayFailure? ==> o == Raised(reply.message)
    ensures reply.Completion? ==>
              var checked := Validate(validators, kind, Strip(reply.text));
              o == Parsed(if checked.Ok? then Some(checked.value) else None)
    ensures o.Parsed? && o.record.Some? ==> KindOf(o.record.value) == kind
  {
    match reply
    case GatewayFailure(m) => Raised(m)
    case Completion(text) =>
      var raw := Strip(text);
      match Validate(validators, kind, raw)
      case Ok(parsed) => Parsed(Some(parsed))
      case Err(_) => Parsed(None)
  }

  /** One gateway call at temperature 0.7 with the template of the routed model. */
  function HandleQuery(query: string, schemas: SchemaTexts, gateway: GatewayCall -> GatewayReply,
                       validators: Validators): (r: HandoffRun)
    ensures var routed := Route(query);
            && r.call == GatewayCall(BuildPrompt(routed.taskType, query, schemas), 0.7)
            && TemplateKind(routed.taskType) == routed.model
    ensures r.outcome == ReplyOutcome(gateway(r.call), validators, Route(query).model)
  {
    RoutedTemplate(query);
    var routed := Route(query);
    var call := GatewayCall(BuildPrompt(routed.taskType, query, schemas), 0.7);
    HandoffRun(call, ReplyOutcome(gateway(call), validators, routed.model))
  }

  /** No fence stripping happens: a fenced reply reaches the validator with its
      fences, only the surrounding whitespace removed. */
  lemma FencedReplyReachesValidator(query: string, schemas: SchemaTexts, gateway: GatewayCall -> GatewayReply,
                                    validators: Validators, ws1: string, body: string, ws2: string)
    requires AllDropped(ws1, Whitespace) && AllDropped(ws2, Whitespace)
    requires gateway(HandleQuery(query, schemas, gateway, validators).call)
             == Completion(ws1 + "```json\n" + body + "\n```" + ws2)
    ensures var checked := Validate(validators, Route(query).model, "```json\n" + body + "\n```");
            HandleQuery(query, schemas, gateway, validators).outcome
            == Parsed(if checked.Ok? then Some(checked.value) else None)
  {
    StripFencedReply(ws1, body, ws2);
  }

  lemma StripFencedReply(ws1: string, body: string, ws2: string)
    requires AllDropped(ws1, Whitespace) && AllDropped(ws2, Whitespace)
    ensures Strip(ws1 + "```json\n" + body + "\n```" + ws2) == "```json\n" + body + "\n```"
  {
    var fenced := "```json\n" + body + "\n```";
    assert ws1 + "```json\n" + body + "\n```" + ws2 == ws1 + fenced + ws2;
    assert fenced[0] == '`' && fenced[|fenced| - 1] == '`';
    StripAround(ws1, fenced, ws2);
  }
}
