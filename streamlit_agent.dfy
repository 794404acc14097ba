/** The chat front end: the formatter that turns a `handle_query` result into
    the assistant's HTML, and the session state the page keeps between runs. */
module StreamlitAgent {
  import opened Wrappers
  import opened PyText
  import opened PyValue
  import opened Travel
  import opened Routing
  import opened Guardrails

  // ------------------------------------------------------------ HTML pages

  const Pad8: string := "        "
  const Pad12: string := "            "

  function GuardrailPage(reason: string, budget: string): string {
    "\n" + Pad8 + "<div style='color:#b30000;font-weight:bold;'>\U{26A0}\U{FE0F} GUARDRAIL TRIGGERED</div>\n"
    + Pad8 + "<p><strong>Reason:</strong> " + reason + "</p>\n"
    + Pad8 + "<p><strong>Suggested Budget:</strong> $" + budget + "</p>\n"
    + Pad8
  }

  function PlanHead(destination: string, days: string, budget: string): string {
    "\n" + Pad12 + "<h3>Travel Plan for " + destination + "</h3>\n"
    + Pad12 + "<p><strong>Duration:</strong> " + days + " days</p>\n"
    + Pad12 + "<p><strong>Budget:</strong> $" + budget + "</p>\n"
    + Pad12 + "<h4>Recommended Activities:</h4>\n"
    + Pad12 + "<ul>"
  }

  function PlanTail(notes: string): string {
    "</ul><p><strong>Notes:</strong> " + notes + "</p>"
  }

  function FlightPage(airline: string, departure: string, arrival: string, price: string,
                      direct: string, reason: string): string {
    "\n" + Pad12 + "<h3>Flight Recommendation</h3>\n"
    + Pad12 + "<p><strong>Airline:</strong> " + airline + "</p>\n"
    + Pad12 + "<p><strong>Departure:</strong> " + departure + "</p>\n"
    + Pad12 + "<p><strong>Arrival:</strong> " + arrival + "</p>\n"
    + Pad12 + "<p><strong>Price:</strong> $" + price + "</p>\n"
    + Pad12 + "<p><strong>Direct Flight:</strong> " + direct + "</p>\n"
    + Pad12 + "<p><strong>Why this flight:</strong> " + reason + "</p>\n"
    + Pad12
  }

  function HotelHead(name: string, location: string, price: string): string {
    "\n" + Pad12 + "<h3>Hotel Recommendation: " + name + "</h3>\n"
    + Pad12 + "<p><strong>Location:</strong> " + location + "</p>\n"
    + Pad12 + "<p><strong>Price per night:</strong> $" + price + "</p>\n"
    + Pad12 + "<h4>Amenities:</h4>\n"
    + Pad12 + "<ul>"
  }

  function HotelTail(reason: string): string {
    "</ul><p><strong>Why this hotel:</strong> " + reason + "</p>"
  }

  function Item(text: string): string {
    "<li>" + text + "</li>"
  }

  /** What an f-string placeholder prints for each element. */
  function Texts(items: seq<Value>): seq<string> {
    seq(|items|, k requires 0 <= k < |items| => Str(items[k]))
  }

  /** The list items the loops append, one per element, in order. */
  function ListItems(texts: seq<string>): string {
    if texts == [] then "" else ListItems(texts[..|texts| - 1]) + Item(texts[|texts| - 1])
  }

  lemma {:induction false} ListItemsAppend(a: seq<string>, b: seq<string>)
    ensures ListItems(a + b) == ListItems(a) + ListItems(b)
    decreases |b|
  {
    if b == [] {
      assert a + b == a;
    } else {
      var c := b[..|b| - 1];
      assert (a + b)[..|a + b| - 1] == a + c;
      assert (a + b)[|a + b| - 1] == b[|b| - 1];
      ListItemsAppend(a, c);
      ConcatAssoc(ListItems(a), ListItems(c), Item(b[|b| - 1]));
    }
  }

  /** A reference rendering of the items: built from the front. */
  function Bullets(xs: seq<string>): string {
    if xs == [] then "" else Item(xs[0]) + Bullets(xs[1..])
  }

  /** The loops emit one `<li>` per element, in list order. */
  lemma {:induction false} ListItemsAreBullets(xs: seq<string>)
    ensures ListItems(xs) == Bullets(xs)
    decreases |xs|
  {
    if xs != [] {
      assert xs == [xs[0]] + xs[1..];
      ListItemsAppend([xs[0]], xs[1..]);
      assert ListItems([xs[0]]) == Item(xs[0]) by {
        assert [xs[0]][..0] == [];
      }
      ListItemsAreBullets(xs[1..]);
    }
  }

  lemma TextsOfStrList(xs: seq<string>)
    ensures Texts(StrList(xs).items) == xs
  {
  }

  // ------------------------------------------------------------- formatter

  /** Which page a result dict gets: "destination" wins over "airline", which
      wins over "name" together with "amenities". */
  function Dispatch(r: seq<(string, Value)>): (k: Option<SchemaKind>)
    ensures k == Some(PlanKind) <==> HasKey(r, "destination")
    ensures k == Some(FlightKind) <==> !HasKey(r, "destination") && HasKey(r, "airline")
    ensures k == Some(HotelKind) <==>
              !HasKey(r, "destination") && !HasKey(r, "airline") && HasKey(r, "name") && HasKey(r, "amenities")
  {
    if HasKey(r, "destination") then Some(PlanKind)
    else if HasKey(r, "airline") then Some(FlightKind)
    else if HasKey(r, "name") && HasKey(r, "amenities") then Some(HotelKind)
    else None
  }

  /** A page with a list: the head, one item per element the loop visits,
      the tail; iterating a value that cannot be iterated raises TypeError. */
  function ListPage(head: string, list: Value, tail: string): Result<string, string> {
    match Iterate(list)
    case Err(e) => Err(e)
    case Ok(items) => Ok(head + ListItems(Texts(items)) + tail)
  }

  /** A list of str renders as the reference items. */
  lemma ListPageOfStrings(head: string, xs: seq<string>, tail: string)
    ensures ListPage(head, StrList(xs), tail) == Ok(head + Bullets(xs) + tail)
  {
    TextsOfStrList(xs);
    ListItemsAreBullets(xs);
  }

  function Field(r: seq<(string, Value)>, key: string): string {
    Str(Get(r, key))
  }

  /** The page for a result dict, or `str()` of it when no page applies. */
  function ResultPage(result: Value): Result<string, string> {
    if result.VDict? then
      var r := result.entries;
      match Dispatch(r)
      case Some(PlanKind) =>
        ListPage(PlanHead(Field(r, "destination"), Field(r, "duration_days"), Field(r, "budget")),
                 GetOr(r, "activities", VList([])), PlanTail(Field(r, "notes")))
      case Some(FlightKind) =>
        Ok(FlightPage(Field(r, "airline"), Field(r, "departure_time"), Field(r, "arrival_time"),
                      Field(r, "price"), if Truthy(Get(r, "direct_flight")) then "Yes" else "No",
                      Field(r, "recommendation_reason")))
      case Some(HotelKind) =>
        ListPage(HotelHead(Field(r, "name"), Field(r, "location"), Field(r, "price_per_night")),
                 GetOr(r, "amenities", VList([])), HotelTail(Field(r, "recommendation_reason")))
      case None => Ok(Str(result))
    else
      Ok(Str(result))
  }

  /** `format_agent_response`: the HTML for a result, or the TypeError text
      when a list field cannot be iterated. */
  function Format(response: Value): Result<string, string> {
    if response.VDict? then DictPage(response.entries)
    else if response.VModel? then DictPage([("result", VDict(response.fields))])
    else Ok(Str(response))
  }

  /** The page for the response dict: the guardrail page first, else the page
      of its "result" entry, dumped when it is a model. */
  function DictPage(d: seq<(string, Value)>): Result<string, string> {
    if Get(d, "type") == VStr("guardrail") then
      Ok(GuardrailPage(Field(d, "reasoning"), Field(d, "suggested_budget")))
    else
      var result := Get(d, "result");
      ResultPage(if result.VModel? then VDict(result.fields) else result)
  }

  /** A value that is neither a dict nor a model is shown as `str()` of it. */
  lemma FormatPlain(response: Value)
    requires !response.VDict? && !response.VModel?
    ensures Format(response) == Ok(Str(response))
  {
  }

  /** A model is formatted as the dict `{"result": model_dump()}` would be. */
  lemma FormatModelWrapped(name: string, fields: seq<(string, Value)>)
    ensures Format(VModel(name, fields)) == Format(VDict([("result", VDict(fields))]))
  {
    NoKey([("result", VDict(fields))], "type");
    GetMissing([("result", VDict(fields))], "type", VNone);
  }

  /** The guardrail dict of the guardrail script shows its reasoning and budget. */
  lemma FormatGuardrailResult(reasoning: string, suggested: Option<Float>)
    ensures Format(ResultValue(GuardrailResult(reasoning, suggested)))
            == Ok(GuardrailPage(reasoning, Str(OptionalFloat(suggested))))
  {
    var d := ResultValue(GuardrailResult(reasoning, suggested)).entries;
    GetAt(d, 0, "type", VNone);
    GetAt(d, 1, "reasoning", VNone);
    GetAt(d, 2, "suggested_budget", VNone);
    GuardrailPageFrom(d, reasoning, Str(OptionalFloat(suggested)));
  }

  /** Any dict whose "type" is "guardrail" gets the guardrail page. */
  lemma GuardrailPageFrom(d: seq<(string, Value)>, reason: string, budget: string)
    requires Get(d, "type") == VStr("guardrail")
    requires Field(d, "reasoning") == reason && Field(d, "suggested_budget") == budget
    ensures Format(VDict(d)) == Ok(GuardrailPage(reason, budget))
  {
  }

  /** The error dict has no "result" key, so it is shown as "None". */
  lemma FormatErrorResult(error: string)
    ensures Format(ResultValue(ErrorResult(error))) == Ok("None")
  {
    var d := ResultValue(ErrorResult(error)).entries;
    GetAt(d, 0, "type", VNone);
    NoKey(d, "result");
    GetMissing(d, "result", VNone);
  }

  /** A list page is the head and the tail around one item per element; it
      fails, with the TypeError text, exactly when the value cannot be iterated. */
  lemma ListPageShape(head: string, list: Value, tail: string)
    ensures ListPage(head, list, tail).Err? <==> Iterate(list).Err?
    ensures ListPage(head, list, tail).Err? ==>
              ListPage(head, list, tail).error == "'" + TypeName(list) + "' object is not iterable"
    ensures ListPage(head, list, tail).Ok? ==>
              ListPage(head, list, tail).value == head + Bullets(Texts(Iterate(list).value)) + tail
              && StartsWith(ListPage(head, list, tail).value, head)
              && EndsWith(ListPage(head, list, tail).value, tail)
  {
    IterateFails(list);
    if Iterate(list).Ok? {
      var items := ListItems(Texts(Iterate(list).value));
      ListItemsAreBullets(Texts(Iterate(list).value));
      ConcatEnds(head, items + tail);
      ConcatEnds(head + items, tail);
    }
  }

  /** A result that is not a dict, or a dict no page applies to, is shown as
      `str()` of it; only a list field that cannot be iterated, on the plan or
      the hotel page, makes the page fail. */
  lemma ResultPageShape(result: Value)
    ensures !result.VDict? ==> ResultPage(result) == Ok(Str(result))
    ensures result.VDict? && Dispatch(result.entries).None? ==> ResultPage(result) == Ok(Str(result))
    ensures ResultPage(result).Err? ==>
              && result.VDict?
              && var r := result.entries;
                 || (Dispatch(r) == Some(PlanKind) && Iterate(GetOr(r, "activities", VList([]))).Err?)
                 || (Dispatch(r) == Some(HotelKind) && Iterate(GetOr(r, "amenities", VList([]))).Err?)
    ensures ResultPage(result).Err? ==> EndsWith(ResultPage(result).error, "' object is not iterable")
  {
    if result.VDict? {
      var r := result.entries;
      match Dispatch(r)
      case Some(PlanKind) =>
        var list := GetOr(r, "activities", VList([]));
        ListPageShape(PlanHead(Field(r, "destination"), Field(r, "duration_days"), Field(r, "budget")),
                      list, PlanTail(Field(r, "notes")));
        ConcatEnds("'" + TypeName(list), "' object is not iterable");
      case Some(HotelKind) =>
        var list := GetOr(r, "amenities", VList([]));
        ListPageShape(HotelHead(Field(r, "name"), Field(r, "location"), Field(r, "price_per_night")),
                      list, HotelTail(Field(r, "recommendation_reason")));
        ConcatEnds("'" + TypeName(list), "' object is not iterable");
      case _ =>
    }
  }

  /** The guardrail page never fails; a dict with neither the guardrail type
      nor a "result" entry is shown as "None"; any failure comes from the page
      of the "result" entry. */
  lemma DictPageShape(d: seq<(string, Value)>)
    ensures Get(d, "type") == VStr("guardrail") ==> DictPage(d).Ok?
    ensures Get(d, "type") != VStr("guardrail") && !HasKey(d, "result") ==> DictPage(d) == Ok("None")
    ensures DictPage(d).Err? ==>
              && Get(d, "type") != VStr("guardrail")
              && var result := Get(d, "result");
                 ResultPage(if result.VModel? then VDict(result.fields) else result).Err?
  {
    if Get(d, "type") != VStr("guardrail") && !HasKey(d, "result") {
      GetMissing(d, "result", VNone);
      ResultPageShape(VNone);
    }
  }

  /** The formatter fails only on a dict or a model, with the TypeError of a
      list field; a model skips the guardrail check and goes straight to the
      page of its dump. */
  lemma FormatShape(response: Value)
    ensures Format(response).Err? ==>
              (response.VDict? || response.VModel?)
              && EndsWith(Format(response).error, "' object is not iterable")
    ensures response.VModel? ==> Format(response) == ResultPage(VDict(response.fields))
  {
    if response.VModel? {
      FormatModelPage(response.name, response.fields);
      ResultPageShape(VDict(response.fields));
    } else if response.VDict? {
      DictPageShape(response.entries);
      var result := Get(response.entries, "result");
      ResultPageShape(if result.VModel? then VDict(result.fields) else result);
    }
  }

  /** A model is wrapped under "result", which has no "type" entry beside it. */
  lemma FormatModelPage(name: string, fields: seq<(string, Value)>)
    ensures Format(VModel(name, fields)) == ResultPage(VDict(fields))
  {
    var d := [("result", VDict(fields))];
    NoKey(d, "type");
    GetMissing(d, "type", VNone);
    GetAt(d, 0, "result", VNone);
  }

  /** The three records pick their own page. */
  lemma DispatchOfRecord(rec: Record)
    ensures Dispatch(Dump(rec)) == Some(KindOf(rec))
  {
    var r := Dump(rec);
    match rec
    case PlanRecord(_) => KeyAt(r, 0, "destination");
    case FlightRecord(_) =>
      NoKey(r, "destination");
      KeyAt(r, 0, "airline");
    case HotelRecord(_) =>
      NoKey(r, "destination");
      NoKey(r, "airline");
      KeyAt(r, 0, "name");
      KeyAt(r, 3, "amenities");
  }

  lemma FormatRecordResult(rec: Record)
    ensures Format(ModelValue(rec)) == ResultPage(VDict(Dump(rec)))
  {
    FormatModelPage(ModelName(rec), Dump(rec));
  }

  lemma ResultPagePlan(r: seq<(string, Value)>)
    requires Dispatch(r) == Some(PlanKind)
    ensures ResultPage(VDict(r))
            == ListPage(PlanHead(Field(r, "destination"), Field(r, "duration_days"), Field(r, "budget")),
                        GetOr(r, "activities", VList([])), PlanTail(Field(r, "notes")))
  {
  }

  lemma ResultPageFlight(r: seq<(string, Value)>)
    requires Dispatch(r) == Some(FlightKind)
    ensures ResultPage(VDict(r))
            == Ok(FlightPage(Field(r, "airline"), Field(r, "departure_time"), Field(r, "arrival_time"),
                             Field(r, "price"), if Truthy(Get(r, "direct_flight")) then "Yes" else "No",
                             Field(r, "recommendation_reason")))
  {
  }

  lemma ResultPageHotel(r: seq<(string, Value)>)
    requires Dispatch(r) == Some(HotelKind)
    ensures ResultPage(VDict(r))
            == ListPage(HotelHead(Field(r, "name"), Field(r, "location"), Field(r, "price_per_night")),
                        GetOr(r, "amenities", VList([])), HotelTail(Field(r, "recommendation_reason")))
  {
  }

  lemma PlanFields(p: TravelPlan)
    ensures var r := Dump(PlanRecord(p));
            && Get(r, "destination") == VStr(p.destination)
            && Get(r, "duration_days") == VInt(p.durationDays)
            && Get(r, "budget") == VFloat(p.budget.text)
            && GetOr(r, "activities", VList([])) == StrList(p.activities)
            && Get(r, "notes") == VStr(p.notes)
  {
    var r := Dump(PlanRecord(p));
    GetAt(r, 0, "destination", VNone);
    GetAt(r, 1, "duration_days", VNone);
    GetAt(r, 2, "budget", VNone);
    GetAt(r, 3, "activities", VList([]));
    GetAt(r, 4, "notes", VNone);
  }

  /** A travel plan shows its fields and one item per activity, in order. */
  lemma FormatPlan(p: TravelPlan)
    ensures Format(ModelValue(PlanRecord(p)))
            == Ok(PlanHead(p.destination, IntText(p.durationDays), p.budget.text)
                  + Bullets(p.activities) + PlanTail(p.notes))
  {
    FormatRecordResult(PlanRecord(p));
    PlanPageOf(p);
  }

  lemma PlanPageOf(p: TravelPlan)
    ensures ResultPage(VDict(Dump(PlanRecord(p))))
            == Ok(PlanHead(p.destination, IntText(p.durationDays), p.budget.text)
                  + Bullets(p.activities) + PlanTail(p.notes))
  {
    DispatchOfRecord(PlanRecord(p));
    PlanFields(p);
    PlanPageFrom(Dump(PlanRecord(p)), p.destination, IntText(p.durationDays), p.budget.text,
                 p.activities, p.notes);
  }

  /** Any dict with the plan's keys renders from those fields alone. */
  lemma PlanPageFrom(r: seq<(string, Value)>, destination: string, days: string, budget: string,
                     activities: seq<string>, notes: string)
    requires Dispatch(r) == Some(PlanKind)
    requires Field(r, "destination") == destination && Field(r, "duration_days") == days
    requires Field(r, "budget") == budget && Field(r, "notes") == notes
    requires GetOr(r, "activities", VList([])) == StrList(activities)
    ensures ResultPage(VDict(r)) == Ok(PlanHead(destination, days, budget) + Bullets(activities) + PlanTail(notes))
  {
    ResultPagePlan(r);
    ListPageOfStrings(PlanHead(destination, days, budget), activities, PlanTail(notes));
  }

  lemma FlightTimes(f: FlightRecommendation)
    ensures var r := Dump(FlightRecord(f));
            && Get(r, "airline") == VStr(f.airline)
            && Get(r, "departure_time") == VStr(f.departureTime)
            && Get(r, "arrival_time") == VStr(f.arrivalTime)
  {
    var r := Dump(FlightRecord(f));
    GetAt(r, 0, "airline", VNone);
    GetAt(r, 1, "departure_time", VNone);
    GetAt(r, 2, "arrival_time", VNone);
  }

  lemma FlightTerms(f: FlightRecommendation)
    ensures var r := Dump(FlightRecord(f));
            && Get(r, "price") == VFloat(f.price.text)
            && Get(r, "direct_flight") == VBool(f.directFlight)
            && Get(r, "recommendation_reason") == VStr(f.recommendationReason)
  {
    var r := Dump(FlightRecord(f));
    GetAt(r, 3, "price", VNone);
    GetAt(r, 4, "direct_flight", VNone);
    GetAt(r, 5, "recommendation_reason", VNone);
  }

  /** A flight shows its fields, the direct flag as Yes or No. */
  lemma FormatFlight(f: FlightRecommendation)
    ensures Format(ModelValue(FlightRecord(f)))
            == Ok(FlightPage(f.airline, f.departureTime, f.arrivalTime, f.price.text,
                             if f.directFlight then "Yes" else "No", f.recommendationReason))
  {
    FormatRecordResult(FlightRecord(f));
    FlightPageOf(f);
  }

  lemma FlightPageOf(f: FlightRecommendation)
    ensures ResultPage(VDict(Dump(FlightRecord(f))))
            == Ok(FlightPage(f.airline, f.departureTime, f.arrivalTime, f.price.text,
                             if f.directFlight then "Yes" else "No", f.recommendationReason))
  {
    DispatchOfRecord(FlightRecord(f));
    ResultPageFlight(Dump(FlightRecord(f)));
    FlightTimes(f);
    FlightTerms(f);
    TruthyIsNonEmpty(VBool(f.directFlight));
  }

  lemma HotelFields(h: HotelRecommendation)
    ensures var r := Dump(HotelRecord(h));
            && Get(r, "name") == VStr(h.name)
            && Get(r, "location") == VStr(h.location)
            && Get(r, "price_per_night") == VFloat(h.pricePerNight.text)
            && GetOr(r, "amenities", VList([])) == StrList(h.amenities)
            && Get(r, "recommendation_reason") == VStr(h.recommendationReason)
  {
    var r := Dump(HotelRecord(h));
    GetAt(r, 0, "name", VNone);
    GetAt(r, 1, "location", VNone);
    GetAt(r, 2, "price_per_night", VNone);
    GetAt(r, 3, "amenities", VList([]));
    GetAt(r, 4, "recommendation_reason", VNone);
  }

  /** A hotel shows its fields and one item per amenity, in order. */
  lemma FormatHotel(h: HotelRecommendation)
    ensures Format(ModelValue(HotelRecord(h)))
            == Ok(HotelHead(h.name, h.location, h.pricePerNight.text)
                  + Bullets(h.amenities) + HotelTail(h.recommendationReason))
  {
    FormatRecordResult(HotelRecord(h));
    HotelPageOf(h);
  }

  lemma HotelPageOf(h: HotelRecommendation)
    ensures ResultPage(VDict(Dump(HotelRecord(h))))
            == Ok(HotelHead(h.name, h.location, h.pricePerNight.text)
                  + Bullets(h.amenities) + HotelTail(h.recommendationReason))
  {
    DispatchOfRecord(HotelRecord(h));
    HotelFields(h);
    HotelPageFrom(Dump(HotelRecord(h)), h.name, h.location, h.pricePerNight.text,
                  h.amenities, h.recommendationReason);
  }

  /** Any dict with the hotel's keys renders from those fields alone. */
  lemma HotelPageFrom(r: seq<(string, Value)>, name: string, location: string, price: string,
                      amenities: seq<string>, reason: string)
    requires Dispatch(r) == Some(HotelKind)
    requires Field(r, "name") == name && Field(r, "location") == location
    requires Field(r, "price_per_night") == price && Field(r, "recommendation_reason") == reason
    requires GetOr(r, "amenities", VList([])) == StrList(amenities)
    ensures ResultPage(VDict(r)) == Ok(HotelHead(name, location, price) + Bullets(amenities) + HotelTail(reason))
  {
    ResultPageHotel(r);
    ListPageOfStrings(HotelHead(name, location, price), amenities, HotelTail(reason));
  }

  /** `format_agent_response` as the script runs it: early returns and the
      loops that append one item at a time. */
  method FormatAgentResponse(response: Value) returns (r: Result<string, string>)
    ensures r == Format(response)
  {
    var responseDict: seq<(string, Value)>;
    if !response.VDict? {
      if response.VModel? {
        responseDict := [("result", VDict(response.fields))];
      } else {
        return Ok(Str(response));
      }
    } else {
      responseDict := response.entries;
    }
    r := FormatDict(responseDict);
  }

  method FormatDict(responseDict: seq<(string, Value)>) returns (r: Result<string, string>)
    ensures r == DictPage(responseDict)
  {
    if Get(responseDict, "type") == VStr("guardrail") {
      return Ok(GuardrailPage(Field(responseDict, "reasoning"), Field(responseDict, "suggested_budget")));
    }

    var result := Get(responseDict, "result");
    if result.VModel? {
      result := VDict(result.fields);
    }
    r := RenderResult(result);
  }

  /** The dispatch on the result's keys, in the order the script tests them. */
  method RenderResult(result: Value) returns (r: Result<string, string>)
    ensures r == ResultPage(result)
  {
    if result.VDict? {
      r := RenderFields(result.entries);
    } else {
      r := Ok(Str(result));
    }
  }

  method RenderFields(fields: seq<(string, Value)>) returns (r: Result<string, string>)
    ensures r == ResultPage(VDict(fields))
  {
    if HasKey(fields, "destination") {
      var head := PlanHead(Field(fields, "destination"), Field(fields, "duration_days"), Field(fields, "budget"));
      r := AppendItems(head, GetOr(fields, "activities", VList([])), PlanTail(Field(fields, "notes")));
    } else if HasKey(fields, "airline") {
      r := Ok(FlightPage(Field(fields, "airline"), Field(fields, "departure_time"),
                         Field(fields, "arrival_time"), Field(fields, "price"),
                         if Truthy(Get(fields, "direct_flight")) then "Yes" else "No",
                         Field(fields, "recommendation_reason")));
    } else if HasKey(fields, "name") && HasKey(fields, "amenities") {
      var head := HotelHead(Field(fields, "name"), Field(fields, "location"), Field(fields, "price_per_night"));
      r := AppendItems(head, GetOr(fields, "amenities", VList([])), HotelTail(Field(fields, "recommendation_reason")));
    } else {
      r := Ok(Str(VDict(fields)));
    }
  }

  lemma ConcatAssoc(a: string, b: string, c: string)
    ensures a + (b + c) == a + b + c
  {
  }

  lemma ListItemsStep(texts: seq<string>, i: nat)
    requires i < |texts|
    ensures ListItems(texts[..i + 1]) == ListItems(texts[..i]) + Item(texts[i])
  {
    assert texts[..i + 1][..i] == texts[..i];
  }

  /** `html += f"<li>{x}</li>"` for each element, then the closing part. */
  method AppendItems(head: string, list: Value, tail: string) returns (r: Result<string, string>)
    ensures r == ListPage(head, list, tail)
  {
    var iterated := Iterate(list);
    if iterated.Err? {
      return Err(iterated.error);
    }
    var html := AppendEach(head, iterated.value);
    html := html + tail;
    return Ok(html);
  }

  /** The loop itself: one item per element, in order. */
  method AppendEach(head: string, items: seq<Value>) returns (html: string)
    ensures html == head + ListItems(Texts(items))
  {
    ghost var texts := Texts(items);
    html := head;
    for i := 0 to |items|
      invariant html == head + ListItems(texts[..i])
    {
      ListItemsStep(texts, i);
      ConcatAssoc(head, ListItems(texts[..i]), Item(texts[i]));
      html := html + Item(Str(items[i]));
    }
    assert texts[..|items|] == texts;
  }

  // ----------------------------------------------------------- chat session

  datatype Role = User | Assistant

  datatype Message = Message(role: Role, content: string, timestamp: string)

  /** What the assistant entry shows for a run of `handle_query`. */
  function ErrorText(message: string): string {
    "\U{274C} Error: " + message
  }

  function ResponseContent(outcome: Outcome): string {
    match outcome
    case Raised(e) => ErrorText(ExceptionText(e))
    case Returned(q) =>
      match Format(ResultValue(q))
      case Ok(html) => html
      case Err(e) => ErrorText(e)
  }

  /** The `try`/`except` around the run: a raised exception becomes the
      error text in place of the page. */
  method Respond(outcome: Outcome) returns (content: string)
    ensures content == ResponseContent(outcome)
  {
    match outcome
    case Raised(e) =>
      content := ErrorText(ExceptionText(e));
    case Returned(q) =>
      var formatted := FormatAgentResponse(ResultValue(q));
      content := if formatted.Ok? then formatted.value else ErrorText(formatted.error);
  }

  /** One agent run: the query through `handle_query`, its result through the
      formatter. */
  method Answer(query: string, context: UserContext, schemas: SchemaTexts,
                gateway: GatewayCall -> GatewayReply, validators: Validators)
    returns (outcome: Outcome, content: string, calls: seq<GatewayCall>)
    ensures (outcome, calls) == QueryRun(query, context, schemas, gateway, validators)
    ensures content == ResponseContent(outcome)
  {
    outcome, calls := HandleQuery(query, context, schemas, gateway, validators);
    content := Respond(outcome);
  }

  /** The page's `st.session_state`. */
  class ChatSession {
    var chatHistory: seq<Message>
    var threadId: string
    var userContext: UserContext
    var processingMessage: Option<string>
    var userInputValue: string

    /** A pending message is the user entry the history ends with. */
    predicate Valid()
      reads this
    {
      processingMessage.Some? ==>
        chatHistory != [] && chatHistory[|chatHistory| - 1].role == User
        && chatHistory[|chatHistory| - 1].content == processingMessage.value
    }

    /** The first run of the page; the ids and the start time are given. */
    constructor(threadId: string, userId: string, sessionStart: string)
      ensures Valid()
      ensures chatHistory == [] && this.threadId == threadId
      ensures userContext == UserContext(userId, ["SkyWays", "OceanAir"], ["WiFi", "Pool"], "mid-range", sessionStart)
      ensures processingMessage == None && userInputValue == ""
    {
      chatHistory := [];
      this.threadId := threadId;
      userContext := UserContext(userId, ["SkyWays", "OceanAir"], ["WiFi", "Pool"], "mid-range", sessionStart);
      processingMessage := None;
      userInputValue := "";
    }

    /** `handle_user_message`: one user entry appended, the message pending. */
    method HandleUserMessage(userInput: string, timestamp: string)
      modifies this
      ensures Valid()
      ensures chatHistory == old(chatHistory) + [Message(User, userInput, timestamp)]
      ensures processingMessage == Some(userInput) && userInputValue == ""
      ensures threadId == old(threadId) && userContext == old(userContext)
    {
      chatHistory := chatHistory + [Message(User, userInput, timestamp)];
      processingMessage := Some(userInput);
      userInputValue := "";
    }

    /** The input gate: a non-empty input is taken only when nothing is pending. */
    method SubmitInput(userInput: string, timestamp: string) returns (accepted: bool)
      requires Valid()
      modifies this
      ensures Valid()
      ensures accepted <==> userInput != "" && old(processingMessage).None?
      ensures accepted ==> chatHistory == old(chatHistory) + [Message(User, userInput, timestamp)]
                           && processingMessage == Some(userInput) && userInputValue == ""
      ensures !accepted ==> chatHistory == old(chatHistory) && processingMessage == old(processingMessage)
                            && userInputValue == old(userInputValue)
      ensures threadId == old(threadId) && userContext == old(userContext)
    {
      accepted := userInput != "" && processingMessage.None?;
      if accepted {
        HandleUserMessage(userInput, timestamp);
      }
    }

    /** The agent run: a pending non-empty message is cleared, the query runs
        and exactly one assistant entry is appended, whatever was raised. */
    method RunPending(schemas: SchemaTexts, gateway: GatewayCall -> GatewayReply, validators: Validators,
                      timestamp: string)
      returns (ran: Option<Outcome>, calls: seq<GatewayCall>)
      requires Valid()
      modifies this
      ensures Valid()
      ensures var pending := old(processingMessage);
              ran.Some? <==> pending.Some? && pending.value != ""
      ensures ran.Some? ==> processingMessage == None
      ensures ran.Some? ==> chatHistory == old(chatHistory) + [Message(Assistant, ResponseContent(ran.value), timestamp)]
      ensures ran.Some? ==> (ran.value, calls) == QueryRun(old(processingMessage).value, old(userContext), schemas,
                                                           gateway, validators)
      ensures ran.Some? ==> old(chatHistory) != [] && old(chatHistory)[|old(chatHistory)| - 1].role == User
                            && old(chatHistory)[|old(chatHistory)| - 1].content == old(processingMessage).value
      ensures ran.None? ==> chatHistory == old(chatHistory) && processingMessage == old(processingMessage) && calls == []
      ensures threadId == old(threadId) && userContext == old(userContext) && userInputValue == old(userInputValue)
    {
      if processingMessage.Some? && processingMessage.value != "" {
        var query, context := processingMessage.value, userContext;
        var outcome, content;
        outcome, content, calls := Answer(query, context, schemas, gateway, validators);
        processingMessage := None;
        chatHistory := chatHistory + [Message(Assistant, content, timestamp)];
        ran := Some(outcome);
      } else {
        ran := None;
        calls := [];
      }
    }

    /** "Start New Conversation": empty history, a new thread, nothing pending. */
    method NewConversation(newThreadId: string)
      modifies this
      ensures Valid()
      ensures chatHistory == [] && threadId == newThreadId && processingMessage == None
      ensures userContext == old(userContext) && userInputValue == old(userInputValue)
    {
      chatHistory := [];
      threadId := newThreadId;
      processingMessage := None;
    }

    /** "Save Preferences": three fields of the user context, nothing else. */
    method SavePreferences(airlines: seq<string>, amenities: seq<string>, budgetLevel: string)
      requires Valid()
      modifies this
      ensures Valid()
      ensures userContext == old(userContext).(preferredAirlines := airlines, hotelAmenities := amenities,
                                               budgetLevel := budgetLevel)
      ensures userContext.userId == old(userContext).userId
      ensures userContext.sessionStart == old(userContext).sessionStart
      ensures chatHistory == old(chatHistory) && threadId == old(threadId)
      ensures processingMessage == old(processingMessage) && userInputValue == old(userInputValue)
    {
      userContext := userContext.(preferredAirlines := airlines, hotelAmenities := amenities,
                                  budgetLevel := budgetLevel);
    }
  }
}
