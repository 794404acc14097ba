/** The record shapes the scripts ask the model for, the user context, and the
    two collaborators every pipeline is given: the completion gateway and the
    schema validators. */
module Travel {
  import opened Wrappers
  import opened PyValue

  /** A float field, carried as the text `str()` prints for it. */
  datatype Float = Float(text: string)

  datatype FlightRecommendation = FlightRecommendation(
    airline: string,
    departureTime: string,
    arrivalTime: string,
    price: Float,
    directFlight: bool,
    recommendationReason: string)

  datatype HotelRecommendation = HotelRecommendation(
    name: string,
    location: string,
    pricePerNight: Float,
    amenities: seq<string>,
    recommendationReason: string)

  datatype TravelPlan = TravelPlan(
    destination: string,
    durationDays: int,
    budget: Float,
    activities: seq<string>,
    notes: string)

  datatype BudgetAnalysis = BudgetAnalysis(
    isRealistic: bool,
    reasoning: string,
    suggestedBudget: Option<Float>)

  /** The three output models a query can be routed to. */
  datatype SchemaKind = FlightKind | HotelKind | PlanKind

  /** An instance of one of the three output models. */
  datatype Record =
    | FlightRecord(flight: FlightRecommendation)
    | HotelRecord(hotel: HotelRecommendation)
    | PlanRecord(plan: TravelPlan)

  function KindOf(r: Record): SchemaKind {
    match r
    case FlightRecord(_) => FlightKind
    case HotelRecord(_) => HotelKind
    case PlanRecord(_) => PlanKind
  }

  datatype UserContext = UserContext(
    userId: string,
    preferredAirlines: seq<string>,
    hotelAmenities: seq<string>,
    budgetLevel: string,
    sessionStart: string)

  /** The JSON schema text pydantic generates for each model
      (`json.dumps(M.model_json_schema(), indent=2)`); the generator is not
      part of this model, so the texts are given. */
  datatype SchemaTexts = SchemaTexts(flight: string, hotel: string, plan: string, budget: string)

  function SchemaOf(texts: SchemaTexts, kind: SchemaKind): string {
    match kind
    case FlightKind => texts.flight
    case HotelKind => texts.hotel
    case PlanKind => texts.plan
  }

  /** `M.model_validate_json(text)` for each model: the record, or the text of
      the ValidationError it raises. */
  datatype Validators = Validators(
    flight: string -> Result<FlightRecommendation, string>,
    hotel: string -> Result<HotelRecommendation, string>,
    plan: string -> Result<TravelPlan, string>,
    budget: string -> Result<BudgetAnalysis, string>)

  /** Validation against the routed model; a success is always a record of that model. */
  function Validate(validators: Validators, kind: SchemaKind, text: string): (r: Result<Record, string>)
    ensures r.Ok? ==> KindOf(r.value) == kind
  {
    match kind
    case FlightKind =>
      (match validators.flight(text) case Ok(f) => Ok(FlightRecord(f)) case Err(e) => Err(e))
    case HotelKind =>
      (match validators.hotel(text) case Ok(h) => Ok(HotelRecord(h)) case Err(e) => Err(e))
    case PlanKind =>
      (match validators.plan(text) case Ok(p) => Ok(PlanRecord(p)) case Err(e) => Err(e))
  }

  /** One chat-completion request: the single user message and the temperature. */
  datatype GatewayCall = GatewayCall(prompt: string, temperature: real)

  /** What reading `response.choices[0].message.content` gives: the text, or the
      message of the exception raised on the way. */
  datatype GatewayReply = Completion(text: string) | GatewayFailure(message: string)

  function FloatValue(f: Float): Value {
    VFloat(f.text)
  }

  /** `model_dump()` of a record, fields in declaration order. */
  function Dump(r: Record): seq<(string, Value)> {
    match r
    case FlightRecord(f) =>
      [("airline", VStr(f.airline)), ("departure_time", VStr(f.departureTime)),
       ("arrival_time", VStr(f.arrivalTime)), ("price", FloatValue(f.price)),
       ("direct_flight", VBool(f.directFlight)), ("recommendation_reason", VStr(f.recommendationReason))]
    case HotelRecord(h) =>
      [("name", VStr(h.name)), ("location", VStr(h.location)),
       ("price_per_night", FloatValue(h.pricePerNight)), ("amenities", StrList(h.amenities)),
       ("recommendation_reason", VStr(h.recommendationReason))]
    case PlanRecord(p) =>
      [("destination", VStr(p.destination)), ("duration_days", VInt(p.durationDays)),
       ("budget", FloatValue(p.budget)), ("activities", StrList(p.activities)),
       ("notes", VStr(p.notes))]
  }

  /** The dump has one entry per field, no key twice, and each field comes
      back by its name. */
  lemma DumpFields(r: Record)
    ensures forall i, j :: 0 <= i < j < |Dump(r)| ==> Dump(r)[i].0 != Dump(r)[j].0
    ensures r.FlightRecord? ==>
              var f := r.flight;
              && |Dump(r)| == 6
              && Get(Dump(r), "airline") == VStr(f.airline)
              && Get(Dump(r), "departure_time") == VStr(f.departureTime)
              && Get(Dump(r), "arrival_time") == VStr(f.arrivalTime)
              && Get(Dump(r), "price") == FloatValue(f.price)
              && Get(Dump(r), "direct_flight") == VBool(f.directFlight)
              && Get(Dump(r), "recommendation_reason") == VStr(f.recommendationReason)
    ensures r.HotelRecord? ==>
              var h := r.hotel;
              && |Dump(r)| == 5
              && Get(Dump(r), "name") == VStr(h.name)
              && Get(Dump(r), "location") == VStr(h.location)
              && Get(Dump(r), "price_per_night") == FloatValue(h.pricePerNight)
              && Get(Dump(r), "amenities") == StrList(h.amenities)
              && Get(Dump(r), "recommendation_reason") == VStr(h.recommendationReason)
    ensures r.PlanRecord? ==>
              var p := r.plan;
              && |Dump(r)| == 5
              && Get(Dump(r), "destination") == VStr(p.destination)
              && Get(Dump(r), "duration_days") == VInt(p.durationDays)
              && Get(Dump(r), "budget") == FloatValue(p.budget)
              && Get(Dump(r), "activities") == StrList(p.activities)
              && Get(Dump(r), "notes") == VStr(p.notes)
  {
    match r
    case FlightRecord(f) => FlightDump(f);
    case HotelRecord(h) => HotelDump(h);
    case PlanRecord(p) => PlanDump(p);
  }

  lemma FlightDump(f: FlightRecommendation)
    ensures var d := Dump(FlightRecord(f));
            && (forall i, j :: 0 <= i < j < |d| ==> d[i].0 != d[j].0)
            && Get(d, "airline") == VStr(f.airline)
            && Get(d, "departure_time") == VStr(f.departureTime)
            && Get(d, "arrival_time") == VStr(f.arrivalTime)
            && Get(d, "price") == FloatValue(f.price)
            && Get(d, "direct_flight") == VBool(f.directFlight)
            && Get(d, "recommendation_reason") == VStr(f.recommendationReason)
  {
    var d := Dump(FlightRecord(f));
    GetAt(d, 0, "airline", VNone);
    GetAt(d, 1, "departure_time", VNone);
    GetAt(d, 2, "arrival_time", VNone);
    GetAt(d, 3, "price", VNone);
    GetAt(d, 4, "direct_flight", VNone);
    GetAt(d, 5, "recommendation_reason", VNone);
  }

  lemma HotelDump(h: HotelRecommendation)
    ensures var d := Dump(HotelRecord(h));
            && (forall i, j :: 0 <= i < j < |d| ==> d[i].0 != d[j].0)
            && Get(d, "name") == VStr(h.name)
            && Get(d, "location") == VStr(h.location)
            && Get(d, "price_per_night") == FloatValue(h.pricePerNight)
            && Get(d, "amenities") == StrList(h.amenities)
            && Get(d, "recommendation_reason") == VStr(h.recommendationReason)
  {
    var d := Dump(HotelRecord(h));
    GetAt(d, 0, "name", VNone);
    GetAt(d, 1, "location", VNone);
    GetAt(d, 2, "price_per_night", VNone);
    GetAt(d, 3, "amenities", VNone);
    GetAt(d, 4, "recommendation_reason", VNone);
  }

  lemma PlanDump(p: TravelPlan)
    ensures var d := Dump(PlanRecord(p));
            && (forall i, j :: 0 <= i < j < |d| ==> d[i].0 != d[j].0)
            && Get(d, "destination") == VStr(p.destination)
            && Get(d, "duration_days") == VInt(p.durationDays)
            && Get(d, "budget") == FloatValue(p.budget)
            && Get(d, "activities") == StrList(p.activities)
            && Get(d, "notes") == VStr(p.notes)
  {
    var d := Dump(PlanRecord(p));
    GetAt(d, 0, "destination", VNone);
    GetAt(d, 1, "duration_days", VNone);
    GetAt(d, 2, "budget", VNone);
    GetAt(d, 3, "activities", VNone);
    GetAt(d, 4, "notes", VNone);
  }

  function ModelName(r: Record): string {
    match r
    case FlightRecord(_) => "FlightRecommendation"
    case HotelRecord(_) => "HotelRecommendation"
    case PlanRecord(_) => "TravelPlan"
  }

  /** The record as the Python object the pipeline returns. */
  function ModelValue(r: Record): Value {
    VModel(ModelName(r), Dump(r))
  }
}
