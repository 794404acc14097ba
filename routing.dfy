/** The keyword router shared by the hand-off and guardrail scripts. */
module Routing {
  import opened PyText
  import opened Travel

  /** The task name picked for a query and the output model paired with it. */
  datatype Routed = Routed(taskType: string, model: SchemaKind)

  function TaskName(kind: SchemaKind): string {
    match kind
    case FlightKind => "flight"
    case HotelKind => "hotel"
    case PlanKind => "plan"
  }

  /** "flight" is looked for before "hotel" in the lower-cased query; anything
      else is a travel plan. The task name always matches the model. */
  function Route(query: string): (r: Routed)
    ensures r.model == FlightKind <==> exists i :: OccursAt(Lower(query), "flight", i)
    ensures r.model == HotelKind <==>
              (!exists i :: OccursAt(Lower(query), "flight", i)) && (exists i :: OccursAt(Lower(query), "hotel", i))
    ensures r.taskType == TaskName(r.model)
    ensures r.taskType in {"flight", "hotel", "plan"}
  {
    if Contains(Lower(query), "flight") then Routed("flight", FlightKind)
    else if Contains(Lower(query), "hotel") then Routed("hotel", HotelKind)
    else Routed("plan", PlanKind)
  }
}
