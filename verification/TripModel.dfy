/** Stored trips and the four day edits, as values: what each edit computes from the rows it loads. */
module TripModel {
  import opened Ordering
  import opened Sequences
  import opened TravelRules
  import opened Protocols
  import opened RouteOptimizer
  import opened ScheduleBuilder
  import opened TripValidator
  import opened TravelEngine

  /** One stop of one day, as stored. */
  datatype Row = Row(
    placeId: PlaceId,
    day: int,
    order: int,
    travelTimeMin: int,
    visitDurationMin: nat,
    suggestedStartTime: Option<string>,
    arrivalNote: Option<ArrivalNote>,
    polyline: Option<string>)

  /** One row of an audit payload. */
  datatype Snapshot = Snapshot(
    placeId: PlaceId,
    order: int,
    travelTimeMin: int,
    visitDurationMin: nat,
    suggestedStartTime: Option<string>,
    polyline: Option<string>)

  datatype EditType = Reorder | RemoveStop | AddStop | ReoptimizeDay

  datatype EditEvent = EditEvent(
    editType: EditType, day: int, placeId: Option<PlaceId>, before: seq<Snapshot>, after: seq<Snapshot>)

  datatype Trip = Trip(userId: Option<nat>, destinationId: nat, rows: seq<Row>, log: seq<EditEvent>)

  datatype CatalogPlace = CatalogPlace(place: PlaceCandidate, destinationId: nat)

  /** What an edit reads besides the trip: the places table, and routing from the trip's resolved base. */
  datatype Env = Env(catalog: map<PlaceId, CatalogPlace>, world: World)

  datatype Edit =
    | ReorderStops(day: int, placeIds: seq<PlaceId>)
    | RemoveOne(day: int, placeId: PlaceId)
    | AddOne(day: int, placeId: PlaceId)
    | Reoptimize(day: int)

  datatype EditError =
    | Forbidden
    | NotAPermutation
    | StopNotFound
    | DayWouldBeEmpty
    | PlaceNotFound
    | WrongDestination
    | StopConflict
    | NothingToReoptimize
    | WouldDropOtherStops(dropped: seq<DroppedStop>)
    | MissingRouteLeg
    | Unschedulable(cause: ScheduleError)
    | UnreadableStartTime
    | FailedValidation(errors: seq<ValidationError>)

  // ----- What the database guarantees

  ghost predicate CatalogOk(catalog: map<PlaceId, CatalogPlace>) {
    forall id | id in catalog :: catalog[id].place.id == id && id != BASE_SENTINEL_ID
  }

  /** uq_trip_place: a place occurs at most once in a trip. */
  predicate UniquePlaces(rows: seq<Row>) {
    Distinct(RowIds(rows))
  }

  /** Every row's place exists (foreign key); every loaded row can be hydrated. */
  predicate KnownPlaces(rows: seq<Row>, catalog: map<PlaceId, CatalogPlace>) {
    forall i | 0 <= i < |rows| :: rows[i].placeId in catalog
  }

  ghost predicate TripOk(trip: Trip, env: Env) {
    CatalogOk(env.catalog) && UniquePlaces(trip.rows) && KnownPlaces(trip.rows, env.catalog)
  }

  // ----- Reading a day

  function OnDay(day: int): Row -> bool {
    (r: Row) => r.day == day
  }

  function RowOrder(r: Row): int {
    r.order
  }

  /** The rows of a day, in day order. */
  function DayRows(rows: seq<Row>, day: int): seq<Row> {
    StableSort(KeyOrder(RowOrder), Filter(OnDay(day), rows))
  }

  function RowIds(rows: seq<Row>): seq<PlaceId> {
    seq(|rows|, i requires 0 <= i < |rows| => rows[i].placeId)
  }

  function SnapshotOf(r: Row): Snapshot {
    Snapshot(r.placeId, r.order, r.travelTimeMin, r.visitDurationMin, r.suggestedStartTime, r.polyline)
  }

  function Snapshots(dayRows: seq<Row>): seq<Snapshot> {
    seq(|dayRows|, i requires 0 <= i < |dayRows| => SnapshotOf(dayRows[i]))
  }

  function SnapshotDay(rows: seq<Row>, day: int): seq<Snapshot> {
    Snapshots(DayRows(rows, day))
  }

  /** A stored place joined with the catalog; edits give every stop the score 1.0. */
  function Hydrate(id: PlaceId, catalog: map<PlaceId, CatalogPlace>): ScoredPlace
    requires id in catalog
  {
    ScoredPlace(catalog[id].place, 1.0)
  }

  predicate AllKnown(ids: seq<PlaceId>, catalog: map<PlaceId, CatalogPlace>) {
    forall i | 0 <= i < |ids| :: ids[i] in catalog
  }

  function HydrateAll(ids: seq<PlaceId>, catalog: map<PlaceId, CatalogPlace>): seq<ScoredPlace>
    requires AllKnown(ids, catalog)
  {
    seq(|ids|, i requires 0 <= i < |ids| => Hydrate(ids[i], catalog))
  }

  // ----- Day plans, from a new schedule and from storage

  /** Travel into the first n stops; a hop nobody knows counts as 0. */
  function TravelInto(scheduled: seq<ScheduledStop>, lookup: Lookup, n: nat): int
    requires n <= |scheduled|
  {
    if n == 0 then 0
    else
      TravelInto(scheduled, lookup, n - 1)
      + HopTravelMin(lookup, PreviousId(scheduled, n - 1), scheduled[n - 1].place.id)
  }

  function PreviousId(scheduled: seq<ScheduledStop>, i: nat): PlaceId
    requires i < |scheduled|
  {
    if i == 0 then BASE_SENTINEL_ID else scheduled[i - 1].place.id
  }

  function PlanFromScheduled(scheduled: seq<ScheduledStop>, legs: seq<RouteLeg>): DayPlan {
    DayPlan(scheduled, TravelInto(scheduled, LegsToLookup(legs), |scheduled|), [])
  }

  function StoredTravel(dayRows: seq<Row>, n: nat): int
    requires n <= |dayRows|
  {
    if n == 0 then 0 else StoredTravel(dayRows, n - 1) + dayRows[n - 1].travelTimeMin
  }

  function StoredStop(r: Row, catalog: map<PlaceId, CatalogPlace>): ScheduledStop
    requires r.placeId in catalog
  {
    ScheduledStop(catalog[r.placeId].place, 1.0, r.visitDurationMin,
                  if r.suggestedStartTime.None? || r.suggestedStartTime.value == "" then "08:00"
                  else r.suggestedStartTime.value,
                  r.arrivalNote)
  }

  function PlanFromStored(dayRows: seq<Row>, catalog: map<PlaceId, CatalogPlace>): DayPlan
    requires KnownPlaces(dayRows, catalog)
  {
    DayPlan(seq(|dayRows|, i requires 0 <= i < |dayRows| => StoredStop(dayRows[i], catalog)),
            StoredTravel(dayRows, |dayRows|), [])
  }

  // ----- Whole-trip validation

  function InsertDay(day: int, days: seq<int>): seq<int> {
    if days == [] || day < days[0] then [day] + days
    else if day == days[0] then days
    else [days[0]] + InsertDay(day, days[1..])
  }

  /** sorted({row.day}): the days that have rows, ascending. */
  function DaysPresent(rows: seq<Row>): seq<int> {
    if rows == [] then [] else InsertDay(rows[0].day, DaysPresent(rows[1..]))
  }

  lemma DayRowsMember(rows: seq<Row>, day: int, r: Row)
    ensures r in DayRows(rows, day) <==> r in rows && r.day == day
  {
    StableSortPermutes(KeyOrder(RowOrder), Filter(OnDay(day), rows));
    FilterMembers(OnDay(day), rows, r);
    assert r in DayRows(rows, day) <==> r in multiset(DayRows(rows, day));
    assert r in Filter(OnDay(day), rows) <==> r in multiset(Filter(OnDay(day), rows));
  }

  lemma DayRowsKnown(rows: seq<Row>, day: int, catalog: map<PlaceId, CatalogPlace>)
    requires KnownPlaces(rows, catalog)
    ensures KnownPlaces(DayRows(rows, day), catalog)
    ensures AllKnown(RowIds(DayRows(rows, day)), catalog)
  {
    forall i | 0 <= i < |DayRows(rows, day)| ensures DayRows(rows, day)[i].placeId in catalog {
      DayRowsMember(rows, day, DayRows(rows, day)[i]);
    }
  }

  /** The plan of one day of the edited trip: the new plan on the edited day, the stored one elsewhere. */
  function PlanOn(rows: seq<Row>, day: int, edited: int, plan: DayPlan, catalog: map<PlaceId, CatalogPlace>): DayPlan
    requires KnownPlaces(rows, catalog)
  {
    if day == edited then plan
    else
      DayRowsKnown(rows, day, catalog);
      PlanFromStored(DayRows(rows, day), catalog)
  }

  function PlansOn(rows: seq<Row>, days: seq<int>, n: nat, edited: int, plan: DayPlan, catalog: map<PlaceId,
                   CatalogPlace>)
    : seq<DayPlan>
    requires KnownPlaces(rows, catalog) && n <= |days|
  {
    seq(n, i requires 0 <= i < n => PlanOn(rows, days[i], edited, plan, catalog))
  }

  /** The trip as it would be validated with `plan` on the edited day. */
  function EditedPlans(rows: seq<Row>, edited: int, plan: DayPlan, catalog: map<PlaceId, CatalogPlace>): seq<DayPlan>
    requires KnownPlaces(rows, catalog)
  {
    var days := InsertDay(edited, DaysPresent(rows));
    PlansOn(rows, days, |days|, edited, plan, catalog)
  }

  /** The stored trip, day by day. */
  function StoredPlans(rows: seq<Row>, catalog: map<PlaceId, CatalogPlace>): seq<DayPlan>
    requires KnownPlaces(rows, catalog)
  {
    var days := DaysPresent(rows);
    seq(|days|, i requires 0 <= i < |days| =>
      DayRowsKnown(rows, days[i], catalog);
      PlanFromStored(DayRows(rows, days[i]), catalog))
  }

  predicate IsMorningError(e: ValidationError) {
    e.MorningSlotViolation?
  }

  predicate IsHardError(e: ValidationError) {
    !e.MorningSlotViolation?
  }

  /** The errors that stop an edit; a reorder is warned about morning slots but not stopped. None: a ValueError. */
  function BlockingErrors(rows: seq<Row>, edited: int, plan: DayPlan, editType: EditType,
                          env: Env): Option<seq<ValidationError>>
    requires KnownPlaces(rows, env.catalog)
  {
    match Validation(EditedPlans(rows, edited, plan, env.catalog), env.world.spread)
    case None => None
    case Some(result) => Some(if editType == Reorder then Filter(IsHardError, result.errors) else result.errors)
  }

  // ----- Drafts: the new day before it is validated and stored

  datatype Draft = Draft(
    scheduled: seq<ScheduledStop>, legs: seq<RouteLeg>, ordered: seq<ScoredPlace>, polylines: seq<Option<string>>)

  /** The consecutive legs of a fixed order, from the base on; None when one is missing. */
  function ConsecutiveLegs(order: seq<ScoredPlace>, lookup: Lookup, n: nat): Option<seq<RouteLeg>>
    requires n <= |order|
  {
    if n == 0 then Some([])
    else
      var hop := RequiredHops(order)[n - 1];
      var before := ConsecutiveLegs(order, lookup, n - 1);
      if before.None? || hop !in lookup then None else Some(before.value + [lookup[hop]])
  }

  ghost function FixedDraft(order: seq<ScoredPlace>, world: World): Result<Draft, EditError> {
    if order == [] then Success(Draft([], [], [], []))
    else
      var lookup := LegsToLookup(world.routing.travelMatrix(WaypointsFor(order, world.baseLat, world.baseLng)));
      match ConsecutiveLegs(order, lookup, |order|)
      case None => Failure(MissingRouteLeg)
      case Some(legs) =>
        match Schedule(order, legs, true)
        case Failure(cause) => Failure(Unschedulable(cause))
        case Success(scheduled) =>
          Success(Draft(scheduled, legs, order, LegPolylines(order, world.baseLat, world.baseLng, world.routing)))
  }

  ghost function OptimizedDraft(places: seq<ScoredPlace>, world: World): Result<Draft, EditError> {
    var r := OptimizedRoute(places, world.baseLat, world.baseLng, world.routing);
    if r.droppedStops != [] then Failure(WouldDropOtherStops(r.droppedStops))
    else match Schedule(r.ordered, r.legs, false)
      case Failure(cause) => Failure(Unschedulable(cause))
      case Success(scheduled) => Success(Draft(scheduled, r.legs, r.ordered, r.legPolylines))
  }

  function WithoutId(ids: seq<PlaceId>, id: PlaceId): seq<PlaceId> {
    if ids == [] then [] else (if ids[0] != id then [ids[0]] else []) + WithoutId(ids[1..], id)
  }

  lemma {:induction false} WithoutIdKnown(ids: seq<PlaceId>, id: PlaceId, catalog: map<PlaceId, CatalogPlace>)
    requires AllKnown(ids, catalog)
    ensures AllKnown(WithoutId(ids, id), catalog)
  {
    if ids != [] {
      WithoutIdKnown(ids[1..], id, catalog);
    }
  }

  function AsSet(ids: seq<PlaceId>): set<PlaceId> {
    set id | id in ids
  }

  /** The checks each edit makes before routing, and the places it then routes. */
  function PlacesToRoute(trip: Trip, env: Env, edit: Edit): Result<seq<PlaceId>, EditError> {
    var current := RowIds(DayRows(trip.rows, edit.day));
    match edit
    case ReorderStops(_, placeIds) =>
      if |placeIds| != |current| || AsSet(placeIds) != AsSet(current) then Failure(NotAPermutation)
      else Success(placeIds)
    case RemoveOne(_, placeId) =>
      if placeId !in current then Failure(StopNotFound)
      else if |current| == 1 then Failure(DayWouldBeEmpty)
      else Success(WithoutId(current, placeId))
    case AddOne(_, placeId) =>
      if placeId !in env.catalog then Failure(PlaceNotFound)
      else if env.catalog[placeId].destinationId != trip.destinationId then Failure(WrongDestination)
      else if placeId in RowIds(trip.rows) then Failure(StopConflict)
      else Success(current + [placeId])
    case Reoptimize(_) =>
      if current == [] then Failure(NothingToReoptimize) else Success(current)
  }

  lemma PlacesToRouteKnown(trip: Trip, env: Env, edit: Edit)
    requires KnownPlaces(trip.rows, env.catalog) && PlacesToRoute(trip, env, edit).Success?
    ensures AllKnown(PlacesToRoute(trip, env, edit).value, env.catalog)
  {
    DayRowsKnown(trip.rows, edit.day, env.catalog);
    var current := RowIds(DayRows(trip.rows, edit.day));
    match edit
    case ReorderStops(_, placeIds) =>
      forall i | 0 <= i < |placeIds| ensures placeIds[i] in env.catalog {
        assert placeIds[i] in AsSet(placeIds);
        assert placeIds[i] in AsSet(current);
      }
    case RemoveOne(_, placeId) => WithoutIdKnown(current, placeId, env.catalog);
    case AddOne(_, placeId) =>
    case Reoptimize(_) =>
  }

  function TypeOf(edit: Edit): EditType {
    match edit
    case ReorderStops(_, _) => Reorder
    case RemoveOne(_, _) => RemoveStop
    case AddOne(_, _) => AddStop
    case Reoptimize(_) => ReoptimizeDay
  }

  function AuditedPlace(edit: Edit): Option<PlaceId> {
    if edit.RemoveOne? || edit.AddOne? then Some(edit.placeId) else None
  }

  ghost function DraftFor(trip: Trip, env: Env, edit: Edit): Result<Draft, EditError>
    requires KnownPlaces(trip.rows, env.catalog)
  {
    match PlacesToRoute(trip, env, edit)
    case Failure(e) => Failure(e)
    case Success(ids) =>
      PlacesToRouteKnown(trip, env, edit);
      var places := HydrateAll(ids, env.catalog);
      if edit.ReorderStops? then FixedDraft(places, env.world) else OptimizedDraft(places, env.world)
  }

  // ----- Storing the new day

  function FreshRow(draft: Draft, day: int, i: nat): Row
    requires i < |draft.scheduled|
  {
    var stop := draft.scheduled[i];
    var polylines := PolylineByPlace(draft.ordered, draft.polylines);
    Row(stop.place.id, day, i + 1,
        HopTravelMin(LegsToLookup(draft.legs), PreviousId(draft.scheduled, i), stop.place.id),
        stop.visitDurationMin, Some(stop.suggestedStartTime), stop.arrivalNote,
        if stop.place.id in polylines then polylines[stop.place.id] else None)
  }

  /** The rows the edited day ends up with. */
  function FreshRows(draft: Draft, day: int): seq<Row> {
    seq(|draft.scheduled|, i requires 0 <= i < |draft.scheduled| => FreshRow(draft, day, i))
  }

  /** Rows of the day whose place is no longer scheduled are deleted. */
  function Survives(day: int, renewed: seq<Row>): Row -> bool {
    (r: Row) => r.day != day || r.placeId in RowIds(renewed)
  }

  /** The renewed row for a place, when there is one. */
  function RowFor(renewed: seq<Row>, r: Row): Row {
    if renewed == [] then r
    else if renewed[0].placeId == r.placeId then renewed[0]
    else RowFor(renewed[1..], r)
  }

  /** Existing rows of the day are updated in place. */
  function Replaced(rows: seq<Row>, day: int, renewed: seq<Row>): seq<Row> {
    seq(|rows|, i requires 0 <= i < |rows| => if rows[i].day == day then RowFor(renewed, rows[i]) else rows[i])
  }

  /** Places that had no row on the day are inserted. */
  function IsNewTo(dayRows: seq<Row>): Row -> bool {
    (r: Row) => r.placeId !in RowIds(dayRows)
  }

  function Persisted(rows: seq<Row>, day: int, renewed: seq<Row>): seq<Row> {
    Replaced(Filter(Survives(day, renewed), rows), day, renewed) + Filter(IsNewTo(Filter(OnDay(day), rows)), renewed)
  }

  /** Storing a validated draft: the rows change and exactly one event is appended. */
  function Stored(trip: Trip, edit: Edit, draft: Draft): Trip {
    var renewed := FreshRows(draft, edit.day);
    trip.(rows := Persisted(trip.rows, edit.day, renewed),
          log := trip.log + [EditEvent(TypeOf(edit), edit.day, AuditedPlace(edit),
                                       SnapshotDay(trip.rows, edit.day), Snapshots(renewed))])
  }

  /** One edit request by one user: the new trip, or the reason it is refused. */
  ghost function ApplyEdit(trip: Trip, env: Env, user: nat, edit: Edit): Result<Trip, EditError>
    requires KnownPlaces(trip.rows, env.catalog)
  {
    if trip.userId != Some(user) then Failure(Forbidden)
    else match DraftFor(trip, env, edit)
      case Failure(e) => Failure(e)
      case Success(draft) =>
        var plan := PlanFromScheduled(draft.scheduled, draft.legs);
        match BlockingErrors(trip.rows, edit.day, plan, TypeOf(edit), env)
        case None => Failure(UnreadableStartTime)
        case Some(errors) =>
          if errors != [] then Failure(FailedValidation(errors)) else Success(Stored(trip, edit, draft))
  }
}
