/** The planner's three engine tools composed: build_route, build_schedule, validate_itinerary. */
module TravelEngine {
  import opened Ordering
  import opened TravelRules
  import opened Protocols
  import opened RouteOptimizer
  import opened ScheduleBuilder
  import opened DayAllocator
  import opened TripValidator

  /** Where a trip starts from, and who answers routing and distance questions. */
  datatype World = World(baseLat: real, baseLng: real, routing: Routing, distance: Distance, spread: GeoSpread)

  datatype RouteError = NoRankedPlaces | NotEnoughDays

  /** A stop as the planner's state stores it. */
  datatype FlatStop = FlatStop(
    place: PlaceCandidate,
    score: real,
    order: nat,
    travelTimeMin: int,
    visitDurationMin: nat,
    suggestedStartTime: string,
    arrivalNote: Option<ArrivalNote>,
    legPolyline: Option<string>)

  datatype ScheduleDay = ScheduleDay(day: nat, stops: seq<FlatStop>, totalTravelMin: int, dayPolyline: Option<string>)

  // ----- build_route

  function RouteDays(dayLists: seq<Day>, n: nat, world: World): seq<OptimizeResult>
    requires n <= |dayLists|
  {
    if n == 0 then []
    else
      RouteDays(dayLists, n - 1, world)
      + [OptimizedRoute(dayLists[n - 1], world.baseLat, world.baseLng, world.routing)]
  }

  function Route(ranked: seq<ScoredPlace>, days: int, world: World): Result<seq<OptimizeResult>, RouteError> {
    if ranked == [] then Failure(NoRankedPlaces)
    else match Allocation(ranked, days, world.distance)
      case None => Failure(NotEnoughDays)
      case Some(dayLists) => Success(RouteDays(dayLists, |dayLists|, world))
  }

  method BuildRoute(ranked: seq<ScoredPlace>, days: int, world: World)
    returns (result: Result<seq<OptimizeResult>, RouteError>)
    ensures result == Route(ranked, days, world)
  {
    if ranked == [] {
      return Failure(NoRankedPlaces);
    }
    var dayLists := AllocateDays(ranked, days, world.distance);
    if dayLists.None? {
      return Failure(NotEnoughDays);
    }
    var route := [];
    for i := 0 to |dayLists.value|
      invariant route == RouteDays(dayLists.value, i, world)
    {
      var day := OptimizeRoute(dayLists.value[i], world.baseLat, world.baseLng, world.routing);
      route := route + [day];
    }
    return Success(route);
  }

  // ----- build_schedule

  function PolylineByPlace(ordered: seq<ScoredPlace>, polylines: seq<Option<string>>): map<PlaceId, Option<string>> {
    if ordered == [] then map[]
    else
      var i := |ordered| - 1;
      PolylineByPlace(ordered[..i], polylines)[ordered[i].place.id := if i < |polylines| then polylines[i] else None]
  }

  function HopTravelMin(lookup: Lookup, fromId: PlaceId, toId: PlaceId): int {
    if (fromId, toId) in lookup then lookup[(fromId, toId)].durationMin else 0
  }

  function FlatStops(scheduled: seq<ScheduledStop>, lookup: Lookup, polylines: map<PlaceId,
                     Option<string>>): seq<FlatStop> {
    seq(|scheduled|, i requires 0 <= i < |scheduled| =>
      var s := scheduled[i];
      FlatStop(s.place, s.score, i + 1,
               HopTravelMin(lookup, if i == 0 then BASE_SENTINEL_ID else scheduled[i - 1].place.id, s.place.id),
               s.visitDurationMin, s.suggestedStartTime, s.arrivalNote,
               if s.place.id in polylines then polylines[s.place.id] else None))
  }

  function DayDict(day: nat, routeDay: OptimizeResult, scheduled: seq<ScheduledStop>): ScheduleDay {
    ScheduleDay(day,
                FlatStops(scheduled, LegsToLookup(routeDay.legs),
                          PolylineByPlace(routeDay.ordered, routeDay.legPolylines)),
                routeDay.totalTravelMin, routeDay.dayPolyline)
  }

  ghost function TimedDays(route: seq<OptimizeResult>): seq<Result<seq<ScheduledStop>, ScheduleError>> {
    seq(|route|, i requires 0 <= i < |route| => Schedule(route[i].ordered, route[i].legs, false))
  }

  /** The first n days' dicts, or the error of the first day that cannot be timed. */
  function Collect(route: seq<OptimizeResult>, timed: seq<Result<seq<ScheduledStop>, ScheduleError>>, n: nat)
    : Result<seq<ScheduleDay>, ScheduleError>
    requires n <= |route| == |timed|
  {
    if n == 0 then Success([])
    else
      var before := Collect(route, timed, n - 1);
      if before.Failure? then before
      else if timed[n - 1].Failure? then Failure(timed[n - 1].error)
      else Success(before.value + [DayDict(n, route[n - 1], timed[n - 1].value)])
  }

  ghost function PlannedSchedule(route: seq<OptimizeResult>): Result<seq<ScheduleDay>, ScheduleError> {
    Collect(route, TimedDays(route), |route|)
  }

  method BuildSchedule(route: seq<OptimizeResult>) returns (result: Result<seq<ScheduleDay>, ScheduleError>)
    ensures result == PlannedSchedule(route)
  {
    hide Schedule, DayDict;
    var schedule: seq<ScheduleDay> := [];
    ghost var days := TimedDays(route);
    for i := 0 to |route|
      invariant Collect(route, days, i) == Success(schedule)
    {
      var timed := BuildDaySchedule(route[i].ordered, route[i].legs, false);
      CollectNext(route, days, i, schedule, timed);
      if timed.Failure? {
        FailurePersists(route, days, i + 1, |route|);
        return Failure(timed.error);
      }
      var day := BuildDayDict(i + 1, route[i], timed.value);
      schedule := schedule + [day];
    }
    return Success(schedule);
  }

  lemma CollectNext(route: seq<OptimizeResult>, days: seq<Result<seq<ScheduledStop>, ScheduleError>>, i: nat,
                    schedule: seq<ScheduleDay>, timed: Result<seq<ScheduledStop>, ScheduleError>)
    requires i < |route| == |days| && Collect(route, days, i) == Success(schedule) && days[i] == timed
    ensures Collect(route, days, i + 1)
         == if timed.Failure? then Failure(timed.error) else Success(schedule + [DayDict(i + 1, route[i], timed.value)])
  {
  }

  lemma {:induction false} FailurePersists(route: seq<OptimizeResult>, timed: seq<Result<seq<ScheduledStop>,
                                           ScheduleError>>,
                                           i: nat, n: nat)
    requires i <= n <= |route| == |timed| && Collect(route, timed, i).Failure?
    ensures Collect(route, timed, n) == Collect(route, timed, i)
  {
    if i < n {
      FailurePersists(route, timed, i, n - 1);
    }
  }

  method BuildDayDict(day: nat, routeDay: OptimizeResult, scheduled: seq<ScheduledStop>) returns (result: ScheduleDay)
    ensures result == DayDict(day, routeDay, scheduled)
  {
    var lookup := LegsToLookup(routeDay.legs);
    var polylines := PolylineByPlace(routeDay.ordered, routeDay.legPolylines);
    var stops: seq<FlatStop> := [];
    var prevId := BASE_SENTINEL_ID;
    for i := 0 to |scheduled|
      invariant prevId == if i == 0 then BASE_SENTINEL_ID else scheduled[i - 1].place.id
      invariant |stops| == i
      invariant forall j | 0 <= j < i :: stops[j] == FlatStops(scheduled, lookup, polylines)[j]
    {
      var s := scheduled[i];
      stops := stops + [FlatStop(s.place, s.score, i + 1, HopTravelMin(lookup, prevId, s.place.id), s.visitDurationMin,
                                 s.suggestedStartTime, s.arrivalNote,
                                 if s.place.id in polylines then polylines[s.place.id] else None)];
      prevId := s.place.id;
    }
    return ScheduleDay(day, stops, routeDay.totalTravelMin, routeDay.dayPolyline);
  }

  // ----- validate_itinerary

  /** Reading a stored stop back: an empty category becomes "attraction", a zero visit 60 minutes. */
  function ScheduledFromFlat(stop: FlatStop): ScheduledStop {
    ScheduledStop(if stop.place.category == OtherCategory("") then stop.place.(category := Attraction) else stop.place,
                  stop.score,
                  if stop.visitDurationMin == 0 then 60 else stop.visitDurationMin,
                  if stop.suggestedStartTime == "" then "09:00" else stop.suggestedStartTime,
                  stop.arrivalNote)
  }

  function StopsFromFlat(stops: seq<FlatStop>): seq<ScheduledStop> {
    seq(|stops|, i requires 0 <= i < |stops| => ScheduledFromFlat(stops[i]))
  }

  /** Day i of the itinerary: the schedule's stops and total, the route's total when that is 0, the route's drops. */
  function PlanOfDay(schedule: seq<ScheduleDay>, route: seq<OptimizeResult>, i: nat): DayPlan {
    var stops := if i < |schedule| then StopsFromFlat(schedule[i].stops) else [];
    var total := if i < |schedule| then schedule[i].totalTravelMin else 0;
    DayPlan(stops,
            if total == 0 && i < |route| then route[i].totalTravelMin else total,
            if i < |route| then route[i].droppedStops else [])
  }

  function DayPlans(schedule: seq<ScheduleDay>, route: seq<OptimizeResult>, n: nat): seq<DayPlan> {
    seq(n, i requires 0 <= i < n => PlanOfDay(schedule, route, i))
  }

  function Itinerary(schedule: seq<ScheduleDay>, route: seq<OptimizeResult>): seq<DayPlan> {
    DayPlans(schedule, route, if |schedule| > |route| then |schedule| else |route|)
  }

  method ValidateItinerary(schedule: seq<ScheduleDay>, route: seq<OptimizeResult>, spread: GeoSpread)
    returns (result: Option<ValidationResult>)
    ensures result == Validation(Itinerary(schedule, route), spread)
  {
    var n := if |schedule| > |route| then |schedule| else |route|;
    var days: seq<DayPlan> := [];
    for i := 0 to n
      invariant days == DayPlans(schedule, route, i)
    {
      days := days + [PlanOfDay(schedule, route, i)];
    }
    result := ValidateTrip(days, spread);
  }
}
