/** Exactly when what the engine plans passes its own validation. */
module EngineValidation {
  import opened TravelRules
  import opened Protocols
  import opened RouteOptimizer
  import opened WallClock
  import opened ScheduleBuilder
  import opened ScheduleProperties
  import opened MorningSlotProperties
  import opened DayAllocator
  import opened TripValidator
  import opened TravelEngine
  import opened EngineProperties

  /** What the validator looks at in a stop survives storing it and reading it back. */
  ghost predicate ReadsAs(stops: seq<ScheduledStop>, scheduled: seq<ScheduledStop>) {
    && |stops| == |scheduled|
    && forall j | 0 <= j < |stops| ::
         && MorningOnly(stops[j].place.category) == MorningOnly(scheduled[j].place.category)
         && stops[j].suggestedStartTime == scheduled[j].suggestedStartTime
         && stops[j].score == scheduled[j].score
  }

  lemma PlanReadsAs(dayLists: seq<Day>, route: seq<OptimizeResult>, timed: seq<seq<ScheduledStop>>, i: nat)
    requires i < |dayLists| == |route| == |timed| && DayOutcome(dayLists[i], route[i], timed[i])
    ensures ReadsAs(PlanOfDay(DayDicts(route, timed, |route|), route, i).stops, timed[i])
  {
    hide Schedule, ParseHHMM;
  }

  lemma SameChecks(stops: seq<ScheduledStop>, scheduled: seq<ScheduledStop>)
    requires ReadsAs(stops, scheduled)
    ensures MorningInPlace(stops) <==> MorningInPlace(scheduled)
    ensures Anchored(stops) <==> Anchored(scheduled)
  {
    hide ParseHHMM;
    if Anchored(scheduled) {
      var i :| 0 <= i < |scheduled| && scheduled[i].score > 0.7;
      assert stops[i].score > 0.7;
    }
  }

  // ----- One day

  /** Every hop of the day, in the order it is timed, has a leg. */
  ghost predicate HopsKnownTo(r: OptimizeResult) {
    HopsKnown(ExtractMorningFirst(r.ordered), LegsToLookup(r.legs))
  }

  ghost function DayHops(r: OptimizeResult): seq<int>
    requires HopsKnownTo(r)
  {
    HopMinutes(ExtractMorningFirst(r.ordered), LegsToLookup(r.legs))
  }

  /** The day does not run past midnight. */
  ghost predicate SameDay(r: OptimizeResult) {
    HopsKnownTo(r) && EndsSameDay(Durations(ExtractMorningFirst(r.ordered)), DayHops(r))
  }

  /** Its first hops leave its morning-only stops in the morning. */
  ghost predicate ShortMorningHops(r: OptimizeResult) {
    HopsKnownTo(r) && MorningSlots(r.ordered) <= |DayHops(r)| && MorningHops(MorningSlots(r.ordered), DayHops(r))
  }

  lemma DayMorningIffHops(day: Day, r: OptimizeResult, stops: seq<ScheduledStop>)
    requires DayOutcome(day, r, stops) && SameDay(r)
    ensures MorningInPlace(stops) <==> ShortMorningHops(r)
  {
    hide ParseHHMM, FormatHHMM, DayTimeline, MorningInPlace;
    if day == [] {
      NoStopsInPlace();
      NoMorningHops(r);
    } else {
      LookupHolds(r.legs);
      HopsNonNegative(r);
      ScheduledMorningCheck(r.ordered, r.legs, stops);
    }
  }

  lemma NoStopsInPlace()
    ensures MorningInPlace([])
  {
  }

  lemma NoMorningHops(r: OptimizeResult)
    requires r.ordered == [] && HopsKnownTo(r)
    ensures ShortMorningHops(r)
  {
    assert ExtractMorningFirst(r.ordered) == [];
  }

  lemma HopsNonNegative(r: OptimizeResult)
    requires HopsKnownTo(r) && forall k | 0 <= k < |r.legs| :: r.legs[k].durationMin >= 0
    ensures NonNegative(DayHops(r))
  {
    LookupHolds(r.legs);
    var order, lookup := ExtractMorningFirst(r.ordered), LegsToLookup(r.legs);
    forall i | 0 <= i < |order| ensures DayHops(r)[i] >= 0 {
      assert RequiredHops(order)[i] in lookup && lookup[RequiredHops(order)[i]] in r.legs;
    }
  }

  // ----- The whole trip

  /** A day the validator has nothing against. */
  ghost predicate DayPasses(r: OptimizeResult, stops: seq<ScheduledStop>, spread: GeoSpread) {
    && !r.stillOverBudget
    && Anchored(stops)
    && (|stops| < 2 || !spread(stops))
    && MorningInPlace(stops)
  }

  lemma PassesIffDaysPass(dayLists: seq<Day>, route: seq<OptimizeResult>, timed: seq<seq<ScheduledStop>>,
                          plans: seq<DayPlan>, spread: GeoSpread)
    requires |dayLists| == |route| == |timed| == |plans| > 0 && DaysWork(dayLists, route, timed, |route|)
    requires PlansAgree(route, timed, plans) && NoRepeatErrors(plans) == []
    ensures Validation(plans, spread).Some?
    ensures Validation(plans, spread).value.passed
       <==> forall i | 0 <= i < |route| :: DayPasses(route[i], plans[i].stops, spread)
  {
    hide Schedule, ParseHHMM, Validation, MorningInPlace, Anchored, Readable;
    ReadableValidates(plans, spread);
    PassesIffAcceptable(plans, spread);
    NoRepeatIff(plans);
    forall i | 0 <= i < |route| ensures route[i].stillOverBudget <==> plans[i].totalTravelMin > MAX_DAILY_TRAVEL_MIN {
      assert DayOutcome(dayLists[i], route[i], timed[i]);
    }
    if forall i | 0 <= i < |route| :: DayPasses(route[i], plans[i].stops, spread) {
      forall i | 0 <= i < |plans|
        ensures plans[i].totalTravelMin <= 180 && MorningInPlace(plans[i].stops) && Anchored(plans[i].stops)
        ensures |plans[i].stops| < 2 || !spread(plans[i].stops)
      {
        assert DayPasses(route[i], plans[i].stops, spread);
      }
    }
  }

  /**
   * What the engine plans passes validation exactly when every day is within the travel budget, has a stop
   * scored above the anchor threshold, is not spread out, and keeps its morning-only stops in the morning;
   * on a day that does not run past midnight the last means that its first hops are short enough.
   */
  lemma EnginePassesIff(ranked: seq<ScoredPlace>, days: nat, world: World)
    returns (route: seq<OptimizeResult>, schedule: seq<ScheduleDay>)
    requires ranked != [] && DistinctStops(ranked) && days >= 1 && HonestProvider(world.routing)
    ensures Route(ranked, days, world) == Success(route) && PlannedSchedule(route) == Success(schedule)
    ensures
      var plans := Itinerary(schedule, route);
      && |plans| == |route| == days
      && Validation(plans, world.spread).Some?
      && (Validation(plans, world.spread).value.passed
          <==> forall i | 0 <= i < days :: DayPasses(route[i], plans[i].stops, world.spread))
      && (forall i | 0 <= i < days && SameDay(route[i]) ::
            MorningInPlace(plans[i].stops) <==> ShortMorningHops(route[i]))
  {
    hide Schedule, OptimizedRoute, Validation, DayOutcome, DayDict, PlanOfDay, HonestProvider, DayPasses, SameDay;
    hide MorningInPlace, ShortMorningHops, Accounted, DistinctStops;
    var dayLists, timed, omitted;
    dayLists, route, timed, omitted := EngineDays(ranked, days, world);
    schedule := DayDicts(route, timed, days);
    var plans := Itinerary(schedule, route);
    ItineraryAgrees(dayLists, route, timed);
    PlacesAccounted(ranked, dayLists, route, timed, plans, omitted);
    AccountedNoRepeats(ranked, route, plans, omitted);
    PassesIffDaysPass(dayLists, route, timed, plans, world.spread);
    forall i | 0 <= i < days && SameDay(route[i])
      ensures MorningInPlace(plans[i].stops) <==> ShortMorningHops(route[i])
    {
      PlanReadsAs(dayLists, route, timed, i);
      SameChecks(plans[i].stops, timed[i]);
      DayMorningIffHops(dayLists[i], route[i], timed[i]);
    }
  }

  /** Routing fails exactly without places, or without days. */
  lemma RouteFailsIff(ranked: seq<ScoredPlace>, days: int, world: World)
    ensures Route(ranked, days, world) == Failure(NoRankedPlaces) <==> ranked == []
    ensures Route(ranked, days, world) == Failure(NotEnoughDays) <==> ranked != [] && days < 1
  {
  }

  /** A day the schedule has no total for is still held to the travel cap, by the total of its route. */
  lemma CapFallsBack(schedule: seq<ScheduleDay>, route: seq<OptimizeResult>, spread: GeoSpread, i: nat)
    requires i < |route| && (i < |schedule| ==> schedule[i].totalTravelMin == 0)
    requires Validation(Itinerary(schedule, route), spread).Some?
    ensures TravelCapExceeded(i) in Validation(Itinerary(schedule, route), spread).value.errors
       <==> route[i].totalTravelMin > 180
  {
    hide Validation, StopsFromFlat;
    ReportedIffHolds(Itinerary(schedule, route), spread, TravelCapExceeded(i));
  }

  /** The validation of a plan warns about drops exactly when the optimizer dropped a stop on some day. */
  lemma DropsAreWarned(schedule: seq<ScheduleDay>, route: seq<OptimizeResult>, spread: GeoSpread)
    requires Itinerary(schedule, route) != [] && Validation(Itinerary(schedule, route), spread).Some?
    ensures Validation(Itinerary(schedule, route), spread).value.droppedWarning
       <==> exists i, d | 0 <= i < |route| :: d in route[i].droppedStops
  {
    hide Validation, StopsFromFlat;
    var plans := Itinerary(schedule, route);
    WarnsIffDropped(plans, spread);
    forall i | 0 <= i < |plans|
      ensures i < |route| ==> plans[i].droppedStops == route[i].droppedStops
      ensures i >= |route| ==> plans[i].droppedStops == []
    {
    }
  }
}
