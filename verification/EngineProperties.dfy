/** What the three engine tools guarantee together. */
module EngineProperties {
  import opened Ordering
  import opened Sequences
  import opened TravelRules
  import opened Protocols
  import opened RouteOptimizer
  import opened WallClock
  import opened ScheduleBuilder
  import opened ScheduleProperties
  import opened DayAllocator
  import opened TripValidator
  import opened TravelEngine

  // ----- Counting through permutations

  lemma FilterRemove<T>(keep: T -> bool, b: seq<T>, j: nat)
    requires j < |b|
    ensures |Filter(keep, b)| == |Filter(keep, RemoveAt(b, j))| + if keep(b[j]) then 1 else 0
  {
    var front, back := b[..j], b[j + 1..];
    assert b == front + ([b[j]] + back);
    FilterAppend(keep, front, [b[j]] + back);
    FilterAppend(keep, [b[j]], back);
    FilterAppend(keep, front, back);
  }

  /** A filter keeps no more of a part than of the whole. */
  lemma {:induction false} FilterMonotone<T>(keep: T -> bool, a: seq<T>, b: seq<T>)
    requires multiset(a) <= multiset(b)
    ensures |Filter(keep, a)| <= |Filter(keep, b)|
  {
    if a != [] {
      assert a[0] in multiset(b);
      var j :| 0 <= j < |b| && b[j] == a[0];
      RemoveAtMultiset(a, 0);
      RemoveAtMultiset(b, j);
      FilterMonotone(keep, RemoveAt(a, 0), RemoveAt(b, j));
      FilterRemove(keep, a, 0);
      FilterRemove(keep, b, j);
    }
  }

  /** The allocator's morning count is the number of stops the schedule builder extracts from. */
  lemma {:induction false} MorningCountIsFilter(day: seq<ScoredPlace>)
    ensures MorningCount(day) == |Filter(IsMorning, day)|
  {
    if day != [] {
      var front, last := day[..|day| - 1], day[|day| - 1];
      MorningCountIsFilter(front);
      FilterAppend(IsMorning, front, [last]);
      assert day == front + [last];
    }
  }

  lemma {:induction false} IdsAppend(a: seq<ScoredPlace>, b: seq<ScoredPlace>)
    ensures Ids(a + b) == Ids(a) + Ids(b)
  {
  }

  /** Ids follow their stops through any rearrangement. */
  lemma IdsPermute(a: seq<ScoredPlace>, b: seq<ScoredPlace>)
    requires multiset(a) == multiset(b)
    ensures multiset(Ids(a)) == multiset(Ids(b))
  {
    MapPermutes(IdOf, a, b);
    assert Ids(a) == Map(IdOf, a) && Ids(b) == Map(IdOf, b);
  }

  function IdOf(s: ScoredPlace): PlaceId {
    s.place.id
  }

  lemma DistinctIds(stops: seq<ScoredPlace>)
    requires DistinctStops(stops)
    ensures Distinct(Ids(stops))
  {
  }

  // ----- Hops of any reordered day are known

  lemma HopKnown(order: seq<ScoredPlace>, kept: seq<ScoredPlace>, baseLat: real, baseLng: real, legs: seq<RouteLeg>,
                 i: nat)
    requires DistinctStops(order) && (forall s | s in order :: s in kept) && i < |order|
    requires FullMatrix(WaypointsFor(kept, baseLat, baseLng), legs)
    ensures RequiredHops(order)[i] in LegsToLookup(legs)
  {
    var w := WaypointsFor(kept, baseLat, baseLng);
    assert order[i] in kept;
    var b :| 0 <= b < |kept| && kept[b] == order[i];
    assert w[0].id == BASE_SENTINEL_ID && w[b + 1].id == order[i].place.id;
    if i > 0 {
      assert order[i - 1] in kept;
      var a :| 0 <= a < |kept| && kept[a] == order[i - 1];
      assert w[a + 1].id == order[i - 1].place.id;
      assert a != b;
    }
  }

  /** Any rearrangement of some of the stops a full matrix was asked for can be timed. */
  lemma HopsOfSubset(order: seq<ScoredPlace>, kept: seq<ScoredPlace>, baseLat: real, baseLng: real, legs: seq<RouteLeg>)
    requires DistinctStops(kept) && multiset(order) <= multiset(kept)
    requires FullMatrix(WaypointsFor(kept, baseLat, baseLng), legs)
    ensures HopsKnown(order, LegsToLookup(legs))
    ensures NonNegative(HopMinutes(order, LegsToLookup(legs)))
  {
    LookupHolds(legs);
    DistinctPermuted(kept, order);
    forall s | s in order ensures s in kept {
      assert s in multiset(order) && s in multiset(kept);
    }
    forall i | 0 <= i < |order| ensures RequiredHops(order)[i] in LegsToLookup(legs) {
      HopKnown(order, kept, baseLat, baseLng, legs, i);
    }
  }

  // ----- One day

  function DropIds(dropped: seq<DroppedStop>): seq<PlaceId> {
    seq(|dropped|, i requires 0 <= i < |dropped| => dropped[i].placeId)
  }

  /** The order in which a day is timed when the builder may reorder it. */
  lemma ReorderedDayIsTimed(ordered: seq<ScoredPlace>, kept: seq<ScoredPlace>, baseLat: real, baseLng: real,
                            legs: seq<RouteLeg>)
    requires ordered != [] && DistinctStops(kept) && multiset(ordered) == multiset(kept)
    requires FullMatrix(WaypointsFor(kept, baseLat, baseLng), legs)
    ensures
      var order := ExtractMorningFirst(ordered);
      && HopsKnown(order, LegsToLookup(legs))
      && NonNegative(HopMinutes(order, LegsToLookup(legs)))
      && Schedule(ordered, legs, false)
         == Success(StampAll(order, DayTimeline(Durations(order), HopMinutes(order, LegsToLookup(legs)))))
  {
    var order := ExtractMorningFirst(ordered);
    FullMatrixLongEnough(kept, baseLat, baseLng, legs);
    assert |kept| == |multiset(kept)| == |multiset(ordered)| == |ordered|;
    MorningFirstSubset(ordered);
    HopsOfSubset(order, kept, baseLat, baseLng, legs);
    NoneMissing(RequiredHops(order), LegsToLookup(legs));
  }

  /** What the optimizer and the schedule builder make of one allocated day. */
  ghost predicate DayOutcome(day: Day, r: OptimizeResult, stops: seq<ScheduledStop>) {
    && Schedule(r.ordered, r.legs, false) == Success(stops)
    && multiset(Ids(day)) == multiset(StopIds(stops)) + multiset(DropIds(r.droppedStops))
    && (r.totalTravelMin <= MAX_DAILY_TRAVEL_MIN || |stops| == 1)
    && (r.stillOverBudget <==> r.totalTravelMin > MAX_DAILY_TRAVEL_MIN)
    && (stops == [] <==> day == [])
    && (r.ordered == [] <==> day == [])
    && StartsReadable(stops)
    && (forall k | 0 <= k < |r.legs| :: r.legs[k].durationMin >= 0)
  }

  ghost predicate StartsReadable(stops: seq<ScheduledStop>) {
    forall j | 0 <= j < |stops| :: ParseHHMM(stops[j].suggestedStartTime).Some? && stops[j].visitDurationMin > 0
                                 && stops[j].suggestedStartTime != ""
  }

  lemma StampedReadable(order: seq<ScoredPlace>, visits: seq<Visit>)
    requires |order| == |visits|
    ensures StartsReadable(StampAll(order, visits))
    ensures StopIds(StampAll(order, visits)) == Ids(order)
  {
    forall j | 0 <= j < |order| ensures ParseHHMM(StampAll(order, visits)[j].suggestedStartTime).Some? {
      FormatParse(visits[j].start);
    }
  }

  lemma ExtractKeepsIds(day: Day, ordered: seq<ScoredPlace>)
    requires multiset(ordered) <= multiset(day) && MorningCount(day) <= MAX_MORNING_ONLY_PER_DAY
    ensures multiset(Ids(ExtractMorningFirst(ordered))) == multiset(Ids(ordered))
    ensures |ExtractMorningFirst(ordered)| == |ordered|
  {
    MorningCountIsFilter(day);
    FilterMonotone(IsMorning, ordered, day);
    MorningFirstKeepsAll(ordered);
    IdsPermute(ExtractMorningFirst(ordered), ordered);
  }

  lemma SplitIds(day: seq<ScoredPlace>, ordered: seq<ScoredPlace>, victims: seq<ScoredPlace>)
    requires multiset(day) == multiset(ordered) + multiset(victims)
    ensures multiset(Ids(day)) == multiset(Ids(ordered)) + multiset(DropIds(Dropped(victims)))
  {
    IdsPermute(day, ordered + victims);
    IdsAppend(ordered, victims);
    assert DropIds(Dropped(victims)) == Ids(victims);
  }

  lemma DayWorks(day: Day, world: World) returns (stops: seq<ScheduledStop>)
    requires DistinctStops(day) && WithinCaps(day) && HonestProvider(world.routing)
    ensures DayOutcome(day, OptimizedRoute(day, world.baseLat, world.baseLng, world.routing), stops)
  {
    hide DistinctStops, OptimizedRoute, WithinCaps, HonestProvider, DayOutcome;
    if day == [] {
      stops := [];
      EmptyDayWorks(world);
    } else {
      stops := BusyDayWorks(day, world);
    }
  }

  /** What the optimizer makes of a day that has stops, as far as timing needs it. */
  lemma BusyDayRoute(day: Day, world: World) returns (victims: seq<ScoredPlace>, kept: seq<ScoredPlace>)
    requires day != [] && DistinctStops(day) && WithinCaps(day) && HonestProvider(world.routing)
    ensures
      var r := OptimizedRoute(day, world.baseLat, world.baseLng, world.routing);
      && r.ordered != [] && multiset(r.ordered) == multiset(kept) && DistinctStops(kept)
      && multiset(day) == multiset(r.ordered) + multiset(victims)
      && r.droppedStops == Dropped(victims)
      && FullMatrix(WaypointsFor(kept, world.baseLat, world.baseLng), r.legs)
      && (forall k | 0 <= k < |r.legs| :: r.legs[k].durationMin >= 0)
      && (r.totalTravelMin <= MAX_DAILY_TRAVEL_MIN || |r.ordered| == 1)
      && (r.stillOverBudget <==> r.totalTravelMin > MAX_DAILY_TRAVEL_MIN)
  {
    hide DistinctStops, OptimizedRoute, MorningCount, DayVisitMin, AscendingLowest, FullMatrix, AfterDrops, Victims;
    victims, kept := OptimizeRouteExact(day, world.baseLat, world.baseLng, world.routing);
    WithinCapOrSingle(day, world.baseLat, world.baseLng, world.routing);
    KeptDistinct(day, victims, kept);
    FullMatrixNonNegative(WaypointsFor(kept, world.baseLat, world.baseLng),
                          OptimizedRoute(day, world.baseLat, world.baseLng, world.routing).legs);
  }

  lemma FullMatrixNonNegative(waypoints: seq<Waypoint>, legs: seq<RouteLeg>)
    requires FullMatrix(waypoints, legs)
    ensures forall k | 0 <= k < |legs| :: legs[k].durationMin >= 0
  {
  }

  lemma BusyDayWorks(day: Day, world: World) returns (stops: seq<ScheduledStop>)
    requires day != [] && DistinctStops(day) && WithinCaps(day) && HonestProvider(world.routing)
    ensures DayOutcome(day, OptimizedRoute(day, world.baseLat, world.baseLng, world.routing), stops)
  {
    hide DistinctStops, OptimizedRoute, MorningCount, DayVisitMin, DayTimeline, StartsReadable, ExtractMorningFirst;
    hide HonestProvider, FullMatrix, Schedule;
    var r := OptimizedRoute(day, world.baseLat, world.baseLng, world.routing);
    var victims, kept := BusyDayRoute(day, world);
    ReorderedDayIsTimed(r.ordered, kept, world.baseLat, world.baseLng, r.legs);
    var order := ExtractMorningFirst(r.ordered);
    ExtractKeepsIds(day, r.ordered);
    SplitIds(day, r.ordered, victims);
    var visits := DayTimeline(Durations(order), HopMinutes(order, LegsToLookup(r.legs)));
    stops := StampAll(order, visits);
    StampedReadable(order, visits);
  }

  lemma EmptyDayWorks(world: World)
    ensures DayOutcome([], OptimizedRoute([], world.baseLat, world.baseLng, world.routing), [])
  {
  }

  lemma KeptDistinct(day: seq<ScoredPlace>, victims: seq<ScoredPlace>, kept: seq<ScoredPlace>)
    requires DistinctStops(day) && multiset(day) == multiset(victims) + multiset(kept)
    ensures DistinctStops(kept)
  {
    DistinctPermuted(day, kept);
  }

  // ----- The whole trip

  function DroppedIds(route: seq<OptimizeResult>, n: nat): seq<PlaceId>
    requires n <= |route|
  {
    if n == 0 then [] else DroppedIds(route, n - 1) + DropIds(route[n - 1].droppedStops)
  }

  /** Every day of the route can be timed, day by day. */
  ghost predicate DaysWork(dayLists: seq<Day>, route: seq<OptimizeResult>, timed: seq<seq<ScheduledStop>>, n: nat)
    requires n <= |dayLists| == |route| && n <= |timed|
  {
    forall i | 0 <= i < n :: DayOutcome(dayLists[i], route[i], timed[i])
  }

  lemma {:induction false} DistinctDay(dayLists: seq<Day>, i: nat)
    requires i < |dayLists| && DistinctStops(Flatten(dayLists))
    ensures DistinctStops(dayLists[i])
  {
    InOneDay(dayLists, i);
    DistinctPermuted(Flatten(dayLists), dayLists[i]);
  }

  lemma {:induction false} InOneDay(dayLists: seq<Day>, i: nat)
    requires i < |dayLists|
    ensures multiset(dayLists[i]) <= multiset(Flatten(dayLists))
  {
    if i > 0 {
      InOneDay(dayLists[1..], i - 1);
    }
  }

  lemma {:induction false} RouteDayAt(dayLists: seq<Day>, n: nat, world: World, i: nat)
    requires i < n <= |dayLists|
    ensures |RouteDays(dayLists, n, world)| == n
    ensures RouteDays(dayLists, n, world)[i] == OptimizedRoute(dayLists[i], world.baseLat, world.baseLng, world.routing)
  {
    if i < n - 1 {
      RouteDayAt(dayLists, n - 1, world, i);
    } else if n > 1 {
      RouteDayAt(dayLists, n - 1, world, 0);
    }
  }

  lemma {:induction false} AllDaysWork(dayLists: seq<Day>, world: World, n: nat)
    returns (timed: seq<seq<ScheduledStop>>)
    requires n <= |dayLists| && DistinctStops(Flatten(dayLists))
    requires AllWithinCaps(dayLists) && HonestProvider(world.routing)
    requires |RouteDays(dayLists, |dayLists|, world)| == |dayLists|
    ensures |timed| == n && DaysWork(dayLists, RouteDays(dayLists, |dayLists|, world), timed, n)
  {
    hide Schedule, OptimizedRoute;
    timed := [];
    if n > 0 {
      var before := AllDaysWork(dayLists, world, n - 1);
      DistinctDay(dayLists, n - 1);
      RouteDayAt(dayLists, |dayLists|, world, n - 1);
      var stops := DayWorks(dayLists[n - 1], world);
      timed := before + [stops];
    }
  }

  /** The day dicts of days that can all be timed. */
  function DayDicts(route: seq<OptimizeResult>, timed: seq<seq<ScheduledStop>>, n: nat): seq<ScheduleDay>
    requires n <= |route| && n <= |timed|
  {
    seq(n, i requires 0 <= i < n => DayDict(i + 1, route[i], timed[i]))
  }

  lemma {:induction false} ScheduleSucceeds(dayLists: seq<Day>, route: seq<OptimizeResult>,
                                            timed: seq<seq<ScheduledStop>>, n: nat)
    requires n <= |dayLists| == |route| == |timed| && DaysWork(dayLists, route, timed, n)
    ensures Collect(route, TimedDays(route), n) == Success(DayDicts(route, timed, n))
  {
    hide Schedule, DayDict;
    if n == 0 {
      assert DayDicts(route, timed, 0) == [];
    } else {
      ScheduleSucceeds(dayLists, route, timed, n - 1);
      assert DayOutcome(dayLists[n - 1], route[n - 1], timed[n - 1]);
      CollectNext(route, TimedDays(route), n - 1, DayDicts(route, timed, n - 1), Success(timed[n - 1]));
      assert DayDicts(route, timed, n) == DayDicts(route, timed, n - 1) + [DayDict(n, route[n - 1], timed[n - 1])];
    }
  }

  /** validate_itinerary reads back the very stop build_schedule stored. */
  lemma FlatRoundTrip(scheduled: seq<ScheduledStop>, lookup: Lookup, polylines: map<PlaceId, Option<string>>, j: nat)
    requires j < |scheduled| && StartsReadable(scheduled) && scheduled[j].place.category != OtherCategory("")
    ensures ScheduledFromFlat(FlatStops(scheduled, lookup, polylines)[j]) == scheduled[j]
  {
  }

  /** The stops of day i as the validator sees them. */
  lemma PlanStops(dayLists: seq<Day>, route: seq<OptimizeResult>, timed: seq<seq<ScheduledStop>>, i: nat)
    requires i < |dayLists| == |route| == |timed| && DayOutcome(dayLists[i], route[i], timed[i])
    ensures
      var plan := PlanOfDay(DayDicts(route, timed, |route|), route, i);
      && StopIds(plan.stops) == StopIds(timed[i])
      && plan.totalTravelMin == route[i].totalTravelMin
      && forall j | 0 <= j < |plan.stops| :: ReadableStart(plan.stops[j])
  {
    hide Schedule, ParseHHMM;
    var plan := PlanOfDay(DayDicts(route, timed, |route|), route, i);
    forall j | 0 <= j < |plan.stops|
      ensures ReadableStart(plan.stops[j]) && plan.stops[j].place.id == timed[i][j].place.id
    {
      assert plan.stops[j].suggestedStartTime == timed[i][j].suggestedStartTime;
    }
  }

  /** The ids of the first n planned days and of what those days dropped are the ids allocated to them. */
  lemma {:induction false} DaysConserveIds(dayLists: seq<Day>, route: seq<OptimizeResult>,
                                           timed: seq<seq<ScheduledStop>>,
                                           plans: seq<DayPlan>, n: nat)
    requires n <= |dayLists| == |route| == |timed| && DaysWork(dayLists, route, timed, n)
    requires |plans| == |route| && forall i | 0 <= i < n :: StopIds(plans[i].stops) == StopIds(timed[i])
    ensures multiset(AllIds(plans, n)) + multiset(DroppedIds(route, n)) == multiset(Ids(Flatten(dayLists[..n])))
  {
    hide Schedule;
    if n > 0 {
      DaysConserveIds(dayLists, route, timed, plans, n - 1);
      assert DayOutcome(dayLists[n - 1], route[n - 1], timed[n - 1]);
      OneMoreDay(dayLists, n);
    } else {
      assert Flatten(dayLists[..0]) == [];
    }
  }

  lemma OneMoreDay(dayLists: seq<Day>, n: nat)
    requires 0 < n <= |dayLists|
    ensures multiset(Ids(Flatten(dayLists[..n])))
         == multiset(Ids(Flatten(dayLists[..n - 1]))) + multiset(Ids(dayLists[n - 1]))
  {
    assert dayLists[..n] == dayLists[..n - 1] + [dayLists[n - 1]];
    FlattenSnoc(dayLists[..n - 1], dayLists[n - 1]);
    IdsAppend(Flatten(dayLists[..n - 1]), dayLists[n - 1]);
  }

  lemma DistinctPart(a: seq<PlaceId>, b: seq<PlaceId>)
    requires Distinct(b) && multiset(a) <= multiset(b)
    ensures Distinct(a)
  {
    CountOnce(b);
    forall id | id in a ensures multiset(a)[id] <= 1 {
      assert id in multiset(a) && id in multiset(b) && id in b;
    }
    CountOnce(a);
  }

  /** The validator's view of each day agrees with the day that was timed. */
  ghost predicate PlansAgree(route: seq<OptimizeResult>, timed: seq<seq<ScheduledStop>>, plans: seq<DayPlan>) {
    && |plans| == |route| == |timed|
    && (forall i | 0 <= i < |plans| :: StopIds(plans[i].stops) == StopIds(timed[i]))
    && (forall i | 0 <= i < |plans| :: plans[i].totalTravelMin == route[i].totalTravelMin)
    && Readable(plans)
  }

  lemma ItineraryAgrees(dayLists: seq<Day>, route: seq<OptimizeResult>, timed: seq<seq<ScheduledStop>>)
    requires |dayLists| == |route| == |timed| && DaysWork(dayLists, route, timed, |route|)
    ensures PlansAgree(route, timed, Itinerary(DayDicts(route, timed, |route|), route))
  {
    hide Schedule, PlanOfDay;
    var plans := Itinerary(DayDicts(route, timed, |route|), route);
    forall i | 0 <= i < |plans|
      ensures StopIds(plans[i].stops) == StopIds(timed[i])
      ensures plans[i].totalTravelMin == route[i].totalTravelMin
      ensures forall j | 0 <= j < |plans[i].stops| :: ReadableStart(plans[i].stops[j])
    {
      PlanStops(dayLists, route, timed, i);
    }
  }

  /** Each day is within the travel cap or down to one stop, and the cap check fires exactly on the days still over. */
  ghost predicate CapRespected(route: seq<OptimizeResult>, plans: seq<DayPlan>) {
    forall i | 0 <= i < |route| <= |plans| ::
      && (plans[i].totalTravelMin <= MAX_DAILY_TRAVEL_MIN || |plans[i].stops| == 1)
      && (route[i].stillOverBudget <==> TravelCapExceeded(i) in TravelCapErrors(plans, |plans|))
  }

  lemma CapIsRespected(dayLists: seq<Day>, route: seq<OptimizeResult>, timed: seq<seq<ScheduledStop>>,
                       plans: seq<DayPlan>)
    requires |dayLists| == |route| == |timed| && DaysWork(dayLists, route, timed, |route|)
    requires PlansAgree(route, timed, plans)
    ensures CapRespected(route, plans)
  {
    hide Schedule;
    forall i | 0 <= i < |route|
      ensures route[i].stillOverBudget <==> TravelCapExceeded(i) in TravelCapErrors(plans, |plans|)
      ensures plans[i].totalTravelMin <= MAX_DAILY_TRAVEL_MIN || |plans[i].stops| == 1
    {
      TravelCapFires(plans, |plans|, i);
      assert DayOutcome(dayLists[i], route[i], timed[i]);
      assert |plans[i].stops| == |StopIds(plans[i].stops)| == |StopIds(timed[i])| == |timed[i]|;
    }
  }

  /** Every ranked place is scheduled exactly once, dropped for travel, or omitted by the allocator. */
  ghost predicate Accounted(ranked: seq<ScoredPlace>, route: seq<OptimizeResult>, plans: seq<DayPlan>,
                            omitted: seq<ScoredPlace>) {
    && multiset(AllIds(plans, |plans|)) + multiset(DroppedIds(route, |route|)) + multiset(Ids(omitted))
       == multiset(Ids(ranked))
    && Distinct(AllIds(plans, |plans|))
  }

  lemma PlacesAccounted(ranked: seq<ScoredPlace>, dayLists: seq<Day>, route: seq<OptimizeResult>,
                        timed: seq<seq<ScheduledStop>>, plans: seq<DayPlan>, omitted: seq<ScoredPlace>)
    requires DistinctStops(ranked) && multiset(Flatten(dayLists)) + multiset(omitted) == multiset(ranked)
    requires |dayLists| == |route| == |timed| && DaysWork(dayLists, route, timed, |route|)
    requires PlansAgree(route, timed, plans)
    ensures Accounted(ranked, route, plans, omitted)
  {
    hide Schedule, DayOutcome;
    DaysConserveIds(dayLists, route, timed, plans, |plans|);
    assert dayLists[..|plans|] == dayLists;
    IdsPermute(ranked, Flatten(dayLists) + omitted);
    IdsAppend(Flatten(dayLists), omitted);
    DistinctIds(ranked);
    DistinctPart(AllIds(plans, |plans|), Ids(ranked));
  }

  /** Every step of the engine succeeds, day by day. */
  lemma EngineDays(ranked: seq<ScoredPlace>, days: nat, world: World)
    returns (dayLists: seq<Day>, route: seq<OptimizeResult>, timed: seq<seq<ScheduledStop>>, omitted: seq<ScoredPlace>)
    requires ranked != [] && DistinctStops(ranked) && days >= 1 && HonestProvider(world.routing)
    ensures Allocation(ranked, days, world.distance) == Some(dayLists) && Route(ranked, days, world) == Success(route)
    ensures |dayLists| == |route| == |timed| == days && DaysWork(dayLists, route, timed, days)
    ensures PlannedSchedule(route) == Success(DayDicts(route, timed, days))
    ensures multiset(Flatten(dayLists)) + multiset(omitted) == multiset(ranked) && NoneFits(dayLists, omitted)
  {
    hide Schedule, OptimizedRoute, DayOutcome, DayDict, HonestProvider;
    omitted := AllocationSound(ranked, days, world.distance);
    AllocationDistinct(ranked, days, world.distance);
    dayLists := Allocation(ranked, days, world.distance).value;
    route := RouteDays(dayLists, days, world);
    RouteDayAt(dayLists, days, world, 0);
    timed := AllDaysWork(dayLists, world, days);
    ScheduleSucceeds(dayLists, route, timed, days);
  }

  /**
   * The whole engine on distinct places and an honest routing provider: no step fails, no place repeats,
   * nothing is lost, every omitted place fits in no allocated day, and the travel cap check reports exactly
   * the days the optimizer could not fit. Validation itself never raises.
   */
  lemma EngineComposition(ranked: seq<ScoredPlace>, days: nat, world: World)
    returns (route: seq<OptimizeResult>, schedule: seq<ScheduleDay>, omitted: seq<ScoredPlace>)
    requires ranked != [] && DistinctStops(ranked) && days >= 1 && HonestProvider(world.routing)
    ensures Route(ranked, days, world) == Success(route)
    ensures PlannedSchedule(route) == Success(schedule)
    ensures
      var plans := Itinerary(schedule, route);
      && |plans| == |route| == days
      && Accounted(ranked, route, plans, omitted)
      && NoRepeatErrors(plans) == []
      && CapRespected(route, plans)
      && Validation(plans, world.spread).Some?
    ensures NoneFits(Allocation(ranked, days, world.distance).value, omitted)
  {
    hide Schedule, OptimizedRoute, Validation, Itinerary, DayOutcome, DayDict, PlanOfDay, Accounted, CapRespected;
    hide HonestProvider;
    var dayLists, timed;
    dayLists, route, timed, omitted := EngineDays(ranked, days, world);
    schedule := DayDicts(route, timed, days);
    var plans := Itinerary(schedule, route);
    ItineraryAgrees(dayLists, route, timed);
    PlacesAccounted(ranked, dayLists, route, timed, plans, omitted);
    CapIsRespected(dayLists, route, timed, plans);
    AccountedNoRepeats(ranked, route, plans, omitted);
    ReadableValidates(plans, world.spread);
  }

  lemma AccountedNoRepeats(ranked: seq<ScoredPlace>, route: seq<OptimizeResult>, plans: seq<DayPlan>,
                           omitted: seq<ScoredPlace>)
    requires Accounted(ranked, route, plans, omitted)
    ensures NoRepeatErrors(plans) == []
  {
    NoRepeatIff(plans);
  }

  lemma ReadableValidates(plans: seq<DayPlan>, spread: GeoSpread)
    requires Readable(plans)
    ensures Validation(plans, spread).Some?
  {
  }
}
