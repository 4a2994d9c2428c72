/** An accepted add that costs the day a stop: the third viewpoint pushes out one that was there. */
module TripCounterexample {
  import opened Ordering
  import opened Sequences
  import opened TravelRules
  import opened Protocols
  import opened RouteOptimizer
  import opened ScheduleBuilder
  import opened WallClock
  import opened MorningSlotProperties
  import opened TripValidator
  import opened TravelEngine
  import opened EngineProperties
  import opened TripModel
  import opened TripProperties

  // ----- A provider for which every hop takes ten minutes

  function LegsFrom(from: Waypoint, waypoints: seq<Waypoint>): seq<RouteLeg> {
    seq(|waypoints|, i requires 0 <= i < |waypoints| => RouteLeg(from.id, waypoints[i].id, 10, 1.0, false))
  }

  function AllLegs(sources: seq<Waypoint>, waypoints: seq<Waypoint>): seq<RouteLeg> {
    if sources == [] then [] else LegsFrom(sources[0], waypoints) + AllLegs(sources[1..], waypoints)
  }

  function TenMinutes(waypoints: seq<Waypoint>): seq<RouteLeg> {
    AllLegs(waypoints, waypoints)
  }

  lemma {:induction false} LegIndexed(legs: seq<RouteLeg>, k: nat)
    requires k < |legs|
    ensures (legs[k].fromId, legs[k].toId) in LegsToLookup(legs)
  {
    if k < |legs| - 1 {
      LegIndexed(legs[..|legs| - 1], k);
    }
  }

  lemma {:induction false} LegPresent(sources: seq<Waypoint>, waypoints: seq<Waypoint>, i: nat, j: nat) returns (k: nat)
    requires i < |sources| && j < |waypoints|
    ensures k < |AllLegs(sources, waypoints)|
    ensures AllLegs(sources, waypoints)[k] == RouteLeg(sources[i].id, waypoints[j].id, 10, 1.0, false)
  {
    if i == 0 {
      k := j;
    } else {
      var rest := LegPresent(sources[1..], waypoints, i - 1, j);
      k := |waypoints| + rest;
    }
  }

  lemma {:induction false} AllTen(sources: seq<Waypoint>, waypoints: seq<Waypoint>)
    ensures forall k | 0 <= k < |AllLegs(sources, waypoints)| :: AllLegs(sources, waypoints)[k].durationMin == 10
  {
    if sources != [] {
      AllTen(sources[1..], waypoints);
    }
  }

  lemma TenMinutesIsFull(waypoints: seq<Waypoint>)
    ensures FullMatrix(waypoints, TenMinutes(waypoints))
  {
    forall i, j | 0 <= i < |waypoints| && 0 <= j < |waypoints| && i != j
      ensures (waypoints[i].id, waypoints[j].id) in LegsToLookup(TenMinutes(waypoints))
    {
      var k := LegPresent(waypoints, waypoints, i, j);
      LegIndexed(TenMinutes(waypoints), k);
    }
    AllTen(waypoints, waypoints);
  }

  /** Every known hop takes ten minutes. */
  lemma TenMinuteHop(waypoints: seq<Waypoint>, hop: (PlaceId, PlaceId))
    requires hop in LegsToLookup(TenMinutes(waypoints))
    ensures LegsToLookup(TenMinutes(waypoints))[hop].durationMin == 10
  {
    var legs := TenMinutes(waypoints);
    LookupHolds(legs);
    AllTen(waypoints, waypoints);
    var k :| 0 <= k < |legs| && legs[k] == LegsToLookup(legs)[hop];
  }

  // ----- The trip

  function ViewpointAt(id: PlaceId): PlaceCandidate {
    PlaceCandidate(id, "", Viewpoint, 0.0, 0.0)
  }

  function Never(stops: seq<ScheduledStop>): bool {
    false
  }

  function Nowhere(points: seq<(real, real)>): Option<string> {
    None
  }

  function Flat(a: real, b: real, c: real, d: real): real {
    0.0
  }

  function SampleEnv(): Env {
    Env(map[1 := CatalogPlace(ViewpointAt(1), 7), 2 := CatalogPlace(ViewpointAt(2), 7),
        3 := CatalogPlace(ViewpointAt(3), 7)],
        World(0.0, 0.0, Routing(TenMinutes, Nowhere), Flat, Never))
  }

  /** One day with the viewpoints 2 and 3, owned by user 5. */
  function SampleTrip(): Trip {
    Trip(Some(5), 7, [Row(2, 1, 1, 10, 20, None, None, None), Row(3, 1, 2, 10, 20, None, None, None)], [])
  }

  function Stops(ids: seq<PlaceId>): seq<ScoredPlace> {
    seq(|ids|, i requires 0 <= i < |ids| => ScoredPlace(ViewpointAt(ids[i]), 1.0))
  }

  lemma SampleOk()
    ensures TripOk(SampleTrip(), SampleEnv()) && HonestProvider(SampleEnv().world.routing)
  {
    forall waypoints ensures FullMatrix(waypoints, SampleEnv().world.routing.travelMatrix(waypoints)) {
      TenMinutesIsFull(waypoints);
    }
  }

  lemma SampleDay()
    ensures RowIds(DayRows(SampleTrip().rows, 1)) == [2, 3]
  {
    var rows := SampleTrip().rows;
    FilterAll(OnDay(1), rows);
    StableSortRecovers(RowOrder, rows, rows);
    assert RowIds(rows) == [2, 3];
  }

  /** What the add sends to the optimizer. */
  lemma SampleRouted()
    ensures PlacesToRoute(SampleTrip(), SampleEnv(), AddOne(1, 1)) == Success([2, 3, 1])
  {
    hide DayRows;
    var ids: seq<PlaceId> := [2, 3];
    SampleDay();
    assert ids + [1] == [2, 3, 1];
    assert RowIds(SampleTrip().rows) == ids;
  }

  lemma SampleHydrated()
    ensures AllKnown([2, 3, 1], SampleEnv().catalog)
    ensures HydrateAll([2, 3, 1], SampleEnv().catalog) == Stops([2, 3, 1])
  {
  }

  lemma SampleDistinct()
    ensures DistinctStops(Stops([2, 3, 1]))
    ensures multiset(Stops([1, 2, 3])) == multiset(Stops([2, 3, 1]))
  {
    SampleRotated();
  }

  lemma SampleRotated()
    ensures multiset(Stops([1, 2, 3])) == multiset(Stops([2, 3, 1]))
  {
    var one, two, three := Stops([1])[0], Stops([2])[0], Stops([3])[0];
    assert Stops([1, 2, 3]) == [one, two, three];
    assert Stops([2, 3, 1]) == [two, three, one];
  }

  lemma StopsIds(ids: seq<PlaceId>)
    ensures Ids(Stops(ids)) == ids
  {
  }

  /** Every arrangement of the three stops takes half an hour. */
  lemma HalfAnHour(p: seq<ScoredPlace>)
    requires multiset(p) == multiset(Stops([2, 3, 1]))
    ensures RouteOptimizer.Travel(p, LegsToLookup(TenMinutes(WaypointsFor(Stops([2, 3, 1]), 0.0, 0.0)))) == 30
  {
    hide TenMinutes, LegsToLookup, WaypointsFor;
    var stops := Stops([2, 3, 1]);
    var waypoints := WaypointsFor(stops, 0.0, 0.0);
    var lookup := LegsToLookup(TenMinutes(waypoints));
    assert |p| == |multiset(p)| == |multiset(stops)| == 3;
    SampleDistinct();
    TenMinutesIsFull(waypoints);
    HopsOfSubset(p, stops, 0.0, 0.0, TenMinutes(waypoints));
    forall i | 0 <= i < 3 ensures lookup[RequiredHops(p)[i]].durationMin == 10 {
      assert RequiredHops(p)[i] in lookup;
      TenMinuteHop(waypoints, RequiredHops(p)[i]);
    }
    ThreeHops(p, lookup);
  }

  lemma ThreeHops(p: seq<ScoredPlace>, lookup: Lookup)
    requires |p| == 3 && HopsKnown(p, lookup)
    ensures RouteOptimizer.Travel(p, lookup)
         == lookup[RequiredHops(p)[0]].durationMin + lookup[RequiredHops(p)[1]].durationMin
            + lookup[RequiredHops(p)[2]].durationMin
  {
    assert RequiredHops(p)[0] in lookup && RequiredHops(p)[1] in lookup && RequiredHops(p)[2] in lookup;
    var q, r := p[1..], p[2..];
    assert q[1..] == r && r[1..] == [] && q[0] == p[1] && r[0] == p[2];
    assert ChainTravel(p[2].place.id, r[1..], lookup) == 0;
    assert ChainTravel(p[1].place.id, r, lookup) == LegDuration(lookup, p[1].place.id, p[2].place.id);
    assert ChainTravel(p[0].place.id, q, lookup)
        == LegDuration(lookup, p[0].place.id, p[1].place.id) + ChainTravel(p[1].place.id, r, lookup);
  }

  /** All arrangements tie, so the ids decide; nothing is dropped. */
  lemma SampleOptimized()
    ensures
      var r := OptimizedRoute(Stops([2, 3, 1]), 0.0, 0.0, SampleEnv().world.routing);
      && r.droppedStops == []
      && r.ordered == Stops([1, 2, 3])
      && r.legs == TenMinutes(WaypointsFor(Stops([2, 3, 1]), 0.0, 0.0))
  {
    hide TenMinutes, WaypointsFor, RouteOptimizer.Travel, BestOrder, OptimizedRoute;
    var stops, goal, routing := Stops([2, 3, 1]), Stops([1, 2, 3]), SampleEnv().world.routing;
    SampleDistinct();
    StopsIds([1, 2, 3]);
    var victims, kept := OptimizeRouteExact(stops, 0.0, 0.0, routing);
    var r := OptimizedRoute(stops, 0.0, 0.0, routing);
    HalfAnHour(stops);
    BestTravelIsLeast(stops, 0.0, 0.0, routing, stops);
    assert AfterDrops(stops, 0) == stops && Victims(stops, 0) == [];
    assert victims == [];
    HalfAnHour(r.ordered);
    HalfAnHour(goal);
    assert NoWorse(r.ordered, goal, LegsToLookup(r.legs));
    IdsPermute(r.ordered, goal);
    LeastOfThree(Ids(r.ordered));
    DistinctPermuted(stops, r.ordered);
    SameIdsSameOrder(r.ordered, goal);
  }

  lemma LeastOfThree(ids: seq<PlaceId>)
    requires multiset(ids) == multiset([1, 2, 3]) && LexLe(ids, [1, 2, 3])
    ensures ids == [1, 2, 3]
  {
    assert |ids| == |multiset(ids)| == 3;
    assert ids[0] in multiset(ids) && ids[1] in multiset(ids) && ids[2] in multiset(ids);
    assert ids == [ids[0], ids[1], ids[2]];
    assert ids[0] == 1;
    assert LexLe(ids[1..], [1, 2, 3][1..]);
    assert ids[1] != 1 && ids[2] != 1 && ids[1] != ids[2] by {
      assert multiset(ids)[1] == 1 && multiset(ids)[2] == 1 && multiset(ids)[3] == 1;
    }
  }

  // ----- The add

  lemma SampleDraft() returns (draft: Draft, hops: seq<int>)
    ensures DraftFor(SampleTrip(), SampleEnv(), AddOne(1, 1)) == Success(draft)
    ensures hops == [10, 10]
    ensures draft.scheduled == StampAll(Stops([1, 2]), DayTimeline(Durations(Stops([1, 2])), hops))
    ensures draft.legs == TenMinutes(WaypointsFor(Stops([2, 3, 1]), 0.0, 0.0))
  {
    hide TenMinutes, WaypointsFor, OptimizedRoute, DayTimeline, Schedule;
    var stops, ordered := Stops([2, 3, 1]), Stops([1, 2, 3]);
    var legs := TenMinutes(WaypointsFor(stops, 0.0, 0.0));
    SampleRouted();
    SampleHydrated();
    SampleOk();
    SampleDistinct();
    SampleOptimized();
    TenMinutesIsFull(WaypointsFor(stops, 0.0, 0.0));
    ReorderedDayIsTimed(ordered, stops, 0.0, 0.0, legs);
    FirstTwoStay();
    var order := Stops([1, 2]);
    hops := HopMinutes(order, LegsToLookup(legs));
    TenMinuteHop(WaypointsFor(stops, 0.0, 0.0), RequiredHops(order)[0]);
    TenMinuteHop(WaypointsFor(stops, 0.0, 0.0), RequiredHops(order)[1]);
    draft := DraftFor(SampleTrip(), SampleEnv(), AddOne(1, 1)).value;
  }

  lemma FirstTwoStay()
    ensures ExtractMorningFirst(Stops([1, 2, 3])) == Stops([1, 2])
  {
    var ordered := Stops([1, 2, 3]);
    FilterAll(IsMorning, ordered);
    FilterNone(IsOther, ordered);
    assert ordered[..2] + [] == Stops([1, 2]);
  }

  lemma SamplePasses(draft: Draft, hops: seq<int>)
    requires hops == [10, 10]
    requires draft.scheduled == StampAll(Stops([1, 2]), DayTimeline(Durations(Stops([1, 2])), hops))
    requires draft.legs == TenMinutes(WaypointsFor(Stops([2, 3, 1]), 0.0, 0.0))
    ensures Acceptable([PlanFromScheduled(draft.scheduled, draft.legs)], Never)
  {
    hide TenMinutes, WaypointsFor, DayTimeline, MorningInPlace, FormatHHMM;
    var plan := PlanFromScheduled(draft.scheduled, draft.legs);
    FirstTwoStay();
    ShortFirstHopsPass(Stops([1, 2, 3]), hops);
    SampleTravel(draft.scheduled);
    assert AllIds([plan], 1) == AllIds([plan], 0) + StopIds(plan.stops);
    assert StopIds(plan.stops) == [1, 2];
    assert plan.stops[0].score == 1.0;
  }

  lemma SampleTravel(scheduled: seq<ScheduledStop>)
    ensures TravelInto(scheduled, LegsToLookup(TenMinutes(WaypointsFor(Stops([2, 3, 1]), 0.0, 0.0))), |scheduled|)
        <= 10 * |scheduled|
  {
    TravelAtMost(scheduled, WaypointsFor(Stops([2, 3, 1]), 0.0, 0.0), |scheduled|);
  }

  lemma {:induction false} TravelAtMost(scheduled: seq<ScheduledStop>, waypoints: seq<Waypoint>, n: nat)
    requires n <= |scheduled|
    ensures TravelInto(scheduled, LegsToLookup(TenMinutes(waypoints)), n) <= 10 * n
  {
    hide TenMinutes, LegsToLookup;
    if n > 0 {
      TravelAtMost(scheduled, waypoints, n - 1);
      var hop := (PreviousId(scheduled, n - 1), scheduled[n - 1].place.id);
      if hop in LegsToLookup(TenMinutes(waypoints)) {
        TenMinuteHop(waypoints, hop);
      }
    }
  }

  lemma SampleDays(plan: DayPlan)
    ensures EditedPlans(SampleTrip().rows, 1, plan, SampleEnv().catalog) == [plan]
  {
    var rows := SampleTrip().rows;
    assert rows[1..] == [rows[1]];
    assert DaysPresent(rows[1..][1..]) == [];
    assert DaysPresent(rows[1..]) == [1];
    assert InsertDay(1, DaysPresent(rows)) == [1];
  }

  /** The add passes every check. */
  lemma SampleAccepted() returns (draft: Draft, after: Trip)
    ensures TripOk(SampleTrip(), SampleEnv())
    ensures ApplyEdit(SampleTrip(), SampleEnv(), 5, AddOne(1, 1)) == Success(after)
    ensures Accepted(SampleTrip(), SampleEnv(), AddOne(1, 1), draft, after)
    ensures StopIds(draft.scheduled) == [1, 2]
  {
    hide DraftFor, PlanFromScheduled, Stored, StampAll, Acceptable, EditedPlans, DayTimeline, BlockingErrors,
        Validation, TripOk;
    SampleOk();
    var hops;
    draft, hops := SampleDraft();
    var plan := PlanFromScheduled(draft.scheduled, draft.legs);
    SamplePasses(draft, hops);
    PassesIffAcceptable([plan], Never);
    SampleDays(plan);
    NothingBlocks(plan);
    after := Stored(SampleTrip(), AddOne(1, 1), draft);
    StampedReadable(Stops([1, 2]), DayTimeline(Durations(Stops([1, 2])), hops));
    StopsIds([1, 2]);
  }

  /**
   * An add does not always keep the other stops. The viewpoints 2 and 3 are on the day; adding viewpoint 1 is
   * accepted, and leaves 1 and 2: stop 3 is gone.
   */
  lemma AddLosesAStop()
    ensures TripOk(SampleTrip(), SampleEnv())
    ensures
      var result := ApplyEdit(SampleTrip(), SampleEnv(), 5, AddOne(1, 1));
      && result.Success?
      && DayIds(SampleTrip().rows, 1) == [2, 3]
      && DayIds(result.value.rows, 1) == [1, 2]
  {
    hide ApplyEdit, Accepted, SampleTrip, SampleEnv, DayRows, TripOk;
    var draft, after := SampleAccepted();
    AcceptedDay(SampleTrip(), SampleEnv(), AddOne(1, 1), draft, after);
    SampleDay();
  }

  lemma NothingBlocks(plan: DayPlan)
    requires Validation([plan], Never).Some? && Validation([plan], Never).value.passed
    requires EditedPlans(SampleTrip().rows, 1, plan, SampleEnv().catalog) == [plan]
    ensures BlockingErrors(SampleTrip().rows, 1, plan, AddStop, SampleEnv()) == Some([])
  {
    hide EditedPlans, MorningErrors, GeoErrors, AnchorErrors, NoRepeatErrors, TravelCapErrors;
  }
}
