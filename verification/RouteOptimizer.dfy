/** Ordering one day's stops for minimum travel, dropping the lowest-scored stop while over budget. */
module RouteOptimizer {
  import opened Ordering
  import opened TravelRules
  import opened Protocols
  import Permutations

  const MISSING_LEG_PENALTY := 1_000_000_000

  datatype DroppedStop = DroppedStop(placeId: PlaceId, name: string)

  datatype OptimizeResult = OptimizeResult(
    ordered: seq<ScoredPlace>,
    legs: seq<RouteLeg>,
    totalTravelMin: int,
    droppedStops: seq<DroppedStop>,
    stillOverBudget: bool,
    legPolylines: seq<Option<string>>,
    dayPolyline: Option<string>)

  const EMPTY_RESULT := OptimizeResult([], [], 0, [], false, [], None)

  function LegDuration(lookup: Lookup, fromId: PlaceId, toId: PlaceId): int {
    if (fromId, toId) in lookup then lookup[(fromId, toId)].durationMin else MISSING_LEG_PENALTY
  }

  /** Travel along a chain of stops when arriving from `fromId`. */
  function ChainTravel(fromId: PlaceId, order: seq<ScoredPlace>, lookup: Lookup): int
    decreases |order|
  {
    if order == [] then 0
    else LegDuration(lookup, fromId, order[0].place.id) + ChainTravel(order[0].place.id, order[1..], lookup)
  }

  function Travel(order: seq<ScoredPlace>, lookup: Lookup): int {
    ChainTravel(BASE_SENTINEL_ID, order, lookup)
  }

  method ScoreOrder(order: seq<ScoredPlace>, lookup: Lookup) returns (total: int)
    ensures total == Travel(order, lookup)
  {
    if order == [] {
      return 0;
    }
    total := LegDuration(lookup, BASE_SENTINEL_ID, order[0].place.id);
    for i := 0 to |order| - 1
      invariant total + ChainTravel(order[i].place.id, order[i + 1..], lookup) == Travel(order, lookup)
    {
      assert order[i + 1..][0] == order[i + 1] && order[i + 1..][1..] == order[i + 2..];
      total := total + LegDuration(lookup, order[i].place.id, order[i + 1].place.id);
    }
  }

  // ----- The search over permutations

  /** (total travel, id tuple): the pair the search minimizes. */
  ghost predicate NoWorse(p: seq<ScoredPlace>, q: seq<ScoredPlace>, lookup: Lookup) {
    || Travel(p, lookup) < Travel(q, lookup)
    || (Travel(p, lookup) == Travel(q, lookup) && LexLe(Ids(p), Ids(q)))
  }

  predicate Replaces(p: seq<ScoredPlace>, best: seq<ScoredPlace>, lookup: Lookup) {
    || Travel(p, lookup) < Travel(best, lookup)
    || (Travel(p, lookup) == Travel(best, lookup) && LexLe(Ids(p), Ids(best)) && Ids(p) != Ids(best))
  }

  /** What the search is left with after looking at `perms` from left to right. */
  function BestOf(perms: seq<seq<ScoredPlace>>, lookup: Lookup): seq<ScoredPlace>
    requires perms != []
  {
    var last := perms[|perms| - 1];
    if |perms| == 1 then last
    else
      var best := BestOf(perms[..|perms| - 1], lookup);
      if Replaces(last, best, lookup) then last else best
  }

  function BestOrder(remaining: seq<ScoredPlace>, lookup: Lookup): seq<ScoredPlace> {
    if remaining == [] then []
    else
      Permutations.SomePermutation(remaining);
      BestOf(Permutations.Permutations(remaining), lookup)
  }

  method FindBestOrder(remaining: seq<ScoredPlace>, lookup: Lookup) returns (best: seq<ScoredPlace>, total: int)
    ensures best == BestOrder(remaining, lookup)
    ensures total == Travel(best, lookup)
  {
    if remaining == [] {
      return [], 0;
    }
    Permutations.SomePermutation(remaining);
    var perms := Permutations.Permutations(remaining);
    best := perms[0];
    total := ScoreOrder(best, lookup);
    var bestIds := Ids(best);
    for k := 1 to |perms|
      invariant best == BestOf(perms[..k], lookup)
      invariant total == Travel(best, lookup) && bestIds == Ids(best)
    {
      var score := ScoreOrder(perms[k], lookup);
      var ids := Ids(perms[k]);
      assert perms[..k + 1][..k] == perms[..k];
      if score < total || (score == total && LexLe(ids, bestIds) && ids != bestIds) {
        best, total, bestIds := perms[k], score, ids;
      }
    }
    assert perms[..|perms|] == perms;
  }

  lemma NoWorseTransitive(p: seq<ScoredPlace>, q: seq<ScoredPlace>, r: seq<ScoredPlace>, lookup: Lookup)
    requires NoWorse(p, q, lookup) && NoWorse(q, r, lookup)
    ensures NoWorse(p, r, lookup)
  {
    if Travel(p, lookup) == Travel(q, lookup) == Travel(r, lookup) {
      LexLeTransitive(Ids(p), Ids(q), Ids(r));
    }
  }

  lemma {:induction false} BestOfIsLeast(perms: seq<seq<ScoredPlace>>, lookup: Lookup, p: seq<ScoredPlace>)
    requires p in perms
    ensures BestOf(perms, lookup) in perms
    ensures NoWorse(BestOf(perms, lookup), p, lookup)
  {
    var front, last := perms[..|perms| - 1], perms[|perms| - 1];
    LexLeTotal(Ids(p), Ids(p));
    if |perms| > 1 {
      var best := BestOf(front, lookup);
      BestOfIsLeast(front, lookup, front[0]);
      LexLeTotal(Ids(last), Ids(best));
      LexLeTotal(Ids(last), Ids(last));
      if p in front {
        BestOfIsLeast(front, lookup, p);
        if Replaces(last, best, lookup) {
          NoWorseTransitive(last, best, p, lookup);
        }
      }
    }
  }

  /** The search returns an arrangement of the stops that is least among ALL arrangements. */
  lemma BestOrderOptimal(remaining: seq<ScoredPlace>, lookup: Lookup, p: seq<ScoredPlace>)
    requires multiset(p) == multiset(remaining)
    ensures multiset(BestOrder(remaining, lookup)) == multiset(remaining)
    ensures Travel(BestOrder(remaining, lookup), lookup) <= Travel(p, lookup)
    ensures NoWorse(BestOrder(remaining, lookup), p, lookup)
  {
    if remaining == [] {
      assert |multiset(p)| == 0 && p == [];
      LexLeTotal(Ids(p), Ids(p));
    } else {
      Permutations.Complete(remaining, p);
      BestOfIsLeast(Permutations.Permutations(remaining), lookup, p);
      Permutations.Sound(remaining, BestOrder(remaining, lookup));
    }
  }

  lemma SameIdsSameOrder(a: seq<ScoredPlace>, b: seq<ScoredPlace>)
    requires DistinctStops(a) && multiset(a) == multiset(b) && Ids(a) == Ids(b)
    ensures a == b
  {
    assert |a| == |Ids(a)| == |b|;
    forall i | 0 <= i < |a| ensures a[i] == b[i] {
      assert b[i] in multiset(b) && b[i] in multiset(a);
      var j :| 0 <= j < |a| && a[j] == b[i];
      assert Ids(a)[i] == Ids(b)[i];
      assert i == j;
    }
  }

  /** The least arrangement is unique when ids are distinct: an independent description of the search. */
  lemma BestOrderUnique(remaining: seq<ScoredPlace>, lookup: Lookup, p: seq<ScoredPlace>)
    requires DistinctStops(remaining) && multiset(p) == multiset(remaining)
    requires forall q | multiset(q) == multiset(remaining) :: NoWorse(p, q, lookup)
    ensures p == BestOrder(remaining, lookup)
  {
    var best := BestOrder(remaining, lookup);
    BestOrderOptimal(remaining, lookup, p);
    assert NoWorse(p, best, lookup);
    LexLeAntisymmetric(Ids(p), Ids(best));
    DistinctPermuted(remaining, p);
    SameIdsSameOrder(p, best);
  }

  /** So the order the stops arrive in does not matter. */
  lemma BestOrderInputIndependent(a: seq<ScoredPlace>, b: seq<ScoredPlace>, lookup: Lookup)
    requires DistinctStops(a) && multiset(a) == multiset(b)
    ensures BestOrder(a, lookup) == BestOrder(b, lookup)
  {
    forall q | multiset(q) == multiset(a) ensures NoWorse(BestOrder(b, lookup), q, lookup) {
      BestOrderOptimal(b, lookup, q);
    }
    BestOrderOptimal(b, lookup, a);
    BestOrderUnique(a, lookup, BestOrder(b, lookup));
  }

  // ----- The drop loop

  /** The key of `_pick_lowest_scored`: (score, name, id), compared strictly. */
  predicate LowerScored(a: ScoredPlace, b: ScoredPlace) {
    || a.score < b.score
    || (a.score == b.score && a.place.name != b.place.name && LexLe(CodePoints(a.place.name), CodePoints(b.place.name)))
    || (a.score == b.score && a.place.name == b.place.name && a.place.id < b.place.id)
  }

  function LowestScored(remaining: seq<ScoredPlace>): ScoredPlace
    requires remaining != []
  {
    var last := remaining[|remaining| - 1];
    if |remaining| == 1 then last
    else
      var lowest := LowestScored(remaining[..|remaining| - 1]);
      if LowerScored(last, lowest) then last else lowest
  }

  function Without(stops: seq<ScoredPlace>, id: PlaceId): seq<ScoredPlace> {
    if stops == [] then []
    else (if stops[0].place.id != id then [stops[0]] else []) + Without(stops[1..], id)
  }

  function Dropped(victims: seq<ScoredPlace>): seq<DroppedStop> {
    seq(|victims|, i requires 0 <= i < |victims| => DroppedStop(victims[i].place.id, victims[i].place.name))
  }

  function Coordinates(stops: seq<ScoredPlace>, baseLat: real, baseLng: real): seq<(real, real)> {
    [(baseLat, baseLng)] + seq(|stops|, i requires 0 <= i < |stops| => (stops[i].place.lat, stops[i].place.lng))
  }

  function LegPolylines(ordered: seq<ScoredPlace>, baseLat: real, baseLng: real,
                        routing: Routing): seq<Option<string>> {
    var points := Coordinates(ordered, baseLat, baseLng);
    seq(|ordered|, i requires 0 <= i < |ordered| => routing.routePolyline(points[i..i + 2]))
  }

  function DayPolyline(ordered: seq<ScoredPlace>, baseLat: real, baseLng: real, routing: Routing): Option<string> {
    if ordered == [] then None else routing.routePolyline(Coordinates(ordered, baseLat, baseLng))
  }

  method PopulateLegPolylines(ordered: seq<ScoredPlace>, baseLat: real, baseLng: real, routing: Routing)
    returns (legs: seq<Option<string>>, day: Option<string>)
    ensures legs == LegPolylines(ordered, baseLat, baseLng, routing)
    ensures day == DayPolyline(ordered, baseLat, baseLng, routing)
  {
    if ordered == [] {
      return [], None;
    }
    var points := Coordinates(ordered, baseLat, baseLng);
    legs := [];
    for i := 0 to |ordered|
      invariant legs == LegPolylines(ordered, baseLat, baseLng, routing)[..i]
    {
      legs := legs + [routing.routePolyline(points[i..i + 2])];
    }
    day := routing.routePolyline(points);
  }

  function Finish(ordered: seq<ScoredPlace>, legs: seq<RouteLeg>, dropped: seq<DroppedStop>, stillOver: bool,
                  baseLat: real, baseLng: real, routing: Routing): OptimizeResult
  {
    OptimizeResult(ordered, legs, if ordered == [] then 0 else Travel(ordered, LegsToLookup(legs)), dropped, stillOver,
                   LegPolylines(ordered, baseLat, baseLng, routing), DayPolyline(ordered, baseLat, baseLng, routing))
  }

  function Matrix(stops: seq<ScoredPlace>, baseLat: real, baseLng: real, routing: Routing): seq<RouteLeg> {
    routing.travelMatrix(WaypointsFor(stops, baseLat, baseLng))
  }

  /** Least travel over all arrangements of `stops`, with the legs the provider gives for them. */
  function BestTravel(stops: seq<ScoredPlace>, baseLat: real, baseLng: real, routing: Routing): int {
    var lookup := LegsToLookup(Matrix(stops, baseLat, baseLng, routing));
    Travel(BestOrder(stops, lookup), lookup)
  }

  function OptimizeFrom(remaining: seq<ScoredPlace>, dropped: seq<DroppedStop>, drops: nat,
                        baseLat: real, baseLng: real, routing: Routing): OptimizeResult
    requires drops <= MAX_ROUTE_DROP_ATTEMPTS
    decreases MAX_ROUTE_DROP_ATTEMPTS - drops
  {
    var legs := Matrix(remaining, baseLat, baseLng, routing);
    var ordered := BestOrder(remaining, LegsToLookup(legs));
    var underBudget := Travel(ordered, LegsToLookup(legs)) <= MAX_DAILY_TRAVEL_MIN;
    if underBudget || |remaining| <= 1 then
      Finish(ordered, legs, dropped, ordered != [] && !underBudget, baseLat, baseLng, routing)
    else if drops >= MAX_ROUTE_DROP_ATTEMPTS then
      Finish(ordered, legs, dropped, true, baseLat, baseLng, routing)
    else
      var victim := LowestScored(remaining);
      OptimizeFrom(Without(remaining, victim.place.id), dropped + Dropped([victim]), drops + 1,
                   baseLat, baseLng, routing)
  }

  function OptimizedRoute(dayPlaces: seq<ScoredPlace>, baseLat: real, baseLng: real, routing: Routing): OptimizeResult {
    if dayPlaces == [] then EMPTY_RESULT else OptimizeFrom(dayPlaces, [], 0, baseLat, baseLng, routing)
  }

  method OptimizeRoute(dayPlaces: seq<ScoredPlace>, baseLat: real, baseLng: real, routing: Routing)
    returns (result: OptimizeResult)
    ensures result == OptimizedRoute(dayPlaces, baseLat, baseLng, routing)
  {
    if dayPlaces == [] {
      return EMPTY_RESULT;
    }
    var remaining := dayPlaces;
    var dropped := [];
    var drops := 0;
    while true
      invariant drops <= MAX_ROUTE_DROP_ATTEMPTS
      invariant OptimizeFrom(remaining, dropped, drops, baseLat, baseLng, routing)
             == OptimizedRoute(dayPlaces, baseLat, baseLng, routing)
      decreases MAX_ROUTE_DROP_ATTEMPTS - drops
    {
      var legs := routing.travelMatrix(WaypointsFor(remaining, baseLat, baseLng));
      var ordered, total := FindBestOrder(remaining, LegsToLookup(legs));
      var underBudget := total <= MAX_DAILY_TRAVEL_MIN;
      if underBudget || |remaining| <= 1 {
        var legPolylines, dayPolyline := PopulateLegPolylines(ordered, baseLat, baseLng, routing);
        return OptimizeResult(ordered, legs, if ordered == [] then 0 else total, dropped, ordered != [] && !underBudget,
                              legPolylines, dayPolyline);
      }
      if drops >= MAX_ROUTE_DROP_ATTEMPTS {
        var legPolylines, dayPolyline := PopulateLegPolylines(ordered, baseLat, baseLng, routing);
        return OptimizeResult(ordered, legs, if ordered == [] then 0 else total, dropped, true,
                              legPolylines, dayPolyline);
      }
      var victim := LowestScored(remaining);
      remaining := Without(remaining, victim.place.id);
      dropped := dropped + [DroppedStop(victim.place.id, victim.place.name)];
      assert dropped == dropped[..|dropped| - 1] + Dropped([victim]);
      drops := drops + 1;
    }
  }

  // ----- What the loop achieves

  /** The stops left, and the stops taken out, after dropping the lowest-scored stop k times. */
  function AfterDrops(day: seq<ScoredPlace>, k: nat): seq<ScoredPlace> {
    if k == 0 then day
    else
      var before := AfterDrops(day, k - 1);
      if before == [] then [] else Without(before, LowestScored(before).place.id)
  }

  function Victims(day: seq<ScoredPlace>, k: nat): seq<ScoredPlace> {
    if k == 0 then []
    else
      var before := AfterDrops(day, k - 1);
      Victims(day, k - 1) + if before == [] then [] else [LowestScored(before)]
  }

  lemma LowerScoredTotal(a: ScoredPlace, b: ScoredPlace)
    requires a.place.id != b.place.id
    ensures LowerScored(a, b) || LowerScored(b, a)
  {
    LexLeTotal(CodePoints(a.place.name), CodePoints(b.place.name));
  }

  lemma LowerScoredTransitive(a: ScoredPlace, b: ScoredPlace, c: ScoredPlace)
    requires LowerScored(a, b) && !LowerScored(c, b)
    ensures LowerScored(a, c)
  {
    var an, bn, cn := CodePoints(a.place.name), CodePoints(b.place.name), CodePoints(c.place.name);
    LexLeTotal(bn, cn);
    if LexLe(an, bn) && LexLe(bn, cn) {
      LexLeTransitive(an, bn, cn);
    }
    if LexLe(an, bn) && an == cn && b.place.name != c.place.name && LexLe(bn, cn) {
      LexLeAntisymmetric(an, bn);
      CodePointsInjective(a.place.name, b.place.name);
    }
    if an == cn {
      CodePointsInjective(a.place.name, c.place.name);
    }
  }

  lemma {:induction false} LowestScoredIsLeast(s: seq<ScoredPlace>, p: ScoredPlace)
    requires p in s
    ensures LowestScored(s) in s && !LowerScored(p, LowestScored(s))
  {
    var front, last := s[..|s| - 1], s[|s| - 1];
    if |s| > 1 {
      var lowest := LowestScored(front);
      LowestScoredIsLeast(front, front[0]);
      if p in front {
        LowestScoredIsLeast(front, p);
        if LowerScored(last, lowest) && LowerScored(p, last) {
          LowerScoredAsymmetric(last, lowest);
          LowerScoredTransitive(p, last, lowest);
        }
      }
    }
  }

  lemma LowerScoredAsymmetric(a: ScoredPlace, b: ScoredPlace)
    requires LowerScored(a, b)
    ensures !LowerScored(b, a)
  {
    if LowerScored(b, a) && a.place.name != b.place.name {
      LexLeAntisymmetric(CodePoints(a.place.name), CodePoints(b.place.name));
      CodePointsInjective(a.place.name, b.place.name);
    }
  }

  lemma {:induction false} WithoutAbsent(s: seq<ScoredPlace>, id: PlaceId)
    requires forall i | 0 <= i < |s| :: s[i].place.id != id
    ensures Without(s, id) == s
  {
    if s != [] {
      WithoutAbsent(s[1..], id);
    }
  }

  lemma {:induction false} WithoutOne(s: seq<ScoredPlace>, x: ScoredPlace)
    requires DistinctStops(s) && x in s
    ensures multiset(s) == multiset{x} + multiset(Without(s, x.place.id))
    ensures |Without(s, x.place.id)| == |s| - 1
    ensures x !in Without(s, x.place.id)
  {
    assert s == [s[0]] + s[1..];
    if s[0] == x {
      forall i | 0 <= i < |s[1..]| ensures s[1..][i].place.id != x.place.id {
        assert s[1..][i] == s[i + 1];
      }
      WithoutAbsent(s[1..], x.place.id);
    } else {
      assert x in s[1..];
      WithoutOne(s[1..], x);
    }
  }

  /** `victims` are the lowest-scored stops of the day by (score, name, id), in ascending order. */
  ghost predicate AscendingLowest(victims: seq<ScoredPlace>, kept: seq<ScoredPlace>) {
    && (forall i, j | 0 <= i < j < |victims| :: LowerScored(victims[i], victims[j]))
    && (forall v, p | v in victims && p in kept :: LowerScored(v, p))
  }

  /** `victims`, k of them, and `kept` partition the day. */
  ghost predicate Partition(day: seq<ScoredPlace>, victims: seq<ScoredPlace>, kept: seq<ScoredPlace>, k: nat) {
    && |victims| == k
    && multiset(day) == multiset(victims) + multiset(kept)
    && |day| == |victims| + |kept|
    && DistinctStops(kept)
  }

  lemma DropOne(day: seq<ScoredPlace>, earlier: seq<ScoredPlace>, before: seq<ScoredPlace>, k: nat)
    requires before != [] && Partition(day, earlier, before, k) && AscendingLowest(earlier, before)
    ensures
      var victim := LowestScored(before);
      var after := Without(before, victim.place.id);
      Partition(day, earlier + [victim], after, k + 1) && AscendingLowest(earlier + [victim], after)
  {
    var victim := LowestScored(before);
    var after := Without(before, victim.place.id);
    LowestScoredIsLeast(before, before[0]);
    WithoutOne(before, victim);
    DistinctPermuted(before, after);
    forall p | p in after ensures p in before && LowerScored(victim, p) {
      assert p in multiset(after) && p in multiset(before);
      LowestScoredIsLeast(before, p);
      assert p != victim;
      LowerScoredTotal(p, victim);
    }
  }

  /** k drops split the day in two, the victims being the k lowest-scored stops. */
  lemma {:induction false} DropsSplitDay(day: seq<ScoredPlace>, k: nat)
    requires DistinctStops(day) && k < |day|
    ensures Partition(day, Victims(day, k), AfterDrops(day, k), k)
    ensures AscendingLowest(Victims(day, k), AfterDrops(day, k))
  {
    if k > 0 {
      DropsSplitDay(day, k - 1);
      DropOne(day, Victims(day, k - 1), AfterDrops(day, k - 1), k - 1);
    }
  }

  /** Whether the loop stops after k drops. */
  predicate StopsAt(day: seq<ScoredPlace>, k: nat, baseLat: real, baseLng: real, routing: Routing) {
    var rest := AfterDrops(day, k);
    || BestTravel(rest, baseLat, baseLng, routing) <= MAX_DAILY_TRAVEL_MIN
    || |rest| <= 1
    || k >= MAX_ROUTE_DROP_ATTEMPTS
  }

  /** What the loop returns when it stops after k drops. */
  function StoppedAt(day: seq<ScoredPlace>, k: nat, baseLat: real, baseLng: real, routing: Routing): OptimizeResult {
    var rest := AfterDrops(day, k);
    var legs := Matrix(rest, baseLat, baseLng, routing);
    Finish(BestOrder(rest, LegsToLookup(legs)), legs, Dropped(Victims(day, k)),
           BestTravel(rest, baseLat, baseLng, routing) > MAX_DAILY_TRAVEL_MIN, baseLat, baseLng, routing)
  }

  lemma LoopStops(day: seq<ScoredPlace>, k: nat, baseLat: real, baseLng: real, routing: Routing)
    requires DistinctStops(day) && k < |day| && k <= MAX_ROUTE_DROP_ATTEMPTS
    requires StopsAt(day, k, baseLat, baseLng, routing)
    ensures OptimizeFrom(AfterDrops(day, k), Dropped(Victims(day, k)), k, baseLat, baseLng, routing)
         == StoppedAt(day, k, baseLat, baseLng, routing)
  {
    DropsSplitDay(day, k);
    var rest := AfterDrops(day, k);
    var lookup := LegsToLookup(Matrix(rest, baseLat, baseLng, routing));
    BestOrderOptimal(rest, lookup, rest);
    assert |multiset(BestOrder(rest, lookup))| == |BestOrder(rest, lookup)|;
  }

  lemma DroppedAppend(victims: seq<ScoredPlace>, victim: ScoredPlace)
    ensures Dropped(victims + [victim]) == Dropped(victims) + Dropped([victim])
  {
  }

  lemma LoopContinues(day: seq<ScoredPlace>, k: nat, baseLat: real, baseLng: real, routing: Routing)
    requires k < MAX_ROUTE_DROP_ATTEMPTS
    requires !StopsAt(day, k, baseLat, baseLng, routing)
    ensures OptimizeFrom(AfterDrops(day, k), Dropped(Victims(day, k)), k, baseLat, baseLng, routing)
         == OptimizeFrom(AfterDrops(day, k + 1), Dropped(Victims(day, k + 1)), k + 1, baseLat, baseLng, routing)
  {
    DroppedAppend(Victims(day, k), LowestScored(AfterDrops(day, k)));
  }

  lemma {:induction false} LoopLength(day: seq<ScoredPlace>, drops: nat, baseLat: real, baseLng: real, routing: Routing)
    returns (k: nat)
    requires DistinctStops(day) && drops < |day| && drops <= MAX_ROUTE_DROP_ATTEMPTS
    ensures drops <= k < |day| && k <= MAX_ROUTE_DROP_ATTEMPTS
    ensures StopsAt(day, k, baseLat, baseLng, routing)
    ensures forall j | drops <= j < k :: !StopsAt(day, j, baseLat, baseLng, routing)
    decreases MAX_ROUTE_DROP_ATTEMPTS - drops
  {
    hide BestTravel, Victims;
    if StopsAt(day, drops, baseLat, baseLng, routing) {
      k := drops;
    } else {
      DropsSplitDay(day, drops);
      k := LoopLength(day, drops + 1, baseLat, baseLng, routing);
    }
  }

  lemma {:induction false} LoopRuns(day: seq<ScoredPlace>, drops: nat, k: nat, baseLat: real, baseLng: real,
                                    routing: Routing)
    requires DistinctStops(day) && drops <= k < |day| && k <= MAX_ROUTE_DROP_ATTEMPTS
    requires StopsAt(day, k, baseLat, baseLng, routing)
    requires forall j | drops <= j < k :: !StopsAt(day, j, baseLat, baseLng, routing)
    ensures OptimizeFrom(AfterDrops(day, drops), Dropped(Victims(day, drops)), drops, baseLat, baseLng, routing)
         == StoppedAt(day, k, baseLat, baseLng, routing)
    decreases k - drops
  {
    hide OptimizeFrom, StoppedAt, StopsAt, AfterDrops, Victims;
    if drops == k {
      LoopStops(day, k, baseLat, baseLng, routing);
    } else {
      LoopContinues(day, drops, baseLat, baseLng, routing);
      LoopRuns(day, drops + 1, k, baseLat, baseLng, routing);
    }
  }

  /** `ordered` is an arrangement of `stops` that no other arrangement beats. */
  ghost predicate OptimalOrder(ordered: seq<ScoredPlace>, stops: seq<ScoredPlace>, lookup: Lookup) {
    && multiset(ordered) == multiset(stops)
    && forall p | multiset(p) == multiset(stops) :: NoWorse(ordered, p, lookup)
  }

  lemma BestOrderIsOptimal(stops: seq<ScoredPlace>, lookup: Lookup)
    ensures OptimalOrder(BestOrder(stops, lookup), stops, lookup)
    ensures |BestOrder(stops, lookup)| == |stops|
  {
    var best := BestOrder(stops, lookup);
    BestOrderOptimal(stops, lookup, stops);
    assert |multiset(best)| == |best|;
    forall p | multiset(p) == multiset(stops) ensures NoWorse(best, p, lookup) {
      BestOrderOptimal(stops, lookup, p);
    }
  }

  /** Least travel really is least: the cap test in the loop speaks about every arrangement. */
  lemma BestTravelIsLeast(stops: seq<ScoredPlace>, baseLat: real, baseLng: real, routing: Routing, p: seq<ScoredPlace>)
    requires multiset(p) == multiset(stops)
    ensures BestTravel(stops, baseLat, baseLng, routing)
        <= Travel(p, LegsToLookup(Matrix(stops, baseLat, baseLng, routing)))
  {
    BestOrderOptimal(stops, LegsToLookup(Matrix(stops, baseLat, baseLng, routing)), p);
  }

  /**
   * The drop loop is exact. With k stops dropped: they are the k lowest by (score, name, id) in ascending
   * order; together with the ordered stops they are the input; what is left is ordered optimally; every
   * shorter run of drops left more than one stop and no arrangement under the cap; and the loop stops only
   * under the cap, at one stop, or after five drops.
   */
  lemma OptimizeRouteExact(day: seq<ScoredPlace>, baseLat: real, baseLng: real, routing: Routing)
    returns (victims: seq<ScoredPlace>, kept: seq<ScoredPlace>)
    requires DistinctStops(day) && day != []
    ensures
      var r := OptimizedRoute(day, baseLat, baseLng, routing);
      var lookup := LegsToLookup(r.legs);
      && r.droppedStops == Dropped(victims)
      && AscendingLowest(victims, kept)
      && multiset(day) == multiset(victims) + multiset(kept)
      && |kept| == |day| - |victims| > 0 && |victims| <= 5
      && r.legs == Matrix(kept, baseLat, baseLng, routing)
      && OptimalOrder(r.ordered, kept, lookup) && |r.ordered| == |kept|
      && r.totalTravelMin == Travel(r.ordered, lookup)
      && (r.stillOverBudget <==> r.totalTravelMin > 180)
      && (r.totalTravelMin <= 180 || |kept| == 1 || |victims| == 5)
    ensures victims == Victims(day, |victims|) && kept == AfterDrops(day, |victims|)
    ensures forall j | 0 <= j < |victims| ::
              && |AfterDrops(day, j)| > 1
              && BestTravel(AfterDrops(day, j), baseLat, baseLng, routing) > 180
  {
    assert Dropped(Victims(day, 0)) == [];
    var k := LoopLength(day, 0, baseLat, baseLng, routing);
    LoopRuns(day, 0, k, baseLat, baseLng, routing);
    victims, kept := Victims(day, k), AfterDrops(day, k);
    DropsSplitDay(day, k);
    BestOrderIsOptimal(kept, LegsToLookup(Matrix(kept, baseLat, baseLng, routing)));
    forall j | 0 <= j < k ensures |AfterDrops(day, j)| > 1
      && BestTravel(AfterDrops(day, j), baseLat, baseLng, routing) > MAX_DAILY_TRAVEL_MIN {
      assert !StopsAt(day, j, baseLat, baseLng, routing);
    }
  }

  /** `a` ranks below `b`: by score, then by name as code points, then by id. */
  predicate RanksBelow(a: ScoredPlace, b: ScoredPlace) {
    && a.score <= b.score
    && (a.score == b.score && a.place.name != b.place.name ==>
          LexLe(CodePoints(a.place.name), CodePoints(b.place.name)))
    && (a.score == b.score && a.place.name == b.place.name ==> a.place.id < b.place.id)
  }

  lemma AscendingMeans(victims: seq<ScoredPlace>, kept: seq<ScoredPlace>)
    requires AscendingLowest(victims, kept)
    ensures forall v, p | v in victims && p in kept :: RanksBelow(v, p)
    ensures forall i, j | 0 <= i < j < |victims| :: RanksBelow(victims[i], victims[j])
  {
    hide LexLe, CodePoints;
  }

  /** So every stop dropped ranks below every stop kept, and the drops go up in rank. */
  lemma WorstDropped(day: seq<ScoredPlace>, baseLat: real, baseLng: real, routing: Routing)
    returns (victims: seq<ScoredPlace>, kept: seq<ScoredPlace>)
    requires DistinctStops(day) && day != []
    ensures
      var r := OptimizedRoute(day, baseLat, baseLng, routing);
      && |r.droppedStops| == |victims| && multiset(r.ordered) == multiset(kept)
      && (forall i | 0 <= i < |victims| ::
            r.droppedStops[i].placeId == victims[i].place.id && r.droppedStops[i].name == victims[i].place.name)
      && multiset(day) == multiset(victims) + multiset(kept)
    ensures forall v, p | v in victims && p in kept :: RanksBelow(v, p)
    ensures forall i, j | 0 <= i < j < |victims| :: RanksBelow(victims[i], victims[j])
  {
    hide LowerScored, AscendingLowest, RanksBelow, OptimizedRoute, BestTravel, AfterDrops, Victims, Travel;
    victims, kept := OptimizeRouteExact(day, baseLat, baseLng, routing);
    AscendingMeans(victims, kept);
  }

  /** A day the allocator can produce ends within the travel cap or with a single stop. */
  lemma WithinCapOrSingle(day: seq<ScoredPlace>, baseLat: real, baseLng: real, routing: Routing)
    requires DistinctStops(day) && 0 < |day| <= MAX_PLACES_PER_DAY
    ensures
      var r := OptimizedRoute(day, baseLat, baseLng, routing);
      && r.ordered != []
      && (r.totalTravelMin <= MAX_DAILY_TRAVEL_MIN || |r.ordered| == 1)
      && (r.stillOverBudget ==> |r.ordered| == 1)
  {
    var victims, kept := OptimizeRouteExact(day, baseLat, baseLng, routing);
  }
}
