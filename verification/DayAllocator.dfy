/** Packing scored places into days under three caps, keeping near places together. */
module DayAllocator {
  import opened Ordering
  import opened Sequences
  import opened TravelRules

  /** Great-circle distance in km between two points; only its being a function matters here. */
  type Distance = (real, real, real, real) -> real

  type Day = seq<ScoredPlace>

  type Cluster = c: seq<ScoredPlace> | c != []
    witness [ScoredPlace(PlaceCandidate(1, "", Attraction, 0.0, 0.0), 0.0)]

  function DayVisitMin(day: Day): nat {
    if day == [] then 0
    else DayVisitMin(day[..|day| - 1]) + VisitDurationMin(day[|day| - 1].place.category)
  }

  function MorningCount(day: Day): nat {
    if day == [] then 0
    else MorningCount(day[..|day| - 1]) + if IsMorning(day[|day| - 1]) then 1 else 0
  }

  predicate CanAdd(day: Day, item: ScoredPlace) {
    && |day| < MAX_PLACES_PER_DAY
    && !(IsMorning(item) && MorningCount(day) >= MAX_MORNING_ONLY_PER_DAY)
    && DayVisitMin(day) + VisitDurationMin(item.place.category) <= ACTIVE_DAY_VISIT_BUDGET_MIN
  }

  /** The sort key (-score, name, id). */
  predicate HigherFirst(a: ScoredPlace, b: ScoredPlace) {
    || a.score > b.score
    || (a.score == b.score && a.place.name != b.place.name && LexLe(CodePoints(a.place.name), CodePoints(b.place.name)))
    || (a.score == b.score && a.place.name == b.place.name && a.place.id <= b.place.id)
  }

  function SumOf(stops: seq<ScoredPlace>, f: ScoredPlace -> real): real {
    if stops == [] then 0.0 else f(stops[0]) + SumOf(stops[1..], f)
  }

  function Lat(s: ScoredPlace): real { s.place.lat }

  function Lng(s: ScoredPlace): real { s.place.lng }

  function DistanceToCentroid(cluster: Cluster, item: ScoredPlace, distance: Distance): real {
    var n := |cluster| as real;
    distance(item.place.lat, item.place.lng, SumOf(cluster, Lat) / n, SumOf(cluster, Lng) / n)
  }

  function DistanceToDay(day: Day, item: ScoredPlace, distance: Distance): real {
    if day == [] then CLUSTER_RADIUS_KM else DistanceToCentroid(day, item, distance)
  }

  /** Join the first cluster, from k on, whose centroid is within the radius; else open a new one. */
  function JoinCluster(clusters: seq<Cluster>, k: nat, item: ScoredPlace, distance: Distance): seq<Cluster>
    requires k <= |clusters|
    decreases |clusters| - k
  {
    if k == |clusters| then clusters + [[item]]
    else if DistanceToCentroid(clusters[k], item, distance) <= CLUSTER_RADIUS_KM then
      clusters[k := clusters[k] + [item]]
    else JoinCluster(clusters, k + 1, item, distance)
  }

  function Clusters(ordered: seq<ScoredPlace>, distance: Distance): seq<Cluster> {
    if ordered == [] then []
    else JoinCluster(Clusters(ordered[..|ordered| - 1], distance), 0, ordered[|ordered| - 1], distance)
  }

  function TopScore(cluster: Cluster): real {
    if |cluster| == 1 then cluster[0].score
    else
      var rest := TopScore(cluster[1..]);
      if cluster[0].score > rest then cluster[0].score else rest
  }

  /** The sort key (-top score, -size). */
  predicate BetterCluster(a: Cluster, b: Cluster) {
    TopScore(a) > TopScore(b) || (TopScore(a) == TopScore(b) && |a| >= |b|)
  }

  /** The day with the fewest places, the earliest of them on a tie. */
  function Underfilled(days: seq<Day>): nat
    requires days != []
    ensures Underfilled(days) < |days|
  {
    if |days| == 1 then 0
    else
      var best := Underfilled(days[..|days| - 1]);
      if |days[|days| - 1]| < |days[best]| then |days| - 1 else best
  }

  /** Among the first n days, those that accept the item. */
  function Accepting(days: seq<Day>, item: ScoredPlace, n: nat): (indices: seq<nat>)
    requires n <= |days|
    ensures forall d | d in indices :: d < |days|
  {
    if n == 0 then []
    else Accepting(days, item, n - 1) + if CanAdd(days[n - 1], item) then [n - 1] else []
  }

  /** The sort key (distance to the day, its size, its index). */
  function SpillOrder(days: seq<Day>, item: ScoredPlace, distance: Distance): (nat, nat) -> bool {
    (d: nat, e: nat) =>
      if d < |days| && e < |days| then
        var dd, de := DistanceToDay(days[d], item, distance), DistanceToDay(days[e], item, distance);
        dd < de || (dd == de && (|days[d]| < |days[e]| || (|days[d]| == |days[e]| && d <= e)))
      else true
  }

  function Append(days: seq<Day>, d: nat, item: ScoredPlace): seq<Day>
    requires d < |days|
  {
    days[d := days[d] + [item]]
  }

  function PlaceItem(days: seq<Day>, preferred: nat, item: ScoredPlace, distance: Distance): (placed: seq<Day>)
    requires preferred < |days|
    ensures |placed| == |days|
  {
    if CanAdd(days[preferred], item) then Append(days, preferred, item)
    else
      var candidates := Accepting(days, item, |days|);
      if candidates == [] then days
      else
        var sorted := StableSort(SpillOrder(days, item, distance), candidates);
        SortedFirst(SpillOrder(days, item, distance), candidates);
        Append(days, sorted[0], item)
  }

  lemma SortedFirst<T>(le: (T, T) -> bool, s: seq<T>)
    requires s != []
    ensures StableSort(le, s) != [] && StableSort(le, s)[0] in s
  {
    StableSortPermutes(le, s);
    assert StableSort(le, s)[0] in multiset(StableSort(le, s));
  }

  function PlaceItems(days: seq<Day>, preferred: nat, items: seq<ScoredPlace>, distance: Distance): (placed: seq<Day>)
    requires preferred < |days|
    ensures |placed| == |days|
  {
    if items == [] then days
    else PlaceItem(PlaceItems(days, preferred, items[..|items| - 1], distance), preferred, items[|items| - 1], distance)
  }

  function PlaceClusters(days: seq<Day>, clusters: seq<Cluster>, distance: Distance): (placed: seq<Day>)
    requires days != []
    ensures |placed| == |days|
  {
    if clusters == [] then days
    else
      var before := PlaceClusters(days, clusters[..|clusters| - 1], distance);
      PlaceItems(before, Underfilled(before), StableSort(HigherFirst, clusters[|clusters| - 1]), distance)
  }

  /** The allocation: `days` lists, or None for fewer than one day (a ValueError). */
  function Allocation(selected: seq<ScoredPlace>, days: int, distance: Distance): Option<seq<Day>> {
    if days < 1 then None
    else
      var empty: seq<Day> := seq(days, _ => []);
      var clusters := Clusters(StableSort(HigherFirst, selected), distance);
      Some(PlaceClusters(empty, StableSort(BetterCluster, clusters), distance))
  }

  // ----- The loops

  method BuildClusters(ordered: seq<ScoredPlace>, distance: Distance) returns (clusters: seq<Cluster>)
    ensures clusters == Clusters(ordered, distance)
  {
    clusters := [];
    for i := 0 to |ordered|
      invariant clusters == Clusters(ordered[..i], distance)
    {
      var item := ordered[i];
      ghost var before := clusters;
      assert ordered[..i + 1][..i] == ordered[..i];
      var placed := false;
      var k := 0;
      while k < |clusters| && !placed
        invariant k <= |before|
        invariant !placed ==> clusters == before
        invariant !placed ==> JoinCluster(before, 0, item, distance) == JoinCluster(before, k, item, distance)
        invariant placed ==> clusters == JoinCluster(before, 0, item, distance)
        decreases |before| - k, if placed then 0 else 1
      {
        if DistanceToCentroid(clusters[k], item, distance) <= CLUSTER_RADIUS_KM {
          clusters := clusters[k := clusters[k] + [item]];
          placed := true;
        } else {
          k := k + 1;
        }
      }
      if !placed {
        clusters := clusters + [[item]];
      }
    }
    assert ordered[..|ordered|] == ordered;
  }

  method AllocateDays(selected: seq<ScoredPlace>, days: int, distance: Distance) returns (result: Option<seq<Day>>)
    ensures result == Allocation(selected, days, distance)
  {
    if days < 1 {
      return None;
    }
    hide Clusters, PlaceItems, Underfilled, BetterCluster, HigherFirst;
    var dayLists: seq<Day> := seq(days, _ => []);
    ghost var empty := dayLists;
    if selected == [] {
      return Some(dayLists);
    }
    var clusters := BuildClusters(StableSort(HigherFirst, selected), distance);
    clusters := StableSort(BetterCluster, clusters);
    for c := 0 to |clusters|
      invariant dayLists == PlaceClusters(empty, clusters[..c], distance)
    {
      assert clusters[..c + 1][..c] == clusters[..c];
      dayLists := AllocateCluster(dayLists, clusters[c], distance);
    }
    assert clusters[..|clusters|] == clusters;
    return Some(dayLists);
  }

  method AllocateCluster(before: seq<Day>, cluster: Cluster, distance: Distance) returns (dayLists: seq<Day>)
    requires before != []
    ensures dayLists == PlaceItems(before, Underfilled(before), StableSort(HigherFirst, cluster), distance)
  {
    dayLists := before;
    var preferred := Underfilled(before);
    var items := StableSort(HigherFirst, cluster);
    for i := 0 to |items|
      invariant dayLists == PlaceItems(before, preferred, items[..i], distance)
    {
      var item := items[i];
      assert items[..i + 1][..i] == items[..i];
      if CanAdd(dayLists[preferred], item) {
        dayLists := Append(dayLists, preferred, item);
      } else {
        var candidates := Accepting(dayLists, item, |dayLists|);
        if candidates != [] {
          SortedFirst(SpillOrder(dayLists, item, distance), candidates);
          candidates := StableSort(SpillOrder(dayLists, item, distance), candidates);
          dayLists := Append(dayLists, candidates[0], item);
        }
      }
    }
    assert items[..|items|] == items;
  }

  // ----- What the allocation guarantees

  function Flatten<T>(lists: seq<seq<T>>): seq<T> {
    if lists == [] then [] else lists[0] + Flatten(lists[1..])
  }

  ghost predicate WithinCaps(day: Day) {
    && |day| <= MAX_PLACES_PER_DAY
    && MorningCount(day) <= MAX_MORNING_ONLY_PER_DAY
    && DayVisitMin(day) <= ACTIVE_DAY_VISIT_BUDGET_MIN
  }

  ghost predicate AllWithinCaps(days: seq<Day>) {
    forall d | 0 <= d < |days| :: WithinCaps(days[d])
  }

  /** No day has room for the item. */
  ghost predicate FitsNowhere(days: seq<Day>, item: ScoredPlace) {
    forall d | 0 <= d < |days| :: !CanAdd(days[d], item)
  }

  ghost predicate NoneFits(days: seq<Day>, items: seq<ScoredPlace>) {
    forall p | p in items :: FitsNowhere(days, p)
  }

  /** `processed` went into the days or was omitted, and nothing omitted would fit now. */
  ghost predicate Packed(days: seq<Day>, omitted: seq<ScoredPlace>, processed: multiset<ScoredPlace>) {
    && AllWithinCaps(days)
    && multiset(Flatten(days)) + multiset(omitted) == processed
    && NoneFits(days, omitted)
  }

  lemma {:induction false} FlattenAppend(days: seq<Day>, d: nat, item: ScoredPlace)
    requires d < |days|
    ensures multiset(Flatten(Append(days, d, item))) == multiset(Flatten(days)) + multiset{item}
    ensures |Flatten(Append(days, d, item))| == |Flatten(days)| + 1
  {
    var after := Append(days, d, item);
    if d == 0 {
      assert after[1..] == days[1..];
    } else {
      FlattenAppend(days[1..], d - 1, item);
      assert after[1..] == Append(days[1..], d - 1, item);
    }
  }

  lemma AppendCaps(day: Day, item: ScoredPlace)
    requires CanAdd(day, item) && WithinCaps(day)
    ensures WithinCaps(day + [item])
  {
    assert (day + [item])[..|day|] == day;
  }

  /** A day that has grown accepts no more than before. */
  lemma CanAddAntitone(day: Day, item: ScoredPlace, p: ScoredPlace)
    requires CanAdd(day + [item], p)
    ensures CanAdd(day, p)
  {
    assert (day + [item])[..|day|] == day;
  }

  lemma AppendPacked(days: seq<Day>, omitted: seq<ScoredPlace>, processed: multiset<ScoredPlace>, d: nat,
                     item: ScoredPlace)
    requires Packed(days, omitted, processed) && d < |days| && CanAdd(days[d], item)
    ensures Packed(Append(days, d, item), omitted, processed + multiset{item})
  {
    var after := Append(days, d, item);
    FlattenAppend(days, d, item);
    AppendCaps(days[d], item);
    forall p | p in omitted ensures FitsNowhere(after, p) {
      assert FitsNowhere(days, p);
      forall e | 0 <= e < |after| ensures !CanAdd(after[e], p) {
        if CanAdd(after[e], p) && e == d {
          CanAddAntitone(days[d], item, p);
        }
      }
    }
  }

  lemma {:induction false} AcceptingExactly(days: seq<Day>, item: ScoredPlace, n: nat)
    requires n <= |days|
    ensures forall d | 0 <= d < |days| :: d in Accepting(days, item, n) <==> d < n && CanAdd(days[d], item)
  {
    if n > 0 {
      AcceptingExactly(days, item, n - 1);
    }
  }

  lemma PlaceItemPacked(days: seq<Day>, omitted: seq<ScoredPlace>, processed: multiset<ScoredPlace>,
                        preferred: nat, item: ScoredPlace, distance: Distance)
    returns (stillOmitted: seq<ScoredPlace>)
    requires Packed(days, omitted, processed) && preferred < |days|
    ensures Packed(PlaceItem(days, preferred, item, distance), stillOmitted, processed + multiset{item})
  {
    stillOmitted := omitted;
    if CanAdd(days[preferred], item) {
      AppendPacked(days, omitted, processed, preferred, item);
    } else {
      var candidates := Accepting(days, item, |days|);
      AcceptingExactly(days, item, |days|);
      if candidates == [] {
        stillOmitted := omitted + [item];
        assert FitsNowhere(days, item);
      } else {
        var order := SpillOrder(days, item, distance);
        SortedFirst(order, candidates);
        AppendPacked(days, omitted, processed, StableSort(order, candidates)[0], item);
      }
    }
  }

  lemma {:induction false} PlaceItemsPacked(days: seq<Day>, omitted: seq<ScoredPlace>, processed: multiset<ScoredPlace>,
                                            preferred: nat, items: seq<ScoredPlace>, distance: Distance)
    returns (stillOmitted: seq<ScoredPlace>)
    requires Packed(days, omitted, processed) && preferred < |days|
    ensures Packed(PlaceItems(days, preferred, items, distance), stillOmitted, processed + multiset(items))
  {
    if items == [] {
      stillOmitted := omitted;
    } else {
      var front, last := items[..|items| - 1], items[|items| - 1];
      var before := PlaceItemsPacked(days, omitted, processed, preferred, front, distance);
      stillOmitted := PlaceItemPacked(PlaceItems(days, preferred, front, distance), before, processed + multiset(front),
                                      preferred, last, distance);
      MultisetSnoc(items);
    }
  }

  lemma {:induction false} FlattenSnoc<T>(lists: seq<seq<T>>, last: seq<T>)
    ensures Flatten(lists + [last]) == Flatten(lists) + last
  {
    if lists == [] {
      assert lists + [last] == [last];
    } else {
      FlattenSnoc(lists[1..], last);
      assert (lists + [last])[1..] == lists[1..] + [last];
    }
  }

  lemma {:induction false} PlaceClustersPacked(days: seq<Day>, clusters: seq<Cluster>, distance: Distance)
    returns (omitted: seq<ScoredPlace>)
    requires days != [] && Packed(days, [], multiset{})
    ensures Packed(PlaceClusters(days, clusters, distance), omitted, multiset(Flatten(clusters)))
  {
    if clusters == [] {
      omitted := [];
    } else {
      var front, last := clusters[..|clusters| - 1], clusters[|clusters| - 1];
      var before := PlaceClustersPacked(days, front, distance);
      var placed := PlaceClusters(days, front, distance);
      StableSortPermutes(HigherFirst, last);
      omitted := PlaceItemsPacked(placed, before, multiset(Flatten(front)), Underfilled(placed),
                                  StableSort(HigherFirst, last), distance);
      assert clusters == front + [last];
      FlattenSnoc(front, last);
    }
  }

  lemma {:induction false} JoinClusterKeeps(clusters: seq<Cluster>, k: nat, item: ScoredPlace, distance: Distance)
    requires k <= |clusters|
    ensures multiset(Flatten(JoinCluster(clusters, k, item, distance))) == multiset(Flatten(clusters)) + multiset{item}
    decreases |clusters| - k
  {
    if k == |clusters| {
      FlattenSnoc(clusters, [item]);
    } else if DistanceToCentroid(clusters[k], item, distance) <= CLUSTER_RADIUS_KM {
      FlattenAppend(clusters, k, item);
    } else {
      JoinClusterKeeps(clusters, k + 1, item, distance);
    }
  }

  /** Clustering puts every place in exactly one cluster. */
  lemma {:induction false} ClustersKeep(ordered: seq<ScoredPlace>, distance: Distance)
    ensures multiset(Flatten(Clusters(ordered, distance))) == multiset(ordered)
  {
    if ordered != [] {
      var front := ordered[..|ordered| - 1];
      ClustersKeep(front, distance);
      JoinClusterKeeps(Clusters(front, distance), 0, ordered[|ordered| - 1], distance);
      MultisetSnoc(ordered);
    }
  }

  lemma {:induction false} InsertFlatten(le: (Cluster, Cluster) -> bool, x: Cluster, s: seq<Cluster>)
    ensures multiset(Flatten(Insert(le, x, s))) == multiset(x) + multiset(Flatten(s))
  {
    if s != [] && !le(x, s[0]) {
      InsertFlatten(le, x, s[1..]);
    }
  }

  lemma {:induction false} SortFlatten(le: (Cluster, Cluster) -> bool, s: seq<Cluster>)
    ensures multiset(Flatten(StableSort(le, s))) == multiset(Flatten(s))
  {
    if s != [] {
      SortFlatten(le, s[1..]);
      InsertFlatten(le, s[0], StableSort(le, s[1..]));
    }
  }

  lemma {:induction false} EmptyDays(days: seq<Day>)
    requires forall d | 0 <= d < |days| :: days[d] == []
    ensures Flatten(days) == []
  {
    if days != [] {
      EmptyDays(days[1..]);
    }
  }

  /**
   * The allocation is sound and maximal: exactly `days` lists within the three caps; every selected place
   * is in one list or omitted, with its multiplicity; and an omitted place fits in no day of the final result.
   */
  lemma AllocationSound(selected: seq<ScoredPlace>, days: int, distance: Distance)
    returns (omitted: seq<ScoredPlace>)
    requires days >= 1
    ensures Allocation(selected, days, distance).Some?
    ensures
      var result := Allocation(selected, days, distance).value;
      && |result| == days
      && AllWithinCaps(result)
      && multiset(Flatten(result)) + multiset(omitted) == multiset(selected)
      && |Flatten(result)| + |omitted| == |selected|
      && NoneFits(result, omitted)
  {
    var empty: seq<Day> := seq(days, _ => []);
    EmptyDays(empty);
    var ordered := StableSort(HigherFirst, selected);
    var clusters := Clusters(ordered, distance);
    StableSortPermutes(HigherFirst, selected);
    ClustersKeep(ordered, distance);
    SortFlatten(BetterCluster, clusters);
    omitted := PlaceClustersPacked(empty, StableSort(BetterCluster, clusters), distance);
    var result := Allocation(selected, days, distance).value;
    assert |multiset(Flatten(result)) + multiset(omitted)| == |Flatten(result)| + |omitted|;
  }

  /** Places with distinct ids stay distinct: no stop is placed twice, on one day or on two. */
  lemma AllocationDistinct(selected: seq<ScoredPlace>, days: int, distance: Distance)
    requires days >= 1 && DistinctStops(selected)
    ensures DistinctStops(Flatten(Allocation(selected, days, distance).value))
  {
    var omitted := AllocationSound(selected, days, distance);
    DistinctPermuted(selected, Flatten(Allocation(selected, days, distance).value));
  }

  // ----- How many places are sure to fit

  lemma {:induction false} FlattenAtLeast(days: seq<Day>, least: nat)
    requires forall d | 0 <= d < |days| :: |days[d]| >= least
    ensures |Flatten(days)| >= least * |days|
  {
    if days != [] {
      FlattenAtLeast(days[1..], least);
      assert least * |days| == least + least * |days[1..]|;
    }
  }

  lemma {:induction false} VisitsBounded(day: Day)
    ensures DayVisitMin(day) <= 90 * |day|
    ensures MorningCount(day) <= |day|
  {
    if day != [] {
      VisitsBounded(day[..|day| - 1]);
    }
  }

  /** Any day of at most one place accepts anything. */
  lemma ShortDayAccepts(day: Day, item: ScoredPlace)
    requires |day| <= 1
    ensures CanAdd(day, item)
  {
    VisitsBounded(day);
  }

  /** Any day of at most four places accepts any place that is not morning-only. */
  lemma FourStopDayAccepts(day: Day, item: ScoredPlace)
    requires |day| <= 4 && !IsMorning(item)
    ensures CanAdd(day, item)
  {
    VisitsBounded(day);
  }

  /** Up to two places a day, nothing is omitted. */
  lemma TwoPerDayAllPlaced(selected: seq<ScoredPlace>, days: int, distance: Distance)
    requires days >= 1 && |selected| <= 2 * days
    ensures multiset(Flatten(Allocation(selected, days, distance).value)) == multiset(selected)
  {
    var omitted := AllocationSound(selected, days, distance);
    var result := Allocation(selected, days, distance).value;
    if omitted != [] {
      assert FitsNowhere(result, omitted[0]);
      forall d | 0 <= d < |result| ensures |result[d]| >= 2 {
        if |result[d]| <= 1 {
          ShortDayAccepts(result[d], omitted[0]);
        }
      }
      FlattenAtLeast(result, 2);
    }
  }

  /** Up to five places a day, none of them morning-only, nothing is omitted. */
  lemma FivePerDayAllPlaced(selected: seq<ScoredPlace>, days: int, distance: Distance)
    requires days >= 1 && |selected| <= 5 * days
    requires forall s | s in selected :: !IsMorning(s)
    ensures multiset(Flatten(Allocation(selected, days, distance).value)) == multiset(selected)
  {
    var omitted := AllocationSound(selected, days, distance);
    var result := Allocation(selected, days, distance).value;
    if omitted != [] {
      assert FitsNowhere(result, omitted[0]);
      assert omitted[0] in multiset(omitted) && omitted[0] in multiset(selected);
      forall d | 0 <= d < |result| ensures |result[d]| >= 5 {
        if |result[d]| <= 4 {
          FourStopDayAccepts(result[d], omitted[0]);
        }
      }
      FlattenAtLeast(result, 5);
    }
  }

  lemma {:induction false} AllMorningFill(day: Day)
    requires forall s | s in day :: IsMorning(s)
    ensures MorningCount(day) == |day|
  {
    if day != [] {
      AllMorningFill(day[..|day| - 1]);
    }
  }

  lemma {:induction false} FlattenAtMost(days: seq<Day>, most: nat)
    requires forall d | 0 <= d < |days| :: |days[d]| <= most
    ensures |Flatten(days)| <= most * |days|
  {
    if days != [] {
      FlattenAtMost(days[1..], most);
      assert most * |days| == most + most * |days[1..]|;
    }
  }

  lemma {:induction false} InFlatten(days: seq<Day>, d: nat, s: ScoredPlace)
    requires d < |days| && s in days[d]
    ensures s in Flatten(days)
  {
    if d > 0 {
      InFlatten(days[1..], d - 1, s);
    }
  }

  /** Two a day is the most that is always safe: of morning-only places exactly that many can be placed. */
  lemma MorningOnlyLimit(selected: seq<ScoredPlace>, days: int, distance: Distance)
    requires days >= 1 && forall s | s in selected :: IsMorning(s)
    ensures |Flatten(Allocation(selected, days, distance).value)|
         == if |selected| <= 2 * days then |selected| else 2 * days
  {
    var omitted := AllocationSound(selected, days, distance);
    var result := Allocation(selected, days, distance).value;
    forall d | 0 <= d < |result| ensures |result[d]| <= 2 {
      forall s | s in result[d] ensures IsMorning(s) {
        InFlatten(result, d, s);
        assert s in multiset(Flatten(result)) && s in multiset(selected);
      }
      AllMorningFill(result[d]);
      assert WithinCaps(result[d]);
    }
    FlattenAtMost(result, 2);
    if omitted != [] {
      assert FitsNowhere(result, omitted[0]);
      forall d | 0 <= d < |result| ensures |result[d]| >= 2 {
        if |result[d]| <= 1 {
          ShortDayAccepts(result[d], omitted[0]);
        }
      }
      FlattenAtLeast(result, 2);
    }
  }
}
