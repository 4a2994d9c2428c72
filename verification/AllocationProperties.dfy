/** Where the allocator puts things: which cluster a place joins, which day a cluster goes to. */
module AllocationProperties {
  import opened Ordering
  import opened TravelRules
  import opened DayAllocator
  import opened EngineProperties
  import opened Ranking
  import opened ScheduleBuilder
  import opened Sequences

  // ----- Clusters

  /** A place is near a cluster when its mean position is within ten kilometres. */
  predicate Near(cluster: Cluster, item: ScoredPlace, distance: Distance) {
    var n := |cluster| as real;
    distance(item.place.lat, item.place.lng, SumOf(cluster, Lat) / n, SumOf(cluster, Lng) / n) <= 10.0
  }

  /** A place joins the first cluster it is near, and opens a new one when it is near none. */
  lemma {:induction false} JoinsFirstNear(clusters: seq<Cluster>, k: nat, from: nat, item: ScoredPlace,
                                          distance: Distance)
    requires from <= k <= |clusters|
    requires forall i | from <= i < k :: !Near(clusters[i], item, distance)
    requires k < |clusters| ==> Near(clusters[k], item, distance)
    ensures JoinCluster(clusters, from, item, distance)
         == if k < |clusters| then clusters[k := clusters[k] + [item]] else clusters + [[item]]
    decreases k - from
  {
    if from < k {
      JoinsFirstNear(clusters, k, from + 1, item, distance);
    }
  }

  lemma {:induction false} TopScoreIsMax(cluster: Cluster, s: ScoredPlace)
    requires s in cluster
    ensures s.score <= TopScore(cluster)
    ensures exists i | 0 <= i < |cluster| :: cluster[i].score == TopScore(cluster)
  {
    if |cluster| > 1 {
      var rest := cluster[1..];
      TopScoreIsMax(rest, if s in rest then s else rest[0]);
      var i :| 0 <= i < |rest| && rest[i].score == TopScore(rest);
      assert cluster[i + 1] == rest[i];
      assert cluster == [cluster[0]] + rest;
    }
  }

  ghost predicate ClustersRanked(s: seq<Cluster>) {
    forall i, j | 0 <= i < j < |s| :: BetterCluster(s[i], s[j])
  }

  lemma {:induction false} InsertClusterRanked(x: Cluster, s: seq<Cluster>)
    requires ClustersRanked(s)
    ensures ClustersRanked(Insert(BetterCluster, x, s))
  {
    hide TopScore;
    if s != [] && !BetterCluster(x, s[0]) {
      InsertClusterRanked(x, s[1..]);
      var others := Insert(BetterCluster, x, s[1..]);
      InsertPermutes(BetterCluster, x, s[1..]);
      forall j | 0 <= j < |others| ensures BetterCluster(s[0], others[j]) {
        assert others[j] in multiset(others);
        assert others[j] == x || others[j] in s[1..];
      }
    }
  }

  lemma {:induction false} ClusterOrderRanked(s: seq<Cluster>)
    ensures ClustersRanked(StableSort(BetterCluster, s))
  {
    if s != [] {
      ClusterOrderRanked(s[1..]);
      InsertClusterRanked(s[0], StableSort(BetterCluster, s[1..]));
    }
  }

  /** Clusters are placed in order of their best score, larger ones first on a tie. */
  lemma ClustersByTopScore(s: seq<Cluster>, i: nat, j: nat)
    requires i < j < |StableSort(BetterCluster, s)|
    ensures
      var a, b := StableSort(BetterCluster, s)[i], StableSort(BetterCluster, s)[j];
      TopScore(a) >= TopScore(b) && (TopScore(a) == TopScore(b) ==> |a| >= |b|)
  {
    hide TopScore;
    ClusterOrderRanked(s);
    assert BetterCluster(StableSort(BetterCluster, s)[i], StableSort(BetterCluster, s)[j]);
  }

  // ----- Days

  /** Day d has the fewest places, and is the earliest such day. */
  ghost predicate LeastFilled(days: seq<Day>, d: nat) {
    && d < |days|
    && (forall e | 0 <= e < |days| :: |days[d]| <= |days[e]|)
    && (forall e | 0 <= e < d :: |days[d]| < |days[e]|)
  }

  lemma {:induction false} UnderfilledIsLeast(days: seq<Day>)
    requires days != []
    ensures LeastFilled(days, Underfilled(days))
  {
    if |days| > 1 {
      UnderfilledIsLeast(days[..|days| - 1]);
    }
  }

  lemma OneLeastFilled(days: seq<Day>, d: nat, e: nat)
    requires LeastFilled(days, d) && LeastFilled(days, e)
    ensures d == e
  {
    assert |days[d]| <= |days[e]| && |days[e]| <= |days[d]|;
  }

  lemma ItemGrows(days: seq<Day>, preferred: nat, item: ScoredPlace, distance: Distance, d: nat)
    requires preferred < |days| && d < |days|
    ensures days[d] <= PlaceItem(days, preferred, item, distance)[d]
  {
    hide SpillOrder, CanAdd;
  }

  lemma {:induction false} ItemsGrow(days: seq<Day>, preferred: nat, items: seq<ScoredPlace>, distance: Distance,
                                     k: nat, d: nat)
    requires preferred < |days| && d < |days| && k <= |items|
    ensures PlaceItems(days, preferred, items[..k], distance)[d] <= PlaceItems(days, preferred, items, distance)[d]
    decreases |items|
  {
    hide PlaceItem;
    if k == |items| {
      assert items[..k] == items;
    } else {
      var front := items[..|items| - 1];
      ItemsGrow(days, preferred, front, distance, k, d);
      assert front[..k] == items[..k];
      ItemGrows(PlaceItems(days, preferred, front, distance), preferred, items[|items| - 1], distance, d);
    }
  }

  /** What is on a day stays there, in front of what comes later. */
  lemma {:induction false} ClustersGrow(days: seq<Day>, clusters: seq<Cluster>, distance: Distance, k: nat, d: nat)
    requires days != [] && d < |days| && k <= |clusters|
    ensures PlaceClusters(days, clusters[..k], distance)[d] <= PlaceClusters(days, clusters, distance)[d]
    decreases |clusters|
  {
    hide PlaceItems;
    if k == |clusters| {
      assert clusters[..k] == clusters;
    } else {
      var front, last := clusters[..|clusters| - 1], clusters[|clusters| - 1];
      ClustersGrow(days, front, distance, k, d);
      assert front[..k] == clusters[..k];
      var before := PlaceClusters(days, front, distance);
      var items := StableSort(HigherFirst, last);
      ItemsGrow(before, Underfilled(before), items, distance, 0, d);
      NothingPlaced(before, Underfilled(before), items, distance);
    }
  }

  lemma NothingPlaced(days: seq<Day>, preferred: nat, items: seq<ScoredPlace>, distance: Distance)
    requires preferred < |days|
    ensures PlaceItems(days, preferred, items[..0], distance) == days
  {
  }

  // ----- A cluster that fits stays together

  lemma {:induction false} CapsOfPart(day: Day, k: nat)
    requires WithinCaps(day) && k <= |day|
    ensures WithinCaps(day[..k])
    decreases |day|
  {
    if k == |day| {
      assert day[..k] == day;
    } else {
      var front := day[..|day| - 1];
      CapsOfPart(front, k);
      assert front[..k] == day[..k];
    }
  }

  lemma NextFits(day: Day, k: nat)
    requires WithinCaps(day) && k < |day|
    ensures CanAdd(day[..k], day[k])
  {
    CapsOfPart(day, k + 1);
    assert day[..k + 1][..k] == day[..k];
  }

  lemma {:induction false} ItemsTogether(days: seq<Day>, d: nat, items: seq<ScoredPlace>, distance: Distance)
    requires d < |days| && WithinCaps(days[d] + items)
    ensures PlaceItems(days, d, items, distance) == days[d := days[d] + items]
  {
    hide CanAdd, WithinCaps;
    if items == [] {
      assert days[d] + items == days[d];
    } else {
      var front, last := items[..|items| - 1], items[|items| - 1];
      var whole := days[d] + items;
      CapsOfPart(whole, |whole| - 1);
      assert whole[..|whole| - 1] == days[d] + front;
      ItemsTogether(days, d, front, distance);
      NextFits(whole, |whole| - 1);
      assert days[d] + front + [last] == whole;
    }
  }

  /** The clusters of a selection in the order they are placed. */
  function PlacingOrder(selected: seq<ScoredPlace>, distance: Distance): seq<Cluster> {
    StableSort(BetterCluster, Clusters(StableSort(HigherFirst, selected), distance))
  }

  /** The days after the first k clusters. */
  function AfterClusters(selected: seq<ScoredPlace>, days: nat, distance: Distance, k: nat): (result: seq<Day>)
    requires days >= 1 && k <= |PlacingOrder(selected, distance)|
    ensures |result| == days
  {
    var empty: seq<Day> := seq(days, _ => []);
    PlaceClusters(empty, PlacingOrder(selected, distance)[..k], distance)
  }

  lemma AllocationIsAfterAll(selected: seq<ScoredPlace>, days: nat, distance: Distance)
    requires days >= 1
    ensures Allocation(selected, days, distance)
         == Some(AfterClusters(selected, days, distance, |PlacingOrder(selected, distance)|))
  {
    var clusters := PlacingOrder(selected, distance);
    assert clusters[..|clusters|] == clusters;
  }

  /** What is placed early is at the front of its day in the end. */
  lemma StaysInFront(selected: seq<ScoredPlace>, days: nat, distance: Distance, k: nat, d: nat)
    requires d < days && k <= |PlacingOrder(selected, distance)|
    ensures AfterClusters(selected, days, distance, k)[d] <= Allocation(selected, days, distance).value[d]
  {
    hide PlaceClusters, PlacingOrder;
    var clusters := PlacingOrder(selected, distance);
    var empty: seq<Day> := seq(days, _ => []);
    AllocationIsAfterAll(selected, days, distance);
    assert clusters[..|clusters|] == clusters;
    ClustersGrow(empty, clusters, distance, k, d);
  }

  /**
   * A cluster goes to the day with the fewest places, the earliest on a tie, and if all its places fit there
   * they are together on that day, best first; no other day changes.
   */
  lemma ClusterStaysTogether(selected: seq<ScoredPlace>, days: nat, distance: Distance, k: nat, d: nat)
    requires days >= 1 && k < |PlacingOrder(selected, distance)|
    requires LeastFilled(AfterClusters(selected, days, distance, k), d)
    requires WithinCaps(AfterClusters(selected, days, distance, k)[d]
                        + StableSort(HigherFirst, PlacingOrder(selected, distance)[k]))
    ensures
      var before, cluster := AfterClusters(selected, days, distance, k), PlacingOrder(selected, distance)[k];
      && AfterClusters(selected, days, distance, k + 1) == before[d := before[d] + StableSort(HigherFirst, cluster)]
      && forall p | p in cluster :: p in Allocation(selected, days, distance).value[d]
  {
    hide WithinCaps, PlacingOrder, PlaceItems, LeastFilled;
    var clusters := PlacingOrder(selected, distance);
    var before, items := AfterClusters(selected, days, distance, k), StableSort(HigherFirst, clusters[k]);
    UnderfilledIsLeast(before);
    OneLeastFilled(before, d, Underfilled(before));
    assert clusters[..k + 1][..k] == clusters[..k];
    ItemsTogether(before, d, items, distance);
    StaysInFront(selected, days, distance, k + 1, d);
    StableSortPermutes(HigherFirst, clusters[k]);
    forall p | p in clusters[k] ensures p in Allocation(selected, days, distance).value[d] {
      assert p in multiset(clusters[k]) && p in multiset(items) && p in items;
      assert p in AfterClusters(selected, days, distance, k + 1)[d];
    }
  }

  // ----- Spilling

  /** How far a place is from a day: ten kilometres from an empty one, else from its mean position. */
  function FarFrom(day: Day, item: ScoredPlace, distance: Distance): real {
    if day == [] then 10.0
    else
      var n := |day| as real;
      distance(item.place.lat, item.place.lng, SumOf(day, Lat) / n, SumOf(day, Lng) / n)
  }

  lemma FarFromDay(day: Day, item: ScoredPlace, distance: Distance)
    ensures DistanceToDay(day, item, distance) == FarFrom(day, item, distance)
  {
  }

  /** Day d is no worse a place to spill to than day e: nearer, or as near and no fuller, or also earlier. */
  predicate NoFarther(days: seq<Day>, item: ScoredPlace, distance: Distance, d: nat, e: nat)
    requires d < |days| && e < |days|
  {
    var dd, de := FarFrom(days[d], item, distance), FarFrom(days[e], item, distance);
    dd < de || (dd == de && (|days[d]| < |days[e]| || (|days[d]| == |days[e]| && d <= e)))
  }

  lemma {:induction false} FirstIsNearest(days: seq<Day>, item: ScoredPlace, distance: Distance, s: seq<nat>, e: nat)
    requires s != [] && e in s && forall d | d in s :: d < |days|
    ensures
      var sorted := StableSort(SpillOrder(days, item, distance), s);
      sorted != [] && sorted[0] in s && NoFarther(days, item, distance, sorted[0], e)
  {
    hide DistanceToDay, FarFrom;
    var order := SpillOrder(days, item, distance);
    SortedFirst(order, s);
    forall d | 0 <= d < |days| ensures DistanceToDay(days[d], item, distance) == FarFrom(days[d], item, distance) {
      FarFromDay(days[d], item, distance);
    }
    if |s| > 1 {
      var rest: seq<nat> := s[1..];
      var head: seq<nat> := StableSort<nat>(order, rest);
      SortedFirst<nat>(order, rest);
      assert s == [s[0]] + rest;
      forall d | d in rest ensures d < |days| {
        assert d in s;
      }
      FirstIsNearest(days, item, distance, rest, if e in rest then e else rest[0]);
      assert StableSort<nat>(order, s) == Insert<nat>(order, s[0], head);
    }
  }

  /** When a day has room for a place: fewer than six stops, two morning-only with it, 450 minutes of visits. */
  lemma RoomIff(day: Day, item: ScoredPlace)
    ensures CanAdd(day, item)
       <==> && |day| < 6
            && (IsMorning(item) ==> |Filter(IsMorning, day)| < 2)
            && Sum(Durations(day)) + VisitDurationMin(item.place.category) <= 450
  {
    MorningCountIsFilter(day);
    VisitsSum(day);
  }

  lemma {:induction false} VisitsSum(day: Day)
    ensures DayVisitMin(day) == Sum(Durations(day))
  {
    if day != [] {
      var front, last := day[..|day| - 1], day[|day| - 1];
      VisitsSum(front);
      assert Durations(day) == Durations(front) + [VisitDurationMin(last.place.category)];
      SumAppend(Durations(front), [VisitDurationMin(last.place.category)]);
    }
  }

  /**
   * Where one place goes: to the preferred day if it fits there; else to the nearest day that accepts it, the
   * emptiest and then the earliest on a tie; and nowhere if no day accepts it.
   */
  lemma PlaceGoesTo(days: seq<Day>, preferred: nat, item: ScoredPlace, distance: Distance) returns (d: nat)
    requires preferred < |days|
    ensures d <= |days|
    ensures PlaceItem(days, preferred, item, distance)
         == if d < |days| then days[d := days[d] + [item]] else days
    ensures CanAdd(days[preferred], item) ==> d == preferred
    ensures d < |days| ==> CanAdd(days[d], item)
    ensures d == |days| ==> FitsNowhere(days, item)
    ensures !CanAdd(days[preferred], item) && d < |days| ==>
              forall e | 0 <= e < |days| && CanAdd(days[e], item) :: NoFarther(days, item, distance, d, e)
  {
    hide CanAdd, NoFarther;
    if CanAdd(days[preferred], item) {
      d := preferred;
    } else {
      var candidates := Accepting(days, item, |days|);
      AcceptingExactly(days, item, |days|);
      if candidates == [] {
        d := |days|;
      } else {
        d := StableSort(SpillOrder(days, item, distance), candidates)[0];
        FirstIsNearest(days, item, distance, candidates, candidates[0]);
        forall e | 0 <= e < |days| && CanAdd(days[e], item) ensures NoFarther(days, item, distance, d, e) {
          FirstIsNearest(days, item, distance, candidates, e);
        }
      }
    }
  }

  // ----- The best place of all

  lemma {:induction false} InSomeCluster(clusters: seq<Cluster>, s: ScoredPlace) returns (k: nat)
    requires s in Flatten(clusters)
    ensures k < |clusters| && s in clusters[k]
  {
    if s in clusters[0] {
      k := 0;
    } else {
      var rest := InSomeCluster(clusters[1..], s);
      k := rest + 1;
    }
  }

  /** The clusters hold exactly the selected places. */
  lemma ClustersHold(selected: seq<ScoredPlace>, distance: Distance, s: ScoredPlace)
    ensures s in selected <==> s in Flatten(PlacingOrder(selected, distance))
  {
    var ordered := StableSort(HigherFirst, selected);
    StableSortPermutes(HigherFirst, selected);
    ClustersKeep(ordered, distance);
    SortFlatten(BetterCluster, Clusters(ordered, distance));
    assert s in selected <==> s in multiset(selected);
    assert s in Flatten(PlacingOrder(selected, distance)) <==> s in multiset(Flatten(PlacingOrder(selected, distance)));
  }

  /** In the cluster placed first, the place put first scores at least as high as any. */
  lemma FirstOfFirst(selected: seq<ScoredPlace>, distance: Distance, s: ScoredPlace)
    requires s in selected
    ensures PlacingOrder(selected, distance) != []
    ensures
      var items := StableSort(HigherFirst, PlacingOrder(selected, distance)[0]);
      items != [] && items[0] in PlacingOrder(selected, distance)[0] && s.score <= items[0].score
  {
    hide Clusters, TopScore, HigherFirst;
    var clusters := PlacingOrder(selected, distance);
    ClustersHold(selected, distance, s);
    var k := InSomeCluster(clusters, s);
    TopScoreIsMax(clusters[k], s);
    if k > 0 {
      ClustersByTopScore(Clusters(StableSort(HigherFirst, selected), distance), 0, k);
    }
    var first := clusters[0];
    var items := StableSort(HigherFirst, first);
    SortedFirst(HigherFirst, first);
    TopScoreIsMax(first, first[0]);
    var i :| 0 <= i < |first| && first[i].score == TopScore(first);
    StableSortPermutes(HigherFirst, first);
    assert first[i] in multiset(first) && first[i] in multiset(items);
    var j :| 0 <= j < |items| && items[j] == first[i];
    if j > 0 {
      RankingByScore(first, 0, j);
    }
  }

  /** The highest-scored place always opens the first day. */
  lemma BestPlaceFirst(selected: seq<ScoredPlace>, days: nat, distance: Distance, s: ScoredPlace)
    requires days >= 1 && s in selected
    ensures
      var first := Allocation(selected, days, distance).value[0];
      first != [] && first[0] in selected && s.score <= first[0].score
  {
    hide PlacingOrder, HigherFirst, CanAdd, PlaceItem;
    var clusters := PlacingOrder(selected, distance);
    FirstOfFirst(selected, distance, s);
    var empty: seq<Day> := seq(days, _ => []);
    assert clusters[..0] == [];
    assert AfterClusters(selected, days, distance, 0) == empty;
    UnderfilledIsLeast(empty);
    assert |empty[0]| == 0 && Underfilled(empty) == 0;
    var items := StableSort(HigherFirst, clusters[0]);
    ShortDayAccepts(empty[0], items[0]);
    var one := PlaceItems(empty, 0, items[..1], distance);
    FirstPlaced(empty, items, distance);
    ItemsGrow(empty, 0, items, distance, 1, 0);
    assert clusters[..1][..0] == [] && clusters[..1] == [clusters[0]];
    StaysInFront(selected, days, distance, 1, 0);
    InCluster(clusters, items[0]);
    ClustersHold(selected, distance, items[0]);
  }

  lemma FirstPlaced(days: seq<Day>, items: seq<ScoredPlace>, distance: Distance)
    requires days != [] && days[0] == [] && items != [] && CanAdd(days[0], items[0])
    ensures PlaceItems(days, 0, items[..1], distance)[0] == [items[0]]
  {
    hide CanAdd;
    assert items[..1][..0] == [];
    assert PlaceItems(days, 0, items[..1][..0], distance) == days;
  }

  lemma InCluster(clusters: seq<Cluster>, s: ScoredPlace)
    requires clusters != [] && s in clusters[0]
    ensures s in Flatten(clusters)
  {
  }

  // ----- Places far apart are spread evenly

  /** No two of the places are within the cluster radius of each other. */
  ghost predicate FarApart(places: seq<ScoredPlace>, distance: Distance) {
    forall a, b | a in places && b in places && a != b ::
      distance(a.place.lat, a.place.lng, b.place.lat, b.place.lng) > 10.0
  }

  ghost predicate AllSingle(clusters: seq<Cluster>) {
    forall k | 0 <= k < |clusters| :: |clusters[k]| == 1
  }

  lemma SingleNear(cluster: Cluster, item: ScoredPlace, distance: Distance)
    requires |cluster| == 1
    ensures Near(cluster, item, distance)
       <==> distance(item.place.lat, item.place.lng, cluster[0].place.lat, cluster[0].place.lng) <= 10.0
  {
    assert SumOf(cluster[1..], Lat) == 0.0 && SumOf(cluster[1..], Lng) == 0.0;
  }

  lemma {:induction false} FarApartSingle(ordered: seq<ScoredPlace>, distance: Distance)
    requires DistinctStops(ordered) && FarApart(ordered, distance)
    ensures AllSingle(Clusters(ordered, distance)) && |Clusters(ordered, distance)| == |ordered|
    ensures forall k | 0 <= k < |ordered| :: Clusters(ordered, distance)[k] == [ordered[k]]
  {
    if ordered != [] {
      var front, last := ordered[..|ordered| - 1], ordered[|ordered| - 1];
      assert ordered == front + [last];
      FarApartSingle(front, distance);
      var clusters := Clusters(front, distance);
      forall k | 0 <= k < |clusters| ensures !Near(clusters[k], last, distance) {
        SingleNear(clusters[k], last, distance);
        assert ordered[k] in ordered && last in ordered && ordered[k].place.id != last.place.id;
      }
      JoinsFirstNear(clusters, |clusters|, 0, last, distance);
    }
  }

  ghost predicate Balanced(days: seq<Day>) {
    forall d, e | 0 <= d < |days| && 0 <= e < |days| :: |days[d]| <= |days[e]| + 1
  }

  /** The day a cluster goes to accepts its first place. */
  ghost predicate LeastAccepts(days: seq<Day>, item: ScoredPlace) {
    forall d | 0 <= d < |days| && LeastFilled(days, d) :: CanAdd(days[d], item)
  }

  lemma PlaceSingle(days: seq<Day>, cluster: Cluster, distance: Distance)
    requires days != [] && |cluster| == 1 && LeastAccepts(days, cluster[0])
    ensures
      var d := Underfilled(days);
      PlaceItems(days, d, StableSort(HigherFirst, cluster), distance) == days[d := days[d] + cluster]
  {
    hide CanAdd, HigherFirst;
    UnderfilledIsLeast(days);
    assert cluster[1..] == [];
    assert StableSort(HigherFirst, cluster) == [cluster[0]];
    assert cluster == [cluster[0]];
    assert [cluster[0]][..0] == [];
    assert PlaceItems(days, Underfilled(days), [cluster[0]][..0], distance) == days;
  }

  /** One place at a time, each accepted by the least filled day: day sizes never differ by more than one. */
  lemma {:induction false} SinglesBalance(days: seq<Day>, clusters: seq<Cluster>, distance: Distance)
    requires days != [] && Balanced(days) && AllSingle(clusters)
    requires forall k | 0 <= k < |clusters| ::
               LeastAccepts(PlaceClusters(days, clusters[..k], distance), clusters[k][0])
    ensures Balanced(PlaceClusters(days, clusters, distance))
    ensures |Flatten(PlaceClusters(days, clusters, distance))| == |Flatten(days)| + |clusters|
  {
    hide LeastAccepts, PlaceItems;
    if clusters != [] {
      var front, last := clusters[..|clusters| - 1], clusters[|clusters| - 1];
      forall k | 0 <= k < |front| ensures LeastAccepts(PlaceClusters(days, front[..k], distance), front[k][0]) {
        assert front[..k] == clusters[..k];
      }
      SinglesBalance(days, front, distance);
      var before := PlaceClusters(days, front, distance);
      assert clusters[..|clusters| - 1] == front;
      PlaceSingle(before, last, distance);
      UnderfilledIsLeast(before);
      assert last == [last[0]];
      FlattenAppend(before, Underfilled(before), last[0]);
    }
  }

  /** With k places on the days so far, and few enough of them, the least filled day accepts the next one. */
  lemma LeastHasRoom(days: seq<Day>, k: nat, item: ScoredPlace)
    requires |Flatten(days)| == k && days != []
    requires k < 2 * |days| || (k < 5 * |days| && !IsMorning(item))
    ensures LeastAccepts(days, item)
  {
    hide CanAdd, Flatten;
    forall d | 0 <= d < |days| && LeastFilled(days, d) ensures CanAdd(days[d], item) {
      FlattenAtLeast(days, |days[d]|);
      RoomLeft(|days[d]|, |days|, k);
      if |days[d]| <= 1 {
        ShortDayAccepts(days[d], item);
      } else {
        FourStopDayAccepts(days[d], item);
      }
    }
  }

  lemma RoomLeft(least: nat, days: nat, k: nat)
    requires least * days <= k
    ensures (k < 2 * days ==> least <= 1) && (k < 5 * days ==> least <= 4)
  {
    if least >= 2 {
      assert least * days >= 2 * days;
    }
    if least >= 5 {
      assert least * days >= 5 * days;
    }
  }

  lemma {:induction false} FewSingles(days: seq<Day>, clusters: seq<Cluster>, distance: Distance, n: nat)
    requires days != [] && Flatten(days) == [] && Balanced(days) && AllSingle(clusters) && n <= |clusters|
    requires |clusters| <= 2 * |days|
          || (|clusters| <= 5 * |days| && forall k | 0 <= k < |clusters| :: !IsMorning(clusters[k][0]))
    ensures forall k | 0 <= k < n :: LeastAccepts(PlaceClusters(days, clusters[..k], distance), clusters[k][0])
    ensures |Flatten(PlaceClusters(days, clusters[..n], distance))| == n
    ensures Balanced(PlaceClusters(days, clusters[..n], distance))
  {
    hide LeastAccepts, PlaceClusters, Balanced;
    if n == 0 {
      NoClusters(days, distance);
      assert clusters[..0] == [];
    } else {
      FewSingles(days, clusters, distance, n - 1);
      LeastHasRoom(PlaceClusters(days, clusters[..n - 1], distance), n - 1, clusters[n - 1][0]);
      var part := clusters[..n];
      forall k | 0 <= k < n ensures LeastAccepts(PlaceClusters(days, part[..k], distance), part[k][0]) {
        assert part[..k] == clusters[..k];
      }
      SinglesBalance(days, part, distance);
    }
  }

  lemma NoClusters(days: seq<Day>, distance: Distance)
    requires days != []
    ensures PlaceClusters(days, [], distance) == days
  {
  }

  /** Far-apart places, each a cluster of its own, in the order they are placed. */
  lemma FarApartOrder(selected: seq<ScoredPlace>, distance: Distance)
    requires DistinctStops(selected) && FarApart(selected, distance)
    ensures AllSingle(PlacingOrder(selected, distance)) && |PlacingOrder(selected, distance)| == |selected|
    ensures forall k | 0 <= k < |selected| :: PlacingOrder(selected, distance)[k][0] in selected
  {
    hide HigherFirst, BetterCluster, DistinctStops, Clusters;
    var ordered := StableSort(HigherFirst, selected);
    StableSortPermutes(HigherFirst, selected);
    DistinctPermuted(selected, ordered);
    forall x ensures x in ordered <==> x in selected {
      assert x in multiset(ordered) <==> x in multiset(selected);
    }
    FarApartSingle(ordered, distance);
    var clusters := Clusters(ordered, distance);
    StableSortPermutes(BetterCluster, clusters);
    forall k | 0 <= k < |selected|
      ensures |PlacingOrder(selected, distance)[k]| == 1 && PlacingOrder(selected, distance)[k][0] in selected
    {
      var c := PlacingOrder(selected, distance)[k];
      assert c in multiset(PlacingOrder(selected, distance)) && c in multiset(clusters);
      var i :| 0 <= i < |clusters| && clusters[i] == c;
      assert ordered[i] in ordered;
    }
  }

  lemma {:induction false} OverFull(days: seq<Day>, d: nat)
    requires d < |days| && |days[d]| >= 2 && forall e | 0 <= e < |days| :: |days[e]| >= 1
    ensures |Flatten(days)| > |days|
  {
    if d == 0 {
      FlattenAtLeast(days[1..], 1);
    } else {
      OverFull(days[1..], d - 1);
    }
  }

  /**
   * Places no two of which are near each other are spread evenly: day sizes differ by at most one, and with no
   * more places than days no day gets two. This needs room: at most two places a day, or five of which none
   * is morning-only.
   */
  lemma FarPlacesSpread(selected: seq<ScoredPlace>, days: nat, distance: Distance)
    requires days >= 1 && DistinctStops(selected) && FarApart(selected, distance)
    requires |selected| <= 2 * days || (|selected| <= 5 * days && forall s | s in selected :: !IsMorning(s))
    ensures
      var result := Allocation(selected, days, distance).value;
      && |Flatten(result)| == |selected|
      && Balanced(result)
      && (|selected| <= days ==> forall d | 0 <= d < |result| :: |result[d]| <= 1)
  {
    hide PlacingOrder, PlaceClusters, DistinctStops, FarApart;
    var clusters := PlacingOrder(selected, distance);
    FarApartOrder(selected, distance);
    var empty: seq<Day> := seq(days, _ => []);
    EmptyDays(empty);
    FewSingles(empty, clusters, distance, |clusters|);
    AllocationIsAfterAll(selected, days, distance);
    var result := Allocation(selected, days, distance).value;
    if d :| 0 <= d < |result| && |result[d]| >= 2 {
      forall e | 0 <= e < |result| ensures |result[e]| >= 1 {
        assert |result[d]| <= |result[e]| + 1;
      }
      OverFull(result, d);
    }
  }
}
