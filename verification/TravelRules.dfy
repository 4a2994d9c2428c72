/** Structural constants of the travel engine and the records that flow through it. */
module TravelRules {

  const MAX_PLACES_PER_DAY := 6
  const MIN_TRAVEL_BUFFER_MIN := 30
  const MAX_DAILY_TRAVEL_MIN := 180
  const LUNCH_BREAK_MIN := 60
  const ACTIVE_DAY_VISIT_BUDGET_MIN := 8 * 60 - MIN_TRAVEL_BUFFER_MIN
  const CLUSTER_RADIUS_KM := 10.0
  const ANCHOR_MIN_SCORE := 0.7
  const MAX_ROUTE_DROP_ATTEMPTS := MAX_PLACES_PER_DAY - 1
  const MAX_MORNING_ONLY_PER_DAY := 2

  // Wall-clock constants, in minutes after midnight ("08:00", "13:00", "10:30").
  const DAY_START := 8 * 60
  const LUNCH_BREAK_START := 13 * 60
  const MORNING_SLOT_LATEST_START := 10 * 60 + 30

  /** A place id. Ids compare as UUIDs do, by value; their text form compares the same way. */
  type PlaceId = nat
  const BASE_SENTINEL_ID: PlaceId := 0

  datatype Category =
    | Monastery | Viewpoint | Museum | Park | Trailhead | Attraction
    | Cafe | Restaurant | Temple | Historic | Nature
    | OtherCategory(text: string)

  datatype PlaceCandidate = PlaceCandidate(id: PlaceId, name: string, category: Category, lat: real, lng: real)

  datatype ScoredPlace = ScoredPlace(place: PlaceCandidate, score: real)

  function VisitDurationMin(category: Category): (minutes: nat)
    ensures 20 <= minutes <= 90
  {
    match category
    case Monastery => 45
    case Viewpoint => 20
    case Museum => 60
    case Park => 30
    case Trailhead => 90
    case Attraction => 40
    case Cafe => 30
    case Restaurant => 60
    case Temple => 40
    case Historic => 40
    case Nature => 45
    case OtherCategory(_) => 30
  }

  predicate MorningOnly(category: Category) {
    category == Viewpoint
  }

  predicate IsMorning(s: ScoredPlace) {
    MorningOnly(s.place.category)
  }

  predicate IsOther(s: ScoredPlace) {
    !IsMorning(s)
  }

  function Ids(stops: seq<ScoredPlace>): seq<PlaceId> {
    seq(|stops|, i requires 0 <= i < |stops| => stops[i].place.id)
  }

  /** What every list of stops handed to the engine satisfies: distinct ids, none of them the base. */
  ghost predicate DistinctStops(stops: seq<ScoredPlace>) {
    && (forall i, j | 0 <= i < j < |stops| :: stops[i].place.id != stops[j].place.id)
    && (forall i | 0 <= i < |stops| :: stops[i].place.id != BASE_SENTINEL_ID)
  }

  /** Distinctness only depends on which stops there are, not on their order. */
  lemma DistinctPermuted(a: seq<ScoredPlace>, b: seq<ScoredPlace>)
    requires DistinctStops(a) && multiset(b) <= multiset(a)
    ensures DistinctStops(b)
  {
    forall i | 0 <= i < |b| ensures b[i].place.id != BASE_SENTINEL_ID {
      assert b[i] in multiset(b) && b[i] in multiset(a);
    }
    forall i, j | 0 <= i < j < |b| ensures b[i].place.id != b[j].place.id {
      if b[i].place.id == b[j].place.id {
        assert b[i] in multiset(a) && b[j] in multiset(a);
        var k :| 0 <= k < |a| && a[k] == b[i];
        var l :| 0 <= l < |a| && a[l] == b[j];
        assert k == l;
        TwiceCounted(b, i, j);
        DistinctOnce(a, k);
        assert false;
      }
    }
  }

  lemma TwiceCounted(s: seq<ScoredPlace>, i: nat, j: nat)
    requires i < j < |s| && s[i] == s[j]
    ensures multiset(s)[s[i]] >= 2
  {
    assert s == s[..j] + [s[j]] + s[j + 1..];
    assert s[i] in multiset(s[..j]);
  }

  lemma DistinctOnce(a: seq<ScoredPlace>, k: nat)
    requires DistinctStops(a) && k < |a|
    ensures multiset(a)[a[k]] == 1
  {
    assert a == a[..k] + [a[k]] + a[k+1..];
    assert a[k] !in a[..k] && a[k] !in a[k+1..];
    assert multiset(a) == multiset(a[..k]) + multiset{a[k]} + multiset(a[k+1..]);
  }
}
