/** What every timed day satisfies, for any visits and any non-negative hops. */
module ScheduleProperties {
  import opened Ordering
  import opened Sequences
  import opened TravelRules
  import opened Protocols
  import opened WallClock
  import opened ScheduleBuilder

  const LUNCH_END := LUNCH_BREAK_START + LUNCH_BREAK_MIN
  const DIGITS := "0123456789"

  ghost predicate NonNegative(hops: seq<int>) {
    forall i | 0 <= i < |hops| :: hops[i] >= 0
  }

  /** Once lunch is taken the clock is past it. */
  ghost predicate ClockOk(c: Clock) {
    c.lunchTaken ==> c.now >= LUNCH_END
  }

  /** When one leaves for stop i: the end of the visit before it, or the start of the day. */
  function Leave(visits: seq<Visit>, i: nat, dayStart: int): int
    requires i < |visits|
  {
    if i == 0 then dayStart else visits[i - 1].end
  }

  /** Visit i is its stated length, lies outside lunch, and does not start before the clock. */
  lemma {:induction false} VisitSound(durations: seq<nat>, hops: seq<int>, c: Clock, i: nat)
    requires i < |durations| == |hops| && NonNegative(hops) && ClockOk(c)
    ensures
      var v := Timeline(durations, hops, c);
      && v[i].end == v[i].start + durations[i]
      && (v[i].end <= LUNCH_BREAK_START || v[i].start >= LUNCH_END)
      && v[0].start >= c.now
  {
    if i > 0 {
      VisitSound(durations[1..], hops[1..], TravelFrom(AfterVisit(c, durations[0]), hops[1]), i - 1);
    }
  }

  /** Stop i + 1 is reached after visit i, and on time unless the hop runs past lunch from before it. */
  lemma {:induction false} HopSound(durations: seq<nat>, hops: seq<int>, c: Clock, i: nat)
    requires i + 1 < |durations| == |hops| && NonNegative(hops) && ClockOk(c)
    ensures
      var v := Timeline(durations, hops, c);
      && v[i].end <= v[i + 1].start
      && (v[i + 1].start >= v[i].end + hops[i + 1]
          <==> !(v[i].end < LUNCH_BREAK_START && v[i].end + hops[i + 1] > LUNCH_END))
  {
    var arrival := TravelFrom(AfterVisit(c, durations[0]), hops[1]);
    assert hops[1] >= 0;
    if i > 0 {
      HopSound(durations[1..], hops[1..], arrival, i - 1);
    } else {
      assert Timeline(durations[1..], hops[1..], arrival)[0] == VisitAt(arrival, durations[1]);
    }
  }

  /** Visit k starts the moment its hop is over, and carries no lunch note. */
  predicate OnArrival(v: seq<Visit>, hops: seq<int>, dayStart: int, k: nat)
    requires k < |v| == |hops|
  {
    !v[k].lunchNote && v[k].start == Leave(v, k, dayStart) + hops[k]
  }

  /** Looking at the day from its second visit on. */
  lemma ArrivalAfterFirst(v: seq<Visit>, hops: seq<int>, dayStart: int, restStart: int, k: nat)
    requires 0 < k < |v| == |hops| && (k == 1 ==> restStart == v[0].end)
    ensures OnArrival(v, hops, dayStart, k) <==> OnArrival(v[1..], hops[1..], restStart, k - 1)
  {
    assert k > 1 ==> v[1..][k - 2] == v[k - 1];
  }

  /** After lunch nothing is inserted any more: each visit starts exactly on arrival. */
  lemma {:induction false} NoSecondLunch(durations: seq<nat>, hops: seq<int>, c: Clock, i: nat)
    requires i < |durations| == |hops| && c.lunchTaken
    ensures OnArrival(Timeline(durations, hops, c), hops, c.now - hops[0], i)
  {
    if i > 0 {
      var v := Timeline(durations, hops, c);
      var arrival := TravelFrom(AfterVisit(c, durations[0]), hops[1]);
      NoSecondLunch(durations[1..], hops[1..], arrival, i - 1);
      assert v[1..] == Timeline(durations[1..], hops[1..], arrival);
      ArrivalAfterFirst(v, hops, c.now - hops[0], arrival.now - hops[1], i);
    }
  }

  /** Lunch moves at most one visit: every other visit starts exactly on arrival and carries no note. */
  lemma {:induction false} LunchAtMostOnce(durations: seq<nat>, hops: seq<int>, c: Clock, i: nat, j: nat)
    requires |durations| == |hops| && i < j < |durations|
    ensures
      var v := Timeline(durations, hops, c);
      OnArrival(v, hops, c.now - hops[0], i) || OnArrival(v, hops, c.now - hops[0], j)
  {
    hide OnArrival, Timeline;
    var v := Timeline(durations, hops, c);
    var after := AfterVisit(c, durations[0]);
    var arrival := TravelFrom(after, hops[1]);
    FirstThenRest(durations, hops, c);
    if after.lunchTaken == arrival.lunchTaken || i > 0 {
      ArrivalAfterFirst(v, hops, c.now - hops[0], arrival.now - hops[1], j);
    }
    if arrival.lunchTaken {
      NoSecondLunch(durations[1..], hops[1..], arrival, j - 1);
    } else if i > 0 {
      ArrivalAfterFirst(v, hops, c.now - hops[0], arrival.now - hops[1], i);
      LunchAtMostOnce(durations[1..], hops[1..], arrival, i - 1, j - 1);
    }
  }

  /** A first visit that lunch does not move starts on arrival; the others are the rest of the timeline. */
  lemma FirstThenRest(durations: seq<nat>, hops: seq<int>, c: Clock)
    requires 1 < |durations| == |hops|
    ensures
      var v := Timeline(durations, hops, c);
      && v[0] == VisitAt(c, durations[0])
      && v[1..] == Timeline(durations[1..], hops[1..], TravelFrom(AfterVisit(c, durations[0]), hops[1]))
      && (!LunchFirst(c, durations[0]) ==> OnArrival(v, hops, c.now - hops[0], 0))
  {
  }

  ghost predicate VisitLengths(durations: seq<nat>) {
    forall i | 0 <= i < |durations| :: durations[i] <= 90
  }

  /** Lunch costs at most 149 minutes: 90-minute visits are the longest that can straddle it. */
  lemma {:induction false} TimelineEndsBy(durations: seq<nat>, hops: seq<int>, c: Clock, i: nat)
    requires i < |durations| == |hops| && NonNegative(hops) && VisitLengths(durations)
    ensures Timeline(durations, hops, c)[i].end
         <= c.now + Sum(durations) + Sum(hops[1..]) + if c.lunchTaken then 0 else 149
  {
    SumNonNegative(durations[1..]);
    SumNonNegative(hops[1..]);
    assert durations[0] <= 90;
    if i > 0 {
      assert hops[1..][0] == hops[1] && hops[1..][1..] == hops[2..] && hops[1] >= 0;
      var arrival := TravelFrom(AfterVisit(c, durations[0]), hops[1]);
      TimelineEndsBy(durations[1..], hops[1..], arrival, i - 1);
    }
  }

  lemma {:induction false} SumNonNegative(s: seq<int>)
    requires NonNegative(s)
    ensures Sum(s) >= 0
  {
    if s != [] {
      assert s[0] >= 0;
      SumNonNegative(s[1..]);
    }
  }

  /**
   * The day's timeline, for any visits and any non-negative hops: no visit overlaps lunch or another visit,
   * and a stop is reached on time exactly when the hop into it does not run past lunch from before it.
   */
  lemma DayTimelineSound(durations: seq<nat>, hops: seq<int>)
    requires |durations| == |hops| && NonNegative(hops)
    ensures
      var v := DayTimeline(durations, hops);
      && (forall i | 0 <= i < |v| :: v[i].end == v[i].start + durations[i])
      && (forall i | 0 <= i < |v| :: v[i].end <= LUNCH_BREAK_START || v[i].start >= LUNCH_END)
      && (v != [] ==> v[0].start >= DAY_START + hops[0])
      && (forall i | 0 <= i < |v| - 1 :: v[i].end <= v[i + 1].start)
      && (forall i | 0 <= i < |v| - 1 ::
            v[i + 1].start >= v[i].end + hops[i + 1]
            <==> !(v[i].end < LUNCH_BREAK_START && v[i].end + hops[i + 1] > LUNCH_END))
  {
    if durations != [] {
      var c := Clock(DAY_START + hops[0], false);
      forall i | 0 <= i < |durations| {
        VisitSound(durations, hops, c, i);
      }
      forall i | 0 <= i < |durations| - 1 {
        HopSound(durations, hops, c, i);
      }
    }
  }

  /** In particular a hop of at most an hour is always allowed its full time. */
  lemma ShortHopsOnTime(durations: seq<nat>, hops: seq<int>, i: nat)
    requires |durations| == |hops| && NonNegative(hops) && i + 1 < |durations|
    requires hops[i + 1] <= 60
    ensures
      var v := DayTimeline(durations, hops);
      v[i + 1].start >= v[i].end + hops[i + 1]
  {
    DayTimelineSound(durations, hops);
  }

  /** A longer one is not: leaving at 12:00 on a three-hour hop is scheduled to arrive at 14:00. */
  lemma LongHopCutShort()
    ensures DayTimeline([90, 30], [150, 180]) == [Visit(630, 720, false), Visit(840, 870, false)]
    ensures DayTimeline([90, 30], [150, 180])[1].start < DayTimeline([90, 30], [150, 180])[0].end + 180
  {
    var arrival := Clock(840, true);
    var d, h: seq<int> := [90, 30], [150, 180];
    assert d[1..] == [30] && h[1..] == [180];
    assert Timeline([30], [180], arrival) == [Visit(840, 870, false)];
    assert Timeline(d, h, Clock(630, false)) == [Visit(630, 720, false)] + Timeline(d[1..], h[1..], arrival);
  }

  /** Lunch is taken at most once in a day, and moves at most one visit. */
  lemma DayLunchAtMostOnce(durations: seq<nat>, hops: seq<int>, i: nat, j: nat)
    requires |durations| == |hops| && i < j < |durations|
    ensures
      var v := DayTimeline(durations, hops);
      OnArrival(v, hops, DAY_START, i) || OnArrival(v, hops, DAY_START, j)
  {
    LunchAtMostOnce(durations, hops, Clock(DAY_START + hops[0], false), i, j);
  }

  /**
   * When each visit starts. Without a note: on arrival, or at 14:00 when the hop into it reaches 13:00 from
   * before. With the note: an hour after arriving, or after 13:00 if that is later, and only when the visit
   * would otherwise run past 13:00 or begin at or after it, the hop not having crossed 13:00 already.
   */
  predicate StartRule(v: Visit, left: int, hop: int, minutes: nat, first: bool) {
    var arrival := left + hop;
    if v.lunchNote then
      && (arrival >= 780 || arrival + minutes > 780)
      && (first || left >= 780 || arrival < 780)
      && v.start == (if arrival < 780 then 780 else arrival) + 60
    else
      v.start == arrival || (!first && left < 780 <= arrival && v.start == 840)
  }

  lemma {:induction false} VisitStarts(durations: seq<nat>, hops: seq<int>, c: Clock, i: nat)
    requires i < |durations| == |hops|
    ensures
      var v := Timeline(durations, hops, c);
      || StartRule(v[i], Leave(v, i, c.now - hops[0]), hops[i], durations[i], i == 0)
      || (i == 0 && c.lunchTaken)
  {
    if i == 1 {
      var after := AfterVisit(c, durations[0]);
      var arrival := TravelFrom(after, hops[1]);
      assert Timeline(durations, hops, c)[1] == Timeline(durations[1..], hops[1..], arrival)[0];
      assert Timeline(durations[1..], hops[1..], arrival)[0] == VisitAt(arrival, durations[1]);
    } else if i > 1 {
      var arrival := TravelFrom(AfterVisit(c, durations[0]), hops[1]);
      VisitStarts(durations[1..], hops[1..], arrival, i - 1);
    }
  }

  /** The start of every visit of a day, from when one leaves for it and how long the hop is. */
  lemma DayStarts(durations: seq<nat>, hops: seq<int>, i: nat)
    requires i < |durations| == |hops|
    ensures
      var v := DayTimeline(durations, hops);
      StartRule(v[i], Leave(v, i, 480), hops[i], durations[i], i == 0)
  {
    VisitStarts(durations, hops, Clock(DAY_START + hops[0], false), i);
  }

  /** How long a visit takes, read the other way: which categories take how long. */
  lemma VisitLengthIff(category: Category)
    ensures VisitDurationMin(category) == 90 <==> category == Trailhead
    ensures VisitDurationMin(category) == 60 <==> category in {Museum, Restaurant}
    ensures VisitDurationMin(category) == 45 <==> category in {Monastery, Nature}
    ensures VisitDurationMin(category) == 40 <==> category in {Attraction, Temple, Historic}
    ensures VisitDurationMin(category) == 30 <==> category in {Park, Cafe} || category.OtherCategory?
    ensures VisitDurationMin(category) == 20 <==> MorningOnly(category)
  {
  }

  /**
   * What a timed day says of each stop: the place and score it was given, a visit as long as the timeline has it,
   * the time the timeline starts it, and the lunch note exactly when the timeline puts lunch before it.
   */
  lemma StopsAsTimed(stops: seq<ScoredPlace>, legs: seq<RouteLeg>, preserve: bool)
    returns (order: seq<ScoredPlace>, visits: seq<Visit>)
    requires stops != [] && Schedule(stops, legs, preserve).Success?
    ensures order == if preserve then stops else ExtractMorningFirst(stops)
    ensures HopsKnown(order, LegsToLookup(legs))
    ensures visits == DayTimeline(Durations(order), HopMinutes(order, LegsToLookup(legs)))
    ensures
      var scheduled := Schedule(stops, legs, preserve).value;
      && |scheduled| == |order| == |visits|
      && forall i | 0 <= i < |scheduled| :: SaysVisit(scheduled[i], order[i], visits[i])
  {
    hide ExtractMorningFirst, Schedule, DayTimeline, Stamp, SaysVisit, LegsToLookup, RequiredHops;
    order := if preserve then stops else ExtractMorningFirst(stops);
    ScheduleIs(stops, legs, preserve, order);
    visits := DayTimeline(Durations(order), HopMinutes(order, LegsToLookup(legs)));
    var scheduled := Schedule(stops, legs, preserve).value;
    forall i | 0 <= i < |scheduled| ensures SaysVisit(scheduled[i], order[i], visits[i]) {
      DayVisitLasts(order, HopMinutes(order, LegsToLookup(legs)), i);
      StampSays(order[i], visits[i]);
    }
  }

  lemma ScheduleIs(stops: seq<ScoredPlace>, legs: seq<RouteLeg>, preserve: bool, order: seq<ScoredPlace>)
    requires stops != [] && Schedule(stops, legs, preserve).Success?
    requires order == if preserve then stops else ExtractMorningFirst(stops)
    ensures
      var lookup := LegsToLookup(legs);
      && HopsKnown(order, lookup)
      && Schedule(stops, legs, preserve).value
         == StampAll(order, DayTimeline(Durations(order), HopMinutes(order, lookup)))
  {
    hide ExtractMorningFirst, DayTimeline, StampAll, RequiredHops, FirstMissing, LegsToLookup;
    GapNamed(order, LegsToLookup(legs));
  }

  lemma DayVisitLasts(order: seq<ScoredPlace>, hops: seq<int>, i: nat)
    requires i < |order| == |hops|
    ensures
      var v := DayTimeline(Durations(order), hops);
      v[i].end == v[i].start + VisitDurationMin(order[i].place.category)
  {
    VisitLasts(Durations(order), hops, Clock(DAY_START + hops[0], false), i);
  }

  lemma StampSays(s: ScoredPlace, v: Visit)
    requires v.end == v.start + VisitDurationMin(s.place.category)
    ensures SaysVisit(Stamp(s, v), s, v)
  {
    hide FormatHHMM, ParseHHMM;
    FormatParse(v.start);
  }

  function IdBefore(order: seq<ScoredPlace>, i: nat): PlaceId
    requires i < |order|
  {
    if i == 0 then BASE_SENTINEL_ID else order[i - 1].place.id
  }

  /** The provider gave the leg into stop i. */
  predicate LegThere(order: seq<ScoredPlace>, lookup: Lookup, i: nat)
    requires i < |order|
  {
    (IdBefore(order, i), order[i].place.id) in lookup
  }

  /** The first leg missing on the way from the base through the stops leads into stop i. */
  ghost predicate FirstGap(order: seq<ScoredPlace>, lookup: Lookup, i: nat) {
    i < |order| && !LegThere(order, lookup, i) && forall j | 0 <= j < i :: LegThere(order, lookup, j)
  }

  /** When a day cannot be timed: too few legs, or else a leg missing, and then the first one missing is named. */
  lemma ScheduleFailsIff(stops: seq<ScoredPlace>, legs: seq<RouteLeg>, preserve: bool)
    ensures
      var order := if preserve then stops else ExtractMorningFirst(stops);
      var result, lookup := Schedule(stops, legs, preserve), LegsToLookup(legs);
      && (result == Failure(TooFewLegs) <==> stops != [] && |legs| < |stops|)
      && (result.Success? <==> stops == [] || (|legs| >= |stops| && HopsKnown(order, lookup)))
      && (result.Failure? && result.error.MissingLeg? ==>
            exists i | 0 <= i < |order| ::
              FirstGap(order, lookup, i) && result.error == MissingLeg(IdBefore(order, i), order[i].place.id))
  {
    hide ExtractMorningFirst, DayTimeline, StampAll, LegsToLookup, RequiredHops, FirstMissing, HopsKnown, HopMinutes,
         FirstGap;
    GapNamed(if preserve then stops else ExtractMorningFirst(stops), LegsToLookup(legs));
  }

  lemma GapNamed(order: seq<ScoredPlace>, lookup: Lookup)
    ensures
      match FirstMissing(RequiredHops(order), lookup)
      case None => HopsKnown(order, lookup)
      case Some(hop) =>
        && !HopsKnown(order, lookup)
        && exists i | 0 <= i < |order| :: FirstGap(order, lookup, i) && hop == (IdBefore(order, i), order[i].place.id)
  {
    var hops := RequiredHops(order);
    NoneMissing(hops, lookup);
    if FirstMissing(hops, lookup).Some? {
      var i := FirstMissingIs(hops, lookup);
      assert !LegThere(order, lookup, i);
      forall j | 0 <= j < i ensures LegThere(order, lookup, j) {
        assert hops[..i][j] == hops[j];
      }
    }
  }

  lemma {:induction false} FirstMissingIs(hops: seq<(PlaceId, PlaceId)>, lookup: Lookup) returns (i: nat)
    requires FirstMissing(hops, lookup).Some?
    ensures i < |hops| && FirstMissing(hops, lookup) == Some(hops[i]) && hops[i] !in lookup
    ensures forall hop | hop in hops[..i] :: hop in lookup
  {
    if hops[0] !in lookup {
      i := 0;
    } else {
      i := FirstMissingIs(hops[1..], lookup);
      assert hops[..i + 1] == [hops[0]] + hops[1..][..i];
      i := i + 1;
    }
  }

  predicate SaysVisit(stop: ScheduledStop, s: ScoredPlace, v: Visit) {
    && stop.place == s.place && stop.score == s.score
    && stop.visitDurationMin == v.end - v.start
    && (0 <= v.start < 24 * 60 ==> ParseHHMM(stop.suggestedStartTime) == Some(v.start))
    && (stop.arrivalNote == Some(LunchBreakBeforeVisit) <==> v.lunchNote)
  }

  lemma {:induction false} VisitLasts(durations: seq<nat>, hops: seq<int>, c: Clock, i: nat)
    requires i < |durations| == |hops|
    ensures Timeline(durations, hops, c)[i].end == Timeline(durations, hops, c)[i].start + durations[i]
  {
    if i > 0 {
      VisitLasts(durations[1..], hops[1..], TravelFrom(AfterVisit(c, durations[0]), hops[1]), i - 1);
    }
  }

  lemma DigitSpelled(d: nat)
    requires d < 10
    ensures Digit(d) == DIGITS[d]
  {
  }

  lemma HoursAndMinutes(hours: nat, minutes: nat)
    requires hours < 24 && minutes < 60
    ensures FormatHHMM(60 * hours + minutes) == TwoDigits(hours) + ":" + TwoDigits(minutes)
  {
    hide TwoDigits;
    var t := 60 * hours + minutes;
    assert t % MINUTES_PER_DAY == t && t / 60 == hours && t % 60 == minutes;
  }

  lemma Spelled(hours: nat, minutes: nat)
    requires hours < 24 && minutes < 60
    ensures FormatHHMM(60 * hours + minutes)
         == [DIGITS[hours / 10], DIGITS[hours % 10], ':', DIGITS[minutes / 10], DIGITS[minutes % 10]]
  {
    hide Digit, FormatHHMM;
    HoursAndMinutes(hours, minutes);
    DigitSpelled(hours / 10);
    DigitSpelled(hours % 10);
    DigitSpelled(minutes / 10);
    DigitSpelled(minutes % 10);
  }

  /** The minutes of the day used throughout are the wall-clock times they stand for. */
  lemma ClockConstants()
    ensures ParseHHMM("08:00") == Some(DAY_START)
    ensures ParseHHMM("13:00") == Some(LUNCH_BREAK_START)
    ensures ParseHHMM("10:30") == Some(MORNING_SLOT_LATEST_START)
    ensures FormatHHMM(DAY_START) == "08:00" && FormatHHMM(LUNCH_END) == "14:00"
  {
    hide ParseHHMM, FormatHHMM;
    Spelled(8, 0);
    Spelled(13, 0);
    Spelled(10, 30);
    Spelled(14, 0);
    FormatParseWithinDay(DAY_START);
    FormatParseWithinDay(LUNCH_BREAK_START);
    FormatParseWithinDay(MORNING_SLOT_LATEST_START);
  }

  /** The day ends by its start plus all hops, all visits and 149 minutes. */
  lemma DayEndsBy(durations: seq<nat>, hops: seq<int>, i: nat)
    requires i < |durations| == |hops| && NonNegative(hops) && VisitLengths(durations)
    ensures DAY_START <= DayTimeline(durations, hops)[i].start <= DayTimeline(durations, hops)[i].end
    ensures DayTimeline(durations, hops)[i].end <= DAY_START + Sum(hops) + Sum(durations) + 149
    decreases i
  {
    DayTimelineSound(durations, hops);
    TimelineEndsBy(durations, hops, Clock(DAY_START + hops[0], false), i);
    if i > 0 {
      DayEndsBy(durations, hops, i - 1);
    }
  }

  /** Within the travel cap and the visit budget no day reaches midnight, so "HH:MM" loses nothing. */
  lemma NoMidnightWrap(durations: seq<nat>, hops: seq<int>, i: nat)
    requires i < |durations| == |hops| && NonNegative(hops) && VisitLengths(durations)
    requires Sum(hops) <= MAX_DAILY_TRAVEL_MIN && Sum(durations) <= ACTIVE_DAY_VISIT_BUDGET_MIN
    ensures DayTimeline(durations, hops)[i].end < MINUTES_PER_DAY
    ensures ParseHHMM(FormatHHMM(DayTimeline(durations, hops)[i].start)) == Some(DayTimeline(durations, hops)[i].start)
  {
    DayEndsBy(durations, hops, i);
    FormatParseWithinDay(DayTimeline(durations, hops)[i].start);
  }

  // ----- Morning-only stops

  /** With at most two morning-only stops the reorder keeps every stop. */
  lemma MorningFirstKeepsAll(stops: seq<ScoredPlace>)
    requires |Filter(IsMorning, stops)| <= MAX_MORNING_ONLY_PER_DAY
    ensures multiset(ExtractMorningFirst(stops)) == multiset(stops)
    ensures |ExtractMorningFirst(stops)| == |stops|
  {
    FilterSplits(IsMorning, IsOther, stops);
    var morning := Filter(IsMorning, stops);
    if morning != [] {
      assert ExtractMorningFirst(stops) == morning[..|morning|] + Filter(IsOther, stops);
      assert morning[..|morning|] == morning;
    }
  }

  /** With more, exactly the first two morning-only stops and all the others remain. */
  lemma MorningFirstOmits(stops: seq<ScoredPlace>)
    requires |Filter(IsMorning, stops)| > MAX_MORNING_ONLY_PER_DAY
    ensures multiset(stops) == multiset(ExtractMorningFirst(stops)) + multiset(Filter(IsMorning, stops)[2..])
    ensures |ExtractMorningFirst(stops)| == |stops| - |Filter(IsMorning, stops)| + 2
  {
    var morning, others := Filter(IsMorning, stops), Filter(IsOther, stops);
    FilterSplits(IsMorning, IsOther, stops);
    assert morning == morning[..2] + morning[2..];
    assert ExtractMorningFirst(stops) == morning[..2] + others;
  }

  /** The reorder is stable: the others keep their order, and so do the morning-only stops that stay. */
  lemma MorningFirstStable(stops: seq<ScoredPlace>)
    ensures Filter(IsOther, ExtractMorningFirst(stops)) == Filter(IsOther, stops)
    ensures Filter(IsMorning, ExtractMorningFirst(stops)) == Filter(IsMorning, stops)[..MorningSlots(stops)]
  {
    var morning, others := Filter(IsMorning, stops), Filter(IsOther, stops);
    if morning != [] {
      var front := morning[..MorningSlots(stops)];
      forall x | x in front ensures IsMorning(x) && !IsOther(x) {
        FilterMembers(IsMorning, stops, x);
      }
      forall x | x in others ensures IsOther(x) && !IsMorning(x) {
        FilterMembers(IsOther, stops, x);
      }
      FilterAppend(IsOther, front, others);
      FilterAppend(IsMorning, front, others);
      FilterNone(IsOther, front);
      FilterAll(IsOther, others);
      FilterAll(IsMorning, front);
      FilterNone(IsMorning, others);
    }
  }

  lemma MultisetPrefix<T>(a: seq<T>, k: nat, b: seq<T>)
    requires k <= |a|
    ensures multiset(a[..k] + b) <= multiset(a) + multiset(b)
  {
    assert a == a[..k] + a[k..];
  }

  function MorningSlots(stops: seq<ScoredPlace>): nat {
    var n := |Filter(IsMorning, stops)|;
    if n < 2 then n else 2
  }

  /** The reordered day never has a stop the day did not have. */
  lemma MorningFirstSubset(stops: seq<ScoredPlace>)
    ensures multiset(ExtractMorningFirst(stops)) <= multiset(stops)
  {
    FilterSplits(IsMorning, IsOther, stops);
    MultisetPrefix(Filter(IsMorning, stops), MorningSlots(stops), Filter(IsOther, stops));
  }

  /** Its morning-only stops are exactly the first ones, at most two of them. */
  lemma MorningFirstShape(stops: seq<ScoredPlace>, i: nat)
    requires i < |ExtractMorningFirst(stops)|
    ensures MorningSlots(stops) <= |ExtractMorningFirst(stops)|
    ensures IsMorning(ExtractMorningFirst(stops)[i]) <==> i < MorningSlots(stops)
  {
    if Filter(IsMorning, stops) == [] {
      FilterMembers(IsMorning, stops, stops[i]);
    } else {
      FrontThenRest(stops, MorningSlots(stops), i);
    }
  }

  lemma FrontThenRest(stops: seq<ScoredPlace>, k: nat, i: nat)
    requires k <= |Filter(IsMorning, stops)| && i < k + |Filter(IsOther, stops)|
    ensures IsMorning((Filter(IsMorning, stops)[..k] + Filter(IsOther, stops))[i]) <==> i < k
  {
    var morning, others := Filter(IsMorning, stops), Filter(IsOther, stops);
    if i < k {
      FilterMembers(IsMorning, stops, morning[i]);
    } else {
      FilterMembers(IsOther, stops, others[i - k]);
    }
  }
}
