/** When a timed day keeps its morning-only stops in the morning. */
module MorningSlotProperties {
  import opened Ordering
  import opened Sequences
  import opened TravelRules
  import opened Protocols
  import opened WallClock
  import opened ScheduleBuilder
  import opened ScheduleProperties
  import opened TripValidator

  /** The start of the first two visits, written out. */
  lemma FirstTwoStarts(durations: seq<nat>, hops: seq<int>)
    requires |durations| == |hops| > 0
    ensures
      var v := DayTimeline(durations, hops);
      var c := Clock(DAY_START + hops[0], false);
      && v[0].start == VisitStart(c, durations[0])
      && (|durations| > 1 ==>
            v[1].start == VisitStart(TravelFrom(AfterVisit(c, durations[0]), hops[1]), durations[1]))
  {
    var c := Clock(DAY_START + hops[0], false);
    if |durations| > 1 {
      var arrival := TravelFrom(AfterVisit(c, durations[0]), hops[1]);
      assert DayTimeline(durations, hops)[1] == Timeline(durations[1..], hops[1..], arrival)[0];
    }
  }

  /** The raw start of a morning-only first stop is by 10:30 exactly when its hop is at most 150 minutes. */
  lemma FirstMorningStart(durations: seq<nat>, hops: seq<int>)
    requires |durations| == |hops| > 0 && durations[0] == 20 && hops[0] >= 0
    ensures DayTimeline(durations, hops)[0].start <= MORNING_SLOT_LATEST_START <==> hops[0] <= 150
  {
    FirstTwoStarts(durations, hops);
  }

  /** The second of two morning-only stops starts by 10:30 exactly when the first two hops total at most 130 minutes. */
  lemma SecondMorningStart(durations: seq<nat>, hops: seq<int>)
    requires |durations| == |hops| > 1 && durations[0] == durations[1] == 20 && hops[0] >= 0 && hops[1] >= 0
    ensures DayTimeline(durations, hops)[1].start <= MORNING_SLOT_LATEST_START <==> hops[0] + hops[1] <= 130
  {
    FirstTwoStarts(durations, hops);
  }

  /** Hops short enough for the morning-only stops at the front of the day. */
  predicate MorningHops(slots: nat, hops: seq<int>)
    requires slots <= 2 && slots <= |hops|
  {
    (slots == 1 ==> hops[0] <= 150) && (slots == 2 ==> hops[0] + hops[1] <= 130)
  }

  /** A day that stays within midnight: "HH:MM" then tells the real minute. */
  ghost predicate EndsSameDay(durations: seq<nat>, hops: seq<int>) {
    DAY_START + Sum(hops) + Sum(durations) + 149 < MINUTES_PER_DAY
  }

  lemma StampedStart(order: seq<ScoredPlace>, hops: seq<int>, i: nat)
    requires i < |order| == |hops|
    requires 0 <= DayTimeline(Durations(order), hops)[i].start < MINUTES_PER_DAY
    ensures ParseHHMM(StampAll(order, DayTimeline(Durations(order), hops))[i].suggestedStartTime)
         == Some(DayTimeline(Durations(order), hops)[i].start)
  {
    FormatParseWithinDay(DayTimeline(Durations(order), hops)[i].start);
  }

  lemma DurationsBounded(order: seq<ScoredPlace>)
    ensures VisitLengths(Durations(order))
  {
  }

  lemma MorningSlotIff(ordered: seq<ScoredPlace>, hops: seq<int>, i: nat)
    requires i < MorningSlots(ordered)
    requires |hops| == |ExtractMorningFirst(ordered)| && NonNegative(hops) && MorningSlots(ordered) <= |hops|
    requires 0 <= DayTimeline(Durations(ExtractMorningFirst(ordered)), hops)[i].start < MINUTES_PER_DAY
    ensures
      var order := ExtractMorningFirst(ordered);
      var stop := StampAll(order, DayTimeline(Durations(order), hops))[i];
      && ReadableStart(stop)
      && (LateMorning(stop, i + 1) <==> if i == 0 then hops[0] > 150 else hops[0] + hops[1] > 130)
  {
    hide FormatHHMM, ParseHHMM;
    var order := ExtractMorningFirst(ordered);
    var durations := Durations(order);
    MorningFirstShape(ordered, 0);
    MorningFirstShape(ordered, i);
    StampedStart(order, hops, i);
    if i == 0 {
      FirstMorningStart(durations, hops);
    } else {
      SecondMorningStart(durations, hops);
    }
  }

  /**
   * A reordered day that stays within midnight passes the morning check exactly when its hops are short
   * enough: 150 minutes to a single morning-only stop, 130 in all to the second of two.
   */
  lemma MorningCheckIff(ordered: seq<ScoredPlace>, hops: seq<int>)
    requires |hops| == |ExtractMorningFirst(ordered)| && NonNegative(hops)
    requires EndsSameDay(Durations(ExtractMorningFirst(ordered)), hops)
    ensures MorningSlots(ordered) <= |hops|
    ensures
      var order := ExtractMorningFirst(ordered);
      MorningInPlace(StampAll(order, DayTimeline(Durations(order), hops))) <==> MorningHops(MorningSlots(ordered), hops)
  {
    hide DayTimeline, FormatHHMM, ParseHHMM, LateMorning, MorningInPlace;
    var order := ExtractMorningFirst(ordered);
    var durations := Durations(order);
    var stops := StampAll(order, DayTimeline(durations, hops));
    DurationsBounded(order);
    SlotsFit(ordered);
    forall i | 0 <= i < |order|
      ensures ReadableStart(stops[i])
      ensures i >= MorningSlots(ordered) ==> !MorningOnly(stops[i].place.category)
      ensures i < MorningSlots(ordered) ==>
                (LateMorning(stops[i], i + 1) <==> if i == 0 then hops[0] > 150 else hops[0] + hops[1] > 130)
    {
      MorningFirstShape(ordered, i);
      DayEndsBy(durations, hops, i);
      if i < MorningSlots(ordered) {
        MorningSlotIff(ordered, hops, i);
      }
    }
    InPlaceIff(ordered, hops, stops);
  }

  lemma SlotsFit(ordered: seq<ScoredPlace>)
    ensures MorningSlots(ordered) <= |ExtractMorningFirst(ordered)|
  {
    var n := |Filter(IsMorning, ordered)|;
    if ordered == [] {
    } else if |ExtractMorningFirst(ordered)| > 0 {
      MorningFirstShape(ordered, 0);
    }
  }

  lemma InPlaceIff(ordered: seq<ScoredPlace>, hops: seq<int>, stops: seq<ScheduledStop>)
    requires |stops| == |hops| && MorningSlots(ordered) <= |hops| && NonNegative(hops)
    requires forall i | 0 <= i < |stops| :: ReadableStart(stops[i])
    requires forall i | MorningSlots(ordered) <= i < |stops| :: !MorningOnly(stops[i].place.category)
    requires forall i | 0 <= i < MorningSlots(ordered) ::
               LateMorning(stops[i], i + 1) <==> if i == 0 then hops[0] > 150 else hops[0] + hops[1] > 130
    ensures MorningInPlace(stops) <==> MorningHops(MorningSlots(ordered), hops)
  {
    hide LateMorning;
    InPlaceMeans(stops);
    forall i | MorningSlots(ordered) <= i < |stops| ensures !LateMorning(stops[i], i + 1) {
      NotMorningNotLate(stops[i], i + 1);
    }
    var slots := MorningSlots(ordered);
    if slots > 0 {
      assert LateMorning(stops[0], 1) <==> hops[0] > 150;
    }
    if slots == 2 {
      assert LateMorning(stops[1], 2) <==> hops[0] + hops[1] > 130;
    }
    if !MorningHops(slots, hops) {
      assert slots == 2 ==> LateMorning(stops[1], 2);
      assert slots == 1 ==> LateMorning(stops[0], 1);
    }
  }

  /**
   * Whatever the rest of the day: if the first two hops of the scheduled order total at most 130 minutes,
   * the morning check reports nothing.
   */
  lemma ShortFirstHopsPass(ordered: seq<ScoredPlace>, hops: seq<int>)
    requires |hops| == |ExtractMorningFirst(ordered)| && NonNegative(hops)
    requires |hops| > 0 ==> hops[0] + (if |hops| > 1 then hops[1] else 0) <= 130
    ensures
      var order := ExtractMorningFirst(ordered);
      MorningInPlace(StampAll(order, DayTimeline(Durations(order), hops)))
  {
    hide DayTimeline, FormatHHMM, ParseHHMM, LateMorning, MorningInPlace;
    var order := ExtractMorningFirst(ordered);
    var durations := Durations(order);
    InPlaceMeans(StampAll(order, DayTimeline(durations, hops)));
    SlotsFit(ordered);
    forall i | 0 <= i < |order|
      ensures ReadableStart(StampAll(order, DayTimeline(durations, hops))[i])
      ensures !LateMorning(StampAll(order, DayTimeline(durations, hops))[i], i + 1)
    {
      MorningFirstShape(ordered, i);
      if i < MorningSlots(ordered) {
        MorningStartsEarly(ordered, hops, i);
        MorningSlotIff(ordered, hops, i);
      } else {
        NotMorningNotLate(StampAll(order, DayTimeline(durations, hops))[i], i + 1);
      }
    }
  }

  lemma NotMorningNotLate(stop: ScheduledStop, slot: nat)
    requires !MorningOnly(stop.place.category)
    ensures ReadableStart(stop) && !LateMorning(stop, slot)
  {
  }

  lemma MorningStartsEarly(ordered: seq<ScoredPlace>, hops: seq<int>, i: nat)
    requires |hops| == |ExtractMorningFirst(ordered)| && NonNegative(hops) && i < MorningSlots(ordered) <= |hops|
    requires hops[0] + (if |hops| > 1 then hops[1] else 0) <= 130
    ensures
      var start := DayTimeline(Durations(ExtractMorningFirst(ordered)), hops)[i].start;
      DAY_START <= start <= MORNING_SLOT_LATEST_START
  {
    hide DayTimeline;
    var durations := Durations(ExtractMorningFirst(ordered));
    MorningFirstShape(ordered, 0);
    MorningFirstShape(ordered, i);
    DurationsBounded(ExtractMorningFirst(ordered));
    DayEndsBy(durations, hops, i);
    if i == 0 {
      FirstMorningStart(durations, hops);
    } else {
      SecondMorningStart(durations, hops);
    }
  }

  /** The same about the builder's own output: an exact condition on the first hops of the order it timed. */
  lemma ScheduledMorningCheck(ordered: seq<ScoredPlace>, legs: seq<RouteLeg>, stops: seq<ScheduledStop>)
    requires ordered != [] && Schedule(ordered, legs, false) == Success(stops)
    requires HopsKnown(ExtractMorningFirst(ordered), LegsToLookup(legs))
    requires NonNegative(HopMinutes(ExtractMorningFirst(ordered), LegsToLookup(legs)))
    requires EndsSameDay(Durations(ExtractMorningFirst(ordered)),
                         HopMinutes(ExtractMorningFirst(ordered), LegsToLookup(legs)))
    ensures MorningSlots(ordered) <= |ExtractMorningFirst(ordered)|
    ensures MorningInPlace(stops)
       <==> MorningHops(MorningSlots(ordered), HopMinutes(ExtractMorningFirst(ordered), LegsToLookup(legs)))
  {
    hide DayTimeline, MorningInPlace, MorningHops, FormatHHMM;
    var order := ExtractMorningFirst(ordered);
    NoneMissing(RequiredHops(order), LegsToLookup(legs));
    MorningCheckIff(ordered, HopMinutes(order, LegsToLookup(legs)));
  }
}
