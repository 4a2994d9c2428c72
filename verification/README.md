# Itinerary planner: a verified model

This project models the logic of a travel planner and proves what that logic guarantees. An agent (a language
model) proposes tool calls; a phase machine decides which of them run and when the plan is finished. The tools call a
travel engine that packs places into days, orders each day, times it against the clock and validates the result. A
stored trip can then be edited one day at a time, each edit being validated as part of the whole trip and recorded in
an audit log. Two small parts sit at the edges: encoded polylines and a sliding-window rate limiter.

`dafny verify dfyconfig.toml` checks everything.

## How the model is built

Code that works by changing things step by step is written as methods: loops for the engine's loops, a class whose one
field is the planner's state (`PlannerGraph.Planner`), a class with the trip's rows and audit log
(`TripService.Service`), and a class with the limiter's dictionary (`RateLimiter.InMemoryRateLimiter`). Each of those
methods is proved equal to a specification function of its inputs or of the old state, and the properties are then
proved about those functions, over all inputs and all runs.

- **Travel engine**: `TravelRules`, `PlaceSelector` with `Ranking`, `DayAllocator` with `AllocationProperties`,
  `RouteOptimizer` with `Permutations`, `Protocols`, `ScheduleBuilder` with `ScheduleProperties` and
  `MorningSlotProperties`, `TripValidator`, and their composition in `TravelEngine`, `EngineProperties` and
  `EngineValidation`.
- **Trip edits**: `TripModel` (rows, edits, what each edit computes), `TripService` (the class), `TripRows`,
  `TripDrafts`, `TripProperties` (one edit), `TripRequests` (when an edit is accepted, what its event says),
  `TripRuns` (whole histories), `TripCounterexample`.
- **Legs**: `TravelHops` (travel, leg by leg) and `RouteGeometry` (waypoints and polylines), of planned and edited days.
- **Planner**: `PlannerMachine` (the state and its steps), `PlannerGraph` (the class), `PlannerTable` (gate, merge,
  transitions and detector, edge by edge), `PlannerTermination`, `PlannerRunLength`, `PlannerRecursionLimit`,
  `PlannerSafety`, `PlannerFinish`.
- **Edges**: `Polyline`, `RateLimiter`.
- **Helpers**: `Ordering` (lexicographic order, stable sort), `Sequences`.

What is assumed, and where: stops handed to the engine have distinct ids, none of them the base's (`DistinctStops`);
the composition of the engine assumes a routing provider that answers every ordered pair with a non-negative duration
(`HonestProvider`); run lengths and the work cap assume only that no tool reports the code reserved for unregistered
names (`PlainOutcome`; `PlannerRecursionLimit.ReservedCodeNeverEnds` shows that this is needed); and the meaning of a finished plan assumes that the registered tools write the keys their own code
writes and that validation reports on the schedule in state (`HonestMicros`). The agent, the tool outcomes, routing and
distances are otherwise arbitrary. An edit assumes what the database enforces: a place occurs at most once in a trip,
and every row's place exists (`TripOk`).

## Claims that turned out false

The code is kept as it is; each of these has a lemma with an input that shows it, and a lemma with the condition under
which the claim does hold.

- *A stop is never scheduled before its travel time has passed.* False when a hop crosses lunch:
  `ScheduleProperties.LongHopCutShort`. It holds exactly when the hop does not start before 13:00 and run past 14:00:
  `ScheduleProperties.HopSound`.
- *Adding a stop keeps the other stops of the day.* False with three morning-only stops:
  `TripCounterexample.AddLosesAStop`. It holds exactly when the new stop is not a third morning-only one:
  `TripProperties.EditChangesDay`.
- *The line drawn to a stop is the way to it.* False when the schedule moves a morning-only stop to the front after the
  lines were asked for: `RouteGeometry.MapMissesTravel`. It holds exactly when no morning-only stop comes after another
  kind of stop in the optimizer's order: `RouteGeometry.MapShowsTravelIff`.
- *The recursion limit covers every run.* False at the default settings, even when all tools do what they should:
  `PlannerRecursionLimit.RecursionLimitCanBeExceeded`. With M tool calls, L cycles until a phase counts as stuck and R
  replans, it holds exactly when M = 1, or L = 1, or L = 2 and (R <= 1 or M <= 3):
  `PlannerRecursionLimit.RecursionLimitIff`. The longest run is known exactly (`PlannerRunLength.RunLength`,
  `PlannerRecursionLimit.WorstCaseAttained`): 39 cycles at the defaults, against 24 that fit.
  `src/planner/service.py:41-45` describes the limit as enough; the code is what is modelled.
- *A complete plan that was not aborted was validated.* False when the stuck detector forces completion:
  `PlannerFinish.ForcedPlanNotValidated`. It holds exactly when the trace shows a validation that passed:
  `PlannerFinish.CompletePlanValidatedIff`; in particular whenever the forced-completion warning is absent:
  `PlannerFinish.FinishedIsValidated`.

## Model

| member | source | states |
|---|---|---|
| PlannerGraph.Planner.ApplyToolResult | src/planner/tools/orchestration.py:135-185 | merging a result in place, key by key, leaves the state the merge specification gives: counted if the name was resolved, list keys extended, whitelisted keys set, anything else ignored, one trace entry added |
| PlannerGraph.Planner.MaybeTransitionPhase | src/planner/tools/orchestration.py:188-250 | the chain of early returns implements the transition table, cap first |
| PlannerGraph.Planner.AnyStops | src/planner/tools/orchestration.py:260-269 | true exactly when some scheduled day has a stop |
| PlannerGraph.Planner.AdvanceStuckPhase | src/planner/tools/orchestration.py:309-364 | what a phase stuck for the limit is turned into, warning included |
| PlannerGraph.Planner.RunStuckDetector | src/planner/tools/orchestration.py:293-366 | records the fingerprint and counts repeats, and advances the phase only at the limit |
| PlannerGraph.Planner.AgentNode | src/planner/graph/nodes/agent.py:85-142 | leaves the specified state and pending calls: none and WRAP_UP at the cap, a synthesized default when the model does not answer |
| PlannerGraph.Planner.ToolExecutorNode | src/planner/graph/nodes/tool_executor.py:27-84 | a batch of any size runs call by call, each gated in the state the previous one left, and the detector runs afterwards |
| PlannerGraph.Planner.RunGraph | src/planner/graph/builder.py:19-51 | for every agent, and tools that do not report the reserved code, the agent and executor loop ends within the cycle bound, in a state with a final flag, having stopped at the first such state |
| PlannerTermination.DataNeverWritesControl | src/planner/tools/orchestration.py:20-45 | whatever keys a tool's data names, phase, loop counter, trace, replan budget and detector state are not written, and warnings and errors only grow |
| PlannerTermination.CallMeasures | src/planner/tools/orchestration.py:146-250 | a call (of a tool that does not report the reserved code) never raises the rank, the number of times a phase can still be stuck, and counts exactly when its name is registered |
| PlannerTermination.TransitionRank | src/planner/tools/orchestration.py:206-250 | what a transition gains in phases, going round REPLAN and PLAN again, it has paid for with the call and the replan it used |
| PlannerTermination.UnregisteredCall | src/planner/tools/registry.py:203-217 | an unknown name below the cap changes nothing but the trace, unless the replan budget is used up and it ends REPLAN |
| PlannerTermination.UnstickAdvances | src/planner/tools/orchestration.py:307-364 | unsticking lowers the phase rank, or completes a plan that is already in WRAP_UP |
| PlannerTermination.CycleDecreases | src/planner/graph/nodes/tool_executor.py:27-84 | when tools do not report the reserved code, every cycle that does not end the run lowers a potential made of calls left, rank and stuck cycles, which is positive between cycles |
| PlannerRunLength.EveryRunEnds | src/planner/graph/builder.py:19-51 | for any agent, and any tool results that do not carry the reserved code, one of the first WorstCase(MAX, L, max_replan) cycles ends the run |
| PlannerRunLength.RunLength | src/planner/graph/builder.py:19-51 | under the same assumption no run the graph makes is longer than that bound, (L - 1) * MAX + L * (4 + rounds of REPLAN that calls and budget allow) |
| PlannerRunLength.CapForcesWrapUp | src/planner/tools/orchestration.py:193-200 | the very call that reaches the cap forces WRAP_UP and abort |
| PlannerRunLength.RunLengthByIdle | src/planner/graph/nodes/agent.py:92-98 | a run takes at most MAX + L - 1 cycles besides those that call only unregistered names |
| PlannerRunLength.FewIdleCyclesFit | src/planner/service.py:40-48 | whatever the settings, a run with at most 3L + 1 cycles that call only unregistered names fits the computed recursion limit |
| PlannerRunLength.DefaultToolAllowed | src/planner/graph/nodes/agent.py:53-76 | every synthesized default is a registered tool of the current phase |
| PlannerRunLength.SilentModelFits | src/planner/graph/nodes/agent.py:116-142 | with a model that never answers, a run ends within MAX + L - 1 cycles and fits the recursion limit |
| PlannerRecursionLimit.WorstCaseAttained | src/planner/graph/builder.py:19-51 | the bound on run lengths is attained: with L and MAX at least 2 there is a run of exactly that many cycles |
| PlannerRecursionLimit.LongRun | src/planner/tools/orchestration.py:293-364 | a run of (L - 1) * MAX + L * (4 + rounds) cycles, for every number of rounds that calls and replans allow |
| PlannerRecursionLimit.RecursionLimitIff | src/planner/service.py:40-48 | the recursion limit covers every run if and only if MAX = 1, or L = 1, or L = 2 and (max_replan <= 1 or MAX <= 3) |
| PlannerRecursionLimit.SearchingRun | src/planner/tools/orchestration.py:293-364 | searches and unregistered names alone make a run of (L - 1) * MAX + 2L + 1 cycles |
| PlannerRecursionLimit.RecursionLimitCanBeExceeded | src/planner/service.py:40-48 | with the default limits, a run of only successful searches and unregistered names needs 65 steps against a limit of 52 |
| PlannerRecursionLimit.ReservedCodeNeverEnds | src/planner/tools/orchestration.py:146-149 | a registered tool that reports the reserved code is never counted, and can keep a run going for any number of cycles |
| PlannerSafety.RunIsMicros | src/planner/graph/nodes/tool_executor.py:46-76 | a run taken step by step (decide, each call, detect) is the run of whole cycles, so what holds of every step holds mid-batch |
| PlannerSafety.MicroPhases | src/planner/tools/orchestration.py:206-250 | in every step: WRAP_UP is never left, REPLAN is entered only from VALIDATE within the budget, and left only for PLAN (below the budget) or WRAP_UP |
| PlannerSafety.ReplanBudget | src/planner/tools/orchestration.py:226-250 | over any run REPLAN is entered at most max_replan times and left for PLAN at most max_replan - 1 times |
| PlannerSafety.CallTrace | src/planner/tools/orchestration.py:146-182 | each call adds one trace entry with its name, verdict, phase and code |
| PlannerSafety.WorkIsCounted | src/planner/tools/orchestration.py:146-149 | at every step of a run whose tools do not report the reserved code, the tools run so far are within the loop count and within MAX |
| PlannerSafety.WorkCap | src/planner/tools/orchestration.py:193-200 | when tools do not report the reserved code, tool functions other than finish_plan run at most MAX times in a run however large the batches, the loop count equals the counted trace entries, and a capped state is in WRAP_UP |
| PlannerFinish.TransitionAgrees | src/planner/tools/orchestration.py:188-250 | a transition never takes back an abort or leaves WRAP_UP, and touches neither schedule nor validation |
| PlannerFinish.ValidationMerged | src/planner/tools/validate_itinerary.py:111-122 | after an honest validation the state holds the verdict on the very schedule and route still in state |
| PlannerFinish.ValidationCall | src/planner/tools/validate_itinerary.py:111-122 | an honest validation, followed by its transition, keeps the invariant: a state that claims to be validated is in WRAP_UP with an acceptable schedule |
| PlannerFinish.FinishCall | src/planner/tools/registry.py:61-71 | a finish_plan that passed its gate and writes only its own keys keeps the invariant |
| PlannerFinish.MicroKeepsTrust | src/planner/graph/nodes/tool_executor.py:46-76 | every step keeps the invariant: a state that claims to be validated is in WRAP_UP and its schedule is acceptable |
| PlannerFinish.CompletePlanValidatedIff | src/planner/tools/orchestration.py:344-364 | a run of honest tools ends with a passing validation result if and only if its trace shows a validation that passed; then schedule and route in state are an acceptable itinerary; a complete, non-aborted plan without one carries the forced-completion warning |
| PlannerFinish.FinishedIsValidated | src/planner/tools/registry.py:61-71 | a run that ends complete, not aborted and not forced has a passing validation result, and the schedule and route in its final state are an acceptable itinerary |
| PlannerFinish.ForcedPlanNotValidated | src/planner/tools/orchestration.py:344-364 | a six-cycle run that ends complete and not aborted without any validation |
| PlannerTable.OfferedIffAllowed | src/planner/tools/schemas.py:20-36 | the offer and the gate agree: a tool is offered to the model in a phase exactly when the registry allows it there |
| PlannerTable.RunsIffOffered | src/planner/tools/registry.py:203-250 | a tool's function runs exactly when it is offered in the current phase and, for finish_plan, after an abort or a validation; an unknown name, a refusal and an exception each give their own code and no data |
| PlannerTable.LastWriteWins | src/planner/tools/orchestration.py:150-172 | after a merge each of the ten settable keys holds the last value the data offered for it, or what it held before |
| PlannerTable.ListsAppend | src/planner/tools/orchestration.py:150-172 | warnings and errors are appended in order, none lost |
| PlannerTable.CallEdges | src/planner/tools/orchestration.py:188-250 | the transition table about whole calls, below the cap, as if-and-only-if over the phase before, the phase after and the name and verdict in the call's own trace entry: DISCOVER to PLAN, PLAN to VALIDATE, VALIDATE to WRAP_UP and REPLAN, every way out of REPLAN, when a call aborts or asks for clarification, and when the replan count goes up |
| PlannerTable.FingerprintIff | src/planner/tools/orchestration.py:272-290 | two states have the same fingerprint exactly when they agree on the phase, the four lengths and the rendering of the first five errors |
| PlannerTable.CountsRepeats | src/planner/tools/orchestration.py:293-307 | below the limit the detector counts on exactly when nothing it looks at has changed since it last looked, and changes nothing else |
| PlannerTable.StuckEdges | src/planner/tools/orchestration.py:307-364 | at the limit: for each phase where it goes, whether it aborts, the warning it leaves, and that only WRAP_UP is completed |
| PlannerTable.AgentEdges | src/planner/graph/nodes/agent.py:85-142 | the agent only decides: below the cap the state keeps everything but one warning when the model was nudged or did not answer, and a call is always pending; at the cap it wraps up, aborts and leaves nothing pending |
| PlannerTable.SilentCall | src/planner/graph/nodes/agent.py:53-76 | the one call a model that says nothing is taken to have made, exactly: by phase, and by readiness, candidates and route |
| PlaceSelector.PairsConflict | src/travel_engine/place_selector.py:69-76 | the pair walk, with its two cases, is the unordered match of two categories against the pairs |
| PlaceSelector.SelectPlaces | src/travel_engine/place_selector.py:83-107 | the loop over the ranking computes the specified selection |
| PlaceSelector.KeptIsTheOnlyChoice | src/travel_engine/place_selector.py:1-11 | any conflict-free choice that passes a place over only for a conflicting higher-ranked one is the selection, for any pairs |
| PlaceSelector.KeptChooses | src/travel_engine/place_selector.py:102-107 | the selection is such a choice |
| PlaceSelector.SelectionInputIndependent | src/travel_engine/place_selector.py:100-100 | with distinct ids the selection does not depend on the order of the candidates |
| PlaceSelector.BestMonasteryOnly | src/travel_engine/travel_rules.py:38-38 | nothing but monasteries is ever passed over; at most one monastery is kept, and it scores at least as high as every monastery offered |
| Ranking.RankingByScore | src/travel_engine/day_allocator.py:124-127 | the ranking puts higher scores first, then names in order, then ids |
| DayAllocator.BuildClusters | src/travel_engine/day_allocator.py:78-94 | each place joins the first cluster within the radius or opens a new one |
| DayAllocator.AllocateCluster | src/travel_engine/day_allocator.py:134-155 | one cluster is placed on the preferred day, spilling to the nearest day that accepts |
| DayAllocator.AllocateDays | src/travel_engine/day_allocator.py:97-157 | the nested loops compute the specified allocation, and fewer than one day is an error |
| DayAllocator.AllocationSound | src/travel_engine/day_allocator.py:97-157 | exactly `days` lists within all three caps; every place is in one list or omitted, with multiplicity; an omitted place fits in no day of the final result |
| DayAllocator.AllocationDistinct | src/travel_engine/day_allocator.py:134-157 | no stop is placed twice, on one day or on two |
| DayAllocator.TwoPerDayAllPlaced | src/travel_engine/day_allocator.py:45-56 | with at most two places a day nothing is omitted |
| DayAllocator.FivePerDayAllPlaced | src/travel_engine/day_allocator.py:45-56 | with at most five places a day, none morning-only, nothing is omitted |
| DayAllocator.MorningOnlyLimit | src/travel_engine/day_allocator.py:48-52 | of morning-only places exactly min(n, 2 * days) are placed, so two a day cannot be improved |
| AllocationProperties.JoinsFirstNear | src/travel_engine/day_allocator.py:81-93 | a place joins the first cluster whose centroid is within 10 km of it and no other; when there is none it is a new cluster |
| AllocationProperties.ClustersByTopScore | src/travel_engine/day_allocator.py:129-132 | clusters are placed by their best score, larger ones first on a tie |
| AllocationProperties.RoomIff | src/travel_engine/day_allocator.py:37-56 | a day has room exactly when it has fewer than six stops, at most one morning-only beside a morning-only place, and 450 minutes for all visits |
| AllocationProperties.PlaceGoesTo | src/travel_engine/day_allocator.py:141-155 | a place goes to the preferred day if it fits; else to the nearest day that accepts it, the emptier and then the earlier on a tie; else nowhere |
| AllocationProperties.ClusterStaysTogether | src/travel_engine/day_allocator.py:134-146 | a cluster that fits on the day with the fewest places when its turn comes is together on that day in the final allocation |
| AllocationProperties.BestPlaceFirst | src/travel_engine/day_allocator.py:120-146 | the first day opens with a place that scores at least as high as every other |
| AllocationProperties.SinglesBalance | src/travel_engine/day_allocator.py:134-146 | with one-place clusters and no spill, day sizes differ by at most one |
| AllocationProperties.FarPlacesSpread | src/travel_engine/day_allocator.py:97-157 | places no two of which are within 10 km, at most two a day (or five, none morning-only): all are placed and day sizes differ by at most one; with no more places than days, no day gets two |
| Permutations.Sound | src/travel_engine/route_optimizer.py:110-114 | every enumerated order is an arrangement of the stops |
| Permutations.Complete | src/travel_engine/route_optimizer.py:110-114 | every arrangement of the stops is enumerated |
| RouteOptimizer.ScoreOrder | src/travel_engine/route_optimizer.py:53-62 | the loop adds up the chain's hops from the base, a missing hop costing the penalty |
| RouteOptimizer.FindBestOrder | src/travel_engine/route_optimizer.py:102-121 | the search loop returns the specified best order and its travel |
| RouteOptimizer.BestOrderOptimal | src/travel_engine/route_optimizer.py:102-121 | the result is an arrangement of the stops and is least by (travel, id tuple) among all arrangements |
| RouteOptimizer.BestOrderUnique | src/travel_engine/route_optimizer.py:112-120 | with distinct ids nothing else is least: an independent description of the search |
| RouteOptimizer.BestOrderInputIndependent | src/travel_engine/route_optimizer.py:102-121 | the order the stops arrive in does not matter |
| RouteOptimizer.DropsSplitDay | src/travel_engine/route_optimizer.py:124-125 | k drops split the day into its k lowest stops by (score, name, id), ascending, and the rest |
| RouteOptimizer.PopulateLegPolylines | src/travel_engine/route_optimizer.py:128-157 | one polyline per leg and one for the day, none for an empty day |
| RouteOptimizer.OptimizeRoute | src/travel_engine/route_optimizer.py:160-236 | the drop-and-retry loop computes the specified result |
| RouteOptimizer.OptimizeRouteExact | src/travel_engine/route_optimizer.py:182-236 | dropped stops are the lowest by (score, name, id); with the ordered ones they are the input; the order is optimal; every earlier prefix of drops left an optimum over the cap; the loop stops only under the cap, at one stop or after five drops; the over-budget flag is exact |
| RouteOptimizer.WithinCapOrSingle | src/travel_engine/route_optimizer.py:186-211 | a day of up to six stops ends within 180 minutes or with one stop |
| RouteOptimizer.WorstDropped | src/travel_engine/route_optimizer.py:124-125 | every stop dropped, recorded by id and name, ranks below every stop kept, by score, then name, then id, and the drops go up in rank |
| RouteGeometry.RouteDrawn | src/travel_engine/route_optimizer.py:128-157 | the legs of a routed day are one matrix over the base and the stops kept, at their places; each stop's polyline is asked for from the stop before it, or the base, to it; the day's polyline runs from the base through all of them |
| TravelHops.TravelSumsLegs | src/travel_engine/route_optimizer.py:44-62 | the travel the optimizer minimizes is the sum of the durations of the legs along the order |
| TravelHops.BestOrderAvoidsGaps | src/travel_engine/route_optimizer.py:44-50 | a leg the provider did not give is used only if every order lacks one |
| WallClock.FormatParse | src/travel_engine/schedule_builder.py:43-50 | parsing a formatted time gives the minute of the day, modulo midnight |
| WallClock.FormatParseWithinDay | src/travel_engine/schedule_builder.py:43-50 | within one day the round trip is exact |
| ScheduleBuilder.TakeLunch | src/travel_engine/schedule_builder.py:136-147 | lunch is inserted before a visit that would cross it or that begins after it is due |
| ScheduleBuilder.Travel | src/travel_engine/schedule_builder.py:159-172 | a hop that reaches lunch time ends at the end of lunch |
| ScheduleBuilder.TimeStops | src/travel_engine/schedule_builder.py:124-174 | the timing loop stamps each stop with its visit on the specified timeline |
| ScheduleBuilder.BuildDaySchedule | src/travel_engine/schedule_builder.py:89-174 | the specified schedule, or the error for too few legs or the first missing hop |
| ScheduleProperties.VisitSound | src/travel_engine/schedule_builder.py:132-157 | every visit has its length and lies outside lunch |
| ScheduleProperties.HopSound | src/travel_engine/schedule_builder.py:159-172 | visits never overlap, and a stop is reached on time if and only if its hop does not start before lunch and run past its end |
| ScheduleProperties.DayTimelineSound | src/travel_engine/schedule_builder.py:124-174 | the same for every visit of a day, for any visits and non-negative hops |
| ScheduleProperties.ShortHopsOnTime | src/travel_engine/schedule_builder.py:163-172 | a hop of at most 60 minutes is always allowed its full time |
| ScheduleProperties.LongHopCutShort | src/travel_engine/schedule_builder.py:165-170 | leaving at 12:00 on a 180-minute hop is scheduled to arrive at 14:00 |
| ScheduleProperties.DayLunchAtMostOnce | src/travel_engine/schedule_builder.py:129-145 | of any two visits at least one starts exactly on arrival and carries no lunch note |
| ScheduleProperties.DayStarts | src/travel_engine/schedule_builder.py:124-172 | when each visit of a day starts: on arrival, or at 14:00 when the hop reaches 13:00 from before, or, with the note, an hour after the later of arrival and 13:00, and then only if the visit would otherwise cross 13:00 or begin at or after it and the hop did not cross it already |
| ScheduleProperties.StopsAsTimed | src/travel_engine/schedule_builder.py:147-157 | every timed stop keeps its place and score, lasts as long as its visit on the timeline, reads back as the start the timeline gives it, and has the lunch note exactly when the timeline puts lunch before it |
| ScheduleProperties.ScheduleFailsIff | src/travel_engine/schedule_builder.py:104-122 | a day cannot be timed exactly when there are fewer legs than stops, or else a leg on the way from the base through the stops is missing; then the first one missing is named |
| ScheduleProperties.ClockConstants | src/travel_engine/travel_rules.py:10-13 | the minutes used are those of "08:00", "13:00" and "10:30", as the parser reads them |
| ScheduleProperties.DayEndsBy | src/travel_engine/schedule_builder.py:124-172 | every visit ends by 08:00 plus all hops, all visits and 149 minutes |
| ScheduleProperties.NoMidnightWrap | src/travel_engine/schedule_builder.py:48-50 | within the travel cap and the visit budget no time wraps, so the stored text gives back the raw minute |
| ScheduleProperties.MorningFirstKeepsAll | src/travel_engine/schedule_builder.py:53-66 | with at most two morning-only stops the reorder is a permutation |
| ScheduleProperties.MorningFirstOmits | src/travel_engine/schedule_builder.py:53-66 | with more, exactly the morning-only stops after the second are lost |
| ScheduleProperties.MorningFirstShape | src/travel_engine/schedule_builder.py:53-66 | the morning-only stops of the result are exactly its first ones, at most two |
| ScheduleProperties.MorningFirstStable | src/travel_engine/schedule_builder.py:53-66 | the reorder is stable: the others keep their order, and so do the morning-only stops that stay, the first ones |
| MorningSlotProperties.MorningCheckIff | src/travel_engine/trip_validator.py:99-115 | a reordered day that stays within midnight passes the morning check exactly when its first hops are short enough (150 minutes to one morning-only stop, 130 to the second of two) |
| MorningSlotProperties.ShortFirstHopsPass | src/travel_engine/trip_validator.py:99-115 | whatever the rest of the day, first two hops of at most 130 minutes in all pass the check |
| MorningSlotProperties.ScheduledMorningCheck | src/travel_engine/trip_validator.py:99-115 | the exact condition, about the builder's own output |
| TripValidator.CheckDailyTravelCap | src/travel_engine/trip_validator.py:71-79 | one error for each day over the cap, in order |
| TripValidator.CheckNoRepeatPlaces | src/travel_engine/trip_validator.py:82-96 | one error for each id counted more than once, in the order first seen |
| TripValidator.CheckMorningSlots | src/travel_engine/trip_validator.py:99-115 | one error for each morning-only stop in slot three or later or after 10:30; an unreadable start of a morning-only stop raises |
| TripValidator.CheckAnchorPerDay | src/travel_engine/trip_validator.py:118-125 | one error for each day without a stop scored above the anchor threshold |
| TripValidator.CheckGeoCoherence | src/travel_engine/trip_validator.py:128-139 | one error for each day of two or more stops that is too spread out |
| TripValidator.ValidateTrip | src/travel_engine/trip_validator.py:142-167 | the five checks in order, an empty itinerary failing, a dropped stop only warning |
| TripValidator.TravelCapFires | src/travel_engine/trip_validator.py:71-79 | the cap error of a day is reported if and only if the day is over |
| TripValidator.NoRepeatIff | src/travel_engine/trip_validator.py:82-96 | no repeat is reported if and only if no place occurs twice in the whole itinerary |
| TripValidator.PassesIffAcceptable | src/travel_engine/trip_validator.py:142-167 | validation passes exactly on the itineraries acceptable by a description that does not mention the checks |
| TripValidator.ReportedIffHolds | src/travel_engine/trip_validator.py:71-167 | each error is reported if and only if it is true of the itinerary: the day over 180 minutes, the id with its count, the slot whose morning-only stop is third or later or starts after 10:30, the day with no score above 0.7, the day of two or more stops that is spread out |
| TripValidator.WarnsIffDropped | src/travel_engine/trip_validator.py:142-167 | drops are warned about exactly when some day dropped a stop, whether or not the itinerary passes |
| TravelEngine.BuildRoute | src/planner/tools/build_route.py:70-100 | allocation and one optimized route per day, or the error for nothing ranked or no days |
| TravelEngine.BuildDayDict | src/planner/tools/build_schedule.py:89-124 | the flat stops of a day with the hop into each, and the optimizer's total |
| TravelEngine.BuildSchedule | src/planner/tools/build_schedule.py:161-183 | every day timed, or the first day's error |
| TravelEngine.ValidateItinerary | src/planner/tools/validate_itinerary.py:85-122 | the validation of schedule and route joined day by day |
| EngineProperties.FlatRoundTrip | src/planner/tools/validate_itinerary.py:22-40 | the validator reads back the very stop the schedule builder stored, unless its category is empty (that reads back as an attraction) |
| TravelHops.FlatHops | src/planner/tools/build_schedule.py:103-117 | each flat stop carries the duration of the leg from the stop before it, or from the base, and its position |
| TravelHops.PlannerTotal | src/planner/tools/build_schedule.py:119-124 | the stored day total is the sum of its stops' legs whenever the morning reorder leaves the order alone |
| RouteGeometry.FlatDrawn | src/planner/tools/build_schedule.py:25-44 | each flat stop carries the polyline of the leg into it in the optimizer's order, and the day the optimizer's own polyline and its number |
| EngineProperties.DayWorks | src/planner/tools/build_schedule.py:163-173 | an allocated day is always timed without error; its stops and drops are the day's places; it is within the cap or one stop |
| EngineProperties.PlacesAccounted | src/planner/tools/build_route.py:77-100 | every ranked place is scheduled exactly once, dropped for travel, or omitted by the allocator |
| EngineProperties.CapIsRespected | src/planner/tools/validate_itinerary.py:62-75 | the cap error is reported exactly on the days the optimizer left over budget |
| EngineProperties.EngineComposition | src/planner/tools/build_schedule.py:127-183 | the three tools together, on distinct places and an honest provider: no step fails, no place repeats, nothing is lost, what was omitted fits nowhere, validation never raises |
| EngineValidation.EnginePassesIff | src/travel_engine/trip_validator.py:142-167 | what the engine plans passes validation if and only if every day is within the travel budget, has an anchor stop, is not spread out and keeps its morning-only stops in the morning; on a day that ends before midnight the last means that its first hops are short |
| EngineValidation.DropsAreWarned | src/planner/tools/validate_itinerary.py:85-122 | the validation of a plan warns about drops exactly when the optimizer dropped a stop on some day |
| EngineValidation.CapFallsBack | src/planner/tools/validate_itinerary.py:62-75 | a day the schedule has no total for is still held to the travel cap, by the total of its route |
| EngineValidation.PassesIffDaysPass | src/planner/tools/validate_itinerary.py:102-111 | the same about the days of any route and schedule that agree |
| TripService.ConsecutiveLegsForOrder | src/trips/service.py:172-194 | the legs along the order from the base, or none when a hop is missing |
| TripService.DayPlanFromScheduled | src/trips/service.py:216-226 | the plan with travel recomputed along the new schedule |
| TripService.DayPlanFromStored | src/trips/service.py:229-242 | the plan read back from a day's rows |
| TripRequests.StoredStart | src/trips/service.py:229-242 | a stored stop is read back with the start stored, and one without a start as starting at eight |
| TripService.DraftFixedOrder | src/trips/service.py:306-344 | the new day in the caller's order, or why it cannot be timed |
| TripService.DraftOptimized | src/trips/service.py:245-262 | the new day in optimized order, refused if the optimizer drops a stop |
| TripService.DropMorningErrors | src/trips/service.py:371-378 | a reorder keeps every error but the morning-slot ones |
| TripService.DeleteUnscheduled | src/trips/service.py:411-414 | exactly the day's rows whose place is no longer scheduled are deleted |
| TripService.Service.ValidateFullTrip | src/trips/service.py:346-384 | the errors that block the edit: those of the whole trip with the edited day replaced |
| TripService.Service.PersistDayAndAudit | src/trips/service.py:386-476 | deleting, updating in place and inserting give the specified rows, and one event is appended |
| TripService.Service.ValidateAndStore | src/trips/service.py:519-531 | all or nothing: rows and log change only when no error blocks |
| TripService.Service.ReorderDay | src/trips/service.py:478-531 | ends as the edit specification says: the specified new trip, or the specified refusal and an unchanged trip |
| TripService.Service.RemoveStop | src/trips/service.py:533-585 | the same for removing a stop |
| TripService.Service.AddStop | src/trips/service.py:587-661 | the same for adding a stop |
| TripService.Service.ReoptimizeDay | src/trips/service.py:663-709 | the same for reoptimizing a day |
| TripRows.PersistedDay | src/trips/service.py:405-459 | after storing, the edited day reads back as exactly the new rows in their order |
| TripRows.PersistedOtherDay | src/trips/service.py:405-459 | every other day reads back unchanged |
| TripRows.PersistedUnique | src/trips/models.py:94-94 | the unique constraint on places survives storing |
| TripRows.PersistedMember | src/trips/service.py:405-459 | a stored row is one of the new rows or an old row of another day |
| TripDrafts.RoutedPlaces | src/trips/service.py:500-508 | what each edit sends to routing: the requested permutation, the day without the removed place, the day with the new one, or the day |
| TripDrafts.DraftIsRight | src/trips/service.py:337-344 | what a successful draft schedules, in terms of the places routed and the morning-only limit |
| TripProperties.ReadsBack | src/trips/service.py:216-242 | the plan read back from the stored rows equals the plan that was validated |
| TripProperties.StoredIsEdited | src/trips/service.py:355-367 | the stored trip, day by day, is the trip that was validated |
| TripProperties.EmptyDayRejected | src/travel_engine/trip_validator.py:118-125 | an edit that would leave its day empty never passes |
| TripProperties.EditKeepsTripOk | src/trips/models.py:73-94 | every accepted edit keeps the database constraints |
| TripProperties.EditIsAudited | src/trips/service.py:461-467 | an accepted edit appends exactly one event, with the day's rows before and after; other days are untouched |
| TripRequests.RequestAllowedIff | src/trips/service.py:487-508 | a request reaches routing exactly when it is allowed, said about the stored rows and the catalog: a permutation of the day's places, a place of the day that is not its only one, a catalog place of the destination in no row, a day that has stops; otherwise it fails with the error for its case |
| TripRequests.FixedDraftIff | src/trips/service.py:172-194 | an order the caller chose is timed exactly when the provider gave every leg along it, and otherwise fails for a missing leg |
| TripRequests.DropsNothingIff | src/trips/service.py:245-262 | an edit is refused for dropping stops exactly when no order of all its stops is within 180 minutes of travel, and there are at least two |
| TripRequests.AcceptedIff | src/trips/service.py:478-709 | with an honest provider an edit is accepted if and only if the user owns the trip, the request is allowed, nothing has to be dropped (reorders aside) and the whole trip passes with the new day in it (morning slots aside after a reorder); a stranger is refused before anything else |
| TripRequests.EventSays | src/trips/service.py:461-475 | the event of an accepted edit names the edit's own type, the place removed or added and no other, the day, and records the day's rows before and after in all but the arrival note |
| TravelHops.EditTravel | src/trips/service.py:216-226 | after any accepted edit each row of the day carries the duration the provider gave for the leg into it, their sum is the optimizer's travel of the day's order, and it is at most 180 minutes |
| RouteGeometry.EditDrawn | src/trips/service.py:197-204 | each stored polyline is the one the provider gave for the leg into the place in one order of the places routed: the day's own for a reorder, the optimizer's for the other edits |
| RouteGeometry.MapShowsTravelIff | src/planner/tools/build_schedule.py:29-44 | with at most two morning-only stops the polylines draw the legs travelled if and only if no morning-only stop comes after another kind of stop in the optimizer's order |
| RouteGeometry.MapMissesTravel | src/travel_engine/schedule_builder.py:53-66 | a museum and then a viewpoint: the viewpoint is visited from the base but drawn from the museum |
| TripProperties.StoredTripValidates | src/trips/service.py:369-384 | after a remove, add or reoptimize the stored trip passes validation as a whole; after a reorder its only errors are morning-slot ones |
| TripProperties.EditChangesDay | src/trips/service.py:478-709 | reorder gives the requested order, reoptimize keeps the day's places, remove takes out exactly one, add inserts exactly one if and only if it is not a third morning-only stop; the day is not empty, its orders are 1..n, it has at most two morning-only stops |
| TripRuns.AuditReplays | src/trips/service.py:158-169 | over any run of requests the log gains one event per accepted edit, events of a day chain, and replaying them gives the day's current rows |
| TripRuns.RunKeepsInvariant | src/trips/service.py:478-709 | every run keeps places unique, at most two morning-only stops a day, and no day emptied |
| TripRuns.RunKeepsNumbers | src/trips/service.py:417-432 | over any run a day whose orders are 1..n keeps them so, and every edited day has them |
| TripRuns.RunStaysValid | src/trips/service.py:346-384 | after any run the stored trip validates, unless the latest accepted edit was a reorder, and then only morning-slot errors remain |
| TravelHops.RunWithinCap | src/trips/service.py:346-384 | over any run a day within 180 minutes of travel stays so, and every edited day is |
| TripRequests.LogRestores | src/trips/service.py:158-169 | after any run, replaying the log gives back every day of the trip row by row, arrival notes aside |
| TripCounterexample.AddLosesAStop | src/trips/service.py:411-414 | a day with viewpoints 2 and 3; adding viewpoint 1 is accepted and stop 3 is gone |
| Polyline.OrAbove | src/trips/polyline.py:30-30 | or-ing a digit in above all bits set so far adds it |
| Polyline.ReadNumber | src/trips/polyline.py:23-34 | the shift-and-or loop reads the value the string starts with, or reports that it is cut short |
| Polyline.DecodePolyline | src/trips/polyline.py:6-53 | the decoder computes the specified points, and nothing for an absent, empty or cut-short string |
| Polyline.EncodeSigned | tests/trips/test_trips_http.py:23-30 | a signed number is written as its zigzag value, five bits to a character |
| Polyline.EncodePolyline | tests/trips/test_trips_http.py:20-41 | the encoder computes the specified string |
| Polyline.ReadPrinted | src/trips/polyline.py:23-33 | reading a printed number gives the number and leaves the rest of the string |
| Polyline.RoundTrip | src/trips/polyline.py:13-51 | decoding the encoder's output of any list of integer points returns that list |
| Polyline.DecodesIff | src/trips/polyline.py:23-47 | decoding yields anything exactly when the string is not empty, its last character ends a value and it holds an even number of values; then it yields half as many points |
| Polyline.CutDecodesToPrefix | src/trips/polyline.py:26-27 | an encoding cut short anywhere decodes to its first points or to nothing, never to a wrong point |
| Polyline.PointsAppend | src/trips/polyline.py:22-49 | decoding goes on where a complete first part ended |
| Polyline.DeltasAdd | src/trips/polyline.py:34-49 | two more numbers are one more point, as far from the last one, or from (0, 0), as they say |
| Polyline.KnownPoint | src/trips/polyline.py:22-51 | a published example of the format decodes to the point (38.5, -120.2) |
| Polyline.ReencodesIff | tests/trips/test_trips_http.py:23-41 | encoding the decoded points gives the string back exactly when it is complete, within '?' to '~' and without superfluous zero digits; exactly these strings are encodings |
| RateLimiter.Prune | src/core/middleware/rate_limit.py:44-44 | the times later than the cutoff, in order |
| RateLimiter.InMemoryRateLimiter.DropStale | src/core/middleware/rate_limit.py:46-48 | exactly the keys left with no times are dropped |
| RateLimiter.InMemoryRateLimiter.IsAllowed | src/core/middleware/rate_limit.py:39-55 | one request answers and changes the dictionary as specified |
| RateLimiter.PruningIsLossless | src/core/middleware/rate_limit.py:42-44 | for any cutoff still to come, the pruned list and the full history cannot be told apart |
| RateLimiter.AnswersAsFullHistory | src/core/middleware/rate_limit.py:39-55 | the answer to every request is the one the full history gives: refused if and only if the limit was already reached within the last window |
| RateLimiter.AllowedIff | src/core/middleware/rate_limit.py:39-55 | a request is allowed if and only if fewer than `limit` of the key's allowed times, counted as indices of the full history, are later than now - window; then `remaining` is the limit less that count less one, and the time is added; a refused request leaves the history as it was |
| RateLimiter.NoStaleKeys | src/core/middleware/rate_limit.py:46-50 | no key is kept with no times, except possibly the one asked about last |
| RateLimiter.KeysDoNotInterfere | src/core/middleware/rate_limit.py:46-50 | what is kept and allowed for a key depends on the requests on that key alone |
| RateLimiter.SlidingWindow | src/core/middleware/rate_limit.py:30-33 | with time moving on and a fixed limit and window, every half-open interval of one window's length, closed on either side, holds at most `limit` allowed requests |

## Left out

- RecursionLimitIff: for limits of at least one; a limit of zero or less, which the settings do not forbid, is not classified.
- WorstCaseAttained: for at least two tool calls and two cycles until stuck; below that only the bound is proved.
- FewIdleCyclesFit: one direction, about single runs; RecursionLimitIff says for which settings all runs fit.
- CompletePlanValidatedIff: rests on the repository's own tools (which keys each writes, and that validation reports on the state it was given), because the merge itself lets any tool write any whitelisted key.
- EnginePassesIff: a day whose clock runs past midnight is judged by its start times as stored, not by its hops.
- EngineComposition: rests on a routing provider that answers every ordered pair; a missing leg is modelled as the optimizer's penalty and the schedule builder's error, not as a provider failure.
- AcceptedIff: rests on a routing provider that answers every ordered pair; FixedDraftIff says what a missing leg does to a reorder.
- CallEdges: below the call cap; CapForcesWrapUp says what happens at it. Abort and clarification are those of the transition when the tool's data does not set them.
- MapShowsTravelIff: for at most two morning-only stops; with more, DrawnAsTravelledIff gives the condition that the day is a prefix of the optimizer's order.
- FarPlacesSpread: with room for all places (at most two a day, or five of which none is morning-only); SinglesBalance states the balance for any one-place clusters that need no spill.
- SlidingWindow: rests on a clock that does not go back and on one limit and window per key; AnswersAsFullHistory needs only cutoffs that do not go back.
- The language model, its prompts, retries and token accounting: the agent is an arbitrary sequence of decisions. Parsing of tool arguments and narrative writing are not modelled.
- LangGraph: the graph is its loop of two nodes. The flag `last_validate_ok` is carried along like a declared key, although `src/planner/graph/state.py` does not declare it; the invariant behind CompletePlanValidatedIff shows it never says more than `validation_result.passed`.
- Planner state that no modelled decision reads (explanations, tier, fallback flags, itinerary text, fusion diagnostics, durations) is one unread key; an absent or unknown phase cannot occur.
- Exceptions inside merging caused by values of the wrong type: values are well-typed.
- The rendering of error codes in the progress fingerprint is an arbitrary function of the first five errors.
- HTTP, streaming, timeouts of a generation, authentication and ownership beyond the owner check of an edit, pagination, saving a planner's state as a trip, claiming and deleting trips, GeoJSON.
- Loading a trip and its destination, and resolving the base from preferences: an edit starts from a loaded trip and a base; their not-found errors are not modelled.
- Database failures and rollback, and concurrent edits (the last write wins): commit is all or nothing.
- Search, embeddings, geocoding and the routing service behind the provider; great-circle distance is an arbitrary function, and the coordinate statistics behind geo coherence an arbitrary predicate.
- Floating point: scores, coordinates, centroids and clock times are reals, polyline coordinates are integers scaled by 100000.
- Scoring places by interest tags, and ranking inside build_route when nothing is ranked yet: places arrive with their scores.
- Place ids are natural numbers that compare as UUIDs and their text do, with 0 for the base sentinel.
- The total distance of a day, kept only for display; wording of notes, warnings and errors.
- Reading "HH:MM" accepts plain decimal digits; Python's `int` also accepts signs, spaces and underscores.
- Polyline input that is not text: only absent, empty and other strings are modelled.
- dedupe_pois: replacement breaks both properties one would want of it. RedisRateLimiter: its check and its insertion are two round trips, so the window bound does not hold of it.
- The lock around the in-memory limiter, and the middleware that fails open around it.
