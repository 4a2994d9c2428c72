/** How many cycles a planner run takes, and when that fits the graph's recursion limit. */
module PlannerRunLength {
  import opened PlannerMachine
  import opened PlannerTermination

  ghost predicate PlainRun(decisions: seq<Decision>) {
    forall i | 0 <= i < |decisions| :: PlainDecision(decisions[i])
  }

  /** None of the states after 1, 2, ..., n cycles ended the run. */
  ghost predicate StillRunning(s: TravelState, decisions: seq<Decision>, settings: Settings) {
    forall k | 1 <= k <= |decisions| :: !Final(AfterCycles(s, decisions[..k], settings))
  }

  /**
   * The longest run, in cycles, with M tool calls, L cycles until a phase counts as stuck and R replans: every
   * call can hold the detector up for L - 1 cycles, and every phase passed through can be stuck for L.
   */
  function WorstCase(maxToolCalls: int, stuckLimit: int, maxReplan: int): nat {
    var limit, calls := Max1(stuckLimit), NonNeg(maxToolCalls);
    (limit - 1) * calls + limit * if calls >= 2 then 4 + Min(NonNeg(maxReplan - 1), (calls - 2) / 2) else 3
  }

  function CycleBound(s: TravelState, settings: Settings): nat {
    WorstCase(settings.maxToolCalls, settings.stuckLimit, s.maxReplanAttempts)
  }

  lemma StillRunningPrefix(s: TravelState, decisions: seq<Decision>, settings: Settings)
    requires decisions != [] && StillRunning(s, decisions, settings)
    ensures StillRunning(s, decisions[..|decisions| - 1], settings)
    ensures !Final(AfterCycles(s, decisions, settings))
  {
    hide AfterCycles;
    var front := decisions[..|decisions| - 1];
    assert decisions[..|decisions|] == decisions;
    forall k | 1 <= k <= |front| ensures !Final(AfterCycles(s, front[..k], settings)) {
      assert front[..k] == decisions[..k];
    }
  }

  lemma {:induction false} PotentialFalls(s: TravelState, decisions: seq<Decision>, settings: Settings)
    requires Boundary(s, settings) && PlainRun(decisions) && StillRunning(s, decisions, settings)
    ensures
      var t := AfterCycles(s, decisions, settings);
      Boundary(t, settings) && 1 <= Potential(t, settings) <= Potential(s, settings) - |decisions|
  {
    hide Cycle, Potential, Boundary;
    if decisions == [] {
      CycleDecreases(s, PicksNothing(Raises), settings);
    } else {
      var front, last := decisions[..|decisions| - 1], decisions[|decisions| - 1];
      StillRunningPrefix(s, decisions, settings);
      PotentialFalls(s, front, settings);
      var before := AfterCycles(s, front, settings);
      CycleDecreases(before, last, settings);
      CycleDecreases(AfterCycles(s, decisions, settings), last, settings);
    }
  }

  /** Every planner run ends: whatever the agent proposes and the tools return, one of the first cycles is the last. */
  lemma EveryRunEnds(s: TravelState, decisions: seq<Decision>, settings: Settings)
    requires Initial(s) && PlainRun(decisions) && |decisions| >= CycleBound(s, settings)
    ensures exists k :: 1 <= k <= CycleBound(s, settings) && Final(AfterCycles(s, decisions[..k], settings))
  {
    hide AfterCycles;
    var n := CycleBound(s, settings);
    InitialPotential(s, settings);
    if StillRunning(s, decisions[..n], settings) {
      PotentialFalls(s, decisions[..n], settings);
    } else {
      var k :| 1 <= k <= n && Final(AfterCycles(s, decisions[..n][..k], settings));
      assert decisions[..n][..k] == decisions[..k];
    }
  }

  lemma InitialPotential(s: TravelState, settings: Settings)
    requires Initial(s)
    ensures Boundary(s, settings)
    ensures Potential(s, settings) == CycleBound(s, settings)
  {
    assert !ScheduleHasStops(s.schedule);
  }

  /** The same about the runs the graph really makes. */
  lemma RunLength(s: TravelState, decisions: seq<Decision>, settings: Settings)
    requires Initial(s) && PlainRun(decisions) && Runs(s, decisions, settings)
    ensures |decisions| <= CycleBound(s, settings)
  {
    hide AfterCycles;
    var n := CycleBound(s, settings);
    if |decisions| > n {
      EveryRunEnds(s, decisions, settings);
    }
  }

  // ----- A sharper count, by idle cycles

  /** How many of the cycles were below the cap and called only unregistered names. */
  function IdleCount(s: TravelState, decisions: seq<Decision>, settings: Settings): nat {
    if decisions == [] then 0
    else
      var front, last := decisions[..|decisions| - 1], decisions[|decisions| - 1];
      IdleCount(s, front, settings) + if IdleCycle(AfterCycles(s, front, settings), last, settings) then 1 else 0
  }

  /** Cycles that may still come, idle ones aside. */
  function CyclesLeft(s: TravelState, settings: Settings): int {
    if AtCap(s, settings) then Max1(settings.stuckLimit) - s.stuckCycles
    else CallsLeft(s, settings) + Max1(settings.stuckLimit) - 1
  }

  /** At the cap the phase is WRAP_UP and the detector is already counting. */
  ghost predicate CapWrapped(s: TravelState, settings: Settings) {
    AtCap(s, settings) ==> s.phase == WrapUp && s.stuckCycles >= 1
  }

  lemma {:induction false} BatchReachesCap(s: TravelState, calls: seq<Call>, settings: Settings)
    requires AtCap(s, settings) ==> s.phase == WrapUp
    ensures AtCap(Batch(s, calls, settings), settings) ==> Batch(s, calls, settings).phase == WrapUp
  {
    if calls != [] {
      CapForcesWrapUp(Batch(s, calls[..|calls| - 1], settings), calls[|calls| - 1], settings);
    }
  }

  /** Reaching the cap forces WRAP_UP with abort in the very call that reaches it. */
  lemma CapForcesWrapUp(s: TravelState, call: Call, settings: Settings)
    ensures AtCap(CallStep(s, call, settings), settings) ==>
              CallStep(s, call, settings).phase == WrapUp && CallStep(s, call, settings).abortTriggered
  {
    hide Applied, ExecuteTool, Transitioned;
    var result := ExecuteTool(s, call);
    TransitionAtCap(Applied(s, call.name, result), call.name, result, settings);
  }

  lemma TransitionAtCap(s: TravelState, name: ToolName, result: ToolResult, settings: Settings)
    ensures AtCap(Transitioned(s, name, result, settings), settings) ==>
              && Transitioned(s, name, result, settings).phase == WrapUp
              && Transitioned(s, name, result, settings).abortTriggered
  {
  }

  lemma CycleCapWrapped(s: TravelState, d: Decision, settings: Settings)
    ensures !Final(Cycle(s, d, settings)) ==> CapWrapped(Cycle(s, d, settings), settings)
  {
    hide Batch, FingerprintOf;
    BatchReachesCap(Agreed(s, d, settings), Pending(s, d, settings), settings);
  }

  lemma CycleUsesOne(s: TravelState, d: Decision, settings: Settings)
    requires Boundary(s, settings) && CapWrapped(s, settings) && PlainDecision(d)
    ensures
      var t := Cycle(s, d, settings);
      && Boundary(t, settings)
      && (!Final(t) ==> CapWrapped(t, settings))
      && (!Final(t) ==> CyclesLeft(t, settings) <= CyclesLeft(s, settings) - if IdleCycle(s, d, settings) then 0 else 1)
  {
    hide Cycle, Boundary, Executed, FingerprintOf;
    var t := Cycle(s, d, settings);
    CycleStep(s, d, settings);
    CycleCapWrapped(s, d, settings);
    CycleIs(s, d, settings);
    var executed := Executed(s, d, settings);
    ExecutedMeasures(s, d, settings);
    BoundaryStuck(s, settings);
    DetectorStep(executed, settings);
    if IdleCycle(s, d, settings) {
      IdleStaysBelow(s, d, settings);
    }
  }

  lemma BoundaryStuck(s: TravelState, settings: Settings)
    requires Boundary(s, settings)
    ensures s.stuckCycles < Max1(settings.stuckLimit)
  {
  }

  lemma IdleStaysBelow(s: TravelState, d: Decision, settings: Settings)
    requires IdleCycle(s, d, settings)
    ensures !AtCap(Executed(s, d, settings), settings)
  {
    IdleBatch(Agreed(s, d, settings), Pending(s, d, settings), settings);
  }

  lemma {:induction false} CyclesLeftFalls(s: TravelState, decisions: seq<Decision>, settings: Settings)
    requires Boundary(s, settings) && CapWrapped(s, settings)
    requires PlainRun(decisions) && StillRunning(s, decisions, settings)
    ensures
      var t := AfterCycles(s, decisions, settings);
      && Boundary(t, settings) && CapWrapped(t, settings)
      && 1 <= CyclesLeft(t, settings) <= CyclesLeft(s, settings) - (|decisions| - IdleCount(s, decisions, settings))
  {
    hide Cycle, Boundary, IdleCycle;
    if decisions == [] {
      BoundaryStuck(s, settings);
    } else {
      var front, last := decisions[..|decisions| - 1], decisions[|decisions| - 1];
      StillRunningPrefix(s, decisions, settings);
      CyclesLeftFalls(s, front, settings);
      CycleUsesOne(AfterCycles(s, front, settings), last, settings);
      BoundaryStuck(AfterCycles(s, decisions, settings), settings);
    }
  }

  /** A run takes at most MAX + L - 1 cycles besides its idle ones. */
  lemma RunLengthByIdle(s: TravelState, decisions: seq<Decision>, settings: Settings)
    requires Initial(s) && PlainRun(decisions) && Runs(s, decisions, settings) && decisions != []
    requires settings.maxToolCalls >= 1
    ensures |decisions| <= settings.maxToolCalls + Max1(settings.stuckLimit) - 1 + IdleCount(s, decisions, settings)
  {
    hide AfterCycles;
    var front := decisions[..|decisions| - 1];
    InitialPotential(s, settings);
    forall k | 1 <= k <= |front| ensures !Final(AfterCycles(s, front[..k], settings)) {
      assert front[..k] == decisions[..k];
    }
    CyclesLeftFalls(s, front, settings);
    assert IdleCount(s, front, settings) <= IdleCount(s, decisions, settings);
  }

  // ----- The recursion limit

  /** The limit computed from settings: two steps a tool call, four phases of stuck cycles, four bookends. */
  function RecursionLimit(settings: Settings): int {
    settings.maxToolCalls * 2 + settings.stuckLimit * 4 * 2 + 4
  }

  /** Graph steps of a run: parsing, two per cycle, and narrative plus evaluation when the plan is complete. */
  function GraphSteps(cycles: nat, last: TravelState): nat {
    1 + 2 * cycles + if !last.needsClarification && last.planComplete then 2 else 0
  }

  /** A run with at most 3L + 1 idle cycles fits the recursion limit. */
  lemma FewIdleCyclesFit(s: TravelState, decisions: seq<Decision>, settings: Settings)
    requires Initial(s) && PlainRun(decisions) && Runs(s, decisions, settings) && decisions != []
    requires settings.maxToolCalls >= 1 && settings.stuckLimit >= 1
    requires IdleCount(s, decisions, settings) <= 3 * settings.stuckLimit + 1
    ensures GraphSteps(|decisions|, AfterCycles(s, decisions, settings)) <= RecursionLimit(settings)
  {
    hide AfterCycles;
    RunLengthByIdle(s, decisions, settings);
  }

  /** Every default the agent synthesizes is a registered tool allowed in the current phase. */
  lemma DefaultToolAllowed(s: TravelState)
    ensures Registered(DefaultTool(s)) && PhaseOf(DefaultTool(s)) == s.phase
  {
  }

  predicate NeverPicks(decisions: seq<Decision>) {
    forall i | 0 <= i < |decisions| :: decisions[i].PicksNothing? || decisions[i].Fails?
  }

  lemma {:induction false} DefaultsNeverIdle(s: TravelState, decisions: seq<Decision>, settings: Settings)
    requires NeverPicks(decisions)
    ensures IdleCount(s, decisions, settings) == 0
  {
    hide AfterCycles;
    if decisions != [] {
      var front, last := decisions[..|decisions| - 1], decisions[|decisions| - 1];
      DefaultsNeverIdle(s, front, settings);
      var before := AfterCycles(s, front, settings);
      DefaultToolAllowed(before);
      if !AtCap(before, settings) {
        assert Registered(Pending(before, last, settings)[0].name);
      }
    }
  }

  /** So a planner whose model never answers still ends within MAX + L - 1 cycles, inside the recursion limit. */
  lemma SilentModelFits(s: TravelState, decisions: seq<Decision>, settings: Settings)
    requires Initial(s) && PlainRun(decisions) && Runs(s, decisions, settings) && decisions != []
    requires settings.maxToolCalls >= 1 && settings.stuckLimit >= 1 && NeverPicks(decisions)
    ensures |decisions| <= settings.maxToolCalls + settings.stuckLimit - 1
    ensures GraphSteps(|decisions|, AfterCycles(s, decisions, settings)) <= RecursionLimit(settings)
  {
    hide AfterCycles;
    DefaultsNeverIdle(s, decisions, settings);
    RunLengthByIdle(s, decisions, settings);
  }
}
