/** The longest planner runs, step by step, and exactly which settings keep every run within the recursion limit. */
module PlannerRecursionLimit {
  import opened Ordering
  import opened TravelRules
  import opened TravelEngine
  import opened PlannerMachine
  import opened PlannerTermination
  import opened PlannerRunLength

  // ----- Joining stretches of a run

  /** The decisions lead from one state to another without ending the run. */
  ghost predicate Reaches(s: TravelState, run: seq<Decision>, t: TravelState, settings: Settings) {
    PlainRun(run) && StillRunning(s, run, settings) && AfterCycles(s, run, settings) == t
  }

  /** The decisions lead to the completion of the plan, and not before the last of them. */
  ghost predicate Completes(s: TravelState, run: seq<Decision>, settings: Settings) {
    && run != [] && PlainRun(run) && StillRunning(s, run[..|run| - 1], settings)
    && AfterCycles(s, run, settings).planComplete && !AfterCycles(s, run, settings).needsClarification
  }

  lemma {:induction false} CyclesAppend(s: TravelState, a: seq<Decision>, b: seq<Decision>, settings: Settings)
    ensures AfterCycles(s, a + b, settings) == AfterCycles(AfterCycles(s, a, settings), b, settings)
  {
    hide Cycle;
    if b == [] {
      assert a + b == a;
    } else {
      CyclesAppend(s, a, b[..|b| - 1], settings);
      assert (a + b)[..|a + b| - 1] == a + b[..|b| - 1];
    }
  }

  lemma ReachesThen(s: TravelState, a: seq<Decision>, t: TravelState, b: seq<Decision>, u: TravelState,
                    settings: Settings)
    requires Reaches(s, a, t, settings) && Reaches(t, b, u, settings)
    ensures Reaches(s, a + b, u, settings)
  {
    hide AfterCycles, PlainDecision, Final;
    CyclesAppend(s, a, b, settings);
    forall k | 1 <= k <= |a + b| ensures !Final(AfterCycles(s, (a + b)[..k], settings)) {
      if k <= |a| {
        assert (a + b)[..k] == a[..k];
      } else {
        assert (a + b)[..k] == a + b[..k - |a|];
        CyclesAppend(s, a, b[..k - |a|], settings);
      }
    }
  }

  lemma ReachesEnd(s: TravelState, a: seq<Decision>, t: TravelState, b: seq<Decision>, settings: Settings)
    requires Reaches(s, a, t, settings) && Completes(t, b, settings)
    ensures Completes(s, a + b, settings)
  {
    hide AfterCycles, PlainDecision, StillRunning;
    CyclesAppend(s, a, b, settings);
    var front := b[..|b| - 1];
    ReachesThen(s, a, t, front, AfterCycles(t, front, settings), settings);
    assert (a + b)[..|a + b| - 1] == a + front;
  }

  lemma NoCycles(s: TravelState, settings: Settings)
    ensures Reaches(s, [], s, settings)
  {
  }

  lemma OneCycle(s: TravelState, d: Decision, settings: Settings)
    requires PlainDecision(d)
    ensures AfterCycles(s, [d], settings) == Cycle(s, d, settings)
    ensures !Final(Cycle(s, d, settings)) ==> Reaches(s, [d], Cycle(s, d, settings), settings)
    ensures Cycle(s, d, settings).planComplete && !Cycle(s, d, settings).needsClarification ==>
        Completes(s, [d], settings)
  {
    hide Cycle, Final, PlainDecision;
    assert [d][..0] == [];
    assert AfterCycles(s, [d][..0], settings) == s;
    assert [d][..1] == [d];
  }

  lemma OneCall(s: TravelState, call: Call, settings: Settings)
    requires !AtCap(s, settings)
    ensures Cycle(s, Picks([call]), settings) == Detected(CallStep(s, call, settings), settings)
  {
    hide CallStep, Detected;
    assert [call][..0] == [];
    assert Batch(s, [call][..0], settings) == s;
  }

  lemma OneEntry(s: TravelState, e: Entry)
    ensures MergeAll(s, [e]) == Merge(s, e)
  {
    hide Merge;
    assert [e][..0] == [];
    assert MergeAll(s, [e][..0]) == s;
  }

  // ----- Runs of nothing but searches and unknown names

  predicate IsSearch(d: Decision) {
    && d.Picks? && |d.calls| == 1 && d.calls[0].name == SearchPlaces && d.calls[0].outcome.Returns?
    && d.calls[0].outcome.result.ok && d.calls[0].outcome.result.code == None
    && |d.calls[0].outcome.result.data| == 1 && d.calls[0].outcome.result.data[0].CandidatesEntry?
  }

  /** Each cycle calls an unregistered name or makes one search, which finds some candidates. */
  predicate OnlySearches(run: seq<Decision>) {
    forall i | 0 <= i < |run| :: run[i] == Babble() || IsSearch(run[i])
  }

  // ----- Where a run can wait

  /** In `phase`, seen unchanged by the detector for k cycles. */
  ghost predicate At(t: TravelState, phase: Phase, k: nat, settings: Settings) {
    && t.phase == phase && t.stuckCycles == k && !Final(t)
    && (k > 0 ==> t.stuckFingerprint == Some(FingerprintOf(t, settings)))
    && (k == 0 ==> t.stuckFingerprint == None || t.stuckFingerprint.value.phase != phase)
  }

  /** What a cycle that calls no tool leaves alone. */
  ghost predicate SameData(t: TravelState, u: TravelState) {
    && u.toolLoopCount == t.toolLoopCount && u.candidates == t.candidates && u.schedule == t.schedule
    && u.lastValidateOk == t.lastValidateOk
    && u.replanLoopCount == t.replanLoopCount && u.maxReplanAttempts == t.maxReplanAttempts
  }

  /** A call of a name that is not registered. */
  function Babble(): Decision {
    Picks([Call(UnregisteredTool("guide"), Raises)])
  }

  /** Only an exhausted replan is ended by an unregistered name. */
  predicate Patient(t: TravelState) {
    t.phase == Replan ==> t.replanLoopCount < t.maxReplanAttempts
  }

  lemma BabbleCall(t: TravelState, settings: Settings)
    requires !AtCap(t, settings) && Patient(t)
    ensures
      var u := CallStep(t, Babble().calls[0], settings);
      u == t.(toolTrace := u.toolTrace)
  {
    assert MergeAll(t, []) == t;
  }

  /** What a babbled cycle leaves, before the detector: the same to look at. */
  lemma BabbleExecuted(t: TravelState, settings: Settings) returns (u: TravelState)
    requires !AtCap(t, settings) && Patient(t)
    ensures Cycle(t, Babble(), settings) == Detected(u, settings)
    ensures u == t.(toolTrace := u.toolTrace)
    ensures FingerprintOf(u, settings) == FingerprintOf(t, settings)
  {
    hide CallStep, Detected, Cycle;
    OneCall(t, Babble().calls[0], settings);
    BabbleCall(t, settings);
    u := CallStep(t, Babble().calls[0], settings);
  }

  /** What the detector records: one more cycle in the same place. */
  function Recorded(t: TravelState, k: nat, settings: Settings): TravelState {
    t.(stuckFingerprint := Some(FingerprintOf(t, settings)), stuckCycles := k)
  }

  lemma DetectedAt(t: TravelState, phase: Phase, k: nat, u: TravelState, settings: Settings)
    requires At(t, phase, k, settings) && u == t.(toolTrace := u.toolTrace)
    ensures Detected(u, settings)
         == if k + 1 < settings.stuckLimit then Recorded(u, k + 1, settings) else Unstick(Recorded(u, k + 1, settings))
  {
    hide Unstick;
    assert FingerprintOf(u, settings) == FingerprintOf(t, settings);
    assert FingerprintOf(u, settings).phase == phase;
  }

  lemma WaitOnce(t: TravelState, phase: Phase, k: nat, settings: Settings) returns (u: TravelState)
    requires At(t, phase, k, settings) && k + 1 < settings.stuckLimit && !AtCap(t, settings) && Patient(t)
    ensures Reaches(t, [Babble()], u, settings)
    ensures At(u, phase, k + 1, settings) && SameData(t, u)
  {
    hide Cycle, Detected, Reaches;
    var executed := BabbleExecuted(t, settings);
    DetectedAt(t, phase, k, executed, settings);
    u := Cycle(t, Babble(), settings);
    assert FingerprintOf(u, settings) == FingerprintOf(executed, settings);
    OneCycle(t, Babble(), settings);
  }

  /** Waiting n cycles, short of the limit. */
  lemma {:induction false} Wait(t: TravelState, phase: Phase, k: nat, n: nat, settings: Settings)
    returns (run: seq<Decision>, u: TravelState)
    requires At(t, phase, k, settings) && k + n < settings.stuckLimit && !AtCap(t, settings) && Patient(t)
    ensures Reaches(t, run, u, settings) && |run| == n && OnlySearches(run)
    ensures At(u, phase, k + n, settings) && SameData(t, u)
    decreases n
  {
    hide Reaches, At, IsSearch;
    if n == 0 {
      run, u := [], t;
      NoCycles(t, settings);
    } else {
      var v := WaitOnce(t, phase, k, settings);
      assert v.phase == t.phase by { AtPhase(t, phase, k, settings); AtPhase(v, phase, k + 1, settings); }
      var others;
      others, u := Wait(v, phase, k + 1, n - 1, settings);
      run := [Babble()] + others;
      ReachesThen(t, [Babble()], v, others, u, settings);
    }
  }

  lemma AtPhase(t: TravelState, phase: Phase, k: nat, settings: Settings)
    requires At(t, phase, k, settings)
    ensures t.phase == phase && t.stuckCycles == k && !Final(t)
  {
  }

  /** The cycle that reaches the limit moves the phase on. */
  lemma MoveOn(t: TravelState, phase: Phase, settings: Settings) returns (u: TravelState)
    requires settings.stuckLimit >= 1 && At(t, phase, settings.stuckLimit - 1, settings)
    requires !AtCap(t, settings) && phase in {Discover, Plan, Validate}
    ensures Reaches(t, [Babble()], u, settings) && SameData(t, u)
    ensures At(u, match phase
                  case Discover => if t.candidates == [] then WrapUp else Plan
                  case Plan => if ScheduleHasStops(t.schedule) then Validate else WrapUp
                  case _ => WrapUp, 0, settings)
    ensures phase == Discover && t.candidates == [] ==> u.abortTriggered
    ensures phase == Plan && !ScheduleHasStops(t.schedule) ==> u.abortTriggered
  {
    hide Cycle, Detected, Reaches, ScheduleHasStops;
    var executed := BabbleExecuted(t, settings);
    DetectedAt(t, phase, settings.stuckLimit - 1, executed, settings);
    u := Cycle(t, Babble(), settings);
    assert FingerprintOf(executed, settings).phase == phase;
    OneCycle(t, Babble(), settings);
  }

  /** In WRAP_UP it completes the plan. */
  lemma ForceComplete(t: TravelState, settings: Settings)
    requires settings.stuckLimit >= 1 && At(t, WrapUp, settings.stuckLimit - 1, settings)
    ensures Completes(t, [Babble()], settings)
  {
    hide Cycle, Detected, Completes;
    if AtCap(t, settings) {
      CapCycle(t, Babble(), settings);
    } else {
      var executed := BabbleExecuted(t, settings);
      DetectedAt(t, WrapUp, settings.stuckLimit - 1, executed, settings);
    }
    OneCycle(t, Babble(), settings);
  }

  /** At the cap the agent calls nothing; the detector sees the same again. */
  lemma CapCycle(t: TravelState, d: Decision, settings: Settings)
    requires AtCap(t, settings) && t.phase == WrapUp
    ensures Cycle(t, d, settings) == Detected(t.(abortTriggered := true), settings)
    ensures FingerprintOf(t.(abortTriggered := true), settings) == FingerprintOf(t, settings)
    ensures At(t, WrapUp, t.stuckCycles, settings) ==>
              Detected(t.(abortTriggered := true), settings)
              == if t.stuckCycles + 1 < settings.stuckLimit
                 then Recorded(t.(abortTriggered := true), t.stuckCycles + 1, settings)
                 else Unstick(Recorded(t.(abortTriggered := true), t.stuckCycles + 1, settings))
  {
    hide Unstick;
  }

  /** From WRAP_UP, after k cycles there, to the end. */
  lemma {:induction false} WaitOut(t: TravelState, k: nat, settings: Settings) returns (run: seq<Decision>)
    requires At(t, WrapUp, k, settings) && k < settings.stuckLimit
    ensures Completes(t, run, settings) && |run| == settings.stuckLimit - k && OnlySearches(run)
    decreases settings.stuckLimit - k
  {
    hide Completes, Reaches, At, IsSearch;
    if k + 1 == settings.stuckLimit {
      run := [Babble()];
      ForceComplete(t, settings);
    } else {
      var u := WaitInWrapUp(t, k, settings);
      var others := WaitOut(u, k + 1, settings);
      run := [Babble()] + others;
      ReachesEnd(t, [Babble()], u, others, settings);
    }
  }

  lemma WaitInWrapUp(t: TravelState, k: nat, settings: Settings) returns (u: TravelState)
    requires At(t, WrapUp, k, settings) && k + 1 < settings.stuckLimit
    ensures Reaches(t, [Babble()], u, settings) && At(u, WrapUp, k + 1, settings)
  {
    hide Cycle, Detected, Reaches, Unstick;
    if AtCap(t, settings) {
      CapCycle(t, Babble(), settings);
      u := Cycle(t, Babble(), settings);
      assert FingerprintOf(u, settings) == FingerprintOf(t, settings);
      OneCycle(t, Babble(), settings);
    } else {
      u := WaitOnce(t, WrapUp, k, settings);
    }
  }

  // ----- Calls that reset the detector

  function Candidates(n: nat): seq<PlaceCandidate> {
    seq(n, i requires 0 <= i < n => PlaceCandidate(i + 1, "", Park, 0.0, 0.0))
  }

  function OneStopSchedule(): seq<ScheduleDay> {
    [ScheduleDay(1, [FlatStop(PlaceCandidate(1, "", Park, 0.0, 0.0), 0.0, 1, 0, 30, "08:00", None, None)], 0, None)]
  }

  /** One candidate more than there were: a change the detector sees. */
  function OneMore(t: TravelState): Entry {
    CandidatesEntry(Candidates(|t.candidates| + 1))
  }

  /** What lets an idle run pass through every phase: stops to validate, and the validated flag. */
  function Load(): seq<Entry> {
    [ScheduleEntry(OneStopSchedule()), LastValidateOkEntry(true)]
  }

  ghost predicate Loaded(t: TravelState) {
    t.candidates != [] && ScheduleHasStops(t.schedule) && t.lastValidateOk
  }

  function Picking(name: ToolName, ok: bool, data: seq<Entry>): Decision {
    Picks([Call(name, Returns(ToolResult(ok, None, data)))])
  }

  /** A change the detector sees: it starts counting at one. */
  lemma FreshDetected(executed: TravelState, settings: Settings)
    requires settings.stuckLimit >= 2
    requires executed.stuckFingerprint != Some(FingerprintOf(executed, settings)) && !Final(executed)
    ensures Detected(executed, settings) == Recorded(executed, 1, settings)
    ensures At(Recorded(executed, 1, settings), executed.phase, 1, settings)
  {
    hide Unstick;
    assert FingerprintOf(Recorded(executed, 1, settings), settings) == FingerprintOf(executed, settings);
  }

  /** A cycle that makes such a change. */
  lemma FreshCycle(t: TravelState, d: Decision, executed: TravelState, settings: Settings) returns (u: TravelState)
    requires settings.stuckLimit >= 2 && PlainDecision(d) && Cycle(t, d, settings) == Detected(executed, settings)
    requires executed.stuckFingerprint != Some(FingerprintOf(executed, settings)) && !Final(executed)
    ensures Reaches(t, [d], u, settings) && At(u, executed.phase, 1, settings)
    ensures u == Recorded(executed, 1, settings)
  {
    hide Cycle, Detected, Reaches, PlainDecision, FingerprintOf;
    FreshDetected(executed, settings);
    u := Cycle(t, d, settings);
    OneCycle(t, d, settings);
  }

  lemma LoadMerged(s: TravelState, e: Entry)
    requires e.CandidatesEntry?
    ensures MergeAll(s, [e] + Load())
         == s.(candidates := e.candidates, schedule := OneStopSchedule(), lastValidateOk := true)
  {
    var data := [e] + Load();
    assert data[..2][..1] == [e] && data[..2] == data[..|data| - 1];
    OneEntry(s, e);
  }

  /** A successful search that finds one more candidate, and may load the state. */
  function Search(t: TravelState, loading: bool): Decision {
    Picking(SearchPlaces, true, [OneMore(t)] + if loading then Load() else [])
  }

  lemma SearchIsSearch(t: TravelState)
    ensures IsSearch(Search(t, false))
  {
  }

  lemma SearchCall(t: TravelState, loading: bool, settings: Settings)
    requires t.phase == Discover && t.toolLoopCount + 1 < settings.maxToolCalls
    ensures
      var u := CallStep(t, Search(t, loading).calls[0], settings);
      u == t.(toolLoopCount := t.toolLoopCount + 1, candidates := Candidates(|t.candidates| + 1),
              toolTrace := u.toolTrace,
              schedule := if loading then OneStopSchedule() else t.schedule,
              lastValidateOk := loading || t.lastValidateOk)
  {
    hide OneStopSchedule, Candidates;
    var counted := t.(toolLoopCount := t.toolLoopCount + 1);
    if loading {
      hide Load;
      LoadMerged(counted, OneMore(t));
    } else {
      assert [OneMore(t)] + [] == [OneMore(t)];
      OneEntry(counted, OneMore(t));
    }
  }

  lemma SearchStep(t: TravelState, k: nat, loading: bool, settings: Settings) returns (u: TravelState)
    requires At(t, Discover, k, settings) && t.toolLoopCount + 1 < settings.maxToolCalls && settings.stuckLimit >= 2
    ensures Reaches(t, [Search(t, loading)], u, settings) && At(u, Discover, 1, settings)
    ensures u.toolLoopCount == t.toolLoopCount + 1 && u.candidates != []
    ensures u.replanLoopCount == t.replanLoopCount && u.maxReplanAttempts == t.maxReplanAttempts
    ensures if loading then Loaded(u) else u.schedule == t.schedule
  {
    hide CallStep, Cycle, Reaches, Detected, Load;
    OneCall(t, Search(t, loading).calls[0], settings);
    SearchCall(t, loading, settings);
    var executed := CallStep(t, Search(t, loading).calls[0], settings);
    assert FingerprintOf(executed, settings).candidates != FingerprintOf(t, settings).candidates;
    u := FreshCycle(t, Search(t, loading), executed, settings);
    OneStop();
  }

  lemma OneStop()
    ensures ScheduleHasStops(OneStopSchedule())
  {
    assert OneStopSchedule()[0].stops != [];
  }

  /** A validation that fails, below the budget. */
  lemma FailValidation(t: TravelState, k: nat, settings: Settings) returns (u: TravelState)
    requires At(t, Validate, k, settings) && k > 0
    requires t.toolLoopCount + 1 < settings.maxToolCalls && settings.stuckLimit >= 2
    requires t.replanLoopCount < t.maxReplanAttempts
    ensures Reaches(t, [Picking(ValidateTool, false, [])], u, settings) && At(u, Replan, 1, settings)
    ensures u.toolLoopCount == t.toolLoopCount + 1 && u.replanLoopCount == t.replanLoopCount + 1
    ensures u.maxReplanAttempts == t.maxReplanAttempts && (Loaded(t) ==> Loaded(u))
  {
    hide Cycle, Reaches, Detected, ScheduleHasStops;
    var d := Picking(ValidateTool, false, []);
    OneCall(t, d.calls[0], settings);
    assert MergeAll(t.(toolLoopCount := t.toolLoopCount + 1), []) == t.(toolLoopCount := t.toolLoopCount + 1);
    var executed := CallStep(t, d.calls[0], settings);
    assert FingerprintOf(executed, settings).phase != FingerprintOf(t, settings).phase;
    u := FreshCycle(t, d, executed, settings);
  }

  /** A replan tool that succeeds, below the budget: back to PLAN. */
  lemma PlanAgain(t: TravelState, k: nat, settings: Settings) returns (u: TravelState)
    requires At(t, Replan, k, settings) && k > 0
    requires t.toolLoopCount + 1 < settings.maxToolCalls && settings.stuckLimit >= 2
    requires t.replanLoopCount < t.maxReplanAttempts
    ensures Reaches(t, [Picking(ReoptimizeRoutes, true, [])], u, settings) && At(u, Plan, 1, settings)
    ensures u.toolLoopCount == t.toolLoopCount + 1 && u.replanLoopCount == t.replanLoopCount
    ensures u.maxReplanAttempts == t.maxReplanAttempts && (Loaded(t) ==> Loaded(u))
  {
    hide Cycle, Reaches, Detected, ScheduleHasStops;
    var d := Picking(ReoptimizeRoutes, true, []);
    OneCall(t, d.calls[0], settings);
    assert MergeAll(t.(toolLoopCount := t.toolLoopCount + 1), []) == t.(toolLoopCount := t.toolLoopCount + 1);
    var executed := CallStep(t, d.calls[0], settings);
    assert FingerprintOf(executed, settings).phase != FingerprintOf(t, settings).phase;
    u := FreshCycle(t, d, executed, settings);
  }

  lemma FinishCallStep(t: TravelState, settings: Settings)
    requires t.phase == WrapUp && t.toolLoopCount + 1 == settings.maxToolCalls && t.lastValidateOk
    ensures
      var u := CallStep(t, Picking(FinishPlan, true, [OneMore(t)]).calls[0], settings);
      u == t.(toolLoopCount := t.toolLoopCount + 1, candidates := Candidates(|t.candidates| + 1),
              toolTrace := u.toolTrace,
              abortTriggered := true)
  {
    hide Candidates;
    OneEntry(t.(toolLoopCount := t.toolLoopCount + 1), OneMore(t));
  }

  /** The last call, spent in WRAP_UP on a finish_plan that changes the candidates and completes nothing. */
  lemma LastCall(t: TravelState, k: nat, settings: Settings) returns (u: TravelState)
    requires At(t, WrapUp, k, settings) && k > 0 && t.toolLoopCount + 1 == settings.maxToolCalls
    requires settings.stuckLimit >= 2 && t.lastValidateOk
    ensures Reaches(t, [Picking(FinishPlan, true, [OneMore(t)])], u, settings) && At(u, WrapUp, 1, settings)
  {
    hide CallStep, Cycle, Reaches, Detected, Candidates;
    var d := Picking(FinishPlan, true, [OneMore(t)]);
    OneCall(t, d.calls[0], settings);
    FinishCallStep(t, settings);
    var executed := CallStep(t, d.calls[0], settings);
    CandidatesCount(|t.candidates| + 1);
    assert FingerprintOf(executed, settings).candidates != FingerprintOf(t, settings).candidates;
    u := FreshCycle(t, d, executed, settings);
  }

  lemma CandidatesCount(n: nat)
    ensures |Candidates(n)| == n
  {
  }

  // ----- The longest run

  /** Waiting until the phase moves on. */
  lemma WaitAndMoveOn(t: TravelState, phase: Phase, k: nat, settings: Settings)
    returns (run: seq<Decision>, u: TravelState)
    requires At(t, phase, k, settings) && k < settings.stuckLimit && !AtCap(t, settings)
    requires phase in {Discover, Plan, Validate} && Loaded(t)
    ensures Reaches(t, run, u, settings) && |run| == settings.stuckLimit - k
    ensures At(u, match phase case Discover => Plan case Plan => Validate case _ => WrapUp, 0, settings)
    ensures SameData(t, u) && Loaded(u)
  {
    hide Reaches, At, ScheduleHasStops, AtCap;
    AtPhase(t, phase, k, settings);
    var waited, v := Wait(t, phase, k, settings.stuckLimit - 1 - k, settings);
    SameCap(t, v, settings);
    u := MoveOn(v, phase, settings);
    ReachesThen(t, waited, v, [Babble()], u, settings);
    run := waited + [Babble()];
  }

  lemma SameCap(t: TravelState, u: TravelState, settings: Settings)
    requires u.toolLoopCount == t.toolLoopCount
    ensures AtCap(u, settings) == AtCap(t, settings)
  {
  }

  /** n searches in DISCOVER, each followed by all the waiting there can be. */
  lemma {:induction false} SearchAndWait(t: TravelState, n: nat, loading: bool, settings: Settings)
    returns (run: seq<Decision>, u: TravelState)
    requires settings.stuckLimit >= 2 && t.toolLoopCount + n < settings.maxToolCalls
    requires At(t, Discover, settings.stuckLimit - 1, settings)
    ensures Reaches(t, run, u, settings) && |run| == n * (settings.stuckLimit - 1)
    ensures At(u, Discover, settings.stuckLimit - 1, settings) && u.toolLoopCount == t.toolLoopCount + n
    ensures u.replanLoopCount == t.replanLoopCount && u.maxReplanAttempts == t.maxReplanAttempts
    ensures n > 0 ==> u.candidates != [] && (loading ==> Loaded(u))
    ensures !loading ==> u.schedule == t.schedule && OnlySearches(run)
    decreases n
  {
    hide Reaches, At, ScheduleHasStops, Search, IsSearch;
    if n == 0 {
      run, u := [], t;
      NoCycles(t, settings);
    } else {
      var first, v := SearchAndWait(t, n - 1, loading, settings);
      var w := SearchStep(v, settings.stuckLimit - 1, loading, settings);
      SearchIsSearch(v);
      AtPhase(w, Discover, 1, settings);
      var waited;
      waited, u := Wait(w, Discover, 1, settings.stuckLimit - 2, settings);
      ReachesThen(t, first, v, [Search(v, loading)], w, settings);
      ReachesThen(t, first + [Search(v, loading)], w, waited, u, settings);
      run := first + [Search(v, loading)] + waited;
      assert n * (settings.stuckLimit - 1) == (n - 1) * (settings.stuckLimit - 1) + (settings.stuckLimit - 1);
    }
  }

  /** Once round VALIDATE, REPLAN and PLAN, waiting wherever there is time. */
  lemma Round(t: TravelState, settings: Settings) returns (run: seq<Decision>, u: TravelState)
    requires settings.stuckLimit >= 2 && t.toolLoopCount + 2 < settings.maxToolCalls
    requires At(t, Validate, 0, settings) && Loaded(t) && t.replanLoopCount + 1 < t.maxReplanAttempts
    ensures Reaches(t, run, u, settings) && |run| == 3 * settings.stuckLimit - 2
    ensures At(u, Validate, 0, settings) && Loaded(u)
    ensures u.toolLoopCount == t.toolLoopCount + 2
    ensures u.replanLoopCount == t.replanLoopCount + 1 && u.maxReplanAttempts == t.maxReplanAttempts
  {
    hide Reaches, At, ScheduleHasStops, Picking;
    var limit := settings.stuckLimit;
    AtPhase(t, Validate, 0, settings);
    var validating, a := Wait(t, Validate, 0, limit - 1, settings);
    var b := FailValidation(a, limit - 1, settings);
    AtPhase(b, Replan, 1, settings);
    var replanning, c := Wait(b, Replan, 1, limit - 2, settings);
    var d := PlanAgain(c, limit - 1, settings);
    var planning;
    planning, u := WaitAndMoveOn(d, Plan, 1, settings);
    var fail, again := [Picking(ValidateTool, false, [])], [Picking(ReoptimizeRoutes, true, [])];
    ReachesThen(t, validating, a, fail, b, settings);
    ReachesThen(t, validating + fail, b, replanning, c, settings);
    ReachesThen(t, validating + fail + replanning, c, again, d, settings);
    ReachesThen(t, validating + fail + replanning + again, d, planning, u, settings);
    run := validating + fail + replanning + again + planning;
  }

  lemma {:induction false} Rounds(t: TravelState, n: nat, settings: Settings)
    returns (run: seq<Decision>, u: TravelState)
    requires settings.stuckLimit >= 2 && t.toolLoopCount + 2 * n < settings.maxToolCalls
    requires At(t, Validate, 0, settings) && Loaded(t) && (n > 0 ==> t.replanLoopCount + n < t.maxReplanAttempts)
    ensures Reaches(t, run, u, settings) && |run| == n * (3 * settings.stuckLimit - 2)
    ensures At(u, Validate, 0, settings) && Loaded(u)
    ensures u.toolLoopCount == t.toolLoopCount + 2 * n
    ensures u.replanLoopCount == t.replanLoopCount + n && u.maxReplanAttempts == t.maxReplanAttempts
    decreases n
  {
    hide Reaches, At, Loaded;
    if n == 0 {
      run, u := [], t;
      NoCycles(t, settings);
    } else {
      var first, v := Rounds(t, n - 1, settings);
      var last;
      last, u := Round(v, settings);
      ReachesThen(t, first, v, last, u, settings);
      run := first + last;
      var length := 3 * settings.stuckLimit - 2;
      assert n * length == (n - 1) * length + length;
    }
  }

  /** From VALIDATE to the end, the last call being spent as late as possible. */
  lemma ToTheEnd(t: TravelState, settings: Settings) returns (run: seq<Decision>)
    requires settings.stuckLimit >= 2 && t.toolLoopCount + 1 == settings.maxToolCalls
    requires At(t, Validate, 0, settings) && Loaded(t)
    ensures Completes(t, run, settings) && |run| == 3 * settings.stuckLimit - 1
  {
    hide Reaches, At, ScheduleHasStops, Completes, Picking;
    var validating, a := WaitAndMoveOn(t, Validate, 0, settings);
    AtPhase(a, WrapUp, 0, settings);
    var wrapping, b := Wait(a, WrapUp, 0, settings.stuckLimit - 1, settings);
    var last := [Picking(FinishPlan, true, [OneMore(b)])];
    var c := LastCall(b, settings.stuckLimit - 1, settings);
    var waiting := WaitOut(c, 1, settings);
    ReachesEnd(b, last, c, waiting, settings);
    ReachesEnd(a, wrapping, b, last + waiting, settings);
    ReachesEnd(t, validating, a, wrapping + (last + waiting), settings);
    run := validating + (wrapping + (last + waiting));
  }

  lemma InitialAt(s: TravelState, settings: Settings)
    requires Initial(s)
    ensures At(s, Discover, 0, settings)
  {
  }

  /** Going round `rounds` times, as far as calls and replans allow. */
  lemma LongRun(s: TravelState, rounds: nat, settings: Settings) returns (run: seq<Decision>)
    requires Initial(s) && settings.stuckLimit >= 2 && settings.maxToolCalls >= 2 * rounds + 2
    requires rounds > 0 ==> rounds < s.maxReplanAttempts
    ensures Completes(s, run, settings)
    ensures |run| == (settings.stuckLimit - 1) * settings.maxToolCalls + settings.stuckLimit * (4 + rounds)
  {
    hide Reaches, At, Completes, Loaded;
    var limit, calls := settings.stuckLimit, settings.maxToolCalls;
    InitialAt(s, settings);
    var idle, a := Wait(s, Discover, 0, limit - 1, settings);
    var searching, b := SearchAndWait(a, calls - 1 - 2 * rounds, true, settings);
    AtPhase(b, Discover, limit - 1, settings);
    var leaving, c := WaitAndMoveOn(b, Discover, limit - 1, settings);
    var planning, d := WaitAndMoveOn(c, Plan, 0, settings);
    var round, e := Rounds(d, rounds, settings);
    var ending := ToTheEnd(e, settings);
    ReachesEnd(d, round, e, ending, settings);
    ReachesEnd(c, planning, d, round + ending, settings);
    ReachesEnd(b, leaving, c, planning + (round + ending), settings);
    ReachesEnd(a, searching, b, leaving + (planning + (round + ending)), settings);
    ReachesEnd(s, idle, a, searching + (leaving + (planning + (round + ending))), settings);
    run := idle + (searching + (leaving + (planning + (round + ending))));
    LongRunLength(limit, calls, rounds);
  }

  lemma LongRunLength(limit: int, calls: int, rounds: int)
    ensures (limit - 1) + (calls - 1 - 2 * rounds) * (limit - 1) + 1 + limit + rounds * (3 * limit - 2)
            + (3 * limit - 1)
         == (limit - 1) * calls + limit * (4 + rounds)
  {
  }

  /** The bound on run lengths is attained: no smaller one holds. */
  lemma WorstCaseAttained(s: TravelState, settings: Settings) returns (run: seq<Decision>)
    requires Initial(s) && settings.stuckLimit >= 2 && settings.maxToolCalls >= 2
    ensures PlainRun(run) && Runs(s, run, settings) && Final(AfterCycles(s, run, settings))
    ensures |run| == CycleBound(s, settings)
  {
    hide AfterCycles, Completes;
    var rounds := Min(NonNeg(s.maxReplanAttempts - 1), (settings.maxToolCalls - 2) / 2);
    run := LongRun(s, rounds, settings);
    CompletesRuns(s, run, settings);
  }

  lemma CompletesRuns(s: TravelState, run: seq<Decision>, settings: Settings)
    requires Completes(s, run, settings)
    ensures PlainRun(run) && Runs(s, run, settings) && Final(AfterCycles(s, run, settings))
    ensures GraphSteps(|run|, AfterCycles(s, run, settings)) == 2 * |run| + 3
  {
    hide AfterCycles;
    var front := run[..|run| - 1];
    forall k | 1 <= k < |run| ensures !Final(AfterCycles(s, run[..k], settings)) {
      assert front[..k] == run[..k];
    }
    forall i | 0 <= i < |run| ensures DecisionOk(run[i]) {
      assert PlainDecision(run[i]);
    }
  }

  // ----- Exactly when the recursion limit covers every run

  ghost predicate EveryRunFits(s: TravelState, settings: Settings) {
    forall run | PlainRun(run) && Runs(s, run, settings) ::
      GraphSteps(|run|, AfterCycles(s, run, settings)) <= RecursionLimit(settings)
  }

  /** M calls, L cycles until stuck, R replans. */
  predicate SafeLimits(maxToolCalls: int, stuckLimit: int, maxReplan: int) {
    maxToolCalls == 1 || stuckLimit == 1 || (stuckLimit == 2 && (maxReplan <= 1 || maxToolCalls <= 3))
  }

  lemma SafeLimitsFit(maxToolCalls: int, stuckLimit: int, maxReplan: int)
    requires maxToolCalls >= 1 && stuckLimit >= 1 && SafeLimits(maxToolCalls, stuckLimit, maxReplan)
    ensures WorstCase(maxToolCalls, stuckLimit, maxReplan) <= maxToolCalls + 4 * stuckLimit
  {
    if stuckLimit == 1 {
      assert (stuckLimit - 1) * maxToolCalls == 0;
    } else if maxToolCalls == 1 {
      assert WorstCase(maxToolCalls, stuckLimit, maxReplan) == (stuckLimit - 1) + stuckLimit * 3;
    }
  }

  /**
   * The recursion limit covers every run, whatever the agent proposes and the tools return, exactly for these
   * settings; with any others some run exceeds it.
   */
  lemma RecursionLimitIff(s: TravelState, settings: Settings)
    requires Initial(s) && settings.maxToolCalls >= 1 && settings.stuckLimit >= 1
    ensures EveryRunFits(s, settings)
       <==> SafeLimits(settings.maxToolCalls, settings.stuckLimit, s.maxReplanAttempts)
  {
    hide AfterCycles, Completes, WorstCase;
    var calls, limit := settings.maxToolCalls, settings.stuckLimit;
    if SafeLimits(calls, limit, s.maxReplanAttempts) {
      SafeLimitsFit(calls, limit, s.maxReplanAttempts);
      forall run | PlainRun(run) && Runs(s, run, settings)
        ensures GraphSteps(|run|, AfterCycles(s, run, settings)) <= RecursionLimit(settings)
      {
        RunLength(s, run, settings);
      }
    } else {
      var rounds := if limit == 2 then 1 else 0;
      var run := LongRun(s, rounds, settings);
      CompletesRuns(s, run, settings);
      assert limit >= 3 ==> (limit - 1) * calls >= 2 * calls;
      assert GraphSteps(|run|, AfterCycles(s, run, settings)) > RecursionLimit(settings);
    }
  }

  /** Searches and unknown names alone already take this many cycles. */
  lemma SearchingRun(s: TravelState, settings: Settings) returns (run: seq<Decision>)
    requires Initial(s) && settings.stuckLimit >= 2 && settings.maxToolCalls >= 2
    ensures Completes(s, run, settings) && OnlySearches(run)
    ensures |run| == (settings.stuckLimit - 1) * settings.maxToolCalls + 2 * settings.stuckLimit + 1
  {
    hide Reaches, At, Completes, IsSearch, AtCap, ScheduleHasStops;
    var limit, calls := settings.stuckLimit, settings.maxToolCalls;
    InitialAt(s, settings);
    BelowCap(s, settings);
    var idle, a := Wait(s, Discover, 0, limit - 1, settings);
    var searching, b := SearchAndWait(a, calls - 1, false, settings);
    BelowCap(b, settings);
    var c := MoveOn(b, Discover, settings);
    AtPhase(c, Plan, 0, settings);
    BelowCap(c, settings);
    var planning, d := Wait(c, Plan, 0, limit - 1, settings);
    BelowCap(d, settings);
    NoStops(d.schedule);
    var e := MoveOn(d, Plan, settings);
    var ending := WaitOut(e, 0, settings);
    var next := [Babble()];
    ReachesEnd(d, next, e, ending, settings);
    ReachesEnd(c, planning, d, next + ending, settings);
    ReachesEnd(b, next, c, planning + (next + ending), settings);
    ReachesEnd(a, searching, b, next + (planning + (next + ending)), settings);
    ReachesEnd(s, idle, a, searching + (next + (planning + (next + ending))), settings);
    run := idle + (searching + (next + (planning + (next + ending))));
    assert (calls - 1) * (limit - 1) + (limit - 1) == (limit - 1) * calls;
  }

  lemma BelowCap(t: TravelState, settings: Settings)
    ensures AtCap(t, settings) <==> t.toolLoopCount >= settings.maxToolCalls
  {
  }

  lemma NoStops(schedule: seq<ScheduleDay>)
    ensures schedule == [] ==> !ScheduleHasStops(schedule)
  {
  }

  /**
   * So with the default settings the limit is exceeded without any tool misbehaving: searching and calling an
   * unregistered name takes up to 31 cycles and 65 graph steps, against a limit of 52.
   */
  lemma RecursionLimitCanBeExceeded(s: TravelState, settings: Settings) returns (run: seq<Decision>)
    requires Initial(s) && settings.maxToolCalls == 12 && settings.stuckLimit == 3
    ensures PlainRun(run) && Runs(s, run, settings) && Final(AfterCycles(s, run, settings)) && OnlySearches(run)
    ensures GraphSteps(|run|, AfterCycles(s, run, settings)) == 65 > RecursionLimit(settings) == 52
  {
    hide AfterCycles, Completes, OnlySearches;
    run := SearchingRun(s, settings);
    CompletesRuns(s, run, settings);
  }

  // ----- The one thing tools may not do

  /** A search that reports the code reserved for unregistered names. */
  function Unaccountable(t: TravelState): Decision {
    Picks([Call(SearchPlaces, Returns(ToolResult(true, Some(UnknownToolCode), [OneMore(t)])))])
  }

  lemma NotCounted(t: TravelState, k: nat, settings: Settings) returns (u: TravelState)
    requires At(t, Discover, k, settings) && t.toolLoopCount == 0
    requires settings.maxToolCalls >= 1 && settings.stuckLimit >= 2
    ensures u == Cycle(t, Unaccountable(t), settings) && At(u, Discover, 1, settings) && u.toolLoopCount == 0
  {
    hide Cycle, Detected, Candidates;
    OneCall(t, Unaccountable(t).calls[0], settings);
    OneEntry(t, OneMore(t));
    var executed := CallStep(t, Unaccountable(t).calls[0], settings);
    CandidatesCount(|t.candidates| + 1);
    assert FingerprintOf(executed, settings).candidates != FingerprintOf(t, settings).candidates;
    FreshDetected(executed, settings);
    u := Cycle(t, Unaccountable(t), settings);
  }

  /**
   * Without the assumption on that code no bound holds: a registered tool that reports it is never counted,
   * and as long as it changes the candidates the run goes on, however many cycles have passed.
   */
  lemma {:induction false} ReservedCodeNeverEnds(s: TravelState, n: nat, settings: Settings)
    returns (run: seq<Decision>)
    requires Initial(s) && settings.maxToolCalls >= 1 && settings.stuckLimit >= 2
    ensures |run| == n && StillRunning(s, run, settings)
    ensures forall i | 0 <= i < n :: run[i].Picks? && |run[i].calls| == 1 && run[i].calls[0].name == SearchPlaces
    ensures AfterCycles(s, run, settings).toolLoopCount == 0
    ensures At(AfterCycles(s, run, settings), Discover, if n == 0 then 0 else 1, settings)
  {
    hide Cycle, At, Final;
    if n == 0 {
      run := [];
      InitialAt(s, settings);
    } else {
      var front := ReservedCodeNeverEnds(s, n - 1, settings);
      var t := AfterCycles(s, front, settings);
      var u := NotCounted(t, if n == 1 then 0 else 1, settings);
      AtPhase(u, Discover, 1, settings);
      run := front + [Unaccountable(t)];
      assert run[..n - 1] == front;
      forall k | 1 <= k <= n ensures !Final(AfterCycles(s, run[..k], settings)) {
        if k < n {
          assert run[..k] == front[..k];
        } else {
          assert run[..k] == run;
        }
      }
    }
  }
}
