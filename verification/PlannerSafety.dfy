/** What holds at every step of every planner run: budgets, the work cap, and what a finished plan means. */
module PlannerSafety {
  import opened Ordering
  import opened PlannerMachine
  import opened PlannerTermination
  import opened PlannerRunLength

  /** The steps of a cycle, one by one. */
  datatype Micro = Decide(decision: Decision) | Tool(call: Call) | Detect

  function MicroStep(s: TravelState, m: Micro, settings: Settings): TravelState {
    match m
    case Decide(d) => Agreed(s, d, settings)
    case Tool(call) => CallStep(s, call, settings)
    case Detect => Detected(s, settings)
  }

  function AfterMicros(s: TravelState, micros: seq<Micro>, settings: Settings): TravelState {
    if micros == [] then s
    else MicroStep(AfterMicros(s, micros[..|micros| - 1], settings), micros[|micros| - 1], settings)
  }

  function ToolMicros(calls: seq<Call>): seq<Micro> {
    seq(|calls|, i requires 0 <= i < |calls| => Tool(calls[i]))
  }

  function CycleMicros(s: TravelState, d: Decision, settings: Settings): seq<Micro> {
    [Decide(d)] + ToolMicros(Pending(s, d, settings)) + [Detect]
  }

  function RunMicros(s: TravelState, decisions: seq<Decision>, settings: Settings): seq<Micro> {
    if decisions == [] then []
    else
      var front, last := decisions[..|decisions| - 1], decisions[|decisions| - 1];
      RunMicros(s, front, settings) + CycleMicros(AfterCycles(s, front, settings), last, settings)
  }

  lemma {:induction false} MicrosAppend(s: TravelState, a: seq<Micro>, b: seq<Micro>, settings: Settings)
    ensures AfterMicros(s, a + b, settings) == AfterMicros(AfterMicros(s, a, settings), b, settings)
  {
    hide MicroStep;
    if b == [] {
      assert a + b == a;
    } else {
      MicrosAppend(s, a, b[..|b| - 1], settings);
      assert (a + b)[..|a + b| - 1] == a + b[..|b| - 1];
    }
  }

  lemma {:induction false} BatchMicros(s: TravelState, calls: seq<Call>, settings: Settings)
    ensures AfterMicros(s, ToolMicros(calls), settings) == Batch(s, calls, settings)
  {
    hide CallStep;
    if calls != [] {
      BatchMicros(s, calls[..|calls| - 1], settings);
      assert ToolMicros(calls)[..|calls| - 1] == ToolMicros(calls[..|calls| - 1]);
    }
  }

  lemma OneMicro(s: TravelState, m: Micro, settings: Settings)
    ensures AfterMicros(s, [m], settings) == MicroStep(s, m, settings)
  {
    hide MicroStep;
    assert [m][..0] == [];
    assert AfterMicros(s, [m][..0], settings) == s;
  }

  /** The steps of a run, taken one by one, are the run. */
  lemma {:induction false} RunIsMicros(s: TravelState, decisions: seq<Decision>, settings: Settings)
    ensures AfterMicros(s, RunMicros(s, decisions, settings), settings) == AfterCycles(s, decisions, settings)
  {
    hide Batch, Detected, Agreed, CallStep;
    if decisions != [] {
      var front, last := decisions[..|decisions| - 1], decisions[|decisions| - 1];
      RunIsMicros(s, front, settings);
      var before := AfterCycles(s, front, settings);
      var calls := Pending(before, last, settings);
      MicrosAppend(s, RunMicros(s, front, settings), CycleMicros(before, last, settings), settings);
      MicrosAppend(before, [Decide(last)] + ToolMicros(calls), [Detect], settings);
      MicrosAppend(before, [Decide(last)], ToolMicros(calls), settings);
      OneMicro(before, Decide(last), settings);
      BatchMicros(Agreed(before, last, settings), calls, settings);
      OneMicro(Batch(Agreed(before, last, settings), calls, settings), Detect, settings);
    }
  }

  // ----- WRAP_UP is absorbing, and the replan budget

  /** How phase and replan count may change in one step. */
  ghost predicate PhaseStep(s: TravelState, t: TravelState) {
    && (s.phase == WrapUp ==> t.phase == WrapUp)
    && t.maxReplanAttempts == s.maxReplanAttempts
    && (t.phase == Replan && s.phase != Replan ==>
          s.phase == Validate && s.replanLoopCount < s.maxReplanAttempts && t.replanLoopCount == s.replanLoopCount + 1)
    && (!(t.phase == Replan && s.phase != Replan) ==> t.replanLoopCount == s.replanLoopCount)
    && (s.phase == Replan && t.phase == Plan ==> s.replanLoopCount < s.maxReplanAttempts)
    && (s.phase == Replan ==> t.phase == Replan || t.phase == Plan || t.phase == WrapUp)
  }

  lemma TransitionPhases(s: TravelState, name: ToolName, result: ToolResult, settings: Settings)
    ensures PhaseStep(s, Transitioned(s, name, result, settings))
  {
    hide Transitioned, MoveFor;
    TransitionFrame(s, name, result, settings);
    MovePossible(s, name, result, settings);
  }

  lemma CallPhases(s: TravelState, call: Call, settings: Settings)
    ensures PhaseStep(s, CallStep(s, call, settings))
  {
    hide Applied, ExecuteTool, Transitioned;
    var result := ExecuteTool(s, call);
    AppliedControl(s, call.name, result);
    TransitionPhases(Applied(s, call.name, result), call.name, result, settings);
  }

  lemma DetectPhases(s: TravelState, settings: Settings)
    ensures PhaseStep(s, Detected(s, settings))
  {
    hide FingerprintOf, ScheduleHasStops, Unstick;
    var fp := FingerprintOf(s, settings);
    var cycles := if s.stuckFingerprint == Some(fp) then s.stuckCycles + 1 else 1;
    UnstickFrame(s.(stuckFingerprint := Some(fp), stuckCycles := cycles));
  }

  /** WRAP_UP is absorbing; REPLAN is entered only from VALIDATE within the budget, and left for PLAN only below it. */
  lemma MicroPhases(s: TravelState, m: Micro, settings: Settings)
    ensures PhaseStep(s, MicroStep(s, m, settings))
  {
    hide CallStep, Detected;
    match m
    case Decide(d) =>
    case Tool(call) => CallPhases(s, call, settings);
    case Detect => DetectPhases(s, settings);
  }

  /** How often REPLAN was entered along the way. */
  function Entries(s: TravelState, micros: seq<Micro>, settings: Settings): nat {
    if micros == [] then 0
    else
      var front := micros[..|micros| - 1];
      Entries(s, front, settings)
      + if AfterMicros(s, front, settings).phase != Replan && AfterMicros(s, micros, settings).phase == Replan then 1
        else 0
  }

  /** How often control returned from REPLAN to PLAN. */
  function ReturnsToPlan(s: TravelState, micros: seq<Micro>, settings: Settings): nat {
    if micros == [] then 0
    else
      var front := micros[..|micros| - 1];
      ReturnsToPlan(s, front, settings)
      + if AfterMicros(s, front, settings).phase == Replan && AfterMicros(s, micros, settings).phase == Plan then 1
        else 0
  }

  lemma {:induction false} ReplanCounts(s: TravelState, micros: seq<Micro>, settings: Settings)
    requires s.replanLoopCount == 0 && s.phase != Replan
    ensures
      var t, budget := AfterMicros(s, micros, settings), NonNeg(s.maxReplanAttempts);
      && t.maxReplanAttempts == s.maxReplanAttempts
      && t.replanLoopCount == Entries(s, micros, settings) <= budget
      && ReturnsToPlan(s, micros, settings) + (if t.phase == Replan then 1 else 0) <= t.replanLoopCount
      && (budget > 0 ==> ReturnsToPlan(s, micros, settings) <= budget - 1)
  {
    hide MicroStep;
    if micros != [] {
      var front, last := micros[..|micros| - 1], micros[|micros| - 1];
      ReplanCounts(s, front, settings);
      MicroPhases(AfterMicros(s, front, settings), last, settings);
    }
  }

  /** Over any run REPLAN is entered at most max_replan times, and left for PLAN at most max_replan - 1 times. */
  lemma ReplanBudget(s: TravelState, decisions: seq<Decision>, settings: Settings)
    requires Initial(s)
    ensures
      var micros, budget := RunMicros(s, decisions, settings), NonNeg(s.maxReplanAttempts);
      && Entries(s, micros, settings) <= budget
      && ReturnsToPlan(s, micros, settings) <= if budget == 0 then 0 else budget - 1
  {
    ReplanCounts(s, RunMicros(s, decisions, settings), settings);
  }

  // ----- The work cap

  /** Whether a step actually runs a tool's function, other than finish_plan's. */
  predicate RunsTool(s: TravelState, m: Micro) {
    m.Tool? && CheckPreconditions(m.call.name, s) && m.call.name != FinishPlan
  }

  function ToolsRun(s: TravelState, micros: seq<Micro>, settings: Settings): nat {
    if micros == [] then 0
    else
      var front := micros[..|micros| - 1];
      ToolsRun(s, front, settings) + if RunsTool(AfterMicros(s, front, settings), micros[|micros| - 1]) then 1 else 0
  }

  /** Trace entries of registered names that did not report the reserved code. */
  function CountedEntries(trace: seq<TraceEntry>): nat {
    if trace == [] then 0
    else
      var last := trace[|trace| - 1];
      CountedEntries(trace[..|trace| - 1])
      + if Registered(last.name) && last.code != Some(UnknownToolCode) then 1 else 0
  }

  ghost predicate PlainMicro(m: Micro) {
    m.Tool? ==> PlainOutcome(m.call.outcome)
  }

  ghost predicate PlainMicros(micros: seq<Micro>) {
    forall i | 0 <= i < |micros| :: PlainMicro(micros[i])
  }

  /** The loop count is what the trace shows, and at the cap the phase is WRAP_UP. */
  ghost predicate CountOk(s: TravelState, settings: Settings) {
    && s.toolLoopCount == CountedEntries(s.toolTrace)
    && (AtCap(s, settings) ==> s.phase == WrapUp)
  }

  lemma CallCounts(s: TravelState, call: Call, settings: Settings)
    requires PlainOutcome(call.outcome) && CountOk(s, settings)
    ensures CountOk(CallStep(s, call, settings), settings)
    ensures CallStep(s, call, settings).toolLoopCount == s.toolLoopCount + if Registered(call.name) then 1 else 0
  {
    hide Applied, ExecuteTool, Transitioned, CountedEntries, CallStep;
    var result := ExecuteTool(s, call);
    ExecutePlain(s, call);
    CapForcesWrapUp(s, call, settings);
    CallTrace(s, call, settings);
    CountedSnoc(s.toolTrace, TraceEntry(call.name, result.ok, s.phase, result.code));
  }

  /** A call adds its own trace entry, stamped with the phase it ran in, and counts if its name was resolved. */
  lemma CallTrace(s: TravelState, call: Call, settings: Settings)
    ensures
      var result, t := ExecuteTool(s, call), CallStep(s, call, settings);
      && t.toolTrace == s.toolTrace + [TraceEntry(call.name, result.ok, s.phase, result.code)]
      && t.toolLoopCount == s.toolLoopCount + (if Counts(call.name, result) then 1 else 0)
  {
    hide Applied, ExecuteTool, Transitioned;
    var result := ExecuteTool(s, call);
    AppliedControl(s, call.name, result);
    TransitionTrace(Applied(s, call.name, result), call.name, result, settings);
  }

  lemma TransitionTrace(s: TravelState, name: ToolName, result: ToolResult, settings: Settings)
    ensures Transitioned(s, name, result, settings).toolTrace == s.toolTrace
    ensures Transitioned(s, name, result, settings).toolLoopCount == s.toolLoopCount
  {
    hide Transitioned;
    TransitionFrame(s, name, result, settings);
  }

  lemma CountedSnoc(trace: seq<TraceEntry>, entry: TraceEntry)
    ensures CountedEntries(trace + [entry])
         == CountedEntries(trace) + if Registered(entry.name) && entry.code != Some(UnknownToolCode) then 1 else 0
  {
    assert (trace + [entry])[..|trace|] == trace;
  }

  lemma DetectCounts(s: TravelState, settings: Settings)
    requires CountOk(s, settings)
    ensures CountOk(Detected(s, settings), settings)
    ensures Detected(s, settings).toolLoopCount == s.toolLoopCount
  {
    hide FingerprintOf, CountedEntries, ScheduleHasStops, Unstick;
    var fp := FingerprintOf(s, settings);
    var cycles := if s.stuckFingerprint == Some(fp) then s.stuckCycles + 1 else 1;
    UnstickFrame(s.(stuckFingerprint := Some(fp), stuckCycles := cycles));
  }

  lemma MicroCounts(s: TravelState, m: Micro, settings: Settings)
    requires PlainMicro(m) && CountOk(s, settings)
    ensures CountOk(MicroStep(s, m, settings), settings)
    ensures MicroStep(s, m, settings).toolLoopCount >= s.toolLoopCount + (if RunsTool(s, m) then 1 else 0)
    ensures AtCap(s, settings) ==> !RunsTool(s, m)
  {
    hide CallStep, Detected, CountedEntries;
    match m
    case Decide(d) =>
    case Tool(call) => CallCounts(s, call, settings);
    case Detect => DetectCounts(s, settings);
  }

  lemma {:induction false} WorkIsCounted(s: TravelState, micros: seq<Micro>, settings: Settings)
    requires Initial(s) && settings.maxToolCalls >= 1 && PlainMicros(micros)
    ensures
      var t := AfterMicros(s, micros, settings);
      && CountOk(t, settings)
      && ToolsRun(s, micros, settings) <= t.toolLoopCount
      && ToolsRun(s, micros, settings) <= settings.maxToolCalls
  {
    hide MicroStep, RunsTool;
    if micros != [] {
      var front, last := micros[..|micros| - 1], micros[|micros| - 1];
      forall i | 0 <= i < |front| ensures PlainMicro(front[i]) {
        assert PlainMicro(micros[i]);
      }
      WorkIsCounted(s, front, settings);
      MicroCounts(AfterMicros(s, front, settings), last, settings);
    }
  }

  lemma {:induction false} PlainRunMicros(s: TravelState, decisions: seq<Decision>, settings: Settings)
    requires PlainRun(decisions)
    ensures PlainMicros(RunMicros(s, decisions, settings))
  {
    hide AfterCycles, PlainOutcome, PlainDecision, Pending;
    if decisions != [] {
      var front, last := decisions[..|decisions| - 1], decisions[|decisions| - 1];
      PlainRunMicros(s, front, settings);
      var before := AfterCycles(s, front, settings);
      PendingPlain(before, last, settings);
      var a, b := RunMicros(s, front, settings), CycleMicros(before, last, settings);
      forall i | 0 <= i < |a + b| ensures PlainMicro((a + b)[i]) {
        if i < |a| {
          assert PlainMicro(a[i]);
        } else {
          assert (a + b)[i] == b[i - |a|];
        }
      }
    }
  }

  /**
   * The work cap, whatever the size of the batches: tool functions other than finish_plan run at most MAX
   * times in a run, and the loop count is exactly the number of counted trace entries.
   */
  lemma WorkCap(s: TravelState, decisions: seq<Decision>, settings: Settings)
    requires Initial(s) && settings.maxToolCalls >= 1 && PlainRun(decisions)
    ensures ToolsRun(s, RunMicros(s, decisions, settings), settings) <= settings.maxToolCalls
    ensures
      var last := AfterCycles(s, decisions, settings);
      && last.toolLoopCount == CountedEntries(last.toolTrace)
      && (AtCap(last, settings) ==> last.phase == WrapUp)
  {
    PlainRunMicros(s, decisions, settings);
    WorkIsCounted(s, RunMicros(s, decisions, settings), settings);
    RunIsMicros(s, decisions, settings);
  }
}
