/** Budgets, bounded tool repair and run accounting (syncinerary/harness/budget.py,
    syncinerary/harness/tool_guard.py, syncinerary/harness/wrapper.py). */
module Harness {
  import opened Schedule
  import opened LoopDetection

  type Arguments = nat

  const REPAIR_ATTEMPT_CAP := 2
  const NO_PROGRESS_WINDOW := 6
  const LOOP_HASH_REPEAT_THRESHOLD := 3
  const TOOL_ARG_CYCLE_THRESHOLD := 3

  /** What can be raised out of a harness call. `Cancelled` is not caught by `except Exception`. */
  datatype Error = BudgetExceeded | NoProgress | ToolCycle | Unrecoverable | UsageUnavailable | OtherError | Cancelled

  datatype Status = Running | Ok | BudgetStop | NoProgressStop | ToolCycleStop | Failed

  /** The stored run row. */
  datatype Row = Row(status: Status, steps: nat, cost: nat)

  /** Token counts and prices; costs are counted in millionths, so that they are whole. */
  datatype Usage = Usage(inputTokens: nat, outputTokens: nat)

  datatype Pricing = Pricing(input: nat, output: nat)

  function Cost(usage: Usage, pricing: Pricing): nat
  {
    usage.inputTokens * pricing.input + usage.outputTokens * pricing.output
  }

  class RunBudget {
    const maxSteps: int
    const maxCost: nat
    var stepCount: nat
    var tokenCost: nat

    constructor (maxSteps: int, maxCost: nat)
      ensures this.maxSteps == maxSteps && this.maxCost == maxCost && stepCount == 0 && tokenCost == 0
    {
      this.maxSteps, this.maxCost, stepCount, tokenCost := maxSteps, maxCost, 0, 0;
    }

    method ChargeStep() returns (exceeded: bool)
      modifies this`stepCount
      ensures stepCount == old(stepCount) + 1
      ensures exceeded <==> stepCount > maxSteps
    {
      stepCount := stepCount + 1;
      exceeded := stepCount > maxSteps;
    }

    method ChargeTokens(usage: Usage, pricing: Pricing) returns (exceeded: bool)
      modifies this`tokenCost
      ensures tokenCost == old(tokenCost) + Cost(usage, pricing)
      ensures exceeded <==> tokenCost > maxCost
    {
      tokenCost := tokenCost + Cost(usage, pricing);
      exceeded := tokenCost > maxCost;
    }
  }

  // ----- what is spent and seen, as values -----

  datatype Limits = Limits(maxSteps: int, maxCost: nat, window: nat, stateRepeats: nat, toolRepeats: nat)

  /** What a run has spent and observed. */
  datatype Meter = Meter(steps: nat, cost: nat, states: seq<Print>, tools: seq<Print>)

  ghost function LimitsOf(ledger: RunLedger): Limits
  {
    Limits(ledger.budget.maxSteps, ledger.budget.maxCost, ledger.detector.windowSize, ledger.detector.repeatThreshold,
           ledger.detector.toolRepeatThreshold)
  }

  ghost function Read(ledger: RunLedger): Meter
    reads ledger, ledger.budget, ledger.detector
  {
    Meter(ledger.budget.stepCount, ledger.budget.tokenCost, ledger.detector.states, ledger.detector.tools)
  }

  /** A checked call: a step is spent; within the limit a state is noted, and unless it repeats too often
      a tool call too. */
  ghost function Checked(l: Limits, m: Meter, state: Option<Print>, tool: Option<Print>): (Meter, Option<Error>)
    requires l.window > 0
  {
    var spent := m.(steps := m.steps + 1);
    if spent.steps > l.maxSteps then (spent, Some(BudgetExceeded))
    else
      var seen := if state.Some? then spent.(states := m.states + [state.value]) else spent;
      if state.Some? && Fires(seen.states, l.window, l.stateRepeats) then (seen, Some(NoProgress))
      else
        var used := if tool.Some? then seen.(tools := m.tools + [tool.value]) else seen;
        (used, if tool.Some? && Fires(used.tools, l.window, l.toolRepeats) then Some(ToolCycle) else None)
  }

  /** The tokens of an answer, charged at their prices; past the limit that is an error. */
  ghost function Charged(l: Limits, m: Meter, usage: Usage, pricing: Pricing): (Meter, Option<Error>)
  {
    var cost := m.cost + usage.inputTokens * pricing.input + usage.outputTokens * pricing.output;
    (m.(cost := cost), if cost > l.maxCost then Some(BudgetExceeded) else None)
  }

  // ----- the ledger of a run -----

  class RunLedger {
    const budget: RunBudget
    const detector: LoopDetector
    var row: Row

    /** The stored row always shows what has been spent. */
    ghost predicate Valid()
      reads this, budget, detector
    {
      detector.Valid() && row.steps == budget.stepCount && row.cost == budget.tokenCost
    }

    constructor (budget: RunBudget, detector: LoopDetector)
      requires detector.Valid() && budget.stepCount == 0 && budget.tokenCost == 0
      ensures Valid() && this.budget == budget && this.detector == detector && row == Row(Running, 0, 0)
    {
      this.budget, this.detector, row := budget, detector, Row(Running, 0, 0);
    }

    method Persist(status: Option<Status>)
      requires detector.Valid()
      modifies this
      ensures Valid()
      ensures row.status == if status.Some? then status.value else old(row.status)
    {
      row := Row(if status.Some? then status.value else row.status, budget.stepCount, budget.tokenCost);
    }

    /** Charge a step, then look for a repeated state, then for a repeated tool call; store the
        counters whatever happens. */
    method BeforeCall(state: Option<Print>, tool: Option<Print>) returns (error: Option<Error>)
      requires Valid()
      modifies this, budget`stepCount, detector
      ensures Valid() && row.status == old(row.status)
      ensures (Read(this), error) == old(Checked(LimitsOf(this), Read(this), state, tool))
    {
      error := None;
      var exceeded := budget.ChargeStep();
      if exceeded {
        error := Some(BudgetExceeded);
      } else {
        if state.Some? {
          var stuck := detector.ObserveState(state.value);
          if stuck {
            error := Some(NoProgress);
          }
        }
        if error == None && tool.Some? {
          var cycle := detector.ObserveTool(tool.value);
          if cycle {
            error := Some(ToolCycle);
          }
        }
      }
      Persist(None);
    }

    method RecordUsage(usage: Usage, pricing: Pricing) returns (error: Option<Error>)
      requires Valid()
      modifies this, budget`tokenCost
      ensures Valid() && row.status == old(row.status)
      ensures (Read(this), error) == old(Charged(LimitsOf(this), Read(this), usage, pricing))
    {
      var exceeded := budget.ChargeTokens(usage, pricing);
      error := if exceeded then Some(BudgetExceeded) else None;
      Persist(None);
    }
  }

  // ----- running one tool -----

  /** What a handler does with validated arguments. */
  datatype Handled = Returns(valid: bool, output: nat) | Raises(error: Error)

  /** A tool as the harness sees it: which arguments validate, and the handler. */
  datatype Tool = Tool(accepts: Arguments -> bool, handler: Arguments -> Handled, fingerprint: Arguments -> Print)

  /** The repairer gets the original arguments and the attempt; it may fail. */
  type Repairer = (Arguments, nat) -> Option<Arguments>

  datatype Candidate = Valid(arguments: Arguments) | RepairFailed | StillInvalid

  /** The arguments that reach the handler, if any do. */
  function Repaired(tool: Tool, original: Arguments, repairer: Option<Repairer>, candidate: Arguments, attempt: nat): Candidate
    requires 1 <= attempt <= REPAIR_ATTEMPT_CAP
    decreases REPAIR_ATTEMPT_CAP - attempt
  {
    if tool.accepts(candidate) then Valid(candidate)
    else if attempt == REPAIR_ATTEMPT_CAP || repairer == None then StillInvalid
    else
      var repaired := repairer.value(original, attempt);
      if repaired == None then RepairFailed else Repaired(tool, original, repairer, repaired.value, attempt + 1)
  }

  datatype Result = Output(output: nat) | Raised(error: Error)

  /** What a handler's answer becomes. */
  function Outcome(h: Handled): Result
  {
    if h.Raises? then Raised(h.error) else if h.valid then Output(h.output) else Raised(Unrecoverable)
  }

  /** Validate and repair within the cap. */
  method RepairArguments(tool: Tool, arguments: Arguments, repairer: Option<Repairer>) returns (r: Candidate)
    ensures r == Repaired(tool, arguments, repairer, arguments, 1) && (r.Valid? ==> tool.accepts(r.arguments))
  {
    var candidate, attempt := arguments, 1;
    while attempt <= REPAIR_ATTEMPT_CAP
      invariant 1 <= attempt <= REPAIR_ATTEMPT_CAP
      invariant Repaired(tool, arguments, repairer, candidate, attempt) == Repaired(tool, arguments, repairer, arguments, 1)
    {
      if tool.accepts(candidate) {
        return Valid(candidate);
      }
      if attempt == REPAIR_ATTEMPT_CAP || repairer == None {
        break;
      }
      var repaired := repairer.value(arguments, attempt);
      if repaired == None {
        return RepairFailed;
      }
      candidate := repaired.value;
      attempt := attempt + 1;
    }
    r := StillInvalid;
  }

  /** Arguments that never became valid raise: whatever the repairer failed with, or that they stayed so. */
  function NeverRun(c: Candidate): Error
  {
    if c == RepairFailed then OtherError else Unrecoverable
  }

  /** What running a tool comes to: how it ended, what was executed, and what blocked it, if anything. */
  ghost predicate RanTool(tool: Tool, c: Candidate, blocked: Option<Error>, result: Result, executed: Option<Arguments>)
  {
    match c
    case RepairFailed => result == Raised(OtherError) && executed == None
    case StillInvalid => result == Raised(Unrecoverable) && executed == None
    case Valid(a) =>
      if blocked.Some? then result == Raised(blocked.value) && executed == None
      else executed == Some(a) && match tool.handler(a)
        case Raises(e) => result == Raised(e)
        case Returns(valid, output) => result == if valid then Output(output) else Raised(Unrecoverable)
  }

  /** Validate, repair within the cap, then execute once. Without a ledger nothing is charged. */
  method RunTool(ledger: RunLedger?, tool: Tool, arguments: Arguments, repairer: Option<Repairer>, state: Option<Print>)
    returns (result: Result, executed: Option<Arguments>, ghost blocked: Option<Error>)
    requires ledger != null ==> ledger.Valid()
    modifies if ledger != null then {ledger, ledger.budget, ledger.detector} else {}
    ensures ledger != null ==> ledger.Valid() && ledger.row.status == old(ledger.row.status)
    ensures RanTool(tool, Repaired(tool, arguments, repairer, arguments, 1), blocked, result, executed)
    ensures executed.Some? ==> tool.accepts(executed.value)
    ensures ledger == null ==> blocked == None
    ensures ledger != null ==>
      var c := Repaired(tool, arguments, repairer, arguments, 1);
      if c.Valid? then (Read(ledger), blocked) == old(Checked(LimitsOf(ledger), Read(ledger), state, Some(tool.fingerprint(c.arguments))))
      else Read(ledger) == old(Read(ledger)) && blocked == None
  {
    var c := RepairArguments(tool, arguments, repairer);
    executed, blocked := None, None;
    if !c.Valid? {
      return Raised(NeverRun(c)), None, None;
    }
    if ledger != null {
      var error := ledger.BeforeCall(state, Some(tool.fingerprint(c.arguments)));
      if error.Some? {
        return Raised(error.value), None, error;
      }
    }
    result := Outcome(tool.handler(c.arguments));
    executed := Some(c.arguments);
  }

  // ----- one model call -----

  /** The provider's answer; usage may be missing or malformed. */
  datatype Answer = Answered(usage: Option<Usage>) | Refused(error: Error)

  /** What one answer costs, if its usage can be read. */
  function AnswerCost(answer: Answer, pricing: Pricing): nat
  {
    if answer.Answered? && answer.usage.Some? then Cost(answer.usage.value, pricing) else 0
  }

  /** A model call: checked first; then the provider refuses, or its answer is charged if it says what it
      cost. */
  ghost function Called(l: Limits, m: Meter, state: Option<Print>, answer: Answer, pricing: Pricing): (Meter, Option<Error>, bool)
    requires l.window > 0
  {
    var (after, blocked) := Checked(l, m, state, None);
    if blocked.Some? then (after, blocked, false)
    else match answer
      case Refused(e) => (after, Some(e), true)
      case Answered(None) => (after, Some(UsageUnavailable), true)
      case Answered(Some(usage)) =>
        var (charged, error) := Charged(l, after, usage, pricing);
        (charged, error, true)
  }

  /** Charge a step, call, then charge the tokens the provider reports. */
  method CallModel(ledger: RunLedger, state: Option<Print>, answer: Answer, pricing: Pricing)
    returns (error: Option<Error>, called: bool)
    requires ledger.Valid()
    modifies ledger, ledger.budget, ledger.detector
    ensures ledger.Valid() && ledger.row.status == old(ledger.row.status)
    ensures (Read(ledger), error, called) == old(Called(LimitsOf(ledger), Read(ledger), state, answer, pricing))
  {
    error := ledger.BeforeCall(state, None);
    called := error == None;
    if called {
      match answer
      case Refused(e) => error := Some(e);
      case Answered(None) => error := Some(UsageUnavailable);
      case Answered(Some(usage)) => error := ledger.RecordUsage(usage, pricing);
    }
  }

  // ----- a whole run -----

  /** One step of the code inside a run. An error it raises ends the run unless that code catches it. */
  datatype Step =
    | UseTool(tool: Tool, arguments: Arguments, repairer: Option<Repairer>, state: Option<Print>, caught: bool)
    | AskModel(modelState: Option<Print>, answer: Answer, pricing: Pricing, caught: bool)
    | Raise(error: Error)

  function StatusOf(error: Option<Error>): Status
  {
    match error
    case None => Ok
    case Some(BudgetExceeded) => BudgetStop
    case Some(NoProgress) => NoProgressStop
    case Some(ToolCycle) => ToolCycleStop
    case Some(Cancelled) => Running
    case Some(_) => Failed
  }

  datatype Executed = Executed(tool: Tool, arguments: Arguments)

  lemma QuietGrows(history: seq<Print>, x: Print, w: nat, threshold: nat)
    requires Quiet(history, w, threshold) && !Fires(history + [x], w, threshold)
    ensures Quiet(history + [x], w, threshold)
  {
    var longer := history + [x];
    forall n | 0 < n <= |longer| ensures !Fires(longer[..n], w, threshold) {
      if n <= |history| {
        assert longer[..n] == history[..n];
      } else {
        assert longer[..n] == longer;
      }
    }
  }

  /** Both histories have stayed quiet. */
  ghost predicate AllQuiet(l: Limits, m: Meter)
  {
    Quiet(m.states, l.window, l.stateRepeats) && Quiet(m.tools, l.window, l.toolRepeats)
  }

  /** A checked call counts its step first, and passes only within the limit and with both histories quiet. */
  lemma CheckedFacts(l: Limits, m: Meter, state: Option<Print>, tool: Option<Print>)
    requires l.window > 0
    ensures var (after, error) := Checked(l, m, state, tool);
      && after.steps == m.steps + 1 && after.cost == m.cost
      && (error == None ==> after.steps <= l.maxSteps)
      && (error.Some? ==> error.value in {BudgetExceeded, NoProgress, ToolCycle})
      && (error == None && AllQuiet(l, m) ==> AllQuiet(l, after))
  {
    var (after, error) := Checked(l, m, state, tool);
    if error == None && AllQuiet(l, m) {
      if state.Some? {
        QuietGrows(m.states, state.value, l.window, l.stateRepeats);
      }
      if tool.Some? {
        QuietGrows(m.tools, tool.value, l.window, l.toolRepeats);
      }
    }
  }

  predicate Catches(step: Step) { !step.Raise? && step.caught }

  function StepCost(step: Step): nat
  {
    if step.AskModel? then AnswerCost(step.answer, step.pricing) else 0
  }

  /** The token limit is kept, or one answer of these steps took the cost past it and the error
      says so. */
  ghost predicate TokensKept(cost: nat, maxCost: nat, error: Option<Error>, steps: seq<Step>)
  {
    cost > maxCost ==> error == Some(BudgetExceeded) && exists s :: s in steps && cost <= maxCost + StepCost(s)
  }

  /** What steps have done: what is spent and seen, the error that ended them, what was executed, and how
      often a model was called. */
  datatype Done = Done(meter: Meter, error: Option<Error>, executed: seq<Executed>, called: nat)

  /** What one step does. */
  ghost function StepRun(l: Limits, m: Meter, step: Step): Done
    requires l.window > 0
  {
    match step
    case Raise(e) => Done(m, Some(e), [], 0)
    case AskModel(state, answer, pricing, _) =>
      var (after, error, sent) := Called(l, m, state, answer, pricing);
      Done(after, error, [], if sent then 1 else 0)
    case UseTool(tool, arguments, repairer, state, _) =>
      match Repaired(tool, arguments, repairer, arguments, 1)
      case RepairFailed => Done(m, Some(OtherError), [], 0)
      case StillInvalid => Done(m, Some(Unrecoverable), [], 0)
      case Valid(repaired) =>
        var (after, blocked) := Checked(l, m, state, Some(tool.fingerprint(repaired)));
        if blocked.Some? then Done(after, blocked, [], 0)
        else Done(after, RaisedBy(tool.handler(repaired)), [Executed(tool, repaired)], 0)
  }

  /** What a handler raises, or its invalid output does. */
  function RaisedBy(h: Handled): Option<Error>
  {
    match h
    case Raises(e) => Some(e)
    case Returns(true, _) => None
    case Returns(false, _) => Some(Unrecoverable)
  }

  /** The error that leaves a step: the code around a call may catch it, and goes on then; what that code
      raises itself is not caught. */
  ghost function Escaping(step: Step, error: Option<Error>): Option<Error>
  {
    match step
    case Raise(_) => error
    case AskModel(_, _, _, caught) => if caught then None else error
    case UseTool(_, _, _, _, caught) => if caught then None else error
  }

  /** Steps one after the other, up to the first error nobody catches. */
  ghost function StepsRun(l: Limits, m: Meter, steps: seq<Step>): Done
    requires l.window > 0
  {
    if steps == [] then Done(m, None, [], 0)
    else
      var n := |steps| - 1;
      var before := StepsRun(l, m, steps[..n]);
      if before.error.Some? then before
      else
        var d := StepRun(l, before.meter, steps[n]);
        Done(d.meter, Escaping(steps[n], d.error), before.executed + d.executed, before.called + d.called)
  }

  lemma {:induction false} StepsStop(l: Limits, m: Meter, steps: seq<Step>, n: nat)
    requires l.window > 0 && n <= |steps| && StepsRun(l, m, steps[..n]).error.Some?
    ensures StepsRun(l, m, steps) == StepsRun(l, m, steps[..n])
  {
    if n == |steps| {
      assert steps[..n] == steps;
    } else {
      assert steps[..|steps| - 1][..n] == steps[..n];
      StepsStop(l, m, steps[..|steps| - 1], n);
    }
  }

  lemma {:induction false} RepairedAccepted(tool: Tool, original: Arguments, repairer: Option<Repairer>, candidate: Arguments, attempt: nat)
    requires 1 <= attempt <= REPAIR_ATTEMPT_CAP
    ensures var c := Repaired(tool, original, repairer, candidate, attempt); c.Valid? ==> tool.accepts(c.arguments)
    decreases REPAIR_ATTEMPT_CAP - attempt
  {
    if !tool.accepts(candidate) && attempt < REPAIR_ATTEMPT_CAP && repairer.Some? && repairer.value(original, attempt).Some? {
      RepairedAccepted(tool, original, repairer, repairer.value(original, attempt).value, attempt + 1);
    }
  }

  /** At most one external call was made, with validated arguments, and counted before; the cost grew by
      what its answer costs at most, and if that passed the limit the error says so; a step that ended
      well left the histories quiet. */
  ghost predicate StepKept(l: Limits, m: Meter, step: Step, d: Done)
  {
    && |d.executed| + d.called <= 1 && (forall e | e in d.executed :: e.tool.accepts(e.arguments))
    && m.steps + |d.executed| + d.called <= d.meter.steps
    && (|d.executed| + d.called > 0 ==> d.meter.steps <= l.maxSteps)
    && m.cost <= d.meter.cost <= m.cost + StepCost(step)
    && (d.meter.cost > m.cost && d.meter.cost > l.maxCost ==> d.error == Some(BudgetExceeded))
    && (d.error == None && AllQuiet(l, m) ==> AllQuiet(l, d.meter))
  }

  lemma ToolStepKept(l: Limits, m: Meter, step: Step, c: Candidate)
    requires l.window > 0 && step.UseTool? && c == Repaired(step.tool, step.arguments, step.repairer, step.arguments, 1)
    ensures StepKept(l, m, step, StepRun(l, m, step))
  {
    RepairedAccepted(step.tool, step.arguments, step.repairer, step.arguments, 1);
    if c.Valid? {
      CheckedFacts(l, m, step.state, Some(step.tool.fingerprint(c.arguments)));
    }
  }

  lemma ModelStepKept(l: Limits, m: Meter, step: Step)
    requires l.window > 0 && step.AskModel?
    ensures StepKept(l, m, step, StepRun(l, m, step))
  {
    CheckedFacts(l, m, step.modelState, None);
    CalledCost(l, m, step.modelState, step.answer, step.pricing);
  }

  lemma CalledCost(l: Limits, m: Meter, state: Option<Print>, answer: Answer, pricing: Pricing)
    requires l.window > 0
    ensures var (after, error, sent) := Called(l, m, state, answer, pricing);
      && (sent <==> Checked(l, m, state, None).1 == None) && (!sent ==> error.Some?)
      && after == Checked(l, m, state, None).0.(cost := if sent then m.cost + AnswerCost(answer, pricing) else m.cost)
      && (after.cost > m.cost && after.cost > l.maxCost ==> error == Some(BudgetExceeded))
  {
  }

  lemma StepFacts(l: Limits, m: Meter, step: Step)
    requires l.window > 0
    ensures StepKept(l, m, step, StepRun(l, m, step))
  {
    if step.UseTool? {
      ToolStepKept(l, m, step, Repaired(step.tool, step.arguments, step.repairer, step.arguments, 1));
    } else if step.AskModel? {
      ModelStepKept(l, m, step);
    }
  }

  /** No more external calls than counted steps, nor than the limit, however many errors are caught; and if
      none is, a run that ends well stayed quiet and the token limit is passed by one answer at most. */
  ghost predicate StepsKept(l: Limits, steps: seq<Step>, d: Done)
  {
    && (forall e | e in d.executed :: e.tool.accepts(e.arguments))
    && |d.executed| + d.called <= Min(d.meter.steps, Max(0, l.maxSteps))
    && ((forall s | s in steps :: !Catches(s)) ==>
          (d.error == None ==> AllQuiet(l, d.meter)) && TokensKept(d.meter.cost, l.maxCost, d.error, steps))
  }

  lemma {:induction false} StepsFacts(l: Limits, steps: seq<Step>)
    requires l.window > 0
    ensures StepsKept(l, steps, StepsRun(l, Meter(0, 0, [], []), steps))
  {
    if steps == [] {
    } else {
      var n := |steps| - 1;
      StepsFacts(l, steps[..n]);
      var before := StepsRun(l, Meter(0, 0, [], []), steps[..n]);
      assert steps == steps[..n] + [steps[n]];
      if before.error == None {
        StepFacts(l, before.meter, steps[n]);
        NextStepKept(l, steps[..n], before, steps[n], StepRun(l, before.meter, steps[n]));
      } else {
        TokensStillKept(l, steps[..n], before, steps[n]);
      }
    }
  }

  lemma TokensStillKept(l: Limits, steps: seq<Step>, d: Done, step: Step)
    requires StepsKept(l, steps, d) && d.error.Some?
    ensures StepsKept(l, steps + [step], d)
  {
    if forall s | s in steps + [step] :: !Catches(s) {
      forall s | s in steps ensures !Catches(s) {
        assert s in steps + [step];
      }
      if d.meter.cost > l.maxCost {
        var s :| s in steps && d.meter.cost <= l.maxCost + StepCost(s);
        assert s in steps + [step];
      }
    }
  }

  lemma NextStepKept(l: Limits, steps: seq<Step>, before: Done, step: Step, d: Done)
    requires StepsKept(l, steps, before) && before.error == None && l.window > 0 && d == StepRun(l, before.meter, step)
    requires StepKept(l, before.meter, step, d)
    ensures StepsKept(l, steps + [step],
      Done(d.meter, Escaping(step, d.error), before.executed + d.executed, before.called + d.called))
  {
    assert step in steps + [step];
    if forall s | s in steps + [step] :: !Catches(s) {
      forall s | s in steps ensures !Catches(s) {
        assert s in steps + [step];
      }
    }
  }

  /** Run one step; say what error it raised, if any, and what it executed. */
  method RunStep(ledger: RunLedger, step: Step) returns (error: Option<Error>, executed: seq<Executed>, called: nat)
    requires ledger.Valid()
    modifies ledger, ledger.budget, ledger.detector
    ensures ledger.Valid() && ledger.row.status == old(ledger.row.status)
    ensures Done(Read(ledger), error, executed, called) == old(StepRun(LimitsOf(ledger), Read(ledger), step))
  {
    error, executed, called := None, [], 0;
    match step
    case Raise(e) => error := Some(e);
    case UseTool(tool, arguments, repairer, state, _) =>
      var result, handled, blocked := RunTool(ledger, tool, arguments, repairer, state);
      error := if result.Raised? then Some(result.error) else None;
      executed := if handled.Some? then [Executed(tool, handled.value)] else [];
    case AskModel(state, answer, pricing, _) =>
      var sent;
      error, sent := CallModel(ledger, state, answer, pricing);
      called := if sent then 1 else 0;
  }

  lemma StepsGrow(l: Limits, m: Meter, steps: seq<Step>, i: nat, before: Done, d: Done)
    requires l.window > 0 && i < |steps| && before == StepsRun(l, m, steps[..i]) && before.error == None
    requires d == StepRun(l, before.meter, steps[i])
    ensures StepsRun(l, m, steps[..i + 1])
      == Done(d.meter, if Catches(steps[i]) then None else d.error, before.executed + d.executed, before.called + d.called)
  {
    assert steps[..i + 1][..i] == steps[..i];
  }

  /** The code inside a run: steps until one raises an error it does not catch. */
  method RunBody(ledger: RunLedger, steps: seq<Step>)
    returns (error: Option<Error>, executed: seq<Executed>, called: nat)
    requires ledger.Valid()
    modifies ledger, ledger.budget, ledger.detector
    ensures ledger.Valid() && ledger.row.status == old(ledger.row.status)
    ensures Done(Read(ledger), error, executed, called) == old(StepsRun(LimitsOf(ledger), Read(ledger), steps))
  {
    error, executed, called := None, [], 0;
    ghost var limits, start := LimitsOf(ledger), Read(ledger);
    for i := 0 to |steps|
      invariant ledger.Valid() && ledger.row.status == old(ledger.row.status)
      invariant Done(Read(ledger), None, executed, called) == StepsRun(limits, start, steps[..i])
    {
      ghost var before := Done(Read(ledger), None, executed, called);
      var raised, done, sent := RunStep(ledger, steps[i]);
      executed, called := executed + done, called + sent;
      StepsGrow(limits, start, steps, i, before, Done(Read(ledger), raised, done, sent));
      if raised.Some? && !Catches(steps[i]) {
        StepsStop(limits, start, steps, i + 1);
        return raised, executed, called;
      }
    }
    assert steps[..|steps|] == steps;
  }

  /** The configured limits. */
  ghost function Configured(maxSteps: int, maxCost: nat): Limits
  {
    Limits(maxSteps, maxCost, NO_PROGRESS_WINDOW, LOOP_HASH_REPEAT_THRESHOLD, TOOL_ARG_CYCLE_THRESHOLD)
  }

  lemma RunFacts(maxSteps: int, maxCost: nat, steps: seq<Step>)
    ensures var run := StepsRun(Configured(maxSteps, maxCost), Meter(0, 0, [], []), steps);
      && |run.executed| + run.called <= Max(0, maxSteps)
      && (forall e | e in run.executed :: e.tool.accepts(e.arguments))
      && ((forall s | s in steps :: !Catches(s)) ==>
            (run.error == None ==> AllQuiet(Configured(maxSteps, maxCost), run.meter)) && TokensKept(run.meter.cost, maxCost, run.error, steps))
  {
    StepsFacts(Configured(maxSteps, maxCost), steps);
  }

  lemma StatusTells(error: Option<Error>)
    ensures StatusOf(error) == Ok <==> error == None
    ensures StatusOf(error) == BudgetStop <==> error == Some(BudgetExceeded)
    ensures StatusOf(error) == NoProgressStop <==> error == Some(NoProgress)
    ensures StatusOf(error) == ToolCycleStop <==> error == Some(ToolCycle)
    ensures StatusOf(error) == Running <==> error == Some(Cancelled)
  {
  }

  /** A run from start to final status. However its code behaves, and whatever errors it catches, no
      more calls leave the process than the step budget allows, every handler gets validated
      arguments, and the stored row tells what was spent and how the run ended. If its code catches
      nothing, the token limit is passed by one answer at most, and only in a run that says so. */
  method TrackedRun(maxSteps: int, maxCost: nat, steps: seq<Step>)
    returns (ledger: RunLedger, error: Option<Error>, executed: seq<Executed>, called: nat)
    ensures |executed| + called <= Max(0, maxSteps)
    ensures forall e | e in executed :: e.tool.accepts(e.arguments)
    ensures Done(Read(ledger), error, executed, called)
      == StepsRun(Configured(maxSteps, maxCost), Meter(0, 0, [], []), steps)
    ensures ledger.row.steps == ledger.budget.stepCount && ledger.row.cost == ledger.budget.tokenCost
    ensures (ledger.row.status == Ok <==> error == None) && (ledger.row.status == Running <==> error == Some(Cancelled))
    ensures ledger.row.status == BudgetStop <==> error == Some(BudgetExceeded)
    ensures ledger.row.status == NoProgressStop <==> error == Some(NoProgress)
    ensures ledger.row.status == ToolCycleStop <==> error == Some(ToolCycle)
    ensures error == None && (forall s | s in steps :: !Catches(s)) ==>
      && Quiet(ledger.detector.states, NO_PROGRESS_WINDOW, LOOP_HASH_REPEAT_THRESHOLD)
      && Quiet(ledger.detector.tools, NO_PROGRESS_WINDOW, TOOL_ARG_CYCLE_THRESHOLD)
    ensures (forall s | s in steps :: !Catches(s)) ==> TokensKept(ledger.row.cost, maxCost, error, steps)
  {
    var budget := new RunBudget(maxSteps, maxCost);
    var detector := new LoopDetector(NO_PROGRESS_WINDOW, LOOP_HASH_REPEAT_THRESHOLD, TOOL_ARG_CYCLE_THRESHOLD);
    ledger := new RunLedger(budget, detector);
    RunFacts(maxSteps, maxCost, steps);
    error, executed, called := RunBody(ledger, steps);
    StatusTells(error);
    if error != Some(Cancelled) {
      ledger.Persist(Some(StatusOf(error)));
    }
  }

  /** With the configured window and threshold, a run that ends well and catches nothing has made at
      most four observations if it only ever saw two states. */
  lemma TwoStatesMustFire(history: seq<Print>, a: Print, b: Print)
    requires Quiet(history, NO_PROGRESS_WINDOW, LOOP_HASH_REPEAT_THRESHOLD) && forall x | x in history :: x == a || x == b
    ensures |history| <= 4
  {
    FewStatesMustFire(history, {a, b}, NO_PROGRESS_WINDOW, LOOP_HASH_REPEAT_THRESHOLD);
  }
}
