/**
 * The command-line loop of Crucible_Forge/main.py: plan, ask the operator, execute,
 * evaluate, at most five times. The agent's `create_plan`, `execute_plan` and
 * `evaluate_results` are oracles given as functions; the operator's lines are a sequence
 * whose first entry is the goal.
 */
module ForgeCli {

  import opened Wrappers
  import opened Text

  /** The safety bound on planning cycles. */
  const MaxCycles := 5

  /** What `execute_plan` returns: whether the plan succeeded, and its observations. */
  datatype Execution<O> = Execution(succeeded: bool, observations: O)

  /** One planning cycle: the observations the planner was given, its plan, and the execution if the operator confirmed. */
  datatype Cycle<P, O> = Cycle(given: Option<O>, plan: P, executed: Option<Execution<O>>)

  datatype ForgeOutcome =
    | InitFailed(reason: string)   // `initialize_agent` raised; returns before reading the goal
    | InputClosed                  // `input()` raised at end of input
    | PlanRejected                 // a confirmation other than y/Y
    | GoalAchieved
    | CycleLimit

  /** The confirmation test: `confirmation.lower() != 'y'` rejects. */
  predicate Confirms(answer: string) {
    Lower(answer) == "y"
  }

  /** A cycle after which the loop goes round again: its plan was executed and did not achieve the goal. */
  predicate Continues<P, O>(goal: string, c: Cycle<P, O>, evaluate: (string, O) -> bool) {
    c.executed.Some? && !(c.executed.value.succeeded && evaluate(goal, c.executed.value.observations))
  }

  /** Cycle `k` of `trace` is what the oracles and the operator's answer `k + 1` make it. */
  ghost predicate CycleFollows<P, O>(inputs: seq<string>, trace: seq<Cycle<P, O>>, k: int,
                               createPlan: (string, Option<O>) -> P, executePlan: P -> Execution<O>)
    requires 0 <= k < |trace| && |inputs| >= 1
  {
    && trace[k].plan == createPlan(inputs[0], trace[k].given)
    && (k == 0 ==> trace[k].given.None?)
    && (k > 0 ==> trace[k - 1].executed.Some? && trace[k].given == Some(trace[k - 1].executed.value.observations))
    && (trace[k].executed.Some? <==> k + 1 < |inputs| && Confirms(inputs[k + 1]))
    && (trace[k].executed.Some? ==> trace[k].executed.value == executePlan(trace[k].plan))
  }

  /**
   * `main`: returns before reading the goal if initialisation fails; otherwise runs at most
   * `MaxCycles` cycles, the first planned without observations and each later one with the
   * observations of the execution before it. A rejected plan is never executed, a failed
   * plan is never evaluated, and an achieved goal ends the loop.
   */
  method RunForge<P, O>(initError: Option<string>, inputs: seq<string>,
                        createPlan: (string, Option<O>) -> P,
                        executePlan: P -> Execution<O>,
                        evaluate: (string, O) -> bool)
    returns (outcome: ForgeOutcome, trace: seq<Cycle<P, O>>)
    ensures initError.Some? ==> outcome == InitFailed(initError.value) && trace == []
    ensures outcome.InitFailed? <==> initError.Some?
    ensures outcome == InputClosed ==> |inputs| == |trace|
    ensures initError.None? && inputs == [] ==> outcome == InputClosed && trace == []
    ensures |trace| <= MaxCycles
    ensures trace != [] ==> |inputs| >= 1 && forall k :: 0 <= k < |trace| ==> CycleFollows(inputs, trace, k, createPlan, executePlan)
    ensures forall k :: 0 <= k < |trace| - 1 ==> Continues(inputs[0], trace[k], evaluate)
    ensures outcome == InputClosed && trace != [] ==> |inputs| == |trace| && trace[|trace| - 1].executed.None?
    ensures outcome == PlanRejected ==>
      trace != [] && |inputs| > |trace| && !Confirms(inputs[|trace|]) && trace[|trace| - 1].executed.None?
    ensures outcome == GoalAchieved ==>
      && trace != [] && trace[|trace| - 1].executed.Some?
      && trace[|trace| - 1].executed.value.succeeded
      && evaluate(inputs[0], trace[|trace| - 1].executed.value.observations)
    ensures outcome == CycleLimit ==> |trace| == MaxCycles && Continues(inputs[0], trace[MaxCycles - 1], evaluate)
  {
    trace := [];
    if initError.Some? {
      return InitFailed(initError.value), trace;
    }
    if |inputs| == 0 {
      return InputClosed, trace;
    }
    var goal := inputs[0];
    var cycleCount := 0;
    var observations: Option<O> := None;
    while cycleCount < MaxCycles
      invariant 0 <= cycleCount <= MaxCycles && |trace| == cycleCount < |inputs|
      invariant forall k :: 0 <= k < |trace| ==> CycleFollows(inputs, trace, k, createPlan, executePlan)
      invariant forall k :: 0 <= k < |trace| ==> Continues(goal, trace[k], evaluate)
      invariant observations == (if trace == [] then None else Some(trace[|trace| - 1].executed.value.observations))
    {
      cycleCount := cycleCount + 1;
      var plan := createPlan(goal, observations);
      if cycleCount >= |inputs| {
        ExtendTrace(inputs, trace, Cycle(observations, plan, None), createPlan, executePlan);
        trace := trace + [Cycle(observations, plan, None)];
        return InputClosed, trace;
      }
      var confirmation := inputs[cycleCount];
      if Lower(confirmation) != "y" {
        ExtendTrace(inputs, trace, Cycle(observations, plan, None), createPlan, executePlan);
        trace := trace + [Cycle(observations, plan, None)];
        return PlanRejected, trace;
      }
      var execution := executePlan(plan);
      var cycle := Cycle(observations, plan, Some(execution));
      ExtendTrace(inputs, trace, cycle, createPlan, executePlan);
      trace := trace + [cycle];
      observations := Some(execution.observations);
      if !execution.succeeded {
        continue;
      }
      var isGoalAchieved := evaluate(goal, execution.observations);
      if isGoalAchieved {
        return GoalAchieved, trace;
      }
    }
    outcome := CycleLimit;
  }

  /** Appending a cycle that follows from the trace before it keeps every earlier cycle following. */
  lemma ExtendTrace<P, O>(inputs: seq<string>, before: seq<Cycle<P, O>>, c: Cycle<P, O>,
                          createPlan: (string, Option<O>) -> P, executePlan: P -> Execution<O>)
    requires |inputs| >= 1
    requires forall k :: 0 <= k < |before| ==> CycleFollows(inputs, before, k, createPlan, executePlan)
    requires CycleFollows(inputs, before + [c], |before|, createPlan, executePlan)
    ensures forall k :: 0 <= k < |before| + 1 ==> CycleFollows(inputs, before + [c], k, createPlan, executePlan)
  {
    var trace := before + [c];
    forall k | 0 <= k < |before| ensures CycleFollows(inputs, trace, k, createPlan, executePlan) {
      assert CycleFollows(inputs, before, k, createPlan, executePlan);
      assert trace[k] == before[k];
      if k > 0 { assert trace[k - 1] == before[k - 1]; }
    }
  }
}
