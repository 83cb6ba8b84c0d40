/**
 * The web agent of Crucible_Forge/server.py: one shared `agent_state` (goal, master plan,
 * observation history, busy flag) and the handlers that plan, execute the next step,
 * rethink one step and stop. Each handler is one atomic transition; the planner, executor
 * and re-evaluators are oracles whose answers (or raised errors) are parameters.
 */
module Server {

  import opened Wrappers

  /** What a call into the agent returns, or the text of the exception it raised. */
  datatype Outcome<T> = Ok(value: T) | Raised(error: string)

  /** The most entries the observation history keeps. */
  const HistoryLimit := 5

  /** The newest `HistoryLimit` entries of `s`, oldest first. */
  function Newest(s: seq<string>): (r: seq<string>)
    ensures |r| == if |s| <= HistoryLimit then |s| else HistoryLimit
  {
    if |s| <= HistoryLimit then s else s[|s| - HistoryLimit..]
  }

  /**
   * `history.append(entry)` followed by `if len(history) > 5: history.pop(0)`. On a history
   * within the limit this keeps exactly the newest five entries, the new one last.
   */
  function Record(history: seq<string>, entry: string): (r: seq<string>)
    ensures r != [] && r[|r| - 1] == entry
    ensures |history| <= HistoryLimit ==> |r| <= HistoryLimit && r == Newest(history + [entry])
  {
    var appended := history + [entry];
    if |appended| > HistoryLimit then appended[1..] else appended
  }

  /** Recording several entries in turn. */
  function RecordAll(history: seq<string>, entries: seq<string>): seq<string> {
    if entries == [] then history
    else Record(RecordAll(history, entries[..|entries| - 1]), entries[|entries| - 1])
  }

  /** However many entries are recorded, the history is the newest five of everything seen. */
  lemma {:induction false} RecordAllKeepsNewest(history: seq<string>, entries: seq<string>)
    requires |history| <= HistoryLimit
    ensures RecordAll(history, entries) == Newest(history + entries)
  {
    if entries != [] {
      var init := entries[..|entries| - 1];
      var last := entries[|entries| - 1];
      RecordAllKeepsNewest(history, init);
      assert history + entries == (history + init) + [last];
      NewestOfNewest(history + init, last);
    }
  }

  lemma NewestOfNewest(s: seq<string>, e: string)
    ensures Newest(Newest(s) + [e]) == Newest(s + [e])
  {
  }

  // ---------------------------------------------------------------------------
  // Rethinking one step
  // ---------------------------------------------------------------------------

  /** The bound Python's `s[:i]` and `s[i:]` use for an index `i` into a length-`n` list. */
  function PyBound(i: int, n: nat): (b: nat)
    ensures b <= n
    ensures 0 <= i <= n ==> b == i
    ensures i < 0 && i + n >= 0 ==> b == i + n
  {
    if i < 0 then (if i + n < 0 then 0 else i + n) else (if i > n then n else i)
  }

  /** The guard of `run_agent_rethink_step` as written: an empty plan or too large an index. */
  predicate RethinkRejectedAsWritten<T>(plan: seq<T>, i: int) {
    plan == [] || i >= |plan|
  }

  /** `plan[:i] + segment + plan[i+1:]` with Python's slicing. */
  function RethinkAsWritten<T>(plan: seq<T>, i: int, segment: seq<T>): (r: seq<T>)
    ensures 0 <= i < |plan| ==> r == plan[..i] + segment + plan[i + 1..]
  {
    plan[..PyBound(i, |plan|)] + segment + plan[PyBound(i + 1, |plan|)..]
  }

  /**
   * A negative index passes the guard, and the splice then duplicates the plan: with
   * `task_index = -1` a two-step plan `[a, b]` and a one-step segment `[c]` give
   * `[a, c, a, b]` instead of replacing a step.
   */
  lemma NegativeIndexDuplicatesPlan<T>(a: T, b: T, c: T)
    ensures !RethinkRejectedAsWritten([a, b], -1)
    ensures RethinkAsWritten([a, b], -1, [c]) == [a, c, a, b]
    ensures |RethinkAsWritten([a, b], -1, [c])| != |[a, b]| - 1 + |[c]|
  {
    assert PyBound(-1, 2) == 1 && PyBound(0, 2) == 0;
    assert [a, b][..1] + [c] + [a, b][0..] == [a, c, a, b];
  }

  /** The intended guard: the index must name a step of the plan. */
  predicate RethinkRejected<T>(plan: seq<T>, i: int) {
    !(0 <= i < |plan|)
  }

  /**
   * The corrected rethink: step `i` replaced by `segment`, the steps before and after it
   * kept in order.
   */
  function RethinkPlan<T>(plan: seq<T>, i: int, segment: seq<T>): (r: seq<T>)
    requires !RethinkRejected(plan, i)
    ensures |r| == |plan| - 1 + |segment|
    ensures r[..i] == plan[..i]
    ensures r[i..i + |segment|] == segment
    ensures r[i + |segment|..] == plan[i + 1..]
  {
    plan[..i] + segment + plan[i + 1..]
  }

  /** Wherever the two guards agree, the source's splice is the corrected one. */
  lemma {:induction false} RethinkAgreesOnValidIndex<T>(plan: seq<T>, i: int, segment: seq<T>)
    requires !RethinkRejected(plan, i)
    ensures !RethinkRejectedAsWritten(plan, i)
    ensures RethinkAsWritten(plan, i, segment) == RethinkPlan(plan, i, segment)
  {
  }

  /** What an HTTP endpoint answers. */
  datatype Response = Message(text: string) | Error(text: string)

  const AlreadyRunning := "Agent is already running a step."

  /** The module-level `agent_state`. */
  class AgentServer<Step> {
    var goal: Option<string>
    var plan: seq<Step>
    var history: seq<string>
    var isRunning: bool

    /** The history is never empty and never longer than the limit. */
    ghost predicate Valid()
      reads this
    {
      1 <= |history| <= HistoryLimit
    }

    constructor ()
      ensures Valid()
      ensures goal.None? && plan == [] && history == ["System is ready."] && !isRunning
    {
      goal := None;
      plan := [];
      history := ["System is ready."];
      isRunning := false;
    }

    /**
     * `run_agent_planning`: ignored while busy; otherwise reset goal, plan and history, then
     * take the planner's plan, or record the error; never left busy.
     */
    method RunPlanning(g: string, initialize: Outcome<bool>, createMasterPlan: string -> Outcome<seq<Step>>)
      requires Valid()
      modifies this
      ensures Valid()
      ensures old(isRunning) ==>
        goal == old(goal) && plan == old(plan) && history == old(history) && isRunning
      ensures !old(isRunning) ==> goal == Some(g) && !isRunning
      ensures !old(isRunning) && initialize.Raised? ==>
        plan == [] && history == ["Initializing...", "Error during planning: " + initialize.error]
      ensures !old(isRunning) && initialize.Ok? && createMasterPlan(g).Raised? ==>
        plan == [] && history == ["Initializing...", "Error during planning: " + createMasterPlan(g).error]
      ensures !old(isRunning) && initialize.Ok? && createMasterPlan(g).Ok? ==>
        plan == createMasterPlan(g).value && history == ["Initializing..."]
    {
      if isRunning {
        return;
      }
      isRunning := true;
      goal := Some(g);
      plan := [];
      history := ["Initializing..."];
      var failure: Option<string> := None;
      if initialize.Raised? {
        failure := Some(initialize.error);
      } else {
        var planned := createMasterPlan(g);
        if planned.Raised? {
          failure := Some(planned.error);
        } else {
          plan := planned.value;
          isRunning := false;
        }
      }
      if failure.Some? {
        history := Record(history, "Error during planning: " + failure.value);
        isRunning := false;
      }
    }

    /**
     * `run_agent_next_step`: ignored while busy or with nothing left to do; otherwise pop
     * the head step and hand it to the executor, record the observation, and with
     * evaluation enabled replace the rest of the plan by the re-evaluation; an error is
     * recorded instead. Never left busy.
     */
    method RunNextStep(enableEvaluation: bool, executeStep: Step -> Outcome<string>,
                       reevaluate: (Option<string>, seq<Step>, seq<string>) -> Outcome<seq<Step>>)
      requires Valid()
      modifies this
      ensures Valid() && goal == old(goal)
      ensures old(isRunning) || old(plan) == [] ==>
        plan == old(plan) && history == old(history) && isRunning == old(isRunning)
      ensures !old(isRunning) && old(plan) != [] ==> !isRunning
      ensures !old(isRunning) && old(plan) != [] && executeStep(old(plan)[0]).Raised? ==>
        plan == old(plan)[1..] && history == Record(old(history), "Error during execution: " + executeStep(old(plan)[0]).error)
      ensures !old(isRunning) && old(plan) != [] && executeStep(old(plan)[0]).Ok? ==>
        var observed := Record(old(history), executeStep(old(plan)[0]).value);
        && (!enableEvaluation ==> plan == old(plan)[1..] && history == observed)
        && (enableEvaluation && reevaluate(goal, old(plan)[1..], observed).Ok? ==>
              plan == reevaluate(goal, old(plan)[1..], observed).value && history == observed)
        && (enableEvaluation && reevaluate(goal, old(plan)[1..], observed).Raised? ==>
              plan == old(plan)[1..]
              && history == Record(observed, "Error during execution: " + reevaluate(goal, old(plan)[1..], observed).error))
    {
      if isRunning || plan == [] {
        return;
      }
      isRunning := true;
      var taskToExecute := plan[0];
      plan := plan[1..];
      var observation := executeStep(taskToExecute);
      if observation.Raised? {
        history := Record(history, "Error during execution: " + observation.error);
        isRunning := false;
        return;
      }
      history := Record(history, observation.value);
      if enableEvaluation {
        var newPlan := reevaluate(goal, plan, history);
        if newPlan.Raised? {
          history := Record(history, "Error during execution: " + newPlan.error);
          isRunning := false;
          return;
        }
        plan := newPlan.value;
      }
      isRunning := false;
    }

    /**
     * `run_agent_rethink_step`, with the index guard corrected (see `RethinkAsWritten`):
     * ignored while busy or for an index that names no step; otherwise step `taskIndex` is
     * replaced by the re-thought segment, or the error is recorded. Never left busy.
     */
    method RunRethinkStep(taskIndex: int,
                          rethink: (Option<string>, seq<Step>, int, seq<string>) -> Outcome<seq<Step>>)
      requires Valid()
      modifies this
      ensures Valid() && goal == old(goal)
      ensures old(isRunning) || RethinkRejected(old(plan), taskIndex) ==>
        plan == old(plan) && history == old(history) && isRunning == old(isRunning)
      ensures !old(isRunning) && !RethinkRejected(old(plan), taskIndex) ==>
        var answer := rethink(goal, old(plan), taskIndex, old(history));
        && !isRunning
        && (answer.Ok? ==> plan == RethinkPlan(old(plan), taskIndex, answer.value) && history == old(history))
        && (answer.Raised? ==> plan == old(plan) && history == Record(old(history), "Error during rethink: " + answer.error))
    {
      if isRunning || RethinkRejected(plan, taskIndex) {
        return;
      }
      isRunning := true;
      var newPlanSegment := rethink(goal, plan, taskIndex, history);
      if newPlanSegment.Raised? {
        history := Record(history, "Error during rethink: " + newPlanSegment.error);
      } else {
        plan := RethinkPlan(plan, taskIndex, newPlanSegment.value);
      }
      isRunning := false;
    }

    /** `stop_agent_endpoint`: not busy, no plan; goal and history kept. */
    method Stop() returns (r: Response)
      requires Valid()
      modifies this
      ensures Valid()
      ensures !isRunning && plan == [] && goal == old(goal) && history == old(history)
      ensures r == Message("Agent stopped.")
    {
      isRunning := false;
      plan := [];
      r := Message("Agent stopped.");
    }

    /** `start_agent_endpoint`: no guard of its own; the planning handler checks. */
    method StartAgent(g: string, initialize: Outcome<bool>, createMasterPlan: string -> Outcome<seq<Step>>)
      returns (r: Response)
      requires Valid()
      modifies this
      ensures Valid()
      ensures r == Message("Agent planning process initiated. See logs for progress.")
      ensures old(isRunning) ==>
        goal == old(goal) && plan == old(plan) && history == old(history) && isRunning
      ensures !old(isRunning) ==> goal == Some(g) && !isRunning
      ensures !old(isRunning) && initialize.Raised? ==>
        plan == [] && history == ["Initializing...", "Error during planning: " + initialize.error]
      ensures !old(isRunning) && initialize.Ok? && createMasterPlan(g).Raised? ==>
        plan == [] && history == ["Initializing...", "Error during planning: " + createMasterPlan(g).error]
      ensures !old(isRunning) && initialize.Ok? && createMasterPlan(g).Ok? ==>
        plan == createMasterPlan(g).value && history == ["Initializing..."]
    {
      RunPlanning(g, initialize, createMasterPlan);
      r := Message("Agent planning process initiated. See logs for progress.");
    }

    /** `execute_next_step_endpoint`: refused while busy, leaving the state as it was. */
    method ExecuteNextStep(enableEvaluation: bool, executeStep: Step -> Outcome<string>,
                           reevaluate: (Option<string>, seq<Step>, seq<string>) -> Outcome<seq<Step>>)
      returns (r: Response)
      requires Valid()
      modifies this
      ensures Valid()
      ensures old(isRunning) ==>
        r == Error(AlreadyRunning) && goal == old(goal) && plan == old(plan) && history == old(history) && isRunning
      ensures !old(isRunning) ==> r == Message("Agent execution of next step initiated.") && goal == old(goal)
      ensures !old(isRunning) && old(plan) == [] ==> plan == [] && history == old(history) && !isRunning
      ensures !old(isRunning) && old(plan) != [] ==> !isRunning
      ensures !old(isRunning) && old(plan) != [] && executeStep(old(plan)[0]).Raised? ==>
        plan == old(plan)[1..] && history == Record(old(history), "Error during execution: " + executeStep(old(plan)[0]).error)
      ensures !old(isRunning) && old(plan) != [] && executeStep(old(plan)[0]).Ok? ==>
        var observed := Record(old(history), executeStep(old(plan)[0]).value);
        && (!enableEvaluation ==> plan == old(plan)[1..] && history == observed)
        && (enableEvaluation && reevaluate(goal, old(plan)[1..], observed).Ok? ==>
              plan == reevaluate(goal, old(plan)[1..], observed).value && history == observed)
        && (enableEvaluation && reevaluate(goal, old(plan)[1..], observed).Raised? ==>
              plan == old(plan)[1..]
              && history == Record(observed, "Error during execution: " + reevaluate(goal, old(plan)[1..], observed).error))
    {
      if isRunning {
        return Error(AlreadyRunning);
      }
      RunNextStep(enableEvaluation, executeStep, reevaluate);
      r := Message("Agent execution of next step initiated.");
    }

    /** `rethink_step_endpoint`: refused while busy, leaving the state as it was. */
    method RethinkStep(taskIndex: int,
                       rethink: (Option<string>, seq<Step>, int, seq<string>) -> Outcome<seq<Step>>)
      returns (r: Response)
      requires Valid()
      modifies this
      ensures Valid()
      ensures old(isRunning) ==>
        r == Error(AlreadyRunning) && goal == old(goal) && plan == old(plan) && history == old(history) && isRunning
      ensures !old(isRunning) ==> r == Message("Agent rethink process initiated.") && goal == old(goal) && !isRunning
      ensures !old(isRunning) && RethinkRejected(old(plan), taskIndex) ==>
        plan == old(plan) && history == old(history)
      ensures !old(isRunning) && !RethinkRejected(old(plan), taskIndex) ==>
        var answer := rethink(goal, old(plan), taskIndex, old(history));
        && (answer.Ok? ==> plan == RethinkPlan(old(plan), taskIndex, answer.value) && history == old(history))
        && (answer.Raised? ==> plan == old(plan) && history == Record(old(history), "Error during rethink: " + answer.error))
    {
      if isRunning {
        return Error(AlreadyRunning);
      }
      RunRethinkStep(taskIndex, rethink);
      r := Message("Agent rethink process initiated.");
    }
  }
}
