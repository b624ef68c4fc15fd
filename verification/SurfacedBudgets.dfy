/**
 When a tree hands an exhaustion to its parent although a human may be asked: never
 when it is contained, and for each way of not being contained there is a run that does.
 */
module SurfacedBudgets {
  import opened Words
  import opened Budgets
  import opened TaskLists
  import opened PlanSegments
  import opened Strategies
  import opened Results
  import opened Contexts
  import opened Logs
  import opened Leaves
  import opened Nodes
  import opened BuildSteps
  import opened Executions

  /** Under SurfaceToHuman a contained tree hands no exhaustion up, on any run. */
  method ContainedAsks(cx: ExecutionContext, s: Strategy) returns (out: Outcome)
    requires cx.Ready(s) && cx.harness.mode.SurfaceToHuman? && Contained(s, cx.scratch.task.maxTurns)
    modifies cx
    ensures !out.Exhausted? && cx.scratch.terminal.Some?
  {
    hide Tells, Spills, Contained;
    ghost var segment;
    out, segment := Run(cx, s);
  }

  /** A context in which nothing happened yet. */
  method Fresh(r: Registry, h: Harness, s: Strategy, maxTurns: Option<U32>) returns (cx: ExecutionContext)
    ensures fresh(cx) && cx.registry == r && cx.harness == h && cx.Ready(s)
    ensures cx.Now() == Moment([], Scratch(TaskSpec("", maxTurns, s), [], 0, None, None, None, false), [], 0,
                               Tally(0, 0, 0), [])
  {
    cx := new ExecutionContext(r, h, None, Scratch(TaskSpec("", maxTurns, s), [], 0, None, None, None, false), [], 0);
  }

  /**
   A leaf without an allowance, under any number of verifying nodes: the exhaustion goes
   up and no result is left, whatever the chains of those nodes say; no human is asked.
   */
  method SpentTreeSurfaces(r: Registry, h: Harness, s: Strategy, maxTurns: Option<U32>)
    returns (cx: ExecutionContext, out: Outcome)
    requires Spills(r, h, s, 0) && h.mode.SurfaceToHuman?
    ensures out.Exhausted? && cx.scratch.terminal.None? && !Contained(s, maxTurns)
  {
    hide Tells, Spills, Contained;
    cx := Fresh(r, h, s, maxTurns);
    ghost var segment;
    out, segment := Run(cx, s);
  }

  /** Such trees exist with any behaviour chains. */
  lemma SpentBuildSpills(r: Registry, h: Harness, leaf: ReactConfig, verifier: string, behavior: Behavior)
    requires leaf.budget == PerLoop(0) && h.verifierLimit(verifier) > 0
    requires r.Resolves(AgentHandle, leaf.agent) && r.Resolves(VerifierHandle, verifier)
    ensures Spills(r, h, SelfVerifying(ReAct(leaf), verifier, "", "", behavior), 0)
  {
  }

  /** A climb whose first iteration is spent at once, whatever its chain says. */
  method SpentClimbSurfaces(r: Registry, h: Harness, s: Strategy) returns (cx: ExecutionContext, out: Outcome)
    requires s.HillClimbing? && Spills(r, h, s.inner, 0) && h.mode.SurfaceToHuman?
    ensures out.Exhausted? && cx.scratch.terminal.None? && !Contained(s, None)
  {
    hide Spills, Held, Open, Funded, Paid, HandsUp, Contained;
    cx := Fresh(r, h, s, None);
    ghost var pre := cx.Now();
    var task := cx.scratch.task;
    var scope := cx.PushBudget(TaskPolicy(task), s.behavior, "hill_climbing");
    Entered(cx, pre, s, scope);
    var done, admitted, carried, stagnation;
    ghost var answer;
    done, admitted, answer := ChargeTurns(cx, pre, s, scope, task, 1, 0, []);
    done, carried, stagnation := ClimbOnce(cx, pre, s, scope, task, 0, 0);
    out := done.value;
  }

  /** Any leaf, whatever its allowance: a window that ends in an error loop exhausts it. */
  method LoopingLeafSurfaces(r: Registry, h: Harness, c: ReactConfig, tool: string, consecutive: U32)
    returns (cx: ExecutionContext, out: Outcome)
    ensures out.Exhausted? && out.cause == ErrorLoop(tool, consecutive) && cx.scratch.terminal.None?
  {
    cx := Fresh(r, h, ReAct(c), None);
    var scope, executeStep := EnterLeaf(cx, c);
    out := Settle(cx, c, scope, Failure(ToolErrorLoop(tool, consecutive), 0, []), 0);
  }

  /** Any verifying or climbing node, whatever its chain: a spent child exhausts it, in every mode. */
  method SpentChildSurfaces(cx: ExecutionContext, ghost pre: Moment, s: Strategy, scope: BudgetContext, task: TaskSpec,
                            ghost carried: U32, spent: Outcome, left: Session)
    returns (out: Outcome)
    requires Inside(cx, pre, s, scope, carried) && task == pre.scratch.task && spent.Exhausted?
    requires (s.SelfVerifying? || s.HillClimbing?) && !Contained(s.inner, task.maxTurns)
    modifies cx
    ensures Quits(cx, pre, s, out) && out.Exhausted? && out.signal == old(SignalOf(scope.State()))
  {
    hide Open, Funded, Paid, HandsUp, InChain, Within;
    ghost var log0, e := cx.log, ChildEnded(spent, left);
    OtherFunds(pre, s, log0, scope.State(), cx.harness.mode, e);
    FundedIsPaid(pre, s, log0 + [e], scope.State(), cx.harness.mode);
    LastDecides(s, cx.harness.mode, log0, e);
    cx.log := log0 + [e];
    out := PropagateSpent(cx, pre, s, scope, task, carried, e, log0);
  }

  /**
   Any verifying or climbing node whose chain does not ask: as its scope is charged turn
   by turn, through every refill, there comes a charge that exhausts it. Under a cap of
   zero only a climb charges a turn.
   */
  method RefusedChargeSurfaces(cx: ExecutionContext, ghost pre: Moment, s: Strategy, scope: BudgetContext,
                               task: TaskSpec, carried: U32)
    returns (out: Outcome)
    requires Inside(cx, pre, s, scope, carried) && task == pre.scratch.task
    requires cx.harness.mode.SurfaceToHuman? && !Asks(BehaviorOf(s), task.maxTurns)
    requires s.HillClimbing? || task.maxTurns.value > 0
    modifies cx, scope
    ensures Quits(cx, pre, s, out) && out.Exhausted?
  {
    hide Inside, Quits, Refills;
    ghost var mode := cx.harness.mode;
    while true
      invariant Inside(cx, pre, s, scope, carried)
      decreases Refills(scope.State(), mode), Spare(scope.State(), 0)
    {
      InnerScope(cx, pre, s, scope, carried);
      ghost var before := scope.State();
      var done, admitted;
      ghost var answer;
      done, admitted, answer := ChargeTurns(cx, pre, s, scope, task, 1, carried, []);
      if done.Some? {
        return done.value;
      }
      if admitted {
        ProceedClimbs(before, 1, 0, mode);
      }
    }
  }

  lemma InnerScope(cx: ExecutionContext, pre: Moment, s: Strategy, scope: BudgetContext, carried: U32)
    requires Inside(cx, pre, s, scope, carried)
    ensures Terminal(scope.behavior) == Terminal(BehaviorOf(s)) && Fits(scope.State(), 0)
    ensures !cx.harness.mode.AutoContinue? ==> scope.policy == TaskPolicy(pre.scratch.task)
  {
  }

  /** A node that just pushed its scope is inside it. */
  lemma Entered(cx: ExecutionContext, pre: Moment, s: Strategy, scope: BudgetContext)
    requires (s.SelfVerifying? || s.HillClimbing?) && cx.budgets == pre.budgets + [scope] && cx.log == []
    requires pre.scratch.continueSeed.None? && pre.scratch.terminal.None?
    requires cx.Now().(budgets := pre.budgets) == pre && Storable(pre.durable)
    requires scope.State() == StartScope(pre.scratch, s)
    ensures Inside(cx, pre, s, scope, pre.scratch.turns)
  {
    hide RalphFree, Validate, PlanExecuteFree;
  }
}
