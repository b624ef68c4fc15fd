/** The leaf of a strategy tree: one bounded ReAct window, charged to a scope of its own. */
module Leaves {
  import opened Words
  import opened Budgets
  import opened Strategies
  import opened Results
  import opened ReActWindows
  import opened Contexts
  import opened Logs

  /** The exhaustion a leaf reports for a window that ended with this result. */
  function LeafOutcome(c: ReactConfig, charged: Option<BudgetExhausted>, scope: Scope, r: RunResult): Option<Outcome> {
    var turns := if r.Terminal() then r.turns else 0;
    if r.Failure? && r.reason.ToolErrorLoop? then
      Some(Exhausted(BudgetExhausted(c.budget, c.behavior, turns, 0, "react"), true,
                     ErrorLoop(r.reason.tool, r.reason.consecutive)))
    else if charged.Some? then
      Some(Exhausted(charged.value, true, SpentBudget))
    else if CapBinds(c.budget, r) then
      Some(Exhausted(SignalOf(scope), true, SpentBudget))
    else None
  }

  /** The window stopped on its budget with the leaf's own allowance used up. */
  predicate CapBinds(budget: BudgetPolicy, r: RunResult) {
    r.Failure? && r.reason.BudgetExceeded? && budget.Allowance().Some? && r.turns >= budget.Allowance().value
  }

  /** The log of a leaf that ran: its one window. */
  ghost predicate OneWindow(log: Log) {
    |log| == 1 && log[0].WindowEnded?
  }

  /** The windows a leaf reports as an exhaustion. */
  ghost predicate Spends(c: ReactConfig, r: RunResult) {
    (r.Failure? && r.reason.ToolErrorLoop?) || Overran(c.budget, r) || CapBinds(c.budget, r)
  }

  /** A leaf is exhausted exactly when such a window ended. */
  ghost predicate LeafHandsUp(c: ReactConfig, log: Log, out: Outcome) {
    out.Exhausted? <==> OneWindow(log) && Spends(c, log[0].result)
  }

  /**
   What an exhausted leaf reports. A spent budget is reported with the allowance
   itself, or with zero steps, and under a positive cap with zero steps exactly when
   the window overran the cap. Under a PerLoop cap that takes refunded turns or an
   entry beyond the cap.
   */
  ghost predicate LeafExhausted(c: ReactConfig, t0: U32, log: Log, out: Outcome) {
    out.Exhausted? ==>
      && OneWindow(log)
      && out.signal.policy == c.budget && out.signal.behavior == c.behavior && out.signal.phase == "react"
      && (out.cause.SpentBudget? ==>
            && !c.budget.Unlimited? && (out.signal.stepsTaken == c.budget.value || out.signal.stepsTaken == 0)
            && (c.budget.value > 0 ==> (out.signal.stepsTaken == 0 <==> Overran(c.budget, log[0].result)))
            && (c.budget.PerLoop? && Overran(c.budget, log[0].result) ==>
                  log[0].refunds > 0 || t0 > c.budget.value))
  }

  /** The window ended beyond the leaf's own allowance. */
  ghost predicate Overran(budget: BudgetPolicy, r: RunResult) {
    !budget.Unlimited? && r.Terminal() && r.turns > budget.value
  }

  /** A PerLoop leaf entered at its cap is spent before its first turn. */
  ghost predicate SpentAtOnce(r: Registry, s: Strategy, t0: U32) {
    && s.ReAct? && s.leaf.budget.PerLoop? && t0 >= s.leaf.budget.value
    && r.Resolves(AgentHandle, s.leaf.agent)
  }

  /** The turns a window of this leaf may take, given how many it refunded. */
  ghost predicate WindowTurns(task: TaskSpec, cap: U32, t0: U32, refunds: nat, turns: U32) {
    && t0 <= turns <= Max(t0, cap) + refunds
    && TurnsCapped(task, t0, turns)
  }

  /** Which steps a leaf reports for its window. */
  lemma OverrunNeedsRefunds(c: ReactConfig, task: TaskSpec, t0: U32, r: RunResult, refunds: nat, before: Scope,
                            charged: Option<BudgetExhausted>, after: Scope)
    requires r.Terminal() ==>
               WindowTurns(task, TurnCap(task, c.MaxIterations()), t0, refunds, r.turns)
    requires before.policy == c.budget && before.behavior == c.behavior && before.phase == "react"
    requires before.stepsTaken == 0
    requires var turns := if r.Terminal() then r.turns else 0;
      && (charged.None? <==> Fits(before, turns))
      && (charged.None? ==> after == before.(stepsTaken := turns))
      && (charged.Some? ==> charged.value == SignalOf(before))
    ensures var out := LeafOutcome(c, charged, after, r);
      out.Some? ==>
        && LeafExhausted(c, t0, [WindowEnded(r, refunds)], out.value)
        && TurnsCapped(task, t0, out.value.signal.stepsTaken)
  {
  }

  /** The schema a final response is held to: a forced one, or the leaf's own when enforcement is on. */
  function LeafSchema(r: Registry, h: Harness, forced: Option<string>, c: ReactConfig): Option<string> {
    if forced.Some? then forced
    else if h.enforceSchemas && c.output.Some? && r.Resolves(SchemaHandle, c.output.value)
    then Some(h.schemaText(c.output.value))
    else None
  }

  /** Whatever result the leaf leaves behind was held to its schema. */
  ghost predicate LeafJudged(cx: ExecutionContext, c: ReactConfig)
    reads cx
  {
    cx.scratch.terminal.Some? ==>
      cx.harness.window.Judges(LeafSchema(cx.registry, cx.harness, cx.forcedSchema, c), cx.scratch.terminal.value)
  }

  method RunReact(cx: ExecutionContext, c: ReactConfig) returns (out: Outcome)
    requires cx.Ready(ReAct(c))
    modifies cx
    ensures Ran(old(cx.Now()), cx.Now(), ReAct(c), TermsOf(cx.registry, cx.harness, ReAct(c)), out)
    ensures LeafHandsUp(c, cx.log, out) && LeafExhausted(c, old(cx.scratch.turns), cx.log, out) && LeafJudged(cx, c)
    ensures SpentAtOnce(cx.registry, ReAct(c), old(cx.scratch.turns)) ==> out.Exhausted? && out.cause.SpentBudget?
    ensures cx.scratch.turns == old(cx.scratch.turns)
  {
    var missing := cx.ResolveWorkerAgent(cx.scratch.task.tree);
    var session := cx.TakeSession();
    if missing.Some? {
      out := cx.RecordTerminal(missing.value);
    } else {
      out := RunScoped(cx, c, session);
    }
  }

  method RunScoped(cx: ExecutionContext, c: ReactConfig, session0: Session)
    returns (out: Outcome)
    requires cx.Ready(ReAct(c))
    modifies cx
    ensures var t := Terms(true, !cx.harness.workersWrite, false, cx.harness.mode.SurfaceToHuman?);
      Ran(old(cx.Now()), cx.Now(), ReAct(c), t, out)
    ensures LeafHandsUp(c, cx.log, out) && LeafExhausted(c, old(cx.scratch.turns), cx.log, out) && LeafJudged(cx, c)
    ensures c.budget.PerLoop? && old(cx.scratch.turns) >= c.budget.value ==> out.Exhausted? && out.cause.SpentBudget?
    ensures cx.scratch.turns == old(cx.scratch.turns)
  {
    hide WindowConfig.Judges, LeafExhausted, WindowTurns, Storable, RalphFree, Terminal, ChainMax, TurnsCapped, Homed;
    hide ResultOf, Spends;
    var session, schema := session0, LeafSchema(cx.registry, cx.harness, cx.forcedSchema, c);
    if schema.Some? {
      session := session + [UserText("your final response must conform to the schema")];
    }
    var scope, executeStep := EnterLeaf(cx, c);
    var r;
    ghost var refunds;
    r, refunds := RunWindow(cx, c, session, schema, executeStep);
    assert cx.log == [WindowEnded(r, refunds)];
    out := Settle(cx, c, scope, r, refunds);
  }

  /** Pushes the scope of the leaf, and takes over whether it runs a plan's step. */
  method EnterLeaf(cx: ExecutionContext, c: ReactConfig) returns (scope: BudgetContext, executeStep: bool)
    modifies cx`budgets, cx`scratch, cx`tally
    ensures fresh(scope) && cx.budgets == old(cx.budgets) + [scope]
    ensures scope.policy == c.budget && scope.behavior == c.behavior && scope.phase == "react" && scope.stepsTaken == 0
    ensures cx.scratch == old(cx.scratch).(inExecuteStep := false, continueSeed := cx.scratch.continueSeed)
    ensures SeedsSpent(old(cx.scratch), old(cx.tally), cx.scratch, cx.tally)
    ensures cx.tally.misses == old(cx.tally.misses)
  {
    scope := cx.PushBudget(c.budget, c.behavior, "react");
    executeStep := cx.scratch.inExecuteStep;
    cx.scratch := cx.scratch.(inExecuteStep := false);
  }

  /** Runs the window of the leaf; at its cap already, it takes no turn. */
  method RunWindow(cx: ExecutionContext, c: ReactConfig, session: Session, schema: Option<string>, executeStep: bool)
    returns (r: RunResult, ghost refunds: nat)
    requires Storable(cx.durable)
    modifies cx`durable, cx`log
    ensures cx.log == old(cx.log) + [WindowEnded(r, refunds)]
    ensures Homed(cx.scratch.task, r) && ResultOf(ReAct(c), r)
    ensures TurnsCapped(cx.scratch.task, cx.scratch.turns, r.Reached())
    ensures r.Terminal() ==>
              WindowTurns(cx.scratch.task, TurnCap(cx.scratch.task, c.MaxIterations()), cx.scratch.turns, refunds,
                          r.turns)
    ensures cx.harness.window.Judges(schema, r)
    ensures cx.scratch.turns >= TurnCap(cx.scratch.task, c.MaxIterations()) ==>
              r == Failure(BudgetExceeded(LimitTurns), cx.scratch.turns, session)
    ensures Storable(cx.durable) && (!cx.harness.workersWrite ==> cx.durable == old(cx.durable))
  {
    hide WindowConfig.Judges;
    var task, t0 := cx.scratch.task, cx.scratch.turns;
    var window := new TurnWindow(cx.harness.window, task, c.MaxIterations(), session, t0, schema, executeStep);
    r := window.Run();
    refunds := window.narrationRefund;
    cx.log := cx.log + [WindowEnded(r, refunds)];
    cx.WorkerWrites();
  }

  /** Charges the window to the leaf's scope; a leaf never resolves its exhaustion, it propagates it. */
  method Settle(cx: ExecutionContext, c: ReactConfig, scope: BudgetContext, r: RunResult, ghost refunds: nat)
    returns (out: Outcome)
    requires cx.budgets != [] && cx.budgets[|cx.budgets| - 1] == scope && cx.scratch.terminal.None?
    requires scope.policy == c.budget && scope.behavior == c.behavior && scope.phase == "react" && scope.stepsTaken == 0
    requires r.Terminal() ==>
               WindowTurns(cx.scratch.task, TurnCap(cx.scratch.task, c.MaxIterations()), cx.scratch.turns, refunds,
                           r.turns)
    modifies scope, cx`scratch, cx`budgets
    ensures cx.budgets == old(cx.budgets)[..|old(cx.budgets)| - 1]
    ensures cx.scratch == old(cx.scratch).(terminal := cx.scratch.terminal, session := cx.scratch.session)
    ensures Answers(cx.scratch.terminal, out) && (cx.scratch.terminal.Some? ==> cx.scratch.terminal == Some(r))
    ensures out.Exhausted? ==> out.signal.behavior == c.behavior
    ensures out.Exhausted? ==> TurnsCapped(cx.scratch.task, cx.scratch.turns, out.signal.stepsTaken)
    ensures LeafExhausted(c, cx.scratch.turns, [WindowEnded(r, refunds)], out)
    ensures out.Exhausted? <==> Spends(c, r)
    ensures r.Failure? && r.reason.ToolErrorLoop? ==>
              out.Exhausted? && out.cause == ErrorLoop(r.reason.tool, r.reason.consecutive)
    ensures CapBinds(c.budget, r) ==> out.Exhausted? && out.cause.SpentBudget?
    ensures r.Terminal() ==> cx.scratch.session == r.session
  {
    var turns := if r.Terminal() then r.turns else 0;
    ghost var before := scope.State();
    var charged := scope.Charge(turns);
    var exhausted := LeafOutcome(c, charged, Scope(scope.policy, scope.behavior, scope.stepsTaken, scope.continuesUsed,
                                                   scope.phase, scope.autoGrantsUsed), r);
    OverrunNeedsRefunds(c, cx.scratch.task, cx.scratch.turns, r, refunds, before, charged, scope.State());
    cx.PopBudget();
    if exhausted.Some? {
      if r.Terminal() {
        cx.scratch := cx.scratch.(session := r.session);
      }
      return exhausted.value;
    }
    out := cx.RecordTerminal(r);
  }
}
