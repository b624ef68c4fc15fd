/**
 What the combinators have in common: a scope of their own between a push and a pop,
 and the ways a node is left.
 */
module Nodes {
  import opened Words
  import opened Budgets
  import opened Strategies
  import opened Results
  import opened Contexts
  import opened Logs

  /** What a node may rely on in its context. */
  ghost function Given(cx: ExecutionContext, s: Strategy): Terms {
    TermsOf(cx.registry, cx.harness, s)
  }

  // ---------------------------------------------------------------------------
  // The scope of a node
  // ---------------------------------------------------------------------------

  /** The phase under which a combinator pushes its scope. */
  function Phase(s: Strategy): string {
    match s
    case PlanExecute(_, _, _) => "plan_execute"
    case SelfVerifying(_, _, _, _, _) => "self_verifying"
    case HillClimbing(_, _, _, _) => "hill_climbing"
    case _ => "react"
  }

  /** The scope a combinator starts with. */
  ghost function StartScope(scratch: Scratch, s: Strategy): Scope {
    var seed := scratch.continueSeed;
    Scope(TaskPolicy(scratch.task), BehaviorOf(s), 0,
          if seed.Some? && seed.value.phase == Phase(s) then seed.value.continuesUsed else 0, Phase(s), 0)
  }

  /** The turns a node's scope admitted are within what the scope could admit at its start. */
  ghost predicate Paid(pre: Moment, s: Strategy, log: Log, mode: EscalationMode) {
    var start := StartScope(pre.scratch, s);
    Finite(start, mode) ==> Admitted(log) <= Capacity(start, mode)
  }

  /** What was admitted and what the scope can still admit are together within that capacity. */
  ghost predicate Funded(pre: Moment, s: Strategy, log: Log, scope: Scope, mode: EscalationMode) {
    var start := StartScope(pre.scratch, s);
    Finite(start, mode) ==> Finite(scope, mode) && Admitted(log) + Capacity(scope, mode) <= Capacity(start, mode)
  }

  lemma FundedIsPaid(pre: Moment, s: Strategy, log: Log, scope: Scope, mode: EscalationMode)
    requires Funded(pre, s, log, scope, mode)
    ensures Paid(pre, s, log, mode)
  {
  }

  /** A charge spends what it admits; a refused one admits nothing. */
  lemma ChargeFunds(pre: Moment, s: Strategy, log: Log, before: Scope, turns: U32, mode: EscalationMode, after: Scope,
                    answer: Charged)
    requires Funded(pre, s, log, before, mode) && ChargedTo(before, turns, mode, after, answer)
    ensures Paid(pre, s, log + [ChargeMade(turns, answer)], mode)
    ensures !answer.Surface? ==> Funded(pre, s, log + [ChargeMade(turns, answer)], after, mode)
  {
    AppendEvent(log, ChargeMade(turns, answer));
  }

  /** An event that is no charge leaves the account as it is. */
  lemma OtherFunds(pre: Moment, s: Strategy, log: Log, scope: Scope, mode: EscalationMode, e: Event)
    requires Funded(pre, s, log, scope, mode) && !e.ChargeMade?
    ensures Funded(pre, s, log + [e], scope, mode)
  {
    AppendEvent(log, e);
  }

  /** Refilling a spent scope never adds to what it can admit. */
  lemma RefillFunds(pre: Moment, s: Strategy, log: Log, before: Scope, mode: EscalationMode, after: Scope,
                    refilled: bool, res: Resolution)
    requires Funded(pre, s, log, before, mode) && RefilledTo(before, mode, after, refilled, res)
    ensures Paid(pre, s, log + [ScopeResolved(refilled, res)], mode)
    ensures Funded(pre, s, log + [ScopeResolved(refilled, res)], after, mode)
  {
    AppendEvent(log, ScopeResolved(refilled, res));
  }

  /** A node between its push and its pop: its own scope is innermost, everything else is as it found it. */
  ghost predicate Held(cx: ExecutionContext, pre: Moment, s: Strategy, scope: BudgetContext, carried: U32)
    reads cx, scope
  {
    && (s.SelfVerifying? || s.HillClimbing?)
    && cx.budgets == pre.budgets + [scope]
    && cx.scratch.terminal.None?
    && Progress(pre, cx.Now(), Given(cx, s))
    && InChain(BehaviorOf(s), scope.State()) && Within(scope.State(), pre.scratch.task, cx.harness.mode)
    && (RalphFree(s) ==> TurnsCapped(pre.scratch.task, pre.scratch.turns, carried))
  }

  /** The node while nothing has ended it: its scope still has what it did not admit. */
  ghost predicate Inside(cx: ExecutionContext, pre: Moment, s: Strategy, scope: BudgetContext, carried: U32)
    reads cx, scope
  {
    && Held(cx, pre, s, scope, carried)
    && Open(s, cx.log) && Funded(pre, s, cx.log, scope.State(), cx.harness.mode)
  }

  /** A combinator that was left, over a budget or not. */
  ghost predicate Quits(cx: ExecutionContext, pre: Moment, s: Strategy, out: Outcome)
    reads cx
  {
    && Ran(pre, cx.Now(), s, Given(cx, s), out)
    && Paid(pre, s, cx.log, cx.harness.mode)
    && (out.Exhausted? <==> HandsUp(s, cx.harness.mode, cx.log))
  }

  /** The turn count carried forward: the larger of the two; a human pause reports none. */
  function FoldTurns(carried: U32, r: RunResult): U32 {
    if r.WaitingForHuman? || r.Turns() <= carried then carried else r.Turns()
  }

  // ---------------------------------------------------------------------------
  // Leaving a node
  // ---------------------------------------------------------------------------

  /** Pops the scope and finishes with the node's own result, or a child's pause. */
  method Conclude(cx: ExecutionContext, ghost pre: Moment, s: Strategy, scope: BudgetContext, task: TaskSpec,
                  r: RunResult)
    returns (out: Outcome)
    requires Inside(cx, pre, s, scope, r.Reached()) && task == pre.scratch.task && ResultOf(s, r)
    modifies cx`budgets, cx`scratch
    ensures Quits(cx, pre, s, out)
    ensures out == OutcomeOf(r) && cx.scratch.terminal == Some(Rehomed(r, task))
  {
    hide Paid, Funded, HandsUp, Open;
    FundedIsPaid(pre, s, cx.log, scope.State(), cx.harness.mode);
    OpenHandsNothing(s, cx.harness.mode, cx.log);
    cx.PopBudget();
    RehomedIsHomed(r, task);
    out := cx.Finish(task, r);
  }

  /** The scope refused a charge for good: ask a human, or hand the exhaustion to the parent. */
  method GiveUpScope(cx: ExecutionContext, ghost pre: Moment, s: Strategy, scope: BudgetContext, task: TaskSpec,
                     signal: BudgetExhausted, res: Resolution, carried: U32, worker: Session,
                     ghost turns: U32, ghost log0: Log)
    returns (out: Outcome)
    requires Held(cx, pre, s, scope, carried) && task == pre.scratch.task
    requires Open(s, log0) && cx.log == log0 + [ChargeMade(turns, Surface(signal, res))]
    requires Paid(pre, s, cx.log, cx.harness.mode)
    requires FromChain(BehaviorOf(s), signal) && res == Terminal(BehaviorOf(s))
    requires !cx.harness.mode.AutoContinue? ==>
               && TurnsCapped(task, pre.scratch.turns, signal.stepsTaken)
               && task.maxTurns.Some? && task.maxTurns.value < U32_MAX
    modifies cx`budgets, cx`scratch
    ensures Quits(cx, pre, s, out) && !out.Complete?
  {
    hide Paid, HandsUp, Open;
    LastDecides(s, cx.harness.mode, log0, ChargeMade(turns, Surface(signal, res)));
    cx.PopBudget();
    out := cx.GiveUp(task, signal, res, carried, worker);
  }

  /** Charges turns to a node's scope: admitted, refilled for another round, or given up. */
  method ChargeTurns(cx: ExecutionContext, ghost pre: Moment, s: Strategy, scope: BudgetContext, task: TaskSpec,
                     turns: U32, carried: U32, worker: Session)
    returns (done: Option<Outcome>, admitted: bool, ghost answer: Charged)
    requires Inside(cx, pre, s, scope, carried) && task == pre.scratch.task
    modifies cx`budgets, cx`scratch, cx`log, scope
    ensures done.Some? ==> Quits(cx, pre, s, done.value) && !done.value.Complete? && answer.Surface?
    ensures done.None? ==> Inside(cx, pre, s, scope, carried) && !answer.Surface?
    ensures cx.log == old(cx.log) + [ChargeMade(turns, answer)]
    ensures ChargedTo(old(scope.State()), turns, cx.harness.mode, scope.State(), answer)
    ensures (admitted <==> answer.Proceed?)
    ensures done.None? <==> old(Fits(scope.State(), turns) || CanRefill(scope.State(), cx.harness.mode))
    ensures done.Some? ==>
              (done.value.Exhausted?
               <==> !(old(Terminal(scope.behavior)) == ResolveEscalate && cx.harness.mode.SurfaceToHuman?))
  {
    hide Storable, Terminal, ChainMax, Finite, Capacity, RalphFree, PlanExecuteFree, Validate, Refills, Funded, Paid;
    hide HandsUp, Open, Contained;
    ghost var before, log0 := scope.State(), cx.log;
    var charged := cx.Charge(scope, turns);
    answer := charged;
    ChargeFunds(pre, s, log0, before, turns, cx.harness.mode, scope.State(), answer);
    LastDecides(s, cx.harness.mode, log0, ChargeMade(turns, answer));
    done, admitted := None, charged.Proceed?;
    if charged.Surface? {
      var out := GiveUpScope(cx, pre, s, scope, task, charged.signal, charged.res, carried, worker, turns, log0);
      done := Some(out);
    }
  }

  /** A child ran out of budget: the node reports its own scope, which the child never touched. */
  method PropagateSpent(cx: ExecutionContext, ghost pre: Moment, s: Strategy, scope: BudgetContext, task: TaskSpec,
                        ghost carried: U32, ghost e: Event, ghost log0: Log)
    returns (out: Outcome)
    requires Held(cx, pre, s, scope, carried) && task == pre.scratch.task
    requires Open(s, log0) && cx.log == log0 + [e] && e.ChildEnded? && e.outcome.Exhausted?
    requires Paid(pre, s, cx.log, cx.harness.mode)
    requires cx.harness.mode.SurfaceToHuman? ==> !Contained(s, task.maxTurns)
    modifies cx`budgets, cx`scratch
    ensures Quits(cx, pre, s, out)
    ensures out.Exhausted? && out.signal == old(SignalOf(scope.State())) && out.hasPartial
  {
    hide Paid, HandsUp, Open, Contained;
    LastDecides(s, cx.harness.mode, log0, e);
    var signal := BudgetExhausted(scope.policy, scope.behavior, scope.stepsTaken, scope.continuesUsed, scope.phase);
    cx.PopBudget();
    cx.scratch := cx.scratch.(task := task, terminal := None);
    out := Exhausted(signal, true, SpentBudget);
  }
}
