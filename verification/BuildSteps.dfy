/**
 The steps of a build-and-evaluate round around the build itself, and of a climb around
 its iteration.
 */
module BuildSteps {
  import opened Words
  import opened Budgets
  import opened Strategies
  import opened Results
  import opened ReActWindows
  import opened Contexts
  import opened Logs
  import opened Leaves
  import opened Nodes

  /** The stalled build conversation of a resumed run, or the run's own session. */
  method TakeBuildSession(cx: ExecutionContext) returns (session: Session)
    modifies cx`scratch, cx`tally
    ensures cx.scratch == old(cx.scratch).(session := [], sessionSeed := None)
    ensures var seed := old(cx.scratch).sessionSeed;
      && session == (if seed.Some? then seed.value else old(cx.scratch).session)
      && cx.tally == old(cx.tally).(seededSessions := old(cx.tally).seededSessions + Count(seed))
  {
    var seed := cx.scratch.sessionSeed;
    session := cx.TakeSession();
    if seed.Some? {
      session := seed.value;
      cx.scratch := cx.scratch.(sessionSeed := None);
      cx.tally := cx.tally.(seededSessions := cx.tally.seededSessions + 1);
    }
  }

  /** The verifier and the agent of the evaluate phase can be looked up. */
  predicate Evaluable(r: Registry, s: Strategy)
    requires s.SelfVerifying?
  {
    && r.Resolves(VerifierHandle, s.verifier)
    && r.Resolves(AgentHandle, if s.evalAgent == "" then WorkerAgentKey(s.inner) else s.evalAgent)
  }

  /** The verifier, and the agent of the evaluate phase. */
  method ResolveEvaluators(cx: ExecutionContext, s: Strategy) returns (missing: Option<RunResult>)
    requires s.SelfVerifying?
    modifies cx`tally
    ensures Strategies.Valid(cx.registry, s) ==> missing.None?
    ensures missing.None? <==> Evaluable(cx.registry, s)
    ensures missing.None? ==> cx.tally == old(cx.tally)
    ensures missing.Some? ==> cx.tally == old(cx.tally).(misses := old(cx.tally).misses + 1)
    ensures missing.Some? ==> missing.value.Failure? && missing.value.turns == 0 && ResultOf(s, missing.value)
  {
    var found := cx.Resolve(VerifierHandle, s.verifier);
    if !found {
      return Some(Failure(SelfVerifyMisconfigured, 0, []));
    }
    if s.evalAgent == "" {
      missing := cx.ResolveWorkerAgent(s.inner);
    } else {
      found := cx.Resolve(AgentHandle, s.evalAgent);
      missing := if found then None else Some(Failure(ConfigurationError(Handle(AgentHandle, s.evalAgent)), 0, []));
    }
  }

  // ---------------------------------------------------------------------------
  // Children on the log
  // ---------------------------------------------------------------------------

  /**
   A leaf spent before its first turn, under any number of verifying nodes that get to
   build: each of them passes the exhaustion on.
   */
  ghost predicate Spills(r: Registry, h: Harness, s: Strategy, t0: U32) {
    match s
    case ReAct(_) => SpentAtOnce(r, s, t0)
    case SelfVerifying(i, verifier, _, _, _) => Evaluable(r, s) && h.verifierLimit(verifier) > 0 && Spills(r, h, i, t0)
    case _ => false
  }

  /** One more child is on the log, spent or not. */
  ghost predicate RanOnce(before: Log, after: Log, spent: bool) {
    && after != [] && after[..|after| - 1] == before
    && after[|after| - 1].ChildEnded? && (after[|after| - 1].outcome.Exhausted? <==> spent)
  }

  lemma RunReads(before: Log, after: Log, spent: bool)
    requires RanOnce(before, after, spent)
    ensures Runs(after) == Runs(before) + 1 && Admitted(after) == Admitted(before)
    ensures Verdicts(after) == Verdicts(before) && Completions(after) == Completions(before)
  {
  }

  /** A result that reports the turns carried forward may end the node. */
  lemma Carried(cx: ExecutionContext, pre: Moment, s: Strategy, scope: BudgetContext, carried: U32, r: RunResult)
    requires Inside(cx, pre, s, scope, carried) && r.Reached() == carried
    ensures Inside(cx, pre, s, scope, r.Reached())
  {
  }

  /** The turns carried forward are capped. */
  lemma Reported(cx: ExecutionContext, pre: Moment, s: Strategy, scope: BudgetContext, carried: U32)
    requires Inside(cx, pre, s, scope, carried)
    ensures RalphFree(s) ==> TurnsCapped(pre.scratch.task, pre.scratch.turns, carried)
  {
  }

  /** One more charge is on the log, of these turns. */
  ghost predicate ChargedOnce(before: Log, turns: U32, after: Log) {
    after != [] && after[..|after| - 1] == before && after[|after| - 1].ChargeMade? && after[|after| - 1].turns == turns
  }

  lemma ChargeReads(before: Log, turns: U32, after: Log)
    requires ChargedOnce(before, turns, after)
    ensures Runs(after) == Runs(before) && Verdicts(after) == Verdicts(before)
  {
  }

  /**
   A paused build leaves the node uncharged; an ended one is charged by the turns it
   added, and admitted, retried under a refilled scope, or given up on.
   */
  method OnBuilt(cx: ExecutionContext, ghost pre: Moment, s: Strategy, scope: BudgetContext, task: TaskSpec,
                 r: RunResult, session0: Session, carried0: U32)
    returns (done: Option<Outcome>, built: Option<RunResult>, session: Session, carried: U32)
    requires Inside(cx, pre, s, scope, carried0) && task == pre.scratch.task && s.SelfVerifying?
    requires RalphFree(s) ==> TurnsCapped(task, pre.scratch.turns, r.Reached())
    modifies cx, scope
    ensures done.Some? ==> Quits(cx, pre, s, done.value) && !done.value.Complete?
    ensures done.None? ==> Inside(cx, pre, s, scope, carried)
    ensures built.Some? ==> done.None? && r.Terminal() && built == Some(r) && r.turns <= carried
    ensures carried == FoldTurns(carried0, r)
    ensures !r.Terminal() ==> cx.scratch.terminal == Some(Rehomed(r, task)) && cx.log == old(cx.log)
    ensures r.Terminal() ==>
              && ChargedOnce(old(cx.log), carried - carried0, cx.log)
              && (built.Some? <==> old(Fits(scope.State(), carried - carried0)))
              && (built.Some? ==>
                    scope.State() == old(Debited(scope.State(), carried - carried0)))
              && (done.None? <==> built.Some? || old(CanRefill(scope.State(), cx.harness.mode)))
              && (done.Some? ==>
                    (done.value.Exhausted?
                     <==> !(old(Terminal(scope.behavior)) == ResolveEscalate && cx.harness.mode.SurfaceToHuman?)))
    ensures Runs(cx.log) == old(Runs(cx.log)) && Verdicts(cx.log) == old(Verdicts(cx.log))
  {
    hide Storable, Terminal, ChainMax, RalphFree, PlanExecuteFree, Validate, Within, Inside, Quits, Runs, Verdicts;
    session, carried, built, done := session0, FoldTurns(carried0, r), None, None;
    if !r.Terminal() {
      FoldKeeps(cx, pre, s, scope, carried0, r);
      var out := Conclude(cx, pre, s, scope, task, r);
      done := Some(out);
      return;
    }
    session := r.session;
    FoldKeeps(cx, pre, s, scope, carried0, r);
    var admitted;
    ghost var answer;
    done, admitted, answer := ChargeTurns(cx, pre, s, scope, task, SaturatingSub(carried, carried0), carried, session);
    ChargeReads(old(cx.log), carried - carried0, cx.log);
    built := if admitted then Some(r) else None;
  }

  /** Folding a capped result in keeps the count carried forward capped. */
  lemma FoldKeeps(cx: ExecutionContext, pre: Moment, s: Strategy, scope: BudgetContext, carried: U32, r: RunResult)
    requires Inside(cx, pre, s, scope, carried)
    requires RalphFree(s) ==> TurnsCapped(pre.scratch.task, pre.scratch.turns, r.Reached())
    ensures Inside(cx, pre, s, scope, FoldTurns(carried, r)) && Inside(cx, pre, s, scope, r.Reached())
  {
    hide Open, Funded, InChain, Within, Progress;
  }

  /** A fresh run of the evaluator, capped by the task; its turns start from zero. */
  method EvaluatePhase(cx: ExecutionContext, task: TaskSpec) returns (r: RunResult)
    ensures TurnsCapped(task, 0, r.Turns())
  {
    var cap: U32 := if task.maxTurns.Some? then task.maxTurns.value else U32_MAX;
    var window := new TurnWindow(cx.harness.window, task, cap, [UserText("review the work")], 0, None, false);
    r := window.Run();
  }

  /** The evaluator's turns are charged, and the verdict is asked for only when they were admitted. */
  ghost predicate Judged(task: TaskSpec, before: Log, after: Log, verdict: Option<bool>) {
    && |after| == |before| + (if verdict.Some? then 2 else 1) && after[..|before|] == before
    && after[|before|].ChargeMade? && TurnsCapped(task, 0, after[|before|].turns)
    && (verdict.Some? <==> after[|before|].answer.Proceed?)
    && (verdict.Some? ==> after[|before| + 1] == Verdict(verdict.value))
  }

  lemma JudgedReads(task: TaskSpec, before: Log, after: Log, verdict: Option<bool>)
    requires Judged(task, before, after, verdict)
    ensures Runs(after) == Runs(before)
    ensures Verdicts(after) == Verdicts(before) + if verdict.Some? then [verdict.value] else []
  {
    var charge := after[|before|];
    AppendEvent(before, charge);
    if verdict.Some? {
      AppendEvent(before + [charge], Verdict(verdict.value));
      assert after == before + [charge] + [Verdict(verdict.value)];
    } else {
      assert after == before + [charge];
    }
  }

  /** The evaluator's turns are capped by the task, so folding them in keeps the count capped. */
  lemma Evaluated(cx: ExecutionContext, pre: Moment, s: Strategy, scope: BudgetContext, carried: U32, eval: RunResult)
    requires Inside(cx, pre, s, scope, carried) && TurnsCapped(pre.scratch.task, 0, eval.Turns())
    ensures Inside(cx, pre, s, scope, FoldTurns(carried, eval))
  {
    hide Open, Funded, InChain, Within, Progress;
  }

  lemma Lowered(cx: ExecutionContext, pre: Moment, s: Strategy, scope: BudgetContext, carried: U32, lower: U32)
    requires Inside(cx, pre, s, scope, carried) && lower <= carried
    ensures Inside(cx, pre, s, scope, lower)
  {
    hide Open, Funded, InChain, Within, Progress;
  }

  /** The verdict changes nothing but the log. */
  method AskAbout(cx: ExecutionContext, ghost pre: Moment, s: Strategy, scope: BudgetContext, ghost carried: U32)
    returns (accepted: bool)
    requires Inside(cx, pre, s, scope, carried)
    modifies cx`log
    ensures Inside(cx, pre, s, scope, carried) && cx.log == old(cx.log) + [Verdict(accepted)]
  {
    hide Open, Funded, InChain, Within, HandsUp;
    ghost var log0 := cx.log;
    accepted := cx.AskVerifier();
    OtherFunds(pre, s, log0, scope.State(), cx.harness.mode, Verdict(accepted));
    LastDecides(s, cx.harness.mode, log0, Verdict(accepted));
  }

  /** Evaluates, charges the evaluator's own turns, and asks the verifier. */
  method VerifyPhase(cx: ExecutionContext, ghost pre: Moment, s: Strategy, scope: BudgetContext, task: TaskSpec,
                     built: RunResult, session: Session, carried0: U32)
    returns (done: Option<Outcome>, reason: Option<string>, carried: U32, ghost verdict: Option<bool>)
    requires Inside(cx, pre, s, scope, carried0) && task == pre.scratch.task && s.SelfVerifying?
    requires built.Terminal() && built.turns <= carried0
    modifies cx, scope
    ensures done.Some? ==> Quits(cx, pre, s, done.value)
    ensures done.None? ==> Inside(cx, pre, s, scope, carried)
    ensures Judged(task, old(cx.log), cx.log, verdict)
    ensures done.Some? && done.value.Complete? <==> verdict == Some(true)
    ensures reason.Some? <==> verdict == Some(false)
  {
    hide Storable, Terminal, ChainMax, PlanExecuteFree, Validate, Within, Inside, Quits;
    reason, done, verdict := None, None, None;
    var eval := EvaluatePhase(cx, task);
    carried := FoldTurns(carried0, eval);
    Evaluated(cx, pre, s, scope, carried0, eval);
    var turns: U32 := if eval.Terminal() || eval.Escalated? then eval.turns else 0;
    var admitted;
    ghost var answer;
    done, admitted, answer := ChargeTurns(cx, pre, s, scope, task, turns, carried, session);
    if !admitted {
      return;
    }
    var passed := AskAbout(cx, pre, s, scope, carried);
    verdict := Some(passed);
    if passed {
      var r := if built.Success? then built else Success("", carried, session);
      Lowered(cx, pre, s, scope, carried, r.Reached());
      var out := Conclude(cx, pre, s, scope, task, r);
      return Some(out), None, carried, verdict;
    }
    reason := Some("the verifier rejected the build");
  }

  // ---------------------------------------------------------------------------
  // Climbs
  // ---------------------------------------------------------------------------

  /** What is left of the current allowance; a scope that never refuses runs on fuel. */
  ghost function Spare(scope: Scope, fuel: nat): int {
    if scope.policy.Unlimited? || scope.policy.value == U32_MAX then fuel else scope.policy.value - scope.stepsTaken
  }

  ghost predicate Climbed(before: Scope, fuel0: nat, after: Scope, fuel: nat, mode: EscalationMode) {
    || Refills(after, mode) < Refills(before, mode)
    || (Refills(after, mode) == Refills(before, mode) && 0 <= Spare(after, fuel) < Spare(before, fuel0))
  }

  /** An admitted unit charge takes one off the capacity, and something off what is spare. */
  lemma ProceedClimbs(before: Scope, fuel0: nat, fuel: nat, mode: EscalationMode)
    requires Fits(before, 1)
    requires if before.policy.Unlimited? || before.policy.value == U32_MAX then fuel < fuel0 else fuel <= fuel0
    ensures var after := before.(stepsTaken := Min(before.stepsTaken + 1, U32_MAX));
      && Climbed(before, fuel0, after, fuel, mode)
      && (Finite(before, mode) ==> Finite(after, mode) && Capacity(after, mode) == Capacity(before, mode) - 1)
  {
  }

  /** Every charge is for one turn, and no more iterations ran than charges were admitted. */
  ghost predicate UnitClimb(log: Log) {
    (forall e :: e in log && e.ChargeMade? ==> e.turns == 1) && Runs(log) <= Admitted(log)
  }

  /** A unit charge keeps the climb's account; an admitted one leaves room for an iteration. */
  lemma UnitCharged(log: Log, answer: Charged)
    requires UnitClimb(log)
    ensures UnitClimb(log + [ChargeMade(1, answer)])
    ensures answer.Proceed? ==> Runs(log + [ChargeMade(1, answer)]) < Admitted(log + [ChargeMade(1, answer)])
  {
    AppendEvent(log, ChargeMade(1, answer));
  }

  /** The iteration of an admitted charge keeps it too. */
  lemma UnitIterated(charged: Log, after: Log, spent: bool)
    requires UnitClimb(charged) && Runs(charged) < Admitted(charged)
    requires after == charged || RanOnce(charged, after, spent)
    ensures UnitClimb(after)
  {
    if after != charged {
      RunReads(charged, after, spent);
    }
  }

  /** A climb goes on only while its last improvement is recent enough. */
  ghost predicate KeepsClimbing(maxStagnation: U32, before: U32, after: U32) {
    && (after == 0 || after == WrappingAdd(before, 1))
    && (maxStagnation == U32_MAX || after < maxStagnation)
  }

  /** The halt of a climb that stopped improving. */
  ghost predicate Stagnates(maxStagnation: U32, before: U32, r: RunResult) {
    r.Failure? && r.reason.StagnationLimitReached? ==>
      && (r.reason.iterations == 0 || r.reason.iterations == WrappingAdd(before, 1))
      && maxStagnation != U32_MAX && r.reason.iterations >= maxStagnation
  }
}
