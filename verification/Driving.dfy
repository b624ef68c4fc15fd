/**
 The top-level loop that drives a task to its result: it resolves the exhaustion
 of a bare leaf, re-drives the tree under a raised budget, and resumes the runs
 that asked a human for budget.
 */
module Driving {
  import opened Words
  import opened Budgets
  import opened TaskLists
  import opened PlanSegments
  import opened Strategies
  import opened Results
  import opened ReActWindows
  import opened Contexts
  import opened Logs
  import opened Leaves
  import opened Nodes
  import opened PlanReports
  import opened Executions

  // ---------------------------------------------------------------------------
  // Raised tasks
  // ---------------------------------------------------------------------------

  /** The caps of `qs` are those of `ps`, some of them raised. */
  ghost predicate CapsRaised(ps: seq<BudgetPolicy>, qs: seq<BudgetPolicy>) {
    && |qs| == |ps|
    && forall k :: 0 <= k < |ps| ==>
         && (qs[k].Unlimited? <==> ps[k].Unlimited?) && (qs[k].PerLoop? <==> ps[k].PerLoop?)
         && (!ps[k].Unlimited? ==> ps[k].value <= qs[k].value)
  }

  /** The task after some grants: the same tree of handles and behaviours, under caps that were never lowered. */
  ghost predicate RaisedFrom(r: Registry, t: TaskSpec, u: TaskSpec) {
    && u.instruction == t.instruction
    && Handles(u.tree) == Handles(t.tree) && Validate(r, u.tree) == Validate(r, t.tree)
    && BehaviorOf(u.tree) == BehaviorOf(t.tree)
    && CapsRaised(LeafPolicies(t.tree), LeafPolicies(u.tree))
    && (t.tree.PlanExecute? ==>
          u.tree.PlanExecute? && PlanExecuteFree(u.tree.execute) == PlanExecuteFree(t.tree.execute))
    && (t.maxTurns.Some? ==> u.maxTurns.Some? && t.maxTurns.value <= u.maxTurns.value)
  }

  lemma GrantRaises(r: Registry, t: TaskSpec, u: TaskSpec, granted: U32)
    requires RaisedFrom(r, t, u)
    ensures RaisedFrom(r, t, GrantTask(u, granted))
    ensures GrantTask(u, granted).maxTurns.Some? && GrantTask(u, granted).maxTurns.value >= granted
    ensures GrantTask(u, granted).tree.ReAct? <==> u.tree.ReAct?
  {
    GrantRaisesLeaves(r, u.tree, granted);
  }

  // ---------------------------------------------------------------------------
  // Rounds
  // ---------------------------------------------------------------------------

  /** The chain state threaded from one round to the next, after an in-process continue. */
  datatype Threaded = Threaded(behavior: Behavior, continuesUsed: U32)

  /** Continues the next resolution can still find. */
  ghost function ChainLeft(m: U32, threaded: Option<Threaded>): nat {
    if threaded.Some? then ContinuesLeft(threaded.value.behavior, threaded.value.continuesUsed) else m
  }

  /** Twice the cap, k times over, up to the largest word. */
  ghost function Doubled(n: U32, k: nat): U32 {
    if k == 0 then n else Min(2 * Doubled(n, k - 1), U32_MAX)
  }

  /** Doubling k times is multiplying by two to the k, saturating. */
  lemma {:induction false} DoubledIsPower(n: U32, k: nat)
    ensures Doubled(n, k) == Min(n * Power(k), U32_MAX)
  {
    if k > 0 {
      DoubledIsPower(n, k - 1);
      PowerStep(n, k);
      if n * Power(k - 1) > U32_MAX {
        assert n * Power(k) == 2 * (n * Power(k - 1));
      }
    }
  }

  ghost function Power(k: nat): nat {
    if k == 0 then 1 else 2 * Power(k - 1)
  }

  lemma PowerStep(n: nat, k: nat)
    requires k > 0
    ensures n * Power(k) == 2 * (n * Power(k - 1))
  {
  }

  /**
   The grant of a continue raises a cap exactly when the leaf reported steps: a
   leaf whose refused charge reports none is driven again under the same cap.
   */
  lemma ContinueRaisesCap(cap: U32, steps: U32)
    requires cap > 0
    ensures Granted(PerLoop(cap), SaturatingAdd(steps, cap)).value > cap <==> steps > 0 && cap < U32_MAX
    ensures Granted(PerLoop(cap), SaturatingAdd(cap, cap)) == PerLoop(Min(2 * cap, U32_MAX))
  {
  }

  /** One round of the loop: what the tree answered, and what happened to its root until then. */
  datatype RoundLog = RoundLog(out: Outcome, log: Log)

  /** The round spent its allowance in a window that gave no turn back. */
  ghost predicate UsedUp(e: RoundLog) {
    && e.out.Exhausted? && e.out.cause.SpentBudget?
    && forall w :: w in e.log && w.WindowEnded? ==> w.refunds == 0
  }

  /**
   How a run went: the rounds that were driven again, in-process continues and automatic
   grants among them, and the logs of all rounds.
   */
  datatype Rounds = Rounds(driven: nat, continues: nat, grants: nat, misses: nat, logs: seq<RoundLog>)

  /** The cap of a bare PerLoop leaf after k continues, each after a window that used its cap up. */
  ghost predicate LeafCap(t: TaskSpec, u: TaskSpec, turns0: U32, n: Rounds) {
    && t.tree.ReAct? && t.tree.leaf.budget.PerLoop? && turns0 <= t.tree.leaf.budget.value
    && n.grants == 0 && (forall k :: 0 <= k < n.driven && k < |n.logs| ==> UsedUp(n.logs[k])) ==>
         u.tree == ReAct(t.tree.leaf.(budget := PerLoop(Doubled(t.tree.leaf.budget.value, n.continues))))
  }

  /** Automatic grants the loop may take. */
  ghost function GrantLimit(h: Harness): nat {
    if h.mode.AutoContinue? then h.mode.maxGrants else 0
  }

  /** What the loop keeps between two rounds. */
  ghost predicate Driven(r: Registry, h: Harness, t: TaskSpec, turns0: U32, u: TaskSpec,
                         threaded: Option<Threaded>, n: Rounds) {
    var m, g := ChainMax(BehaviorOf(t.tree)), GrantLimit(h);
    && RaisedFrom(r, t, u)
    && n.driven == n.continues + n.grants && n.grants <= g
    && (n.driven == 0 ==> u == t) && (n.driven > 0 ==> u.maxTurns.Some?)
    && ChainLeft(m, threaded) <= m
    && n.driven + (g - n.grants) * (m + 1) + ChainLeft(m, threaded) + 1 <= (g + 1) * (m + 1)
    && (Strategies.Valid(r, t.tree) ==> n.misses == 0)
    && |n.logs| == n.driven && (forall k :: 0 <= k < |n.logs| ==> n.logs[k].out.Exhausted?)
    && (h.mode.SurfaceToHuman? && Contained(t.tree, t.maxTurns) ==> n.driven == 0)
    && LeafCap(t, u, turns0, n)
  }

  lemma ProductNonNegative(x: nat, y: nat)
    ensures x * y >= 0
  {
  }

  /** The bound on rounds: one per continue of the chain, over again after every automatic grant. */
  lemma RoundBound(r: Registry, h: Harness, t: TaskSpec, turns0: U32, u: TaskSpec, threaded: Option<Threaded>,
                   n: Rounds)
    requires Driven(r, h, t, turns0, u, threaded, n)
    ensures n.driven + 1 <= (GrantLimit(h) + 1) * (ChainMax(BehaviorOf(t.tree)) + 1)
  {
    hide RaisedFrom, LeafCap, ChainMax, Validate;
    ProductNonNegative(GrantLimit(h) - n.grants, ChainMax(BehaviorOf(t.tree)) + 1);
  }

  /** What a grant makes of a bare leaf's cap. */
  lemma LeafCapContinues(t: TaskSpec, u: TaskSpec, turns0: U32, n: Rounds, e: RoundLog, steps: U32, granted: U32)
    requires LeafCap(t, u, turns0, n) && |n.logs| == n.driven
    requires UsedUp(e) && u.tree.ReAct? && u.tree.leaf.budget.PerLoop? && turns0 <= u.tree.leaf.budget.value ==>
               steps == u.tree.leaf.budget.value && granted == SaturatingAdd(steps, u.tree.leaf.budget.value)
    ensures LeafCap(t, GrantTask(u, granted), turns0,
                    Rounds(n.driven + 1, n.continues + 1, n.grants, n.misses, n.logs + [e]))
  {
    var next := Rounds(n.driven + 1, n.continues + 1, n.grants, n.misses, n.logs + [e]);
    if t.tree.ReAct? && t.tree.leaf.budget.PerLoop? && turns0 <= t.tree.leaf.budget.value && n.grants == 0
       && forall k :: 0 <= k < next.driven && k < |next.logs| ==> UsedUp(next.logs[k])
    {
      assert next.logs[n.driven] == e;
      forall k | 0 <= k < n.driven
        ensures UsedUp(n.logs[k])
      {
        assert next.logs[k] == n.logs[k];
      }
      DoubledGrows(t.tree.leaf.budget.value, n.continues);
    }
  }

  lemma {:induction false} DoubledGrows(n: U32, k: nat)
    ensures n <= Doubled(n, k)
  {
    if k > 0 {
      DoubledGrows(n, k - 1);
    }
  }

  /** An in-process continue spends one continue of the chain. */
  lemma ContinueKeeps(r: Registry, h: Harness, t: TaskSpec, turns0: U32, u: TaskSpec, threaded: Option<Threaded>,
                      n: Rounds, e: RoundLog, steps: U32, granted: U32, next: Threaded)
    requires Driven(r, h, t, turns0, u, threaded, n) && e.out.Exhausted?
    requires !(h.mode.SurfaceToHuman? && Contained(u.tree, u.maxTurns))
    requires ContinuesLeft(next.behavior, next.continuesUsed) < ChainLeft(ChainMax(BehaviorOf(t.tree)), threaded)
    requires UsedUp(e) && u.tree.ReAct? && u.tree.leaf.budget.PerLoop? && turns0 <= u.tree.leaf.budget.value ==>
               steps == u.tree.leaf.budget.value && granted == SaturatingAdd(steps, u.tree.leaf.budget.value)
    ensures Driven(r, h, t, turns0, GrantTask(u, granted), Some(next),
                   Rounds(n.driven + 1, n.continues + 1, n.grants, n.misses, n.logs + [e]))
  {
    hide RaisedFrom, LeafCap, Validate, UsedUp, Contained;
    GrantRaises(r, t, u, granted);
    LeafCapContinues(t, u, turns0, n, e, steps, granted);
  }

  /** An automatic grant drops the threaded state, so the whole chain is available again. */
  lemma GrantKeeps(r: Registry, h: Harness, t: TaskSpec, turns0: U32, u: TaskSpec, threaded: Option<Threaded>,
                   n: Rounds, e: RoundLog, granted: U32)
    requires Driven(r, h, t, turns0, u, threaded, n) && h.mode.AutoContinue? && n.grants < h.mode.maxGrants
    requires e.out.Exhausted?
    ensures Driven(r, h, t, turns0, GrantTask(u, granted), None,
                   Rounds(n.driven + 1, n.continues, n.grants + 1, n.misses, n.logs + [e]))
  {
    hide RaisedFrom, ChainMax, Validate, Contained, UsedUp;
    GrantRaises(r, t, u, granted);
    var m, left := ChainMax(BehaviorOf(t.tree)), h.mode.maxGrants - n.grants;
    assert left * (m + 1) == (left - 1) * (m + 1) + (m + 1);
  }

  // ---------------------------------------------------------------------------
  // The loop
  // ---------------------------------------------------------------------------

  /** What the resolution of an exhausted round asks for. */
  datatype Ruling = Redrive(granted: U32, threaded: Option<Threaded>) | Stop(result: RunResult)

  /** The reason an exhaustion is reported with when it ends the run. */
  function ReasonOf(cause: Cause): HaltReason {
    match cause
    case SpentBudget => BudgetExceeded(LimitTurns)
    case ErrorLoop(tool, consecutive) => ToolErrorLoop(tool, consecutive)
  }

  /** The allowance an in-process continue adds; an uncapped scope counts as one step. */
  function ContinueAllowance(policy: BudgetPolicy): U32 {
    if policy.Unlimited? then 1 else policy.value
  }

  /** The exhaustion of one round, resolved. */
  ghost predicate Resolves(h: Harness, u: TaskSpec, threaded: Option<Threaded>, grants: nat, out: Outcome, turns0: U32,
                          v: Ruling)
    requires out.Exhausted?
  {
    var behavior := if threaded.Some? then threaded.value.behavior else out.signal.behavior;
    var used := if threaded.Some? then threaded.value.continuesUsed else out.signal.continuesUsed;
    if ContinuesLeft(behavior, used) > 0 then
      && v.Redrive? && v.granted == SaturatingAdd(out.signal.stepsTaken, ContinueAllowance(out.signal.policy))
      && v.threaded.Some? && v.threaded.value.continuesUsed == used + 1
      && ContinuesLeft(v.threaded.value.behavior, v.threaded.value.continuesUsed) == ContinuesLeft(behavior, used) - 1
    else if Terminal(behavior) == ResolveEscalate && h.mode.AutoContinue? && grants < h.mode.maxGrants then
      v == Redrive(SaturatingAdd(out.signal.stepsTaken, h.mode.stepsPerGrant), None)
    else
      && v.Stop?
      && (if Terminal(behavior) == ResolveEscalate && h.mode.SurfaceToHuman?
          then v.result.WaitingForHuman? && v.result.state.task == u && v.result.state.turnsUsed == turns0
               && v.result.request.BudgetRequest? && v.result.request.exhausted.stepsTaken == out.signal.stepsTaken
               && v.result.request.exhausted.continuesUsed == used
          else v.result.Failure? && v.result.reason == ReasonOf(out.cause)
               && (Terminal(behavior) == ResolveFail ==> v.result.session == []))
  }

  /** Resolves the exhaustion that reached the top. */
  method ResolveRound(h: Harness, u: TaskSpec, threaded: Option<Threaded>, grants: nat, out: Outcome,
                      turns0: U32, session: Session)
    returns (v: Ruling)
    requires out.Exhausted?
    ensures Resolves(h, u, threaded, grants, out, turns0, v)
    ensures v.Stop? ==> Homed(u, v.result)
  {
    var ex := out.signal;
    var turns := if ex.stepsTaken > 0 then ex.stepsTaken else turns0;
    var behavior := if threaded.Some? then threaded.value.behavior else ex.behavior;
    var used := if threaded.Some? then threaded.value.continuesUsed else ex.continuesUsed;
    var scope := new BudgetContext(ex.policy, behavior, ex.phase, used);
    ResolutionFollowsChain(scope.State());
    var res := scope.ResolveExhausted();
    match res
    case GrantContinue =>
      v := Redrive(SaturatingAdd(ex.stepsTaken, ContinueAllowance(ex.policy)),
                   Some(Threaded(scope.behavior, scope.continuesUsed)));
    case ResolveEscalate =>
      if h.mode.AutoContinue? && grants < h.mode.maxGrants {
        v := Redrive(SaturatingAdd(ex.stepsTaken, h.mode.stepsPerGrant), None);
      } else if h.mode.SurfaceToHuman? {
        var signal := BudgetExhausted(ex.policy, scope.behavior, ex.stepsTaken, scope.continuesUsed, ex.phase);
        v := Stop(AskForBudget(signal, out.hasPartial, u, turns0, turns, session));
      } else {
        var partial := if out.hasPartial then [AssistantText("partial output")] else [];
        v := Stop(Failure(ReasonOf(out.cause), turns, partial));
      }
    case ResolveFail =>
      v := Stop(Failure(ReasonOf(out.cause), turns, []));
  }

  /** One round: the whole tree over a fresh context. Only the first round carries seeds. */
  method DriveRound(r: Registry, h: Harness, u: TaskSpec, start: Scratch, durable: seq<Item>, fuel: nat)
    returns (cx: ExecutionContext, out: Outcome, ghost segment: Option<Segment>)
    requires start.task == u && start.terminal.None? && Storable(durable)
    ensures fresh(cx) && Answers(cx.scratch.terminal, out) && Storable(cx.durable) && cx.budgets == []
    ensures cx.scratch.terminal.Some? ==>
              Homed(u, cx.scratch.terminal.value) && ResultOf(u.tree, cx.scratch.terminal.value)
    ensures out.Exhausted? ==> FromChain(BehaviorOf(u.tree), out.signal)
    ensures Strategies.Valid(r, u.tree) ==> cx.tally.misses == 0
    ensures cx.tally.seededScopes <= Count(start.continueSeed) && cx.tally.seededSessions <= Count(start.sessionSeed)
    ensures u.tree.ReAct? ==>
              LeafExhausted(u.tree.leaf, start.turns, cx.log, out) && cx.scratch.turns == start.turns
    ensures u.tree.PlanExecute? ==>
              Segmented(h, u.tree, Moment([], start, durable, fuel, Tally(0, 0, 0), []), cx.Now(), segment)
    ensures h.mode.SurfaceToHuman? && Contained(u.tree, u.maxTurns) ==> !out.Exhausted?
  {
    hide RalphFree, PlanExecuteFree, Validate, Storable, Segmented, LeafExhausted, LeafJudged, HandsUp, Contained;
    hide Paid, RoundsHold, WindowsHold;
    cx := new ExecutionContext(r, h, None, start, durable, fuel);
    out, segment := Run(cx, u.tree);
  }

  /**
   What a finished drive promises: the task it ended with, and how it got there. Every
   round but the last was exhausted. A contained tree that may ask a human is driven
   once, and no exhaustion reaches the loop.
   */
  ghost predicate DroveTo(r: Registry, h: Harness, t: TaskSpec, turns0: U32, u: TaskSpec, n: Rounds,
                          result: RunResult) {
    && RaisedFrom(r, t, u) && Homed(u, result)
    && n.driven == n.continues + n.grants && n.grants <= GrantLimit(h)
    && n.driven + 1 <= (GrantLimit(h) + 1) * (ChainMax(BehaviorOf(t.tree)) + 1)
    && (n.driven == 0 ==> u == t) && (n.driven > 0 ==> u.maxTurns.Some?)
    && (Strategies.Valid(r, t.tree) ==> n.misses == 0)
    && |n.logs| == n.driven + 1 && (forall k :: 0 <= k < n.driven ==> n.logs[k].out.Exhausted?)
    && (h.mode.SurfaceToHuman? && Contained(t.tree, t.maxTurns) ==> n.driven == 0 && !n.logs[0].out.Exhausted?)
    && LeafCap(t, u, turns0, n)
  }

  /** A scope of this chain can be refilled, if nothing of it is spent. */
  ghost predicate Refillable(b: Behavior, mode: EscalationMode) {
    ChainMax(b) > 0 || (Terminal(b) == ResolveEscalate && mode.AutoContinue? && mode.maxGrants > 0)
  }

  /**
   The walks of a driven plan, round by round: a chain over the durable list, the
   first with the seed the drive started with. They settle when no reset is refused.
   */
  ghost predicate Walks(h: Harness, tree: Strategy, seed: Option<Session>, durable0: seq<Item>,
                        gs: seq<Segment>, durable: seq<Item>) {
    tree.PlanExecute? && Quiet(h, tree.execute) ==>
      && Chained(gs)
      && (gs == [] && durable0 != [] ==> durable == durable0)
      && (gs != [] ==> durable == gs[|gs| - 1].after && durable != [])
      && (gs != [] && durable0 != [] ==> gs[0].before == durable0 && gs[0].seed == seed)
      && (h.resetTakes || !Refillable(BehaviorOf(tree), h.mode) ==> forall k :: 0 <= k < |gs| ==> Settles(gs[k]))
  }

  /** Before a round, either nothing was walked yet, or the last walk left nothing being executed. */
  ghost predicate Poised(h: Harness, tree: Strategy, seed: Option<Session>, durable0: seq<Item>, gs: seq<Segment>,
                         start: Scratch, durable: seq<Item>) {
    tree.PlanExecute? && Quiet(h, tree.execute) ==>
      if gs == [] then durable == durable0 && start.sessionSeed == seed else gs[|gs| - 1].active.None?
  }

  /** A drive whose last walk was left in a task ends in a pause that carries what the task left behind. */
  ghost predicate PausesOn(h: Harness, tree: Strategy, gs: seq<Segment>, result: RunResult) {
    tree.PlanExecute? && Quiet(h, tree.execute) && gs != [] && gs[|gs| - 1].active.Some? ==>
      CarriesOn(result, gs[|gs| - 1].left)
  }

  lemma UnrefilledStart(scratch: Scratch, s: Strategy, mode: EscalationMode)
    requires !Refillable(BehaviorOf(s), mode)
    ensures StartRefills(scratch, s, mode) == 0
  {
  }

  /** One more round is one more link, or it ended before walking. */
  lemma RoundWalks(h: Harness, t: Strategy, u: Strategy, seed: Option<Session>, durable0: seq<Item>,
                   gs: seq<Segment>, pre: Moment, post: Moment, segment: Option<Segment>)
    requires Walks(h, t, seed, durable0, gs, pre.durable) && BehaviorOf(u) == BehaviorOf(t)
    requires t.PlanExecute? ==> u.PlanExecute? && PlanExecuteFree(u.execute) == PlanExecuteFree(t.execute)
    requires u.PlanExecute? ==> Segmented(h, u, pre, post, segment)
    requires Poised(h, t, seed, durable0, gs, pre.scratch, pre.durable)
    ensures Walks(h, t, seed, durable0, Extended(gs, segment), post.durable)
    ensures match post.scratch.terminal
            case None =>
              && (forall start :: Poised(h, t, seed, durable0, Extended(gs, segment), start, post.durable))
              && (forall result :: PausesOn(h, t, Extended(gs, segment), result))
            case Some(result) => PausesOn(h, t, Extended(gs, segment), result)
  {
    hide Settles, StartRefills, Refillable, PlanExecuteFree, UniqueIds, Fed, Stalled, IsCompleted, CarriesOn;
    if t.PlanExecute? && Quiet(h, t.execute) {
      if segment.Some? {
        ChainsAppend(gs, [segment.value]);
      }
      if !Refillable(BehaviorOf(t), h.mode) {
        UnrefilledStart(pre.scratch, u, h.mode);
      }
    }
  }

  ghost function Extended(gs: seq<Segment>, segment: Option<Segment>): seq<Segment> {
    gs + if segment.Some? then [segment.value] else []
  }

  lemma MissesCounted(r: Registry, h: Harness, t: TaskSpec, turns0: U32, u: TaskSpec, threaded: Option<Threaded>,
                      n: Rounds, misses: nat)
    requires Driven(r, h, t, turns0, u, threaded, n) && (Strategies.Valid(r, t.tree) ==> misses == n.misses)
    ensures Driven(r, h, t, turns0, u, threaded, n.(misses := misses))
  {
  }

  lemma DriveEnds(r: Registry, h: Harness, t: TaskSpec, turns0: U32, u: TaskSpec, threaded: Option<Threaded>,
                  n: Rounds, last: RoundLog, result: RunResult)
    requires Driven(r, h, t, turns0, u, threaded, n) && Homed(u, result)
    requires h.mode.SurfaceToHuman? && Contained(u.tree, u.maxTurns) ==> !last.out.Exhausted?
    ensures DroveTo(r, h, t, turns0, u, n.(logs := n.logs + [last]), result)
  {
    hide RaisedFrom, ChainMax, Validate, Homed, Contained, UsedUp, Doubled;
    RoundBound(r, h, t, turns0, u, threaded, n);
    var all := n.logs + [last];
    assert forall k :: 0 <= k < n.driven ==> all[k] == n.logs[k];
  }

  /** Drives a task to its result. */
  method Drive(r: Registry, h: Harness, t: TaskSpec, start0: Scratch, durable0: seq<Item>, fuel0: nat)
    returns (result: RunResult, durable: seq<Item>, ghost u: TaskSpec, ghost n: Rounds, ghost gs: seq<Segment>)
    requires start0.task == t && start0.terminal.None? && Storable(durable0)
    ensures DroveTo(r, h, t, start0.turns, u, n, result)
    ensures Storable(durable)
    ensures Walks(h, t.tree, start0.sessionSeed, durable0, gs, durable) && PausesOn(h, t.tree, gs, result)
  {
    hide RaisedFrom, LeafExhausted, Resolves, ResultOf, BehaviorOf, ChainMax, Walks, Poised, Segmented, PausesOn;
    hide ContinuesLeft, Validate, Storable, GrantStrategy, Doubled, PlanExecuteFree, LeafCap, Homed, DroveTo, Contained;
    var start, threaded, fuel, grants := start0, None, fuel0, 0;
    durable, u, n, gs := durable0, t, Rounds(0, 0, 0, 0, []), [];
    InitiallyDriven(r, h, t, start0.turns);
    NothingWalked(h, t.tree, start0, durable0);
    while true
      invariant Driven(r, h, t, start0.turns, start.task, threaded, n) && Storable(durable)
      invariant start.terminal.None? && grants == n.grants
      invariant start.task.tree.ReAct? ==> start.turns == start0.turns
      invariant Walks(h, t.tree, start0.sessionSeed, durable0, gs, durable)
      invariant Poised(h, t.tree, start0.sessionSeed, durable0, gs, start, durable)
      decreases GrantLimit(h) - n.grants, ChainLeft(ChainMax(BehaviorOf(t.tree)), threaded)
    {
      u := start.task;
      RaisedKeepsBehavior(r, t, u);
      var cx, out;
      ghost var segment, pre := None, Moment([], start, durable, fuel, Tally(0, 0, 0), []);
      cx, out, segment := DriveRound(r, h, start.task, start, durable, fuel);
      RoundWalks(h, t.tree, u.tree, start0.sessionSeed, durable0, gs, pre, cx.Now(), segment);
      durable, fuel, gs := cx.durable, cx.fuel, Extended(gs, segment);
      MissesCounted(r, h, t, start0.turns, u, threaded, n, n.misses + cx.tally.misses);
      n := n.(misses := n.misses + cx.tally.misses);
      ghost var round := RoundLog(out, cx.log);
      if cx.scratch.terminal.Some? {
        result := cx.scratch.terminal.value;
        DriveEnds(r, h, t, start0.turns, u, threaded, n, round, result);
        n := n.(logs := n.logs + [round]);
        return;
      }
      var v := ResolveRound(h, start.task, threaded, grants, out, cx.scratch.turns, cx.scratch.session);
      match v
      case Stop(stopped) =>
        result := stopped;
        DriveEnds(r, h, t, start0.turns, u, threaded, n, round, result);
        n := n.(logs := n.logs + [round]);
        return;
      case Redrive(granted, next) =>
        RoundKeeps(r, h, t, start0.turns, u, threaded, n, round, cx.scratch.turns, granted, next);
        n := NextRounds(n, next, round);
        grants := if next.Some? then grants else grants + 1;
        start := Scratch(GrantTask(start.task, granted), cx.scratch.session, cx.scratch.turns, None, None, None, false);
        threaded := next;
    }
  }

  lemma NothingWalked(h: Harness, tree: Strategy, start: Scratch, durable0: seq<Item>)
    ensures Walks(h, tree, start.sessionSeed, durable0, [], durable0)
    ensures Poised(h, tree, start.sessionSeed, durable0, [], start, durable0)
  {
  }

  /** The count after one more round. */
  ghost function NextRounds(n: Rounds, next: Option<Threaded>, e: RoundLog): Rounds {
    if next.Some? then Rounds(n.driven + 1, n.continues + 1, n.grants, n.misses, n.logs + [e])
    else Rounds(n.driven + 1, n.continues, n.grants + 1, n.misses, n.logs + [e])
  }

  lemma InitiallyDriven(r: Registry, h: Harness, t: TaskSpec, turns0: U32)
    ensures Driven(r, h, t, turns0, t, None, Rounds(0, 0, 0, 0, []))
  {
    var m: int, g: int := ChainMax(BehaviorOf(t.tree)), GrantLimit(h);
    assert g * (m + 1) + (m + 1) == (g + 1) * (m + 1);
  }

  /** A redriven round keeps the invariant of the loop, and spends a continue or a grant. */
  lemma RoundKeeps(r: Registry, h: Harness, t: TaskSpec, turns0: U32, u: TaskSpec, threaded: Option<Threaded>,
                   n: Rounds, e: RoundLog, at: U32, granted: U32, next: Option<Threaded>)
    requires Driven(r, h, t, turns0, u, threaded, n)
    requires e.out.Exhausted? && ChainMax(e.out.signal.behavior) <= ChainMax(BehaviorOf(u.tree))
    requires !(h.mode.SurfaceToHuman? && Contained(u.tree, u.maxTurns))
    requires Resolves(h, u, threaded, n.grants, e.out, at, Redrive(granted, next))
    requires u.tree.ReAct? ==> LeafExhausted(u.tree.leaf, turns0, e.log, e.out)
    ensures Driven(r, h, t, turns0, GrantTask(u, granted), next, NextRounds(n, next, e))
    ensures GrantTask(u, granted).tree.ReAct? ==> u.tree.ReAct?
    ensures next.None? ==> n.grants < GrantLimit(h)
    ensures next.Some? ==>
              ChainLeft(ChainMax(BehaviorOf(t.tree)), next) < ChainLeft(ChainMax(BehaviorOf(t.tree)), threaded)
  {
    hide RaisedFrom, LeafCap, Validate, FromChain, Resolves, UsedUp, Contained, LeafExhausted;
    RaisedKeepsBehavior(r, t, u);
    VerdictSpends(h, ChainMax(BehaviorOf(t.tree)), u, threaded, n.grants, e.out, at, granted, next);
    if next.Some? {
      ExactGrant(h, u, threaded, n.grants, turns0, e, at, granted, next);
      ContinueKeeps(r, h, t, turns0, u, threaded, n, e, e.out.signal.stepsTaken, granted, next.value);
    } else {
      GrantKeeps(r, h, t, turns0, u, threaded, n, e, granted);
    }
  }

  /** Redriving spends a continue of the chain, or an automatic grant. */
  lemma VerdictSpends(h: Harness, m: U32, u: TaskSpec, threaded: Option<Threaded>, grants: nat, out: Outcome,
                      at: U32, granted: U32, next: Option<Threaded>)
    requires out.Exhausted? && ChainMax(out.signal.behavior) <= m
    requires Resolves(h, u, threaded, grants, out, at, Redrive(granted, next))
    ensures next.None? ==> h.mode.AutoContinue? && grants < h.mode.maxGrants
    ensures next.Some? ==> ContinuesLeft(next.value.behavior, next.value.continuesUsed) < ChainLeft(m, threaded)
  {
  }

  /** A leaf that used its cap up is granted that cap once more. */
  lemma ExactGrant(h: Harness, u: TaskSpec, threaded: Option<Threaded>, grants: nat, turns0: U32, e: RoundLog,
                   at: U32, granted: U32, next: Option<Threaded>)
    requires e.out.Exhausted? && next.Some?
    requires Resolves(h, u, threaded, grants, e.out, at, Redrive(granted, next))
    requires u.tree.ReAct? ==> LeafExhausted(u.tree.leaf, turns0, e.log, e.out)
    ensures UsedUp(e) && u.tree.ReAct? && u.tree.leaf.budget.PerLoop? && turns0 <= u.tree.leaf.budget.value ==>
              && e.out.signal.stepsTaken == u.tree.leaf.budget.value
              && granted == SaturatingAdd(e.out.signal.stepsTaken, u.tree.leaf.budget.value)
  {
  }

  lemma RaisedKeepsBehavior(r: Registry, t: TaskSpec, u: TaskSpec)
    requires RaisedFrom(r, t, u)
    ensures BehaviorOf(u.tree) == BehaviorOf(t.tree) && (Strategies.Valid(r, t.tree) <==> Strategies.Valid(r, u.tree))
    ensures t.tree.PlanExecute? ==>
              u.tree.PlanExecute? && PlanExecuteFree(u.tree.execute) == PlanExecuteFree(t.tree.execute)
  {
  }

  // ---------------------------------------------------------------------------
  // Resuming a budget pause
  // ---------------------------------------------------------------------------

  datatype Answer = ContinueWithBudget(steps: U32) | Skip | GiveUp

  /** The runs of a plan so far, up to the durable list a resume finds. */
  ghost predicate Extends(past: seq<Segment>, durable0: seq<Item>) {
    Chained(past) && past != [] && past[|past| - 1].after == durable0 && durable0 != []
  }

  /** The walks of a resumed plan continue the chain of the runs before it. */
  lemma ResumeExtends(h: Harness, tree: Strategy, seed: Option<Session>, durable0: seq<Item>, past: seq<Segment>,
                      gs: seq<Segment>, durable: seq<Item>)
    requires tree.PlanExecute? && Quiet(h, tree.execute) && Walks(h, tree, seed, durable0, gs, durable)
    requires Extends(past, durable0) && (seed.Some? || past[|past| - 1].active.None?)
    ensures Extends(past + gs, durable) && (gs != [] ==> gs[0].seed == seed)
  {
    hide SegmentKeeps, Settles, Refillable, PlanExecuteFree;
    ChainsAppend(past, gs);
  }

  /** A resume of a plan whose children do not write its list. */
  ghost predicate Continues(h: Harness, tree: Strategy, seed: Option<Session>, durable0: seq<Item>, past: seq<Segment>,
                            gs: seq<Segment>, durable: seq<Item>, result: RunResult) {
    tree.PlanExecute? && Quiet(h, tree.execute) && Extends(past, durable0)
    && (seed.Some? || past[|past| - 1].active.None?) ==>
      && Extends(past + gs, durable) && (gs != [] ==> gs[0].seed == seed) && PausesOn(h, tree, gs, result)
      && (h.resetTakes || !Refillable(BehaviorOf(tree), h.mode) ==> forall k :: 0 <= k < |gs| ==> Settles(gs[k]))
  }

  lemma DriveContinues(h: Harness, tree: Strategy, seed: Option<Session>, durable0: seq<Item>, past: seq<Segment>,
                       gs: seq<Segment>, durable: seq<Item>, result: RunResult)
    requires Walks(h, tree, seed, durable0, gs, durable) && PausesOn(h, tree, gs, result)
    ensures Continues(h, tree, seed, durable0, past, gs, durable, result)
  {
    hide PausesOn, SegmentKeeps, Settles, Refillable, PlanExecuteFree, Chained;
    if tree.PlanExecute? && Quiet(h, tree.execute) && Extends(past, durable0)
       && (seed.Some? || past[|past| - 1].active.None?) {
      ResumeExtends(h, tree, seed, durable0, past, gs, durable);
    }
  }

  /**
   Resumes a run that paused for budget. A grant raises every cap to what was
   taken plus what was granted, restores the continue counter of the scope that
   asked, and hands the stalled conversation back: to the leaf itself, or as the
   seed of a composed tree, whose walks extend the chain of the runs before. A skip
   goes on with the remaining tasks of a plan.
   */
  method ResumeBudget(r: Registry, h: Harness, state: PausedState, asked: BudgetExhausted, answer: Answer,
                      durable0: seq<Item>, fuel: nat, ghost past: seq<Segment>)
    returns (result: RunResult, durable: seq<Item>, ghost t: TaskSpec, ghost u: TaskSpec, ghost n: Rounds,
             ghost gs: seq<Segment>)
    requires Storable(durable0)
    ensures Storable(durable)
    ensures !r.Resolves(AgentHandle, WorkerAgentKey(state.task.tree)) ==>
              && result == Failure(ConfigurationError(Handle(AgentHandle, WorkerAgentKey(state.task.tree))), 0, [])
              && durable == durable0
    ensures r.Resolves(AgentHandle, WorkerAgentKey(state.task.tree)) ==>
              match answer
              case ContinueWithBudget(steps) =>
                && t == GrantTask(state.task, Min(asked.stepsTaken + steps, U32_MAX))
                && DroveTo(r, h, t, state.turnsUsed, u, n, result)
                && Continues(h, t.tree, Some(state.session), durable0, past, gs, durable, result)
              case Skip =>
                if state.task.tree.PlanExecute? then
                  && t == state.task && DroveTo(r, h, t, state.turnsUsed, u, n, result)
                  && Continues(h, t.tree, None, durable0, past, gs, durable, result)
                else result == Success("", state.turnNumber, state.session) && durable == durable0
              case GiveUp =>
                result == Failure(BudgetExceeded(LimitTurns), state.turnNumber, []) && durable == durable0
  {
    hide DroveTo, Storable, Continues, Walks, PausesOn;
    t, u, n, durable, gs := state.task, state.task, Rounds(0, 0, 0, 0, []), durable0, [];
    var missing := FindWorkerAgent(r, state.task);
    if missing.Some? {
      result := missing.value;
      return;
    }
    match answer
    case ContinueWithBudget(steps) =>
      var task := GrantTask(state.task, SaturatingAdd(asked.stepsTaken, steps));
      t := task;
      var start := ResumedScratch(task, state, asked);
      result, durable, u, n, gs := Drive(r, h, task, start, durable0, fuel);
      if !task.tree.ReAct? {
        DriveContinues(h, task.tree, Some(state.session), durable0, past, gs, durable, result);
      } else {
        assert Continues(h, task.tree, Some(state.session), durable0, past, gs, durable, result) by {
          LeafContinues(h, task.tree, Some(state.session), durable0, past, gs, durable, result);
        }
      }
    case Skip =>
      if state.task.tree.PlanExecute? {
        var start := Scratch(state.task, state.session, state.turnsUsed, None, None, None, false);
        result, durable, u, n, gs := Drive(r, h, state.task, start, durable0, fuel);
        DriveContinues(h, state.task.tree, None, durable0, past, gs, durable, result);
      } else {
        result := Success("", state.turnNumber, state.session);
      }
    case GiveUp =>
      result := Failure(BudgetExceeded(LimitTurns), state.turnNumber, []);
  }

  /**
   A plan that paused in a task and is resumed on that pause, its conversation answered
   or not: the resumed run executes that task first, on a conversation that goes on from
   the one the task left behind.
   */
  lemma ResumedOnLeft(h: Harness, tree: Strategy, tree2: Strategy, pause: RunResult, worker: Session,
                      durable0: seq<Item>, past: seq<Segment>, gs: seq<Segment>, durable: seq<Item>, result: RunResult)
    requires tree.PlanExecute? && Quiet(h, tree.execute) && tree2.PlanExecute? && Quiet(h, tree2.execute)
    requires Extends(past, durable0) && Begins(past[0]) && (forall k :: 0 <= k < |past| ==> Settles(past[k]))
    requires past[|past| - 1].active.Some? && PausesOn(h, tree, past, pause) && pause.state.session <= worker
    requires Continues(h, tree2, Some(worker), durable0, past, gs, durable, result) && gs != []
    requires h.resetTakes || !Refillable(BehaviorOf(tree2), h.mode)
    ensures gs[0].ran != [] && Some(gs[0].ran[0]) == past[|past| - 1].active
    ensures gs[0].talks != [] && gs[0].talks[0] == worker && past[|past| - 1].left <= worker
  {
    hide SegmentKeeps, Settles, Refillable, PlanExecuteFree, Begins;
    var all := past + gs;
    assert forall k :: 0 <= k < |past| ==> all[k] == past[k];
    assert all[|past|] == gs[0];
    ResumeChain(all, |past|);
  }

  lemma LeafContinues(h: Harness, tree: Strategy, seed: Option<Session>, durable0: seq<Item>, past: seq<Segment>,
                      gs: seq<Segment>, durable: seq<Item>, result: RunResult)
    requires !tree.PlanExecute?
    ensures Continues(h, tree, seed, durable0, past, gs, durable, result)
  {
  }

  /** What a granted run starts from: the counter of the scope that asked, and the stalled conversation. */
  function ResumedScratch(task: TaskSpec, state: PausedState, asked: BudgetExhausted): Scratch {
    var seed := Some(ContinueSeed(asked.phase, asked.continuesUsed));
    if task.tree.ReAct? then Scratch(task, state.session, state.turnsUsed, None, seed, None, false)
    else Scratch(task, [], state.turnsUsed, None, seed, Some(state.session), false)
  }

  /** A resume by a human looks the worker's agent up before anything else. */
  method FindWorkerAgent(r: Registry, task: TaskSpec) returns (missing: Option<RunResult>)
    ensures missing.None? <==> r.Resolves(AgentHandle, WorkerAgentKey(task.tree))
    ensures missing.Some? ==>
              missing.value == Failure(ConfigurationError(Handle(AgentHandle, WorkerAgentKey(task.tree))), 0, [])
    ensures Strategies.Valid(r, task.tree) ==> missing.None?
  {
    var key := WorkerAgentKey(task.tree);
    if Strategies.Valid(r, task.tree) {
      ValidResolvesWorker(r, task.tree);
    }
    missing := if r.Resolves(AgentHandle, key) then None
               else Some(Failure(ConfigurationError(Handle(AgentHandle, key)), 0, []));
  }

  /**
   Resumes a run whose pending calls have been answered into `worker`, by a human or
   by a helper. A composed task is driven again as a whole, the worker's conversation
   being its seed; a bare leaf continues in one window, which no scope is charged for.
   */
  method ResumeWorker(r: Registry, h: Harness, state: PausedState, worker: Session, byHuman: bool,
                      durable0: seq<Item>, fuel: nat, ghost past: seq<Segment>)
    returns (result: RunResult, durable: seq<Item>, ghost u: TaskSpec, ghost n: Rounds, ghost gs: seq<Segment>)
    requires Storable(durable0)
    ensures Storable(durable)
    ensures (byHuman || state.task.tree.ReAct?) && !r.Resolves(AgentHandle, WorkerAgentKey(state.task.tree)) ==>
              && result == Failure(ConfigurationError(Handle(AgentHandle, WorkerAgentKey(state.task.tree))), 0, [])
              && durable == durable0
    ensures !state.task.tree.ReAct? && (byHuman ==> r.Resolves(AgentHandle, WorkerAgentKey(state.task.tree))) ==>
              && DroveTo(r, h, state.task, state.turnsUsed, u, n, result)
              && Continues(h, state.task.tree, Some(worker), durable0, past, gs, durable, result)
    ensures state.task.tree.ReAct? ==>
              Homed(state.task, result) && TurnsCapped(state.task, state.turnsUsed, result.Reached())
  {
    hide DroveTo, Storable, Continues, Walks, PausesOn;
    u, n, durable, gs := state.task, Rounds(0, 0, 0, 0, []), durable0, [];
    var task := state.task;
    if byHuman || task.tree.ReAct? {
      var missing := FindWorkerAgent(r, task);
      if missing.Some? {
        result := missing.value;
        return;
      }
    }
    if task.tree.ReAct? {
      result, durable := ResumeLeaf(r, h, state, worker, durable0, fuel);
    } else {
      var start := Scratch(task, [], state.turnsUsed, None, None, Some(worker), false);
      result, durable, u, n, gs := Drive(r, h, task, start, durable0, fuel);
      DriveContinues(h, task.tree, Some(worker), durable0, past, gs, durable, result);
    }
  }

  method ResumeLeaf(r: Registry, h: Harness, state: PausedState, worker: Session, durable0: seq<Item>, fuel: nat)
    returns (result: RunResult, durable: seq<Item>)
    requires Storable(durable0) && state.task.tree.ReAct?
    ensures Storable(durable) && Homed(state.task, result)
    ensures TurnsCapped(state.task, state.turnsUsed, result.Reached())
  {
    var start := Scratch(state.task, worker, state.turnsUsed, None, None, None, false);
    var cx := new ExecutionContext(r, h, None, start, durable0, fuel);
    ghost var refunds;
    result, refunds := RunWindow(cx, state.task.tree.leaf, worker, None, false);
    durable := cx.durable;
  }

  // ---------------------------------------------------------------------------
  // What a grant is worth
  // ---------------------------------------------------------------------------

  /** After a grant, every capped leaf and the task itself have room for the granted steps. */
  lemma GrantMakesRoom(r: Registry, task: TaskSpec, taken: U32, steps: U32)
    ensures var granted := Min(taken + steps, U32_MAX); var g := GrantTask(task, granted);
      && g.maxTurns.Some? && g.maxTurns.value >= granted
      && |LeafPolicies(g.tree)| == |LeafPolicies(task.tree)|
      && (forall k :: 0 <= k < |LeafPolicies(g.tree)| ==>
            LeafPolicies(g.tree)[k].Unlimited? || LeafPolicies(g.tree)[k].value >= granted)
      && (Strategies.Valid(r, task.tree) <==> Strategies.Valid(r, g.tree))
  {
    GrantRaisesLeaves(r, task.tree, Min(taken + steps, U32_MAX));
  }

  /**
   A combinator asks a human only when nothing refills its scope any more. The run
   resumed with a grant starts that node on a scope that has no continue left either,
   and admits as many unit charges as were taken and granted together, or as the task
   allowed before when that is more.
   */
  lemma ResumedScopeHasRoom(h: Harness, task: TaskSpec, before: Scope, turns: U32, worker: Session, steps: U32)
    requires !task.tree.ReAct? && InChain(BehaviorOf(task.tree), before) && before.phase == Phase(task.tree)
    requires h.mode.SurfaceToHuman? && !CanRefill(before, h.mode)
    ensures var asked := AskForBudget(SignalOf(before), true, task, turns, turns, worker);
      var granted := Min(before.stepsTaken + steps, U32_MAX);
      var resumed := GrantTask(asked.state.task, granted);
      var start := StartScope(ResumedScratch(resumed, asked.state, asked.request.exhausted), resumed.tree);
      && start.continuesUsed == before.continuesUsed && !CanRefill(start, h.mode)
      && start.policy == TotalSteps(Max(granted, if task.maxTurns.Some? then task.maxTurns.value else 0))
      && (Finite(start, h.mode) ==> UnitCharges(start, h.mode) == start.policy.value)
  {
    var asked := AskForBudget(SignalOf(before), true, task, turns, turns, worker);
    var resumed := GrantTask(asked.state.task, Min(before.stepsTaken + steps, U32_MAX));
    var start := StartScope(ResumedScratch(resumed, asked.state, asked.request.exhausted), resumed.tree);
    if Finite(start, h.mode) {
      ResumedCapacity(start, h.mode);
    }
  }

  /**
   A combinator without a cap never refuses a charge; once a grant has given its task
   a cap it does, unless the grant reached the largest word.
   */
  lemma GrantCapsScope(task: TaskSpec, granted: U32, behavior: Behavior, phase: string)
    requires task.maxTurns.None?
    ensures var before := Scope(TaskPolicy(task), behavior, 0, 0, phase, 0);
      var after := Scope(TaskPolicy(GrantTask(task, granted)), behavior, 0, 0, phase, 0);
      && (forall taken: U32, turns: U32 :: Fits(before.(stepsTaken := taken), turns))
      && ((exists taken: U32 :: !Fits(after.(stepsTaken := taken), 1)) <==> granted < U32_MAX)
  {
    RefusesSomeUnitCharge(Scope(TaskPolicy(GrantTask(task, granted)), behavior, 0, 0, phase, 0));
  }
}
