/**
 The strategy tree: its advisory step bound, the handles it refers to, the agent
 its worker leaf resolves, and the grants that raise its caps.
 */
module Strategies {
  import opened Words
  import opened Budgets

  datatype ReactConfig = ReactConfig(
    budget: BudgetPolicy,
    behavior: Behavior,
    agent: string,
    toolset: string,
    output: Option<string>)
  {
    /** A PerLoop budget is the iteration cap; any other shape is unbounded. */
    function MaxIterations(): U32 {
      if budget.PerLoop? then budget.value else U32_MAX
    }
  }

  datatype Strategy =
    | ReAct(leaf: ReactConfig)
    | PlanExecute(plan: Strategy, execute: Strategy, behavior: Behavior)
    | SelfVerifying(inner: Strategy, verifier: string, evalAgent: string, evalToolset: string, behavior: Behavior)
    | Ralph(inner: Strategy, agent: string, behavior: Behavior)
    | HillClimbing(inner: Strategy, maxStagnation: U32, metric: string, behavior: Behavior)

  /** The task a strategy runs for; `tree` is the strategy itself. */
  datatype TaskSpec = TaskSpec(instruction: string, maxTurns: Option<U32>, tree: Strategy)

  ghost function Height(s: Strategy): nat {
    match s
    case ReAct(_) => 0
    case PlanExecute(p, e, _) => 1 + Max(Height(p), Height(e))
    case SelfVerifying(i, _, _, _, _) => 1 + Height(i)
    case Ralph(i, _, _) => 1 + Height(i)
    case HillClimbing(i, _, _, _) => 1 + Height(i)
  }

  /** The behaviour a node carries in its own scope. */
  function BehaviorOf(s: Strategy): Behavior {
    match s
    case ReAct(c) => c.behavior
    case _ => s.behavior
  }

  predicate RalphFree(s: Strategy) {
    match s
    case ReAct(_) => true
    case PlanExecute(p, e, _) => RalphFree(p) && RalphFree(e)
    case SelfVerifying(i, _, _, _, _) => RalphFree(i)
    case Ralph(_, _, _) => false
    case HillClimbing(i, _, _, _) => RalphFree(i)
  }

  /** The chain of a combinator asks a human in the end, or its scope never refuses a charge. */
  predicate Asks(b: Behavior, maxTurns: Option<U32>) {
    Terminal(b) == ResolveEscalate || maxTurns.None? || maxTurns.value == U32_MAX
  }

  /**
   The trees that hand no exhaustion to their parent when a human may be asked: a Ralph
   node absorbs it, a plan asks over a spent child, and a verifying or climbing node
   passes on whatever reaches it.
   */
  predicate Contained(s: Strategy, maxTurns: Option<U32>) {
    match s
    case ReAct(_) => false
    case PlanExecute(_, _, b) => Asks(b, maxTurns)
    case SelfVerifying(i, _, _, _, b) => Asks(b, maxTurns) && Contained(i, maxTurns)
    case Ralph(_, _, _) => true
    case HillClimbing(i, _, _, b) => Asks(b, maxTurns) && Contained(i, maxTurns)
  }

  predicate PlanExecuteFree(s: Strategy) {
    match s
    case ReAct(_) => true
    case PlanExecute(_, _, _) => false
    case SelfVerifying(i, _, _, _, _) => PlanExecuteFree(i)
    case Ralph(i, _, _) => PlanExecuteFree(i)
    case HillClimbing(i, _, _, _) => PlanExecuteFree(i)
  }

  // ---------------------------------------------------------------------------
  // The advisory bound
  // ---------------------------------------------------------------------------

  function MaxSteps(s: Strategy): Option<U32> {
    match s
    case ReAct(c) => c.budget.Allowance()
    case SelfVerifying(i, _, _, _, _) =>
      var inner := MaxSteps(i);
      if inner.None? then None else CheckedAdd(inner.value, 1)
    case PlanExecute(p, e, _) =>
      var plan := MaxSteps(p);
      if plan.None? then None else
      var exec := MaxSteps(e);
      if exec.None? then None else CheckedAdd(plan.value, exec.value)
    case Ralph(i, _, _) => MaxSteps(i)
    case HillClimbing(i, stagnation, _, _) =>
      if stagnation == U32_MAX then None else
      var inner := MaxSteps(i);
      if inner.None? then None else
      var windows := CheckedAdd(stagnation, 1);
      if windows.None? then None else CheckedMul(inner.value, windows.value)
  }

  /** No uncapped leaf and no unbounded-windows sentinel anywhere. */
  predicate FullyBounded(s: Strategy) {
    match s
    case ReAct(c) => !c.budget.Unlimited?
    case PlanExecute(p, e, _) => FullyBounded(p) && FullyBounded(e)
    case SelfVerifying(i, _, _, _, _) => FullyBounded(i)
    case Ralph(i, _, _) => FullyBounded(i)
    case HillClimbing(i, stagnation, _, _) => stagnation != U32_MAX && FullyBounded(i)
  }

  /** The bound over unbounded integers. */
  function TurnBound(s: Strategy): nat
    requires FullyBounded(s)
  {
    match s
    case ReAct(c) => c.budget.value
    case PlanExecute(p, e, _) => TurnBound(p) + TurnBound(e)
    case SelfVerifying(i, _, _, _, _) => TurnBound(i) + 1
    case Ralph(i, _, _) => TurnBound(i)
    case HillClimbing(i, stagnation, _, _) => TurnBound(i) * (stagnation + 1)
  }

  /** A value exactly when the tree is fully bounded and its bound fits a word; then that bound. */
  lemma {:induction false} MaxStepsIsTurnBound(s: Strategy)
    ensures MaxSteps(s).Some? <==> FullyBounded(s) && TurnBound(s) <= U32_MAX
    ensures MaxSteps(s).Some? ==> MaxSteps(s).value == TurnBound(s)
  {
    match s
    case ReAct(_) =>
    case PlanExecute(p, e, _) =>
      MaxStepsIsTurnBound(p);
      MaxStepsIsTurnBound(e);
    case SelfVerifying(i, _, _, _, _) =>
      MaxStepsIsTurnBound(i);
    case Ralph(i, _, _) =>
      MaxStepsIsTurnBound(i);
    case HillClimbing(i, stagnation, _, _) =>
      MaxStepsIsTurnBound(i);
      if FullyBounded(s) {
        AtLeastFactor(TurnBound(i), stagnation + 1);
      }
  }

  lemma AtLeastFactor(n: nat, k: nat)
    requires k > 0
    ensures n * k >= n
  {
  }

  // ---------------------------------------------------------------------------
  // The worker leaf
  // ---------------------------------------------------------------------------

  /** The agent key the harness looks up for a whole tree. */
  function WorkerAgentKey(s: Strategy): string {
    match s
    case ReAct(c) => c.agent
    case PlanExecute(_, e, _) => WorkerAgentKey(e)
    case SelfVerifying(i, _, _, _, _) => WorkerAgentKey(i)
    case Ralph(i, agent, _) => if agent != "" then agent else WorkerAgentKey(i)
    case HillClimbing(i, _, _, _) => WorkerAgentKey(i)
  }

  /** Gives the worker leaf an agent when it declares none. */
  function FillEmptyWorkerAgent(s: Strategy, agent: string): (r: Strategy)
    ensures Height(r) == Height(s)
    ensures BehaviorOf(r) == BehaviorOf(s)
    ensures RalphFree(r) == RalphFree(s) && PlanExecuteFree(r) == PlanExecuteFree(s)
  {
    match s
    case ReAct(c) => if c.agent == "" then ReAct(c.(agent := agent)) else s
    case PlanExecute(p, e, b) => PlanExecute(p, FillEmptyWorkerAgent(e, agent), b)
    case SelfVerifying(i, v, ea, et, b) => SelfVerifying(FillEmptyWorkerAgent(i, agent), v, ea, et, b)
    case Ralph(i, a, b) => Ralph(FillEmptyWorkerAgent(i, agent), a, b)
    case HillClimbing(i, m, e, b) => HillClimbing(FillEmptyWorkerAgent(i, agent), m, e, b)
  }

  /** The tree a Ralph node runs in each of its windows. */
  function WindowTree(inner: Strategy, agent: string): (r: Strategy)
    ensures Height(r) == Height(inner)
  {
    if agent != "" then FillEmptyWorkerAgent(inner, agent) else inner
  }

  /** The key the worker leaf resolves once every Ralph above it has filled it. */
  function ResolvedLeafKey(s: Strategy): string
    decreases Height(s)
  {
    match s
    case ReAct(c) => c.agent
    case PlanExecute(_, e, _) => ResolvedLeafKey(e)
    case SelfVerifying(i, _, _, _, _) => ResolvedLeafKey(i)
    case Ralph(i, agent, _) => ResolvedLeafKey(WindowTree(i, agent))
    case HillClimbing(i, _, _, _) => ResolvedLeafKey(i)
  }

  /** The agent the worker leaf declares. */
  function DeclaredLeafKey(s: Strategy): string {
    match s
    case ReAct(c) => c.agent
    case PlanExecute(_, e, _) => DeclaredLeafKey(e)
    case SelfVerifying(i, _, _, _, _) => DeclaredLeafKey(i)
    case Ralph(i, _, _) => DeclaredLeafKey(i)
    case HillClimbing(i, _, _, _) => DeclaredLeafKey(i)
  }

  /** The agent of the outermost Ralph above the worker leaf that names one. */
  function OuterOverride(s: Strategy): string {
    match s
    case ReAct(_) => ""
    case PlanExecute(_, e, _) => OuterOverride(e)
    case SelfVerifying(i, _, _, _, _) => OuterOverride(i)
    case Ralph(i, agent, _) => if agent != "" then agent else OuterOverride(i)
    case HillClimbing(i, _, _, _) => OuterOverride(i)
  }

  lemma {:induction false} FillSetsLeaf(s: Strategy, agent: string)
    requires agent != ""
    ensures DeclaredLeafKey(FillEmptyWorkerAgent(s, agent)) ==
            if DeclaredLeafKey(s) == "" then agent else DeclaredLeafKey(s)
    ensures OuterOverride(FillEmptyWorkerAgent(s, agent)) == OuterOverride(s)
  {
    match s
    case ReAct(_) =>
    case PlanExecute(_, e, _) => FillSetsLeaf(e, agent);
    case SelfVerifying(i, _, _, _, _) => FillSetsLeaf(i, agent);
    case Ralph(i, _, _) => FillSetsLeaf(i, agent);
    case HillClimbing(i, _, _, _) => FillSetsLeaf(i, agent);
  }

  /** A declared agent wins; otherwise the outermost override does. */
  lemma {:induction false} LeafResolution(s: Strategy)
    ensures ResolvedLeafKey(s) == if DeclaredLeafKey(s) != "" then DeclaredLeafKey(s) else OuterOverride(s)
    ensures WorkerAgentKey(s) == if OuterOverride(s) != "" then OuterOverride(s) else DeclaredLeafKey(s)
    decreases Height(s)
  {
    match s
    case ReAct(_) =>
    case PlanExecute(_, e, _) => LeafResolution(e);
    case SelfVerifying(i, _, _, _, _) => LeafResolution(i);
    case Ralph(i, agent, _) =>
      LeafResolution(i);
      if agent != "" {
        FillSetsLeaf(i, agent);
        LeafResolution(WindowTree(i, agent));
      }
    case HillClimbing(i, _, _, _) => LeafResolution(i);
  }

  /**
   The looked-up key is the one the leaf resolves exactly when the leaf declares
   no agent, no Ralph overrides it, or the outermost override names the same one.
   */
  lemma WorkerKeyAgrees(s: Strategy)
    ensures WorkerAgentKey(s) == ResolvedLeafKey(s) <==>
            DeclaredLeafKey(s) == "" || OuterOverride(s) == "" || OuterOverride(s) == DeclaredLeafKey(s)
  {
    LeafResolution(s);
  }

  /** An explicit leaf agent under an overriding Ralph: the lookup names the wrong agent. */
  lemma WorkerKeyDisagrees()
    ensures var leaf := ReactConfig(PerLoop(1), Escalate, "coder", "", None);
      var s := Ralph(ReAct(leaf), "generalist", Escalate);
      WorkerAgentKey(s) == "generalist" && ResolvedLeafKey(s) == "coder"
  {
    var leaf := ReactConfig(PerLoop(1), Escalate, "coder", "", None);
    LeafResolution(Ralph(ReAct(leaf), "generalist", Escalate));
  }

  // ---------------------------------------------------------------------------
  // Startup validation
  // ---------------------------------------------------------------------------

  datatype HandleKind = AgentHandle | ToolsetHandle | SchemaHandle | VerifierHandle | MetricHandle

  datatype Handle = Handle(kind: HandleKind, key: string)

  datatype Registry = Registry(handles: set<Handle>) {
    predicate Resolves(kind: HandleKind, key: string) {
      Handle(kind, key) in handles
    }

    function Check(kind: HandleKind, key: string): Option<Handle> {
      if Resolves(kind, key) then None else Some(Handle(kind, key))
    }
  }

  function FirstOf(a: Option<Handle>, b: Option<Handle>): Option<Handle> {
    if a.Some? then a else b
  }

  /** The first handle of the tree that the registry cannot resolve. */
  function Validate(r: Registry, s: Strategy): Option<Handle> {
    match s
    case ReAct(c) =>
      FirstOf(r.Check(AgentHandle, c.agent),
      FirstOf(r.Check(ToolsetHandle, c.toolset),
              if c.output.Some? then r.Check(SchemaHandle, c.output.value) else None))
    case PlanExecute(p, e, _) => FirstOf(Validate(r, p), Validate(r, e))
    case SelfVerifying(i, v, ea, et, _) =>
      FirstOf(Validate(r, i),
      FirstOf(r.Check(VerifierHandle, v),
      FirstOf(if ea != "" then r.Check(AgentHandle, ea) else None,
              if et != "" then r.Check(ToolsetHandle, et) else None)))
    case Ralph(i, agent, _) => FirstOf(Validate(r, i), r.Check(AgentHandle, agent))
    case HillClimbing(i, _, m, _) => FirstOf(Validate(r, i), r.Check(MetricHandle, m))
  }

  /** Every handle a tree names, in the order they are checked. */
  function Handles(s: Strategy): seq<Handle> {
    match s
    case ReAct(c) =>
      [Handle(AgentHandle, c.agent), Handle(ToolsetHandle, c.toolset)]
      + if c.output.Some? then [Handle(SchemaHandle, c.output.value)] else []
    case PlanExecute(p, e, _) => Handles(p) + Handles(e)
    case SelfVerifying(i, v, ea, et, _) =>
      Handles(i) + [Handle(VerifierHandle, v)]
      + (if ea != "" then [Handle(AgentHandle, ea)] else [])
      + (if et != "" then [Handle(ToolsetHandle, et)] else [])
    case Ralph(i, agent, _) => Handles(i) + [Handle(AgentHandle, agent)]
    case HillClimbing(i, _, m, _) => Handles(i) + [Handle(MetricHandle, m)]
  }

  /** The first of a sequence of handles that the registry cannot resolve. */
  function FirstUnresolved(r: Registry, hs: seq<Handle>): Option<Handle> {
    if hs == [] then None
    else if hs[0] !in r.handles then Some(hs[0])
    else FirstUnresolved(r, hs[1..])
  }

  lemma {:induction false} FirstUnresolvedAppend(r: Registry, a: seq<Handle>, b: seq<Handle>)
    ensures FirstUnresolved(r, a + b) == FirstOf(FirstUnresolved(r, a), FirstUnresolved(r, b))
  {
    if a == [] {
      assert a + b == b;
    } else {
      assert (a + b)[1..] == a[1..] + b;
      FirstUnresolvedAppend(r, a[1..], b);
    }
  }

  lemma FourAppended(r: Registry, a: seq<Handle>, b: seq<Handle>, c: seq<Handle>, d: seq<Handle>)
    ensures FirstUnresolved(r, a + b + c + d) ==
            FirstOf(FirstUnresolved(r, a),
            FirstOf(FirstUnresolved(r, b), FirstOf(FirstUnresolved(r, c), FirstUnresolved(r, d))))
  {
    FirstUnresolvedAppend(r, a + b + c, d);
    FirstUnresolvedAppend(r, a + b, c);
    FirstUnresolvedAppend(r, a, b);
  }

  /** Validation reports the first unresolved handle of the tree, in declaration order. */
  lemma {:induction false} ValidateFindsFirst(r: Registry, s: Strategy)
    ensures Validate(r, s) == FirstUnresolved(r, Handles(s))
  {
    match s
    case ReAct(c) =>
      var out := if c.output.Some? then [Handle(SchemaHandle, c.output.value)] else [];
      assert Handles(s) == [Handle(AgentHandle, c.agent)] + ([Handle(ToolsetHandle, c.toolset)] + out);
      FirstUnresolvedAppend(r, [Handle(AgentHandle, c.agent)], [Handle(ToolsetHandle, c.toolset)] + out);
      FirstUnresolvedAppend(r, [Handle(ToolsetHandle, c.toolset)], out);
    case PlanExecute(p, e, _) =>
      ValidateFindsFirst(r, p);
      ValidateFindsFirst(r, e);
      FirstUnresolvedAppend(r, Handles(p), Handles(e));
    case SelfVerifying(i, v, ea, et, _) =>
      ValidateFindsFirst(r, i);
      var vs := [Handle(VerifierHandle, v)];
      var eas := if ea != "" then [Handle(AgentHandle, ea)] else [];
      var ets := if et != "" then [Handle(ToolsetHandle, et)] else [];
      FourAppended(r, Handles(i), vs, eas, ets);
    case Ralph(i, agent, _) =>
      ValidateFindsFirst(r, i);
      FirstUnresolvedAppend(r, Handles(i), [Handle(AgentHandle, agent)]);
    case HillClimbing(i, _, m, _) =>
      ValidateFindsFirst(r, i);
      FirstUnresolvedAppend(r, Handles(i), [Handle(MetricHandle, m)]);
  }

  ghost predicate Valid(r: Registry, s: Strategy) {
    Validate(r, s).None?
  }

  /** In a valid tree the looked-up worker agent resolves. */
  lemma {:induction false} ValidResolvesWorker(r: Registry, s: Strategy)
    requires Valid(r, s)
    ensures r.Resolves(AgentHandle, WorkerAgentKey(s))
  {
    match s
    case ReAct(_) =>
    case PlanExecute(_, e, _) => ValidResolvesWorker(r, e);
    case SelfVerifying(i, _, _, _, _) => ValidResolvesWorker(r, i);
    case Ralph(i, _, _) => ValidResolvesWorker(r, i);
    case HillClimbing(i, _, _, _) => ValidResolvesWorker(r, i);
  }

  /** Ralph's per-window fill keeps a valid tree valid. */
  lemma {:induction false} FillKeepsValid(r: Registry, s: Strategy, agent: string)
    requires Valid(r, s) && r.Resolves(AgentHandle, agent)
    ensures Valid(r, FillEmptyWorkerAgent(s, agent))
  {
    match s
    case ReAct(_) =>
    case PlanExecute(_, e, _) => FillKeepsValid(r, e, agent);
    case SelfVerifying(i, _, _, _, _) => FillKeepsValid(r, i, agent);
    case Ralph(i, _, _) => FillKeepsValid(r, i, agent);
    case HillClimbing(i, _, _, _) => FillKeepsValid(r, i, agent);
  }

  // ---------------------------------------------------------------------------
  // Grants
  // ---------------------------------------------------------------------------

  /** Raises the cap of every leaf to at least `granted`. */
  function GrantStrategy(s: Strategy, granted: U32): (r: Strategy)
    ensures Height(r) == Height(s) && BehaviorOf(r) == BehaviorOf(s) && PlanExecuteFree(r) == PlanExecuteFree(s)
  {
    match s
    case ReAct(c) => ReAct(c.(budget := Granted(c.budget, granted)))
    case PlanExecute(p, e, b) => PlanExecute(GrantStrategy(p, granted), GrantStrategy(e, granted), b)
    case SelfVerifying(i, v, ea, et, b) => SelfVerifying(GrantStrategy(i, granted), v, ea, et, b)
    case Ralph(i, a, b) => Ralph(GrantStrategy(i, granted), a, b)
    case HillClimbing(i, m, e, b) => HillClimbing(GrantStrategy(i, granted), m, e, b)
  }

  /** Combinators take their cap from the task, so both are raised; an unset cap becomes finite. */
  function GrantTask(t: TaskSpec, granted: U32): TaskSpec {
    var turns := if t.maxTurns.None? || t.maxTurns.value < granted then Some(granted) else t.maxTurns;
    t.(maxTurns := turns, tree := GrantStrategy(t.tree, granted))
  }

  /** The leaf caps of a tree, from left to right. */
  function LeafPolicies(s: Strategy): seq<BudgetPolicy> {
    match s
    case ReAct(c) => [c.budget]
    case PlanExecute(p, e, _) => LeafPolicies(p) + LeafPolicies(e)
    case SelfVerifying(i, _, _, _, _) => LeafPolicies(i)
    case Ralph(i, _, _) => LeafPolicies(i)
    case HillClimbing(i, _, _, _) => LeafPolicies(i)
  }

  /** A grant raises every leaf cap to at least its value, and changes no handle. */
  lemma {:induction false} GrantRaisesLeaves(r: Registry, s: Strategy, granted: U32)
    ensures var g := GrantStrategy(s, granted);
      && |LeafPolicies(g)| == |LeafPolicies(s)|
      && (forall k :: 0 <= k < |LeafPolicies(s)| ==> LeafPolicies(g)[k] == Granted(LeafPolicies(s)[k], granted))
      && Validate(r, g) == Validate(r, s)
      && Handles(g) == Handles(s)
  {
    match s
    case ReAct(_) =>
    case PlanExecute(p, e, _) =>
      GrantRaisesLeaves(r, p, granted);
      GrantRaisesLeaves(r, e, granted);
    case SelfVerifying(i, _, _, _, _) => GrantRaisesLeaves(r, i, granted);
    case Ralph(i, _, _) => GrantRaisesLeaves(r, i, granted);
    case HillClimbing(i, _, _, _) => GrantRaisesLeaves(r, i, granted);
  }
}
