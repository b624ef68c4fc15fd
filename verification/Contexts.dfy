/**
 The one mutable context that a whole strategy tree shares: the budget stack, the
 scratch of the node being run, the terminal override, the one-shot resume seeds
 and the durable task list.
 */
module Contexts {
  import opened Words
  import opened Budgets
  import opened TaskLists
  import opened PlanWalks
  import opened Strategies
  import opened Results
  import opened ReActWindows
  import opened Logs

  datatype ContinueSeed = ContinueSeed(phase: string, continuesUsed: U32)

  /**
   What the harness is configured with. `resetTakes` says whether the task list
   accepts a task going from in progress back to pending, which the code's
   transition rule refuses; `workersWrite` whether a worker's tools may rewrite
   the durable task list; `pinnedStore` whether that list is kept under a pinned
   namespace or under the session of the run; `schemaText` is what a schema handle
   resolves to, and `verifierLimit` how often a verifier lets a build be tried.
   */
  datatype Harness = Harness(
    window: WindowConfig,
    mode: EscalationMode,
    ralphMaxResets: U32,
    planEmptyRetries: U32,
    enforceSchemas: bool,
    resetTakes: bool,
    workersWrite: bool,
    pinnedStore: bool,
    schemaText: string -> string,
    verifierLimit: string -> U32)

  /** What the durable store may hold: statuses and blockers may be anything. */
  predicate Storable(ts: seq<Item>) {
    UniqueIds(ts)
  }

  /** Nothing below the node writes the durable task list. */
  ghost predicate Quiet(h: Harness, s: Strategy) {
    !h.workersWrite && PlanExecuteFree(s)
  }

  /**
   What a node may rely on: a validated tree, a task list of its own, whether automatic
   grants raise its cap, and whether a human may be asked.
   */
  datatype Terms = Terms(valid: bool, quiet: bool, auto: bool, asks: bool)

  ghost function TermsOf(r: Registry, h: Harness, s: Strategy): Terms {
    Terms(Strategies.Valid(r, s), Quiet(h, s), h.mode.AutoContinue?, h.mode.SurfaceToHuman?)
  }

  // ---------------------------------------------------------------------------
  // What running a node promises
  // ---------------------------------------------------------------------------

  /**
   The scratch of the node being run. `turns` is the turn count of its budget
   snapshot; `terminal` overrides the outcome; the two seeds are one-shot.
   */
  datatype Scratch = Scratch(
    task: TaskSpec,
    session: Session,
    turns: U32,
    terminal: Option<RunResult>,
    continueSeed: Option<ContinueSeed>,
    sessionSeed: Option<Session>,
    inExecuteStep: bool)

  /** Failed lookups of agents, verifiers and metrics, and the uses of each seed. */
  datatype Tally = Tally(misses: nat, seededScopes: nat, seededSessions: nat)

  /** A context at one moment, for comparing two moments of a run. */
  datatype Moment = Moment(
    budgets: seq<BudgetContext>,
    scratch: Scratch,
    durable: seq<Item>,
    fuel: nat,
    tally: Tally,
    log: Log)

  function Count<T>(o: Option<T>): nat {
    if o.Some? then 1 else 0
  }

  /** A seed is consumed where it is used, and never comes back. */
  ghost predicate SeedsSpent(pre: Scratch, before: Tally, post: Scratch, after: Tally) {
    && (post.continueSeed == pre.continueSeed || post.continueSeed.None?)
    && (post.sessionSeed == pre.sessionSeed || post.sessionSeed.None?)
    && after.seededScopes + Count(post.continueSeed) == before.seededScopes + Count(pre.continueSeed)
    && after.seededSessions + Count(post.sessionSeed) <= before.seededSessions + Count(pre.sessionSeed)
  }

  /** What every stretch of a run keeps. */
  ghost predicate Progress(pre: Moment, post: Moment, t: Terms) {
    && SeedsSpent(pre.scratch, pre.tally, post.scratch, post.tally)
    && post.fuel <= pre.fuel
    && Storable(post.durable)
    && (t.valid ==> post.tally.misses == pre.tally.misses)
    && (t.quiet ==> post.durable == pre.durable)
  }

  /** The override decides the outcome, except for an exhaustion, which leaves none. */
  ghost predicate Answers(terminal: Option<RunResult>, out: Outcome) {
    && (out.Exhausted? <==> terminal.None?)
    && (terminal.Some? ==> out == OutcomeOf(terminal.value))
  }

  /** A pause for a human or a helper carries the task of the node it leaves. */
  ghost predicate Homed(task: TaskSpec, r: RunResult) {
    r.WaitingForHuman? || r.Consult? ==> r.state.task == task
  }

  /** A turn count stays below the task's cap, or below where it started. */
  ghost predicate TurnsCapped(task: TaskSpec, t0: U32, turns: U32) {
    task.maxTurns.Some? ==> turns <= Max(t0, task.maxTurns.value)
  }

  /** The chain a signal carries is a part of the node's own chain. */
  ghost predicate FromChain(b: Behavior, signal: BudgetExhausted) {
    ChainMax(signal.behavior) <= ChainMax(b) && Terminal(signal.behavior) == Terminal(b)
  }

  /**
   The results a node can leave as its override. A leaf never asks for budget; a
   verifying node passes no failed build on; a Ralph node fails only when its
   windows are used up; a climb never succeeds.
   */
  ghost predicate ResultOf(s: Strategy, r: RunResult) {
    match s
    case ReAct(_) => !(r.WaitingForHuman? && r.request.BudgetRequest?)
    case PlanExecute(_, _, _) => true
    case SelfVerifying(_, _, _, _, _) =>
      r.Failure? ==> r.reason.SelfVerifyMisconfigured? || r.reason.SelfVerifyExhausted? || r.reason.ConfigurationError?
    case Ralph(_, _, _) => r.Failure? ==> r.reason.RalphCompletionUnmet?
    case HillClimbing(_, _, _, _) =>
      && !r.Success?
      && (r.Failure? ==>
            r.reason.HillClimbingMisconfigured? || r.reason.BudgetExceeded? || r.reason.StagnationLimitReached?)
  }

  /** The contract of a node: from `pre` to `post`, with this outcome. */
  ghost predicate Ran(pre: Moment, post: Moment, s: Strategy, t: Terms, out: Outcome) {
    var task, terminal := pre.scratch.task, post.scratch.terminal;
    && post.budgets == pre.budgets && post.scratch.task == task
    && Progress(pre, post, t)
    && Answers(terminal, out)
    && (terminal.Some? ==> Homed(task, terminal.value) && ResultOf(s, terminal.value))
    && (terminal.Some? && RalphFree(s) ==> TurnsCapped(task, pre.scratch.turns, terminal.value.Reached()))
    && (out.Exhausted? ==> !s.Ralph? && FromChain(BehaviorOf(s), out.signal))
    && (t.asks && Contained(s, task.maxTurns) ==> !out.Exhausted?)
    && (out.Exhausted? && RalphFree(s) && !t.auto ==> TurnsCapped(task, pre.scratch.turns, out.signal.stepsTaken))
  }

  // ---------------------------------------------------------------------------
  // Charges
  // ---------------------------------------------------------------------------

  /** Every refusal that loops again spends a continue, or a grant with the continues unchanged. */
  ghost predicate SpendsRefill(before: Scope, after: Scope, mode: EscalationMode) {
    var c0 := ContinuesLeft(before.behavior, before.continuesUsed);
    var c1 := ContinuesLeft(after.behavior, after.continuesUsed);
    var g0, g1 := GrantsLeft(before, mode), GrantsLeft(after, mode);
    (c1 + 1 == c0 && g1 == g0) || (c1 == c0 == 0 && g1 + 1 == g0)
  }

  ghost predicate SameRefills(before: Scope, after: Scope, mode: EscalationMode) {
    && ContinuesLeft(after.behavior, after.continuesUsed) == ContinuesLeft(before.behavior, before.continuesUsed)
    && GrantsLeft(after, mode) == GrantsLeft(before, mode)
  }

  /** A scope never leaves the chain it was pushed with: it has the continues left that the whole chain would have. */
  ghost predicate InChain(b: Behavior, s: Scope) {
    && ChainMax(s.behavior) <= ChainMax(b) && Terminal(s.behavior) == Terminal(b)
    && ContinuesLeft(s.behavior, s.continuesUsed) == ContinuesLeft(b, s.continuesUsed)
  }

  /** Resolving an exhaustion stays in the chain. */
  lemma ResolvedInChain(before: Scope)
    ensures forall b :: InChain(b, before) ==> InChain(b, Resolved(before).1)
  {
    ResolutionFollowsChain(before);
  }

  /** How often a spent scope can still be refilled: its continues, and its grants when it escalates. */
  function Refills(s: Scope, mode: EscalationMode): nat {
    ContinuesLeft(s.behavior, s.continuesUsed)
    + if Terminal(s.behavior) == ResolveEscalate then GrantsLeft(s, mode) else 0
  }

  predicate CanRefill(s: Scope, mode: EscalationMode) {
    Refills(s, mode) > 0
  }

  /** A combinator's scope: within its allowance, which only automatic grants raise above the task's cap. */
  ghost predicate Within(s: Scope, task: TaskSpec, mode: EscalationMode) {
    Fits(s, 0) && (!mode.AutoContinue? ==> s.policy == TaskPolicy(task))
  }

  /** Resolving a spent scope: refilled for another round, or the chain's last word. */
  ghost predicate RefilledTo(before: Scope, mode: EscalationMode, after: Scope, refilled: bool, res: Resolution) {
    && (refilled <==> CanRefill(before, mode))
    && (refilled ==> SpendsRefill(before, after, mode) && Refills(after, mode) + 1 == Refills(before, mode))
    && (!refilled ==> res == Terminal(before.behavior) && SameRefills(before, after, mode))
    && after.phase == before.phase
    && (Fits(before, 0) ==> Fits(after, 0)) && (!mode.AutoContinue? ==> after.policy == before.policy)
    && ChainMax(after.behavior) <= ChainMax(before.behavior) && Terminal(after.behavior) == Terminal(before.behavior)
    && (forall b :: InChain(b, before) ==> InChain(b, after))
    && (Finite(before, mode) ==> Finite(after, mode) && Capacity(after, mode) <= Capacity(before, mode))
    && (Finite(before, mode) && !Fits(before, 1) && refilled ==> Capacity(after, mode) == Capacity(before, mode))
  }

  lemma ContinueRefills(before: Scope, mode: EscalationMode)
    requires Resolved(before).0 == GrantContinue
    ensures RefilledTo(before, mode, Resolved(before).1, true, GrantContinue)
  {
    ResolvedInChain(before);
    ResolutionFollowsChain(before);
    if Finite(before, mode) {
      DropOne(before.policy.value, ContinuesLeft(before.behavior, before.continuesUsed));
    }
  }

  lemma GrantRefills(before: Scope, mode: EscalationMode)
    requires Resolved(before).0 == ResolveEscalate && GrantsLeft(before, mode) > 0
    ensures RefilledTo(before, mode, AutoGranted(Resolved(before).1, mode.stepsPerGrant), true, ResolveEscalate)
  {
    ResolvedInChain(before);
    ResolutionFollowsChain(before);
    if Finite(before, mode) {
      DropOne(mode.stepsPerGrant, GrantsLeft(before, mode));
    }
  }

  lemma NothingRefills(before: Scope, mode: EscalationMode)
    requires Resolved(before).0 != GrantContinue
    requires Resolved(before).0 == ResolveEscalate ==> GrantsLeft(before, mode) == 0
    ensures RefilledTo(before, mode, Resolved(before).1, false, Resolved(before).0)
  {
    ResolvedInChain(before);
    ResolutionFollowsChain(before);
  }

  ghost predicate ChargedTo(before: Scope, turns: U32, mode: EscalationMode, after: Scope, r: Charged) {
    && (r.Proceed? <==> Fits(before, turns))
    && (r.Proceed? ==> after == Debited(before, turns) && Fits(after, 0))
    && (r.Proceed? && Finite(before, mode) ==>
          Finite(after, mode) && Capacity(after, mode) + turns == Capacity(before, mode))
    && (r.Again? ==> RefilledTo(before, mode, after, true, GrantContinue))
    && (r.Surface? ==> r.signal == SignalOf(before) && RefilledTo(before, mode, after, false, r.res))
  }

  // ---------------------------------------------------------------------------
  // The context
  // ---------------------------------------------------------------------------

  /** The pause that asks a human for budget; without a conversation it shows the partial output. */
  function AskForBudget(signal: BudgetExhausted, hasPartial: bool, task: TaskSpec, turns: U32, number: U32,
                        session: Session): RunResult {
    var shown := if session == [] && hasPartial then [AssistantText("partial output")] else session;
    WaitingForHuman(PausedState(shown, [], [], task, turns, number), BudgetRequest(signal))
  }

  /** A pause handed on by a combinator carries the combinator's own task. */
  function Rehomed(r: RunResult, parent: TaskSpec): RunResult {
    match r
    case WaitingForHuman(state, request) => WaitingForHuman(state.(task := parent), request)
    case Consult(state, turns) => Consult(state.(task := parent), turns)
    case _ => r
  }

  /** A combinator takes its cap from the task. */
  function TaskPolicy(task: TaskSpec): BudgetPolicy {
    if task.maxTurns.Some? then TotalSteps(task.maxTurns.value) else Unlimited
  }

  lemma RehomedIsHomed(r: RunResult, parent: TaskSpec)
    ensures Homed(parent, Rehomed(r, parent)) && Rehomed(r, parent).Reached() == r.Reached()
    ensures OutcomeOf(Rehomed(r, parent)) == OutcomeOf(r)
    ensures forall s :: ResultOf(s, Rehomed(r, parent)) <==> ResultOf(s, r)
  {
  }

  /** Writes to the task store that the model cannot see; a store without unique ids is read as empty. */
  method StoreWrites() returns (ts: seq<Item>)
    ensures Storable(ts)
  {
    ts := *;
    if !Storable(ts) {
      ts := [];
    }
  }

  class ExecutionContext {
    const registry: Registry
    const harness: Harness
    /** The schema that a retried planning phase is forced to answer with. */
    const forcedSchema: Option<string>
    var budgets: seq<BudgetContext>
    var scratch: Scratch
    /** The durable task list. */
    var durable: seq<Item>
    /** Cuts climbs that nothing else bounds. */
    var fuel: nat
    ghost var tally: Tally
    /** What happened to the node being run. */
    ghost var log: Log

    ghost function Now(): Moment
      reads this
    {
      Moment(budgets, scratch, durable, fuel, tally, log)
    }

    /** Ready to run a node. */
    ghost predicate Ready(s: Strategy)
      reads this
    {
      scratch.terminal.None? && scratch.task.tree == s && Storable(durable) && log == []
    }

    constructor (registry: Registry, harness: Harness, forcedSchema: Option<string>, scratch: Scratch,
                 durable: seq<Item>, fuel: nat)
      ensures this.registry == registry && this.harness == harness && this.forcedSchema == forcedSchema
      ensures Now() == Moment([], scratch, durable, fuel, Tally(0, 0, 0), [])
    {
      this.registry, this.harness, this.forcedSchema := registry, harness, forcedSchema;
      this.budgets, this.scratch, this.durable, this.fuel := [], scratch, durable, fuel;
      this.tally, this.log := Tally(0, 0, 0), [];
    }

    method TakeSession() returns (s: Session)
      modifies this`scratch
      ensures s == old(scratch).session && scratch == old(scratch).(session := [])
    {
      s := scratch.session;
      scratch := scratch.(session := []);
    }

    // --- handles ---------------------------------------------------------------

    method Resolve(kind: HandleKind, key: string) returns (found: bool)
      modifies this`tally
      ensures found <==> registry.Resolves(kind, key)
      ensures tally == if found then old(tally) else old(tally).(misses := old(tally).misses + 1)
    {
      found := registry.Resolves(kind, key);
      tally := if found then tally else tally.(misses := tally.misses + 1);
    }

    /** The agent of the worker leaf. */
    method ResolveWorkerAgent(s: Strategy) returns (failure: Option<RunResult>)
      modifies this`tally
      ensures Strategies.Valid(registry, s) ==> failure.None?
      ensures failure.None? <==> registry.Resolves(AgentHandle, WorkerAgentKey(s))
      ensures failure.None? ==> tally == old(tally)
      ensures failure.Some? ==> tally == old(tally).(misses := old(tally).misses + 1)
      ensures failure.Some? ==>
                failure.value == Failure(ConfigurationError(Handle(AgentHandle, WorkerAgentKey(s))), 0, [])
    {
      var found := Resolve(AgentHandle, WorkerAgentKey(s));
      if Strategies.Valid(registry, s) {
        ValidResolvesWorker(registry, s);
      }
      failure := if found then None
                 else Some(Failure(ConfigurationError(Handle(AgentHandle, WorkerAgentKey(s))), 0, []));
    }

    // --- budget scopes -----------------------------------------------------------

    /** Pushes a fresh scope; a continue seed for this phase restores its counter, once. */
    method PushBudget(policy: BudgetPolicy, behavior: Behavior, phase: string) returns (scope: BudgetContext)
      modifies this`budgets, this`scratch, this`tally
      ensures fresh(scope) && budgets == old(budgets) + [scope]
      ensures var seed := old(scratch).continueSeed;
        if seed.Some? && seed.value.phase == phase then
          && scope.State() == Scope(policy, behavior, 0, seed.value.continuesUsed, phase, 0)
          && scratch == old(scratch).(continueSeed := None)
          && tally == old(tally).(seededScopes := old(tally).seededScopes + 1)
        else
          && scope.State() == Scope(policy, behavior, 0, 0, phase, 0)
          && scratch == old(scratch) && tally == old(tally)
    {
      var used: U32 := 0;
      var seed := scratch.continueSeed;
      if seed.Some? && seed.value.phase == phase {
        used := seed.value.continuesUsed;
        scratch := scratch.(continueSeed := None);
        tally := tally.(seededScopes := tally.seededScopes + 1);
      }
      scope := new BudgetContext(policy, behavior, phase, used);
      budgets := budgets + [scope];
    }

    method PopBudget()
      modifies this`budgets
      ensures budgets == if old(budgets) == [] then [] else old(budgets)[..|old(budgets)| - 1]
    {
      if budgets != [] {
        budgets := budgets[..|budgets| - 1];
      }
    }

    /** Resolves the spent innermost scope, taking an automatic grant when it escalates and one is left. */
    method Refill(scope: BudgetContext) returns (refilled: bool, res: Resolution)
      requires budgets != [] && budgets[|budgets| - 1] == scope
      modifies scope
      ensures RefilledTo(old(scope.State()), harness.mode, scope.State(), refilled, res)
      ensures !refilled ==> res != GrantContinue
    {
      ghost var before := scope.State();
      res := scope.ResolveExhausted();
      if res == GrantContinue {
        ContinueRefills(before, harness.mode);
        return true, res;
      }
      ResolutionFollowsChain(before);
      if res == ResolveEscalate {
        var granted := scope.TryAutoContinue(harness.mode);
        if granted {
          GrantRefills(before, harness.mode);
          return true, res;
        }
      }
      NothingRefills(before, harness.mode);
      refilled := false;
    }

    /** Charges the innermost scope; a refused charge is resolved on the spot. */
    method Charge(scope: BudgetContext, turns: U32) returns (r: Charged)
      requires budgets != [] && budgets[|budgets| - 1] == scope
      modifies scope, this`log
      ensures ChargedTo(old(scope.State()), turns, harness.mode, scope.State(), r)
      ensures log == old(log) + [ChargeMade(turns, r)]
    {
      var refused := scope.Charge(turns);
      r := Proceed;
      if refused.Some? {
        var refilled, res := Refill(scope);
        r := if refilled then Again else Surface(refused.value, res);
      }
      log := log + [ChargeMade(turns, r)];
    }

    /** A child was spent: the innermost scope is resolved. */
    method ResolveSpent(scope: BudgetContext) returns (refilled: bool, res: Resolution)
      requires budgets != [] && budgets[|budgets| - 1] == scope
      modifies scope, this`log
      ensures RefilledTo(old(scope.State()), harness.mode, scope.State(), refilled, res)
      ensures !refilled ==> res != GrantContinue
      ensures log == old(log) + [ScopeResolved(refilled, res)]
    {
      refilled, res := Refill(scope);
      log := log + [ScopeResolved(refilled, res)];
    }

    // --- collaborators -----------------------------------------------------------

    /** The verifier's answer to a build. */
    method AskVerifier() returns (accepted: bool)
      modifies this`log
      ensures log == old(log) + [Verdict(accepted)]
    {
      accepted := Decide();
      log := log + [Verdict(accepted)];
    }

    /** Whether a finished window left the work complete. */
    method CheckCompletion() returns (complete: bool)
      modifies this`log
      ensures log == old(log) + [Completion(complete)]
    {
      complete := Decide();
      log := log + [Completion(complete)];
    }

    // --- terminals ---------------------------------------------------------------

    /** Stashes a result as the override, and the session it ended with. */
    method RecordTerminal(r: RunResult) returns (out: Outcome)
      modifies this`scratch
      ensures scratch == old(scratch).(terminal := Some(r),
                                       session := if r.Terminal() then r.session else old(scratch).session)
      ensures out == OutcomeOf(r)
    {
      if r.Terminal() {
        scratch := scratch.(session := r.session);
      }
      scratch := scratch.(terminal := Some(r));
      out := OutcomeOf(r);
    }

    /** Takes the result a child stashed, so that it cannot mask the parent's own. */
    method TakeChildOverride() returns (r: Option<RunResult>)
      modifies this`scratch
      ensures r == old(scratch).terminal && scratch == old(scratch).(terminal := None)
    {
      r := scratch.terminal;
      scratch := scratch.(terminal := None);
    }

    /** A combinator's exit: the pause now carries the parent's task, which is restored. */
    method Finish(parent: TaskSpec, r: RunResult) returns (out: Outcome)
      modifies this`scratch
      ensures var result := Rehomed(r, parent);
        scratch == old(scratch).(task := parent, terminal := Some(result),
                                 session := if r.Terminal() then r.session else old(scratch).session)
      ensures out == OutcomeOf(r)
    {
      scratch := scratch.(task := parent);
      out := RecordTerminal(Rehomed(r, parent));
    }

    /** Gives up on a spent scope: ask a human, or propagate the exhaustion to the parent. */
    method GiveUp(parent: TaskSpec, signal: BudgetExhausted, res: Resolution, turns: U32, worker: Session)
      returns (out: Outcome)
      requires res != GrantContinue
      modifies this`scratch
      ensures var asks := res == ResolveEscalate && harness.mode.SurfaceToHuman?;
        && scratch == old(scratch).(task := parent,
             terminal := if asks then Some(AskForBudget(signal, true, parent, turns, turns, worker)) else None)
        && out == if asks then Failed(None) else Exhausted(signal, res == ResolveEscalate, SpentBudget)
    {
      scratch := scratch.(task := parent, terminal := None);
      if res != ResolveFail && harness.mode.SurfaceToHuman? {
        out := RecordTerminal(AskForBudget(signal, true, parent, turns, turns, worker));
      } else {
        out := Exhausted(signal, res != ResolveFail, SpentBudget);
      }
    }

    /** A worker's tools may have written the task store. */
    method WorkerWrites()
      requires Storable(durable)
      modifies this`durable
      ensures Storable(durable) && (!harness.workersWrite ==> durable == old(durable))
    {
      if harness.workersWrite {
        durable := StoreWrites();
      }
    }
  }
}
