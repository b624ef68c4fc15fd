/**
 The interpreter of strategy trees. Every node runs over the one shared context,
 may run its children any number of times, and answers with an outcome and an
 override. The model, the tools, the verifier and the metric answer arbitrarily.
 */
module Executions {
  import opened Words
  import opened Budgets
  import opened TaskLists
  import opened PlanSegments
  import opened PlanWalks
  import opened Strategies
  import opened Results
  import opened ReActWindows
  import opened Contexts
  import opened Logs
  import opened Leaves
  import opened Nodes
  import opened Planning
  import opened PlanReports
  import opened PlanSteps
  import opened BuildSteps

  // ---------------------------------------------------------------------------
  // Dispatch
  // ---------------------------------------------------------------------------

  /** What a node's log says of its outcome, kind by kind. */
  ghost predicate Tells(cx: ExecutionContext, s: Strategy, pre: Moment, segment: Option<Segment>, out: Outcome)
    reads cx
  {
    var mode, log := cx.harness.mode, cx.log;
    match s
    case ReAct(c) =>
      && LeafHandsUp(c, log, out) && LeafExhausted(c, pre.scratch.turns, log, out) && LeafJudged(cx, c)
      && cx.scratch.turns == pre.scratch.turns
    case PlanExecute(_, _, _) =>
      && Segmented(cx.harness, s, pre, cx.Now(), segment)
      && Paid(pre, s, log, mode) && (out.Exhausted? <==> HandsUp(s, mode, log))
      && Tries(log) <= cx.harness.planEmptyRetries + 1
    case SelfVerifying(_, verifier, _, _, _) =>
      && Paid(pre, s, log, mode) && (out.Exhausted? <==> HandsUp(s, mode, log))
      && RoundsHold(cx.harness.verifierLimit(verifier), log, out.Complete?)
    case Ralph(_, _, _) =>
      !out.Exhausted? && WindowsHold(cx.harness.ralphMaxResets, log, out.Complete?)
    case HillClimbing(_, _, _, _) =>
      && Paid(pre, s, log, mode) && (out.Exhausted? <==> HandsUp(s, mode, log))
      && UnitClimb(log)
  }

  /** Succeeds exactly when the verifier accepts, which is asked no more than the builds and the limit allow. */
  ghost predicate RoundsHold(limit: U32, log: Log, complete: bool) {
    AcceptedLast(Verdicts(log), complete) && |Verdicts(log)| <= Runs(log) <= limit
  }

  /** Succeeds exactly when the last check found the work complete; at most the allowed number of windows ran. */
  ghost predicate WindowsHold(limit: U32, log: Log, complete: bool) {
    AcceptedLast(Completions(log), complete) && |Completions(log)| <= Runs(log) <= limit
  }

  /** Runs the tree that the scratch task names. */
  method Run(cx: ExecutionContext, s: Strategy) returns (out: Outcome, ghost segment: Option<Segment>)
    requires cx.Ready(s)
    modifies cx
    ensures Ran(old(cx.Now()), cx.Now(), s, Given(cx, s), out)
    ensures Tells(cx, s, old(cx.Now()), segment, out)
    ensures Spills(cx.registry, cx.harness, s, old(cx.scratch.turns)) ==> out.Exhausted?
    decreases Height(s), 7
  {
    hide Ran, LeafHandsUp, LeafExhausted, LeafJudged, Segmented, Paid, HandsUp, RoundsHold, WindowsHold, UnitClimb;
    segment := None;
    match s {
      case ReAct(c) =>
        out := RunReact(cx, c);
      case PlanExecute(_, _, _) =>
        out, segment := RunPlanExecute(cx, s);
      case SelfVerifying(_, _, _, _, _) =>
        out := RunSelfVerifying(cx, s);
      case Ralph(_, _, _) =>
        out := RunRalph(cx, s);
      case HillClimbing(_, _, _, _) =>
        out := RunHillClimbing(cx, s);
    }
  }

  /** The conversation a node leaves behind: that of its pause, or the one it ended with. */
  ghost function LeftBehind(scratch: Scratch): Session {
    if scratch.terminal.Some? && !scratch.terminal.value.Terminal() then scratch.terminal.value.state.session
    else scratch.session
  }

  /** Seeds the scratch for a child and runs it; its events stay in a log of their own. */
  method RunChild(cx: ExecutionContext, child: Strategy, parent: TaskSpec, session: Session, turns: U32)
    returns (out: Outcome)
    requires cx.scratch.terminal.None? && Storable(cx.durable)
    modifies cx
    ensures ChildRan(old(cx.Now()), cx.Now(), child, parent, turns, Given(cx, child), out)
    ensures Spills(cx.registry, cx.harness, child, turns) ==> out.Exhausted?
    decreases Height(child), 8
  {
    hide Tells;
    cx.scratch := cx.scratch.(task := parent.(tree := child), session := session, turns := turns);
    ghost var mine, segment := cx.log, None;
    cx.log := [];
    out, segment := Run(cx, child);
    cx.log := mine + [ChildEnded(out, LeftBehind(cx.scratch))];
  }

  /** The contract of a child as its parent sees it. */
  ghost predicate ChildRan(pre: Moment, post: Moment, child: Strategy, parent: TaskSpec, turns: U32, t: Terms,
                           out: Outcome) {
    var terminal := post.scratch.terminal;
    && post.budgets == pre.budgets
    && Progress(pre, post, t)
    && Answers(terminal, out)
    && (terminal.Some? && RalphFree(child) ==> TurnsCapped(parent, turns, terminal.value.Reached()))
    && (out.Exhausted? && RalphFree(child) && !t.auto ==> TurnsCapped(parent, turns, out.signal.stepsTaken))
    && (t.asks && Contained(child, parent.maxTurns) ==> !out.Exhausted?)
    && (child.Ralph? ==> !out.Exhausted?)
    && post.log == pre.log + [ChildEnded(out, LeftBehind(post.scratch))]
  }

  // ---------------------------------------------------------------------------
  // Plan and execute
  // ---------------------------------------------------------------------------

  /** Walks the durable list, or plans one first. */
  method RunPlanExecute(cx: ExecutionContext, s: Strategy) returns (out: Outcome, ghost segment: Option<Segment>)
    requires cx.Ready(s) && s.PlanExecute?
    modifies cx
    ensures Quits(cx, old(cx.Now()), s, out)
    ensures Segmented(cx.harness, s, old(cx.Now()), cx.Now(), segment)
    ensures Tries(cx.log) <= cx.harness.planEmptyRetries + 1
    decreases Height(s), 6
  {
    hide SegmentKeeps, Settles, StartRefills, PlanExecuteFree, DrainedWell, CarriesOn, Quits, PlanReady;
    hide PlanWalk.Kept, Begins, CompletedClosed, Runs, Tries, LastLeft, Storable;
    ghost var pre := cx.Now();
    var task := cx.scratch.task;
    var p, list := ReachPlan(cx, s, task);
    segment := None;
    if p.stop.Some? {
      out := StopPlanning(cx, pre, s, task, p);
    } else {
      ghost var walk, exit, g;
      out, walk, exit, g := ExecutePlan(cx, pre, s, task, list, p);
      segment := Some(g);
    }
  }

  /** The list to walk and what the walk starts from, or the result that ends the node. */
  method ReachPlan(cx: ExecutionContext, s: Strategy, task: TaskSpec) returns (p: Planned, list: TaskList)
    requires cx.Ready(s) && s.PlanExecute? && task == cx.scratch.task
    modifies cx
    ensures PlanReady(cx, old(cx.Now()), s, p) && fresh(list)
    ensures p.stop.None? ==>
              && Walkable(cx, list) && list.tasks != []
              && if old(cx.durable) != [] then list.tasks == old(cx.durable) && p.seed == old(cx.scratch.sessionSeed)
                 else p.seed.None?
    ensures p.stop.Some? && old(cx.durable) != [] ==> cx.durable == old(cx.durable)
    decreases Height(s), 5
  {
    hide Validate, Ordered, Cyclic, Terminal, ChainMax;
    ghost var pre := cx.Now();
    var turns := cx.scratch.turns;
    var session := cx.TakeSession();
    var seed := cx.scratch.sessionSeed;
    cx.scratch := cx.scratch.(sessionSeed := None);
    p := Planned(None, session, turns, seed);
    if cx.durable != [] {
      p, list := ResumePlan(cx, pre, s, p);
    } else {
      p, list := AuthorPlan(cx, pre, s, task, p);
    }
  }

  /** Planning ended the node. */
  method StopPlanning(cx: ExecutionContext, ghost pre: Moment, s: Strategy, task: TaskSpec, p: Planned)
    returns (out: Outcome)
    requires PlanReady(cx, pre, s, p) && p.stop.Some? && task == pre.scratch.task
    modifies cx`scratch
    ensures Quits(cx, pre, s, out) && cx.scratch.terminal.Some? && Tries(cx.log) <= cx.harness.planEmptyRetries + 1
  {
    hide Validate, Terminal, ChainMax, Storable, Contained, RalphFree;
    OpenHandsNothing(s, cx.harness.mode, cx.log);
    RehomedIsHomed(p.stop.value, task);
    out := cx.Finish(task, p.stop.value);
  }

  /**
   Runs the planner, again when it produced no task, until a list can be walked;
   at most once more than the retries allow. Only the first attempt gets the seed.
   */
  method AuthorPlan(cx: ExecutionContext, ghost pre: Moment, s: Strategy, task: TaskSpec, p0: Planned)
    returns (p: Planned, list: TaskList)
    requires PlanReady(cx, pre, s, p0) && p0.stop.None? && task == pre.scratch.task && Tries(cx.log) == 0
    modifies cx
    ensures PlanReady(cx, pre, s, p) && fresh(list)
    ensures p.stop.None? ==> Walkable(cx, list) && list.tasks != [] && p.seed.None?
    ensures 1 <= Tries(cx.log) <= cx.harness.planEmptyRetries + 1
    decreases Height(s), 4
  {
    hide Open, Admitted, Runs, Tries;
    p := p0;
    var retries: U32 := 0;
    list := LoadList([]);
    while true
      invariant PlanReady(cx, pre, s, p) && p.stop.None? && fresh(list)
      invariant Tries(cx.log) == retries <= cx.harness.planEmptyRetries
      decreases cx.harness.planEmptyRetries - retries
    {
      var planned;
      p, list, planned := PlanOnce(cx, pre, s, task, p, retries > 0);
      if p.stop.Some? {
        return;
      }
      if list.tasks != [] {
        var cyclic := list.HasCycle();
        if cyclic {
          p := p.(stop := Some(Failure(TaskGraphCycle, p.turns, [])));
          return;
        }
        cx.durable := list.tasks;
        Reconcile(list, cx.durable);
        return;
      }
      if retries == cx.harness.planEmptyRetries {
        p := p.(stop := Some(Failure(EmptyPlan, p.turns, [])));
        return;
      }
      retries := retries + 1;
      p := p.(session := planned + [UserText("the plan held no task")]);
    }
  }

  /** One more attempt is on the log, and nothing else. */
  lemma TriedReads(s: Strategy, mode: EscalationMode, log: Log)
    requires Open(s, log)
    ensures var after := log + [PlanTried];
      && Open(s, after) && Tries(after) == Tries(log) + 1
      && Admitted(after) == Admitted(log) && Runs(after) == Runs(log)
  {
    AppendEvent(log, PlanTried);
    LastDecides(s, mode, log, PlanTried);
  }

  /**
   One run of the planner. A resumed planning phase continues on the seed. The
   list comes from the durable store, or failing that from the plan's steps; a plan
   that cannot be captured ends the node.
   */
  method PlanOnce(cx: ExecutionContext, ghost pre: Moment, s: Strategy, task: TaskSpec, p0: Planned, forced: bool)
    returns (p: Planned, list: TaskList, planned: Session)
    requires PlanReady(cx, pre, s, p0) && p0.stop.None? && task == pre.scratch.task
    requires Tries(cx.log) <= cx.harness.planEmptyRetries
    modifies cx
    ensures PlanReady(cx, pre, s, p) && fresh(list) && Storable(list.tasks)
    ensures p.stop.None? ==> p.seed.None? && (cx.durable != [] ==> list.tasks == cx.durable)
    ensures Tries(cx.log) == old(Tries(cx.log)) + 1
    decreases Height(s), 2
  {
    hide Open, Admitted, Runs, Tries;
    TriedReads(s, cx.harness.mode, cx.log);
    cx.log := cx.log + [PlanTried];
    list := LoadList([]);
    planned := [];
    p := p0.(seed := None);
    var planSession := p0.session;
    if p0.seed.Some? {
      planSession := p0.seed.value;
      cx.tally := cx.tally.(seededSessions := cx.tally.seededSessions + 1);
    }
    var planTask := TaskSpec("plan: " + task.instruction, task.maxTurns, s.plan);
    var r := RunPlanSubtree(cx, s.plan, planTask, planSession + [UserText(planTask.instruction)], p0.turns, forced);
    if r.None? {
      p := p.(stop := Some(Failure(PlanPhaseFailed, p0.turns, [])));
    } else if r.value.Success? || (r.value.Escalated? && r.value.signal == PlanRecorded) {
      var captured := Decide();
      if !captured {
        p := p.(stop := Some(Failure(PlanPhaseFailed, r.value.turns, [])));
        return;
      }
      p := p.(turns := r.value.turns);
      planned := if r.value.Success? then r.value.session else [];
      if cx.durable != [] {
        list := LoadList(cx.durable);
      } else {
        var steps: seq<string> := *;
        list := ListSteps(steps);
      }
    } else {
      p := p.(stop := r);
    }
  }

  /** Runs the planner in a context of its own; its tools may author the durable list. */
  method RunPlanSubtree(cx: ExecutionContext, plan: Strategy, planTask: TaskSpec, session: Session,
                        turns: U32, forced: bool)
    returns (r: Option<RunResult>)
    requires planTask.tree == plan && Storable(cx.durable)
    modifies cx`durable, cx`fuel, cx`tally
    ensures Storable(cx.durable) && cx.fuel <= old(cx.fuel)
    ensures cx.tally == old(cx.tally).(misses := cx.tally.misses)
    ensures Strategies.Valid(cx.registry, plan) ==> cx.tally == old(cx.tally)
    ensures r.Some? && RalphFree(plan) ==> TurnsCapped(planTask, turns, r.value.Reached())
    decreases Height(plan), 8
  {
    hide Tells;
    var sub := new ExecutionContext(cx.registry, cx.harness, if forced then Some(PLAN_SCHEMA) else None,
                                    Scratch(planTask, session, turns, None, None, None, false), cx.durable, cx.fuel);
    ghost var segment;
    var out;
    out, segment := Run(sub, plan);
    r := sub.TakeChildOverride();
    cx.durable := StoreWrites();
    cx.fuel := sub.fuel;
    cx.tally := cx.tally.(misses := cx.tally.misses + sub.tally.misses);
  }

  /**
   Takes up the stalled task of a resumed run, then walks the list to its end or to
   a pause. A drained walk reports the promised partition when the reset takes
   effect, or when the starting scope cannot be refilled. A pause in a task carries
   the conversation the task's child left behind.
   */
  method ExecutePlan(cx: ExecutionContext, ghost pre: Moment, s: Strategy, task: TaskSpec, list: TaskList, p: Planned)
    returns (out: Outcome, ghost walk: PlanWalk, ghost exit: WalkExit, ghost g: Segment)
    requires PlanReady(cx, pre, s, p) && task == pre.scratch.task && Walkable(cx, list)
    modifies cx, list
    ensures Quits(cx, pre, s, out) && Tries(cx.log) <= cx.harness.planEmptyRetries + 1
    ensures exit.Ended? ==> out == OutcomeOf(exit.result) && cx.scratch.terminal == Some(Rehomed(exit.result, task))
    ensures Amounts(walk, g, cx.durable)
    ensures g.before == old(list.tasks) && g.seed == p.seed && g.base == p.session
    ensures g.left == LastLeft(cx.log) && |g.ran| == Runs(cx.log)
    ensures g.active.Some? ==> cx.scratch.terminal.Some? && CarriesOn(cx.scratch.terminal.value, g.left)
    ensures walk.requeued <= StartRefills(pre.scratch, s, cx.harness.mode) && walk.resetTakes == cx.harness.resetTakes
    ensures DrainedWell(cx.harness, walk, exit, StartRefills(pre.scratch, s, cx.harness.mode))
    ensures Quiet(cx.harness, s.execute) ==> SegmentHolds(walk, exit, g)
    decreases Height(s), 5
  {
    hide PlanWalk.Valid, PlanWalk.Kept, Walking, Walked, Quits, Open, Admitted, Runs, LastLeft, Tries, DrainedWell;
    hide WalkReport, Ordered, ResetStalled, Stalled, RalphFree, PlanExecuteFree, StartRefills, Refills, Feeds, HandsUp;
    hide SegmentHolds, CarriesOn;
    var stalled, seed := TakeUpStalled(list, p.seed);
    var walker := new PlanWalk(list, cx.harness.resetTakes);
    walk := walker;
    var scope := EnterWalk(cx, pre, s, task, p.turns, p.seed, seed);
    ghost var f, talks, held := Feeding(stalled, seed, p.session), [], None;
    var left;
    left, talks, held := WalkTasks(cx, pre, s, scope, walker, task, p.session, stalled, f, FreshCarry(p.turns, seed));
    exit := left;
    g := Segment(old(list.tasks), cx.durable, walk.ran, talks, p.session, p.seed, walk.active, LastLeft(cx.log));
    ExplainExit(cx.harness, cx.durable, s, walk, exit, StartRefills(pre.scratch, s, cx.harness.mode), g, held);
    out := LeaveWalk(cx, pre, s, task, left);
    if g.active.Some? {
      RehomedCarries(exit.result, task, g.left);
    }
  }

  lemma RehomedCarries(r: RunResult, parent: TaskSpec, left: Session)
    requires CarriesOn(r, left)
    ensures CarriesOn(Rehomed(r, parent), left)
  {
  }

  /** Drains the ready set. */
  method WalkTasks(cx: ExecutionContext, ghost pre: Moment, s: Strategy, scope: BudgetContext, walk: PlanWalk,
                   task: TaskSpec, session: Session, stalled: Option<U32>, ghost f: Feeding, c0: Carry)
    returns (exit: WalkExit, ghost talks: seq<Session>, ghost held: Option<Session>)
    requires Walking(cx, pre, s, scope, c0) && task == pre.scratch.task
    requires walk.Valid() && walk.active.None? && walk.ran == [] && walk.requeued == 0
    requires walk.resetTakes == cx.harness.resetTakes
    requires f == Feeding(stalled, c0.seed, session) && c0.seed.Some? == stalled.Some? && Runs(cx.log) == 0
    modifies cx, scope, walk, walk.list
    ensures Walked(cx, pre, s, exit) && Runs(cx.log) == |walk.ran|
    ensures WalkReport(cx.harness, cx.durable, s, walk, exit, old(Refills(scope.State(), cx.harness.mode)),
                       LastLeft(cx.log))
    ensures walk.ran == [] ==> cx.durable == old(cx.durable)
    ensures Feeds(f, walk.ran, talks, held)
    decreases Height(s), 4
  {
    hide PlanWalk.Valid, PlanWalk.Kept, Walking, Walked, WalkReport, Pendings, Refills, Feeds, Runs, LastLeft;
    var c := c0;
    ghost var refills := Refills(scope.State(), cx.harness.mode);
    talks, held := [], c0.seed;
    NothingFed(f);
    while true
      invariant BetweenTasks(cx, pre, s, scope, walk, c, refills, old(cx.durable))
      invariant Feeds(f, walk.ran, talks, c.seed)
      decreases Refills(scope.State(), cx.harness.mode), Pendings(walk.list.tasks)
    {
      var left;
      left, c, talks := WalkOne(cx, pre, s, scope, walk, task, session, stalled, c, refills, old(cx.durable), f, talks);
      if left.Some? {
        return left.value, talks, c.seed;
      }
    }
  }

  /** Picks and executes one task, or drains. */
  method WalkOne(cx: ExecutionContext, ghost pre: Moment, s: Strategy, scope: BudgetContext, walk: PlanWalk,
                 task: TaskSpec, session: Session, stalled: Option<U32>, c0: Carry,
                 ghost refills: nat, ghost durable0: seq<Item>, ghost f: Feeding, ghost talks0: seq<Session>)
    returns (left: Option<WalkExit>, c: Carry, ghost talks: seq<Session>)
    requires BetweenTasks(cx, pre, s, scope, walk, c0, refills, durable0) && task == pre.scratch.task
    requires Feeds(f, walk.ran, talks0, c0.seed) && f.stalled == stalled && f.base == session
    requires f.seed.Some? == stalled.Some?
    modifies cx, scope, walk, walk.list
    ensures left.None? ==> BetweenTasks(cx, pre, s, scope, walk, c, refills, durable0)
    ensures left.None? ==> Advances(old(scope.State()), old(Pendings(walk.list.tasks)), scope.State(),
                                    Pendings(walk.list.tasks), cx.harness.mode)
    ensures left.Some? ==>
              && Walked(cx, pre, s, left.value) && Runs(cx.log) == |walk.ran|
              && WalkReport(cx.harness, cx.durable, s, walk, left.value, refills, LastLeft(cx.log))
    ensures walk.ran == [] ==> cx.durable == durable0
    ensures Feeds(f, walk.ran, talks, c.seed)
    decreases Height(s), 3
  {
    hide PlanWalk.Valid, Traced, Storable, KeepsCompleted, NoneReady, Reports, WithStatus, LeastReady, Pendings;
    hide Refills, Terminal, RalphFree, PlanExecuteFree, Validate, Feeds, InChain, Within, TurnsCapped;
    hide Open, Funded, Paid, HandsUp, Runs, LastLeft, CarriesOn;
    c, talks := c0, talks0;
    var next := walk.Start();
    WalkKeeps(walk);
    if next.None? {
      LeftOpen(pre, s, cx.log, scope.State(), cx.harness.mode);
      cx.PopBudget();
      var r := Drain(walk, c);
      return Some(Ended(r, true)), c, talks;
    }
    cx.durable := walk.list.tasks;
    left, c, talks := WalkStep(cx, pre, s, scope, walk, next.value, task, session, stalled, c, f, talks);
  }

  /** The answer of a plan's child, read off the log. */
  lemma ChildReads(pre: Moment, s: Strategy, log: Log, scope: Scope, mode: EscalationMode, e: Event)
    requires s.PlanExecute? && Open(s, log) && Funded(pre, s, log, scope, mode) && e.ChildEnded?
    ensures var after := log + [e];
      && Open(s, after) && Funded(pre, s, after, scope, mode)
      && Runs(after) == Runs(log) + 1 && Tries(after) == Tries(log) && LastLeft(after) == e.left
  {
    hide Funded;
    OtherFunds(pre, s, log, scope, mode, e);
    LastDecides(s, mode, log, e);
    AppendEvent(log, e);
  }

  /** Runs the execute child once; what it was spent on or answered, with the conversation it left behind. */
  method RunStep(cx: ExecutionContext, ghost pre: Moment, s: Strategy, scope: BudgetContext, task: TaskSpec,
                 instruction: string, step: Session, c: Carry)
    returns (out: Outcome, result: Option<RunResult>)
    requires Walking(cx, pre, s, scope, c) && task == pre.scratch.task
    modifies cx
    ensures Walking(cx, pre, s, scope, c) && Runs(cx.log) == old(Runs(cx.log)) + 1
    ensures out.Exhausted? ==> cx.scratch.session == LastLeft(cx.log)
    ensures out.Exhausted? && RalphFree(s) && !cx.harness.mode.AutoContinue? ==>
              TurnsCapped(task, pre.scratch.turns, out.signal.stepsTaken)
    ensures result.Some? && RalphFree(s) ==> TurnsCapped(task, pre.scratch.turns, result.value.Reached())
    ensures result.Some? && !result.value.Terminal() ==> result.value.state.session == LastLeft(cx.log)
    ensures Quiet(cx.harness, s.execute) ==> cx.durable == old(cx.durable)
    decreases Height(s), 1
  {
    hide Storable, Terminal, ChainMax, Spills, Contained, Within, InChain, Open, Funded, Paid, Runs, LastLeft, Tries;
    ghost var log0 := cx.log;
    out := RunChild(cx, s.execute, TaskSpec(instruction, task.maxTurns, s.execute), step, c.turns);
    ChildReads(pre, s, log0, scope.State(), cx.harness.mode, ChildEnded(out, LeftBehind(cx.scratch)));
    result := None;
    if !out.Exhausted? {
      result := cx.TakeChildOverride();
    }
  }

  /** Runs the execute child once for the active task, on the conversation the task should get. */
  method WalkStep(cx: ExecutionContext, ghost pre: Moment, s: Strategy, scope: BudgetContext, walk: PlanWalk, id: U32,
                  task: TaskSpec, session: Session, stalled: Option<U32>, c0: Carry,
                  ghost f: Feeding, ghost talks0: seq<Session>)
    returns (left: Option<WalkExit>, c: Carry, ghost talks: seq<Session>)
    requires Walking(cx, pre, s, scope, c0) && task == pre.scratch.task
    requires walk.Valid() && walk.active == Some(id) && cx.durable == walk.list.tasks
    requires walk.ran != [] && walk.ran[|walk.ran| - 1] == id
    requires Feeds(f, walk.ran[..|walk.ran| - 1], talks0, c0.seed) && f.stalled == stalled && f.base == session
    requires f.seed.Some? == stalled.Some?
    modifies cx, scope, walk, walk.list
    ensures Stepped(cx, pre, s, scope, walk, left, c) && Runs(cx.log) == old(Runs(cx.log)) + 1
    ensures Feeds(f, walk.ran, talks, c.seed)
    decreases Height(s), 2
  {
    hide PlanWalk.Valid, PlanWalk.Kept, Storable, Terminal, ChainMax, Pendings, Feeds, PlanExecuteFree, RalphFree;
    hide Advanced, Walking, Walked, WithStatus, IsCompleted, EscalatesTo, Logged, Fits, Refills;
    hide Runs, LastLeft, Tries, CarriesOn, TurnsCapped;
    var instruction, step, out, result;
    ghost var rewritten;
    instruction, step, c, talks, rewritten := PrepareStep(cx, pre, s, scope, walk, id, session, stalled, c0, f, talks0);
    out, result := RunStep(cx, pre, s, scope, task, instruction, step, c);
    if out.Exhausted? {
      left := OnExhausted(cx, pre, s, scope, walk, id, task, session, out.signal.stepsTaken, c);
    } else {
      TurnsCarried(cx, pre, s, scope, c);
      var r := if result.Some? then result.value else Failure(PlanPhaseFailed, c.turns, []);
      left, c := OnResult(cx, pre, s, scope, walk, id, task, r, c);
    }
  }

  /** The turns a walk carries are capped. */
  lemma TurnsCarried(cx: ExecutionContext, pre: Moment, s: Strategy, scope: BudgetContext, c: Carry)
    requires Walking(cx, pre, s, scope, c)
    ensures RalphFree(s) ==> TurnsCapped(pre.scratch.task, pre.scratch.turns, c.turns)
  {
  }

  // ---------------------------------------------------------------------------
  // Build and evaluate, and climbs: what they have in common
  // ---------------------------------------------------------------------------

  /**
   Runs the inner strategy. Its exhaustion is propagated as the node's own scope, which
   it never touched; otherwise its result, if it left one, is taken over.
   */
  method RunInner(cx: ExecutionContext, ghost pre: Moment, s: Strategy, scope: BudgetContext, task: TaskSpec,
                  session: Session, carried: U32)
    returns (spent: Option<Outcome>, result: Option<RunResult>)
    requires Inside(cx, pre, s, scope, carried) && task == pre.scratch.task
    modifies cx
    ensures spent.Some? ==>
              && Quits(cx, pre, s, spent.value) && spent.value.Exhausted? && spent.value.hasPartial
              && spent.value.signal == old(SignalOf(scope.State())) && cx.scratch.terminal.None?
    ensures spent.None? ==> Inside(cx, pre, s, scope, carried)
    ensures result.Some? && RalphFree(s) ==> TurnsCapped(task, pre.scratch.turns, result.value.Reached())
    ensures RanOnce(old(cx.log), cx.log, spent.Some?)
    ensures Spills(cx.registry, cx.harness, s.inner, carried) ==> spent.Some?
    ensures cx.fuel <= old(cx.fuel)
    decreases Height(s), 1
  {
    hide Storable, Terminal, ChainMax, Finite, Capacity, Spills, Open, Funded, Paid, HandsUp, Within, InChain;
    spent, result := None, None;
    ghost var log0, state := cx.log, scope.State();
    var out := RunChild(cx, s.inner, task, session, carried);
    ghost var e := ChildEnded(out, LeftBehind(cx.scratch));
    OtherFunds(pre, s, log0, state, cx.harness.mode, e);
    FundedIsPaid(pre, s, cx.log, state, cx.harness.mode);
    LastDecides(s, cx.harness.mode, log0, e);
    if out.Exhausted? {
      out := PropagateSpent(cx, pre, s, scope, task, carried, e, log0);
      spent := Some(out);
    } else {
      result := cx.TakeChildOverride();
    }
  }

  // ---------------------------------------------------------------------------
  // Build and evaluate
  // ---------------------------------------------------------------------------

  /**
   Succeeds exactly when the verifier accepts; it is asked again only after it
   rejected, and at most as often as it allows. The turns of the builds and the
   evaluations, as far as the scope admitted them, total at most its capacity. An
   exhaustion leaves the node when a build was spent, or by its own scope's chain.
   */
  method RunSelfVerifying(cx: ExecutionContext, s: Strategy) returns (out: Outcome)
    requires cx.Ready(s) && s.SelfVerifying?
    modifies cx
    ensures Quits(cx, old(cx.Now()), s, out)
    ensures RoundsHold(cx.harness.verifierLimit(s.verifier), cx.log, out.Complete?)
    ensures Spills(cx.registry, cx.harness, s, old(cx.scratch.turns)) ==> out.Exhausted?
    decreases Height(s), 6
  {
    hide Contained, Validate, RalphFree, PlanExecuteFree, Terminal, ChainMax, HandsUp;
    ghost var pre := cx.Now();
    var task, carried := cx.scratch.task, cx.scratch.turns;
    var session := TakeBuildSession(cx);
    var missing := ResolveEvaluators(cx, s);
    if missing.Some? {
      OpenHandsNothing(s, cx.harness.mode, cx.log);
      RehomedIsHomed(missing.value, task);
      out := cx.Finish(task, missing.value);
      return;
    }
    var scope := cx.PushBudget(TaskPolicy(task), s.behavior, "self_verifying");
    out := BuildRounds(cx, pre, s, scope, task, session, carried);
  }

  /** At most as many rounds as the verifier allows. */
  method BuildRounds(cx: ExecutionContext, ghost pre: Moment, s: Strategy, scope: BudgetContext, task: TaskSpec,
                     session0: Session, carried0: U32)
    returns (out: Outcome)
    requires Inside(cx, pre, s, scope, carried0) && task == pre.scratch.task && s.SelfVerifying? && cx.log == []
    modifies cx, scope
    ensures Quits(cx, pre, s, out)
    ensures RoundsHold(cx.harness.verifierLimit(s.verifier), cx.log, out.Complete?)
    ensures Spills(cx.registry, cx.harness, s.inner, carried0) && cx.harness.verifierLimit(s.verifier) > 0 ==>
              out.Exhausted?
    decreases Height(s), 5
  {
    hide Inside, Quits, Spills;
    var limit := cx.harness.verifierLimit(s.verifier);
    var session, carried, verdict := session0, carried0, "";
    for iteration := 0 to limit
      invariant Inside(cx, pre, s, scope, carried)
      invariant AcceptedLast(Verdicts(cx.log), false) && |Verdicts(cx.log)| <= Runs(cx.log) <= iteration
      invariant Spills(cx.registry, cx.harness, s.inner, carried0) ==> iteration == 0 && carried == carried0
    {
      var done, built;
      done, built, session, carried := BuildPhase(cx, pre, s, scope, task, session, carried);
      if done.Some? {
        return done.value;
      }
      if built.Some? {
        var reason;
        ghost var log1, asked := cx.log, None;
        done, reason, carried, asked := VerifyPhase(cx, pre, s, scope, task, built.value, session, carried);
        JudgedReads(task, log1, cx.log, asked);
        if done.Some? {
          return done.value;
        }
        if reason.Some? {
          verdict, session := reason.value, session + [UserText(reason.value)];
        }
      }
    }
    Carried(cx, pre, s, scope, carried, Failure(SelfVerifyExhausted(limit, verdict), carried, session));
    out := Conclude(cx, pre, s, scope, task, Failure(SelfVerifyExhausted(limit, verdict), carried, session));
  }

  /**
   Runs the inner strategy and charges its turns. Without an outcome, either the
   build result is to be verified, or the refreshed scope asks for another round.
   */
  method BuildPhase(cx: ExecutionContext, ghost pre: Moment, s: Strategy, scope: BudgetContext, task: TaskSpec,
                    session0: Session, carried0: U32)
    returns (done: Option<Outcome>, built: Option<RunResult>, session: Session, carried: U32)
    requires Inside(cx, pre, s, scope, carried0) && task == pre.scratch.task && s.SelfVerifying?
    modifies cx, scope
    ensures done.Some? ==> Quits(cx, pre, s, done.value) && !done.value.Complete?
    ensures done.None? ==> Inside(cx, pre, s, scope, carried)
    ensures built.Some? ==> done.None? && built.value.Terminal() && built.value.turns <= carried
    ensures carried >= carried0
    ensures Runs(cx.log) == old(Runs(cx.log)) + 1 && Verdicts(cx.log) == old(Verdicts(cx.log))
    ensures Spills(cx.registry, cx.harness, s.inner, carried0) ==> done.Some? && done.value.Exhausted?
    decreases Height(s), 2
  {
    hide Inside, Quits, Spills, TurnsCapped, RalphFree, Runs, Verdicts;
    session, carried, built := session0, carried0, None;
    var result;
    done, result := RunInner(cx, pre, s, scope, task, session, carried);
    RunReads(old(cx.log), cx.log, done.Some?);
    if done.None? {
      var r := if result.Some? then result.value else Failure(SelfVerifyMisconfigured, carried, session);
      Reported(cx, pre, s, scope, carried);
      done, built, session, carried := OnBuilt(cx, pre, s, scope, task, r, session, carried);
    }
  }

  // ---------------------------------------------------------------------------
  // Context windows
  // ---------------------------------------------------------------------------

  /** Runs at most the allowed number of windows, and succeeds exactly when the last one left the work complete. */
  method RunRalph(cx: ExecutionContext, s: Strategy) returns (out: Outcome)
    requires cx.Ready(s) && s.Ralph?
    modifies cx
    ensures Ran(old(cx.Now()), cx.Now(), s, Given(cx, s), out)
    ensures !out.Exhausted? && WindowsHold(cx.harness.ralphMaxResets, cx.log, out.Complete?)
    decreases Height(s), 6
  {
    ghost var pre := cx.Now();
    var task := cx.scratch.task;
    var _ := cx.TakeSession();
    var inner := WindowTree(s.inner, s.agent);
    if s.agent != "" && Strategies.Valid(cx.registry, s) {
      FillKeepsValid(cx.registry, s.inner, s.agent);
    }
    out := Windows(cx, pre, s, inner, task);
  }

  /** What holds between two windows of a Ralph node. */
  ghost predicate BetweenWindows(cx: ExecutionContext, pre: Moment, s: Strategy)
    reads cx
  {
    && s.Ralph?
    && cx.budgets == pre.budgets && cx.scratch.terminal.None?
    && Progress(pre, cx.Now(), Given(cx, s))
  }

  /** Leaves a Ralph node with its own result, or a child's pause. */
  method LeaveWindows(cx: ExecutionContext, ghost pre: Moment, s: Strategy, task: TaskSpec, r: RunResult)
    returns (out: Outcome)
    requires BetweenWindows(cx, pre, s) && task == pre.scratch.task && ResultOf(s, r)
    modifies cx`scratch
    ensures Ran(pre, cx.Now(), s, Given(cx, s), out) && out == OutcomeOf(r)
  {
    hide Storable, Contained, PlanExecuteFree, Validate;
    RehomedIsHomed(r, task);
    out := cx.Finish(task, r);
  }

  lemma NothingChecked()
    ensures Completions([]) == [] && Runs([]) == 0
  {
  }

  method Windows(cx: ExecutionContext, ghost pre: Moment, s: Strategy, inner: Strategy, task: TaskSpec)
    returns (out: Outcome)
    requires BetweenWindows(cx, pre, s) && s.Ralph? && task == pre.scratch.task && cx.log == []
    requires Height(inner) < Height(s) && PlanExecuteFree(inner) == PlanExecuteFree(s)
    requires Strategies.Valid(cx.registry, s) ==> Strategies.Valid(cx.registry, inner)
    modifies cx
    ensures Ran(pre, cx.Now(), s, Given(cx, s), out)
    ensures !out.Exhausted? && WindowsHold(cx.harness.ralphMaxResets, cx.log, out.Complete?)
    decreases Height(s), 5
  {
    hide Ran, BetweenWindows, RanOnce, PlanExecuteFree, Validate, FoldTurns, Completions, Runs, WrappingAdd;
    NothingChecked();
    var cumulative: U32, last: Session := 0, [];
    for window := 0 to cx.harness.ralphMaxResets
      invariant BetweenWindows(cx, pre, s)
      invariant AcceptedLast(Completions(cx.log), false) && |Completions(cx.log)| <= Runs(cx.log) <= window
    {
      var r;
      ghost var spent, log0 := false, cx.log;
      r, spent := RunOneWindow(cx, pre, s, inner, task, window + 1);
      RunReads(log0, cx.log, spent);
      // A window that ran out of budget is incomplete: the next one starts afresh.
      if r.Some? {
        cumulative := WrappingAdd(cumulative, FoldTurns(0, r.value));
        if !r.value.Terminal() {
          out := LeaveWindows(cx, pre, s, task, r.value);
          return;
        }
        last := r.value.session;
        var complete := LookAtWork(cx, pre, s);
        if complete {
          var output, kept := if r.value.Success? then r.value.output else "", if r.value.Success? then last else [];
          out := LeaveWindows(cx, pre, s, task, Success(output, cumulative, kept));
          return;
        }
      }
    }
    out := LeaveWindows(cx, pre, s, task, Failure(RalphCompletionUnmet(cx.harness.ralphMaxResets), cumulative, last));
  }

  /** The check changes nothing but the log. */
  method LookAtWork(cx: ExecutionContext, ghost pre: Moment, s: Strategy) returns (complete: bool)
    requires BetweenWindows(cx, pre, s)
    modifies cx`log
    ensures BetweenWindows(cx, pre, s) && cx.log == old(cx.log) + [Completion(complete)]
    ensures Completions(cx.log) == old(Completions(cx.log)) + [complete] && Runs(cx.log) == old(Runs(cx.log))
  {
    complete := cx.CheckCompletion();
    AppendEvent(old(cx.log), Completion(complete));
  }

  /**
   One fresh window; nothing when its budget ran out. A later window has a session
   of its own, and with it, unless the store is pinned, a task list of its own.
   */
  method RunOneWindow(cx: ExecutionContext, ghost pre: Moment, s: Strategy, inner: Strategy, task: TaskSpec,
                      number: U32)
    returns (r: Option<RunResult>, ghost spent: bool)
    requires BetweenWindows(cx, pre, s) && task == pre.scratch.task
    requires Height(inner) < Height(s) && PlanExecuteFree(inner) == PlanExecuteFree(s)
    requires Strategies.Valid(cx.registry, s) ==> Strategies.Valid(cx.registry, inner)
    modifies cx
    ensures BetweenWindows(cx, pre, s)
    ensures RanOnce(old(cx.log), cx.log, spent) && (r.None? <==> spent)
    ensures number > 1 && !cx.harness.pinnedStore ==> cx.durable == old(cx.durable)
    decreases Height(s), 2
  {
    hide Terminal, RalphFree, PlanExecuteFree, Validate, Contained, Spills, TurnsCapped, FromChain;
    var list := cx.durable;
    if number > 1 && !cx.harness.pinnedStore {
      cx.durable := [];
    }
    var ran := RunChild(cx, inner, task, [UserText(task.instruction)], 0);
    spent := ran.Exhausted?;
    if number > 1 && !cx.harness.pinnedStore {
      cx.durable := list;
    }
    var unmet := Failure(RalphCompletionUnmet(number), 0, []);
    r := cx.TakeChildOverride();
    if !ran.Exhausted? && r.None? {
      r := Some(unmet);
    }
  }

  // ---------------------------------------------------------------------------
  // Climbs
  // ---------------------------------------------------------------------------

  /** The iterations number at most the unit charges the scope admits. */
  method RunHillClimbing(cx: ExecutionContext, s: Strategy) returns (out: Outcome)
    requires cx.Ready(s) && s.HillClimbing?
    modifies cx
    ensures Quits(cx, old(cx.Now()), s, out) && UnitClimb(cx.log)
    ensures var start := StartScope(old(cx.scratch), s);
      Finite(start, cx.harness.mode) ==> Runs(cx.log) <= UnitCharges(start, cx.harness.mode)
    decreases Height(s), 6
  {
    hide Contained, RalphFree, PlanExecuteFree, Terminal, ChainMax, HandsUp, UnitCharges;
    ghost var pre := cx.Now();
    var task, carried := cx.scratch.task, cx.scratch.turns;
    var _ := cx.TakeSession();
    var found := cx.Resolve(MetricHandle, s.metric);
    if !found {
      OpenHandsNothing(s, cx.harness.mode, cx.log);
      out := cx.Finish(task, Failure(HillClimbingMisconfigured, 0, []));
      return;
    }
    var scope := cx.PushBudget(TaskPolicy(task), s.behavior, "hill_climbing");
    var measured := Decide();
    if !measured {
      out := Conclude(cx, pre, s, scope, task, Failure(HillClimbingMisconfigured, carried, []));
    } else {
      out := Climb(cx, pre, s, scope, task, carried);
    }
    if Finite(StartScope(pre.scratch, s), cx.harness.mode) {
      ExactCapacity(StartScope(pre.scratch, s), cx.harness.mode);
    }
  }

  /** A climb whose scope is spent and cannot be refilled ends at once, as the last word of its chain says. */
  method Climb(cx: ExecutionContext, ghost pre: Moment, s: Strategy, scope: BudgetContext, task: TaskSpec,
               carried0: U32)
    returns (out: Outcome)
    requires Inside(cx, pre, s, scope, carried0) && task == pre.scratch.task && s.HillClimbing?
    requires UnitClimb(cx.log)
    modifies cx, scope
    ensures Quits(cx, pre, s, out) && UnitClimb(cx.log)
    ensures old(!Fits(scope.State(), 1) && !CanRefill(scope.State(), cx.harness.mode)) ==>
              (out.Exhausted?
               <==> !(old(Terminal(scope.behavior)) == ResolveEscalate && cx.harness.mode.SurfaceToHuman?))
    decreases Height(s), 5
  {
    hide Refills, Inside, Quits, UnitClimb, Terminal, Fits;
    ghost var mode, spent := cx.harness.mode, !Fits(scope.State(), 1) && !CanRefill(scope.State(), cx.harness.mode);
    var carried, stagnation: U32 := carried0, 0;
    while true
      invariant Inside(cx, pre, s, scope, carried) && UnitClimb(cx.log)
      invariant spent ==> scope.State() == old(scope.State())
      decreases Refills(scope.State(), mode), Spare(scope.State(), cx.fuel)
    {
      var done;
      done, carried, stagnation := ClimbStep(cx, pre, s, scope, task, carried, stagnation);
      if done.Some? {
        return done.value;
      }
    }
  }

  /** One charge and, when it is admitted, one iteration. */
  method ClimbStep(cx: ExecutionContext, ghost pre: Moment, s: Strategy, scope: BudgetContext, task: TaskSpec,
                   carried0: U32, stagnation0: U32)
    returns (done: Option<Outcome>, carried: U32, stagnation: U32)
    requires Inside(cx, pre, s, scope, carried0) && task == pre.scratch.task && s.HillClimbing?
    requires UnitClimb(cx.log)
    modifies cx, scope
    ensures done.Some? ==> Quits(cx, pre, s, done.value)
    ensures done.None? ==> Inside(cx, pre, s, scope, carried)
    ensures done.None? ==> Climbed(old(scope.State()), old(cx.fuel), scope.State(), cx.fuel, cx.harness.mode)
    ensures UnitClimb(cx.log)
    ensures old(!Fits(scope.State(), 1) && !CanRefill(scope.State(), cx.harness.mode)) ==>
              && done.Some?
              && (done.value.Exhausted?
                  <==> !(old(Terminal(scope.behavior)) == ResolveEscalate && cx.harness.mode.SurfaceToHuman?))
    decreases Height(s), 4
  {
    hide Storable, Terminal, RalphFree, PlanExecuteFree, Validate, Inside, Quits, UnitClimb;
    carried, stagnation := carried0, stagnation0;
    ghost var before, fuel0, log0 := scope.State(), cx.fuel, cx.log;
    if scope.policy.Unlimited? || scope.policy.value == U32_MAX {
      if cx.fuel == 0 {
        var cut := Escalated(OtherSignal, PausedState([], [], [], task, carried, carried), carried);
        Carried(cx, pre, s, scope, carried, cut);
        var out := Conclude(cx, pre, s, scope, task, cut);
        return Some(out), carried, stagnation;
      }
      BurnFuel(cx, pre, s, scope, carried);
    }
    var admitted;
    ghost var answer;
    done, admitted, answer := ChargeTurns(cx, pre, s, scope, task, 1, carried, []);
    UnitCharged(log0, answer);
    if admitted {
      ghost var log1 := cx.log;
      done, carried, stagnation := Iterate(cx, pre, s, scope, task, carried, stagnation);
      ProceedClimbs(before, fuel0, cx.fuel, cx.harness.mode);
      UnitIterated(log1, cx.log, done.Some? && done.value.Exhausted?);
    }
  }

  /** An uncapped climb uses up fuel. */
  method BurnFuel(cx: ExecutionContext, ghost pre: Moment, s: Strategy, scope: BudgetContext, ghost carried: U32)
    requires Inside(cx, pre, s, scope, carried) && cx.fuel > 0
    modifies cx`fuel
    ensures Inside(cx, pre, s, scope, carried) && cx.fuel == old(cx.fuel) - 1
  {
    hide Open, Funded, InChain, Within;
    cx.fuel := cx.fuel - 1;
  }

  /**
   The turn gate, the inner run, and the metric. At the task's turn cap nothing is
   run; an iteration that did not improve counts, and a climb that stopped improving
   for long enough halts.
   */
  method Iterate(cx: ExecutionContext, ghost pre: Moment, s: Strategy, scope: BudgetContext, task: TaskSpec,
                 carried0: U32, stagnation0: U32)
    returns (done: Option<Outcome>, carried: U32, stagnation: U32)
    requires Inside(cx, pre, s, scope, carried0) && task == pre.scratch.task && s.HillClimbing?
    modifies cx
    ensures done.Some? ==> Quits(cx, pre, s, done.value)
    ensures done.None? ==> Inside(cx, pre, s, scope, carried) && KeepsClimbing(s.maxStagnation, stagnation0, stagnation)
    ensures task.maxTurns.Some? && carried0 >= task.maxTurns.value ==>
              && done.Some? && cx.scratch.terminal == Some(Failure(BudgetExceeded(LimitTurns), carried0, []))
              && cx.durable == old(cx.durable) && cx.tally == old(cx.tally) && cx.log == old(cx.log)
    ensures done.Some? && cx.scratch.terminal.Some? ==>
              Stagnates(s.maxStagnation, stagnation0, cx.scratch.terminal.value)
    ensures cx.log == old(cx.log) || RanOnce(old(cx.log), cx.log, done.Some? && done.value.Exhausted?)
    ensures cx.fuel <= old(cx.fuel)
    decreases Height(s), 3
  {
    hide Inside, Quits;
    carried, stagnation, done := carried0, stagnation0, None;
    var limit := OtherLimit();
    if task.maxTurns.Some? && carried >= task.maxTurns.value {
      limit := Some(LimitTurns);
    }
    if limit.Some? {
      Carried(cx, pre, s, scope, carried, Failure(BudgetExceeded(limit.value), carried, []));
      var out := Conclude(cx, pre, s, scope, task, Failure(BudgetExceeded(limit.value), carried, []));
      return Some(out), carried, stagnation;
    }
    done, carried, stagnation := ClimbOnce(cx, pre, s, scope, task, carried, stagnation);
  }

  /** One inner run and one look at the metric. */
  method ClimbOnce(cx: ExecutionContext, ghost pre: Moment, s: Strategy, scope: BudgetContext, task: TaskSpec,
                   carried0: U32, stagnation0: U32)
    returns (done: Option<Outcome>, carried: U32, stagnation: U32)
    requires Inside(cx, pre, s, scope, carried0) && task == pre.scratch.task && s.HillClimbing?
    modifies cx
    ensures done.Some? ==> Quits(cx, pre, s, done.value)
    ensures done.None? ==> Inside(cx, pre, s, scope, carried) && KeepsClimbing(s.maxStagnation, stagnation0, stagnation)
    ensures done.Some? && cx.scratch.terminal.Some? ==>
              Stagnates(s.maxStagnation, stagnation0, cx.scratch.terminal.value)
    ensures RanOnce(old(cx.log), cx.log, done.Some? && done.value.Exhausted?)
    ensures Spills(cx.registry, cx.harness, s.inner, carried0) ==> done.Some? && done.value.Exhausted?
    ensures cx.fuel <= old(cx.fuel)
    decreases Height(s), 2
  {
    hide Inside, Quits, Spills, TurnsCapped, RalphFree;
    carried, stagnation := carried0, stagnation0;
    var result;
    done, result := RunInner(cx, pre, s, scope, task, [UserText(task.instruction)], carried);
    if done.Some? {
      return;
    }
    var r := if result.Some? then result.value else Failure(BudgetExceeded(LimitTurns), carried, []);
    Reported(cx, pre, s, scope, carried);
    FoldKeeps(cx, pre, s, scope, carried, r);
    carried := FoldTurns(carried, r);
    if !r.Terminal() {
      var out := Conclude(cx, pre, s, scope, task, r);
      return Some(out), carried, stagnation;
    }
    var improved := Decide();
    stagnation := if improved then 0 else WrappingAdd(stagnation, 1);
    if s.maxStagnation != U32_MAX && stagnation >= s.maxStagnation {
      Carried(cx, pre, s, scope, carried, Failure(StagnationLimitReached(stagnation), carried, []));
      var out := Conclude(cx, pre, s, scope, task, Failure(StagnationLimitReached(stagnation), carried, []));
      return Some(out), carried, stagnation;
    }
  }
}
