/**
 The steps of the walk: what a task is run on, and what its child's answer does to the
 walk, to the scope of the plan and to the durable list.
 */
module PlanSteps {
  import opened Words
  import opened Budgets
  import opened TaskLists
  import opened PlanSegments
  import opened PlanWalks
  import opened Strategies
  import opened Results
  import opened ReActWindows
  import opened Contexts
  import opened Logs
  import opened Nodes
  import opened Ledgers
  import opened Planning
  import opened PlanReports

  /** What a walk carries from task to task; `outputs` and the ledger brief the later steps. */
  datatype Carry = Carry(
    turns: U32,
    output: string,
    session: Session,
    seed: Option<Session>,
    outputs: map<U32, string>,
    ledger: seq<Row>,
    elided: bool)

  function FreshCarry(turns: U32, seed: Option<Session>): Carry {
    Carry(turns, "", [], seed, map[], [], false)
  }

  /** What a completed task leaves for the later ones. */
  function Logged(c: Carry, id: U32, output: string, turns: U32, session: Session, files: seq<string>): Carry {
    c.(turns := turns, output := output, session := session, outputs := c.outputs[id := output],
       ledger := Recent(c.ledger + [Row(id, output, files)]), elided := c.elided || |c.ledger| + 1 > LEDGER_MAX)
  }

  /** The node while its walk is under way. */
  ghost predicate WalkHeld(cx: ExecutionContext, pre: Moment, s: Strategy, scope: BudgetContext, c: Carry)
    reads cx, scope
  {
    && s.PlanExecute?
    && cx.budgets == pre.budgets + [scope] && cx.scratch.terminal.None?
    && Progress(pre, cx.Now().(scratch := cx.scratch.(sessionSeed := c.seed)), PlanTerms(cx, s))
    && cx.scratch.sessionSeed.None? && Tries(cx.log) <= cx.harness.planEmptyRetries + 1
    && InChain(BehaviorOf(s), scope.State()) && Within(scope.State(), pre.scratch.task, cx.harness.mode)
    && (RalphFree(s) ==> TurnsCapped(pre.scratch.task, pre.scratch.turns, c.turns))
  }

  /** The walk while nothing has ended it over a budget. */
  ghost predicate Walking(cx: ExecutionContext, pre: Moment, s: Strategy, scope: BudgetContext, c: Carry)
    reads cx, scope
  {
    WalkHeld(cx, pre, s, scope, c) && Open(s, cx.log) && Funded(pre, s, cx.log, scope.State(), cx.harness.mode)
  }

  /** The node after its walk, with its scope popped. */
  ghost predicate Walked(cx: ExecutionContext, pre: Moment, s: Strategy, exit: WalkExit)
    reads cx
  {
    && Holding(cx, pre, s, None) && Paid(pre, s, cx.log, cx.harness.mode)
    && (exit.Spent? <==> HandsUp(s, cx.harness.mode, cx.log))
    && match exit
       case Ended(r, _) => RalphFree(s) ==> TurnsCapped(pre.scratch.task, pre.scratch.turns, r.Reached())
       case Spent(out) =>
         && out.Exhausted? && FromChain(BehaviorOf(s), out.signal)
         && (cx.harness.mode.SurfaceToHuman? ==> !Contained(s, pre.scratch.task.maxTurns))
         && (RalphFree(s) && !cx.harness.mode.AutoContinue? ==>
               TurnsCapped(pre.scratch.task, pre.scratch.turns, out.signal.stepsTaken))
  }

  /** No child and no planner ran in between. */
  ghost predicate SameRuns(before: Log, after: Log) {
    Runs(after) == Runs(before) && Tries(after) == Tries(before) && LastLeft(after) == LastLeft(before)
  }

  /** The walk was left at its drained list, by a pause, or by a failure: nothing was spent. */
  lemma LeftOpen(pre: Moment, s: Strategy, log: Log, scope: Scope, mode: EscalationMode)
    requires Open(s, log) && Funded(pre, s, log, scope, mode)
    ensures Paid(pre, s, log, mode) && !HandsUp(s, mode, log)
  {
  }

  // ---------------------------------------------------------------------------
  // Entering and leaving the walk
  // ---------------------------------------------------------------------------

  method FindInProgress(list: TaskList) returns (i: nat)
    ensures i == FirstInProgress(list.tasks)
  {
    i := 0;
    while i < |list.tasks| && list.tasks[i].status != InProgress
      invariant i <= |list.tasks| && forall j :: 0 <= j < i ==> list.tasks[j].status != InProgress
    {
      i := i + 1;
    }
  }

  /** Puts the stalled task of a resumed run back, past the transition rules; without one the seed is dropped. */
  method TakeUpStalled(list: TaskList, seed0: Option<Session>) returns (stalled: Option<U32>, seed: Option<Session>)
    requires Storable(list.tasks) && Ordered(list.tasks)
    modifies list
    ensures Storable(list.tasks) && Ordered(list.tasks)
    ensures list.tasks == if seed0.Some? then ResetStalled(old(list.tasks)) else old(list.tasks)
    ensures if seed0.Some? && Stalled(old(list.tasks)).Some?
            then stalled == Stalled(old(list.tasks)) && seed == seed0
            else stalled.None? && seed.None?
  {
    stalled, seed := None, None;
    if seed0.Some? {
      ResetKeepsClosed(list.tasks);
      ShapeKeepsOrdered(list.tasks, ResetStalled(list.tasks));
      var i := FindInProgress(list);
      if i < |list.tasks| {
        stalled, seed := Some(list.tasks[i].id), seed0;
        list.tasks := list.tasks[i := list.tasks[i].(status := Pending)];
      }
    }
  }

  /** Pushes the scope of the walk; the session seed is carried into the walk, or dropped. */
  method EnterWalk(cx: ExecutionContext, ghost pre: Moment, s: Strategy, task: TaskSpec, turns: U32,
                   ghost held: Option<Session>, seed: Option<Session>)
    returns (scope: BudgetContext)
    requires Holding(cx, pre, s, held) && (seed == held || seed.None?) && task == pre.scratch.task
    requires cx.scratch.continueSeed == pre.scratch.continueSeed
    requires Open(s, cx.log) && Admitted(cx.log) == 0
    requires RalphFree(s) ==> TurnsCapped(task, pre.scratch.turns, turns)
    modifies cx`budgets, cx`scratch, cx`tally
    ensures fresh(scope) && Walking(cx, pre, s, scope, FreshCarry(turns, seed)) && cx.durable == old(cx.durable)
    ensures scope.State() == StartScope(pre.scratch, s)
    ensures Refills(scope.State(), cx.harness.mode) == StartRefills(pre.scratch, s, cx.harness.mode)
  {
    hide RalphFree, Storable, Terminal, Validate;
    scope := cx.PushBudget(TaskPolicy(task), s.behavior, "plan_execute");
  }

  /** The walk's own result goes out as the node's; an exhaustion is handed to the parent. */
  method LeaveWalk(cx: ExecutionContext, ghost pre: Moment, s: Strategy, task: TaskSpec, exit: WalkExit)
    returns (out: Outcome)
    requires Walked(cx, pre, s, exit) && task == pre.scratch.task
    modifies cx`scratch
    ensures Quits(cx, pre, s, out) && Tries(cx.log) <= cx.harness.planEmptyRetries + 1
    ensures exit.Ended? ==> out == OutcomeOf(exit.result) && cx.scratch.terminal == Some(Rehomed(exit.result, task))
  {
    match exit
    case Ended(r, _) =>
      RehomedIsHomed(r, task);
      out := cx.Finish(task, r);
    case Spent(spent) =>
      cx.scratch := cx.scratch.(task := task, terminal := None);
      out := spent;
  }

  // ---------------------------------------------------------------------------
  // Between two tasks
  // ---------------------------------------------------------------------------

  /** The walk between two tasks. */
  ghost predicate BetweenTasks(cx: ExecutionContext, pre: Moment, s: Strategy, scope: BudgetContext, walk: PlanWalk,
                               c: Carry, refills: nat, durable0: seq<Item>)
    reads cx, scope, walk, walk.list
  {
    && Walking(cx, pre, s, scope, c)
    && walk.Valid() && walk.active.None? && walk.resetTakes == cx.harness.resetTakes
    && walk.requeued + Refills(scope.State(), cx.harness.mode) <= refills
    && cx.durable == (if walk.ran == [] then durable0 else walk.list.tasks)
    && Runs(cx.log) == |walk.ran|
  }

  /** Each executed task brings the walk closer to its end. */
  ghost predicate Advances(before: Scope, pendings0: nat, after: Scope, pendings: nat, mode: EscalationMode) {
    || Refills(after, mode) < Refills(before, mode)
    || (Refills(after, mode) == Refills(before, mode) && pendings < pendings0)
  }

  lemma WalkKeeps(walk: PlanWalk)
    requires walk.Valid()
    ensures walk.Kept() && Storable(walk.list.tasks) && UniqueIds(walk.list.tasks)
  {
    ShapeKeepsUnique(walk.list.tasks, walk.start);
  }

  lemma ActiveIsKnown(walk: PlanWalk, id: U32)
    requires walk.Valid() && walk.active == Some(id)
    ensures Known(walk.list.tasks, id)
  {
    SameShapeIndex(walk.list.tasks, walk.start, id);
  }

  /** What one executed task does to the walk and the scope: a refused reset costs a refill. */
  ghost predicate Advanced(before: Scope, pendings0: nat, requeued0: nat, after: Scope, pendings: nat, requeued: nat,
                           mode: EscalationMode) {
    || (Refills(after, mode) + 1 == Refills(before, mode) && requeued <= requeued0 + 1)
    || (Refills(after, mode) == Refills(before, mode) && pendings <= pendings0 && requeued == requeued0)
  }

  /** The walk after a step: its history is untouched, and it goes on or leaves the node. */
  twostate predicate Stepped(cx: ExecutionContext, pre: Moment, s: Strategy, scope: BudgetContext, walk: PlanWalk,
                             new left: Option<WalkExit>, new c: Carry)
    reads cx, scope, walk, walk.list
  {
    var ts := walk.list.tasks;
    && s.PlanExecute? && walk.ran == old(walk.ran)
    && match left
       case None =>
         && Walking(cx, pre, s, scope, c) && walk.Valid() && walk.active.None? && cx.durable == ts
         && Advanced(old(scope.State()), old(Pendings(walk.list.tasks)), old(walk.requeued),
                     scope.State(), Pendings(ts), walk.requeued, cx.harness.mode)
       case Some(exit) =>
         && Walked(cx, pre, s, exit) && walk.Kept() && !exit.Drains()
         && walk.requeued == old(walk.requeued)
         && (Quiet(cx.harness, s.execute) ==> cx.durable == ts)
         && (walk.active.Some? ==> exit.Pauses() && CarriesOn(exit.result, LastLeft(cx.log)))
         && (exit.Pauses() ==> walk.Valid())
  }

  // ---------------------------------------------------------------------------
  // What a task is run on
  // ---------------------------------------------------------------------------

  /** The task's own text, which a hook may rewrite. */
  method StepInstruction(list: TaskList, id: U32) returns (text: string, rewritten: bool)
    requires Known(list.tasks, id)
    ensures !rewritten ==> text == list.tasks[IndexOf(list.tasks, id)].description
  {
    var i := list.Find(id);
    text := list.tasks[i].description;
    rewritten := Decide();
    if rewritten {
      text := *;
    }
  }

  /** The tasks one waits for, ascending. */
  ghost predicate Upstream(ts: seq<Item>, id: U32, upstream: seq<U32>) {
    && (forall b :: b in upstream <==> Reaches(ts, id, b))
    && (forall i, j :: 0 <= i < j < |upstream| ==> upstream[i] < upstream[j])
  }

  /**
   The stalled conversation for the stalled task, once. Any other step starts from
   the base: the results and ledger rows of exactly the tasks it waits for, then the
   whole ledger, then its own instruction.
   */
  method StepSession(cx: ExecutionContext, list: TaskList, id: U32, instruction: string, base: Session,
                     stalled: Option<U32>, c0: Carry)
    returns (step: Session, c: Carry, ghost upstream: seq<U32>)
    modifies cx`tally
    ensures if stalled == Some(id) && c0.seed.Some?
            then step == c0.seed.value && c == c0.(seed := None)
                 && cx.tally == old(cx.tally).(seededSessions := old(cx.tally).seededSessions + 1)
            else step == base + Briefing(upstream, c0.outputs, c0.ledger, c0.elided, instruction)
                 && Upstream(list.tasks, id, upstream) && c == c0 && cx.tally == old(cx.tally)
  {
    hide Reaches, UpstreamResults, Rendered, ResultLines, Scoped;
    c, upstream := c0, [];
    if stalled == Some(id) && c0.seed.Some? {
      step, c := c0.seed.value, c0.(seed := None);
      cx.tally := cx.tally.(seededSessions := cx.tally.seededSessions + 1);
    } else {
      var blockers := list.TransitiveBlockers(id);
      upstream := blockers;
      var results := CollectResults(blockers, c0.outputs);
      var scoped := CollectRows(c0.ledger, blockers);
      var briefing := UpstreamResults(results) + Rendered(scoped, false) + Rendered(c0.ledger, c0.elided)
                      + [UserText(instruction)];
      step := base + briefing;
    }
  }

  /** The instruction of the active task, and the conversation it continues on or starts with. */
  method PrepareStep(cx: ExecutionContext, ghost pre: Moment, s: Strategy, scope: BudgetContext, walk: PlanWalk,
                     id: U32,
                     session: Session, stalled: Option<U32>, c0: Carry, ghost f: Feeding, ghost talks0: seq<Session>)
    returns (instruction: string, step: Session, c: Carry, ghost talks: seq<Session>, ghost rewritten: bool)
    requires Walking(cx, pre, s, scope, c0) && walk.Valid() && walk.active == Some(id)
    requires walk.ran != [] && walk.ran[|walk.ran| - 1] == id
    requires Feeds(f, walk.ran[..|walk.ran| - 1], talks0, c0.seed) && f.stalled == stalled && f.base == session
    requires f.seed.Some? == stalled.Some?
    modifies cx`scratch, cx`tally
    ensures Walking(cx, pre, s, scope, c) && Feeds(f, walk.ran, talks, c.seed)
    ensures talks == talks0 + [step]
    ensures Known(walk.list.tasks, id)
    ensures !rewritten ==> instruction == walk.list.tasks[IndexOf(walk.list.tasks, id)].description
  {
    hide PlanWalk.Valid, PlanWalk.Kept, Feeds, Briefing, Upstream, Within, InChain, Validate, Open, Funded, RalphFree;
    hide PlanExecuteFree, TurnsCapped, Tries, Storable;
    ActiveIsKnown(walk, id);
    ghost var upstream;
    var changed;
    instruction, changed := StepInstruction(walk.list, id);
    rewritten := changed;
    step, c, upstream := StepSession(cx, walk.list, id, instruction, session, stalled, c0);
    talks := talks0 + [step];
    FeedsNext(f, walk.ran[..|walk.ran| - 1], talks0, c0.seed, id, step);
    assert walk.ran == walk.ran[..|walk.ran| - 1] + [id];
    cx.scratch := cx.scratch.(inExecuteStep := true);
  }

  // ---------------------------------------------------------------------------
  // What the answer of the child does
  // ---------------------------------------------------------------------------

  /**
   A spent walk that escalates: under SurfaceToHuman the task stays in progress and
   the pause reports the worker's steps and carries the worker's conversation;
   otherwise the task is blocked and the exhaustion goes up.
   */
  ghost predicate EscalatesTo(mode: EscalationMode, signal: BudgetExhausted, id: U32, worker: Session,
                            before: seq<Item>, after: seq<Item>, left: Option<WalkExit>) {
    if mode.SurfaceToHuman? then
      && left.Some? && left.value.Pauses() && left.value.result.WaitingForHuman?
      && left.value.result.request == BudgetRequest(signal) && left.value.result.state.turnsUsed == signal.stepsTaken
      && CarriesOn(left.value.result, worker)
      && after == before
    else
      left == Some(Spent(Exhausted(signal, true, SpentBudget))) && after == WithStatus(before, id, Blocked)
  }

  /** Pops the scope of the walk; the worker's conversation is handed out, and the base one put back. */
  method PopWalk(cx: ExecutionContext, ghost pre: Moment, s: Strategy, scope: BudgetContext, base: Session,
                 ghost c: Carry)
    returns (worker: Session)
    requires WalkHeld(cx, pre, s, scope, c)
    modifies cx`budgets, cx`scratch
    ensures Holding(cx, pre, s, None) && worker == old(cx.scratch.session)
  {
    hide Storable, RalphFree, PlanExecuteFree, Validate, Within, InChain, Tries;
    worker := cx.TakeSession();
    cx.PopBudget();
    cx.scratch := cx.scratch.(session := base);
  }

  /** Nothing refills the scope: pause with the task in progress, or give it up. */
  method OnEscalated(cx: ExecutionContext, ghost pre: Moment, s: Strategy, scope: BudgetContext, walk: PlanWalk,
                     id: U32,
                     task: TaskSpec, base: Session, signal: BudgetExhausted, ghost c: Carry)
    returns (left: Option<WalkExit>)
    requires WalkHeld(cx, pre, s, scope, c) && task == pre.scratch.task
    requires Paid(pre, s, cx.log, cx.harness.mode)
    requires HandsUp(s, cx.harness.mode, cx.log) <==> !cx.harness.mode.SurfaceToHuman?
    requires walk.Valid() && walk.active == Some(id) && FromChain(BehaviorOf(s), signal)
    requires RalphFree(s) && !cx.harness.mode.AutoContinue? ==> TurnsCapped(task, pre.scratch.turns, signal.stepsTaken)
    requires cx.scratch.session == LastLeft(cx.log)
    modifies cx, walk, walk.list
    ensures left.Some? && Stepped(cx, pre, s, scope, walk, left, c) && cx.log == old(cx.log)
    ensures walk.failed == old(walk.failed)
    ensures EscalatesTo(cx.harness.mode, signal, id, old(cx.scratch.session), old(walk.list.tasks), walk.list.tasks,
                        left)
  {
    hide PlanWalk.Valid, PlanWalk.Kept, CompletedClosed, WithStatus, Within, Fits, Refills, Advanced, Paid, Funded;
    hide RalphFree, PlanExecuteFree, Terminal, ChainMax, Validate, Pendings, KeepsCompleted, TurnsCapped, HandsUp, Open;
    hide Contained, Holding;
    WalkKeeps(walk);
    var asks := cx.harness.mode.SurfaceToHuman?;
    if !asks {
      walk.Abort(id);
    }
    cx.durable := walk.list.tasks;
    var worker := PopWalk(cx, pre, s, scope, base, c);
    var turns := signal.stepsTaken;
    left := Some(if asks then Ended(AskForBudget(signal, true, task, turns, turns, worker), false)
                 else Spent(Exhausted(signal, true, SpentBudget)));
  }

  /** The scope of the walk decides about a spent child; only an escalation can end the walk. */
  method ResolveChild(cx: ExecutionContext, ghost pre: Moment, s: Strategy, scope: BudgetContext, ghost c: Carry)
    returns (refilled: bool, res: Resolution)
    requires Walking(cx, pre, s, scope, c)
    modifies cx`log, scope
    ensures RefilledTo(old(scope.State()), cx.harness.mode, scope.State(), refilled, res)
    ensures SameRuns(old(cx.log), cx.log) && WalkHeld(cx, pre, s, scope, c) && Paid(pre, s, cx.log, cx.harness.mode)
    ensures refilled || res == ResolveFail ==> Walking(cx, pre, s, scope, c)
    ensures !refilled && res == ResolveEscalate ==>
              (HandsUp(s, cx.harness.mode, cx.log) <==> !cx.harness.mode.SurfaceToHuman?)
    ensures !refilled ==> res != GrantContinue
  {
    hide Paid, Funded, HandsUp, Open, Storable, RalphFree, PlanExecuteFree, Validate, TurnsCapped;
    ghost var before, log0 := scope.State(), cx.log;
    refilled, res := cx.ResolveSpent(scope);
    RefillFunds(pre, s, log0, before, cx.harness.mode, scope.State(), refilled, res);
    LastDecides(s, cx.harness.mode, log0, ScopeResolved(refilled, res));
    AppendEvent(log0, ScopeResolved(refilled, res));
  }

  /** The child ran out of budget: the scope of the walk decides. */
  method OnExhausted(cx: ExecutionContext, ghost pre: Moment, s: Strategy, scope: BudgetContext, walk: PlanWalk,
                     id: U32,
                     task: TaskSpec, base: Session, steps: U32, c: Carry)
    returns (left: Option<WalkExit>)
    requires Walking(cx, pre, s, scope, c) && task == pre.scratch.task
    requires walk.Valid() && walk.active == Some(id)
    requires RalphFree(s) && !cx.harness.mode.AutoContinue? ==> TurnsCapped(task, pre.scratch.turns, steps)
    requires cx.scratch.session == LastLeft(cx.log)
    modifies cx, scope, walk, walk.list
    ensures Stepped(cx, pre, s, scope, walk, left, c) && SameRuns(old(cx.log), cx.log)
    ensures old(CanRefill(scope.State(), cx.harness.mode)) ==>
              && left.None? && walk.requeued == old(walk.requeued) + 1 && walk.failed == old(walk.failed)
              && (!walk.resetTakes ==>
                    walk.stranded == old(walk.stranded) + {id} && walk.list.tasks == old(walk.list.tasks))
              && (old(Fits(scope.State(), 0)) ==> Fits(scope.State(), 0))
    ensures !old(CanRefill(scope.State(), cx.harness.mode)) && old(Terminal(scope.behavior)) == ResolveFail ==>
              && left.None? && walk.failed == old(walk.failed) + {id} && walk.requeued == old(walk.requeued)
              && FailedTo(old(walk.list.tasks), walk.list.tasks, id)
    ensures !old(CanRefill(scope.State(), cx.harness.mode)) && old(Terminal(scope.behavior)) == ResolveEscalate ==>
              && walk.failed == old(walk.failed)
              && EscalatesTo(cx.harness.mode, old(SignalOf(scope.State())).(stepsTaken := steps), id,
                           old(cx.scratch.session), old(walk.list.tasks), walk.list.tasks, left)
  {
    hide Storable, Pendings, RalphFree, PlanExecuteFree, Validate, KeepsCompleted, TurnsCapped;
    hide PlanWalk.Valid, PlanWalk.Kept, EscalatesTo, Walked, Paid, Funded, HandsUp, Open, WithStatus, FailedTo;
    var signal := BudgetExhausted(scope.policy, scope.behavior, steps, scope.continuesUsed, scope.phase);
    var refilled, res := ResolveChild(cx, pre, s, scope, c);
    if refilled {
      walk.Requeue(id);
      WalkKeeps(walk);
      cx.durable := walk.list.tasks;
      return None;
    }
    if res == ResolveFail {
      walk.Cascade(id, "budget exhausted (Fail)");
      WalkKeeps(walk);
      cx.durable := walk.list.tasks;
      return None;
    }
    left := OnEscalated(cx, pre, s, scope, walk, id, task, base, signal, c);
  }

  /** The charge of a step, and what it leaves of the walk. */
  method ChargeWalk(cx: ExecutionContext, ghost pre: Moment, s: Strategy, scope: BudgetContext, steps: U32,
                    ghost c: Carry)
    returns (charged: Charged)
    requires Walking(cx, pre, s, scope, c)
    modifies cx`log, scope
    ensures ChargedTo(old(scope.State()), steps, cx.harness.mode, scope.State(), charged)
    ensures SameRuns(old(cx.log), cx.log) && WalkHeld(cx, pre, s, scope, c) && Paid(pre, s, cx.log, cx.harness.mode)
    ensures !charged.Surface? ==> Walking(cx, pre, s, scope, c)
    ensures charged.Surface? ==>
              && (HandsUp(s, cx.harness.mode, cx.log)
                  <==> !(charged.res == ResolveEscalate && cx.harness.mode.SurfaceToHuman?))
              && (cx.harness.mode.SurfaceToHuman? && charged.res != ResolveEscalate ==>
                    !Contained(s, pre.scratch.task.maxTurns))
  {
    hide Paid, Funded, HandsUp, Open, Storable, RalphFree, PlanExecuteFree, Validate, TurnsCapped;
    ghost var before, log0 := scope.State(), cx.log;
    charged := cx.Charge(scope, steps);
    ChargeFunds(pre, s, log0, before, steps, cx.harness.mode, scope.State(), charged);
    LastDecides(s, cx.harness.mode, log0, ChargeMade(steps, charged));
    AppendEvent(log0, ChargeMade(steps, charged));
  }

  /** Charges a completed step to the scope of the walk. */
  method ChargeStep(cx: ExecutionContext, ghost pre: Moment, s: Strategy, scope: BudgetContext, walk: PlanWalk,
                    task: TaskSpec, steps: U32, c: Carry)
    returns (left: Option<WalkExit>)
    requires Walking(cx, pre, s, scope, c) && task == pre.scratch.task
    requires walk.Valid() && walk.active.None? && cx.durable == walk.list.tasks
    modifies cx, scope
    ensures Stepped(cx, pre, s, scope, walk, left, c) && SameRuns(old(cx.log), cx.log)
    ensures left.None? <==> old(Fits(scope.State(), steps) || CanRefill(scope.State(), cx.harness.mode))
    ensures old(Fits(scope.State(), steps)) ==>
              scope.State() == old(Debited(scope.State(), steps))
    ensures left.None? && old(Fits(scope.State(), 0)) ==> Fits(scope.State(), 0)
    ensures left.Some? ==> left.value.Spent? || left.value.result.WaitingForHuman?
    ensures left.Some? && left.value.Spent? ==> left.value.outcome.signal == old(SignalOf(scope.State()))
    ensures left.Some? ==>
              (left.value.Spent? <==>
                 !(old(Terminal(scope.behavior)) == ResolveEscalate && cx.harness.mode.SurfaceToHuman?))
  {
    hide PlanWalk.Valid, PlanWalk.Kept, Paid, Funded, HandsUp, Open, RalphFree, PlanExecuteFree, Validate, Contained;
    hide SameRuns, Storable;
    WalkKeeps(walk);
    var charged := ChargeWalk(cx, pre, s, scope, steps, c);
    match charged
    case Proceed => left := None;
    case Again => left := None;
    case Surface(signal, res) =>
      cx.PopBudget();
      cx.scratch := cx.scratch.(session := c.session);
      left := Some(if res != ResolveFail && cx.harness.mode.SurfaceToHuman?
                   then Ended(AskForBudget(signal, true, task, c.turns, c.turns, c.session), false)
                   else Spent(Exhausted(signal, res != ResolveFail, SpentBudget)));
  }

  /** The task turn cap stops the whole run; any other failure is contained to the task and its dependents. */
  method OnFailure(cx: ExecutionContext, ghost pre: Moment, s: Strategy, scope: BudgetContext, walk: PlanWalk, id: U32,
                   task: TaskSpec, reason: HaltReason, turns: U32, c0: Carry)
    returns (left: Option<WalkExit>, c: Carry)
    requires Walking(cx, pre, s, scope, c0) && task == pre.scratch.task
    requires walk.Valid() && walk.active == Some(id)
    requires RalphFree(s) ==> TurnsCapped(task, pre.scratch.turns, turns)
    modifies cx, walk, walk.list
    ensures Stepped(cx, pre, s, scope, walk, left, c) && cx.log == old(cx.log)
    ensures reason.BudgetExceeded? ==>
              && left == Some(Ended(Failure(reason, turns, c0.session), false)) && c == c0
              && walk.list.tasks == WithStatus(old(walk.list.tasks), id, Blocked)
    ensures !reason.BudgetExceeded? ==>
              && left.None? && walk.failed == old(walk.failed) + {id} && c == c0.(turns := turns)
              && FailedTo(old(walk.list.tasks), walk.list.tasks, id)
  {
    hide PlanWalk.Valid, PlanWalk.Kept, CompletedClosed, RalphFree, PlanExecuteFree, Terminal, ChainMax, Validate;
    hide Pendings, TurnsCapped, KeepsCompleted, Paid, Funded, HandsUp, Open, FailedTo;
    LeftOpen(pre, s, cx.log, scope.State(), cx.harness.mode);
    if reason.BudgetExceeded? {
      c := c0;
      WalkKeeps(walk);
      walk.Abort(id);
      cx.durable := walk.list.tasks;
      cx.PopBudget();
      left := Some(Ended(Failure(reason, turns, c.session), false));
    } else {
      c := c0.(turns := turns);
      walk.Cascade(id, "the task failed");
      WalkKeeps(walk);
      cx.durable := walk.list.tasks;
      left := None;
    }
  }

  lemma CarriesItself(r: RunResult)
    requires !r.Terminal()
    ensures CarriesOn(r, r.state.session)
  {
  }

  /** The files the harness saw a step write. */
  method ObservedWrites() returns (files: seq<string>)
  {
    files := *;
  }

  /** The task completed: it is recorded for the later ones, and charged. */
  method OnSuccess(cx: ExecutionContext, ghost pre: Moment, s: Strategy, scope: BudgetContext, walk: PlanWalk, id: U32,
                   task: TaskSpec, output: string, turns: U32, session: Session, c0: Carry)
    returns (left: Option<WalkExit>, c: Carry)
    requires Walking(cx, pre, s, scope, c0) && task == pre.scratch.task
    requires walk.Valid() && walk.active == Some(id)
    requires RalphFree(s) ==> TurnsCapped(task, pre.scratch.turns, turns)
    modifies cx, scope, walk, walk.list
    ensures Stepped(cx, pre, s, scope, walk, left, c) && c.seed == c0.seed && SameRuns(old(cx.log), cx.log)
    ensures walk.list.tasks == WithStatus(old(walk.list.tasks), id, Completed)
    ensures walk.failed == old(walk.failed) && walk.requeued == old(walk.requeued)
    ensures exists files :: c == Logged(c0, id, output, turns, session, files)
    ensures left.None? <==> old(Fits(scope.State(), SaturatingSub(turns, c0.turns))
                                || CanRefill(scope.State(), cx.harness.mode))
    ensures old(Fits(scope.State(), SaturatingSub(turns, c0.turns))) ==>
              scope.State() == old(Debited(scope.State(), SaturatingSub(turns, c0.turns)))
    ensures left.None? && old(Fits(scope.State(), 0)) ==> Fits(scope.State(), 0)
    ensures left.Some? ==>
              (left.value.Spent? <==>
                 !(old(Terminal(scope.behavior)) == ResolveEscalate && cx.harness.mode.SurfaceToHuman?))
  {
    hide PlanWalk.Valid, PlanWalk.Kept, Storable, RalphFree, PlanExecuteFree, Terminal, ChainMax, Validate, Pendings;
    hide Recent, TurnsCapped, Refills, Fits, WithStatus, IsCompleted, CompletedClosed, Within, InChain;
    hide Paid, Funded, HandsUp, Open, CarriesOn, SameRuns, Walked;
    var files := ObservedWrites();
    var ledger, dropped := Push(c0.ledger, Row(id, output, files));
    c := Carry(turns, output, session, c0.seed, c0.outputs[id := output], ledger, c0.elided || dropped);
    assert c == Logged(c0, id, output, turns, session, files);
    walk.Finish(id);
    WalkKeeps(walk);
    cx.durable := walk.list.tasks;
    left := ChargeStep(cx, pre, s, scope, walk, task, SaturatingSub(turns, c0.turns), c);
  }

  /** The child ended with a result; a pause leaves the task in progress. */
  method OnResult(cx: ExecutionContext, ghost pre: Moment, s: Strategy, scope: BudgetContext, walk: PlanWalk, id: U32,
                  task: TaskSpec, r: RunResult, c0: Carry)
    returns (left: Option<WalkExit>, c: Carry)
    requires Walking(cx, pre, s, scope, c0) && task == pre.scratch.task
    requires walk.Valid() && walk.active == Some(id)
    requires Quiet(cx.harness, s.execute) ==> cx.durable == walk.list.tasks
    requires RalphFree(s) ==> TurnsCapped(task, pre.scratch.turns, r.Reached())
    requires !r.Terminal() ==> r.state.session == LastLeft(cx.log)
    modifies cx, scope, walk, walk.list
    ensures Stepped(cx, pre, s, scope, walk, left, c) && c.seed == c0.seed && SameRuns(old(cx.log), cx.log)
    ensures r.Success? ==>
              && walk.list.tasks == WithStatus(old(walk.list.tasks), id, Completed)
              && walk.failed == old(walk.failed) && walk.requeued == old(walk.requeued)
              && (exists files :: c == Logged(c0, id, r.output, r.turns, r.session, files))
              && (left.None? <==> old(Fits(scope.State(), SaturatingSub(r.turns, c0.turns))
                                      || CanRefill(scope.State(), cx.harness.mode)))
              && (old(Fits(scope.State(), SaturatingSub(r.turns, c0.turns))) ==>
                    scope.State() == old(Debited(scope.State(), SaturatingSub(r.turns, c0.turns))))
              && (left.None? && old(Fits(scope.State(), 0)) ==> Fits(scope.State(), 0))
              && (left.Some? ==>
                    (left.value.Spent? <==>
                       !(old(Terminal(scope.behavior)) == ResolveEscalate && cx.harness.mode.SurfaceToHuman?)))
    ensures r.Failure? && r.reason.BudgetExceeded? ==>
              && left == Some(Ended(Failure(r.reason, r.turns, c0.session), false))
              && walk.list.tasks == WithStatus(old(walk.list.tasks), id, Blocked)
    ensures r.Failure? && !r.reason.BudgetExceeded? ==>
              && left.None? && walk.failed == old(walk.failed) + {id} && c == c0.(turns := r.turns)
              && FailedTo(old(walk.list.tasks), walk.list.tasks, id) && scope.State() == old(scope.State())
    ensures !r.Terminal() ==>
              left == Some(Ended(r, false)) && walk.list.tasks == old(walk.list.tasks) && walk.active == Some(id)
  {
    hide PlanWalk.Valid, PlanWalk.Kept, Storable, RalphFree, PlanExecuteFree, Terminal, ChainMax, Validate, Pendings;
    hide Recent, TurnsCapped, Refills, Fits, WithStatus, IsCompleted, CompletedClosed, Within, InChain;
    hide Paid, Funded, HandsUp, Open, CarriesOn, Advanced, Logged, FailedTo;
    match r
    case Success(output, turns, session) =>
      left, c := OnSuccess(cx, pre, s, scope, walk, id, task, output, turns, session, c0);
    case Failure(reason, turns, _) =>
      left, c := OnFailure(cx, pre, s, scope, walk, id, task, reason, turns, c0);
    case _ =>
      c := c0;
      WalkKeeps(walk);
      LeftOpen(pre, s, cx.log, scope.State(), cx.harness.mode);
      CarriesItself(r);
      cx.PopBudget();
      left := Some(Ended(r, false));
  }

  method CompletedIds(list: TaskList) returns (ids: set<U32>)
    requires UniqueIds(list.tasks)
    ensures forall x :: x in ids <==> IsCompleted(list.tasks, x)
  {
    ids := {};
    for i := 0 to |list.tasks|
      invariant forall x :: x in ids <==> IsCompleted(list.tasks, x) && IndexOf(list.tasks, x) < i
    {
      UniqueIndex(list.tasks, i);
      if list.tasks[i].status == Completed {
        ids := ids + {list.tasks[i].id};
      }
    }
  }

  /** The result of a drained walk. */
  method Drain(walk: PlanWalk, c: Carry) returns (r: RunResult)
    requires UniqueIds(walk.list.tasks)
    ensures Reports(walk.list.tasks, walk.blockedByFailure, walk.firstFailure, r)
    ensures r.Terminal() && r.turns == c.turns && r.session == c.session
  {
    if walk.firstFailure.None? {
      return Success(c.output, c.turns, c.session);
    }
    var done := CompletedIds(walk.list);
    var completed := SortAscending(done);
    var blocked := SortAscending(walk.blockedByFailure);
    var first := walk.firstFailure.value;
    r := Failure(TasksBlockedByFailure(completed, blocked, first.task, first.reason), c.turns, c.session);
  }
}
