/**
 Runs that show what the walk does not keep: resets that the task list refuses, tasks
 that a resume skips, and charges refused for good.
 */
module RefusedResets {
  import opened Words
  import opened Budgets
  import opened TaskLists
  import opened PlanSegments
  import opened PlanWalks
  import opened Strategies
  import opened Results
  import opened Contexts
  import opened Logs
  import opened Nodes
  import opened PlanReports
  import opened PlanSteps

  /** The answer of a leaf that had no turn to take. */
  const SPENT_AT_ONCE := Exhausted(BudgetExhausted(PerLoop(0), Escalate, 0, 0, "react"), true, SpentBudget)

  /** The answer of a child, as it stands on the log of the plan. */
  method ChildAnswers(cx: ExecutionContext, ghost pre: Moment, s: Strategy, scope: BudgetContext, c: Carry,
                      outcome: Outcome, left: Session)
    requires Walking(cx, pre, s, scope, c)
    modifies cx`log
    ensures Walking(cx, pre, s, scope, c) && LastLeft(cx.log) == left
  {
    hide Open, Funded, HandsUp;
    ghost var log0, e := cx.log, ChildEnded(outcome, left);
    OtherFunds(pre, s, log0, scope.State(), cx.harness.mode, e);
    LastDecides(s, cx.harness.mode, log0, e);
    AppendEvent(log0, e);
    cx.log := log0 + [e];
  }

  /** The first task picked is spent: its reset is refused, and it stays in progress. */
  method StrandFirst(cx: ExecutionContext, ghost pre: Moment, s: Strategy, scope: BudgetContext, walk: PlanWalk,
                     task: TaskSpec, c: Carry)
    returns (first: U32)
    requires Walking(cx, pre, s, scope, c) && task == pre.scratch.task
    requires walk.Valid() && walk.active.None? && !walk.resetTakes && !NoneReady(walk.list.tasks)
    requires CanRefill(scope.State(), cx.harness.mode)
    modifies cx, scope, walk, walk.list
    ensures Walking(cx, pre, s, scope, c) && walk.Valid() && walk.active.None?
    ensures LeastReady(old(walk.list.tasks), first)
    ensures walk.list.tasks == WithStatus(old(walk.list.tasks), first, InProgress)
    ensures walk.requeued == old(walk.requeued) + 1 && walk.failed == old(walk.failed)
    ensures Refills(scope.State(), cx.harness.mode) + 1 == old(Refills(scope.State(), cx.harness.mode))
  {
    hide PlanWalk.Valid, PlanWalk.Kept, Walked, Refills, Pendings, NoneReady, WithStatus, LeastReady, Storable;
    hide PlanExecuteFree, RalphFree, EscalatesTo, Open, Funded, SameRuns, Fits, Within, InChain;
    var next := walk.Start();
    first := next.value;
    WalkKeeps(walk);
    cx.durable := walk.list.tasks;
    ChildAnswers(cx, pre, s, scope, c, SPENT_AT_ONCE, cx.scratch.session);
    var left := OnExhausted(cx, pre, s, scope, walk, first, task, [], 0, c);
  }

  /**
   As written, over any clean list with a ready task and any scope that can be
   refilled: when the first child is spent and every other one succeeds, the walk
   drains with Success although a task was left in progress for good.
   */
  method StrandingRun(cx: ExecutionContext, ghost pre: Moment, s: Strategy, scope: BudgetContext, walk: PlanWalk,
                      task: TaskSpec, c0: Carry)
    returns (r: RunResult)
    requires Walking(cx, pre, s, scope, c0) && task == pre.scratch.task
    requires walk.Valid() && walk.active.None? && walk.failed == {} && walk.requeued == 0
    requires !walk.resetTakes && walk.start == walk.list.tasks
    requires CleanStart(walk.start) && Ordered(walk.start) && !NoneReady(walk.start)
    requires CanRefill(scope.State(), cx.harness.mode)
    modifies cx, scope, walk, walk.list
    ensures r.Success? && Reports(walk.list.tasks, walk.blockedByFailure, walk.firstFailure, r)
    ensures walk.Valid() && walk.active.None? && NoneReady(walk.list.tasks) && walk.requeued == 1
    ensures !AllCompleted(walk.list.tasks) && !Partitioned(walk.list.tasks, walk.blockedByFailure)
  {
    hide PlanWalk.Valid, PlanWalk.Kept, Walked, Refills, Pendings, Reports, CleanStart, Ordered, NoneReady, Logged;
    hide WithStatus, LeastReady, AllCompleted, Partitioned, PlanExecuteFree, RalphFree, EscalatesTo, Storable;
    hide Open, Funded, SameRuns, Paid, HandsUp, InChain, IsCompleted, UniqueIds, KeepsCompleted;
    var first := StrandFirst(cx, pre, s, scope, walk, task, c0);
    var c := FinishOthers(cx, pre, s, scope, walk, task, c0);
    WalkKeeps(walk);
    r := Drain(walk, c);
    StrandedDrain(walk, r);
  }

  /** Every task that is still ready succeeds, in no time. */
  method FinishOthers(cx: ExecutionContext, ghost pre: Moment, s: Strategy, scope: BudgetContext, walk: PlanWalk,
                      task: TaskSpec, c0: Carry)
    returns (c: Carry)
    requires Walking(cx, pre, s, scope, c0) && task == pre.scratch.task
    requires walk.Valid() && walk.active.None? && walk.failed == {}
    modifies cx, scope, walk, walk.list
    ensures Walking(cx, pre, s, scope, c) && walk.Valid() && walk.active.None? && NoneReady(walk.list.tasks)
    ensures walk.failed == {} && walk.requeued == old(walk.requeued)
  {
    hide PlanWalk.Valid, PlanWalk.Kept, Walked, Refills, Pendings, NoneReady, Logged, WithStatus, LeastReady;
    hide PlanExecuteFree, Storable, Open, Funded, SameRuns;
    c := c0;
    var draining := true;
    while draining
      invariant Walking(cx, pre, s, scope, c)
      invariant walk.Valid() && walk.active.None? && walk.failed == {} && walk.requeued == old(walk.requeued)
      invariant !draining ==> NoneReady(walk.list.tasks)
      decreases draining, Refills(scope.State(), cx.harness.mode), Pendings(walk.list.tasks)
    {
      var next := walk.Start();
      WalkKeeps(walk);
      if next.None? {
        draining := false;
      } else {
        cx.durable := walk.list.tasks;
        var left;
        ChildAnswers(cx, pre, s, scope, c, Complete(""), []);
        left, c := OnResult(cx, pre, s, scope, walk, next.value, task, Success("", c.turns, []), c);
      }
    }
  }

  lemma StrandedDrain(walk: PlanWalk, r: RunResult)
    requires walk.Valid() && walk.active.None? && Ordered(walk.start) && CleanStart(walk.start)
    requires NoneReady(walk.list.tasks) && Reports(walk.list.tasks, walk.blockedByFailure, walk.firstFailure, r)
    requires !walk.resetTakes && walk.requeued == 1 && walk.failed == {}
    ensures r.Success? && !AllCompleted(walk.list.tasks) && !Partitioned(walk.list.tasks, walk.blockedByFailure)
  {
    hide WalkInvariant, Traced, Counted, PendingFromStart, CleanStart, NoneReady, Ordered, AllCompleted, Partitioned;
    DrainedExit(walk, r);
  }

  /**
   As written, over any clean list with two ready tasks and any scope that can be
   refilled: when the child of the first one picked is spent and the second one pauses,
   two tasks are in progress, and a resume takes up the one that comes first in the
   list, whichever of them paused.
   */
  method StrandedPause(cx: ExecutionContext, ghost pre: Moment, s: Strategy, scope: BudgetContext, walk: PlanWalk,
                       task: TaskSpec, c0: Carry, pause: RunResult, ghost i: nat, ghost j: nat)
    returns (left: Option<WalkExit>, first: U32, second: U32)
    requires Walking(cx, pre, s, scope, c0) && task == pre.scratch.task
    requires walk.Valid() && walk.active.None? && !walk.resetTakes && CleanStart(walk.list.tasks)
    requires i < j < |walk.list.tasks| && Ready(walk.list.tasks, i) && Ready(walk.list.tasks, j)
    requires CanRefill(scope.State(), cx.harness.mode)
    requires !pause.Terminal() && TurnsCapped(task, pre.scratch.turns, pause.Reached())
    modifies cx, scope, walk, walk.list
    ensures left == Some(Ended(pause, false)) && walk.active == Some(second) && first != second
    ensures var ts := walk.list.tasks;
      && !AtMostOneInProgress(ts)
      && Stalled(ts) == Some(if IndexOf(ts, first) < IndexOf(ts, second) then first else second)
  {
    hide PlanWalk.Valid, PlanWalk.Kept, Walked, Refills, Pendings, Logged, PlanExecuteFree, RalphFree, EscalatesTo;
    hide Storable, WithStatus, LeastReady, NoneReady, Stalled, AtMostOneInProgress, IndexOf, Ready, Fits, Within;
    hide InChain, Advanced, Open, Funded, SameRuns, CleanStart, CarriesOn;
    ghost var ts := walk.list.tasks;
    SomeReady(ts, i);
    WalkKeeps(walk);
    first := StrandFirst(cx, pre, s, scope, walk, task, c0);
    OtherStaysReady(ts, first, i, j);
    var next := walk.Start();
    second := next.value;
    TwoInProgress(ts, first, second);
    WalkKeeps(walk);
    cx.durable := walk.list.tasks;
    ChildAnswers(cx, pre, s, scope, c0, Failed(None), pause.state.session);
    var c;
    left, c := OnResult(cx, pre, s, scope, walk, second, task, pause, c0);
  }

  lemma SomeReady(ts: seq<Item>, i: nat)
    requires i < |ts| && Ready(ts, i)
    ensures !NoneReady(ts)
  {
  }

  /** Picking one ready task leaves the other one ready. */
  lemma OtherStaysReady(ts: seq<Item>, x: U32, i: nat, j: nat)
    requires UniqueIds(ts) && i < j < |ts| && Ready(ts, i) && Ready(ts, j) && LeastReady(ts, x)
    ensures !NoneReady(WithStatus(ts, x, InProgress))
  {
    var us, k := WithStatus(ts, x, InProgress), if ts[i].id == x then j else i;
    forall b | b in us[k].blockers
      ensures IsCompleted(us, b)
    {
      assert IsCompleted(ts, b);
      SameShapeIndex(us, ts, b);
    }
    assert Ready(us, k);
  }

  /** The two tasks in progress, and the one a resume would take up. */
  lemma TwoInProgress(ts: seq<Item>, x: U32, y: U32)
    requires CleanStart(ts) && LeastReady(ts, x) && LeastReady(WithStatus(ts, x, InProgress), y)
    ensures var us := WithStatus(WithStatus(ts, x, InProgress), y, InProgress);
      && x != y && !AtMostOneInProgress(us)
      && Stalled(us) == Some(if IndexOf(us, x) < IndexOf(us, y) then x else y)
  {
    var mid := WithStatus(ts, x, InProgress);
    var us := WithStatus(mid, y, InProgress);
    SameShapeIndex(mid, ts, x);
    SameShapeIndex(us, mid, x);
    SameShapeIndex(us, mid, y);
    var i, k := IndexOf(us, x), IndexOf(us, y);
    assert us[i].status == InProgress && us[k].status == InProgress && i != k;
    var f := FirstInProgress(us);
    assert f == i || f == k;
  }

  /**
   A task found in progress by a run that carries no seed, as after a skip, is never
   completed by it; yet without a failure the run reports Success.
   */
  lemma SkippedStays(walk: PlanWalk, x: U32, r: RunResult)
    requires walk.Valid() && Known(walk.start, x) && walk.start[IndexOf(walk.start, x)].status == InProgress
    requires Reports(walk.list.tasks, walk.blockedByFailure, walk.firstFailure, r)
    ensures !IsCompleted(walk.list.tasks, x) && !AllCompleted(walk.list.tasks)
    ensures walk.failed == {} ==> r.Success?
  {
    SameShapeIndex(walk.list.tasks, walk.start, x);
  }

  // ---------------------------------------------------------------------------
  // Charges refused for good
  // ---------------------------------------------------------------------------

  /** Tasks that wait for nothing. */
  ghost predicate Independent(ts: seq<Item>) {
    forall i :: 0 <= i < |ts| ==> ts[i].blockers == []
  }

  lemma {:induction false} PendingIsReady(ts: seq<Item>)
    requires Independent(ts) && Pendings(ts) > 0
    ensures !NoneReady(ts)
  {
    if ts[0].status == Pending {
      assert Ready(ts, 0);
    } else {
      PendingIsReady(ts[1..]);
      var i :| 0 <= i < |ts[1..]| && Ready(ts[1..], i);
      assert Ready(ts, i + 1);
    }
  }

  /** Picking one task leaves the others pending. */
  lemma OthersStayPending(ts: seq<Item>, x: U32)
    requires UniqueIds(ts) && LeastReady(ts, x) && Independent(ts)
    ensures var us := WithStatus(ts, x, InProgress);
      Independent(us) && Pendings(ts) <= Pendings(us) + 1
  {
    PendingsChange(WithStatus(ts, x, InProgress), ts, IndexOf(ts, x));
  }

  /** So does completing it. */
  lemma CompletingKeepsPending(ts: seq<Item>, x: U32)
    requires UniqueIds(ts) && LeastReady(ts, x) && Independent(ts)
    ensures var us := WithStatus(WithStatus(ts, x, InProgress), x, Completed);
      Independent(us) && Pendings(ts) <= Pendings(us) + 1
  {
    PendingsChange(WithStatus(WithStatus(ts, x, InProgress), x, Completed), ts, IndexOf(ts, x));
  }

  /** And so does failing it, since nothing waits for it. */
  lemma FailingKeepsPending(ts: seq<Item>, x: U32, us: seq<Item>)
    requires UniqueIds(ts) && LeastReady(ts, x) && Independent(ts)
    requires FailedTo(WithStatus(ts, x, InProgress), us, x)
    ensures Independent(us) && Pendings(ts) <= Pendings(us) + 1
  {
    var mid := WithStatus(ts, x, InProgress);
    forall i | 0 <= i < |ts| && i != IndexOf(ts, x)
      ensures us[i].status == ts[i].status
    {
      UniqueIndex(ts, i);
      NothingWaits(mid, ts[i].id, x);
    }
    PendingsChange(us, ts, IndexOf(ts, x));
  }

  lemma NothingWaits(ts: seq<Item>, a: U32, b: U32)
    requires Independent(ts)
    ensures !Reaches(ts, a, b)
  {
    forall p: seq<U32> | |p| > 1
      ensures !PathBetween(ts, p, a, b)
    {
      assert !Edge(ts, p[0], p[1]);
    }
  }

  /** One independent task is picked and ends. */
  method EndNext(cx: ExecutionContext, ghost pre: Moment, s: Strategy, scope: BudgetContext, walk: PlanWalk,
                 task: TaskSpec, r: RunResult, c0: Carry)
    returns (left: Option<WalkExit>, c: Carry)
    requires Walking(cx, pre, s, scope, c0) && task == pre.scratch.task
    requires walk.Valid() && walk.active.None? && Independent(walk.list.tasks) && Pendings(walk.list.tasks) > 0
    requires r.Terminal() && TurnsCapped(task, pre.scratch.turns, r.turns)
    requires r.Failure? ==> !r.reason.BudgetExceeded?
    modifies cx, scope, walk, walk.list
    ensures left.None? ==>
              && Walking(cx, pre, s, scope, c) && walk.Valid() && walk.active.None? && Independent(walk.list.tasks)
              && Pendings(walk.list.tasks) + 1 >= old(Pendings(walk.list.tasks)) && c.turns == r.turns
    ensures left.Some? ==> Walked(cx, pre, s, left.value)
    ensures r.Failure? ==> left.None? && scope.State() == old(scope.State())
    ensures r.Success? ==>
              var steps := SaturatingSub(r.turns, c0.turns);
              && (left.None? <==> old(Fits(scope.State(), steps) || CanRefill(scope.State(), cx.harness.mode)))
              && (old(Fits(scope.State(), steps)) ==>
                    scope.State() == old(Debited(scope.State(), steps)))
              && (left.Some? ==>
                    (left.value.Spent? <==>
                       !(old(Terminal(scope.behavior)) == ResolveEscalate && cx.harness.mode.SurfaceToHuman?)))
  {
    hide PlanWalk.Valid, PlanWalk.Kept, EscalatesTo, Validate, Pendings, PlanExecuteFree, Open, Funded, Paid, Refills;
    hide HandsUp, SameRuns, WithStatus, LeastReady, NoneReady, RalphFree, Independent, UniqueIds, FailedTo, Walked;
    hide Advanced, TurnsCapped;
    ghost var ts := walk.list.tasks;
    PendingIsReady(ts);
    WalkKeeps(walk);
    var next := walk.Start();
    WalkKeeps(walk);
    cx.durable := walk.list.tasks;
    left, c := OnResult(cx, pre, s, scope, walk, next.value, task, r, c0);
    if r.Success? {
      CompletingKeepsPending(ts, next.value);
    } else {
      FailingKeepsPending(ts, next.value, walk.list.tasks);
    }
  }

  /**
   Under SurfaceToHuman, over any list of independent tasks with enough of them pending:
   a plan with a positive cap whose chain does not ask hands an exhaustion up. The first
   children are spent and use the refills up; one task takes all turns, the next one fails
   without a turn, and the turns of the one after no longer fit.
   */
  method RefusedStepSurfaces(cx: ExecutionContext, ghost pre: Moment, s: Strategy, scope: BudgetContext, walk: PlanWalk,
                             task: TaskSpec, c0: Carry)
    returns (left: Option<WalkExit>)
    requires Walking(cx, pre, s, scope, c0) && task == pre.scratch.task && c0.turns == 0
    requires cx.harness.mode.SurfaceToHuman? && !Asks(BehaviorOf(s), task.maxTurns) && task.maxTurns.value > 0
    requires walk.Valid() && walk.active.None? && !walk.resetTakes && Independent(walk.list.tasks)
    requires Pendings(walk.list.tasks) > Refills(scope.State(), cx.harness.mode) + 2
    modifies cx, scope, walk, walk.list
    ensures left.Some? && left.value.Spent? && left.value.outcome.Exhausted? && Walked(cx, pre, s, left.value)
    decreases Refills(scope.State(), cx.harness.mode)
  {
    hide PlanWalk.Valid, PlanWalk.Kept, Logged, Validate, Pendings, PlanExecuteFree, Open, Funded, Paid, Refills;
    hide HandsUp, SameRuns, WithStatus, LeastReady, NoneReady, RalphFree, Independent, UniqueIds;
    PendingIsReady(walk.list.tasks);
    WalkKeeps(walk);
    ghost var ts := walk.list.tasks;
    if CanRefill(Scope(scope.policy, scope.behavior, scope.stepsTaken, scope.continuesUsed, scope.phase,
                       scope.autoGrantsUsed), cx.harness.mode) {
      var first := StrandFirst(cx, pre, s, scope, walk, task, c0);
      OthersStayPending(ts, first);
      left := RefusedStepSurfaces(cx, pre, s, scope, walk, task, c0);
    } else {
      left := LastStepsSurface(cx, pre, s, scope, walk, task, c0);
    }
  }

  /** Nothing refills the scope any more. */
  method LastStepsSurface(cx: ExecutionContext, ghost pre: Moment, s: Strategy, scope: BudgetContext, walk: PlanWalk,
                          task: TaskSpec, c0: Carry)
    returns (left: Option<WalkExit>)
    requires Walking(cx, pre, s, scope, c0) && task == pre.scratch.task && c0.turns == 0
    requires cx.harness.mode.SurfaceToHuman? && !Asks(BehaviorOf(s), task.maxTurns) && task.maxTurns.value > 0
    requires walk.Valid() && walk.active.None? && Independent(walk.list.tasks) && Pendings(walk.list.tasks) > 2
    requires !CanRefill(scope.State(), cx.harness.mode)
    modifies cx, scope, walk, walk.list
    ensures left.Some? && left.value.Spent? && left.value.outcome.Exhausted? && Walked(cx, pre, s, left.value)
  {
    hide PlanWalk.Valid, Pendings, Independent, Open, Funded, Paid, HandsUp, RalphFree, Validate, PlanExecuteFree;
    var all: U32 := task.maxTurns.value;
    var c;
    left, c := EndNext(cx, pre, s, scope, walk, task, Success("", all, []), c0);
    if left.None? {
      left, c := EndNext(cx, pre, s, scope, walk, task, Failure(AgentError, 0, []), c);
      left, c := EndNext(cx, pre, s, scope, walk, task, Success("", all, []), c);
    }
  }
}
