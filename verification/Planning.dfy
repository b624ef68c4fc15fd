/**
 The planning half of a plan-execute node: what it holds while it plans, the durable
 list it may find, and the list it makes of a plan's steps.
 */
module Planning {
  import opened Words
  import opened TaskLists
  import opened PlanSegments
  import opened PlanWalks
  import opened Strategies
  import opened Results
  import opened Contexts
  import opened Logs
  import opened Nodes

  /** A plan writes its own task list, so nothing is quiet about it. */
  ghost function PlanTerms(cx: ExecutionContext, s: Strategy): Terms {
    Given(cx, s).(quiet := false)
  }

  /** A plan-execute node holding a session seed it has taken but not used. */
  ghost predicate Holding(cx: ExecutionContext, pre: Moment, s: Strategy, seed: Option<Session>)
    reads cx
  {
    && s.PlanExecute?
    && cx.budgets == pre.budgets && cx.scratch.terminal.None?
    && Progress(pre, cx.Now().(scratch := cx.scratch.(sessionSeed := seed)), PlanTerms(cx, s))
    && cx.scratch.sessionSeed.None?
    && Tries(cx.log) <= cx.harness.planEmptyRetries + 1
  }

  /** Where planning leaves the node: a result that ends it, or what the execute phase starts from. */
  datatype Planned = Planned(stop: Option<RunResult>, session: Session, turns: U32, seed: Option<Session>)

  ghost predicate PlanReady(cx: ExecutionContext, pre: Moment, s: Strategy, p: Planned)
    reads cx
  {
    && Holding(cx, pre, s, p.seed) && cx.scratch.continueSeed == pre.scratch.continueSeed
    && Open(s, cx.log) && Admitted(cx.log) == 0 && Runs(cx.log) == 0
    && (RalphFree(s) ==> TurnsCapped(pre.scratch.task, pre.scratch.turns, p.turns))
    && (RalphFree(s) && p.stop.Some? ==> TurnsCapped(pre.scratch.task, pre.scratch.turns, p.stop.value.Reached()))
  }

  /** The list to walk: durable as it stands, and in topological order. */
  ghost predicate Walkable(cx: ExecutionContext, list: TaskList)
    reads cx, list
  {
    Storable(list.tasks) && Ordered(list.tasks) && cx.durable == list.tasks
  }

  method LoadList(ts: seq<Item>) returns (list: TaskList)
    ensures fresh(list) && list.tasks == ts
  {
    var nextId: U32 := *;
    list := new TaskList(ts, nextId);
  }

  /**
   Marks every task that is completed on the durable list. The list was persisted
   just before, so this changes nothing.
   */
  method Reconcile(list: TaskList, saved: seq<Item>)
    requires UniqueIds(saved) && list.tasks == saved
    modifies list
    ensures list.tasks == old(list.tasks)
  {
    var i := 0;
    while i < |list.tasks|
      invariant list.tasks == saved
    {
      var j := 0;
      while j < |saved| && !(saved[j].id == list.tasks[i].id && saved[j].status == Completed)
        invariant j <= |saved|
      {
        j := j + 1;
      }
      if j < |saved| {
        UniqueIndex(saved, j);
        UniqueIndex(saved, i);
        list.tasks := list.tasks[i := list.tasks[i].(status := Completed)];
      }
      i := i + 1;
    }
  }

  /** A durable list exists: planning is skipped. */
  method ResumePlan(cx: ExecutionContext, ghost pre: Moment, s: Strategy, p0: Planned)
    returns (p: Planned, list: TaskList)
    requires PlanReady(cx, pre, s, p0) && p0.stop.None?
    modifies cx
    ensures PlanReady(cx, pre, s, p) && fresh(list)
    ensures p.stop.None? ==> Walkable(cx, list)
    ensures p.stop.None? <==> !Cyclic(old(cx.durable))
    ensures p.stop.None? ==> list.tasks == old(cx.durable) && p == p0
    ensures p.stop.Some? ==> p.stop.value == Failure(TaskGraphCycle, 0, []) && cx.durable == old(cx.durable)
  {
    p := p0;
    list := LoadList(cx.durable);
    var cyclic := list.HasCycle();
    if cyclic {
      p := p.(stop := Some(Failure(TaskGraphCycle, 0, [])));
      return;
    }
    Reconcile(list, cx.durable);
    cx.durable := list.tasks;
  }

  /** The schema that a retried plan must answer with. */
  const PLAN_SCHEMA := "{\"type\":\"object\",\"properties\":{\"tasks\":{\"type\":\"array\","
    + "\"items\":{\"type\":\"string\"}},\"rationale\":{\"type\":\"string\"}},\"required\":[\"tasks\"]}"

  /** The steps a plan names, verbatim, as independent pending tasks numbered from one. */
  method ListSteps(steps: seq<string>) returns (list: TaskList)
    ensures fresh(list) && Storable(list.tasks) && CleanStart(list.tasks)
    ensures |list.tasks| == Min(|steps|, U32_MAX - 1)
    ensures forall i :: 0 <= i < |list.tasks| ==> list.tasks[i] == Item(i + 1, steps[i], Pending, [])
  {
    list := new TaskList([], 1);
    var i := 0;
    while i < |steps| && i < U32_MAX - 1
      invariant i <= |steps|
      invariant list.nextId == |list.tasks| + 1 && |list.tasks| == i <= U32_MAX - 1
      invariant Authored(list.tasks, list.nextId)
      invariant forall k :: 0 <= k < i ==> list.tasks[k] == Item(k + 1, steps[k], Pending, [])
    {
      var id, err := list.Add(steps[i], []);
      i := i + 1;
    }
  }
}
