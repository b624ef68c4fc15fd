/**
 Walks as segments of a longer run: what a drained walk reports, how a resumed one
 picks up the stalled task, and what holds across any number of pauses.
 */
module PlanSegments {
  import opened Words
  import opened TaskLists
  import opened PlanWalks
  import opened Results

  // ---------------------------------------------------------------------------
  // The report of a drained walk
  // ---------------------------------------------------------------------------

  ghost predicate Ascending(ids: seq<U32>) {
    forall i, j :: 0 <= i < j < |ids| ==> ids[i] < ids[j]
  }

  /** Success without a failure; otherwise the partition, and the failure that came first. */
  ghost predicate Reports(ts: seq<Item>, blocked: set<U32>, first: Option<FirstFailure>, r: RunResult) {
    match first
    case None => r.Success?
    case Some(f) =>
      && r.Failure? && r.reason.TasksBlockedByFailure?
      && r.reason.failedTask == f.task && r.reason.why == f.reason
      && Ascending(r.reason.completed) && (forall x :: x in r.reason.completed <==> IsCompleted(ts, x))
      && Ascending(r.reason.blocked) && (forall x :: x in r.reason.blocked <==> x in blocked)
  }

  /**
   What a drained walk over a clean list reports. Completed and blocked partition
   the tasks exactly when no task was left in progress, the blocked tasks are the
   failed ones and their dependents, and Success means that every task completed
   exactly when nothing was left in progress or something failed.
   */
  lemma DrainedWalk(start: seq<Item>, ts: seq<Item>, blocked: set<U32>, failed: set<U32>, stranded: set<U32>,
                    first: Option<FirstFailure>, r: RunResult)
    requires CleanStart(start) && Ordered(ts) && NoneReady(ts)
    requires WalkInvariant(start, ts, blocked, failed, stranded, None)
    requires Reports(ts, blocked, first, r) && (first.None? <==> failed == {})
    requires (first.Some? ==> first.value.task in failed)
    ensures Partitioned(ts, blocked) <==> stranded == {}
    ensures forall x :: x in blocked <==> Doomed(start, failed, x)
    ensures (r.Success? <==> AllCompleted(ts)) <==> (stranded == {} || failed != {})
  {
    DrainPartitions(start, ts, blocked, failed, stranded);
    if failed == {} {
      DrainCompletes(start, ts, blocked, stranded);
    } else {
      var f := first.value.task;
      SameShapeIndex(ts, start, f);
      assert f in blocked && Known(ts, f);
      assert ts[IndexOf(ts, f)].status == Blocked;
    }
  }

  /** Reachability and order depend on the shape only. */
  lemma ShapeKeepsOrdered(ts: seq<Item>, us: seq<Item>)
    requires SameShape(ts, us) && Ordered(ts)
    ensures Ordered(us)
  {
    var order :| Topological(ts, order) && forall i :: 0 <= i < |ts| ==> ts[i].id in order;
    forall i, b | 0 <= i < |order| && Edge(us, order[i], b) && Known(us, b)
      ensures b in order[..i]
    {
      SameShapeIndex(ts, us, order[i]);
      SameShapeIndex(ts, us, b);
      assert Edge(ts, order[i], b) && Known(ts, b);
    }
    assert Topological(us, order);
    assert forall i :: 0 <= i < |us| ==> us[i].id == ts[i].id;
  }

  // ---------------------------------------------------------------------------
  // Picking up the stalled task
  // ---------------------------------------------------------------------------

  /** The position of the first task in progress, or the length of the list. */
  function FirstInProgress(ts: seq<Item>): (i: nat)
    ensures i <= |ts|
    ensures i < |ts| ==> ts[i].status == InProgress
    ensures forall j :: 0 <= j < i ==> ts[j].status != InProgress
  {
    if ts == [] || ts[0].status == InProgress then 0 else 1 + FirstInProgress(ts[1..])
  }

  /** A resume puts the first task in progress back, past the transition rules. */
  function ResetStalled(ts: seq<Item>): (us: seq<Item>)
    ensures SameShape(us, ts)
  {
    var i := FirstInProgress(ts);
    if i < |ts| then ts[i := ts[i].(status := Pending)] else ts
  }

  /** The task a resume takes up: the first one in progress. */
  function Stalled(ts: seq<Item>): (x: Option<U32>)
    ensures x.Some? ==> Known(ts, x.value)
  {
    var i := FirstInProgress(ts);
    if i < |ts| then Some(ts[i].id) else None
  }

  ghost predicate Idle(ts: seq<Item>) {
    forall i :: 0 <= i < |ts| ==> ts[i].status != InProgress
  }

  ghost predicate AtMostOneInProgress(ts: seq<Item>) {
    forall i, j :: 0 <= i < |ts| && 0 <= j < |ts| && ts[i].status == InProgress && ts[j].status == InProgress ==> i == j
  }

  lemma ResetKeepsClosed(ts: seq<Item>)
    requires UniqueIds(ts)
    ensures UniqueIds(ResetStalled(ts)) && KeepsCompleted(ts, ResetStalled(ts))
    ensures CompletedClosed(ts) ==> CompletedClosed(ResetStalled(ts))
  {
    var us := ResetStalled(ts);
    forall i, b | CompletedClosed(ts) && 0 <= i < |us| && us[i].status == Completed && b in us[i].blockers
      ensures IsCompleted(us, b)
    {
      assert IsCompleted(ts, b);
      SameShapeIndex(us, ts, b);
    }
  }

  /** After the reset nothing is in progress, provided at most one task was. */
  lemma ResetLeavesNone(ts: seq<Item>)
    requires AtMostOneInProgress(ts)
    ensures Idle(ResetStalled(ts))
  {
  }

  /**
   When the only task in progress is the one the walk was executing, a resume takes
   up that task and the walk picks it first: it is the least ready one again.
   */
  lemma StalledIsPickedAgain(ts: seq<Item>, x: U32)
    requires UniqueIds(ts) && Resumable(ts, x)
    requires forall i :: 0 <= i < |ts| && ts[i].status == InProgress ==> ts[i].id == x
    ensures Stalled(ts) == Some(x) && ResetStalled(ts) == WithStatus(ts, x, Pending)
    ensures Idle(ResetStalled(ts)) && LeastReady(ResetStalled(ts), x)
  {
    var i, k := FirstInProgress(ts), IndexOf(ts, x);
    assert i <= k;
    UniqueIndex(ts, i);
  }

  // ---------------------------------------------------------------------------
  // Segments
  // ---------------------------------------------------------------------------

  /**
   One run of the walk over the durable list: from `before` to `after`, executing
   the tasks `ran` on the conversations `talks`, where `seed` is the conversation a
   resume carried, `base` the one fresh steps start from, `active` the task that was
   being executed when the walk was left, and `left` the conversation the last executed
   task left behind.
   */
  datatype Segment = Segment(
    before: seq<Item>,
    after: seq<Item>,
    ran: seq<U32>,
    talks: seq<Session>,
    base: Session,
    seed: Option<Session>,
    active: Option<U32>,
    left: Session)

  /** The stalled task continues on the seed the first time it runs; every other run starts from the base. */
  ghost predicate Fed(ran: seq<U32>, talks: seq<Session>, stalled: Option<U32>, seed: Option<Session>, base: Session) {
    && |talks| == |ran|
    && forall k :: 0 <= k < |ran| ==>
         if seed.Some? && stalled == Some(ran[k]) && ran[k] !in ran[..k] then talks[k] == seed.value
         else base <= talks[k]
  }

  lemma FeedNext(ran: seq<U32>, talks: seq<Session>, stalled: Option<U32>, seed: Option<Session>, base: Session,
                 x: U32, talk: Session)
    requires Fed(ran, talks, stalled, seed, base)
    requires if seed.Some? && stalled == Some(x) && x !in ran then talk == seed.value else base <= talk
    ensures Fed(ran + [x], talks + [talk], stalled, seed, base)
  {
    var more := ran + [x];
    forall k | 0 <= k < |more|
      ensures if seed.Some? && stalled == Some(more[k]) && more[k] !in more[..k]
              then (talks + [talk])[k] == seed.value else base <= (talks + [talk])[k]
    {
      assert more[..k] == ran[..k];
      assert k == |ran| ==> ran[..k] == ran;
    }
  }

  /** What every segment promises: nothing completed is reverted or run, and the seed has one taker. */
  ghost predicate SegmentKeeps(g: Segment) {
    && UniqueIds(g.before) && KeepsCompleted(g.before, g.after)
    && (forall x :: x in g.ran ==> Known(g.before, x) && !IsCompleted(g.before, x))
    && Fed(g.ran, g.talks, Stalled(g.before), g.seed, g.base)
  }

  /** At most one task is in progress, and a resume would pick it first. */
  ghost predicate Settled(ts: seq<Item>) {
    AtMostOneInProgress(ts) && (Stalled(ts).Some? ==> Resumable(ts, Stalled(ts).value))
  }

  /** A segment that begins on a settled list, with a seed when a task is in progress. */
  ghost predicate Begins(g: Segment) {
    Settled(g.before) && (g.seed.Some? || Idle(g.before))
  }

  /**
   Begun so, a segment leaves exactly its active task in progress, ready to be
   picked first; and the task that had stalled ran first, on the seed.
   */
  ghost predicate Settles(g: Segment) {
    Begins(g) ==>
      && (forall i :: 0 <= i < |g.after| ==> (g.after[i].status == InProgress <==> g.active == Some(g.after[i].id)))
      && (g.active.Some? ==> Resumable(g.after, g.active.value))
      && (Stalled(g.before).Some? ==>
            && g.ran != [] && g.ran[0] == Stalled(g.before).value
            && g.talks != [] && g.seed.Some? && g.talks[0] == g.seed.value)
  }

  /** Where a walk is left it is such a segment, and it settles unless a reset was refused. */
  lemma WalkIsSegment(before: seq<Item>, start: seq<Item>, ts: seq<Item>, stranded: set<U32>, g: Segment)
    requires UniqueIds(before) && start == if g.seed.Some? then ResetStalled(before) else before
    requires Traced(start, ts, stranded, g.active, g.ran) && Fed(g.ran, g.talks, Stalled(before), g.seed, g.base)
    requires g.ran == [] ==> NoneReady(start) && g.active.None?
    requires g.before == before && g.after == if g.ran == [] then before else ts
    ensures SegmentKeeps(g)
    ensures stranded == {} ==> Settles(g)
  {
    hide Settles, Begins, Ready, Resumable, LeastReady, Fed;
    forall x | x in g.ran
      ensures Known(before, x) && !IsCompleted(before, x)
    {
      SameShapeIndex(start, before, x);
    }
    if stranded == {} {
      SettledStart(before, start, ts, g);
    }
  }

  lemma SettledStart(before: seq<Item>, start: seq<Item>, ts: seq<Item>, g: Segment)
    requires UniqueIds(before) && start == if g.seed.Some? then ResetStalled(before) else before
    requires Traced(start, ts, {}, g.active, g.ran) && Fed(g.ran, g.talks, Stalled(before), g.seed, g.base)
    requires g.ran == [] ==> NoneReady(start) && g.active.None?
    requires g.before == before && g.after == if g.ran == [] then before else ts
    ensures Settles(g)
  {
    if Begins(g) {
      TakesUpStalled(before, start, g);
      if g.active.Some? {
        forall i | 0 <= i < |ts| && g.active == Some(ts[i].id)
          ensures ts[i].status == InProgress
        {
          SameShapeIndex(ts, start, ts[i].id);
          UniqueIndex(start, i);
        }
      }
    }
  }

  /** The run of a settled list starts with nothing in progress, and with the stalled task when there is one. */
  lemma TakesUpStalled(before: seq<Item>, start: seq<Item>, g: Segment)
    requires UniqueIds(before) && start == if g.seed.Some? then ResetStalled(before) else before
    requires g.before == before && Begins(g)
    requires if g.ran == [] then NoneReady(start) else LeastReady(start, g.ran[0])
    requires Fed(g.ran, g.talks, Stalled(before), g.seed, g.base)
    ensures Idle(start)
    ensures Stalled(before).Some? ==>
              && g.ran != [] && g.ran[0] == Stalled(before).value
              && g.talks != [] && g.seed.Some? && g.talks[0] == g.seed.value
    ensures g.ran == [] ==> Idle(before)
  {
    var stalled := Stalled(before);
    if stalled.Some? {
      var x := stalled.value;
      forall i | 0 <= i < |before| && before[i].status == InProgress
        ensures before[i].id == x
      {
      }
      StalledIsPickedAgain(before, x);
      assert Ready(start, IndexOf(start, x));
      assert g.ran != [] && g.ran[..0] == [];
    } else if g.seed.Some? {
      ResetLeavesNone(before);
    }
  }

  /** Over a list whose completion is closed, a segment settles exactly when no reset was refused. */
  lemma SettlesExactly(start: seq<Item>, ts: seq<Item>, blocked: set<U32>, failed: set<U32>, stranded: set<U32>,
                       g: Segment)
    requires WalkInvariant(start, ts, blocked, failed, stranded, g.active)
    requires CompletedClosed(start) && Begins(g) && g.after == ts
    requires stranded == {} ==> Settles(g)
    ensures Settles(g) <==> stranded == {}
  {
    if stranded != {} {
      var x :| x in stranded;
      SameShapeIndex(ts, start, x);
      assert ts[IndexOf(ts, x)].status == InProgress;
    }
  }

  // ---------------------------------------------------------------------------
  // Chains of segments
  // ---------------------------------------------------------------------------

  /** The next run starts from the list the last one left, with a seed unless nothing was being executed. */
  ghost predicate Links(g: Segment, h: Segment) {
    h.before == g.after && (h.seed.Some? || g.active.None?)
  }

  ghost predicate Chained(gs: seq<Segment>) {
    && (forall k :: 0 <= k < |gs| ==> SegmentKeeps(gs[k]))
    && (forall k :: 0 < k < |gs| ==> Links(gs[k - 1], gs[k]))
  }

  /** A resumed run extends the chain of the runs before it. */
  lemma ChainsAppend(past: seq<Segment>, gs: seq<Segment>)
    requires Chained(past) && Chained(gs)
    requires past != [] && gs != [] ==> Links(past[|past| - 1], gs[0])
    ensures Chained(past + gs)
  {
    var all := past + gs;
    forall k | 0 < k < |all|
      ensures Links(all[k - 1], all[k])
    {
      if k > |past| {
        assert Links(gs[k - |past| - 1], gs[k - |past|]);
      }
    }
  }

  lemma {:induction false} CompletedForGood(gs: seq<Segment>, i: nat, j: nat)
    requires Chained(gs) && i <= j < |gs|
    ensures KeepsCompleted(gs[i].before, gs[j].after) && KeepsCompleted(gs[i].before, gs[j].before)
    decreases j
  {
    if i < j {
      CompletedForGood(gs, i, j - 1);
      assert Links(gs[j - 1], gs[j]);
    }
  }

  /** No completed task is ever reverted or executed again, whatever was refused or granted. */
  lemma CompletedStays(gs: seq<Segment>, i: nat, j: nat, x: U32)
    requires Chained(gs) && i <= j < |gs| && IsCompleted(gs[i].before, x)
    ensures IsCompleted(gs[j].after, x) && x !in gs[j].ran
  {
    CompletedForGood(gs, i, j);
    SameShapeIndex(gs[i].before, gs[j].after, x);
    SameShapeIndex(gs[i].before, gs[j].before, x);
  }

  /** A settled end is a settled beginning for the next run. */
  lemma SettlesOn(g: Segment)
    requires SegmentKeeps(g) && Settles(g) && Begins(g)
    ensures Settled(g.after) && Stalled(g.after) == g.active && AtMostOneInProgress(g.after)
    ensures g.active.None? ==> Idle(g.after)
  {
    var ts := g.after;
    forall i, j | 0 <= i < |ts| && 0 <= j < |ts| && ts[i].status == InProgress && ts[j].status == InProgress
      ensures i == j
    {
      assert g.before[i].id == g.after[i].id && g.before[j].id == g.after[j].id;
    }
    if g.active.Some? {
      var i := IndexOf(g.after, g.active.value);
      assert FirstInProgress(g.after) <= i;
    }
  }

  /**
   Across any number of pauses and seed-carrying resumes: at most one task is in
   progress, and it is the one that was being executed; each resume runs that task
   first, and on the conversation it carries.
   */
  lemma {:induction false} ResumeChain(gs: seq<Segment>, j: nat)
    requires Chained(gs) && j < |gs| && Begins(gs[0])
    requires forall k :: 0 <= k <= j ==> Settles(gs[k])
    ensures AtMostOneInProgress(gs[j].before) && AtMostOneInProgress(gs[j].after)
    ensures Stalled(gs[j].after) == gs[j].active && Begins(gs[j])
    ensures j > 0 && gs[j - 1].active.Some? ==>
              && gs[j].ran != [] && gs[j].ran[0] == gs[j - 1].active.value
              && gs[j].talks != [] && gs[j].seed == Some(gs[j].talks[0])
    decreases j
  {
    if j > 0 {
      ResumeChain(gs, j - 1);
      assert Links(gs[j - 1], gs[j]);
      SettlesOn(gs[j - 1]);
    }
    SettlesOn(gs[j]);
  }
}
