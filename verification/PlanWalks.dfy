/**
 The ready-set walk over a task list: what every step keeps, and what the tasks
 look like once no pending task is ready.
 */
module PlanWalks {
  import opened Words
  import opened TaskLists

  /** Nothing counts as completed before everything it waits for. */
  predicate CompletedClosed(ts: seq<Item>) {
    forall i, b :: 0 <= i < |ts| && ts[i].status == Completed && b in ts[i].blockers ==> IsCompleted(ts, b)
  }

  /** A list as authored, possibly partly completed by an earlier run. */
  ghost predicate CleanStart(ts: seq<Item>) {
    && UniqueIds(ts)
    && CompletedClosed(ts)
    && (forall i :: 0 <= i < |ts| ==> ts[i].status == Pending || ts[i].status == Completed)
    && (forall i, b :: 0 <= i < |ts| && b in ts[i].blockers ==> Known(ts, b))
  }

  /** `x` failed or waits for a task that failed. */
  ghost predicate Doomed(ts: seq<Item>, failed: set<U32>, x: U32) {
    x in failed || exists f :: f in failed && Reaches(ts, x, f)
  }

  /** The blockers of task i are completed. */
  ghost predicate Unblocked(ts: seq<Item>, i: nat)
    requires i < |ts|
  {
    forall b :: b in ts[i].blockers ==> IsCompleted(ts, b)
  }

  /**
   The invariant of the walk that started from `start`. `active` is the task
   being executed, `stranded` the executed tasks whose reset was refused.
   */
  ghost predicate WalkInvariant(start: seq<Item>, ts: seq<Item>, blocked: set<U32>, failed: set<U32>,
                                stranded: set<U32>, active: Option<U32>) {
    && SameShape(ts, start) && UniqueIds(start)
    && (forall x :: x in blocked <==> Doomed(start, failed, x))
    && (forall i :: 0 <= i < |ts| ==>
          && (start[i].status == Completed ==> ts[i].status == Completed)
          && (ts[i].id in blocked ==> ts[i].status == Blocked || ts[i].status == Completed)
          && (ts[i].status == Blocked ==> ts[i].id in blocked || start[i].status == Blocked)
          && (ts[i].status == InProgress ==>
                ts[i].id in stranded || active == Some(ts[i].id) || start[i].status == InProgress)
          && (ts[i].id in stranded ==> ts[i].status == InProgress || ts[i].status == Blocked)
          && (active == Some(ts[i].id) ==> ts[i].status == InProgress && Unblocked(ts, i)))
    && (forall x :: x in failed || x in stranded || active == Some(x) ==> Known(start, x))
    && (active.Some? ==> active.value !in stranded)
    && (CompletedClosed(start) ==> ClosedInvariant(ts, blocked, stranded))
  }

  /** What the walk keeps besides when completion was closed at its start. */
  ghost predicate ClosedInvariant(ts: seq<Item>, blocked: set<U32>, stranded: set<U32>) {
    && CompletedClosed(ts)
    && forall i :: 0 <= i < |ts| ==>
         && (ts[i].id in blocked ==> ts[i].status == Blocked)
         && (ts[i].id in stranded ==> ts[i].status == InProgress && Unblocked(ts, i))
  }

  /** Completion is inherited along the blocker edges. */
  lemma {:induction false} CompletedDownPath(ts: seq<Item>, p: seq<U32>)
    requires CompletedClosed(ts) && IsPath(ts, p) && IsCompleted(ts, p[0])
    ensures IsCompleted(ts, p[|p| - 1])
    decreases |p|
  {
    if |p| > 1 {
      assert Edge(ts, p[0], p[1]);
      TailIsPath(ts, p);
      CompletedDownPath(ts, p[1..]);
    }
  }

  lemma CompletedDown(ts: seq<Item>, a: U32, b: U32)
    requires CompletedClosed(ts) && IsCompleted(ts, a) && Reaches(ts, a, b)
    ensures IsCompleted(ts, b)
  {
    var p :| |p| > 1 && PathBetween(ts, p, a, b);
    CompletedDownPath(ts, p);
  }

  /** A task whose blockers are completed waits for completed tasks only. */
  lemma UnblockedDown(ts: seq<Item>, i: nat, b: U32)
    requires CompletedClosed(ts) && UniqueIds(ts) && i < |ts| && Unblocked(ts, i) && Reaches(ts, ts[i].id, b)
    ensures IsCompleted(ts, b)
  {
    UniqueIndex(ts, i);
    var c := ReachesFirst(ts, ts[i].id, b);
    if c != b {
      CompletedDown(ts, c, b);
    }
  }

  lemma ShapeKeepsUnique(ts: seq<Item>, us: seq<Item>)
    requires SameShape(ts, us) && UniqueIds(us)
    ensures UniqueIds(ts)
  {
  }

  // ---------------------------------------------------------------------------
  // The steps
  // ---------------------------------------------------------------------------

  /** Writing a status other than Completed over one that is not Completed keeps closure. */
  lemma WithStatusKeepsClosed(ts: seq<Item>, id: U32, to: Status)
    requires UniqueIds(ts) && Known(ts, id)
    requires to == Completed ==> Unblocked(ts, IndexOf(ts, id))
    requires ts[IndexOf(ts, id)].status == Completed ==> to == Completed
    ensures CompletedClosed(ts) ==> CompletedClosed(WithStatus(ts, id, to))
    ensures forall b :: b != id ==> (IsCompleted(WithStatus(ts, id, to), b) <==> IsCompleted(ts, b))
    ensures IsCompleted(WithStatus(ts, id, to), id) <==> to == Completed
  {
    var us := WithStatus(ts, id, to);
    forall b
      ensures IndexOf(us, b) == IndexOf(ts, b)
    {
      SameShapeIndex(ts, us, b);
    }
    forall i, b | CompletedClosed(ts) && 0 <= i < |us| && us[i].status == Completed && b in us[i].blockers
      ensures IsCompleted(us, b)
    {
      assert IsCompleted(ts, b);
    }
  }

  /** The closed part of the invariant, when a task that is not completed changes its status. */
  lemma WithStatusKeepsInvariant(ts: seq<Item>, blocked: set<U32>, stranded: set<U32>, id: U32, to: Status)
    requires ClosedInvariant(ts, blocked, stranded) && UniqueIds(ts) && Known(ts, id)
    requires ts[IndexOf(ts, id)].status != Completed && (to == Completed ==> Unblocked(ts, IndexOf(ts, id)))
    requires id !in blocked && id !in stranded
    ensures ClosedInvariant(WithStatus(ts, id, to), blocked, stranded)
  {
    WithStatusKeepsClosed(ts, id, to);
  }

  /** Starting a ready task. */
  lemma StartKeeps(start: seq<Item>, ts: seq<Item>, blocked: set<U32>, failed: set<U32>, stranded: set<U32>, i: nat)
    requires WalkInvariant(start, ts, blocked, failed, stranded, None)
    requires i < |ts| && Ready(ts, i)
    ensures Updated(ts, ts[i].id, InProgress) == WithStatus(ts, ts[i].id, InProgress)
    ensures WalkInvariant(start, WithStatus(ts, ts[i].id, InProgress), blocked, failed, stranded, Some(ts[i].id))
  {
    hide ClosedInvariant, CompletedClosed, Doomed;
    ShapeKeepsUnique(ts, start);
    UniqueIndex(ts, i);
    if CompletedClosed(start) {
      WithStatusKeepsInvariant(ts, blocked, stranded, ts[i].id, InProgress);
    }
    assert start[i].id == ts[i].id;
  }

  /** Completing the active task. */
  lemma CompleteKeeps(start: seq<Item>, ts: seq<Item>, blocked: set<U32>, failed: set<U32>, stranded: set<U32>, id: U32)
    requires WalkInvariant(start, ts, blocked, failed, stranded, Some(id))
    ensures Known(ts, id) && Updated(ts, id, Completed) == WithStatus(ts, id, Completed)
    ensures WalkInvariant(start, WithStatus(ts, id, Completed), blocked, failed, stranded, None)
  {
    hide ClosedInvariant, CompletedClosed, Doomed;
    ShapeKeepsUnique(ts, start);
    SameShapeIndex(ts, start, id);
    if CompletedClosed(start) {
      WithStatusKeepsInvariant(ts, blocked, stranded, id, Completed);
    }
  }

  /** A refused reset leaves the active task in progress for good. */
  lemma StrandKeeps(start: seq<Item>, ts: seq<Item>, blocked: set<U32>, failed: set<U32>, stranded: set<U32>, id: U32)
    requires WalkInvariant(start, ts, blocked, failed, stranded, Some(id))
    ensures Updated(ts, id, Pending) == ts
    ensures WalkInvariant(start, ts, blocked, failed, stranded + {id}, None)
  {
    SameShapeIndex(ts, start, id);
  }

  /** A reset that takes effect puts the active task back. */
  lemma ResetKeeps(start: seq<Item>, ts: seq<Item>, blocked: set<U32>, failed: set<U32>, stranded: set<U32>, id: U32)
    requires WalkInvariant(start, ts, blocked, failed, stranded, Some(id))
    ensures WalkInvariant(start, WithStatus(ts, id, Pending), blocked, failed, stranded, None)
  {
    hide ClosedInvariant, CompletedClosed, Doomed;
    ShapeKeepsUnique(ts, start);
    SameShapeIndex(ts, start, id);
    if CompletedClosed(start) {
      WithStatusKeepsInvariant(ts, blocked, stranded, id, Pending);
    }
  }

  /** The list after a cascade: `hit` tasks are blocked unless they are completed. */
  ghost predicate CascadedTo(ts: seq<Item>, us: seq<Item>, hit: set<U32>) {
    && SameShape(us, ts)
    && forall i :: 0 <= i < |ts| ==>
         us[i].status == if ts[i].id in hit && ts[i].status != Completed then Blocked else ts[i].status
  }

  /** A task failed: it and everything that waits for it is blocked unless completed, and nothing else changed. */
  ghost predicate FailedTo(ts: seq<Item>, us: seq<Item>, id: U32) {
    && SameShape(us, ts)
    && forall i :: 0 <= i < |ts| ==>
         us[i].status == if (ts[i].id == id || Reaches(ts, ts[i].id, id)) && ts[i].status != Completed then Blocked
                         else ts[i].status
  }

  lemma FailsExactly(ts: seq<Item>, us: seq<Item>, id: U32, hit: set<U32>)
    requires CascadedTo(ts, us, hit)
    requires forall x :: x in hit <==> x == id || (x != id && Reaches(ts, x, id))
    ensures FailedTo(ts, us, id)
  {
    hide Reaches;
  }

  lemma BlockOne(ts: seq<Item>, id: U32)
    requires UniqueIds(ts)
    ensures CascadedTo(ts, Updated(ts, id, Blocked), {id})
  {
    forall i | 0 <= i < |ts| && ts[i].id == id
      ensures IndexOf(ts, id) == i
    {
      UniqueIndex(ts, i);
    }
  }

  lemma CascadesCompose(ts: seq<Item>, us: seq<Item>, vs: seq<Item>, h: set<U32>, k: set<U32>)
    requires CascadedTo(ts, us, h) && CascadedTo(us, vs, k)
    ensures CascadedTo(ts, vs, h + k)
  {
  }

  /** The dependents were computed after the failed task was blocked; the graph is the same. */
  lemma CascadeHits(ts: seq<Item>, us: seq<Item>, id: U32, dependents: seq<U32>, hit: set<U32>)
    requires SameShape(us, ts)
    requires forall d :: d in dependents <==> d != id && Reaches(us, d, id)
    requires forall x :: x in hit <==> x == id || x in dependents
    ensures forall x :: x in hit <==> x == id || (x != id && Reaches(ts, x, id))
  {
    forall x
      ensures Reaches(us, x, id) <==> Reaches(ts, x, id)
    {
      if Reaches(us, x, id) {
        ShapeKeepsReach(us, ts, x, id);
      }
      if Reaches(ts, x, id) {
        ShapeKeepsReach(ts, us, x, id);
      }
    }
  }

  /** Under closed completion no completed and no stranded task waits for a task in progress. */
  lemma CascadeSpares(ts: seq<Item>, stranded: set<U32>, id: U32, hit: set<U32>)
    requires UniqueIds(ts) && CompletedClosed(ts) && id !in stranded
    requires Known(ts, id) && ts[IndexOf(ts, id)].status == InProgress
    requires forall i :: 0 <= i < |ts| && ts[i].id in stranded ==> ts[i].status == InProgress && Unblocked(ts, i)
    requires forall x :: x in hit <==> x == id || (x != id && Reaches(ts, x, id))
    ensures forall i :: 0 <= i < |ts| && ts[i].id in hit ==> ts[i].status != Completed && ts[i].id !in stranded
  {
    forall i | 0 <= i < |ts| && ts[i].id in hit
      ensures ts[i].status != Completed && ts[i].id !in stranded
    {
      UniqueIndex(ts, i);
      if ts[i].id != id && (ts[i].status == Completed || ts[i].id in stranded) {
        if ts[i].status == Completed {
          CompletedDown(ts, ts[i].id, id);
        } else {
          UnblockedDown(ts, i, id);
        }
        assert false;
      }
    }
  }

  /** The active task fails: it and everything waiting for it are blocked. */
  lemma CascadeKeeps(start: seq<Item>, ts: seq<Item>, blocked: set<U32>, failed: set<U32>, stranded: set<U32>,
                     id: U32, us: seq<Item>, hit: set<U32>)
    requires WalkInvariant(start, ts, blocked, failed, stranded, Some(id))
    requires forall x :: x in hit <==> x == id || (x != id && Reaches(ts, x, id))
    requires CascadedTo(ts, us, hit)
    ensures WalkInvariant(start, us, blocked + hit, failed + {id}, stranded, None)
  {
    hide ClosedInvariant, CompletedClosed, Doomed, Reaches;
    ShapeKeepsUnique(ts, start);
    SameShapeIndex(ts, start, id);
    if CompletedClosed(start) {
      CascadeKeepsClosed(ts, blocked, stranded, id, us, hit);
    }
    CascadeDooms(start, ts, blocked, failed, id, hit);
  }

  lemma CascadeKeepsClosed(ts: seq<Item>, blocked: set<U32>, stranded: set<U32>, id: U32, us: seq<Item>, hit: set<U32>)
    requires ClosedInvariant(ts, blocked, stranded) && UniqueIds(ts) && id !in stranded
    requires Known(ts, id) && ts[IndexOf(ts, id)].status == InProgress
    requires forall x :: x in hit <==> x == id || (x != id && Reaches(ts, x, id))
    requires CascadedTo(ts, us, hit)
    ensures ClosedInvariant(us, blocked + hit, stranded)
  {
    CascadeSpares(ts, stranded, id, hit);
    forall b
      ensures IsCompleted(us, b) <==> IsCompleted(ts, b)
    {
      SameShapeIndex(us, ts, b);
    }
  }

  /** One more failure dooms exactly the tasks it hits. */
  lemma CascadeDooms(start: seq<Item>, ts: seq<Item>, blocked: set<U32>, failed: set<U32>, id: U32, hit: set<U32>)
    requires SameShape(ts, start) && forall x :: x in blocked <==> Doomed(start, failed, x)
    requires forall x :: x in hit <==> x == id || (x != id && Reaches(ts, x, id))
    ensures forall x :: x in blocked + hit <==> Doomed(start, failed + {id}, x)
  {
    forall x
      ensures x in blocked + hit <==> Doomed(start, failed + {id}, x)
    {
      if x in hit && x != id {
        ShapeKeepsReach(ts, start, x, id);
      }
      if Doomed(start, failed + {id}, x) && !Doomed(start, failed, x) && x != id {
        ShapeKeepsReach(start, ts, x, id);
      }
    }
  }

  // ---------------------------------------------------------------------------
  // The drained list
  // ---------------------------------------------------------------------------

  ghost predicate NoneReady(ts: seq<Item>) {
    forall i :: 0 <= i < |ts| ==> !Ready(ts, i)
  }

  /** A task the walk can never start, for a reason of its own. */
  ghost predicate Source(ts: seq<Item>, blocked: set<U32>, x: U32) {
    Known(ts, x) && var t := ts[IndexOf(ts, x)];
    || t.status == InProgress
    || (t.status == Blocked && x !in blocked)
    || (t.status == Pending && exists b :: b in t.blockers && !Known(ts, b))
  }

  /** A task the walk can never start. */
  ghost predicate Stuck(ts: seq<Item>, blocked: set<U32>, x: U32) {
    Source(ts, blocked, x)
    || (Known(ts, x) && ts[IndexOf(ts, x)].status == Pending && exists y :: Source(ts, blocked, y) && Reaches(ts, x, y))
  }

  /** A pending task of a drained list waits, in the end, for a source. */
  lemma {:induction false} PendingIsStuck(start: seq<Item>, ts: seq<Item>, blocked: set<U32>, failed: set<U32>,
                                          stranded: set<U32>, order: seq<U32>, k: nat)
    requires WalkInvariant(start, ts, blocked, failed, stranded, None) && NoneReady(ts)
    requires Topological(ts, order) && forall i :: 0 <= i < |ts| ==> ts[i].id in order
    requires k < |order| && Known(ts, order[k]) && ts[IndexOf(ts, order[k])].status == Pending
    ensures Stuck(ts, blocked, order[k])
    decreases k
  {
    var x := order[k];
    var i := IndexOf(ts, x);
    assert !Ready(ts, i);
    var b :| b in ts[i].blockers && !IsCompleted(ts, b);
    assert Edge(ts, x, b);
    EdgeReaches(ts, x, b);
    if Known(ts, b) {
      var j := IndexOf(ts, b);
      if b in blocked {
        ShapeKeepsReach(ts, start, x, b);
        BlockedSpreads(start, failed, x, b);
        assert false;
      } else if ts[j].status == Pending {
        assert b in order[..k];
        var m :| 0 <= m < k && order[m] == b;
        PendingIsStuck(start, ts, blocked, failed, stranded, order, m);
        if !Source(ts, blocked, b) {
          var y :| Source(ts, blocked, y) && Reaches(ts, b, y);
          ReachesTransitive(ts, x, b, y);
        }
      } else {
        assert Source(ts, blocked, b);
      }
    }
  }

  lemma BlockedSpreads(start: seq<Item>, failed: set<U32>, x: U32, b: U32)
    requires Reaches(start, x, b) && Doomed(start, failed, b)
    ensures Doomed(start, failed, x)
  {
    if b !in failed {
      var f :| f in failed && Reaches(start, b, f);
      ReachesTransitive(start, x, b, f);
    }
  }

  /**
   Once no task is ready, every task is in exactly one of three classes:
   completed, blocked by a failure, or stuck behind a source. Only completed tasks
   with an uncompleted blocker at the start could be in the first two at once.
   */
  lemma DrainClassifies(start: seq<Item>, ts: seq<Item>, blocked: set<U32>, failed: set<U32>, stranded: set<U32>,
                        x: U32)
    requires WalkInvariant(start, ts, blocked, failed, stranded, None) && NoneReady(ts) && Ordered(ts)
    requires Known(ts, x)
    ensures IsCompleted(ts, x) || x in blocked || Stuck(ts, blocked, x)
    ensures CompletedClosed(start) ==> !(IsCompleted(ts, x) && x in blocked)
    ensures !(IsCompleted(ts, x) && Stuck(ts, blocked, x))
    ensures !(x in blocked && Stuck(ts, blocked, x))
  {
    var i := IndexOf(ts, x);
    var order :| Topological(ts, order) && forall i :: 0 <= i < |ts| ==> ts[i].id in order;
    if ts[i].status == Pending {
      var k :| 0 <= k < |order| && order[k] == x;
      PendingIsStuck(start, ts, blocked, failed, stranded, order, k);
    }
  }

  /** Completed and blocked-by-failure split the list between them. */
  ghost predicate Partitioned(ts: seq<Item>, blocked: set<U32>) {
    forall x :: Known(ts, x) ==> (IsCompleted(ts, x) <==> x !in blocked)
  }

  /** A clean start leaves in-progress tasks as the only possible sources. */
  lemma SourcesAreStranded(start: seq<Item>, ts: seq<Item>, blocked: set<U32>, failed: set<U32>, stranded: set<U32>,
                           y: U32)
    requires CleanStart(start)
    requires WalkInvariant(start, ts, blocked, failed, stranded, None)
    ensures Source(ts, blocked, y) <==> y in stranded
  {
    SameShapeIndex(ts, start, y);
    if Known(ts, y) {
      var i := IndexOf(ts, y);
      forall b | b in ts[i].blockers
        ensures Known(ts, b)
      {
        assert b in start[i].blockers && Known(start, b);
        SameShapeIndex(ts, start, b);
      }
    }
  }

  /**
   A walk over a clean list ends in the promised partition exactly when no
   executed task was left in progress.
   */
  lemma DrainPartitions(start: seq<Item>, ts: seq<Item>, blocked: set<U32>, failed: set<U32>, stranded: set<U32>)
    requires CleanStart(start)
    requires WalkInvariant(start, ts, blocked, failed, stranded, None) && NoneReady(ts) && Ordered(ts)
    ensures Partitioned(ts, blocked) <==> stranded == {}
  {
    forall x | Known(ts, x)
      ensures stranded == {} ==> (IsCompleted(ts, x) <==> x !in blocked)
    {
      DrainClassifies(start, ts, blocked, failed, stranded, x);
      forall y {
        SourcesAreStranded(start, ts, blocked, failed, stranded, y);
      }
    }
    if stranded != {} {
      var x :| x in stranded;
      SameShapeIndex(ts, start, x);
      assert ts[IndexOf(ts, x)].status == InProgress && Known(ts, x);
    }
  }

  /** Without failures, every task completed exactly when none was left in progress. */
  lemma DrainCompletes(start: seq<Item>, ts: seq<Item>, blocked: set<U32>, stranded: set<U32>)
    requires CleanStart(start)
    requires WalkInvariant(start, ts, blocked, {}, stranded, None) && NoneReady(ts) && Ordered(ts)
    ensures AllCompleted(ts) <==> stranded == {}
  {
    DrainPartitions(start, ts, blocked, {}, stranded);
    ShapeKeepsUnique(ts, start);
    if stranded == {} {
      forall i | 0 <= i < |ts|
        ensures ts[i].status == Completed
      {
        UniqueIndex(ts, i);
        assert Known(ts, ts[i].id);
      }
    } else {
      var x :| x in stranded;
      SameShapeIndex(ts, start, x);
    }
  }

  ghost predicate AllCompleted(ts: seq<Item>) {
    forall i :: 0 <= i < |ts| ==> ts[i].status == Completed
  }

  // ---------------------------------------------------------------------------
  // The walk as an object
  // ---------------------------------------------------------------------------

  datatype FirstFailure = FirstFailure(task: U32, reason: string)

  /** How many tasks can still be picked. */
  ghost function Pendings(ts: seq<Item>): (n: nat)
    ensures n <= |ts|
  {
    if ts == [] then 0 else (if ts[0].status == Pending then 1 else 0) + Pendings(ts[1..])
  }

  /** Only task j may have become pending; it may also have stopped being so. */
  lemma {:induction false} PendingsChange(ts: seq<Item>, us: seq<Item>, j: nat)
    requires |ts| == |us|
    requires forall i :: 0 <= i < |ts| && i != j && us[i].status == Pending ==> ts[i].status == Pending
    ensures Pendings(us) <= Pendings(ts)
                            + if j < |ts| && us[j].status == Pending && ts[j].status != Pending then 1 else 0
    ensures j < |ts| && ts[j].status == Pending && us[j].status != Pending ==> Pendings(us) < Pendings(ts)
  {
    if ts != [] {
      PendingsChange(ts[1..], us[1..], if j > 0 then j - 1 else |ts|);
    }
  }

  /** Every executed task was pending when the walk began. */
  ghost predicate RanPending(start: seq<Item>, ran: seq<U32>) {
    forall x :: x in ran ==> Known(start, x) && start[IndexOf(start, x)].status == Pending
  }

  /** Each pick spends a pending task, and only a reset that takes effect adds one. */
  ghost predicate Counted(start: seq<Item>, ts: seq<Item>, ran: seq<U32>, requeued: nat) {
    |ran| + Pendings(ts) <= |start| + requeued
  }

  /** What the walk never picks or completes: a task that was not pending at the start. */
  ghost predicate PendingFromStart(start: seq<Item>, ts: seq<Item>) {
    forall i :: 0 <= i < |ts| && i < |start| ==>
      && (ts[i].status == Pending ==> start[i].status == Pending)
      && (ts[i].status == Completed ==> start[i].status == Completed || start[i].status == Pending)
  }

  lemma StartCounts(start: seq<Item>, ts: seq<Item>, ran: seq<U32>, requeued: nat, i: nat)
    requires SameShape(ts, start) && UniqueIds(start) && Counted(start, ts, ran, requeued)
    requires PendingFromStart(start, ts)
    requires i < |ts| && ts[i].status == Pending
    ensures var us := WithStatus(ts, ts[i].id, InProgress);
      Counted(start, us, ran + [ts[i].id], requeued) && PendingFromStart(start, us) && Pendings(us) < Pendings(ts)
  {
    var us := WithStatus(ts, ts[i].id, InProgress);
    UniqueIndex(start, i);
    SameShapeIndex(ts, start, ts[i].id);
    PendingsChange(ts, us, i);
  }

  /** A step that makes no task pending keeps the count. */
  lemma KeepsCounts(start: seq<Item>, ts: seq<Item>, us: seq<Item>, ran: seq<U32>, requeued: nat)
    requires |us| == |ts| && Counted(start, ts, ran, requeued) && PendingFromStart(start, ts)
    requires forall i :: 0 <= i < |us| && (us[i].status == Pending || us[i].status == Completed) ==>
               us[i].status == ts[i].status
    ensures Counted(start, us, ran, requeued) && PendingFromStart(start, us) && Pendings(us) <= Pendings(ts)
  {
    PendingsChange(ts, us, |ts|);
  }

  lemma CascadeCounts(start: seq<Item>, ts: seq<Item>, us: seq<Item>, hit: set<U32>, ran: seq<U32>, requeued: nat)
    requires CascadedTo(ts, us, hit) && Counted(start, ts, ran, requeued) && PendingFromStart(start, ts)
    ensures Counted(start, us, ran, requeued) && PendingFromStart(start, us) && Pendings(us) <= Pendings(ts)
  {
    KeepsCounts(start, ts, us, ran, requeued);
  }

  /** The active task gets another status; only a reset makes it pending again. */
  lemma SettleCounts(start: seq<Item>, ts: seq<Item>, id: U32, ran: seq<U32>, requeued: nat, to: Status)
    requires SameShape(ts, start) && UniqueIds(start) && Counted(start, ts, ran, requeued)
    requires PendingFromStart(start, ts)
    requires id in ran && RanPending(start, ran) && Known(ts, id) && ts[IndexOf(ts, id)].status == InProgress
    ensures var us := WithStatus(ts, id, to);
      && PendingFromStart(start, us)
      && Counted(start, us, ran, if to == Pending then requeued + 1 else requeued)
      && (to != Pending ==> Pendings(us) <= Pendings(ts))
  {
    SameShapeIndex(ts, start, id);
    PendingsChange(ts, WithStatus(ts, id, to), IndexOf(ts, id));
  }

  lemma ActiveInProgress(start: seq<Item>, ts: seq<Item>, blocked: set<U32>, failed: set<U32>, stranded: set<U32>,
                         id: U32,
                         ran: seq<U32>)
    requires WalkInvariant(start, ts, blocked, failed, stranded, Some(id))
    requires Traced(start, ts, stranded, Some(id), ran)
    ensures UniqueIds(start) && UniqueIds(ts) && SameShape(ts, start) && RanPending(start, ran)
    ensures Known(ts, id) && ts[IndexOf(ts, id)].status == InProgress
  {
    SameShapeIndex(ts, start, id);
  }

  lemma WalkIsUnique(start: seq<Item>, ts: seq<Item>, blocked: set<U32>, failed: set<U32>, stranded: set<U32>,
                     active: Option<U32>)
    requires WalkInvariant(start, ts, blocked, failed, stranded, active)
    ensures UniqueIds(start) && UniqueIds(ts) && SameShape(ts, start)
  {
  }

  lemma CascadeShape(ts: seq<Item>, us: seq<Item>, hit: set<U32>)
    requires CascadedTo(ts, us, hit)
    ensures SameShape(us, ts)
  {
  }

  /** Completed tasks stay completed. */
  ghost predicate KeepsCompleted(ts: seq<Item>, us: seq<Item>) {
    SameShape(us, ts) && forall i :: 0 <= i < |ts| && ts[i].status == Completed ==> us[i].status == Completed
  }

  /** The ready task of smallest id, the one the walk picks next. */
  ghost predicate LeastReady(ts: seq<Item>, x: U32) {
    && Known(ts, x) && Ready(ts, IndexOf(ts, x))
    && forall i :: 0 <= i < |ts| && Ready(ts, i) ==> x <= ts[i].id
  }

  /** In progress, and picked first once it is pending again. */
  ghost predicate Resumable(ts: seq<Item>, x: U32) {
    Known(ts, x) && ts[IndexOf(ts, x)].status == InProgress && LeastReady(WithStatus(ts, x, Pending), x)
  }

  /** What holds of the list wherever a walk is left. */
  ghost predicate Traced(start: seq<Item>, ts: seq<Item>, stranded: set<U32>, active: Option<U32>, ran: seq<U32>) {
    && UniqueIds(start) && KeepsCompleted(start, ts)
    && (forall i :: 0 <= i < |ts| && ts[i].status == InProgress ==>
          ts[i].id in stranded || active == Some(ts[i].id) || start[i].status == InProgress)
    && (active.Some? ==> Resumable(ts, active.value))
    && RanPending(start, ran)
    && (ran == [] ==> ts == start)
    && (ran != [] ==> LeastReady(start, ran[0]))
  }

  lemma PickIsResumable(ts: seq<Item>, x: U32)
    requires LeastReady(ts, x)
    ensures Resumable(WithStatus(ts, x, InProgress), x)
  {
    var us := WithStatus(ts, x, InProgress);
    SameShapeIndex(us, ts, x);
    assert WithStatus(us, x, Pending) == ts;
  }

  lemma PickIsLeast(ts: seq<Item>, i: nat)
    requires UniqueIds(ts) && i < |ts| && Ready(ts, i)
    requires forall j :: 0 <= j < |ts| && Ready(ts, j) ==> ts[i].id <= ts[j].id
    ensures LeastReady(ts, ts[i].id)
  {
    UniqueIndex(ts, i);
  }

  /** The first pick is made from the list the walk started from. */
  lemma StartTraces(start: seq<Item>, ts: seq<Item>, stranded: set<U32>, ran: seq<U32>, x: U32)
    requires Traced(start, ts, stranded, None, ran) && LeastReady(ts, x) && PendingFromStart(start, ts)
    ensures Traced(start, WithStatus(ts, x, InProgress), stranded, Some(x), ran + [x])
  {
    PickIsResumable(ts, x);
    SameShapeIndex(ts, start, x);
    forall y | y in ran + [x]
      ensures Known(start, y) && start[IndexOf(start, y)].status == Pending
    {
    }
    if ran != [] {
      assert (ran + [x])[0] == ran[0];
    }
  }

  /** A step that puts nothing in progress, forgets the active task, and keeps what was completed. */
  lemma StepTraces(start: seq<Item>, ts: seq<Item>, us: seq<Item>, stranded: set<U32>, id: U32, ran: seq<U32>)
    requires Traced(start, ts, stranded, Some(id), ran) && ran != []
    requires KeepsCompleted(ts, us)
    requires forall i :: 0 <= i < |us| && us[i].status == InProgress ==> ts[i].status == InProgress && ts[i].id != id
    ensures Traced(start, us, stranded, None, ran)
  {
  }

  /** The active task gets another status. */
  lemma SettleTraces(start: seq<Item>, ts: seq<Item>, stranded: set<U32>, id: U32, ran: seq<U32>, to: Status)
    requires Traced(start, ts, stranded, Some(id), ran) && ran != [] && to != InProgress
    ensures Traced(start, WithStatus(ts, id, to), stranded, None, ran)
  {
    StepTraces(start, ts, WithStatus(ts, id, to), stranded, id, ran);
  }

  /** A refused reset leaves the list as it is. */
  lemma StrandTraces(start: seq<Item>, ts: seq<Item>, stranded: set<U32>, id: U32, ran: seq<U32>)
    requires Traced(start, ts, stranded, Some(id), ran)
    ensures Traced(start, ts, stranded + {id}, None, ran)
  {
  }

  lemma CascadeTraces(start: seq<Item>, ts: seq<Item>, us: seq<Item>, stranded: set<U32>, id: U32, ran: seq<U32>,
                      hit: set<U32>)
    requires Traced(start, ts, stranded, Some(id), ran) && ran != []
    requires CascadedTo(ts, us, hit) && id in hit
    ensures Traced(start, us, stranded, None, ran)
  {
    StepTraces(start, ts, us, stranded, id, ran);
  }

  lemma AbortKeeps(start: seq<Item>, ts: seq<Item>, blocked: set<U32>, failed: set<U32>, stranded: set<U32>, id: U32)
    requires WalkInvariant(start, ts, blocked, failed, stranded, Some(id))
    ensures Updated(ts, id, Blocked) == WithStatus(ts, id, Blocked) && KeepsCompleted(ts, WithStatus(ts, id, Blocked))
    ensures CompletedClosed(start) ==> CompletedClosed(WithStatus(ts, id, Blocked))
  {
    SameShapeIndex(ts, start, id);
    ShapeKeepsUnique(ts, start);
    WithStatusKeepsClosed(ts, id, Blocked);
  }

  /** Picking the next task keeps all of it. */
  lemma PickKeeps(start: seq<Item>, ts: seq<Item>, blocked: set<U32>, failed: set<U32>, stranded: set<U32>,
                  ran: seq<U32>, requeued: nat, i: nat)
    requires WalkInvariant(start, ts, blocked, failed, stranded, None)
    requires Traced(start, ts, stranded, None, ran) && Counted(start, ts, ran, requeued) && PendingFromStart(start, ts)
    requires i < |ts| && Ready(ts, i) && forall j :: 0 <= j < |ts| && Ready(ts, j) ==> ts[i].id <= ts[j].id
    ensures var x := ts[i].id; var us := WithStatus(ts, x, InProgress);
      && LeastReady(ts, x) && Updated(ts, x, InProgress) == us
      && WalkInvariant(start, us, blocked, failed, stranded, Some(x))
      && Traced(start, us, stranded, Some(x), ran + [x]) && Counted(start, us, ran + [x], requeued)
      && PendingFromStart(start, us) && Pendings(us) < Pendings(ts) && |ran| + 1 <= |start| + requeued
  {
    hide WalkInvariant, PendingFromStart, SameShape, Traced, LeastReady, IsCompleted;
    WalkIsUnique(start, ts, blocked, failed, stranded, None);
    PickIsLeast(ts, i);
    StartKeeps(start, ts, blocked, failed, stranded, i);
    StartCounts(start, ts, ran, requeued, i);
    StartTraces(start, ts, stranded, ran, ts[i].id);
  }

  class PlanWalk {
    /** Whether resetting a task to Pending takes effect; the code's Update refuses it. */
    const resetTakes: bool
    const list: TaskList
    var blockedByFailure: set<U32>
    var firstFailure: Option<FirstFailure>
    ghost const start: seq<Item>
    ghost var active: Option<U32>
    ghost var failed: set<U32>
    ghost var stranded: set<U32>
    /** Every task the walk handed to its execute child, in order. */
    ghost var ran: seq<U32>
    /** How many times a task was asked to go back to Pending. */
    ghost var requeued: nat

    /** What holds of the walk even after the run was given up. */
    ghost predicate Kept()
      reads this, list
    {
      && Traced(start, list.tasks, stranded, active, ran)
      && |ran| <= |start| + (if resetTakes then requeued else 0)
      && (if resetTakes then stranded == {} else stranded == {} <==> requeued == 0)
    }

    ghost predicate Valid()
      reads this, list
    {
      && WalkInvariant(start, list.tasks, blockedByFailure, failed, stranded, active)
      && Kept()
      && (firstFailure.None? <==> failed == {})
      && (firstFailure.Some? ==> firstFailure.value.task in failed)
      && Counted(start, list.tasks, ran, if resetTakes then requeued else 0)
      && PendingFromStart(start, list.tasks)
      && (active.Some? ==> active.value in ran)
    }

    constructor (list: TaskList, resetTakes: bool)
      requires UniqueIds(list.tasks)
      ensures Valid() && this.list == list && this.resetTakes == resetTakes
      ensures start == list.tasks && active == None && failed == {} && stranded == {} && ran == [] && requeued == 0
    {
      this.list, this.resetTakes := list, resetTakes;
      blockedByFailure, firstFailure := {}, None;
      start, active, failed, stranded, ran, requeued := list.tasks, None, {}, {}, [], 0;
    }

    /** Picks the ready task of smallest id and marks it in progress. */
    method Start() returns (next: Option<U32>)
      requires Valid() && active == None
      modifies this, list
      ensures Valid() && active == next
      ensures next.None? ==> NoneReady(list.tasks) && list.tasks == old(list.tasks) && ran == old(ran)
      ensures next.Some? ==>
                && ran == old(ran) + [next.value]
                && LeastReady(old(list.tasks), next.value)
                && list.tasks == WithStatus(old(list.tasks), next.value, InProgress)
                && Pendings(list.tasks) < old(Pendings(list.tasks))
      ensures blockedByFailure == old(blockedByFailure) && firstFailure == old(firstFailure)
      ensures failed == old(failed) && stranded == old(stranded) && requeued == old(requeued)
    {
      hide WalkInvariant, Counted, PendingFromStart, SameShape, Traced, LeastReady, IsCompleted, WithStatus, Updated;
      next := list.NextReady();
      if next.Some? {
        ghost var ts := list.tasks;
        ghost var i :| 0 <= i < |ts| && Ready(ts, i) && ts[i].id == next.value;
        PickKeeps(start, ts, blockedByFailure, failed, stranded, ran, if resetTakes then requeued else 0, i);
        var _ := list.Update(next.value, Some(InProgress), None);
        active, ran := next, ran + [next.value];
      }
    }

    /** The active task succeeded. */
    method Finish(id: U32)
      requires Valid() && active == Some(id)
      modifies this, list
      ensures Valid() && active == None && IsCompleted(list.tasks, id)
      ensures list.tasks == WithStatus(old(list.tasks), id, Completed)
      ensures Pendings(list.tasks) <= old(Pendings(list.tasks))
      ensures blockedByFailure == old(blockedByFailure) && firstFailure == old(firstFailure)
      ensures failed == old(failed) && stranded == old(stranded) && ran == old(ran) && requeued == old(requeued)
    {
      hide WalkInvariant, Counted, PendingFromStart, Traced, RanPending;
      ghost var ts := list.tasks;
      ActiveInProgress(start, ts, blockedByFailure, failed, stranded, id, ran);
      CompleteKeeps(start, ts, blockedByFailure, failed, stranded, id);
      SettleTraces(start, ts, stranded, id, ran, Completed);
      SettleCounts(start, ts, id, ran, if resetTakes then requeued else 0, Completed);
      var _ := list.Complete(id);
      active := None;
    }

    /**
     Continues and automatic grants ask for the active task to be picked again.
     The update is refused and its error dropped, so the task stays in progress.
     */
    method Requeue(id: U32)
      requires Valid() && active == Some(id)
      modifies this, list
      ensures Valid() && active == None
      ensures requeued == old(requeued) + 1
      ensures resetTakes ==> list.tasks == WithStatus(old(list.tasks), id, Pending) && stranded == old(stranded)
      ensures !resetTakes ==> list.tasks == old(list.tasks) && stranded == old(stranded) + {id}
      ensures blockedByFailure == old(blockedByFailure) && firstFailure == old(firstFailure)
      ensures failed == old(failed) && ran == old(ran)
    {
      hide WalkInvariant, Counted, PendingFromStart, Traced, RanPending;
      ghost var ts := list.tasks;
      ActiveInProgress(start, ts, blockedByFailure, failed, stranded, id, ran);
      if resetTakes {
        ResetKeeps(start, ts, blockedByFailure, failed, stranded, id);
        SettleTraces(start, ts, stranded, id, ran, Pending);
        SettleCounts(start, ts, id, ran, requeued, Pending);
        list.tasks := WithStatus(list.tasks, id, Pending);
      } else {
        StrandKeeps(start, ts, blockedByFailure, failed, stranded, id);
        StrandTraces(start, ts, stranded, id, ran);
        var _ := list.Update(id, Some(Pending), None);
        stranded := stranded + {id};
      }
      active, requeued := None, requeued + 1;
    }

    /** The run is given up: only the active task is blocked. */
    method Abort(id: U32)
      requires Valid() && active == Some(id)
      modifies this`active, list
      ensures Kept() && active == None
      ensures list.tasks == WithStatus(old(list.tasks), id, Blocked)
      ensures CompletedClosed(start) ==> CompletedClosed(list.tasks)
    {
      hide WalkInvariant, Counted, PendingFromStart, Traced;
      ghost var ts := list.tasks;
      AbortKeeps(start, ts, blockedByFailure, failed, stranded, id);
      SettleTraces(start, ts, stranded, id, ran, Blocked);
      var _ := list.Update(id, Some(Blocked), None);
      active := None;
    }

    /** The active task failed: it and its dependents are blocked, the rest goes on. */
    method Cascade(id: U32, reason: string)
      requires Valid() && active == Some(id)
      modifies this, list
      ensures Valid() && active == None
      ensures failed == old(failed) + {id}
      ensures firstFailure == if old(firstFailure).None? then Some(FirstFailure(id, reason)) else old(firstFailure)
      ensures FailedTo(old(list.tasks), list.tasks, id)
      ensures Pendings(list.tasks) <= old(Pendings(list.tasks))
      ensures stranded == old(stranded) && ran == old(ran) && requeued == old(requeued)
    {
      hide WalkInvariant, Counted, PendingFromStart, CascadedTo, Traced, FailedTo;
      ghost var ts, counted := list.tasks, if resetTakes then requeued else 0;
      WalkIsUnique(start, ts, blockedByFailure, failed, stranded, active);
      ghost var hit := BlockWithDependents(id);
      FailsExactly(ts, list.tasks, id, hit);
      CascadeKeeps(start, ts, old(blockedByFailure), failed, stranded, id, list.tasks, hit);
      CascadeCounts(start, ts, list.tasks, hit, ran, counted);
      CascadeShape(ts, list.tasks, hit);
      CascadeTraces(start, ts, list.tasks, stranded, id, ran, hit);
      blockedByFailure := blockedByFailure + {id};
      assert blockedByFailure == old(blockedByFailure) + hit;
      if firstFailure.None? {
        firstFailure := Some(FirstFailure(id, reason));
      }
      active, failed := None, failed + {id};
    }

    method BlockWithDependents(id: U32) returns (ghost hit: set<U32>)
      requires UniqueIds(list.tasks)
      modifies this`blockedByFailure, list
      ensures CascadedTo(old(list.tasks), list.tasks, hit)
      ensures forall x :: x in hit <==> x == id || (x != id && Reaches(old(list.tasks), x, id))
      ensures blockedByFailure == old(blockedByFailure) + (hit - {id})
    {
      ghost var ts := list.tasks;
      BlockOne(ts, id);
      var _ := list.Update(id, Some(Blocked), None);
      ghost var mid := list.tasks;
      ShapeKeepsUnique(mid, ts);
      var dependents := list.TransitiveDependents(id);
      hit := {id};
      var j := 0;
      while j < |dependents|
        invariant j <= |dependents|
        invariant forall x :: x in hit <==> x == id || x in dependents[..j]
        invariant blockedByFailure == old(blockedByFailure) + (hit - {id})
        invariant CascadedTo(ts, list.tasks, hit)
      {
        var d := dependents[j];
        assert d in dependents;
        ghost var us := list.tasks;
        ShapeKeepsUnique(us, ts);
        BlockOne(us, d);
        var _ := list.Update(d, Some(Blocked), None);
        blockedByFailure := blockedByFailure + {d};
        CascadesCompose(ts, us, list.tasks, hit, {d});
        hit := hit + {d};
        j := j + 1;
      }
      assert dependents[..j] == dependents;
      CascadeHits(ts, mid, id, dependents, hit);
    }
  }
}
