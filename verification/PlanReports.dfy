/**
 A walk seen from outside: who was handed the carried conversation, how the walk left
 the node, what a drained one reports, and the segment any walk amounts to.
 */
module PlanReports {
  import opened Words
  import opened Budgets
  import opened TaskLists
  import opened PlanSegments
  import opened PlanWalks
  import opened Strategies
  import opened Results
  import opened Contexts
  import opened Logs
  import opened Nodes

  /** How a walk leaves the node: with a result, at the drained list or before, or as an exhaustion. */
  datatype WalkExit = Ended(result: RunResult, drained: bool) | Spent(outcome: Outcome)
  {
    predicate Drains() {
      Ended? && drained
    }

    predicate Pauses() {
      Ended? && !result.Terminal()
    }
  }

  /** Who the walk must hand the carried conversation to, and what the other steps start from. */
  datatype Feeding = Feeding(stalled: Option<U32>, seed: Option<Session>, base: Session)

  /** The tasks executed so far got the conversations they should; the seed is held until the stalled one runs. */
  ghost predicate Feeds(f: Feeding, ran: seq<U32>, talks: seq<Session>, held: Option<Session>) {
    && Fed(ran, talks, f.stalled, f.seed, f.base)
    && held == if f.stalled.Some? && f.stalled.value in ran then None else f.seed
  }

  lemma FeedsNext(f: Feeding, ran: seq<U32>, talks: seq<Session>, held: Option<Session>, x: U32, talk: Session)
    requires Feeds(f, ran, talks, held) && f.seed.Some? == f.stalled.Some?
    requires if f.stalled == Some(x) && held.Some? then talk == held.value else f.base <= talk
    ensures Feeds(f, ran + [x], talks + [talk], if f.stalled == Some(x) then None else held)
  {
    FeedNext(ran, talks, f.stalled, f.seed, f.base, x, talk);
  }

  lemma NothingFed(f: Feeding)
    ensures Feeds(f, [], [], f.seed)
  {
  }

  /**
   The walk of a plan-execute node, seen from outside: how often it asked for a task
   again, what it left on the durable list, and what a pause carries: the conversation
   the paused task left behind.
   */
  ghost predicate WalkReport(h: Harness, durable: seq<Item>, s: Strategy, walk: PlanWalk, exit: WalkExit, refills: nat,
                             left: Session)
    reads walk, walk.list
  {
    var ts := walk.list.tasks;
    && s.PlanExecute? && walk.resetTakes == h.resetTakes
    && walk.Kept() && walk.requeued <= refills
    && (Quiet(h, s.execute) && walk.ran != [] ==> durable == ts)
    && (walk.ran == [] ==> exit.Drains())
    && (walk.active.Some? ==> exit.Pauses() && CarriesOn(exit.result, left))
    && (exit.Pauses() ==> walk.Valid())
    && (exit.Drains() ==>
          && exit.result.Terminal() && walk.Valid() && walk.active.None? && NoneReady(ts)
          && Reports(ts, walk.blockedByFailure, walk.firstFailure, exit.result))
  }

  /** A pause carries this conversation; without one it shows the partial output. */
  ghost predicate CarriesOn(r: RunResult, left: Session) {
    !r.Terminal() && (left != [] ==> r.state.session == left)
  }

  /** The refills a plan-execute node starts with. */
  ghost function StartRefills(scratch: Scratch, s: Strategy, mode: EscalationMode): nat {
    Refills(StartScope(scratch, s), mode)
  }

  /**
   What a drained walk over a clean list reports. The partition, and Success meaning
   that every task completed, hold exactly when no reset was refused.
   */
  ghost predicate DrainsRight(walk: PlanWalk, r: RunResult)
    reads walk, walk.list
  {
    var ts := walk.list.tasks;
    && (Partitioned(ts, walk.blockedByFailure) <==> walk.resetTakes || walk.requeued == 0)
    && (forall x :: x in walk.blockedByFailure <==> Doomed(walk.start, walk.failed, x))
    && ((r.Success? <==> AllCompleted(ts)) <==> (walk.resetTakes || walk.requeued == 0 || walk.failed != {}))
  }

  lemma DrainedExit(walk: PlanWalk, r: RunResult)
    requires walk.Valid() && walk.active.None? && Ordered(walk.start) && CleanStart(walk.start)
    requires NoneReady(walk.list.tasks) && Reports(walk.list.tasks, walk.blockedByFailure, walk.firstFailure, r)
    ensures DrainsRight(walk, r)
  {
    hide WalkInvariant, Traced, Counted, PendingFromStart, CleanStart, NoneReady, Reports, Ordered;
    WalkIsUnique(walk.start, walk.list.tasks, walk.blockedByFailure, walk.failed, walk.stranded, walk.active);
    ShapeKeepsOrdered(walk.start, walk.list.tasks);
    DrainedWalk(walk.start, walk.list.tasks, walk.blockedByFailure, walk.failed, walk.stranded, walk.firstFailure, r);
  }

  // ---------------------------------------------------------------------------
  // The segment of a walk
  // ---------------------------------------------------------------------------

  /** The segment a walk amounts to, from the list the node found to the one it left. */
  ghost predicate Amounts(walk: PlanWalk, g: Segment, durable: seq<Item>)
    reads walk
  {
    && g.ran == walk.ran && g.active == walk.active && g.after == durable
    && walk.start == if g.seed.Some? then ResetStalled(g.before) else g.before
  }

  /** The carried conversation is for the stalled task, and dropped when there is none. */
  ghost function FeedingOf(g: Segment): Feeding {
    if g.seed.Some? && Stalled(g.before).Some? then Feeding(Stalled(g.before), g.seed, g.base)
    else Feeding(None, None, g.base)
  }

  /**
   The walk of a plan-execute node as a segment of a longer run. There is none when
   planning ended the node. It starts from the durable list, or from the list just
   planned, and ends in the durable list; a pause in a task carries the conversation
   the task left behind; it settles when no reset can be refused.
   */
  ghost predicate Segmented(h: Harness, s: Strategy, pre: Moment, post: Moment, segment: Option<Segment>) {
    s.PlanExecute? && Quiet(h, s.execute) ==>
      match segment
      case None => post.scratch.terminal.Some? && (pre.durable != [] ==> post.durable == pre.durable)
      case Some(g) =>
        && SegmentKeeps(g) && g.before != [] && post.durable == g.after
        && (if pre.durable != [] then g.before == pre.durable && g.seed == pre.scratch.sessionSeed else g.seed.None?)
        && (h.resetTakes || StartRefills(pre.scratch, s, h.mode) == 0 ==> Settles(g))
        && g.left == LastLeft(post.log) && |g.ran| == Runs(post.log)
        && (g.active.Some? ==> post.scratch.terminal.Some? && CarriesOn(post.scratch.terminal.value, g.left))
  }

  /** Wherever a walk is left, it is a segment, and it settles unless a reset was refused. */
  lemma LeftWalk(walk: PlanWalk, g: Segment, durable: seq<Item>, held: Option<Session>)
    requires walk.Kept() && UniqueIds(g.before) && Amounts(walk, g, durable)
    requires Feeds(FeedingOf(g), g.ran, g.talks, held)
    requires walk.ran == [] ==> NoneReady(walk.start) && walk.active.None?
    requires durable == if walk.ran == [] then g.before else walk.list.tasks
    ensures SegmentKeeps(g)
    ensures walk.resetTakes || walk.requeued == 0 ==> Settles(g)
  {
    hide SegmentKeeps, Settles, Traced, NoneReady, ResetStalled, Stalled;
    WalkIsSegment(g.before, walk.start, walk.list.tasks, walk.stranded, g);
  }

  /** A pause over a list whose completion is closed settles exactly when no reset was refused. */
  lemma PausedExit(walk: PlanWalk, g: Segment)
    requires walk.Valid() && CompletedClosed(walk.start)
    requires g.after == walk.list.tasks && g.active == walk.active && Begins(g)
    requires walk.resetTakes || walk.requeued == 0 ==> Settles(g)
    ensures Settles(g) <==> walk.resetTakes || walk.requeued == 0
  {
    hide Settles, Begins, WalkInvariant, Traced, Counted, PendingFromStart;
    SettlesExactly(walk.start, walk.list.tasks, walk.blockedByFailure, walk.failed, walk.stranded, g);
  }

  /** What follows from a drained walk over a clean list. */
  ghost predicate DrainedWell(h: Harness, walk: PlanWalk, exit: WalkExit, refills: nat)
    reads walk, walk.list
  {
    exit.Drains() && CleanStart(walk.start) ==>
      && DrainsRight(walk, exit.result)
      && (h.resetTakes || refills == 0 ==>
            && Partitioned(walk.list.tasks, walk.blockedByFailure)
            && (exit.result.Success? <==> AllCompleted(walk.list.tasks)))
  }

  /** What the segment of a walk promises, when no child wrote the task list. */
  ghost predicate SegmentHolds(walk: PlanWalk, exit: WalkExit, g: Segment)
    reads walk
  {
    && SegmentKeeps(g)
    && (walk.resetTakes || walk.requeued == 0 ==> Settles(g))
    && (exit.Pauses() && CompletedClosed(walk.start) && Begins(g) ==>
          (Settles(g) <==> walk.resetTakes || walk.requeued == 0))
  }

  /** The report of the walk, together with what follows from it. */
  lemma ExplainExit(h: Harness, durable: seq<Item>, s: Strategy, walk: PlanWalk, exit: WalkExit, refills: nat,
                    g: Segment, held: Option<Session>)
    requires WalkReport(h, durable, s, walk, exit, refills, g.left)
    requires Storable(g.before) && Ordered(walk.start) && Amounts(walk, g, durable)
    requires Feeds(FeedingOf(g), g.ran, g.talks, held)
    requires walk.ran == [] ==> durable == g.before
    ensures walk.active.Some? ==> exit.Pauses() && CarriesOn(exit.result, g.left)
    ensures walk.requeued <= refills && walk.resetTakes == h.resetTakes
    ensures DrainedWell(h, walk, exit, refills)
    ensures Quiet(h, s.execute) ==> SegmentHolds(walk, exit, g)
  {
    hide PlanWalk.Valid, SegmentKeeps, Settles, Ordered, CleanStart, NoneReady, Reports, Traced, Feeds, CarriesOn;
    hide ResetStalled, Stalled, PlanExecuteFree, Partitioned, AllCompleted, Doomed, Begins, CompletedClosed;
    if exit.Drains() && CleanStart(walk.start) {
      DrainedExit(walk, exit.result);
    }
    if Quiet(h, s.execute) {
      if walk.ran == [] {
        NoneRan(walk);
      }
      LeftWalk(walk, g, durable, held);
      if exit.Pauses() && CompletedClosed(walk.start) && Begins(g) {
        PausedExit(walk, g);
      }
    }
  }

  lemma NoneRan(walk: PlanWalk)
    requires walk.Kept() && walk.ran == []
    ensures walk.list.tasks == walk.start
  {
  }
}
