/**
 The persisted task list: transitions, the blocker graph, the ready-set choice
 and the graph searches over it.
 */
module TaskLists {
  import opened Words

  datatype Status = Pending | InProgress | Completed | Blocked

  datatype Item = Item(id: U32, description: string, status: Status, blockers: seq<U32>)

  datatype TaskError = TaskNotFound | InvalidTransition | SelfBlock | UnknownBlocker(blocker: U32) | BlockerCycle

  // ---------------------------------------------------------------------------
  // Reading a list
  // ---------------------------------------------------------------------------

  /** The first position holding `id`, or |ts| when there is none. */
  function IndexOf(ts: seq<Item>, id: U32): (i: nat)
    ensures i <= |ts|
    ensures i < |ts| ==> ts[i].id == id
    ensures forall j :: 0 <= j < i ==> ts[j].id != id
  {
    if ts == [] then 0
    else if ts[0].id == id then 0
    else 1 + IndexOf(ts[1..], id)
  }

  predicate Known(ts: seq<Item>, id: U32) {
    IndexOf(ts, id) < |ts|
  }

  predicate IsCompleted(ts: seq<Item>, id: U32) {
    Known(ts, id) && ts[IndexOf(ts, id)].status == Completed
  }

  /** Pending, and every blocker is completed. */
  predicate Ready(ts: seq<Item>, i: nat)
    requires i < |ts|
  {
    ts[i].status == Pending && forall b :: b in ts[i].blockers ==> IsCompleted(ts, b)
  }

  predicate UniqueIds(ts: seq<Item>) {
    forall i, j :: 0 <= i < j < |ts| ==> ts[i].id != ts[j].id
  }

  lemma UniqueIndex(ts: seq<Item>, i: nat)
    requires UniqueIds(ts) && i < |ts|
    ensures IndexOf(ts, ts[i].id) == i
  {
  }

  ghost function TaskIds(ts: seq<Item>): set<U32> {
    set i | 0 <= i < |ts| :: ts[i].id
  }

  /** The two lists hold the same tasks and edges; only statuses and texts may differ. */
  ghost predicate SameShape(ts: seq<Item>, us: seq<Item>) {
    && |ts| == |us|
    && forall i :: 0 <= i < |ts| ==> ts[i].id == us[i].id && ts[i].blockers == us[i].blockers
  }

  lemma SameShapeIndex(ts: seq<Item>, us: seq<Item>, id: U32)
    requires SameShape(ts, us)
    ensures IndexOf(ts, id) == IndexOf(us, id)
  {
    var i, j := IndexOf(ts, id), IndexOf(us, id);
    assert i < |ts| ==> us[i].id == id;
    assert j < |us| ==> ts[j].id == id;
  }

  // ---------------------------------------------------------------------------
  // Transitions
  // ---------------------------------------------------------------------------

  /** Permissive except out of Completed, and nothing ever returns to Pending. */
  predicate TransitionAllowed(from: Status, to: Status) {
    from == to ||
    match from
    case Pending => to == InProgress || to == Completed || to == Blocked
    case InProgress => to == Completed || to == Blocked
    case Blocked => to == InProgress || to == Completed
    case Completed => false
  }

  /** Writes a status without consulting the transition rules. */
  function WithStatus(ts: seq<Item>, id: U32, to: Status): (us: seq<Item>)
    ensures SameShape(ts, us)
  {
    var i := IndexOf(ts, id);
    if i < |ts| then ts[i := ts[i].(status := to)] else ts
  }

  /** A rejected update leaves the list untouched. */
  function Updated(ts: seq<Item>, id: U32, to: Status): (us: seq<Item>)
    ensures SameShape(ts, us)
  {
    var i := IndexOf(ts, id);
    if i < |ts| && TransitionAllowed(ts[i].status, to) then WithStatus(ts, id, to) else ts
  }

  /** An update of status and text together: both are written, or neither is. */
  function Edited(ts: seq<Item>, id: U32, status: Option<Status>, description: Option<string>): (us: seq<Item>)
    ensures SameShape(ts, us)
    ensures us != ts ==> Known(ts, id)
    ensures forall j :: 0 <= j < |ts| && j != IndexOf(ts, id) ==> us[j] == ts[j]
  {
    var i := IndexOf(ts, id);
    if i == |ts| || (status.Some? && !TransitionAllowed(ts[i].status, status.value)) then ts
    else ts[i := ts[i].(status := if status.Some? then status.value else ts[i].status,
                        description := if description.Some? then description.value else ts[i].description)]
  }

  // ---------------------------------------------------------------------------
  // The blocker graph
  // ---------------------------------------------------------------------------

  /** Task `a` waits for `b`. */
  ghost predicate Edge(ts: seq<Item>, a: U32, b: U32) {
    Known(ts, a) && b in ts[IndexOf(ts, a)].blockers
  }

  ghost predicate IsPath(ts: seq<Item>, p: seq<U32>) {
    |p| > 0 && forall i :: 0 <= i < |p| - 1 ==> Edge(ts, p[i], p[i + 1])
  }

  ghost predicate PathBetween(ts: seq<Item>, p: seq<U32>, a: U32, b: U32) {
    IsPath(ts, p) && p[0] == a && p[|p| - 1] == b
  }

  /** `a` waits for `b` directly or through other tasks. */
  ghost predicate Reaches(ts: seq<Item>, a: U32, b: U32) {
    exists p :: |p| > 1 && PathBetween(ts, p, a, b)
  }

  ghost predicate Cyclic(ts: seq<Item>) {
    exists a :: Reaches(ts, a, a)
  }

  lemma EdgeReaches(ts: seq<Item>, a: U32, b: U32)
    requires Edge(ts, a, b)
    ensures Reaches(ts, a, b)
  {
    assert PathBetween(ts, [a, b], a, b);
  }

  lemma ReachesTransitive(ts: seq<Item>, a: U32, b: U32, c: U32)
    requires Reaches(ts, a, b) && Reaches(ts, b, c)
    ensures Reaches(ts, a, c)
  {
    var p :| |p| > 1 && PathBetween(ts, p, a, b);
    var q :| |q| > 1 && PathBetween(ts, q, b, c);
    var r := p + q[1..];
    forall i | 0 <= i < |r| - 1
      ensures Edge(ts, r[i], r[i + 1])
    {
      if i >= |p| - 1 {
        assert r[i] == q[i - (|p| - 1)] && r[i + 1] == q[i + 1 - (|p| - 1)];
      }
    }
    assert PathBetween(ts, r, a, c);
  }

  lemma TailIsPath(ts: seq<Item>, p: seq<U32>)
    requires IsPath(ts, p) && |p| > 1
    ensures IsPath(ts, p[1..])
  {
    var q := p[1..];
    forall i | 0 <= i < |q| - 1
      ensures Edge(ts, q[i], q[i + 1])
    {
      assert Edge(ts, p[i + 1], p[i + 2]);
    }
  }

  /** The first step of a chain of waits. */
  lemma ReachesFirst(ts: seq<Item>, a: U32, c: U32) returns (b: U32)
    requires Reaches(ts, a, c)
    ensures Edge(ts, a, b) && (b == c || Reaches(ts, b, c))
  {
    var p :| |p| > 1 && PathBetween(ts, p, a, c);
    b := p[1];
    if b != c {
      TailIsPath(ts, p);
      assert PathBetween(ts, p[1..], b, c);
    }
  }

  lemma ShapeKeepsReach(ts: seq<Item>, us: seq<Item>, a: U32, b: U32)
    requires SameShape(ts, us) && Reaches(ts, a, b)
    ensures Reaches(us, a, b)
  {
    var p :| |p| > 1 && PathBetween(ts, p, a, b);
    forall i | 0 <= i < |p| - 1
      ensures Edge(us, p[i], p[i + 1])
    {
      assert Edge(ts, p[i], p[i + 1]);
      SameShapeIndex(ts, us, p[i]);
    }
    assert PathBetween(us, p, a, b);
  }

  // ---------------------------------------------------------------------------
  // Topological orders
  // ---------------------------------------------------------------------------

  /** Every task listed in `order` comes after each known task it waits for. */
  ghost predicate Topological(ts: seq<Item>, order: seq<U32>) {
    && (forall i, j :: 0 <= i < j < |order| ==> order[i] != order[j])
    && forall i, b :: 0 <= i < |order| && Edge(ts, order[i], b) && Known(ts, b) ==> b in order[..i]
  }

  /** A path out of a topological order stays in it and runs backwards. */
  lemma {:induction false} PathRunsBackwards(ts: seq<Item>, order: seq<U32>, p: seq<U32>, i: nat, j: nat)
    requires Topological(ts, order) && IsPath(ts, p) && |p| > 1
    requires Known(ts, p[|p| - 1])
    requires i < |order| && j < |order| && order[i] == p[0] && order[j] == p[|p| - 1]
    ensures j < i
    decreases |p|
  {
    assert Edge(ts, p[0], p[1]);
    if |p| == 2 {
      assert p[1] in order[..i];
    } else {
      assert Edge(ts, p[1], p[2]);
      assert p[1] in order[..i];
      var k :| 0 <= k < i && order[k] == p[1];
      TailIsPath(ts, p);
      PathRunsBackwards(ts, order, p[1..], k, j);
    }
  }

  /** Some topological order lists every task. */
  ghost predicate Ordered(ts: seq<Item>) {
    exists order :: Topological(ts, order) && forall i :: 0 <= i < |ts| ==> ts[i].id in order
  }

  /** A topological order of every task rules out a cycle. */
  lemma OrderedIsAcyclic(ts: seq<Item>, order: seq<U32>)
    requires Topological(ts, order)
    requires forall i :: 0 <= i < |ts| ==> ts[i].id in order
    ensures !Cyclic(ts)
  {
    if Cyclic(ts) {
      var a :| Reaches(ts, a, a);
      var p :| |p| > 1 && PathBetween(ts, p, a, a);
      assert Edge(ts, p[0], p[1]);
      assert ts[IndexOf(ts, a)].id == a;
      var i :| 0 <= i < |order| && order[i] == a;
      PathRunsBackwards(ts, order, p, i, i);
    }
  }

  // ---------------------------------------------------------------------------
  // The depth-first search for a cycle
  // ---------------------------------------------------------------------------

  datatype Frame = Frame(node: U32, expanded: bool)

  datatype Color = Gray | Black

  /** The expanded frames are exactly the nodes on the current path. */
  ghost predicate PathFrames(stack: seq<Frame>, onPath: set<U32>) {
    forall x :: x in onPath <==> Frame(x, true) in stack
  }

  /** Whatever lies above an expanded frame is another task it waits for. */
  ghost predicate Descends(ts: seq<Item>, stack: seq<Frame>) {
    forall k, m :: 0 <= k < m < |stack| && stack[k].expanded ==>
      stack[k].node != stack[m].node && Reaches(ts, stack[k].node, stack[m].node)
  }

  /** Every blocker of an expanded frame is finished or still above it. */
  ghost predicate Covered(ts: seq<Item>, stack: seq<Frame>, order: seq<U32>) {
    forall k, b :: 0 <= k < |stack| && stack[k].expanded && Edge(ts, stack[k].node, b) && Known(ts, b) ==>
      b in order || Above(stack, k, b)
  }

  /** The search state; `order` lists the finished nodes, each after everything it waits for. */
  ghost predicate Searching(ts: seq<Item>, stack: seq<Frame>, onPath: set<U32>, order: seq<U32>) {
    && Topological(ts, order)
    && (forall x :: x in order ==> Known(ts, x) && x !in onPath)
    && (forall k :: 0 <= k < |stack| ==> Known(ts, stack[k].node))
    && PathFrames(stack, onPath)
    && Descends(ts, stack)
    && Covered(ts, stack, order)
  }

  ghost predicate Above(stack: seq<Frame>, k: int, b: U32) {
    exists m :: k < m < |stack| && 0 <= m && stack[m].node == b
  }

  ghost predicate Colored(color: map<U32, Color>, onPath: set<U32>, order: seq<U32>) {
    forall x :: (x in color && color[x] == Black <==> x in order) && (x in color && color[x] == Gray <==> x in onPath)
  }

  /** The tasks the search has not met yet. */
  ghost function Unmet(ts: seq<Item>, onPath: set<U32>, order: seq<U32>): set<U32> {
    set i | 0 <= i < |ts| && ts[i].id !in onPath && ts[i].id !in order :: ts[i].id
  }

  lemma FinishKeepsColors(ts: seq<Item>, color: map<U32, Color>, onPath: set<U32>, order: seq<U32>, n: U32)
    requires Colored(color, onPath, order) && n in onPath && (forall x :: x in order ==> x !in onPath)
    ensures Colored(color[n := Black], onPath - {n}, order + [n])
    ensures Unmet(ts, onPath - {n}, order + [n]) == Unmet(ts, onPath, order)
  {
    assert forall x :: x in order + [n] <==> x in order || x == n;
  }

  lemma ExpandKeepsColors(ts: seq<Item>, color: map<U32, Color>, onPath: set<U32>, order: seq<U32>, n: U32)
    requires Colored(color, onPath, order) && n !in onPath && n !in order && Known(ts, n)
    ensures Colored(color[n := Gray], onPath + {n}, order)
    ensures Unmet(ts, onPath + {n}, order) < Unmet(ts, onPath, order)
  {
    assert ts[IndexOf(ts, n)].id == n;
    assert n in Unmet(ts, onPath, order) && n !in Unmet(ts, onPath + {n}, order);
  }

  lemma FinishKeepsOrder(ts: seq<Item>, stack: seq<Frame>, order: seq<U32>, n: U32)
    requires Topological(ts, order) && Covered(ts, stack, order) && n !in order
    requires |stack| > 0 && stack[|stack| - 1] == Frame(n, true)
    ensures Topological(ts, order + [n])
  {
    var top, grown := |stack| - 1, order + [n];
    forall i, b | 0 <= i < |grown| && Edge(ts, grown[i], b) && Known(ts, b)
      ensures b in grown[..i]
    {
      if i < |order| {
        assert grown[..i] == order[..i];
      } else {
        assert !Above(stack, top, b);
        assert grown[..i] == order;
      }
    }
  }

  lemma FinishKeepsCover(ts: seq<Item>, stack: seq<Frame>, order: seq<U32>, n: U32)
    requires Covered(ts, stack, order) && |stack| > 0 && stack[|stack| - 1] == Frame(n, true)
    ensures Covered(ts, stack[..|stack| - 1], order + [n])
  {
    var top := |stack| - 1;
    var rest, grown := stack[..top], order + [n];
    forall k, b | 0 <= k < |rest| && rest[k].expanded && Edge(ts, rest[k].node, b) && Known(ts, b)
      ensures b in grown || Above(rest, k, b)
    {
      if b !in order {
        var m :| k < m < |stack| && stack[m].node == b;
        if m < top {
          assert rest[m].node == b;
        } else {
          assert grown[|order|] == n;
        }
      }
    }
  }

  lemma FinishKeepsPath(ts: seq<Item>, stack: seq<Frame>, onPath: set<U32>, n: U32)
    requires PathFrames(stack, onPath) && Descends(ts, stack)
    requires |stack| > 0 && stack[|stack| - 1] == Frame(n, true)
    ensures n in onPath && PathFrames(stack[..|stack| - 1], onPath - {n}) && Descends(ts, stack[..|stack| - 1])
  {
    var top := |stack| - 1;
    var rest := stack[..top];
    forall x
      ensures x in onPath - {n} <==> Frame(x, true) in rest
    {
      if Frame(x, true) in rest {
        var k :| 0 <= k < |rest| && rest[k] == Frame(x, true);
        assert stack[k].expanded && stack[k].node != stack[top].node;
      }
      assert stack == rest + [Frame(n, true)];
    }
  }

  /** Popping a finished node appends it to the order. */
  lemma FinishKeepsSearch(ts: seq<Item>, stack: seq<Frame>, onPath: set<U32>, order: seq<U32>)
    requires Searching(ts, stack, onPath, order)
    requires |stack| > 0 && stack[|stack| - 1].expanded
    ensures var n := stack[|stack| - 1].node;
      n in onPath && Searching(ts, stack[..|stack| - 1], onPath - {n}, order + [n])
  {
    var n := stack[|stack| - 1].node;
    FinishKeepsPath(ts, stack, onPath, n);
    FinishKeepsOrder(ts, stack, order, n);
    FinishKeepsCover(ts, stack, order, n);
  }

  lemma SkipKeepsCover(ts: seq<Item>, rest: seq<Frame>, n: U32, order: seq<U32>)
    requires Covered(ts, rest + [Frame(n, false)], order) && n in order
    ensures Covered(ts, rest, order)
  {
    var stack := rest + [Frame(n, false)];
    forall k, b | 0 <= k < |rest| && rest[k].expanded && Edge(ts, rest[k].node, b) && Known(ts, b)
      ensures b in order || Above(rest, k, b)
    {
      assert stack[k] == rest[k];
      if b !in order {
        var m :| k < m < |stack| && stack[m].node == b;
        assert rest[m].node == b;
      }
    }
  }

  /** A node met again after it was finished is dropped. */
  lemma SkipKeepsSearch(ts: seq<Item>, rest: seq<Frame>, n: U32, onPath: set<U32>, order: seq<U32>)
    requires Searching(ts, rest + [Frame(n, false)], onPath, order) && n in order
    ensures Searching(ts, rest, onPath, order)
  {
    var stack := rest + [Frame(n, false)];
    SkipKeepsCover(ts, rest, n, order);
    assert forall k :: 0 <= k < |rest| ==> stack[k] == rest[k];
    assert forall x :: Frame(x, true) in stack <==> Frame(x, true) in rest;
  }

  /** The children of `n` that still have to be explored, as pushed frames. */
  ghost predicate Children(ts: seq<Item>, n: U32, pushed: seq<Frame>, onPath: set<U32>) {
    forall m :: 0 <= m < |pushed| ==>
      !pushed[m].expanded && Known(ts, pushed[m].node) && Edge(ts, n, pushed[m].node) && pushed[m].node !in onPath
  }

  ghost predicate Pushed(pushed: seq<Frame>, b: U32) {
    exists m :: 0 <= m < |pushed| && pushed[m].node == b
  }

  lemma PushedGrows(pushed: seq<Frame>, b: U32)
    ensures Pushed(pushed + [Frame(b, false)], b)
    ensures forall x :: Pushed(pushed, x) ==> Pushed(pushed + [Frame(b, false)], x)
  {
    var longer := pushed + [Frame(b, false)];
    assert longer[|pushed|].node == b;
    forall x | Pushed(pushed, x)
      ensures Pushed(longer, x)
    {
      var m :| 0 <= m < |pushed| && pushed[m].node == x;
      assert longer[m].node == x;
    }
  }

  lemma ExpandKeepsDescent(ts: seq<Item>, rest: seq<Frame>, n: U32, pushed: seq<Frame>, onPath: set<U32>)
    requires Descends(ts, rest + [Frame(n, false)]) && PathFrames(rest + [Frame(n, false)], onPath)
    requires Children(ts, n, pushed, onPath + {n})
    ensures Descends(ts, rest + [Frame(n, true)] + pushed)
  {
    var before, top, stack := rest + [Frame(n, false)], |rest|, rest + [Frame(n, true)] + pushed;
    forall k, m | 0 <= k < m < |stack| && stack[k].expanded
      ensures stack[k].node != stack[m].node && Reaches(ts, stack[k].node, stack[m].node)
    {
      assert k < top ==> before[k] == stack[k] == Frame(stack[k].node, true);
      assert m <= top ==> before[m].node == stack[m].node;
      if m > top {
        assert stack[m] == pushed[m - top - 1];
        EdgeReaches(ts, n, stack[m].node);
        if k < top {
          assert stack[k].node in onPath;
          assert before[top].node == n;
          ReachesTransitive(ts, stack[k].node, n, stack[m].node);
        }
      }
    }
  }

  lemma ExpandKeepsCover(ts: seq<Item>, rest: seq<Frame>, n: U32, pushed: seq<Frame>, order: seq<U32>)
    requires Covered(ts, rest + [Frame(n, false)], order)
    requires forall m :: 0 <= m < |pushed| ==> !pushed[m].expanded
    requires forall b :: Edge(ts, n, b) && Known(ts, b) ==> b in order || Pushed(pushed, b)
    ensures Covered(ts, rest + [Frame(n, true)] + pushed, order)
  {
    var before, top, stack := rest + [Frame(n, false)], |rest|, rest + [Frame(n, true)] + pushed;
    forall k, b | 0 <= k < |stack| && stack[k].expanded && Edge(ts, stack[k].node, b) && Known(ts, b)
      ensures b in order || Above(stack, k, b)
    {
      if b !in order {
        if k == top {
          var m :| 0 <= m < |pushed| && pushed[m].node == b;
          assert stack[m + top + 1].node == b;
        } else {
          assert before[k] == stack[k];
          var m :| k < m < |before| && before[m].node == b;
          assert stack[m].node == b;
        }
      }
    }
  }

  /** Expanding a node puts it on the path below the children it waits for. */
  lemma ExpandKeepsSearch(ts: seq<Item>, rest: seq<Frame>, n: U32, pushed: seq<Frame>, onPath: set<U32>,
                          order: seq<U32>)
    requires Searching(ts, rest + [Frame(n, false)], onPath, order)
    requires n !in order && Children(ts, n, pushed, onPath + {n})
    requires forall b :: Edge(ts, n, b) && Known(ts, b) ==> b in order || Pushed(pushed, b)
    ensures n !in onPath
    ensures Searching(ts, rest + [Frame(n, true)] + pushed, onPath + {n}, order)
  {
    ExpandKeepsDescent(ts, rest, n, pushed, onPath);
    ExpandKeepsCover(ts, rest, n, pushed, order);
    var before, stack := rest + [Frame(n, false)], rest + [Frame(n, true)] + pushed;
    assert before[|rest|] == Frame(n, false);
    assert forall k :: 0 <= k < |rest| ==> before[k] == rest[k];
    assert forall k :: 0 <= k < |stack| ==> Known(ts, stack[k].node);
    assert forall x :: Frame(x, true) in stack <==> Frame(x, true) in rest || x == n;
  }

  /** The search from `start`, which had finished `order0` when it began. */
  ghost predicate Exploring(ts: seq<Item>, stack: seq<Frame>, color: map<U32, Color>, onPath: set<U32>,
                            order: seq<U32>, start: U32, order0: seq<U32>) {
    && Searching(ts, stack, onPath, order) && Colored(color, onPath, order)
    && (if stack == [] then start in order else stack[0].node == start)
    && (forall x :: x in order0 ==> x in order)
  }

  lemma FinishStep(ts: seq<Item>, rest: seq<Frame>, n: U32, color: map<U32, Color>, onPath: set<U32>,
                   order: seq<U32>, start: U32, order0: seq<U32>)
    requires Exploring(ts, rest + [Frame(n, true)], color, onPath, order, start, order0)
    ensures Exploring(ts, rest, color[n := Black], onPath - {n}, order + [n], start, order0)
    ensures Unmet(ts, onPath - {n}, order + [n]) == Unmet(ts, onPath, order)
  {
    var stack := rest + [Frame(n, true)];
    assert stack[..|stack| - 1] == rest;
    FinishKeepsSearch(ts, stack, onPath, order);
    FinishKeepsColors(ts, color, onPath, order, n);
    assert rest != [] ==> stack[0] == rest[0];
  }

  lemma SkipStep(ts: seq<Item>, rest: seq<Frame>, n: U32, color: map<U32, Color>, onPath: set<U32>,
                 order: seq<U32>, start: U32, order0: seq<U32>)
    requires Exploring(ts, rest + [Frame(n, false)], color, onPath, order, start, order0)
    requires n in color && color[n] == Black
    ensures Exploring(ts, rest, color, onPath, order, start, order0)
  {
    var stack := rest + [Frame(n, false)];
    SkipKeepsSearch(ts, rest, n, onPath, order);
    assert rest != [] ==> stack[0] == rest[0];
  }

  lemma ExploredAll(ts: seq<Item>, color: map<U32, Color>, onPath: set<U32>, order: seq<U32>, start: U32,
                    order0: seq<U32>)
    requires Exploring(ts, [], color, onPath, order, start, order0)
    ensures Finished(ts, color, order) && start in order && forall x :: x in order0 ==> x in order
  {
    assert forall x :: x in onPath ==> Frame(x, true) in [];
    assert onPath == {};
  }

  lemma BeginExploring(ts: seq<Item>, color: map<U32, Color>, order: seq<U32>, start: U32)
    requires Finished(ts, color, order) && Known(ts, start)
    ensures Exploring(ts, [Frame(start, false)], color, {}, order, start, order)
  {
  }

  lemma ExpandStep(ts: seq<Item>, rest: seq<Frame>, n: U32, pushed: seq<Frame>, before: seq<Frame>, color: map<U32,
                   Color>,
                   onPath: set<U32>, order: seq<U32>, start: U32, order0: seq<U32>)
    requires before == rest + [Frame(n, false)] && before[0].node == start && forall x :: x in order0 ==> x in order
    requires Searching(ts, rest + [Frame(n, true)] + pushed, onPath, order) && Colored(color, onPath, order)
    ensures Exploring(ts, rest + [Frame(n, true)] + pushed, color, onPath, order, start, order0)
  {
    var stack := rest + [Frame(n, true)] + pushed;
    assert stack[0] == (rest + [Frame(n, true)])[0];
    assert stack[0].node == before[0].node;
  }

  /** The first i tasks are in the order. */
  ghost predicate Listed(ts: seq<Item>, i: nat, order: seq<U32>) {
    forall j :: 0 <= j < i && j < |ts| ==> ts[j].id in order
  }

  lemma FinishedIsOrdered(ts: seq<Item>, color: map<U32, Color>, order: seq<U32>)
    requires Finished(ts, color, order) && Listed(ts, |ts|, order)
    ensures Ordered(ts) && !Cyclic(ts)
  {
    OrderedIsAcyclic(ts, order);
  }

  /** A coloured task is finished when nothing is on the path. */
  lemma ColouredIsListed(ts: seq<Item>, color: map<U32, Color>, order: seq<U32>, i: nat)
    requires Finished(ts, color, order) && Listed(ts, i, order) && i < |ts| && ts[i].id in color
    ensures Listed(ts, i + 1, order)
  {
    var none: set<U32> := {};
    assert ts[i].id !in none;
  }

  lemma ListedGrows(ts: seq<Item>, i: nat, order0: seq<U32>, order: seq<U32>)
    requires Listed(ts, i, order0) && i < |ts| && ts[i].id in order && forall x :: x in order0 ==> x in order
    ensures Listed(ts, i + 1, order)
  {
  }

  /** Between two searches nothing is on the path. */
  ghost predicate Finished(ts: seq<Item>, color: map<U32, Color>, order: seq<U32>) {
    Topological(ts, order) && Colored(color, {}, order) && forall x :: x in order ==> Known(ts, x)
  }

  /** An edge back onto the current path closes a cycle. */
  lemma BackEdgeCloses(ts: seq<Item>, stack: seq<Frame>, top: nat, onPath: set<U32>, order: seq<U32>, n: U32, b: U32)
    requires Searching(ts, stack, onPath, order)
    requires top < |stack| && stack[top].node == n && top == |stack| - 1
    requires Edge(ts, n, b) && (b == n || b in onPath)
    ensures Cyclic(ts)
  {
    EdgeReaches(ts, n, b);
    if b != n {
      var k :| 0 <= k < |stack| && stack[k] == Frame(b, true);
      assert Reaches(ts, stack[k].node, stack[top].node);
      ReachesTransitive(ts, b, n, b);
    }
    assert Reaches(ts, b, b);
  }

  // ---------------------------------------------------------------------------
  // Closures over the graph
  // ---------------------------------------------------------------------------

  /** The ids named as blockers anywhere, whether or not such a task exists. */
  ghost function BlockerIds(ts: seq<Item>): set<U32> {
    set i, j | 0 <= i < |ts| && 0 <= j < |ts[i].blockers| :: ts[i].blockers[j]
  }

  /** `b` is one of the roots or something a root waits for. */
  ghost predicate FromRoots(ts: seq<Item>, roots: seq<U32>, b: U32) {
    b in roots || exists r :: r in roots && Reaches(ts, r, b)
  }

  /** A downward search: met so far are `seen` and the ids still on the stack. */
  ghost predicate SearchingDown(ts: seq<Item>, roots: seq<U32>, seen: set<U32>, stack: seq<U32>) {
    && (forall x :: x in seen || x in stack ==> FromRoots(ts, roots, x))
    && (forall x :: x in roots ==> x in seen || x in stack)
    && (forall x, y :: x in seen && Edge(ts, x, y) ==> y in seen || y in stack)
  }

  lemma ExtendFromRoots(ts: seq<Item>, roots: seq<U32>, x: U32, y: U32)
    requires FromRoots(ts, roots, x) && Edge(ts, x, y)
    ensures FromRoots(ts, roots, y)
  {
    EdgeReaches(ts, x, y);
    if x !in roots {
      var r :| r in roots && Reaches(ts, r, x);
      ReachesTransitive(ts, r, x, y);
    }
  }

  /** Visiting the top of the stack puts its blockers on the stack. */
  lemma VisitDown(ts: seq<Item>, roots: seq<U32>, seen: set<U32>, rest: seq<U32>, n: U32)
    requires SearchingDown(ts, roots, seen, rest + [n])
    ensures SearchingDown(ts, roots, seen + {n}, rest + if Known(ts, n) then ts[IndexOf(ts, n)].blockers else [])
    ensures n in seen ==> SearchingDown(ts, roots, seen, rest)
  {
    var pushed := if Known(ts, n) then ts[IndexOf(ts, n)].blockers else [];
    assert n in rest + [n];
    forall y | y in pushed
      ensures FromRoots(ts, roots, y)
    {
      assert Edge(ts, n, y);
      ExtendFromRoots(ts, roots, n, y);
    }
  }

  lemma {:induction false} ClosedDownContains(ts: seq<Item>, seen: set<U32>, p: seq<U32>)
    requires forall x, y :: x in seen && Edge(ts, x, y) ==> y in seen
    requires IsPath(ts, p) && p[0] in seen
    ensures p[|p| - 1] in seen
    decreases |p|
  {
    if |p| > 1 {
      assert Edge(ts, p[0], p[1]);
      TailIsPath(ts, p);
      ClosedDownContains(ts, seen, p[1..]);
    }
  }

  /** An exhausted search has met exactly what the roots wait for. */
  lemma ExhaustedDown(ts: seq<Item>, roots: seq<U32>, seen: set<U32>)
    requires SearchingDown(ts, roots, seen, [])
    ensures forall b :: b in seen <==> FromRoots(ts, roots, b)
  {
    forall b | FromRoots(ts, roots, b)
      ensures b in seen
    {
      if b !in roots {
        var r :| r in roots && Reaches(ts, r, b);
        var p :| |p| > 1 && PathBetween(ts, p, r, b);
        ClosedDownContains(ts, seen, p);
      }
    }
  }

  /** The blockers of a task are the roots of everything it waits for. */
  lemma RootsAreReach(ts: seq<Item>, id: U32, b: U32)
    ensures var roots := if Known(ts, id) then ts[IndexOf(ts, id)].blockers else [];
      FromRoots(ts, roots, b) <==> Reaches(ts, id, b)
  {
    var roots := if Known(ts, id) then ts[IndexOf(ts, id)].blockers else [];
    if Reaches(ts, id, b) {
      var c := ReachesFirst(ts, id, b);
    }
    if FromRoots(ts, roots, b) {
      if b in roots {
        EdgeReaches(ts, id, b);
      } else {
        var r :| r in roots && Reaches(ts, r, b);
        EdgeReaches(ts, id, r);
        ReachesTransitive(ts, id, r, b);
      }
    }
  }

  /** An upward search for the tasks that wait for `id`. */
  ghost predicate SearchingUp(ts: seq<Item>, id: U32, dependents: set<U32>, frontier: seq<U32>) {
    && (forall x :: x in dependents ==> x != id && Known(ts, x) && Reaches(ts, x, id))
    && (forall x :: x in frontier ==> x in dependents || x == id)
    && (forall x, y :: (y in dependents || y == id) && y !in frontier && x != id && Edge(ts, x, y) ==> x in dependents)
  }

  lemma {:induction false} ClosedUpContains(ts: seq<Item>, id: U32, dependents: set<U32>, p: seq<U32>)
    requires SearchingUp(ts, id, dependents, [])
    requires IsPath(ts, p) && |p| > 1 && p[|p| - 1] == id && p[0] != id
    ensures p[0] in dependents
    decreases |p|
  {
    assert Edge(ts, p[0], p[1]);
    if p[1] != id {
      TailIsPath(ts, p);
      ClosedUpContains(ts, id, dependents, p[1..]);
    }
  }

  /** Tasks found while scanning for those blocked by `node`, the list scanned up to `n`. */
  ghost predicate ScanningUp(ts: seq<Item>, id: U32, node: U32, before: set<U32>, rest: seq<U32>,
                             dependents: set<U32>, frontier: seq<U32>, n: nat)
    requires n <= |ts|
  {
    && before <= dependents
    && (forall x :: x in dependents - before ==> x != id && Known(ts, x) && Reaches(ts, x, id))
    && (forall x :: x in frontier <==> x in rest || x in dependents - before)
    && (forall j :: 0 <= j < n && ts[j].id != id && node in ts[j].blockers ==> ts[j].id in dependents)
  }

  lemma ScanUpAdds(ts: seq<Item>, id: U32, node: U32, before: set<U32>, rest: seq<U32>,
                   dependents: set<U32>, frontier: seq<U32>, n: nat)
    requires UniqueIds(ts) && SearchingUp(ts, id, before, rest + [node])
    requires n < |ts| && ScanningUp(ts, id, node, before, rest, dependents, frontier, n)
    requires ts[n].id != id && node in ts[n].blockers && ts[n].id !in dependents
    ensures ScanningUp(ts, id, node, before, rest, dependents + {ts[n].id}, frontier + [ts[n].id], n + 1)
    ensures Known(ts, ts[n].id)
  {
    var t := ts[n].id;
    assert node in rest + [node];
    UniqueIndex(ts, n);
    EdgeReaches(ts, t, node);
    if node != id {
      assert node in before;
      ReachesTransitive(ts, t, node, id);
    }
    assert Known(ts, t) && Reaches(ts, t, id);
    forall x | x in dependents + {t} - before
      ensures x != id && Known(ts, x) && Reaches(ts, x, id)
    {
      assert x == t || x in dependents - before;
    }
  }

  lemma FewerLeft(ts: seq<Item>, before: set<U32>, after: set<U32>)
    requires before < after && forall x :: x in after ==> Known(ts, x)
    ensures TaskIds(ts) - after < TaskIds(ts) - before
  {
    var x :| x in after && x !in before;
    assert ts[IndexOf(ts, x)].id == x;
    assert x in TaskIds(ts) - before && x !in TaskIds(ts) - after;
  }

  lemma FinishScanUp(ts: seq<Item>, id: U32, node: U32, before: set<U32>, rest: seq<U32>,
                     dependents: set<U32>, frontier: seq<U32>)
    requires SearchingUp(ts, id, before, rest + [node])
    requires ScanningUp(ts, id, node, before, rest, dependents, frontier, |ts|)
    ensures SearchingUp(ts, id, dependents, frontier)
  {
    assert forall x :: x in rest + [node] <==> x in rest || x == node;
    assert forall x :: x in dependents ==> x in before || x in dependents - before;
    forall x, y | (y in dependents || y == id) && y !in frontier && x != id && Edge(ts, x, y)
      ensures x in dependents
    {
      var j := IndexOf(ts, x);
      assert ts[j].id == x;
    }
  }

  /** An exhausted upward search has met exactly the tasks that wait for `id`. */
  lemma ExhaustedUp(ts: seq<Item>, id: U32, dependents: set<U32>)
    requires SearchingUp(ts, id, dependents, [])
    ensures forall d :: d in dependents <==> d != id && Reaches(ts, d, id)
  {
    forall d | d != id && Reaches(ts, d, id)
      ensures d in dependents
    {
      var p :| |p| > 1 && PathBetween(ts, p, d, id);
      ClosedUpContains(ts, id, dependents, p);
    }
  }

  /** Orders a set of ids; map iteration order never reaches a caller. */
  method SortAscending(ids: set<U32>) returns (r: seq<U32>)
    ensures forall x :: x in r <==> x in ids
    ensures forall i, j :: 0 <= i < j < |r| ==> r[i] < r[j]
  {
    r := [];
    var left := ids;
    while left != {}
      invariant left <= ids
      invariant forall x :: x in r <==> x in ids - left
      invariant forall i, j :: 0 <= i < j < |r| ==> r[i] < r[j]
      invariant forall x, y :: x in r && y in left ==> x < y
      decreases |left|
    {
      var least := Least(left);
      assert forall i :: 0 <= i < |r| ==> r[i] in r;
      r := r + [least];
      left := left - {least};
    }
  }

  method Least(ids: set<U32>) returns (least: U32)
    requires ids != {}
    ensures least in ids && forall x :: x in ids ==> least <= x
  {
    least :| least in ids;
    var left := ids - {least};
    while left != {}
      invariant left <= ids && least in ids
      invariant forall x :: x in ids && x !in left ==> least <= x
      decreases |left|
    {
      var x: U32 :| x in left;
      if x < least {
        least := x;
      }
      left := left - {x};
    }
  }

  // ---------------------------------------------------------------------------
  // Authored lists
  // ---------------------------------------------------------------------------

  /** What appending through Add maintains: fresh ids, and blockers that already exist. */
  ghost predicate Authored(ts: seq<Item>, nextId: nat) {
    && UniqueIds(ts)
    && (forall i :: 0 <= i < |ts| ==> ts[i].id < nextId)
    && forall i, b :: 0 <= i < |ts| && b in ts[i].blockers ==> Known(ts[..i], b)
  }

  lemma KnownInPrefix(ts: seq<Item>, n: nat, b: U32)
    requires n <= |ts| && Known(ts[..n], b)
    ensures Known(ts, b) && IndexOf(ts, b) == IndexOf(ts[..n], b)
  {
    var i, j := IndexOf(ts[..n], b), IndexOf(ts, b);
    assert ts[..n][i] == ts[i];
    assert forall k :: 0 <= k < i ==> ts[..n][k] == ts[k];
  }

  /** An authored list is in topological order as it stands. */
  lemma AuthoredIsAcyclic(ts: seq<Item>, nextId: nat)
    requires Authored(ts, nextId)
    ensures !Cyclic(ts)
  {
    var order := seq(|ts|, i requires 0 <= i < |ts| => ts[i].id);
    forall i, b | 0 <= i < |order| && Edge(ts, order[i], b) && Known(ts, b)
      ensures b in order[..i]
    {
      UniqueIndex(ts, i);
      KnownInPrefix(ts, i, b);
      var k := IndexOf(ts[..i], b);
      assert order[..i][k] == ts[k].id == b;
    }
    assert forall i :: 0 <= i < |ts| ==> order[i] == ts[i].id;
    OrderedIsAcyclic(ts, order);
  }

  /** Nothing authored waits for an id that has not been handed out. */
  lemma FreshIdUnreached(ts: seq<Item>, nextId: U32, a: U32)
    requires Authored(ts, nextId)
    ensures !Reaches(ts, a, nextId)
  {
    if Reaches(ts, a, nextId) {
      var p :| |p| > 1 && PathBetween(ts, p, a, nextId);
      var x := p[|p| - 2];
      assert Edge(ts, x, p[|p| - 1]);
      var i := IndexOf(ts, x);
      assert nextId in ts[i].blockers;
      KnownInPrefix(ts, i, nextId);
      assert false;
    }
  }

  // ---------------------------------------------------------------------------
  // The list as an object
  // ---------------------------------------------------------------------------

  class TaskList {
    var tasks: seq<Item>
    var nextId: U32

    constructor (tasks: seq<Item>, nextId: U32)
      ensures this.tasks == tasks && this.nextId == nextId
    {
      this.tasks, this.nextId := tasks, nextId;
    }

    /** The position of the first task with this id, or the length of the list. */
    method Find(id: U32) returns (i: nat)
      ensures i == IndexOf(tasks, id)
    {
      i := 0;
      while i < |tasks|
        invariant i <= |tasks|
        invariant forall j :: 0 <= j < i ==> tasks[j].id != id
      {
        if tasks[i].id == id {
          return;
        }
        i := i + 1;
      }
    }

    /**
     Writes a status, a description, or both. The transition is validated before
     either is written, so a rejected update leaves the list untouched.
     */
    method Update(id: U32, status: Option<Status>, description: Option<string>) returns (err: Option<TaskError>)
      modifies this
      ensures tasks == Edited(old(tasks), id, status, description) && nextId == old(nextId)
      ensures err.None? <==>
                && old(Known(tasks, id))
                && (status.Some? ==> TransitionAllowed(old(tasks)[IndexOf(old(tasks), id)].status, status.value))
      ensures err == Some(TaskNotFound) <==> !old(Known(tasks, id))
      ensures status.Some? && description.None? ==> tasks == Updated(old(tasks), id, status.value)
    {
      var i := Find(id);
      if i == |tasks| {
        return Some(TaskNotFound);
      }
      if status.Some? {
        if !TransitionAllowed(tasks[i].status, status.value) {
          return Some(InvalidTransition);
        }
        tasks := tasks[i := tasks[i].(status := status.value)];
      }
      if description.Some? {
        tasks := tasks[i := tasks[i].(description := description.value)];
      }
      return None;
    }

    method Complete(id: U32) returns (err: Option<TaskError>)
      modifies this
      ensures tasks == Updated(old(tasks), id, Completed) && nextId == old(nextId)
      ensures old(Known(tasks, id)) ==> err.None? && IsCompleted(tasks, id)
    {
      err := Update(id, Some(Completed), None);
      SameShapeIndex(old(tasks), tasks, id);
    }

    /**
     Appends a pending task. Blockers are validated before anything is written.
     The id counter wraps, so it stays ahead of every id only below the last word.
     */
    method Add(description: string, blockers: seq<U32>) returns (id: U32, err: Option<TaskError>)
      modifies this
      ensures err.Some? ==> tasks == old(tasks) && nextId == old(nextId)
      ensures err.None? ==> id == old(nextId) && tasks == old(tasks) + [Item(id, description, Pending, blockers)]
      ensures err.None? ==> nextId == WrappingAdd(old(nextId), 1)
      ensures err == Some(SelfBlock) ==> old(nextId) in blockers
      ensures old(nextId) !in blockers && (forall b :: b in blockers ==> old(Known(tasks, b))) ==>
                (err.Some? <==> exists b :: b in blockers && Reaches(old(tasks), b, old(nextId)))
      ensures (exists b :: b in blockers && (b == old(nextId) || !old(Known(tasks, b)))) ==> err.Some?
      ensures old(Authored(tasks, nextId)) && err.None? && old(nextId) < U32_MAX ==> Authored(tasks, nextId)
      ensures old(Authored(tasks, nextId)) ==>
                (err.None? <==> forall b :: b in blockers ==> b != old(nextId) && old(Known(tasks, b)))
    {
      id := nextId;
      err := CheckBlockers(id, blockers);
      if err.Some? {
        return;
      }
      var cycle := WouldCreateCycle(id, blockers);
      if old(Authored(tasks, nextId)) {
        forall b {
          FreshIdUnreached(tasks, nextId, b);
        }
      }
      if cycle {
        return id, Some(BlockerCycle);
      }
      ghost var before := tasks;
      tasks := tasks + [Item(id, description, Pending, blockers)];
      nextId := WrappingAdd(nextId, 1);
      assert forall i :: 0 <= i < |before| ==> tasks[..i] == before[..i] && tasks[i] == before[i];
      assert tasks[..|before|] == before;
      return id, None;
    }

    /** The first blocker that is the task itself or names no task. */
    method CheckBlockers(id: U32, blockers: seq<U32>) returns (err: Option<TaskError>)
      ensures err.None? <==> forall b :: b in blockers ==> b != id && Known(tasks, b)
      ensures err.Some? ==>
                exists j :: 0 <= j < |blockers|
                  && (forall k :: 0 <= k < j ==> blockers[k] != id && Known(tasks, blockers[k]))
                  && (if blockers[j] == id then err.value == SelfBlock
                      else !Known(tasks, blockers[j]) && err.value == UnknownBlocker(blockers[j]))
    {
      for j := 0 to |blockers|
        invariant forall k :: 0 <= k < j ==> blockers[k] != id && Known(tasks, blockers[k])
      {
        if blockers[j] == id {
          assert blockers[j] in blockers;
          return Some(SelfBlock);
        }
        var k := Find(blockers[j]);
        if k == |tasks| {
          assert blockers[j] in blockers && !Known(tasks, blockers[j]);
          return Some(UnknownBlocker(blockers[j]));
        }
      }
      return None;
    }

    /** Whether one of the new blockers already waits for the new task. */
    method WouldCreateCycle(newId: U32, newBlockers: seq<U32>) returns (found: bool)
      ensures found <==> FromRoots(tasks, newBlockers, newId)
    {
      var stack := newBlockers;
      var visited: set<U32> := {};
      while stack != []
        invariant SearchingDown(tasks, newBlockers, visited, stack) && newId !in visited
        invariant forall x :: x in stack ==> x in newBlockers || x in BlockerIds(tasks)
        decreases (set x | x in newBlockers) + BlockerIds(tasks) - visited, |stack|
      {
        var node, rest := stack[|stack| - 1], stack[..|stack| - 1];
        assert stack == rest + [node] && node in stack;
        VisitDown(tasks, newBlockers, visited, rest, node);
        if node == newId {
          return true;
        }
        stack := rest;
        if node !in visited {
          visited := visited + {node};
          var at := Find(node);
          if at < |tasks| {
            stack := stack + tasks[at].blockers;
            assert forall x :: x in tasks[at].blockers ==> x in BlockerIds(tasks);
          } else {
            assert rest + [] == rest;
          }
        }
      }
      ExhaustedDown(tasks, newBlockers, visited);
      return false;
    }

    /**
     The pending task with the smallest id all of whose blockers are completed,
     whatever its position.
     */
    method NextReady() returns (next: Option<U32>)
      ensures next.None? <==> forall i :: 0 <= i < |tasks| ==> !Ready(tasks, i)
      ensures next.Some? ==>
                && (exists i :: 0 <= i < |tasks| && Ready(tasks, i) && tasks[i].id == next.value)
                && forall i :: 0 <= i < |tasks| && Ready(tasks, i) ==> next.value <= tasks[i].id
    {
      next := None;
      for i := 0 to |tasks|
        invariant next.None? ==> forall j :: 0 <= j < i ==> !Ready(tasks, j)
        invariant next.Some? ==>
                    && (exists j :: 0 <= j < i && Ready(tasks, j) && tasks[j].id == next.value)
                    && forall j :: 0 <= j < i && Ready(tasks, j) ==> next.value <= tasks[j].id
      {
        if tasks[i].status == Pending {
          var ready := AllCompleted(tasks[i].blockers);
          if ready && (next.None? || tasks[i].id < next.value) {
            next := Some(tasks[i].id);
          }
        }
      }
    }

    method AllCompleted(blockers: seq<U32>) returns (all: bool)
      ensures all <==> forall b :: b in blockers ==> IsCompleted(tasks, b)
    {
      for j := 0 to |blockers|
        invariant forall b :: b in blockers[..j] ==> IsCompleted(tasks, b)
      {
        var at := Find(blockers[j]);
        if at == |tasks| || tasks[at].status != Completed {
          assert blockers[j] in blockers && !IsCompleted(tasks, blockers[j]);
          return false;
        }
        assert blockers[..j + 1] == blockers[..j] + [blockers[j]];
      }
      assert blockers[..|blockers|] == blockers;
      return true;
    }

    /** Everything `id` waits for, ascending; `id` itself only when it lies on a cycle. */
    method TransitiveBlockers(id: U32) returns (out: seq<U32>)
      ensures forall b :: b in out <==> Reaches(tasks, id, b)
      ensures forall i, j :: 0 <= i < j < |out| ==> out[i] < out[j]
    {
      var seen: set<U32> := {};
      var stack: seq<U32> := [];
      var at := Find(id);
      if at < |tasks| {
        stack := tasks[at].blockers;
      }
      ghost var roots := stack;
      assert forall x :: x in stack ==> x in BlockerIds(tasks);
      while stack != []
        invariant SearchingDown(tasks, roots, seen, stack)
        invariant forall x :: x in stack ==> x in BlockerIds(tasks)
        decreases BlockerIds(tasks) - seen, |stack|
      {
        var node, rest := stack[|stack| - 1], stack[..|stack| - 1];
        assert stack == rest + [node] && node in stack;
        VisitDown(tasks, roots, seen, rest, node);
        stack := rest;
        if node !in seen {
          seen := seen + {node};
          var k := Find(node);
          if k < |tasks| {
            stack := stack + tasks[k].blockers;
            assert forall x :: x in tasks[k].blockers ==> x in BlockerIds(tasks);
          } else {
            assert rest + [] == rest;
          }
        }
      }
      ExhaustedDown(tasks, roots, seen);
      forall b {
        RootsAreReach(tasks, id, b);
      }
      out := SortAscending(seen);
    }

    /** Every other task that waits for `id`, directly or not, ascending. */
    method TransitiveDependents(id: U32) returns (out: seq<U32>)
      requires UniqueIds(tasks)
      ensures forall d :: d in out <==> d != id && Reaches(tasks, d, id)
      ensures forall i, j :: 0 <= i < j < |out| ==> out[i] < out[j]
    {
      var dependents: set<U32> := {};
      var frontier := [id];
      while frontier != []
        invariant SearchingUp(tasks, id, dependents, frontier)
        decreases TaskIds(tasks) - dependents, |frontier|
      {
        var node, rest := frontier[|frontier| - 1], frontier[..|frontier| - 1];
        assert frontier == rest + [node];
        ghost var before := dependents;
        dependents, frontier := AddDependents(id, node, dependents, rest);
        if before < dependents {
          FewerLeft(tasks, before, dependents);
        }
      }
      ExhaustedUp(tasks, id, dependents);
      out := SortAscending(dependents);
    }

    /** Scans the list for the tasks blocked by `node`. */
    method AddDependents(id: U32, node: U32, dependents0: set<U32>, rest: seq<U32>)
      returns (dependents: set<U32>, frontier: seq<U32>)
      requires UniqueIds(tasks) && SearchingUp(tasks, id, dependents0, rest + [node])
      ensures SearchingUp(tasks, id, dependents, frontier)
      ensures dependents0 < dependents || (dependents == dependents0 && frontier == rest)
    {
      dependents, frontier := dependents0, rest;
      for i := 0 to |tasks|
        invariant ScanningUp(tasks, id, node, dependents0, rest, dependents, frontier, i)
        invariant dependents == dependents0 ==> frontier == rest
      {
        var t := tasks[i];
        if t.id != id && node in t.blockers && t.id !in dependents {
          ScanUpAdds(tasks, id, node, dependents0, rest, dependents, frontier, i);
          dependents, frontier := dependents + {t.id}, frontier + [t.id];
        }
      }
      FinishScanUp(tasks, id, node, dependents0, rest, dependents, frontier);
    }

    /** Depth-first search over the whole graph; edges to missing tasks are no edges. */
    method HasCycle() returns (found: bool)
      ensures found <==> Cyclic(tasks)
      ensures !found ==> Ordered(tasks)
    {
      var color: map<U32, Color> := map[];
      ghost var order: seq<U32> := [];
      for i := 0 to |tasks|
        invariant Finished(tasks, color, order) && Listed(tasks, i, order)
      {
        if tasks[i].id in color {
          ColouredIsListed(tasks, color, order, i);
        } else {
          assert Known(tasks, tasks[i].id);
          ghost var order0 := order;
          found, color, order := Explore(tasks[i].id, color, order);
          if found {
            return;
          }
          ListedGrows(tasks, i, order0, order);
        }
      }
      FinishedIsOrdered(tasks, color, order);
      found := false;
    }

    /** Searches everything `start` waits for. */
    method Explore(start: U32, color0: map<U32, Color>, ghost order0: seq<U32>)
      returns (found: bool, color: map<U32, Color>, ghost order: seq<U32>)
      requires Known(tasks, start) && Finished(tasks, color0, order0)
      ensures found ==> Cyclic(tasks)
      ensures !found ==> Finished(tasks, color, order) && start in order && forall x :: x in order0 ==> x in order
    {
      color, order := color0, order0;
      var onPath: set<U32>, stack := {}, [Frame(start, false)];
      BeginExploring(tasks, color, order, start);
      while stack != []
        invariant Exploring(tasks, stack, color, onPath, order, start, order0)
        decreases Unmet(tasks, onPath, order), |stack|
      {
        found, stack, color, onPath, order := SearchStep(start, order0, stack, color, onPath, order);
        if found {
          return;
        }
      }
      ExploredAll(tasks, color, onPath, order, start, order0);
      found := false;
    }

    /** Handles the top of the stack. */
    method SearchStep(ghost start: U32, ghost order0: seq<U32>, stack0: seq<Frame>, color0: map<U32, Color>,
                      onPath0: set<U32>, ghost orderBefore: seq<U32>)
      returns (found: bool, stack: seq<Frame>, color: map<U32, Color>, onPath: set<U32>, ghost order: seq<U32>)
      requires Exploring(tasks, stack0, color0, onPath0, orderBefore, start, order0) && stack0 != []
      ensures found ==> Cyclic(tasks)
      ensures !found ==> Exploring(tasks, stack, color, onPath, order, start, order0)
      ensures !found ==> Unmet(tasks, onPath, order) < Unmet(tasks, onPath0, orderBefore)
                         || (Unmet(tasks, onPath, order) == Unmet(tasks, onPath0, orderBefore) && |stack| < |stack0|)
    {
      var top, rest := stack0[|stack0| - 1], stack0[..|stack0| - 1];
      assert stack0 == rest + [top];
      found, stack, color, onPath, order := false, rest, color0, onPath0, orderBefore;
      if top.expanded {
        FinishStep(tasks, rest, top.node, color, onPath, order, start, order0);
        color, onPath, order := color[top.node := Black], onPath - {top.node}, order + [top.node];
      } else if top.node in color && color[top.node] == Black {
        SkipStep(tasks, rest, top.node, color, onPath, order, start, order0);
      } else {
        var pushed;
        found, color, onPath, pushed := Visit(rest, top.node, color, onPath, order);
        if !found {
          ExpandStep(tasks, rest, top.node, pushed, stack0, color, onPath, order, start, order0);
          stack := rest + [Frame(top.node, true)] + pushed;
        }
      }
    }

    /** Puts a node on the current path and collects the blockers still to be searched. */
    method Visit(ghost rest: seq<Frame>, n: U32, color0: map<U32, Color>, onPath0: set<U32>, ghost order: seq<U32>)
      returns (found: bool, color: map<U32, Color>, onPath: set<U32>, pushed: seq<Frame>)
      requires Searching(tasks, rest + [Frame(n, false)], onPath0, order) && Colored(color0, onPath0, order)
      requires n !in order
      ensures found ==> Cyclic(tasks)
      ensures !found ==>
                Searching(tasks, rest + [Frame(n, true)] + pushed, onPath, order) && Colored(color, onPath, order)
      ensures !found ==> Unmet(tasks, onPath, order) < Unmet(tasks, onPath0, order)
    {
      ghost var stack := rest + [Frame(n, false)];
      assert stack[|rest|] == Frame(n, false);
      color, onPath := color0[n := Gray], onPath0 + {n};
      found, pushed := PushChildren(n, color, onPath, order);
      if found {
        ghost var b :| Edge(tasks, n, b) && b in onPath;
        BackEdgeCloses(tasks, stack, |rest|, onPath0, order, n, b);
      } else {
        ExpandKeepsSearch(tasks, rest, n, pushed, onPath0, order);
        ExpandKeepsColors(tasks, color0, onPath0, order, n);
      }
    }

    method PushChildren(n: U32, color: map<U32, Color>, onPath: set<U32>, ghost order: seq<U32>)
      returns (found: bool, pushed: seq<Frame>)
      requires Known(tasks, n) && forall x :: x in color && color[x] == Black ==> x in order || x == n
      requires n in onPath
      ensures found ==> exists b :: Edge(tasks, n, b) && b in onPath
      ensures !found ==> Children(tasks, n, pushed, onPath)
      ensures !found ==> forall b :: Edge(tasks, n, b) && Known(tasks, b) ==> b in order || Pushed(pushed, b)
    {
      pushed := [];
      var at := Find(n);
      var blockers := tasks[at].blockers;
      for i := 0 to |blockers|
        invariant Children(tasks, n, pushed, onPath)
        invariant forall b :: b in blockers[..i] && Known(tasks, b) ==> b in order || Pushed(pushed, b)
      {
        var b := blockers[i];
        assert blockers[..i + 1] == blockers[..i] + [b];
        assert Edge(tasks, n, b);
        var k := Find(b);
        if k < |tasks| {
          if b in onPath {
            return true, pushed;
          }
          if !(b in color && color[b] == Black) {
            ghost var shorter := pushed;
            pushed := pushed + [Frame(b, false)];
            PushedGrows(shorter, b);
          }
        }
      }
      assert blockers[..|blockers|] == blockers;
      found := false;
    }
  }
}
