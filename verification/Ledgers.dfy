/**
 What a step of a plan is told about the steps before it: the results of the tasks
 it waits for, and a bounded running ledger of everything completed so far.
 */
module Ledgers {
  import opened Words
  import opened Results

  const LEDGER_MAX := 20

  const ELISION_MARKER := "[older ledger entries elided]"

  /** One completed task; `files` are the writes the harness observed. */
  datatype Row = Row(task: U32, summary: string, files: seq<string>)

  /** The most recent rows, in completion order. */
  function Recent(rows: seq<Row>): (r: seq<Row>)
    ensures |r| <= LEDGER_MAX
  {
    if |rows| <= LEDGER_MAX then rows else rows[|rows| - LEDGER_MAX..]
  }

  /** Appends a row and drops the oldest ones beyond the bound. */
  method Push(ledger: seq<Row>, row: Row) returns (next: seq<Row>, dropped: bool)
    ensures next == Recent(ledger + [row])
    ensures dropped <==> |ledger| + 1 > LEDGER_MAX
  {
    next, dropped := ledger + [row], false;
    ghost var all := next;
    while |next| > LEDGER_MAX
      invariant |next| <= |all| && next == all[|all| - |next|..]
      invariant if |all| <= LEDGER_MAX then next == all else |next| >= LEDGER_MAX
      invariant dropped <==> |next| < |all|
    {
      next, dropped := next[1..], true;
    }
  }

  /** A ledger and its sticky elision flag, against everything completed so far. */
  ghost predicate Records(done: seq<Row>, ledger: seq<Row>, elided: bool) {
    ledger == Recent(done) && (elided <==> |done| > LEDGER_MAX)
  }

  /** However many rows were dropped before, one more push keeps exactly the most recent ones. */
  lemma PushRecords(done: seq<Row>, ledger: seq<Row>, elided: bool, row: Row)
    requires Records(done, ledger, elided)
    ensures Records(done + [row], Recent(ledger + [row]), elided || |ledger| + 1 > LEDGER_MAX)
  {
    if |done| > LEDGER_MAX {
      assert ledger + [row] == (done + [row])[|done| - LEDGER_MAX..];
    }
  }

  // ---------------------------------------------------------------------------
  // The messages a step starts from
  // ---------------------------------------------------------------------------

  function Joined(parts: seq<string>, separator: string): string {
    if parts == [] then ""
    else if |parts| == 1 then parts[0]
    else parts[0] + separator + Joined(parts[1..], separator)
  }

  function RowLine(row: Row): string {
    "#" + Decimal(row.task) + " " + row.summary
    + if row.files == [] then "" else " [files: " + Joined(row.files, ", ") + "]"
  }

  function RowLines(rows: seq<Row>): (lines: seq<string>)
    ensures |lines| == |rows|
  {
    seq(|rows|, i requires 0 <= i < |rows| => RowLine(rows[i]))
  }

  /** The ledger as one message; an empty ledger says nothing. */
  function Rendered(rows: seq<Row>, elided: bool): Session {
    if rows == [] then []
    else [UserText("Progress ledger so far:\n"
                   + Joined((if elided then [ELISION_MARKER] else []) + RowLines(rows), "\n"))]
  }

  function ResultLine(task: U32, output: string): string {
    "#" + Decimal(task) + " result: " + output
  }

  /** The results of these tasks, as far as they have one, in this order. */
  function ResultLines(tasks: seq<U32>, outputs: map<U32, string>): seq<string> {
    if tasks == [] then []
    else
      ResultLines(tasks[..|tasks| - 1], outputs)
      + var t := tasks[|tasks| - 1]; if t in outputs then [ResultLine(t, outputs[t])] else []
  }

  /** The rows of these tasks, in ledger order. */
  function Scoped(rows: seq<Row>, tasks: seq<U32>): (r: seq<Row>)
    ensures forall row :: row in r <==> row in rows && row.task in tasks
  {
    if rows == [] then []
    else
      assert rows == rows[..|rows| - 1] + [rows[|rows| - 1]];
      Scoped(rows[..|rows| - 1], tasks) + if rows[|rows| - 1].task in tasks then [rows[|rows| - 1]] else []
  }

  function UpstreamResults(lines: seq<string>): Session {
    if lines == [] then [] else [UserText("Results from upstream tasks:\n" + Joined(lines, "\n"))]
  }

  /** What a fresh step is told after the base conversation. */
  function Briefing(upstream: seq<U32>, outputs: map<U32, string>, ledger: seq<Row>, elided: bool, instruction: string):
    Session
  {
    UpstreamResults(ResultLines(upstream, outputs)) + Rendered(Scoped(ledger, upstream), false)
    + Rendered(ledger, elided)
    + [UserText(instruction)]
  }

  method CollectResults(tasks: seq<U32>, outputs: map<U32, string>) returns (lines: seq<string>)
    ensures lines == ResultLines(tasks, outputs)
  {
    lines := [];
    for i := 0 to |tasks|
      invariant lines == ResultLines(tasks[..i], outputs)
    {
      assert tasks[..i + 1][..i] == tasks[..i];
      if tasks[i] in outputs {
        lines := lines + [ResultLine(tasks[i], outputs[tasks[i]])];
      }
    }
    assert tasks[..|tasks|] == tasks;
  }

  method CollectRows(rows: seq<Row>, tasks: seq<U32>) returns (scoped: seq<Row>)
    ensures scoped == Scoped(rows, tasks)
  {
    scoped := [];
    for i := 0 to |rows|
      invariant scoped == Scoped(rows[..i], tasks)
    {
      assert rows[..i + 1][..i] == rows[..i];
      if rows[i].task in tasks {
        scoped := scoped + [rows[i]];
      }
    }
    assert rows[..|rows|] == rows;
  }

  /** The results a step is shown depend on the tasks it waits for and on no other. */
  lemma {:induction false} OnlyUpstreamShows(tasks: seq<U32>, a: map<U32, string>, b: map<U32, string>)
    requires forall t :: t in tasks ==> (t in a <==> t in b) && (t in a ==> a[t] == b[t])
    ensures ResultLines(tasks, a) == ResultLines(tasks, b)
  {
    if tasks != [] {
      OnlyUpstreamShows(tasks[..|tasks| - 1], a, b);
    }
  }

  /** The rows of other tasks leave no trace in the scoped ledger. */
  lemma {:induction false} OtherRowsDoNotShow(rows: seq<Row>, more: seq<Row>, tasks: seq<U32>)
    requires forall row :: row in more ==> row.task !in tasks
    ensures Scoped(rows + more, tasks) == Scoped(rows, tasks)
  {
    if more == [] {
      assert rows + more == rows;
    } else {
      var init := more[..|more| - 1];
      assert (rows + more)[..|rows + more| - 1] == rows + init;
      OtherRowsDoNotShow(rows, init, tasks);
    }
  }
}
