/**
 What happens while a node of a strategy tree runs, event by event: the answers it
 got from its children, its scope, the verifier and the completion check.
 */
module Logs {
  import opened Words
  import opened Budgets
  import opened Strategies
  import opened Results

  datatype Cause = SpentBudget | ErrorLoop(tool: string, consecutive: U32)

  /** What a node hands to its parent. */
  datatype Outcome =
    | Complete(output: string)
    | Failed(reason: Option<HaltReason>)
    | Exhausted(signal: BudgetExhausted, hasPartial: bool, cause: Cause)

  /** The image of a terminal result; a pause reaches a parent only as its override. */
  function OutcomeOf(r: RunResult): Outcome {
    match r
    case Success(output, _, _) => Complete(output)
    case Failure(reason, _, _) => Failed(Some(reason))
    case _ => Failed(None)
  }

  /** What a charge leads to: go on, loop again under a refreshed scope, or give up with this signal. */
  datatype Charged = Proceed | Again | Surface(signal: BudgetExhausted, res: Resolution)

  /**
   One event of a node's run. `left` is the conversation a child left behind: that of
   its pause, or the one it ended with.
   */
  datatype Event =
    | ChildEnded(outcome: Outcome, left: Session)
    | ChargeMade(turns: U32, answer: Charged)
    | ScopeResolved(refilled: bool, res: Resolution)
    | WindowEnded(result: RunResult, refunds: nat)
    | PlanTried
    | Verdict(accepted: bool)
    | Completion(complete: bool)

  /** The events of one node, in order; those of its children are in logs of their own. */
  type Log = seq<Event>

  // ---------------------------------------------------------------------------
  // Reading a log
  // ---------------------------------------------------------------------------

  /** The turns the scope of the node admitted. */
  ghost function Admitted(log: Log): nat {
    if log == [] then 0
    else Admitted(log[..|log| - 1]) + match log[|log| - 1] case ChargeMade(turns, Proceed) => turns case _ => 0
  }

  /** The verdicts of the verifier, in order. */
  ghost function Verdicts(log: Log): seq<bool> {
    if log == [] then []
    else Verdicts(log[..|log| - 1]) + match log[|log| - 1] case Verdict(accepted) => [accepted] case _ => []
  }

  /** The answers of the completion check, in order. */
  ghost function Completions(log: Log): seq<bool> {
    if log == [] then []
    else Completions(log[..|log| - 1]) + match log[|log| - 1] case Completion(complete) => [complete] case _ => []
  }

  /** How many children ran. */
  ghost function Runs(log: Log): nat {
    if log == [] then 0 else Runs(log[..|log| - 1]) + if log[|log| - 1].ChildEnded? then 1 else 0
  }

  /** How often the planner was run. */
  ghost function Tries(log: Log): nat {
    if log == [] then 0 else Tries(log[..|log| - 1]) + if log[|log| - 1].PlanTried? then 1 else 0
  }

  /** The conversation the last child left behind. */
  ghost function LastLeft(log: Log): Session {
    if log == [] then []
    else if log[|log| - 1].ChildEnded? then log[|log| - 1].left
    else LastLeft(log[..|log| - 1])
  }

  /** What one more event adds to each reading. */
  lemma AppendEvent(log: Log, e: Event)
    ensures Admitted(log + [e]) == Admitted(log) + match e case ChargeMade(turns, Proceed) => turns case _ => 0
    ensures Verdicts(log + [e]) == Verdicts(log) + match e case Verdict(accepted) => [accepted] case _ => []
    ensures Completions(log + [e]) == Completions(log) + match e case Completion(complete) => [complete] case _ => []
    ensures Runs(log + [e]) == Runs(log) + if e.ChildEnded? then 1 else 0
    ensures Tries(log + [e]) == Tries(log) + if e.PlanTried? then 1 else 0
    ensures LastLeft(log + [e]) == if e.ChildEnded? then e.left else LastLeft(log)
  {
    assert (log + [e])[..|log|] == log;
  }

  // ---------------------------------------------------------------------------
  // Exhaustions
  // ---------------------------------------------------------------------------

  /**
   The events that end a combinator with a scope of its own over a budget: a spent child, except under a plan,
   whose own scope decides about it; a charge refused for good; and a plan's scope that
   escalates over a spent child.
   */
  predicate Closes(s: Strategy, e: Event) {
    match e
    case ChildEnded(outcome, _) => outcome.Exhausted? && !s.PlanExecute?
    case ChargeMade(_, answer) => answer.Surface?
    case ScopeResolved(refilled, res) => !refilled && res == ResolveEscalate
    case _ => false
  }

  /** Whether such an event leaves the node as an exhaustion; otherwise a human is asked. */
  predicate HandedOn(mode: EscalationMode, e: Event) {
    match e
    case ChargeMade(_, Surface(_, res)) => !(res == ResolveEscalate && mode.SurfaceToHuman?)
    case ScopeResolved(_, _) => !mode.SurfaceToHuman?
    case _ => true
  }

  /** Nothing has ended the node over a budget. */
  ghost predicate Open(s: Strategy, log: Log) {
    forall e :: e in log ==> !Closes(s, e)
  }

  /** Something on the log ended the node over a budget and was handed on. */
  ghost predicate HandsUp(s: Strategy, mode: EscalationMode, log: Log) {
    exists e :: e in log && Closes(s, e) && HandedOn(mode, e)
  }

  lemma OpenHandsNothing(s: Strategy, mode: EscalationMode, log: Log)
    requires Open(s, log)
    ensures !HandsUp(s, mode, log)
  {
  }

  /** The last event decides. */
  lemma LastDecides(s: Strategy, mode: EscalationMode, log: Log, e: Event)
    requires Open(s, log)
    ensures HandsUp(s, mode, log + [e]) <==> Closes(s, e) && HandedOn(mode, e)
    ensures Open(s, log + [e]) <==> !Closes(s, e)
  {
    assert forall x :: x in log + [e] <==> x in log || x == e;
  }

  /** The answers of a check that is asked no more once it accepted. */
  ghost predicate AcceptedLast(answers: seq<bool>, success: bool) {
    && (forall i :: 0 <= i < |answers| - 1 ==> !answers[i])
    && (success <==> |answers| > 0 && answers[|answers| - 1])
  }
}
