/** Conversations, tool calls, paused runs and terminal results. */
module Results {
  import opened Words
  import opened Budgets
  import opened Strategies

  /** Call arguments: their text, and the decoded value (by identity) when the text decodes. */
  datatype ToolInput = Decoded(value: int, raw: string) | Undecodable(raw: string)

  datatype ToolCall = ToolCall(id: string, name: string, input: ToolInput)

  datatype Signal = PlanRecorded | OtherSignal

  datatype ToolOutput =
    | Output(content: string)
    | ToolError(message: string, recoverable: bool)
    | Violation(halts: bool)
    | AwaitingClarification(question: string)
    | NeedsConsult
    | ChildWaiting
    | Escalates(signal: Signal)

  datatype ToolResult = ToolResult(callId: string, output: ToolOutput)

  datatype Message =
    | UserText(text: string)
    | AssistantText(text: string)
    | AssistantCall(call: ToolCall)
    | ToolAnswer(result: ToolResult)

  type Session = seq<Message>

  datatype HumanRequest =
    | Clarification(question: string)
    | BudgetRequest(exhausted: BudgetExhausted)
    | ChildRequest

  /**
   A paused run. `turnsUsed` is the turn count a resume starts from, `turnNumber`
   the one the pause reports; only a pause raised by the top-level loop has two.
   */
  datatype PausedState = PausedState(
    session: Session,
    pending: seq<ToolCall>,
    approved: seq<ToolResult>,
    task: TaskSpec,
    turnsUsed: U32,
    turnNumber: U32)

  datatype LimitType = LimitTurns | LimitTokens | LimitWallTime | LimitCost

  datatype HaltReason =
    | BudgetExceeded(limit: LimitType)
    | ToolErrorLoop(tool: string, consecutive: U32)
    | RepeatedToolCall(tool: string, repeats: U32)
    | UnrecoverableToolError(tool: string)
    | SandboxViolation
    | TerminationPolicyHalt
    | OutputSchemaViolation(attempts: U32)
    | AgentError
    | ConfigurationError(handle: Handle)
    | PlanPhaseFailed
    | EmptyPlan
    | TaskGraphCycle
    | TasksBlockedByFailure(completed: seq<U32>, blocked: seq<U32>, failedTask: U32, why: string)
    | SelfVerifyMisconfigured
    | SelfVerifyExhausted(iterations: U32, verdict: string)
    | RalphCompletionUnmet(windows: U32)
    | HillClimbingMisconfigured
    | StagnationLimitReached(iterations: U32)

  datatype RunResult =
    | Success(output: string, turns: U32, session: Session)
    | Failure(reason: HaltReason, turns: U32, session: Session)
    | WaitingForHuman(state: PausedState, request: HumanRequest)
    | Consult(state: PausedState, turns: U32)
    | Escalated(signal: Signal, state: PausedState, turns: U32)
  {
    predicate Terminal() {
      Success? || Failure?
    }

    /** The turn count a combinator folds in; it reads none off a human pause. */
    function Turns(): U32 {
      if WaitingForHuman? then 0 else turns
    }

    /** The turn count a result or a pause carries. */
    function Reached(): U32 {
      if WaitingForHuman? then state.turnsUsed else turns
    }
  }

  // ---------------------------------------------------------------------------
  // Calls and answers in a conversation
  // ---------------------------------------------------------------------------

  function Ids(calls: seq<ToolCall>): (ids: seq<string>)
    ensures |ids| == |calls|
    ensures forall i :: 0 <= i < |calls| ==> ids[i] == calls[i].id
  {
    seq(|calls|, i requires 0 <= i < |calls| => calls[i].id)
  }

  /** The ids of the calls the assistant recorded, in order. */
  function CallIds(s: Session): seq<string> {
    if s == [] then []
    else CallIds(s[..|s| - 1]) +
         match s[|s| - 1] case AssistantCall(c) => [c.id] case _ => []
  }

  /** The ids answered by a tool result, in order. */
  function AnswerIds(s: Session): seq<string> {
    if s == [] then []
    else AnswerIds(s[..|s| - 1]) +
         match s[|s| - 1] case ToolAnswer(r) => [r.callId] case _ => []
  }

  lemma AppendOne(s: Session, m: Message)
    ensures CallIds(s + [m]) == CallIds(s) + match m case AssistantCall(c) => [c.id] case _ => []
    ensures AnswerIds(s + [m]) == AnswerIds(s) + match m case ToolAnswer(r) => [r.callId] case _ => []
  {
    assert (s + [m])[..|s|] == s;
  }

  /**
   Since `before`, every recorded call was answered exactly once and in order,
   except that the calls in `owed` are still to be answered.
   */
  ghost predicate Balanced(before: Session, after: Session, owed: seq<string>) {
    exists made: seq<string> ::
      CallIds(after) == CallIds(before) + made && AnswerIds(after) + owed == AnswerIds(before) + made
  }
}
