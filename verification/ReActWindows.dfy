/**
 One bounded window of the ReAct turn loop: the turn gate with its narration
 refund, the dispatch of tool batches, and the pauses that interrupt them.
 The model, the tools and the policies answer arbitrarily.
 */
module ReActWindows {
  import opened Words
  import opened Budgets
  import opened Strategies
  import opened Results
  import opened Breakers
  import OutputSchemas

  const MAX_TOOL_CALL_NUDGES := 2

  /** The decoder of JSON texts and its float test on number tokens are given. */
  datatype WindowConfig = WindowConfig(
    threshold: U32,
    maxStopBlocks: U32,
    toolCallNudge: bool,
    adaptive: bool,
    schemaRetries: U32,
    decode: string -> Option<OutputSchemas.Decoded>,
    integral: string -> bool)
  {
    /** The text satisfies the schema, given as a text as well. */
    ghost predicate Accepts(schema: string, content: string) {
      OutputSchemas.Conforms(decode(content), decode(schema), integral)
    }

    /** A result of a window under a schema: only a conforming text succeeds, only a schema is violated. */
    ghost predicate Judges(schema: Option<string>, r: RunResult) {
      && (r.Success? && schema.Some? ==> Accepts(schema.value, r.output))
      && (r.Failure? && r.reason.OutputSchemaViolation? ==> schema.Some?)
    }
  }

  datatype TurnResult = FinalResponse(content: string) | ToolCalls(calls: seq<ToolCall>) | TurnError

  datatype PauseKind = AskHuman(question: string) | AskHelper | ChildAsks | RaiseSignal(signal: Signal)

  /** A clarification or consult keeps its own call pending; the other pauses drop it. */
  predicate KeepsCall(kind: PauseKind) {
    kind.AskHuman? || kind.AskHelper?
  }

  datatype BatchExit =
    | BatchDone
    | BatchHalted(reason: HaltReason)
    | BatchPaused(kind: PauseKind, pending: seq<ToolCall>)

  // ---------------------------------------------------------------------------
  // Collaborators, answering arbitrarily
  // ---------------------------------------------------------------------------

  method AskModel() returns (t: TurnResult)
  {
    t := *;
  }

  method DispatchTool(call: ToolCall) returns (o: ToolOutput)
  {
    o := *;
  }

  /** None when the call may run; otherwise whether the violation halts the run. */
  method CheckSandbox(call: ToolCall) returns (halts: Option<bool>)
  {
    halts := *;
  }

  /** A call whose tool is marked as always halting, if the batch has one. */
  method FindAlwaysHalt(calls: seq<ToolCall>) returns (tool: Option<string>)
  {
    tool := *;
  }

  /** A token, wall-time or cost limit that has been passed. */
  method OtherLimit() returns (limit: Option<LimitType>)
  {
    limit := *;
  }

  method Decide() returns (yes: bool)
  {
    yes := *;
  }

  // ---------------------------------------------------------------------------
  // Batches
  // ---------------------------------------------------------------------------

  function AnsweredIds(rs: seq<ToolResult>): (ids: seq<string>)
    ensures |ids| == |rs|
  {
    seq(|rs|, i requires 0 <= i < |rs| => rs[i].callId)
  }

  /** How many user messages a conversation holds. */
  function UserTexts(s: Session): nat {
    if s == [] then 0 else UserTexts(s[..|s| - 1]) + if s[|s| - 1].UserText? then 1 else 0
  }

  lemma AppendUserTexts(s: Session, m: Message)
    ensures UserTexts(s + [m]) == UserTexts(s) + if m.UserText? then 1 else 0
  {
    assert (s + [m])[..|s|] == s;
  }

  /** The first k calls of the batch have been answered, in order, and nothing else was. */
  ghost predicate AnsweredSoFar(calls: seq<ToolCall>, k: nat, before: Session, after: Session,
                                approved: seq<ToolResult>)
    requires k <= |calls|
  {
    && AnsweredIds(approved) == Ids(calls[..k])
    && AnswerIds(after) == AnswerIds(before) + Ids(calls[..k])
    && CallIds(after) == CallIds(before)
  }

  lemma AnswerNext(calls: seq<ToolCall>, k: nat, before: Session, after: Session, approved: seq<ToolResult>,
                   r: ToolResult)
    requires k < |calls| && AnsweredSoFar(calls, k, before, after, approved) && r.callId == calls[k].id
    ensures AnsweredSoFar(calls, k + 1, before, after + [ToolAnswer(r)], approved + [r])
    ensures UserTexts(after + [ToolAnswer(r)]) == UserTexts(after)
  {
    AppendOne(after, ToolAnswer(r));
    AppendUserTexts(after, ToolAnswer(r));
    assert Ids(calls[..k + 1]) == Ids(calls[..k]) + [calls[k].id];
    assert AnsweredIds(approved + [r]) == AnsweredIds(approved) + [r.callId];
  }

  lemma AnswerThenNudge(calls: seq<ToolCall>, k: nat, before: Session, after: Session,
                        approved: seq<ToolResult>, text: string)
    requires k <= |calls| && AnsweredSoFar(calls, k, before, after, approved)
    ensures AnsweredSoFar(calls, k, before, after + [UserText(text)], approved)
    ensures UserTexts(after + [UserText(text)]) == UserTexts(after) + 1
  {
    AppendOne(after, UserText(text));
    AppendUserTexts(after, UserText(text));
  }

  /**
   Dispatches a batch whose calls are already recorded. Each dispatched call is
   answered once, in batch order; each nudge of the breaker is one user message.
   */
  method DispatchBatch(breaker: ToolLoopBreaker, calls: seq<ToolCall>, session0: Session)
    returns (exit: BatchExit, session: Session, approved: seq<ToolResult>)
    requires breaker.Valid()
    modifies breaker
    ensures |approved| <= |calls| && AnsweredSoFar(calls, |approved|, session0, session, approved)
    ensures UserTexts(session) == UserTexts(session0) + breaker.nudges - old(breaker.nudges)
    ensures exit.BatchDone? ==> |approved| == |calls|
    ensures exit.BatchPaused? ==> |approved| < |calls|
    ensures exit.BatchPaused? ==>
              exit.pending == if KeepsCall(exit.kind) then calls[|approved|..] else calls[|approved| + 1..]
    ensures !exit.BatchHalted? ==> breaker.Valid()
    ensures exit.BatchHalted? ==> !exit.reason.OutputSchemaViolation?
  {
    session, approved := session0, [];
    var i := 0;
    while i < |calls|
      invariant i <= |calls| && breaker.Valid()
      invariant |approved| == i && AnsweredSoFar(calls, i, session0, session, approved)
      invariant UserTexts(session) == UserTexts(session0) + breaker.nudges - old(breaker.nudges)
    {
      var stop, output, nudge := DispatchCall(breaker, calls, i);
      if !stop.BatchDone? {
        return stop, session, approved;
      }
      var answer := ToolResult(calls[i].id, output);
      AnswerNext(calls, i, session0, session, approved, answer);
      session, approved := session + [ToolAnswer(answer)], approved + [answer];
      i := i + 1;
      if nudge {
        AnswerThenNudge(calls, i, session0, session, approved, "take a different action");
        session := session + [UserText("take a different action")];
      }
    }
    exit := BatchDone;
  }

  /** One call: sandbox, dispatch, and the breakers. */
  method DispatchCall(breaker: ToolLoopBreaker, calls: seq<ToolCall>, i: nat)
    returns (stop: BatchExit, output: ToolOutput, nudge: bool)
    requires breaker.Valid() && i < |calls|
    modifies breaker
    ensures stop.BatchDone? || stop.BatchPaused? ==> breaker.Valid()
    ensures stop.BatchHalted? && !breaker.Valid() ==> stop.reason.ToolErrorLoop? || stop.reason.RepeatedToolCall?
    ensures stop.BatchHalted? ==> !stop.reason.OutputSchemaViolation?
    ensures breaker.nudges == old(breaker.nudges) + if stop.BatchDone? && nudge then 1 else 0
    ensures stop.BatchPaused? ==>
              stop.pending == if KeepsCall(stop.kind) then calls[i..] else calls[i + 1..]
    ensures stop.BatchDone? ==> output.Output? || (output.ToolError? && output.recoverable)
  {
    var call := calls[i];
    stop, output, nudge := BatchDone, ToolError("sandbox", true), false;
    var blocked := CheckSandbox(call);
    if blocked.Some? {
      if blocked.value {
        stop := BatchHalted(SandboxViolation);
      }
      return;
    }
    output := DispatchTool(call);
    if output.Violation? {
      if output.halts {
        return BatchHalted(SandboxViolation), output, false;
      }
      output := ToolError("sandbox", true);
    }
    stop := StopFor(output, call, calls, i);
    if !stop.BatchDone? {
      return;
    }
    var verdict: Verdict;
    ghost var length: nat;
    if output.ToolError? {
      verdict, length := breaker.ObserveError(call);
    } else {
      verdict, length := breaker.ObserveSuccess(call);
    }
    match verdict
    case StopErrors(count) => stop := BatchHalted(ToolErrorLoop(call.name, count));
    case StopRepeats(repeats) => stop := BatchHalted(RepeatedToolCall(call.name, repeats));
    case _ => nudge := verdict == Nudge;
  }

  /** The outputs that end a batch before the call is answered; BatchDone for the others. */
  function StopFor(output: ToolOutput, call: ToolCall, calls: seq<ToolCall>, i: nat): (exit: BatchExit)
    requires i < |calls|
    ensures exit.BatchPaused? ==>
              exit.pending == if KeepsCall(exit.kind) then calls[i..] else calls[i + 1..]
    ensures exit.BatchDone? <==> output.Output? || output.Violation? || (output.ToolError? && output.recoverable)
    ensures exit.BatchHalted? ==> exit.reason.UnrecoverableToolError?
  {
    match output
    case AwaitingClarification(q) => BatchPaused(AskHuman(q), [calls[i]] + calls[i + 1..])
    case NeedsConsult => BatchPaused(AskHelper, [calls[i]] + calls[i + 1..])
    case ChildWaiting => BatchPaused(ChildAsks, calls[i + 1..])
    case Escalates(signal) => BatchPaused(RaiseSignal(signal), calls[i + 1..])
    case ToolError(_, recoverable) => if recoverable then BatchDone else BatchHalted(UnrecoverableToolError(call.name))
    case _ => BatchDone
  }

  // ---------------------------------------------------------------------------
  // Windows
  // ---------------------------------------------------------------------------

  /** The cap of a window: its iteration cap, lowered by the task's turn cap. */
  function TurnCap(task: TaskSpec, maxIterations: U32): U32 {
    if task.maxTurns.Some? && task.maxTurns.value < maxIterations then task.maxTurns.value else maxIterations
  }

  /** No window that entered at t0 ends beyond twice its cap, nor beyond the task's turn cap. */
  ghost predicate TurnsBounded(task: TaskSpec, cap: U32, t0: U32, turns: U32) {
    && t0 <= turns <= Max(t0, Min(2 * cap, U32_MAX))
    && (task.maxTurns.Some? ==> turns <= Max(t0, task.maxTurns.value))
  }

  /** What a finished window promises about its result. */
  ghost predicate WindowResult(task: TaskSpec, cap: U32, t0: U32, before: Session, r: RunResult) {
    match r
    case Success(_, turns, session) =>
      TurnsBounded(task, cap, t0, turns) && Balanced(before, session, [])
    case Failure(_, turns, _) =>
      TurnsBounded(task, cap, t0, turns)
    case WaitingForHuman(st, request) =>
      && st.task == task && TurnsBounded(task, cap, t0, st.turnsUsed)
      && (request.Clarification? || request.ChildRequest?)
      && (request.Clarification? ==> KeptPause(before, st))
      && (request.ChildRequest? ==> DroppedPause(before, st))
    case Consult(st, turns) =>
      st.task == task && turns == st.turnsUsed && TurnsBounded(task, cap, t0, turns) && KeptPause(before, st)
    case Escalated(_, st, turns) =>
      st.task == task && turns == st.turnsUsed && TurnsBounded(task, cap, t0, turns) && DroppedPause(before, st)
  }

  /** The approved calls followed by the pending ones are the batch, and only the pending ones are owed. */
  ghost predicate KeptPause(before: Session, st: PausedState) {
    && st.pending != []
    && Balanced(before, st.session, Ids(st.pending))
    && exists made :: CallIds(st.session) == made + AnsweredIds(st.approved) + Ids(st.pending)
  }

  /** The interrupting call is neither approved nor pending. */
  ghost predicate DroppedPause(before: Session, st: PausedState) {
    exists dropped: string ::
      && Balanced(before, st.session, [dropped] + Ids(st.pending))
      && exists made :: CallIds(st.session) == made + AnsweredIds(st.approved) + [dropped] + Ids(st.pending)
  }

  /** Recording a batch: its calls become owed. */
  method RecordCalls(calls: seq<ToolCall>, session0: Session) returns (session: Session)
    ensures CallIds(session) == CallIds(session0) + Ids(calls) && AnswerIds(session) == AnswerIds(session0)
  {
    session := session0;
    for i := 0 to |calls|
      invariant CallIds(session) == CallIds(session0) + Ids(calls[..i]) && AnswerIds(session) == AnswerIds(session0)
    {
      AppendOne(session, AssistantCall(calls[i]));
      assert Ids(calls[..i + 1]) == Ids(calls[..i]) + [calls[i].id];
      session := session + [AssistantCall(calls[i])];
    }
    assert calls[..|calls|] == calls;
  }

  lemma SayKeepsBalance(before: Session, s: Session, owed: seq<string>, m: Message)
    requires Balanced(before, s, owed) && (m.UserText? || m.AssistantText?)
    ensures Balanced(before, s + [m], owed)
  {
    var made :| CallIds(s) == CallIds(before) + made && AnswerIds(s) + owed == AnswerIds(before) + made;
    AppendOne(s, m);
    assert CallIds(s + [m]) == CallIds(before) + made;
  }

  /** After a batch, what is owed are the calls that were not answered. */
  lemma BatchBalance(before: Session, s0: Session, recorded: Session, s: Session, calls: seq<ToolCall>, k: nat,
                     approved: seq<ToolResult>)
    requires Balanced(before, s0, []) && k <= |calls|
    requires CallIds(recorded) == CallIds(s0) + Ids(calls) && AnswerIds(recorded) == AnswerIds(s0)
    requires AnsweredSoFar(calls, k, recorded, s, approved)
    ensures Balanced(before, s, Ids(calls[k..]))
    ensures CallIds(s) == CallIds(s0) + AnsweredIds(approved) + Ids(calls[k..])
  {
    var made :| CallIds(s0) == CallIds(before) + made && AnswerIds(s0) + [] == AnswerIds(before) + made;
    var x, y := Ids(calls[..k]), Ids(calls[k..]);
    assert Ids(calls) == x + y;
    assert AnswerIds(s0) == AnswerIds(before) + made;
    Regroup(CallIds(before), made, x, y);
    Regroup(AnswerIds(before), made, x, y);
    assert AnswerIds(s) + y == AnswerIds(before) + (made + (x + y));
    Regroup(CallIds(s0), [], x, y);
  }

  lemma Regroup<T>(a: seq<T>, m: seq<T>, x: seq<T>, y: seq<T>)
    ensures a + m + x + y == a + (m + (x + y))
    ensures a + m + (x + y) == a + (m + (x + y))
    ensures a + x + y == a + (x + y)
  {
  }

  /** The result that carries a paused batch. */
  function PauseResult(kind: PauseKind, state: PausedState): RunResult {
    match kind
    case AskHuman(q) => WaitingForHuman(state, Clarification(q))
    case AskHelper => Consult(state, state.turnsUsed)
    case ChildAsks => WaitingForHuman(state, ChildRequest)
    case RaiseSignal(signal) => Escalated(signal, state, state.turnsUsed)
  }

  /** Dropping the interrupting call leaves it owed ahead of the pending ones. */
  lemma DroppedCall(before: Session, s0: Session, s: Session, calls: seq<ToolCall>, k: nat, approved: seq<ToolResult>)
    requires k < |calls| && Balanced(before, s, Ids(calls[k..]))
    requires CallIds(s) == CallIds(s0) + AnsweredIds(approved) + Ids(calls[k..])
    ensures Balanced(before, s, [calls[k].id] + Ids(calls[k + 1..]))
    ensures CallIds(s) == CallIds(s0) + AnsweredIds(approved) + [calls[k].id] + Ids(calls[k + 1..])
  {
    assert Ids(calls[k..]) == [calls[k].id] + Ids(calls[k + 1..]);
  }

  class TurnWindow {
    const config: WindowConfig
    const task: TaskSpec
    const schema: Option<string>
    const executeStep: bool
    const cap: U32
    const breaker: ToolLoopBreaker
    var session: Session
    var turns: U32
    var narrationRefund: U32
    var stopBlocks: U32
    var nudgesUsed: nat
    var toolsCalled: U32
    var promptMode: bool
    var schemaRetriesUsed: U32
    ghost const before: Session
    ghost const turns0: U32

    /** Turns taken that were not refunded. */
    ghost function Unrefunded(): int
      reads this
    {
      turns - turns0 - narrationRefund
    }

    ghost predicate Counting()
      reads this
    {
      && turns0 <= turns <= Max(turns0, Min(cap + narrationRefund, U32_MAX))
      && narrationRefund <= Min(cap, turns - turns0)
      && (task.maxTurns.Some? ==> turns <= Max(turns0, task.maxTurns.value))
    }

    ghost predicate Valid()
      reads this, breaker
    {
      Counting() && breaker.Valid() && Balanced(before, session, [])
    }

    constructor (config: WindowConfig, task: TaskSpec, maxIterations: U32, session: Session, turns: U32,
                 schema: Option<string>, executeStep: bool)
      ensures Valid() && fresh(breaker)
      ensures this.config == config && this.task == task && cap == TurnCap(task, maxIterations) && this.schema == schema
      ensures before == session && turns0 == turns && this.turns == turns && this.session == session
      ensures narrationRefund == 0
    {
      this.config, this.task, this.schema, this.executeStep := config, task, schema, executeStep;
      this.cap := TurnCap(task, maxIterations);
      this.session, this.turns, this.before, this.turns0 := session, turns, session, turns;
      narrationRefund, stopBlocks, nudgesUsed, toolsCalled, schemaRetriesUsed := 0, 0, 0, 0, 0;
      promptMode := false;
      breaker := new ToolLoopBreaker(config.threshold);
      new;
      assert CallIds(session) == CallIds(before) + [] && AnswerIds(session) + [] == AnswerIds(before) + [];
    }

    /** The gates before a turn; afterwards one more turn fits in every bound. */
    method Gate() returns (stop: Option<LimitType>)
      ensures stop.None? ==> turns < SaturatingAdd(cap, narrationRefund)
      ensures turns >= SaturatingAdd(cap, narrationRefund) ==> stop == Some(LimitTurns)
      ensures stop.None? && task.maxTurns.Some? ==> turns < task.maxTurns.value
    {
      if turns >= SaturatingAdd(cap, narrationRefund) {
        return Some(LimitTurns);
      }
      if task.maxTurns.Some? && turns >= task.maxTurns.value {
        return Some(LimitTurns);
      }
      stop := OtherLimit();
    }

    /** Counts a turn, refunding one that only narrated. */
    method CountTurn(turn: TurnResult)
      requires Counting() && turns < SaturatingAdd(cap, narrationRefund)
      requires task.maxTurns.Some? ==> turns < task.maxTurns.value
      modifies this`turns, this`narrationRefund
      ensures Counting() && turns == old(turns) + 1
      ensures narrationRefund == old(narrationRefund) + if old(narrationRefund) < cap && Narrates(turn) then 1 else 0
    {
      turns := WrappingAdd(turns, 1);
      if Narrates(turn) && narrationRefund < cap {
        narrationRefund := WrappingAdd(narrationRefund, 1);
      }
    }

    method Say(m: Message)
      requires Balanced(before, session, []) && (m.UserText? || m.AssistantText?)
      modifies this`session
      ensures session == old(session) + [m] && Balanced(before, session, [])
    {
      SayKeepsBalance(before, session, [], m);
      session := session + [m];
    }

    /** Records the prose and a user message that forces another turn. */
    method Retry(content: string, request: string)
      requires Balanced(before, session, [])
      modifies this`session
      ensures session == old(session) + [AssistantText(content)] + [UserText(request)] && Balanced(before, session, [])
    {
      Say(AssistantText(content));
      Say(UserText(request));
    }

    /** The model answered in prose: force another turn, or end the window. */
    method OnFinalResponse(content: string) returns (r: Option<RunResult>)
      requires Counting() && Balanced(before, session, [])
      modifies this`session, this`promptMode, this`nudgesUsed, this`stopBlocks, this`schemaRetriesUsed
      ensures Balanced(before, session, [])
      ensures r.Some? ==> WindowResult(task, cap, turns0, before, r.value)
      ensures r.Some? && r.value.Success? ==> r.value.output == content && r.value.session == session
      ensures r.Some? ==> r.value.Terminal() && r.value.turns == turns
      ensures r.None? ==>
                || (promptMode && !old(promptMode))
                || nudgesUsed == old(nudgesUsed) + 1 <= MAX_TOOL_CALL_NUDGES
                || stopBlocks == old(stopBlocks) + 1 <= config.maxStopBlocks
                || (schema.Some? && !config.Accepts(schema.value, content)
                    && schemaRetriesUsed == old(schemaRetriesUsed) + 1 <= config.schemaRetries)
      ensures r.Some? ==> config.Judges(schema, r.value)
      ensures r.Some? && r.value.Failure? && r.value.reason.OutputSchemaViolation? ==>
                !config.Accepts(schema.value, content) && schemaRetriesUsed >= config.schemaRetries
    {
      hide OutputSchemas.Conforms, OutputSchemas.Explains;
      var advertised := Decide();
      var idle := config.toolCallNudge && executeStep && advertised && toolsCalled == 0 && schema.None?;
      if config.adaptive && !promptMode {
        var phrase := Decide();
        if (phrase && advertised) || idle {
          promptMode := true;
          Retry(content, "call a tool");
          return None;
        }
      }
      if idle && nudgesUsed < MAX_TOOL_CALL_NUDGES {
        nudgesUsed := nudgesUsed + 1;
        Retry(content, "use the tools");
        return None;
      }
      var halt := Decide();
      if halt {
        return Some(Failure(TerminationPolicyHalt, turns, session));
      }
      Say(AssistantText(content));
      var blocked := Decide();
      if blocked && stopBlocks < config.maxStopBlocks {
        stopBlocks := stopBlocks + 1;
        Say(UserText("not done"));
        return None;
      }
      if schema.Some? {
        var answer, asked := config.decode(content), config.decode(schema.value);
        var violation := OutputSchemas.ValidateOutput(answer, asked, config.integral);
        if violation.Some? {
          if schemaRetriesUsed < config.schemaRetries {
            schemaRetriesUsed := schemaRetriesUsed + 1;
            Say(UserText("does not conform"));
            return None;
          }
          return Some(Failure(OutputSchemaViolation(WrappingAdd(config.schemaRetries, 1)), turns, session));
        }
      }
      return Some(Success(content, turns, session));
    }

    /** The model asked for tools: record, dispatch, and pause or halt when told to. */
    method OnToolCalls(calls: seq<ToolCall>) returns (r: Option<RunResult>)
      requires Valid()
      modifies this`session, this`toolsCalled, breaker
      ensures r.Some? ==> WindowResult(task, cap, turns0, before, r.value)
      ensures r.None? ==> Valid()
      ensures r.Some? ==> !r.value.Success? && (r.value.Failure? ==> r.value.turns == turns)
      ensures r.Some? && r.value.Failure? ==> !r.value.reason.OutputSchemaViolation?
    {
      toolsCalled := WrappingAdd(toolsCalled, |calls| % U32_SPAN);
      var always := FindAlwaysHalt(calls);
      if always.Some? {
        return Some(Failure(UnrecoverableToolError(always.value), turns, session));
      }
      ghost var s0 := session;
      var exit, approved := RunCalls(calls);
      ghost var k := |approved|;
      match exit
      case BatchDone =>
        assert calls[k..] == [];
        r := None;
      case BatchHalted(reason) =>
        r := Some(Failure(reason, turns, session));
      case BatchPaused(kind, pending) =>
        if !KeepsCall(kind) {
          DroppedCall(before, s0, session, calls, k, approved);
        }
        r := Some(PauseResult(kind, PausedState(session, pending, approved, task, turns, turns)));
    }

    /** Records the calls of a turn and dispatches them; the unanswered ones stay owed. */
    method RunCalls(calls: seq<ToolCall>) returns (exit: BatchExit, approved: seq<ToolResult>)
      requires breaker.Valid() && Balanced(before, session, [])
      modifies this`session, breaker
      ensures |approved| <= |calls| && Balanced(before, session, Ids(calls[|approved|..]))
      ensures CallIds(session) == CallIds(old(session)) + AnsweredIds(approved) + Ids(calls[|approved|..])
      ensures exit.BatchDone? ==> |approved| == |calls|
      ensures exit.BatchPaused? ==> |approved| < |calls|
      ensures exit.BatchPaused? ==>
                exit.pending == if KeepsCall(exit.kind) then calls[|approved|..] else calls[|approved| + 1..]
      ensures !exit.BatchHalted? ==> breaker.Valid()
      ensures exit.BatchHalted? ==> !exit.reason.OutputSchemaViolation?
    {
      ghost var s0 := session;
      session := RecordCalls(calls, session);
      ghost var recorded := session;
      exit, session, approved := DispatchBatch(breaker, calls, session);
      BatchBalance(before, s0, recorded, session, calls, |approved|, approved);
    }

    /** One turn: gates, model, and what the answer asks for. */
    method Turn() returns (done: Option<RunResult>)
      requires Valid()
      modifies this, breaker
      ensures done.Some? ==> WindowResult(task, cap, turns0, before, done.value) && Counting()
      ensures done.Some? && done.value.Terminal() ==> done.value.turns == turns
      ensures done.Some? ==> config.Judges(schema, done.value)
      ensures done.None? ==> Valid() && turns > old(turns)
      ensures old(turns) >= SaturatingAdd(cap, old(narrationRefund)) ==>
                done == Some(Failure(BudgetExceeded(LimitTurns), old(turns), old(session)))
    {
      var stop := Gate();
      if stop.Some? {
        return Some(Failure(BudgetExceeded(stop.value), turns, session));
      }
      var turn := AskModel();
      CountTurn(turn);
      done := Answer(turn);
    }

    /** What a counted turn asks for. */
    method Answer(turn: TurnResult) returns (done: Option<RunResult>)
      requires Valid()
      modifies this, breaker
      ensures done.Some? ==> WindowResult(task, cap, turns0, before, done.value)
      ensures done.Some? && done.value.Terminal() ==> done.value.turns == turns
      ensures done.Some? ==> config.Judges(schema, done.value)
      ensures turns == old(turns) && narrationRefund == old(narrationRefund)
      ensures done.None? ==> breaker.Valid() && Balanced(before, session, [])
    {
      match turn
      case FinalResponse(content) =>
        done := OnFinalResponse(content);
      case ToolCalls(calls) =>
        done := OnToolCalls(calls);
      case TurnError =>
        done := Some(Failure(AgentError, turns, session));
    }

    /**
     Runs the window to its end. It always ends, and takes at most `cap - turns0`
     turns beyond the refunded ones; at its cap already, it takes none.
     */
    method Run() returns (r: RunResult)
      requires Valid()
      modifies this, breaker
      ensures WindowResult(task, cap, turns0, before, r)
      ensures Unrefunded() <= Max(0, cap - turns0) && narrationRefund <= cap
      ensures r.Terminal() ==> r.turns == turns
      ensures task.maxTurns.Some? && task.maxTurns.value <= cap ==> turns <= Max(turns0, cap)
      ensures config.Judges(schema, r)
      ensures old(turns) >= SaturatingAdd(cap, old(narrationRefund)) ==>
                r == Failure(BudgetExceeded(LimitTurns), old(turns), old(session))
    {
      while true
        invariant Valid()
        invariant old(turns) >= SaturatingAdd(cap, old(narrationRefund)) ==>
                    turns == old(turns) && narrationRefund == old(narrationRefund) && session == old(session)
        decreases U32_SPAN - turns
      {
        var done := Turn();
        if done.Some? {
          return done.value;
        }
      }
    }
  }

  predicate Narrates(turn: TurnResult) {
    turn.ToolCalls? && |turn.calls| > 0 && forall c :: c in turn.calls ==> c.name == SEND_MESSAGE
  }
}
