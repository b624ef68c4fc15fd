/** Resuming a paused window: which calls an answer settles, and which it leaves owed. */
module Resumes {
  import opened Words
  import opened Results
  import opened ReActWindows

  datatype HumanResponse =
    | Answer(text: string)
    | ApproveWithFeedback(text: string)
    | Allow
    | AllowWithModification(calls: seq<ToolCall>)
    | Deny(reason: string)
    | Reject(reason: string)
    | HumanHalt
    | EscalationReply

  /** The answer goes to the clarifying call itself, as its tool result. */
  predicate Injects(request: Option<HumanRequest>, pending: seq<ToolCall>, response: HumanResponse) {
    && request.Some? && request.value.Clarification?
    && (response.Answer? || response.ApproveWithFeedback?)
    && pending != []
  }

  /** The calls a response answers; None when it halts the run instead. */
  function Settles(request: Option<HumanRequest>, pending: seq<ToolCall>,
                   response: HumanResponse): Option<seq<ToolCall>> {
    if Injects(request, pending, response) then Some(pending)
    else match response
      case Allow => Some(pending)
      case Deny(_) => Some(pending)
      case AllowWithModification(calls) => Some(calls)
      case HumanHalt => None
      case EscalationReply => None
      case _ => Some([])
  }

  /** On a drain path a sandbox violation is flattened: there is nowhere to halt. */
  method DispatchFlattened(call: ToolCall) returns (o: ToolOutput)
    ensures !o.Violation?
  {
    o := DispatchTool(call);
    if o.Violation? {
      o := ToolError("sandbox", !o.halts);
    }
  }

  /** Answers every call once, in order: with a fixed error, or by dispatching it. */
  method Drain(calls: seq<ToolCall>, refusal: Option<string>, session0: Session) returns (session: Session)
    ensures CallIds(session) == CallIds(session0)
    ensures AnswerIds(session) == AnswerIds(session0) + Ids(calls)
    ensures session0 <= session
  {
    session := session0;
    for i := 0 to |calls|
      invariant session0 <= session
      invariant CallIds(session) == CallIds(session0)
      invariant AnswerIds(session) == AnswerIds(session0) + Ids(calls[..i])
    {
      var output;
      if refusal.Some? {
        output := ToolError(refusal.value, true);
      } else {
        output := DispatchFlattened(calls[i]);
      }
      var answer := ToolAnswer(ToolResult(calls[i].id, output));
      AppendOne(session, answer);
      assert Ids(calls[..i + 1]) == Ids(calls[..i]) + [calls[i].id];
      session := session + [answer];
    }
    assert calls[..|calls|] == calls;
  }

  lemma HeadThenRest(ids: seq<string>, pending: seq<ToolCall>)
    requires pending != []
    ensures ids + [pending[0].id] + Ids(pending[1..]) == ids + Ids(pending)
  {
    assert Ids(pending) == [pending[0].id] + Ids(pending[1..]);
  }

  /** The text becomes the result of the head call; the rest of the batch is dispatched. */
  method InjectAnswer(text: string, pending: seq<ToolCall>, session0: Session) returns (session: Session)
    requires pending != []
    ensures CallIds(session) == CallIds(session0)
    ensures AnswerIds(session) == AnswerIds(session0) + Ids(pending)
    ensures session0 + [ToolAnswer(ToolResult(pending[0].id, Output(text)))] <= session
  {
    var head := ToolAnswer(ToolResult(pending[0].id, Output(text)));
    AppendOne(session0, head);
    session := Drain(pending[1..], None, session0 + [head]);
    HeadThenRest(AnswerIds(session0), pending);
  }

  /** Resuming after a consult. */
  method ResumeConsult(state: PausedState, text: string) returns (session: Session)
    ensures CallIds(session) == CallIds(state.session)
    ensures AnswerIds(session) == AnswerIds(state.session) + Ids(state.pending)
  {
    session := state.session;
    if state.pending != [] {
      session := InjectAnswer(text, state.pending, session);
    }
  }

  /** Resuming after a human response; None when the response halts the run. */
  method ResumeHuman(state: PausedState, request: Option<HumanRequest>, response: HumanResponse)
    returns (resumed: Option<Session>)
    requires request.Some? ==> !request.value.BudgetRequest?
    ensures resumed.None? <==> Settles(request, state.pending, response).None?
    ensures resumed.Some? ==>
              && CallIds(resumed.value) == CallIds(state.session)
              && AnswerIds(resumed.value)
                 == AnswerIds(state.session) + Ids(Settles(request, state.pending, response).value)
  {
    var session := state.session;
    if Injects(request, state.pending, response) {
      session := InjectAnswer(response.text, state.pending, session);
      return Some(session);
    }
    match response {
      case HumanHalt =>
        return None;
      case EscalationReply =>
        return None;
      case Deny(reason) =>
        session := Drain(state.pending, Some(reason), session);
      case Allow =>
        session := Drain(state.pending, None, session);
      case AllowWithModification(calls) =>
        session := Drain(calls, None, session);
      case Reject(reason) =>
        session := SayUser(reason, session);
      case Answer(text) =>
        session := SayUser(text, session);
      case ApproveWithFeedback(text) =>
        session := SayUser(text, session);
    }
    return Some(session);
  }

  method SayUser(text: string, session0: Session) returns (session: Session)
    ensures session == session0 + [UserText(text)]
    ensures CallIds(session) == CallIds(session0) && AnswerIds(session) == AnswerIds(session0) + Ids([])
  {
    AppendOne(session0, UserText(text));
    session := session0 + [UserText(text)];
  }

  // ---------------------------------------------------------------------------
  // Exactly one result per call
  // ---------------------------------------------------------------------------

  /** Answering some calls settles what was owed exactly when they are the owed ones, in order. */
  lemma AnswersSettle(before: Session, paused: Session, after: Session, owed: seq<string>, given: seq<string>)
    requires Balanced(before, paused, owed)
    requires CallIds(after) == CallIds(paused) && AnswerIds(after) == AnswerIds(paused) + given
    ensures Balanced(before, after, []) <==> given == owed
  {
    var made :| CallIds(paused) == CallIds(before) + made && AnswerIds(paused) + owed == AnswerIds(before) + made;
    if Balanced(before, after, []) {
      var again :| CallIds(after) == CallIds(before) + again && AnswerIds(after) + [] == AnswerIds(before) + again;
      assert again == (CallIds(before) + again)[|CallIds(before)|..] == made;
      var n := |AnswerIds(paused)|;
      assert AnswerIds(paused) + given == AnswerIds(paused) + owed;
      assert given == (AnswerIds(paused) + given)[n..] == (AnswerIds(paused) + owed)[n..] == owed;
    }
    if given == owed {
      assert AnswerIds(after) + [] == AnswerIds(before) + made;
    }
  }

  /**
   After a clarification or consult the conversation holds exactly one result per
   call, in order, exactly when the response settles the pending calls.
   */
  lemma KeptPauseSettles(before: Session, st: PausedState, after: Session, settled: seq<ToolCall>)
    requires KeptPause(before, st)
    requires CallIds(after) == CallIds(st.session) && AnswerIds(after) == AnswerIds(st.session) + Ids(settled)
    ensures Balanced(before, after, []) <==> Ids(settled) == Ids(st.pending)
  {
    AnswersSettle(before, st.session, after, Ids(st.pending), Ids(settled));
  }

  /**
   After a pause raised by a child or by an escalation, settling the pending calls
   always leaves the interrupting call without a result.
   */
  lemma DroppedPauseNeverSettles(before: Session, st: PausedState, after: Session)
    requires DroppedPause(before, st)
    requires CallIds(after) == CallIds(st.session) && AnswerIds(after) == AnswerIds(st.session) + Ids(st.pending)
    ensures !Balanced(before, after, [])
  {
    var dropped: string :| Balanced(before, st.session, [dropped] + Ids(st.pending));
    AnswersSettle(before, st.session, after, [dropped] + Ids(st.pending), Ids(st.pending));
    assert |Ids(st.pending)| != |[dropped] + Ids(st.pending)|;
  }

  /** Which responses leave exactly one result per call after a clarification. */
  lemma ClarificationResponses(before: Session, st: PausedState, after: Session, question: string,
                               response: HumanResponse)
    requires KeptPause(before, st)
    requires var settled := Settles(Some(Clarification(question)), st.pending, response);
      && settled.Some?
      && CallIds(after) == CallIds(st.session) && AnswerIds(after) == AnswerIds(st.session) + Ids(settled.value)
    ensures Balanced(before, after, []) <==>
            || response.Answer? || response.ApproveWithFeedback? || response.Allow? || response.Deny?
            || (response.AllowWithModification? && Ids(response.calls) == Ids(st.pending))
  {
    var settled := Settles(Some(Clarification(question)), st.pending, response).value;
    KeptPauseSettles(before, st, after, settled);
    assert |Ids(st.pending)| > 0;
  }
}
