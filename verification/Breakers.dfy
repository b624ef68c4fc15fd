/**
 The two circuit breakers of the turn loop: repeated recoverable errors of one
 tool, and repeated identical successes.
 */
module Breakers {
  import opened Words
  import opened Results

  const SEND_MESSAGE := "send_message"

  /** One completed dispatch: a success, or a recoverable error. */
  datatype Dispatch = Dispatch(call: ToolCall, failed: bool)

  /** Argument equality is structural when both decode, textual otherwise. */
  predicate SameArgs(a: ToolInput, b: ToolInput) {
    match (a, b)
    case (Decoded(v, _), Decoded(w, _)) => v == w
    case (Undecodable(r), Undecodable(q)) => r == q
    case _ => false
  }

  function Signature(c: ToolCall): string {
    c.name + "\0" + c.input.raw
  }

  // ---------------------------------------------------------------------------
  // What the counters mean
  // ---------------------------------------------------------------------------

  /** The dispatches of one tool. */
  function OfTool(h: seq<Dispatch>, tool: string): seq<Dispatch> {
    if h == [] then []
    else OfTool(h[..|h| - 1], tool) + if h[|h| - 1].call.name == tool then [h[|h| - 1]] else []
  }

  /** The successes that count towards the repeat breaker. */
  function Productive(h: seq<Dispatch>): seq<Dispatch> {
    if h == [] then []
    else Productive(h[..|h| - 1]) +
         if !h[|h| - 1].failed && h[|h| - 1].call.name != SEND_MESSAGE then [h[|h| - 1]] else []
  }

  /** The last k dispatches are errors with the same arguments. */
  ghost predicate ErrorTail(t: seq<Dispatch>, k: nat) {
    && k <= |t|
    && (forall i :: |t| - k <= i < |t| ==> t[i].failed)
    && (forall i, j :: |t| - k <= i < |t| && |t| - k <= j < |t| ==> SameArgs(t[i].call.input, t[j].call.input))
  }

  /** The last k dispatches have the same signature. */
  ghost predicate RepeatTail(t: seq<Dispatch>, k: nat) {
    && k <= |t|
    && (forall i, j :: |t| - k <= i < |t| && |t| - k <= j < |t| ==> Signature(t[i].call) == Signature(t[j].call))
  }

  /** k is the length of the longest such suffix. */
  ghost predicate LongestErrors(t: seq<Dispatch>, k: nat) {
    ErrorTail(t, k) && forall m: nat :: ErrorTail(t, m) ==> m <= k
  }

  ghost predicate LongestRepeats(t: seq<Dispatch>, k: nat) {
    RepeatTail(t, k) && forall m: nat :: RepeatTail(t, m) ==> m <= k
  }

  lemma ShorterErrorTail(t: seq<Dispatch>, d: Dispatch, m: nat)
    requires ErrorTail(t + [d], m) && m > 0
    ensures ErrorTail(t, m - 1) && d.failed
    ensures m > 1 ==> SameArgs(t[|t| - 1].call.input, d.call.input)
  {
    var u := t + [d];
    assert u[|u| - 1] == d;
    assert forall i :: 0 <= i < |t| ==> u[i] == t[i];
    if m > 1 {
      assert u[|u| - 2] == t[|t| - 1];
    }
  }

  /** An error with the arguments of the run extends it by one. */
  lemma ExtendErrors(t: seq<Dispatch>, k: nat, d: Dispatch)
    requires LongestErrors(t, k) && d.failed
    requires k > 0 ==> SameArgs(t[|t| - 1].call.input, d.call.input)
    ensures LongestErrors(t + [d], k + 1)
  {
    var u := t + [d];
    assert forall i :: 0 <= i < |t| ==> u[i] == t[i];
    forall i, j | |u| - (k + 1) <= i < |u| && |u| - (k + 1) <= j < |u|
      ensures SameArgs(u[i].call.input, u[j].call.input)
    {
      if k > 0 {
        assert i < |t| ==> SameArgs(t[i].call.input, t[|t| - 1].call.input);
        assert j < |t| ==> SameArgs(t[j].call.input, t[|t| - 1].call.input);
      }
    }
    forall m: nat | ErrorTail(u, m)
      ensures m <= k + 1
    {
      if m > 0 {
        ShorterErrorTail(t, d, m);
      }
    }
  }

  /** An error with other arguments starts a run of its own. */
  lemma RestartErrors(t: seq<Dispatch>, k: nat, d: Dispatch)
    requires LongestErrors(t, k) && d.failed && k > 0 && !SameArgs(t[|t| - 1].call.input, d.call.input)
    ensures LongestErrors(t + [d], 1)
  {
    assert (t + [d])[|t|] == d;
    forall m: nat | ErrorTail(t + [d], m)
      ensures m <= 1
    {
      if m > 0 {
        ShorterErrorTail(t, d, m);
      }
    }
  }

  /** A success ends the run. */
  lemma ClearErrors(t: seq<Dispatch>, d: Dispatch)
    requires !d.failed
    ensures LongestErrors(t + [d], 0)
  {
    forall m: nat | ErrorTail(t + [d], m)
      ensures m == 0
    {
      if m > 0 {
        ShorterErrorTail(t, d, m);
      }
    }
  }

  lemma ShorterRepeatTail(t: seq<Dispatch>, d: Dispatch, m: nat)
    requires RepeatTail(t + [d], m) && m > 0
    ensures RepeatTail(t, m - 1)
    ensures m > 1 ==> Signature(t[|t| - 1].call) == Signature(d.call)
  {
    var u := t + [d];
    assert u[|u| - 1] == d;
    assert forall i :: 0 <= i < |t| ==> u[i] == t[i];
    if m > 1 {
      assert u[|u| - 2] == t[|t| - 1];
    }
  }

  lemma ExtendRepeats(t: seq<Dispatch>, k: nat, d: Dispatch)
    requires LongestRepeats(t, k)
    requires k > 0 ==> Signature(t[|t| - 1].call) == Signature(d.call)
    ensures LongestRepeats(t + [d], k + 1)
  {
    var u := t + [d];
    assert forall i :: 0 <= i < |t| ==> u[i] == t[i];
    forall i | |u| - (k + 1) <= i < |u|
      ensures Signature(u[i].call) == Signature(d.call)
    {
      if i < |t| {
        assert Signature(t[i].call) == Signature(t[|t| - 1].call);
      }
    }
    forall m: nat | RepeatTail(u, m)
      ensures m <= k + 1
    {
      if m > 0 {
        ShorterRepeatTail(t, d, m);
      }
    }
  }

  lemma RestartRepeats(t: seq<Dispatch>, k: nat, d: Dispatch)
    requires LongestRepeats(t, k) && k > 0 && Signature(t[|t| - 1].call) != Signature(d.call)
    ensures LongestRepeats(t + [d], 1)
  {
    assert (t + [d])[|t|] == d;
    forall m: nat | RepeatTail(t + [d], m)
      ensures m <= 1
    {
      if m > 0 {
        ShorterRepeatTail(t, d, m);
      }
    }
  }

  /** A dispatch of one tool leaves the runs of the others, and an error the successes, alone. */
  lemma OthersUnchanged(h: seq<Dispatch>, d: Dispatch)
    ensures forall tool :: tool != d.call.name ==> OfTool(h + [d], tool) == OfTool(h, tool)
    ensures OfTool(h + [d], d.call.name) == OfTool(h, d.call.name) + [d]
    ensures Productive(h + [d])
            == if !d.failed && d.call.name != SEND_MESSAGE then Productive(h) + [d] else Productive(h)
  {
    assert (h + [d])[..|h|] == h;
  }

  // ---------------------------------------------------------------------------
  // Thresholds
  // ---------------------------------------------------------------------------

  /** The run length at which the loop halts: the doubled threshold, as the machine doubles it. */
  function HaltLength(n: U32): nat {
    Max(1, WrappingMul(n, 2))
  }

  /**
   The promised hard stop at twice the threshold holds exactly below 2^31; from
   there on the doubling wraps, the stop comes earlier and no nudge precedes it.
   */
  lemma HaltsAtTwice(n: U32)
    requires n > 0
    ensures HaltLength(n) == 2 * n <==> n < 0x8000_0000
    ensures n < HaltLength(n) <==> n < 0x8000_0000
    ensures n >= 0x8000_0000 ==> HaltLength(n) == Max(1, 2 * n - U32_SPAN)
  {
    if n < 0x8000_0000 {
      assert (n * 2) % U32_SPAN == n * 2;
    } else {
      assert (n * 2) % U32_SPAN == n * 2 - U32_SPAN;
    }
  }

  datatype Verdict = Proceed | Nudge | StopErrors(count: U32) | StopRepeats(repeats: U32)

  datatype ErrorRun = ErrorRun(args: ToolInput, count: U32, injected: bool)

  /** A recorded run stands for the k > 0 equal errors at the end of the tool's dispatches. */
  ghost predicate Describes(threshold: U32, r: ErrorRun, t: seq<Dispatch>, k: nat) {
    && 0 < k <= |t| && SameArgs(t[|t| - 1].call.input, r.args)
    && r.count == k % U32_SPAN
    && (threshold > 0 ==> k < HaltLength(threshold) && (r.injected <==> k >= threshold))
  }

  /** The run after one more error: extended when the arguments are the same, else fresh. */
  function NextRun(run: Option<ErrorRun>, input: ToolInput): ErrorRun {
    if run.Some? && SameArgs(run.value.args, input)
    then run.value.(count := WrappingAdd(run.value.count, 1))
    else ErrorRun(input, 1, false)
  }

  lemma NextRunCounts(threshold: U32, run: Option<ErrorRun>, t: seq<Dispatch>, k: nat, d: Dispatch)
    returns (length: nat)
    requires d.failed && LongestErrors(t, k)
    requires if run.None? then k == 0 else Describes(threshold, run.value, t, k)
    ensures LongestErrors(t + [d], length) && length > 0
    ensures var r := NextRun(run, d.call.input);
      && SameArgs(d.call.input, r.args)
      && r.count == length % U32_SPAN
      && (threshold > 0 ==> length <= HaltLength(threshold) && (r.injected <==> length > threshold))
  {
    if run.Some? && SameArgs(run.value.args, d.call.input) {
      ExtendErrors(t, k, d);
      length := k + 1;
      assert (k % U32_SPAN + 1) % U32_SPAN == (k + 1) % U32_SPAN;
    } else {
      length := 1;
      if run.Some? {
        RestartErrors(t, k, d);
      } else {
        ExtendErrors(t, 0, d);
      }
    }
  }

  /** The run of equal signatures after one more productive success. */
  lemma NextRepeats(t: seq<Dispatch>, k: nat, d: Dispatch) returns (length: nat)
    requires LongestRepeats(t, k) && (k == 0 ==> t == [])
    ensures LongestRepeats(t + [d], length)
    ensures length == if k > 0 && Signature(t[|t| - 1].call) == Signature(d.call) then k + 1 else 1
  {
    if k > 0 && Signature(t[|t| - 1].call) != Signature(d.call) {
      RestartRepeats(t, k, d);
      length := 1;
    } else {
      ExtendRepeats(t, k, d);
      length := k + 1;
    }
  }

  /** Up to the halt length the counter is exact, and the code's test finds the halt length. */
  lemma StopTest(threshold: U32, length: nat, count: U32)
    requires threshold > 0 && 0 < length <= HaltLength(threshold) && count == length % U32_SPAN
    ensures count == length
    ensures count >= WrappingMul(threshold, 2) <==> length == HaltLength(threshold)
  {
  }

  /** The recorded run of a tool is its longest run of equal errors, short of the stop. */
  ghost predicate RunMatches(threshold: U32, t: seq<Dispatch>, run: Option<ErrorRun>) {
    match run
    case None => LongestErrors(t, 0)
    case Some(r) => exists k: nat :: LongestErrors(t, k) && Describes(threshold, r, t, k)
  }

  function Lookup(runs: map<string, ErrorRun>, tool: string): Option<ErrorRun> {
    if tool in runs then Some(runs[tool]) else None
  }

  ghost predicate RunsMatch(threshold: U32, h: seq<Dispatch>, runs: map<string, ErrorRun>) {
    forall tool :: RunMatches(threshold, OfTool(h, tool), Lookup(runs, tool))
  }

  /** The repeat counter is the longest run of equal productive successes, short of the stop. */
  ghost predicate RepeatsMatch(threshold: U32, t: seq<Dispatch>, sig: string, count: U32, injected: bool) {
    threshold > 0 ==>
      && LongestRepeats(t, count)
      && count < HaltLength(threshold)
      && (count > 0 ==> sig == Signature(t[|t| - 1].call))
      && (count == 0 ==> sig == "" && t == [])
      && (injected <==> count >= threshold)
  }

  lemma RunsAfter(threshold: U32, h: seq<Dispatch>, runs: map<string, ErrorRun>, d: Dispatch, after: map<string,
                  ErrorRun>)
    requires RunsMatch(threshold, h, runs)
    requires forall tool :: tool != d.call.name ==> Lookup(after, tool) == Lookup(runs, tool)
    requires RunMatches(threshold, OfTool(h, d.call.name) + [d], Lookup(after, d.call.name))
    ensures RunsMatch(threshold, h + [d], after)
  {
    OthersUnchanged(h, d);
    forall tool
      ensures RunMatches(threshold, OfTool(h + [d], tool), Lookup(after, tool))
    {
      if tool != d.call.name {
        assert RunMatches(threshold, OfTool(h, tool), Lookup(runs, tool));
      }
    }
  }

  class ToolLoopBreaker {
    const threshold: U32
    var errorRuns: map<string, ErrorRun>
    var lastSuccessSig: string
    var repeatCount: U32
    var repeatInjected: bool
    /** Every dispatch observed, in order, and how many of them drew a nudge. */
    ghost var history: seq<Dispatch>
    ghost var nudges: nat

    ghost predicate Valid()
      reads this
    {
      && RunsMatch(threshold, history, errorRuns)
      && RepeatsMatch(threshold, Productive(history), lastSuccessSig, repeatCount, repeatInjected)
    }

    constructor (threshold: U32)
      ensures Valid() && history == [] && nudges == 0 && this.threshold == threshold
    {
      this.threshold := threshold;
      errorRuns, lastSuccessSig, repeatCount, repeatInjected := map[], "", 0, false;
      history, nudges := [], 0;
    }

    /** A recoverable error of a tool; `length` is its run of equal errors, this one included. */
    method ObserveError(call: ToolCall) returns (verdict: Verdict, ghost length: nat)
      requires Valid()
      modifies this
      ensures history == old(history) + [Dispatch(call, true)]
      ensures nudges == old(nudges) + if verdict == Nudge then 1 else 0
      ensures LongestErrors(OfTool(history, call.name), length)
      ensures verdict.StopErrors? <==> threshold > 0 && length == HaltLength(threshold)
      ensures verdict == Nudge <==> threshold > 0 && length == threshold < HaltLength(threshold)
      ensures verdict.StopErrors? ==> verdict.count == length
      ensures !verdict.StopRepeats?
      ensures !verdict.StopErrors? ==> Valid()
    {
      ghost var d, h, runs := Dispatch(call, true), history, errorRuns;
      assert RunMatches(threshold, OfTool(h, call.name), Lookup(errorRuns, call.name));
      OthersUnchanged(h, d);
      history := history + [d];
      verdict, length := CountError(call, OfTool(h, call.name));
      nudges := nudges + if verdict == Nudge then 1 else 0;
      if !verdict.StopErrors? {
        RunsAfter(threshold, h, runs, d, errorRuns);
      }
    }

    /** Extends or restarts the run of the tool. */
    method CountError(call: ToolCall, ghost t: seq<Dispatch>) returns (verdict: Verdict, ghost length: nat)
      requires RunMatches(threshold, t, Lookup(errorRuns, call.name))
      modifies this`errorRuns
      ensures LongestErrors(t + [Dispatch(call, true)], length)
      ensures verdict.StopErrors? <==> threshold > 0 && length == HaltLength(threshold)
      ensures verdict == Nudge <==> threshold > 0 && length == threshold < HaltLength(threshold)
      ensures verdict.StopErrors? ==> verdict.count == length
      ensures !verdict.StopRepeats?
      ensures forall tool :: tool != call.name ==> Lookup(errorRuns, tool) == Lookup(old(errorRuns), tool)
      ensures !verdict.StopErrors? ==>
                RunMatches(threshold, t + [Dispatch(call, true)], Lookup(errorRuns, call.name))
    {
      ghost var before := Lookup(errorRuns, call.name);
      ghost var k: nat := 0;
      if before.Some? {
        k :| LongestErrors(t, k) && Describes(threshold, before.value, t, k);
      }
      length := NextRunCounts(threshold, before, t, k, Dispatch(call, true));
      var run := NextRun(Lookup(errorRuns, call.name), call.input);
      if threshold > 0 {
        StopTest(threshold, length, run.count);
      }
      if threshold > 0 && run.count >= WrappingMul(threshold, 2) {
        errorRuns := errorRuns[call.name := run];
        return StopErrors(run.count), length;
      }
      verdict := Proceed;
      if threshold > 0 && run.count >= threshold && !run.injected {
        run := run.(injected := true);
        verdict := Nudge;
      }
      errorRuns := errorRuns[call.name := run];
      assert Describes(threshold, run, t + [Dispatch(call, true)], length);
    }

    /** A success of a tool ends its error run and counts towards the repeat breaker. */
    method ObserveSuccess(call: ToolCall) returns (verdict: Verdict, ghost length: nat)
      requires Valid()
      modifies this
      ensures history == old(history) + [Dispatch(call, false)]
      ensures nudges == old(nudges) + if verdict == Nudge then 1 else 0
      ensures LongestErrors(OfTool(history, call.name), 0)
      ensures threshold == 0 || call.name == SEND_MESSAGE ==> verdict == Proceed
      ensures threshold > 0 && call.name != SEND_MESSAGE ==>
                && LongestRepeats(Productive(history), length)
                && (verdict.StopRepeats? <==> length == HaltLength(threshold))
                && (verdict == Nudge <==> length == threshold < HaltLength(threshold))
      ensures verdict.StopRepeats? ==> verdict.repeats == length
      ensures !verdict.StopErrors?
      ensures !verdict.StopRepeats? ==> Valid()
    {
      ghost var p := Productive(history);
      ClearRun(call);
      verdict, length := Proceed, 0;
      if threshold > 0 && call.name != SEND_MESSAGE {
        verdict, length := CountRepeat(call, p);
        nudges := nudges + if verdict == Nudge then 1 else 0;
      }
    }

    /** Any success of a tool ends its error run. */
    method ClearRun(call: ToolCall)
      requires RunsMatch(threshold, history, errorRuns)
      modifies this`errorRuns, this`history
      ensures RunsMatch(threshold, history, errorRuns)
      ensures history == old(history) + [Dispatch(call, false)]
      ensures LongestErrors(OfTool(history, call.name), 0)
      ensures Productive(history)
              == if call.name != SEND_MESSAGE then old(Productive(history)) + [Dispatch(call, false)]
                                     else old(Productive(history))
    {
      ghost var d, h, runs := Dispatch(call, false), history, errorRuns;
      ClearErrors(OfTool(h, call.name), d);
      OthersUnchanged(h, d);
      errorRuns := errorRuns - {call.name};
      RunsAfter(threshold, h, runs, d, errorRuns);
      history := history + [d];
    }

    /** Extends or restarts the run of equal signatures. */
    method CountRepeat(call: ToolCall, ghost t: seq<Dispatch>) returns (verdict: Verdict, ghost length: nat)
      requires threshold > 0 && RepeatsMatch(threshold, t, lastSuccessSig, repeatCount, repeatInjected)
      modifies this`lastSuccessSig, this`repeatCount, this`repeatInjected
      ensures LongestRepeats(t + [Dispatch(call, false)], length)
      ensures verdict.StopRepeats? <==> length == HaltLength(threshold)
      ensures verdict == Nudge <==> length == threshold < HaltLength(threshold)
      ensures verdict.StopRepeats? ==> verdict.repeats == length
      ensures !verdict.StopErrors?
      ensures !verdict.StopRepeats? ==>
                RepeatsMatch(threshold, t + [Dispatch(call, false)], lastSuccessSig, repeatCount, repeatInjected)
    {
      var sig := Signature(call);
      assert sig[|call.name|] == '\0';
      length := NextRepeats(t, repeatCount, Dispatch(call, false));
      if lastSuccessSig == sig {
        repeatCount := WrappingAdd(repeatCount, 1);
      } else {
        lastSuccessSig, repeatCount, repeatInjected := sig, 1, false;
      }
      StopTest(threshold, length, repeatCount);
      if repeatCount >= WrappingMul(threshold, 2) {
        return StopRepeats(repeatCount), length;
      }
      verdict := Proceed;
      if repeatCount >= threshold && !repeatInjected {
        repeatInjected := true;
        verdict := Nudge;
      }
    }
  }
}
