/**
 Streamed model responses: what a stream of fragments amounts to, the two
 accumulators that rebuild a response from it, and the emitter that undoes them.
 */
module Streams {
  import opened Words

  datatype BlockKind = Text | Thinking | ToolUse

  datatype StreamEvent =
    | MessageStart
    | TextDelta(index: U32, delta: string)
    | ThinkingDelta(index: U32, delta: string)
    | ToolStart(index: U32, id: string, name: string)
    | ToolDelta(index: U32, fragment: string)
    | BlockStop(index: U32)
    | MessageStop(usage: Option<nat>, stop: string)

  datatype ContentBlock =
    | TextBlock(text: string)
    | ThinkingBlock(text: string)
    | ToolBlock(id: string, name: string, input: string)

  datatype Response = Response(content: seq<ContentBlock>, usage: nat, stop: string)

  const END_TURN := "end_turn"

  /** The id synthesized for a call that never got one. */
  function CallId(index: U32): (id: string)
    ensures id != ""
  {
    "call_" + Decimal(index)
  }

  // ---------------------------------------------------------------------------
  // What a stream amounts to
  // ---------------------------------------------------------------------------

  /** The index an event contributes content to. */
  function Touches(e: StreamEvent): Option<U32> {
    match e
    case TextDelta(i, _) => Some(i)
    case ThinkingDelta(i, _) => Some(i)
    case ToolStart(i, _, _) => Some(i)
    case ToolDelta(i, _) => Some(i)
    case _ => None
  }

  function KindOf(e: StreamEvent): BlockKind {
    match e
    case ThinkingDelta(_, _) => Thinking
    case ToolStart(_, _, _) => ToolUse
    case ToolDelta(_, _) => ToolUse
    case _ => Text
  }

  function FragmentOf(e: StreamEvent): string {
    match e
    case TextDelta(_, d) => d
    case ThinkingDelta(_, d) => d
    case ToolDelta(_, d) => d
    case _ => ""
  }

  /** The indices in the order they were first seen. */
  ghost function Order(es: seq<StreamEvent>): seq<U32> {
    if es == [] then []
    else
      var before, i := Order(es[..|es| - 1]), Touches(es[|es| - 1]);
      if i.None? || i.value in before then before else before + [i.value]
  }

  /** The kind of the first event of an index. */
  ghost function Kind(es: seq<StreamEvent>, i: U32): Option<BlockKind> {
    if es == [] then None
    else
      var before, e := Kind(es[..|es| - 1], i), es[|es| - 1];
      if before.Some? then before else if Touches(e) == Some(i) then Some(KindOf(e)) else None
  }

  /** The fragments of one kind at one index, concatenated. */
  ghost function Fragments(es: seq<StreamEvent>, i: U32, k: BlockKind): string {
    if es == [] then ""
    else
      var e := es[|es| - 1];
      Fragments(es[..|es| - 1], i, k) + if Touches(e) == Some(i) && KindOf(e) == k then FragmentOf(e) else ""
  }

  /** The id and name of the last start frame at an index. */
  ghost function Started(es: seq<StreamEvent>, i: U32): (string, string) {
    if es == [] then ("", "")
    else
      match es[|es| - 1]
      case ToolStart(j, id, name) => if j == i then (id, name) else Started(es[..|es| - 1], i)
      case _ => Started(es[..|es| - 1], i)
  }

  /** Usage and stop reason as the last message_stop left them. */
  ghost function Closing(es: seq<StreamEvent>): (nat, string) {
    if es == [] then (0, END_TURN)
    else
      var before := Closing(es[..|es| - 1]);
      match es[|es| - 1]
      case MessageStop(usage, stop) => (if usage.Some? then usage.value else before.0, stop)
      case _ => before
  }

  lemma Snoc(es: seq<StreamEvent>, e: StreamEvent)
    ensures (es + [e])[..|es + [e]| - 1] == es && (es + [e])[|es + [e]| - 1] == e
  {
  }

  lemma {:induction false} OrderIsKinds(es: seq<StreamEvent>, i: U32)
    ensures i in Order(es) <==> Kind(es, i).Some?
  {
    if es != [] {
      OrderIsKinds(es[..|es| - 1], i);
    }
  }

  lemma {:induction false} OrderDistinct(es: seq<StreamEvent>)
    ensures forall a, b :: 0 <= a < b < |Order(es)| ==> Order(es)[a] != Order(es)[b]
  {
    if es != [] {
      OrderDistinct(es[..|es| - 1]);
    }
  }

  /** Every event of an index has the kind of its first one. */
  ghost predicate KindConsistent(es: seq<StreamEvent>) {
    if es == [] then true
    else
      var before, e := es[..|es| - 1], es[|es| - 1];
      KindConsistent(before)
      && (Touches(e).Some? && Kind(before, Touches(e).value).Some? ==>
            Kind(before, Touches(e).value).value == KindOf(e))
  }

  /** The content block of one index. An input that is no JSON text becomes null. */
  ghost function BlockAt(es: seq<StreamEvent>, i: U32, valid: string -> bool): ContentBlock
    requires Kind(es, i).Some?
  {
    var k := Kind(es, i).value;
    var text := Fragments(es, i, k);
    match k
    case Text => TextBlock(text)
    case Thinking => ThinkingBlock(text)
    case ToolUse => MakeCall(Started(es, i).0, Started(es, i).1, if valid(text) then text else "null", i)
  }

  function MakeCall(id: string, name: string, input: string, i: U32): ContentBlock {
    ToolBlock(if id == "" then CallId(i) else id, name, input)
  }

  /** One block per index in first-seen order, each holding the fragments of its index. */
  ghost predicate Rebuilds(es: seq<StreamEvent>, valid: string -> bool, r: Response) {
    var order := Order(es);
    && |r.content| == |order|
    && (forall j :: 0 <= j < |order| ==> Kind(es, order[j]).Some? && r.content[j] == BlockAt(es, order[j], valid))
    && (r.usage, r.stop) == Closing(es)
  }

  // ---------------------------------------------------------------------------
  // The accumulator of the agent
  // ---------------------------------------------------------------------------

  datatype Partial = Partial(index: U32, kind: BlockKind, text: string, id: string, name: string)

  /** The partial block of one index: fragments of another kind were dropped. */
  ghost function PartialAt(es: seq<StreamEvent>, i: U32): Partial
    requires Kind(es, i).Some?
  {
    var k := Kind(es, i).value;
    var start := if k == ToolUse then Started(es, i) else ("", "");
    Partial(i, k, Fragments(es, i, k), start.0, start.1)
  }

  /** The blocks an accumulator holds after some events. */
  ghost predicate Holds(es: seq<StreamEvent>, blocks: seq<Partial>, byIndex: map<U32, nat>) {
    var order := Order(es);
    && |blocks| == |order|
    && (forall j :: 0 <= j < |order| ==> Kind(es, order[j]).Some? && blocks[j] == PartialAt(es, order[j]))
    && (forall i :: i in byIndex <==> i in order)
    && (forall i :: i in byIndex ==> byIndex[i] < |blocks| && order[byIndex[i]] == i)
  }

  /** What folding one event does to a partial block. */
  function Folded(b: Partial, e: StreamEvent): Partial {
    if b.kind != KindOf(e) then b
    else if e.ToolStart? then b.(id := e.id, name := e.name)
    else b.(text := b.text + FragmentOf(e))
  }

  /** The same, by the type of the event. */
  method FoldIntoBlock(b0: Partial, e: StreamEvent) returns (b: Partial)
    requires Touches(e).Some?
    ensures b == Folded(b0, e)
  {
    b := b0;
    match e
    case TextDelta(_, delta) =>
      if b.kind == Text { b := b.(text := b.text + delta); }
    case ThinkingDelta(_, delta) =>
      if b.kind == Thinking { b := b.(text := b.text + delta); }
    case ToolStart(_, id, name) =>
      if b.kind == ToolUse { b := b.(id := id, name := name); }
    case ToolDelta(_, fragment) =>
      if b.kind == ToolUse { b := b.(text := b.text + fragment); }
    case _ =>
  }

  lemma PartialStays(es: seq<StreamEvent>, e: StreamEvent, i: U32)
    requires Kind(es, i).Some?
    ensures Kind(es + [e], i) == Kind(es, i)
    ensures PartialAt(es + [e], i) == if Touches(e) == Some(i) then Folded(PartialAt(es, i), e) else PartialAt(es, i)
  {
    Snoc(es, e);
    var b := PartialAt(es, i);
    assert b.text + "" == b.text;
  }

  lemma {:induction false} NothingBefore(es: seq<StreamEvent>, i: U32)
    requires Kind(es, i).None?
    ensures Started(es, i) == ("", "") && forall k :: Fragments(es, i, k) == ""
  {
    if es != [] {
      NothingBefore(es[..|es| - 1], i);
    }
  }

  lemma PartialOpens(es: seq<StreamEvent>, e: StreamEvent)
    requires Touches(e).Some? && Kind(es, Touches(e).value).None?
    ensures var i := Touches(e).value;
      && Kind(es + [e], i) == Some(KindOf(e))
      && PartialAt(es + [e], i) == Folded(Partial(i, KindOf(e), "", "", ""), e)
  {
    Snoc(es, e);
    var i, k := Touches(e).value, KindOf(e);
    NothingBefore(es, i);
    OpeningText(es, e, i, k);
    assert Started(es + [e], i) == if e.ToolStart? then (e.id, e.name) else ("", "");
  }

  lemma OpeningText(es: seq<StreamEvent>, e: StreamEvent, i: U32, k: BlockKind)
    requires Fragments(es, i, k) == "" && Touches(e) == Some(i) && KindOf(e) == k
    ensures Fragments(es + [e], i, k) == FragmentOf(e)
  {
    Snoc(es, e);
    assert "" + FragmentOf(e) == FragmentOf(e);
  }

  /** An event that opens a new index. */
  lemma HoldsOpened(es: seq<StreamEvent>, blocks: seq<Partial>, byIndex: map<U32, nat>, e: StreamEvent)
    requires Holds(es, blocks, byIndex) && Touches(e).Some? && Touches(e).value !in byIndex
    ensures var i := Touches(e).value;
      Holds(es + [e], blocks + [Folded(Partial(i, KindOf(e), "", "", ""), e)], byIndex[i := |blocks|])
  {
    var i := Touches(e).value;
    Snoc(es, e);
    OrderIsKinds(es, i);
    PartialOpens(es, e);
    var order := Order(es + [e]);
    assert order == Order(es) + [i];
    forall j | 0 <= j < |blocks|
      ensures Kind(es + [e], order[j]).Some? && blocks[j] == PartialAt(es + [e], order[j])
    {
      PartialStays(es, e, order[j]);
    }
  }

  /** An event for an index already open. */
  lemma HoldsExtended(es: seq<StreamEvent>, blocks: seq<Partial>, byIndex: map<U32, nat>, e: StreamEvent)
    requires Holds(es, blocks, byIndex) && Touches(e).Some? && Touches(e).value in byIndex
    ensures var k := byIndex[Touches(e).value];
      Holds(es + [e], blocks[k := Folded(blocks[k], e)], byIndex)
  {
    var i := Touches(e).value;
    var order := Order(es);
    Snoc(es, e);
    OrderDistinct(es);
    forall j | 0 <= j < |order|
      ensures Kind(es + [e], order[j]).Some?
      ensures PartialAt(es + [e], order[j]) == if j == byIndex[i] then Folded(blocks[j], e) else blocks[j]
    {
      PartialStays(es, e, order[j]);
    }
  }

  lemma HoldsUntouched(es: seq<StreamEvent>, blocks: seq<Partial>, byIndex: map<U32, nat>, e: StreamEvent)
    requires Holds(es, blocks, byIndex) && Touches(e).None?
    ensures Holds(es + [e], blocks, byIndex)
  {
    Snoc(es, e);
    forall j | 0 <= j < |Order(es)|
      ensures Kind(es + [e], Order(es)[j]).Some? && blocks[j] == PartialAt(es + [e], Order(es)[j])
    {
      PartialStays(es, e, Order(es)[j]);
    }
  }

  class StreamAccumulator {
    var blocks: seq<Partial>
    var byIndex: map<U32, nat>
    var usage: nat
    var stop: Option<string>
    ghost var seen: seq<StreamEvent>

    ghost predicate Valid()
      reads this
    {
      && Holds(seen, blocks, byIndex)
      && (usage, if stop.Some? then stop.value else END_TURN) == Closing(seen)
    }

    constructor ()
      ensures Valid() && seen == []
    {
      blocks, byIndex, usage, stop, seen := [], map[], 0, None, [];
    }

    /** The position of the block of an index, opening it with this kind when there is none. */
    method Entry(index: U32, kind: BlockKind) returns (at: nat)
      requires forall i :: i in byIndex ==> byIndex[i] < |blocks|
      modifies this`blocks, this`byIndex
      ensures at < |blocks|
      ensures index in old(byIndex) ==> at == old(byIndex)[index] && blocks == old(blocks) && byIndex == old(byIndex)
      ensures index !in old(byIndex) ==>
                at == |old(blocks)| && blocks == old(blocks) + [Partial(index, kind, "", "", "")]
                && byIndex == old(byIndex)[index := at]
    {
      if index in byIndex {
        return byIndex[index];
      }
      at := |blocks|;
      blocks := blocks + [Partial(index, kind, "", "", "")];
      byIndex := byIndex[index := at];
    }

    /** Folds one event; a fragment whose kind is not its block's is dropped. */
    method Fold(e: StreamEvent)
      requires Valid()
      modifies this
      ensures Valid() && seen == old(seen) + [e]
    {
      hide Holds;
      Snoc(seen, e);
      if Touches(e).Some? {
        FoldContent(e);
      } else {
        HoldsUntouched(seen, blocks, byIndex, e);
        if e.MessageStop? {
          usage := if e.usage.Some? then e.usage.value else usage;
          stop := Some(e.stop);
        }
      }
      seen := seen + [e];
    }

    method FoldContent(e: StreamEvent)
      requires Holds(seen, blocks, byIndex) && Touches(e).Some?
      modifies this`blocks, this`byIndex
      ensures Holds(seen + [e], blocks, byIndex)
    {
      hide Order, Kind, Fragments, Started;
      var index := Touches(e).value;
      if index in byIndex {
        HoldsExtended(seen, blocks, byIndex, e);
      } else {
        HoldsOpened(seen, blocks, byIndex, e);
      }
      hide Holds, Folded;
      var at := Entry(index, KindOf(e));
      var b := FoldIntoBlock(blocks[at], e);
      blocks := blocks[at := b];
    }

    method IntoResponse(valid: string -> bool) returns (r: Response)
      requires Valid()
      ensures Rebuilds(seen, valid, r)
    {
      var content := [];
      for j := 0 to |blocks|
        invariant |content| == j
        invariant forall k :: 0 <= k < j ==> content[k] == BlockAt(seen, Order(seen)[k], valid)
      {
        var b := blocks[j];
        var block := match b.kind
          case Text => TextBlock(b.text)
          case Thinking => ThinkingBlock(b.text)
          case ToolUse => MakeCall(b.id, b.name, if valid(b.text) then b.text else "null", b.index);
        content := content + [block];
      }
      r := Response(content, usage, if stop.Some? then stop.value else END_TURN);
    }
  }

  // ---------------------------------------------------------------------------
  // The buffer of the prompt-tool adapter
  // ---------------------------------------------------------------------------

  /** The kind a buffered block ends with: a tool event turns any block into a tool call. */
  ghost function BufferedKind(es: seq<StreamEvent>, i: U32): Option<BlockKind> {
    if es == [] then None
    else
      var before, e := BufferedKind(es[..|es| - 1], i), es[|es| - 1];
      if Touches(e) != Some(i) then before
      else if before.None? || KindOf(e) == ToolUse then Some(KindOf(e)) else before
  }

  /** Text and thinking fragments of one index, appended whatever the kind of the block. */
  ghost function BufferedText(es: seq<StreamEvent>, i: U32): string {
    if es == [] then ""
    else
      var e := es[|es| - 1];
      BufferedText(es[..|es| - 1], i) + if Touches(e) == Some(i) && KindOf(e) != ToolUse then FragmentOf(e) else ""
  }

  datatype Buffered = Buffered(kind: BlockKind, text: string, json: string, id: string, name: string)

  ghost function BufferedAt(es: seq<StreamEvent>, i: U32): Buffered
    requires BufferedKind(es, i).Some?
  {
    var (id, name) := Started(es, i);
    Buffered(BufferedKind(es, i).value, BufferedText(es, i), Fragments(es, i, ToolUse), id, name)
  }

  function BufferBlock(b: Buffered, i: U32): ContentBlock {
    match b.kind
    case Text => TextBlock(b.text)
    case Thinking => ThinkingBlock(b.text)
    case ToolUse => MakeCall(b.id, b.name, if b.json == "" then "null" else b.json, i)
  }

  ghost predicate BufferRebuilds(es: seq<StreamEvent>, r: Response) {
    var order := Order(es);
    && |r.content| == |order|
    && (forall j :: 0 <= j < |order| ==>
          BufferedKind(es, order[j]).Some? && r.content[j] == BufferBlock(BufferedAt(es, order[j]), order[j]))
    && (r.usage, r.stop) == Closing(es)
  }

  lemma {:induction false} BufferedKinds(es: seq<StreamEvent>, i: U32)
    ensures BufferedKind(es, i).Some? <==> i in Order(es)
  {
    if es != [] {
      BufferedKinds(es[..|es| - 1], i);
    }
  }

  ghost predicate BufferHolds(es: seq<StreamEvent>, order: seq<U32>, blocks: map<U32, Buffered>) {
    && order == Order(es)
    && (forall i :: i in blocks <==> i in order)
    && (forall i :: i in blocks ==> BufferedKind(es, i).Some? && blocks[i] == BufferedAt(es, i))
  }

  /** What folding one event does to a buffered block. */
  function FoldedInBuffer(b: Buffered, e: StreamEvent): Buffered {
    match e
    case TextDelta(_, d) => b.(text := b.text + d)
    case ThinkingDelta(_, d) => b.(text := b.text + d)
    case ToolStart(_, id, name) => b.(kind := ToolUse, id := id, name := name)
    case ToolDelta(_, d) => b.(kind := ToolUse, json := b.json + d)
    case _ => b
  }

  lemma BufferedStays(es: seq<StreamEvent>, e: StreamEvent, i: U32)
    requires BufferedKind(es, i).Some?
    ensures BufferedKind(es + [e], i).Some?
    ensures BufferedAt(es + [e], i)
            == if Touches(e) == Some(i) then FoldedInBuffer(BufferedAt(es, i), e) else BufferedAt(es, i)
  {
    Snoc(es, e);
    var b := BufferedAt(es, i);
    assert b.text + "" == b.text && b.json + "" == b.json;
  }

  lemma {:induction false} NothingBuffered(es: seq<StreamEvent>, i: U32)
    requires BufferedKind(es, i).None?
    ensures Started(es, i) == ("", "") && BufferedText(es, i) == "" && Fragments(es, i, ToolUse) == ""
  {
    if es != [] {
      NothingBuffered(es[..|es| - 1], i);
    }
  }

  lemma BufferedOpens(es: seq<StreamEvent>, e: StreamEvent)
    requires Touches(e).Some? && BufferedKind(es, Touches(e).value).None?
    ensures var i := Touches(e).value;
      && BufferedKind(es + [e], i).Some?
      && BufferedAt(es + [e], i) == FoldedInBuffer(Buffered(KindOf(e), "", "", "", ""), e)
  {
    Snoc(es, e);
    var i := Touches(e).value;
    NothingBuffered(es, i);
    assert BufferedText(es + [e], i) == if KindOf(e) == ToolUse then "" else FragmentOf(e);
    assert Fragments(es + [e], i, ToolUse) == if KindOf(e) == ToolUse then FragmentOf(e) else "";
  }

  /** Folding an event keeps the buffer in step with what was seen. */
  lemma BufferStep(es: seq<StreamEvent>, order: seq<U32>, blocks: map<U32, Buffered>, e: StreamEvent)
    requires BufferHolds(es, order, blocks)
    ensures Touches(e).None? ==> BufferHolds(es + [e], order, blocks)
    ensures Touches(e).Some? && Touches(e).value in blocks ==>
              BufferHolds(es + [e], order, blocks[Touches(e).value := FoldedInBuffer(blocks[Touches(e).value], e)])
    ensures Touches(e).Some? && Touches(e).value !in blocks ==>
              BufferHolds(es + [e], order + [Touches(e).value],
                          blocks[Touches(e).value := FoldedInBuffer(Buffered(KindOf(e), "", "", "", ""), e)])
  {
    Snoc(es, e);
    forall i | i in blocks
      ensures BufferedKind(es + [e], i).Some?
      ensures BufferedAt(es + [e], i) == if Touches(e) == Some(i) then FoldedInBuffer(blocks[i], e) else blocks[i]
    {
      BufferedStays(es, e, i);
    }
    if Touches(e).Some? && Touches(e).value !in blocks {
      BufferedKinds(es, Touches(e).value);
      BufferedOpens(es, e);
    }
  }

  class ResponseBuffer {
    var order: seq<U32>
    var blocks: map<U32, Buffered>
    var usage: nat
    var stop: Option<string>
    ghost var seen: seq<StreamEvent>

    ghost predicate Valid()
      reads this
    {
      && BufferHolds(seen, order, blocks)
      && (usage, if stop.Some? then stop.value else END_TURN) == Closing(seen)
    }

    constructor ()
      ensures Valid() && seen == []
    {
      order, blocks, usage, stop, seen := [], map[], 0, None, [];
    }

    method Fold(e: StreamEvent)
      requires Valid()
      modifies this
      ensures Valid() && seen == old(seen) + [e]
    {
      Snoc(seen, e);
      BufferStep(seen, order, blocks, e);
      hide BufferHolds;
      var i := Touches(e);
      if i.Some? {
        var b := if i.value in blocks then blocks[i.value] else Buffered(KindOf(e), "", "", "", "");
        order := if i.value in blocks then order else order + [i.value];
        blocks := blocks[i.value := FoldedInBuffer(b, e)];
      } else if e.MessageStop? {
        usage := if e.usage.Some? then e.usage.value else usage;
        stop := Some(e.stop);
      }
      seen := seen + [e];
    }

    method IntoResponse() returns (r: Response)
      requires Valid()
      ensures BufferRebuilds(seen, r)
    {
      var content := [];
      for j := 0 to |order|
        invariant |content| == j
        invariant forall k :: 0 <= k < j ==> order[k] in blocks && content[k] == BufferBlock(blocks[order[k]], order[k])
      {
        assert order[j] in order;
        content := content + [BufferBlock(blocks[order[j]], order[j])];
      }
      r := Response(content, usage, if stop.Some? then stop.value else END_TURN);
    }
  }

  // ---------------------------------------------------------------------------
  // The two agree
  // ---------------------------------------------------------------------------

  lemma {:induction false} ConsistentBuffers(es: seq<StreamEvent>, i: U32)
    requires KindConsistent(es) && Kind(es, i).Some?
    ensures var k := Kind(es, i).value;
      && BufferedKind(es, i) == Some(k)
      && (k != ToolUse ==> BufferedText(es, i) == Fragments(es, i, k))
  {
    var before := es[..|es| - 1];
    if Kind(before, i).Some? {
      ConsistentBuffers(before, i);
    } else {
      OrderIsKinds(before, i);
      BufferedKinds(before, i);
      NothingBuffered(before, i);
      NothingBefore(before, i);
    }
  }

  ghost predicate InputParses(es: seq<StreamEvent>, i: U32, valid: string -> bool) {
    Kind(es, i) == Some(ToolUse) ==> Fragments(es, i, ToolUse) == "" || valid(Fragments(es, i, ToolUse))
  }

  /** Every tool input is empty or a JSON text. */
  ghost predicate InputsParse(es: seq<StreamEvent>, valid: string -> bool) {
    forall i :: InputParses(es, i, valid)
  }

  /**
   On a kind-consistent stream the two rebuild the same response exactly when
   every tool input is empty or a JSON text.
   */
  lemma AccumulatorsAgree(es: seq<StreamEvent>, valid: string -> bool, r: Response, q: Response)
    requires KindConsistent(es) && valid("null") && !valid("")
    requires Rebuilds(es, valid, r) && BufferRebuilds(es, q)
    ensures r == q <==> InputsParse(es, valid)
  {
    var order := Order(es);
    forall j | 0 <= j < |order|
      ensures r.content[j] == q.content[j] <==> InputParses(es, order[j], valid)
    {
      ConsistentBuffers(es, order[j]);
    }
    if r == q {
      forall i | Kind(es, i) == Some(ToolUse)
        ensures InputParses(es, i, valid)
      {
        OrderIsKinds(es, i);
        var j :| 0 <= j < |order| && order[j] == i;
        assert r.content[j] == q.content[j];
      }
    }
    if InputsParse(es, valid) {
      assert r.content == q.content;
    }
  }

  // ---------------------------------------------------------------------------
  // Splitting a fragment
  // ---------------------------------------------------------------------------

  /** Two streams no accumulator can tell apart. */
  ghost predicate SameStream(xs: seq<StreamEvent>, ys: seq<StreamEvent>) {
    && Order(xs) == Order(ys) && Closing(xs) == Closing(ys)
    && (forall i :: Kind(xs, i) == Kind(ys, i) && Started(xs, i) == Started(ys, i))
    && (forall i :: BufferedKind(xs, i) == BufferedKind(ys, i) && BufferedText(xs, i) == BufferedText(ys, i))
    && (forall i, k :: Fragments(xs, i, k) == Fragments(ys, i, k))
  }

  lemma SameSnoc(xs: seq<StreamEvent>, ys: seq<StreamEvent>, e: StreamEvent)
    requires SameStream(xs, ys)
    ensures SameStream(xs + [e], ys + [e])
  {
    Snoc(xs, e);
    Snoc(ys, e);
    forall i
      ensures Kind(xs + [e], i) == Kind(ys + [e], i) && Started(xs + [e], i) == Started(ys + [e], i)
    {
    }
    forall i
      ensures BufferedKind(xs + [e], i) == BufferedKind(ys + [e], i)
      ensures BufferedText(xs + [e], i) == BufferedText(ys + [e], i)
    {
    }
    forall i, k
      ensures Fragments(xs + [e], i, k) == Fragments(ys + [e], i, k)
    {
    }
  }

  /** `whole` carries the fragments of `first` and `second` together. */
  predicate Splits(whole: StreamEvent, first: StreamEvent, second: StreamEvent) {
    && (whole.TextDelta? || whole.ThinkingDelta? || whole.ToolDelta?)
    && Touches(first) == Touches(second) == Touches(whole)
    && KindOf(first) == KindOf(second) == KindOf(whole)
    && !first.ToolStart? && !second.ToolStart?
    && FragmentOf(whole) == FragmentOf(first) + FragmentOf(second)
  }

  lemma SplitLast(es: seq<StreamEvent>, whole: StreamEvent, first: StreamEvent, second: StreamEvent)
    requires Splits(whole, first, second)
    ensures SameStream(es + [whole], es + [first] + [second])
  {
    Snoc(es, whole);
    Snoc(es, first);
    Snoc(es + [first], second);
    forall i
      ensures Kind(es + [whole], i) == Kind(es + [first] + [second], i)
      ensures Started(es + [whole], i) == Started(es + [first] + [second], i)
      ensures BufferedKind(es + [whole], i) == BufferedKind(es + [first] + [second], i)
    {
    }
    forall i, k
      ensures Fragments(es + [whole], i, k) == Fragments(es + [first] + [second], i, k)
    {
      var f := Fragments(es, i, k);
      assert f + (FragmentOf(first) + FragmentOf(second)) == f + FragmentOf(first) + FragmentOf(second);
      assert f + "" + "" == f + "";
    }
    forall i
      ensures BufferedText(es + [whole], i) == BufferedText(es + [first] + [second], i)
    {
      var f := BufferedText(es, i);
      assert f + (FragmentOf(first) + FragmentOf(second)) == f + FragmentOf(first) + FragmentOf(second);
      assert f + "" + "" == f + "";
    }
  }

  /** Splitting a fragment anywhere in a stream changes neither rebuilt response. */
  lemma {:induction false} SplittingChangesNothing(before: seq<StreamEvent>, after: seq<StreamEvent>,
                                                   whole: StreamEvent,
                                                   first: StreamEvent, second: StreamEvent)
    requires Splits(whole, first, second)
    ensures SameStream(before + [whole] + after, before + [first] + [second] + after)
    decreases |after|
  {
    hide SameStream, Splits;
    var xs, ys := before + [whole], before + [first] + [second];
    if after == [] {
      SplitLast(before, whole, first, second);
      assert xs + [] == xs && ys + [] == ys;
    } else {
      var init, e := after[..|after| - 1], after[|after| - 1];
      SplittingChangesNothing(before, init, whole, first, second);
      SameSnoc(xs + init, ys + init, e);
      assert after == init + [e];
      assert xs + after == xs + init + [e] && ys + after == ys + init + [e];
    }
  }

  lemma SameStreamSameResponse(xs: seq<StreamEvent>, ys: seq<StreamEvent>, valid: string -> bool, r: Response)
    requires SameStream(xs, ys)
    ensures Rebuilds(xs, valid, r) <==> Rebuilds(ys, valid, r)
    ensures BufferRebuilds(xs, r) <==> BufferRebuilds(ys, r)
  {
  }

  // ---------------------------------------------------------------------------
  // The emitter
  // ---------------------------------------------------------------------------

  function EmittedInput(input: string): string {
    if input == "" then "{}" else input
  }

  /** The events of one block of a response. */
  function BlockEvents(i: U32, b: ContentBlock): seq<StreamEvent> {
    match b
    case TextBlock(text) => [TextDelta(i, text), BlockStop(i)]
    case ThinkingBlock(text) => [ThinkingDelta(i, text), BlockStop(i)]
    case ToolBlock(id, name, input) => [ToolStart(i, id, name), ToolDelta(i, EmittedInput(input)), BlockStop(i)]
  }

  ghost function Emitted(content: seq<ContentBlock>): seq<StreamEvent>
    requires |content| <= U32_SPAN
  {
    if content == [] then [MessageStart]
    else Emitted(content[..|content| - 1]) + BlockEvents(|content| - 1, content[|content| - 1])
  }

  ghost function Stream(r: Response): seq<StreamEvent>
    requires |r.content| <= U32_SPAN
  {
    Emitted(r.content) + [MessageStop(Some(r.usage), r.stop)]
  }

  /** Re-emits a response as a stream. */
  method ResponseToStream(r: Response) returns (es: seq<StreamEvent>)
    requires |r.content| <= U32_SPAN
    ensures es == Stream(r)
  {
    es := [MessageStart];
    for i := 0 to |r.content|
      invariant es == Emitted(r.content[..i])
    {
      assert r.content[..i + 1][..i] == r.content[..i];
      es := es + BlockEvents(i, r.content[i]);
    }
    assert r.content[..|r.content|] == r.content;
    es := es + [MessageStop(Some(r.usage), r.stop)];
  }

  /** What comes back: an empty id becomes the call's position, an empty input an empty object. */
  function Normal(i: U32, b: ContentBlock): ContentBlock {
    match b
    case ToolBlock(id, name, input) => MakeCall(id, name, EmittedInput(input), i)
    case _ => b
  }

  ghost predicate NormalOf(r: Response, q: Response)
    requires |r.content| <= U32_SPAN
  {
    && q.usage == r.usage && q.stop == r.stop && |q.content| == |r.content|
    && forall i :: 0 <= i < |r.content| ==> q.content[i] == Normal(i, r.content[i])
  }

  function Stored(b: ContentBlock): Buffered {
    match b
    case TextBlock(text) => Buffered(Text, text, "", "", "")
    case ThinkingBlock(text) => Buffered(Thinking, text, "", "", "")
    case ToolBlock(id, name, input) => Buffered(ToolUse, "", EmittedInput(input), id, name)
  }

  ghost function Upto(n: nat): (order: seq<U32>)
    requires n <= U32_SPAN
    ensures |order| == n && forall j :: 0 <= j < n ==> order[j] == j
  {
    if n == 0 then [] else Upto(n - 1) + [n - 1]
  }

  ghost function StoredAll(content: seq<ContentBlock>): (m: map<U32, Buffered>)
    requires |content| <= U32_SPAN
    ensures forall i: U32 :: i in m <==> i < |content|
    ensures forall i: U32 :: i < |content| ==> m[i] == Stored(content[i])
  {
    if content == [] then map[]
    else
      var init := content[..|content| - 1];
      assert forall i :: 0 <= i < |init| ==> init[i] == content[i];
      StoredAll(init)[|init| := Stored(content[|content| - 1])]
  }

  /** A block of text is one more entry. */
  lemma TextHolds(es: seq<StreamEvent>, n: U32, m: map<U32, Buffered>, e: StreamEvent)
    requires BufferHolds(es, Upto(n), m) && n !in m && (e.TextDelta? || e.ThinkingDelta?) && e.index == n
    ensures BufferHolds(es + [e, BlockStop(n)], Upto(n + 1), m[n := Buffered(KindOf(e), e.delta, "", "", "")])
  {
    hide BufferHolds;
    var m1 := m[n := FoldedInBuffer(Buffered(KindOf(e), "", "", "", ""), e)];
    BufferStep(es, Upto(n), m, e);
    BufferStep(es + [e], Upto(n) + [n], m1, BlockStop(n));
    assert "" + e.delta == e.delta;
    assert es + [e, BlockStop(n)] == es + [e] + [BlockStop(n)];
  }

  /** A tool call is one more entry. */
  lemma CallHolds(es: seq<StreamEvent>, n: U32, m: map<U32, Buffered>, id: string, name: string, json: string)
    requires BufferHolds(es, Upto(n), m) && n !in m
    ensures BufferHolds(es + [ToolStart(n, id, name), ToolDelta(n, json), BlockStop(n)], Upto(n + 1),
                        m[n := Buffered(ToolUse, "", json, id, name)])
  {
    hide BufferHolds;
    var a, b, c := ToolStart(n, id, name), ToolDelta(n, json), BlockStop(n);
    var begun := Buffered(ToolUse, "", "", id, name);
    BufferStep(es, Upto(n), m, a);
    BufferStep(es + [a], Upto(n) + [n], m[n := begun], b);
    assert "" + json == json;
    var m2 := m[n := begun][n := Buffered(ToolUse, "", json, id, name)];
    assert m2 == m[n := Buffered(ToolUse, "", json, id, name)];
    BufferStep(es + [a] + [b], Upto(n) + [n], m2, c);
    assert es + [a, b, c] == es + [a] + [b] + [c];
  }

  /** One more block is one more entry. */
  lemma BlockHolds(es: seq<StreamEvent>, n: U32, m: map<U32, Buffered>, b: ContentBlock)
    requires BufferHolds(es, Upto(n), m) && n !in m
    ensures BufferHolds(es + BlockEvents(n, b), Upto(n + 1), m[n := Stored(b)])
  {
    hide BufferHolds;
    match b
    case TextBlock(text) => TextHolds(es, n, m, TextDelta(n, text));
    case ThinkingBlock(text) => TextHolds(es, n, m, ThinkingDelta(n, text));
    case ToolBlock(id, name, input) => CallHolds(es, n, m, id, name, EmittedInput(input));
  }

  lemma {:induction false} EmittedHolds(content: seq<ContentBlock>)
    requires |content| <= U32_SPAN
    ensures BufferHolds(Emitted(content), Upto(|content|), StoredAll(content))
  {
    hide BufferHolds;
    if content == [] {
      NothingHeld();
      BufferStep([], [], map[], MessageStart);
      assert [] + [MessageStart] == [MessageStart];
    } else {
      var init := content[..|content| - 1];
      EmittedHolds(init);
      BlockHolds(Emitted(init), |init|, StoredAll(init), content[|init|]);
    }
  }

  lemma NothingHeld()
    ensures BufferHolds([], [], map[])
  {
  }

  /** Exactly the responses whose calls all have an id and an input come back unchanged. */
  lemma NormalIsIdentity(r: Response, q: Response)
    requires |r.content| <= U32_SPAN && NormalOf(r, q)
    ensures q == r <==> forall i :: 0 <= i < |r.content| && r.content[i].ToolBlock? ==>
                          r.content[i].id != "" && r.content[i].input != ""
  {
    if forall i :: 0 <= i < |r.content| && r.content[i].ToolBlock? ==>
                     r.content[i].id != "" && r.content[i].input != "" {
      assert q.content == r.content;
    }
    if q == r {
      forall i | 0 <= i < |r.content| && r.content[i].ToolBlock?
        ensures r.content[i].id != "" && r.content[i].input != ""
      {
        assert q.content[i] == Normal(i, r.content[i]);
      }
    }
  }

  // ---------------------------------------------------------------------------
  // Emitted streams are kind-consistent, so the agent's accumulator agrees
  // ---------------------------------------------------------------------------

  lemma ConsistentSnoc(es: seq<StreamEvent>, e: StreamEvent)
    requires KindConsistent(es)
    requires Touches(e).Some? && Kind(es, Touches(e).value).Some? ==> Kind(es, Touches(e).value) == Some(KindOf(e))
    ensures KindConsistent(es + [e])
    ensures Touches(e).Some? && Kind(es, Touches(e).value).None? ==> Kind(es + [e], Touches(e).value) == Some(KindOf(e))
    ensures forall i: U32 :: Touches(e) != Some(i) ==> Kind(es + [e], i) == Kind(es, i)
  {
    Snoc(es, e);
  }

  lemma BlockConsistent(es: seq<StreamEvent>, n: U32, b: ContentBlock)
    requires KindConsistent(es) && Kind(es, n).None?
    ensures KindConsistent(es + BlockEvents(n, b))
    ensures forall i :: i != n ==> Kind(es + BlockEvents(n, b), i) == Kind(es, i)
  {
    hide KindConsistent, Kind;
    var evs := BlockEvents(n, b);
    var one, two := es + [evs[0]], es + [evs[0]] + [evs[1]];
    ConsistentSnoc(es, evs[0]);
    ConsistentSnoc(one, evs[1]);
    if b.ToolBlock? {
      ConsistentSnoc(two, evs[2]);
      assert es + evs == two + [evs[2]];
    } else {
      assert es + evs == two;
    }
  }

  lemma {:induction false} EmittedConsistent(content: seq<ContentBlock>)
    requires |content| <= U32_SPAN
    ensures KindConsistent(Emitted(content))
    ensures forall i: U32 :: i >= |content| ==> Kind(Emitted(content), i).None?
  {
    if content != [] {
      var init := content[..|content| - 1];
      EmittedConsistent(init);
      BlockConsistent(Emitted(init), |init|, content[|init|]);
    }
  }

  lemma StreamConsistent(r: Response)
    requires |r.content| <= U32_SPAN
    ensures KindConsistent(Stream(r)) && BufferHolds(Stream(r), Upto(|r.content|), StoredAll(r.content))
  {
    hide BufferHolds, KindConsistent;
    EmittedConsistent(r.content);
    ConsistentSnoc(Emitted(r.content), MessageStop(Some(r.usage), r.stop));
    EmittedHolds(r.content);
    BufferStep(Emitted(r.content), Upto(|r.content|), StoredAll(r.content), MessageStop(Some(r.usage), r.stop));
  }

  lemma HeldBlock(es: seq<StreamEvent>, order: seq<U32>, m: map<U32, Buffered>, i: U32)
    requires BufferHolds(es, order, m) && i in m
    ensures Order(es) == order && BufferedKind(es, i).Some? && BufferedAt(es, i) == m[i]
  {
  }

  /** What the buffer holds for one block of an emitted response. */
  lemma EmittedBlock(r: Response, i: U32)
    requires |r.content| <= U32_SPAN && i < |r.content|
    ensures Order(Stream(r)) == Upto(|r.content|) && Order(Stream(r))[i] == i && BufferedKind(Stream(r), i).Some?
    ensures BufferBlock(BufferedAt(Stream(r), i), i) == Normal(i, r.content[i])
  {
    hide Stream, BufferHolds, KindConsistent, BufferedKind, BufferedAt, Order;
    StreamConsistent(r);
    HeldBlock(Stream(r), Upto(|r.content|), StoredAll(r.content), i);
  }

  lemma EmittedShape(r: Response)
    requires |r.content| <= U32_SPAN
    ensures Order(Stream(r)) == Upto(|r.content|) && Closing(Stream(r)) == (r.usage, r.stop)
  {
    StreamConsistent(r);
    Snoc(Emitted(r.content), MessageStop(Some(r.usage), r.stop));
  }

  /** Buffering an emitted response gives it back, up to defaulted ids and empty inputs. */
  lemma EmitThenBuffer(r: Response, q: Response)
    requires |r.content| <= U32_SPAN && BufferRebuilds(Stream(r), q)
    ensures NormalOf(r, q)
  {
    hide Order, Closing, BufferedAt, BufferBlock, Normal, Stream;
    EmittedShape(r);
    forall i | 0 <= i < |r.content|
      ensures q.content[i] == Normal(i, r.content[i])
    {
      EmittedBlock(r, i);
    }
  }

  /** The input of an emitted call is the one its block holds. */
  lemma EmittedInputs(r: Response, i: U32)
    requires |r.content| <= U32_SPAN && Kind(Stream(r), i) == Some(ToolUse)
    ensures i < |r.content| && r.content[i].ToolBlock?
    ensures Fragments(Stream(r), i, ToolUse) == EmittedInput(r.content[i].input)
  {
    hide Stream, Kind, BufferedKind, Order, KindConsistent, Fragments;
    StreamConsistent(r);
    OrderIsKinds(Stream(r), i);
    ConsistentBuffers(Stream(r), i);
    HeldBlock(Stream(r), Upto(|r.content|), StoredAll(r.content), i);
  }

  lemma EmittedParses(r: Response, i: U32, valid: string -> bool)
    requires |r.content| <= U32_SPAN && valid("{}")
    requires forall b :: b in r.content && b.ToolBlock? && b.input != "" ==> valid(b.input)
    ensures InputParses(Stream(r), i, valid)
  {
    if Kind(Stream(r), i) == Some(ToolUse) {
      EmittedInputs(r, i);
      assert r.content[i] in r.content;
    }
  }

  /** The agent's accumulator gives an emitted response back too, when its inputs are JSON texts. */
  lemma EmitThenAccumulate(r: Response, valid: string -> bool, q: Response)
    requires |r.content| <= U32_SPAN && Rebuilds(Stream(r), valid, q)
    requires valid("null") && valid("{}") && !valid("")
    requires forall b :: b in r.content && b.ToolBlock? && b.input != "" ==> valid(b.input)
    ensures NormalOf(r, q)
  {
    hide BufferHolds, KindConsistent, Rebuilds, BufferRebuilds, NormalOf, Stream, InputParses;
    StreamConsistent(r);
    forall i: U32
      ensures InputParses(Stream(r), i, valid)
    {
      EmittedParses(r, i, valid);
    }
    var b := BufferedResponse(r);
    AccumulatorsAgree(Stream(r), valid, q, b);
    EmitThenBuffer(r, b);
  }

  /** The buffer always has a response to give. */
  lemma BufferedResponse(r: Response) returns (q: Response)
    requires |r.content| <= U32_SPAN
    ensures BufferRebuilds(Stream(r), q)
  {
    hide Order, Closing, BufferedAt, BufferBlock, Normal, Stream;
    EmittedShape(r);
    var content := seq(|r.content|, i requires 0 <= i < |r.content| && i <= U32_MAX => Normal(i, r.content[i]));
    q := Response(content, r.usage, r.stop);
    forall j | 0 <= j < |r.content|
      ensures var order := Order(Stream(r));
        BufferedKind(Stream(r), order[j]).Some? && content[j] == BufferBlock(BufferedAt(Stream(r), order[j]), order[j])
    {
      EmittedBlock(r, j);
    }
  }
}
