/** The mapper from model stream events to the events the harness forwards. */
module StreamMaps {
  import opened Words
  import opened Streams

  datatype HarnessEvent =
    | BlockBegin(index: U32, kind: BlockKind)
    | TextOut(content: string)
    | ReasoningOut(content: string)
    | CallBegin(index: U32, callId: string, name: string)
    | ArgsOut(callId: string, fragment: string)
    | BlockEnd(index: U32)

  // ---------------------------------------------------------------------------
  // Reading what was forwarded
  // ---------------------------------------------------------------------------

  /** The forwarded text, in order. */
  ghost function TextSent(out: seq<HarnessEvent>): string {
    if out == [] then ""
    else TextSent(out[..|out| - 1]) + match out[|out| - 1] case TextOut(t) => t case _ => ""
  }

  /** The text of the model, in arrival order. */
  ghost function TextSeen(es: seq<StreamEvent>): string {
    if es == [] then ""
    else TextSeen(es[..|es| - 1]) + match es[|es| - 1] case TextDelta(_, t) => t case _ => ""
  }

  /** Whether the last bracket forwarded for an index opened it. */
  ghost function OpenSent(out: seq<HarnessEvent>, i: U32): bool {
    if out == [] then false
    else
      match out[|out| - 1]
      case BlockBegin(j, _) => if j == i then true else OpenSent(out[..|out| - 1], i)
      case BlockEnd(j) => if j == i then false else OpenSent(out[..|out| - 1], i)
      case _ => OpenSent(out[..|out| - 1], i)
  }

  /** A block begins only while it is closed: once per open period. */
  ghost predicate OncePerPeriod(out: seq<HarnessEvent>) {
    if out == [] then true
    else
      && OncePerPeriod(out[..|out| - 1])
      && (out[|out| - 1].BlockBegin? ==> !OpenSent(out[..|out| - 1], out[|out| - 1].index))
  }

  lemma Push(out: seq<HarnessEvent>, h: HarnessEvent)
    ensures TextSent(out + [h]) == TextSent(out) + match h case TextOut(t) => t case _ => ""
    ensures OncePerPeriod(out + [h]) <==> OncePerPeriod(out) && (h.BlockBegin? ==> !OpenSent(out, h.index))
    ensures forall i: U32 :: OpenSent(out + [h], i) ==
              match h
              case BlockBegin(j, _) => (i == j || OpenSent(out, i))
              case BlockEnd(j) => (i != j && OpenSent(out, i))
              case _ => OpenSent(out, i)
  {
    assert (out + [h])[..|out|] == out;
  }

  // ---------------------------------------------------------------------------
  // Tidy streams
  // ---------------------------------------------------------------------------

  ghost predicate Stopped(es: seq<StreamEvent>, i: U32) {
    BlockStop(i) in es
  }

  /**
   A stream is tidy at an index when a start frame opens the index, every event of
   the index has the kind of the first one, and no tool fragment of the index comes
   after the stop of its block. What happens at other indices does not matter.
   */
  ghost predicate TidyAt(es: seq<StreamEvent>, i: U32) {
    if es == [] then true
    else
      var before, e := es[..|es| - 1], es[|es| - 1];
      && TidyAt(before, i)
      && (Touches(e) == Some(i) ==> Kind(before, i).None? || Kind(before, i) == Some(KindOf(e)))
      && (e.ToolStart? && e.index == i ==> Kind(before, i).None?)
      && (e.ToolDelta? && e.index == i ==> !Stopped(before, i))
  }

  /** Whether an index has a start frame. */
  ghost predicate HasStart(es: seq<StreamEvent>, i: U32) {
    exists id, name :: ToolStart(i, id, name) in es
  }

  /** The id forwarded for the calls of an index. */
  ghost function ForwardedId(es: seq<StreamEvent>, i: U32): string {
    if HasStart(es, i) then Started(es, i).0 else CallId(i)
  }

  lemma StartSnoc(es: seq<StreamEvent>, e: StreamEvent, i: U32)
    ensures HasStart(es + [e], i) <==> HasStart(es, i) || (e.ToolStart? && e.index == i)
    ensures Started(es + [e], i) == if e.ToolStart? && e.index == i then (e.id, e.name) else Started(es, i)
    ensures Stopped(es + [e], i) <==> Stopped(es, i) || e == BlockStop(i)
    ensures Kind(es + [e], i) == if Kind(es, i).None? && Touches(e) == Some(i) then Some(KindOf(e)) else Kind(es, i)
    ensures TidyAt(es + [e], i) ==> TidyAt(es, i)
  {
    Snoc(es, e);
    if e.ToolStart? && e.index == i {
      assert ToolStart(i, e.id, e.name) in es + [e];
    }
    if HasStart(es, i) {
      var id, name :| ToolStart(i, id, name) in es;
      assert ToolStart(i, id, name) in es + [e];
    }
  }

  lemma {:induction false} StartHasKind(es: seq<StreamEvent>, i: U32)
    requires TidyAt(es, i) && HasStart(es, i)
    ensures Kind(es, i) == Some(ToolUse)
  {
    var before, e := es[..|es| - 1], es[|es| - 1];
    assert es == before + [e];
    StartSnoc(before, e, i);
    if HasStart(before, i) {
      StartHasKind(before, i);
    }
  }

  // ---------------------------------------------------------------------------
  // The mapper
  // ---------------------------------------------------------------------------

  /** What the mapper knows, against what was seen and sent. */
  ghost predicate Tracks(es: seq<StreamEvent>, out: seq<HarnessEvent>, openBlocks: set<U32>) {
    && TextSent(out) == TextSeen(es)
    && OncePerPeriod(out)
    && (forall i: U32 :: i in openBlocks <==> OpenSent(out, i))
    && (forall i: U32 :: i in openBlocks ==> Kind(es, i).Some?)
  }

  /** What is on record for an index, and what was sent for it. */
  ghost predicate KnowsIndex(es: seq<StreamEvent>, openBlocks: set<U32>, toolCalls: map<U32, string>,
                             sent: seq<(U32, string)>, i: U32) {
    && (Kind(es, i).Some? && !Stopped(es, i) ==> i in openBlocks)
    && (Kind(es, i) == Some(ToolUse) && i in toolCalls ==> toolCalls[i] == ForwardedId(es, i))
    && (Kind(es, i) == Some(ToolUse) && !Stopped(es, i) ==> i in toolCalls)
    && (forall p :: p in sent && p.0 == i ==> Kind(es, i) == Some(ToolUse) && p.1 == ForwardedId(es, i))
  }

  /** Wherever the stream is tidy, the ids on record and the ids sent are the ones a rebuilt call would carry. */
  ghost predicate KnowsIds(es: seq<StreamEvent>, openBlocks: set<U32>, toolCalls: map<U32, string>,
                           sent: seq<(U32, string)>) {
    forall i: U32 :: TidyAt(es, i) ==> KnowsIndex(es, openBlocks, toolCalls, sent, i)
  }

  /** Forwarding what opens a block, if anything does. */
  lemma TracksOpening(es: seq<StreamEvent>, out: seq<HarnessEvent>, openBlocks: set<U32>, e: StreamEvent, k: BlockKind)
    requires Tracks(es, out, openBlocks) && Touches(e).Some? && Touches(e).value !in openBlocks && !e.TextDelta?
    ensures Tracks(es + [e], out + [BlockBegin(Touches(e).value, k)], openBlocks + {Touches(e).value})
  {
    Snoc(es, e);
    Push(out, BlockBegin(Touches(e).value, k));
    assert TextSent(out) + "" == TextSent(out);
  }

  /** Forwarding an event that is no bracket and no text. */
  lemma TracksOther(es: seq<StreamEvent>, out: seq<HarnessEvent>, openBlocks: set<U32>, h: HarnessEvent)
    requires Tracks(es, out, openBlocks) && !h.BlockBegin? && !h.BlockEnd? && !h.TextOut?
    ensures Tracks(es, out + [h], openBlocks)
  {
    Push(out, h);
    assert TextSent(out) + "" == TextSent(out);
  }

  /** An event that adds no text and needs no bracket. */
  lemma TracksSeen(es: seq<StreamEvent>, out: seq<HarnessEvent>, openBlocks: set<U32>, e: StreamEvent)
    requires Tracks(es, out, openBlocks) && !e.TextDelta?
    ensures Tracks(es + [e], out, openBlocks)
  {
    Snoc(es, e);
    assert TextSeen(es) + "" == TextSeen(es);
  }

  lemma TracksText(es: seq<StreamEvent>, out: seq<HarnessEvent>, openBlocks: set<U32>, i: U32, text: string)
    requires Tracks(es, out, openBlocks)
    ensures i in openBlocks ==> Tracks(es + [TextDelta(i, text)], out + [TextOut(text)], openBlocks)
    ensures i !in openBlocks ==>
              Tracks(es + [TextDelta(i, text)], out + [BlockBegin(i, Text)] + [TextOut(text)], openBlocks + {i})
  {
    var e := TextDelta(i, text);
    Snoc(es, e);
    Push(out, TextOut(text));
    Push(out, BlockBegin(i, Text));
    Push(out + [BlockBegin(i, Text)], TextOut(text));
    assert TextSent(out) + "" == TextSent(out);
  }

  lemma TracksStop(es: seq<StreamEvent>, out: seq<HarnessEvent>, openBlocks: set<U32>, i: U32)
    requires Tracks(es, out, openBlocks)
    ensures Tracks(es + [BlockStop(i)], out + [BlockEnd(i)], openBlocks - {i})
  {
    Snoc(es, BlockStop(i));
    Push(out, BlockEnd(i));
    assert TextSeen(es) + "" == TextSeen(es) && TextSent(out) + "" == TextSent(out);
  }

  /** An event changes nothing at the indices it does not name. */
  lemma KnowsElsewhere(es: seq<StreamEvent>, open0: set<U32>, open1: set<U32>, calls0: map<U32, string>,
                       calls1: map<U32, string>, sent: seq<(U32, string)>, more: seq<(U32, string)>,
                       e: StreamEvent, i: U32)
    requires KnowsIds(es, open0, calls0, sent) && TidyAt(es + [e], i)
    requires Touches(e) != Some(i) && e != BlockStop(i)
    requires (i in open0 ==> i in open1) && (i in calls0 <==> i in calls1) && (i in calls0 ==> calls1[i] == calls0[i])
    requires forall p :: p in more ==> p.0 != i
    ensures KnowsIndex(es + [e], open1, calls1, sent + more, i)
  {
    StartSnoc(es, e, i);
    assert KnowsIndex(es, open0, calls0, sent, i);
  }

  /** An event of an index that carries no call id. */
  lemma IdsPlain(es: seq<StreamEvent>, open0: set<U32>, open1: set<U32>, toolCalls: map<U32, string>,
                 sent: seq<(U32, string)>, e: StreamEvent)
    requires KnowsIds(es, open0, toolCalls, sent) && !e.ToolStart? && !e.ToolDelta?
    requires open1 == if e.BlockStop? then open0 - {e.index}
                      else if Touches(e).Some? then open0 + {Touches(e).value} else open0
    ensures KnowsIds(es + [e], open1, toolCalls, sent)
  {
    forall i: U32 | TidyAt(es + [e], i)
      ensures KnowsIndex(es + [e], open1, toolCalls, sent, i)
    {
      StartSnoc(es, e, i);
      assert KnowsIndex(es, open0, toolCalls, sent, i);
      Snoc(es, e);
    }
  }

  /** A start frame that opens its index puts its own id on record; one for an open index is ignored. */
  lemma IdsStart(es: seq<StreamEvent>, openBlocks: set<U32>, toolCalls: map<U32, string>, sent: seq<(U32, string)>,
                 e: StreamEvent)
    requires KnowsIds(es, openBlocks, toolCalls, sent) && e.ToolStart?
    requires forall i: U32 :: i in openBlocks ==> Kind(es, i).Some?
    ensures if e.index in openBlocks then KnowsIds(es + [e], openBlocks, toolCalls, sent)
            else KnowsIds(es + [e], openBlocks + {e.index}, toolCalls[e.index := e.id], sent + [(e.index, e.id)])
  {
    hide KnowsIds, KnowsIndex, TidyAt, CallId, Kind;
    if e.index in openBlocks {
      forall i: U32 | TidyAt(es + [e], i)
        ensures KnowsIndex(es + [e], openBlocks, toolCalls, sent, i)
      {
        StartsIndex(es, openBlocks, toolCalls, sent, e, i);
      }
      KnowsAll(es + [e], openBlocks, toolCalls, sent);
    } else {
      forall i: U32 | TidyAt(es + [e], i)
        ensures KnowsIndex(es + [e], openBlocks + {e.index}, toolCalls[e.index := e.id], sent + [(e.index, e.id)], i)
      {
        StartsIndex(es, openBlocks, toolCalls, sent, e, i);
      }
      KnowsAll(es + [e], openBlocks + {e.index}, toolCalls[e.index := e.id], sent + [(e.index, e.id)]);
    }
  }

  lemma KnowsAll(es: seq<StreamEvent>, openBlocks: set<U32>, toolCalls: map<U32, string>, sent: seq<(U32, string)>)
    ensures (forall i: U32 :: TidyAt(es, i) ==> KnowsIndex(es, openBlocks, toolCalls, sent, i)) ==>
              KnowsIds(es, openBlocks, toolCalls, sent)
  {
  }

  lemma StartsIndex(es: seq<StreamEvent>, openBlocks: set<U32>, toolCalls: map<U32, string>, sent: seq<(U32, string)>,
                    e: StreamEvent, i: U32)
    requires KnowsIds(es, openBlocks, toolCalls, sent) && e.ToolStart? && TidyAt(es + [e], i)
    requires forall i: U32 :: i in openBlocks ==> Kind(es, i).Some?
    ensures e.index !in openBlocks ==>
              KnowsIndex(es + [e], openBlocks + {e.index}, toolCalls[e.index := e.id], sent + [(e.index, e.id)], i)
    ensures e.index in openBlocks ==> KnowsIndex(es + [e], openBlocks, toolCalls, sent, i)
  {
    if i != e.index {
      KnowsElsewhere(es, openBlocks, openBlocks + {e.index}, toolCalls, toolCalls[e.index := e.id], sent,
                     [(e.index, e.id)], e, i);
      KnowsElsewhere(es, openBlocks, openBlocks, toolCalls, toolCalls, sent, [], e, i);
      assert sent + [] == sent;
    } else {
      StartSnoc(es, e, i);
      assert KnowsIndex(es, openBlocks, toolCalls, sent, i);
      Snoc(es, e);
    }
  }

  /** A tool fragment: at a tidy index it goes out under the id on record, or the synthesized one. */
  lemma IdsDelta(es: seq<StreamEvent>, openBlocks: set<U32>, toolCalls: map<U32, string>, sent: seq<(U32, string)>,
                 e: StreamEvent)
    requires KnowsIds(es, openBlocks, toolCalls, sent) && e.ToolDelta?
    requires forall i: U32 :: i in openBlocks ==> Kind(es, i).Some?
    ensures var i := e.index;
      var calls := if i in openBlocks then toolCalls else toolCalls[i := CallId(i)];
      var id := if i in calls then calls[i] else CallId(i);
      var more := if i in openBlocks then [(i, id)] else [(i, id), (i, id)];
      KnowsIds(es + [e], openBlocks + {i}, calls, sent + more)
  {
    hide KnowsIds, KnowsIndex, TidyAt, CallId, Kind;
    var calls := if e.index in openBlocks then toolCalls else toolCalls[e.index := CallId(e.index)];
    var id := if e.index in calls then calls[e.index] else CallId(e.index);
    var more := if e.index in openBlocks then [(e.index, id)] else [(e.index, id), (e.index, id)];
    forall i: U32 | TidyAt(es + [e], i)
      ensures KnowsIndex(es + [e], openBlocks + {e.index}, calls, sent + more, i)
    {
      DeltaIndex(es, openBlocks, toolCalls, sent, e, calls, id, more, i);
    }
    KnowsAll(es + [e], openBlocks + {e.index}, calls, sent + more);
  }

  lemma DeltaIndex(es: seq<StreamEvent>, openBlocks: set<U32>, toolCalls: map<U32, string>, sent: seq<(U32, string)>,
                   e: StreamEvent, calls: map<U32, string>, id: string, more: seq<(U32, string)>, i: U32)
    requires KnowsIds(es, openBlocks, toolCalls, sent) && e.ToolDelta? && TidyAt(es + [e], i)
    requires forall i: U32 :: i in openBlocks ==> Kind(es, i).Some?
    requires calls == if e.index in openBlocks then toolCalls else toolCalls[e.index := CallId(e.index)]
    requires id == if e.index in calls then calls[e.index] else CallId(e.index)
    requires forall p :: p in more ==> p == (e.index, id)
    ensures KnowsIndex(es + [e], openBlocks + {e.index}, calls, sent + more, i)
  {
    if i != e.index {
      KnowsElsewhere(es, openBlocks, openBlocks + {e.index}, toolCalls, calls, sent, more, e, i);
    } else {
      StartSnoc(es, e, i);
      assert KnowsIndex(es, openBlocks, toolCalls, sent, i);
      if HasStart(es, i) {
        StartHasKind(es, i);
      }
      Snoc(es, e);
    }
  }

  /** Forwarding a fragment, with the start of its call when it opens the block. */
  lemma CallForwarded(es: seq<StreamEvent>, out: seq<HarnessEvent>, openBlocks: set<U32>, begun: seq<HarnessEvent>,
                      i: U32, id: string, fragment: string, starts: bool)
    requires Tracks(es, out + begun, openBlocks)
    ensures var opening := if starts then begun + [CallBegin(i, id, "")] else begun;
      Tracks(es, out + (opening + [ArgsOut(id, fragment)]), openBlocks)
  {
    hide Tracks;
    if starts {
      TracksOther(es, out + begun, openBlocks, CallBegin(i, id, ""));
      TracksOther(es, out + begun + [CallBegin(i, id, "")], openBlocks, ArgsOut(id, fragment));
      assert out + (begun + [CallBegin(i, id, "")] + [ArgsOut(id, fragment)])
          == out + begun + [CallBegin(i, id, "")] + [ArgsOut(id, fragment)];
    } else {
      TracksOther(es, out + begun, openBlocks, ArgsOut(id, fragment));
      assert out + (begun + [ArgsOut(id, fragment)]) == out + begun + [ArgsOut(id, fragment)];
    }
  }

  /** The bracket of an event that is no text. */
  lemma Bracketed(es: seq<StreamEvent>, out: seq<HarnessEvent>, openBlocks: set<U32>, i: U32, kind: BlockKind,
                  e: StreamEvent)
    requires Tracks(es, out, openBlocks) && Touches(e) == Some(i) && !e.TextDelta?
    ensures Tracks(es + [e], out + (if i in openBlocks then [] else [BlockBegin(i, kind)]), openBlocks + {i})
  {
    if i in openBlocks {
      TracksSeen(es, out, openBlocks, e);
      assert openBlocks + {i} == openBlocks && out + [] == out;
    } else {
      TracksOpening(es, out, openBlocks, e, kind);
    }
  }

  lemma OpenHasKind(es: seq<StreamEvent>, out: seq<HarnessEvent>, openBlocks: set<U32>)
    requires Tracks(es, out, openBlocks)
    ensures forall i: U32 :: i in openBlocks ==> Kind(es, i).Some?
  {
  }

  /** What a start frame does to what is known and sent. */
  lemma StartTracked(es: seq<StreamEvent>, out: seq<HarnessEvent>, openBlocks: set<U32>, toolCalls: map<U32, string>,
                     sent: seq<(U32, string)>, i: U32, id: string, name: string)
    requires Tracks(es, out, openBlocks) && KnowsIds(es, openBlocks, toolCalls, sent)
    ensures var after := es + [ToolStart(i, id, name)];
      if i in openBlocks then
        Tracks(after, out, openBlocks) && KnowsIds(after, openBlocks, toolCalls, sent)
      else
        && Tracks(after, out + [BlockBegin(i, ToolUse), CallBegin(i, id, name)], openBlocks + {i})
        && KnowsIds(after, openBlocks + {i}, toolCalls[i := id], sent + [(i, id)])
  {
    hide Tracks, KnowsIds;
    var e := ToolStart(i, id, name);
    Bracketed(es, out, openBlocks, i, ToolUse, e);
    OpenHasKind(es, out, openBlocks);
    IdsStart(es, openBlocks, toolCalls, sent, e);
    if i in openBlocks {
      assert openBlocks + {i} == openBlocks && out + [] == out;
    } else {
      var begun := out + [BlockBegin(i, ToolUse)];
      TracksOther(es + [e], begun, openBlocks + {i}, CallBegin(i, id, name));
      assert begun + [CallBegin(i, id, name)] == out + [BlockBegin(i, ToolUse), CallBegin(i, id, name)];
    }
  }

  /** What a tool fragment does to what is known and sent. */
  lemma FragmentTracked(es: seq<StreamEvent>, out: seq<HarnessEvent>, openBlocks: set<U32>, toolCalls: map<U32, string>,
                        sent: seq<(U32, string)>, i: U32, fragment: string)
    requires Tracks(es, out, openBlocks) && KnowsIds(es, openBlocks, toolCalls, sent)
    ensures var after := es + [ToolDelta(i, fragment)];
      var calls := if i in openBlocks then toolCalls else toolCalls[i := CallId(i)];
      var id := if i in calls then calls[i] else CallId(i);
      && Tracks(after, out + ((if i in openBlocks then [] else [BlockBegin(i, ToolUse), CallBegin(i, id, "")])
                              + [ArgsOut(id, fragment)]), openBlocks + {i})
      && KnowsIds(after, openBlocks + {i}, calls, sent + if i in openBlocks then [(i, id)] else [(i, id), (i, id)])
  {
    hide Tracks, KnowsIds;
    var e := ToolDelta(i, fragment);
    var calls := if i in openBlocks then toolCalls else toolCalls[i := CallId(i)];
    var id := if i in calls then calls[i] else CallId(i);
    var begun := if i in openBlocks then [] else [BlockBegin(i, ToolUse)];
    Bracketed(es, out, openBlocks, i, ToolUse, e);
    OpenHasKind(es, out, openBlocks);
    IdsDelta(es, openBlocks, toolCalls, sent, e);
    CallForwarded(es + [e], out, openBlocks + {i}, begun, i, id, fragment, i !in openBlocks);
    if i !in openBlocks {
      assert begun + [CallBegin(i, id, "")] == [BlockBegin(i, ToolUse), CallBegin(i, id, "")];
    }
  }

  class TurnStream {
    var openBlocks: map<U32, BlockKind>
    var toolCalls: map<U32, string>
    ghost var seen: seq<StreamEvent>
    ghost var forwarded: seq<HarnessEvent>
    /** The call ids sent so far, each with the index it was sent for. */
    ghost var ids: seq<(U32, string)>

    ghost predicate Valid()
      reads this
    {
      Tracks(seen, forwarded, openBlocks.Keys) && KnowsIds(seen, openBlocks.Keys, toolCalls, ids)
    }

    constructor ()
      ensures Valid() && seen == [] && forwarded == [] && ids == [] && openBlocks == map[] && toolCalls == map[]
    {
      openBlocks, toolCalls, seen, forwarded, ids := map[], map[], [], [], [];
    }

    /** What opens the block of an index, when it is closed. */
    method Begin(index: U32, kind: BlockKind) returns (out: seq<HarnessEvent>)
      modifies this`openBlocks
      ensures index in old(openBlocks) ==> out == [] && openBlocks == old(openBlocks)
      ensures index !in old(openBlocks) ==>
                out == [BlockBegin(index, kind)] && openBlocks == old(openBlocks)[index := kind]
    {
      out := [];
      if index !in openBlocks {
        openBlocks := openBlocks[index := kind];
        out := [BlockBegin(index, kind)];
      }
    }

    /** Maps one model event to the events forwarded for it. */
    method Map(e: StreamEvent) returns (out: seq<HarnessEvent>)
      requires Valid()
      modifies this
      ensures Valid() && seen == old(seen) + [e] && forwarded == old(forwarded) + out
      ensures old(ids) <= ids
      ensures forall h :: h in out && h.CallBegin? ==> (h.index, h.callId) in ids
      ensures forall h :: h in out && h.ArgsOut? ==> e.ToolDelta? && (e.index, h.callId) in ids
    {
      hide Tracks, KnowsIds;
      match e
      case TextDelta(i, delta) => out := MapText(i, delta);
      case ThinkingDelta(i, delta) => out := MapThinking(i, delta);
      case ToolStart(i, id, name) => out := MapStart(i, id, name);
      case ToolDelta(i, fragment) => out := MapFragment(i, fragment);
      case BlockStop(i) => out := MapStop(i);
      case _ => out := MapNothing(e);
    }

    method MapNothing(e: StreamEvent) returns (out: seq<HarnessEvent>)
      requires Valid() && (e.MessageStart? || e.MessageStop?)
      modifies this
      ensures Valid() && seen == old(seen) + [e] && forwarded == old(forwarded) + out && ids == old(ids)
      ensures out == []
    {
      TracksSeen(seen, forwarded, openBlocks.Keys, e);
      IdsPlain(seen, openBlocks.Keys, openBlocks.Keys, toolCalls, ids, e);
      out := [];
      seen := seen + [e];
      assert forwarded + [] == forwarded;
    }

    method MapText(i: U32, delta: string) returns (out: seq<HarnessEvent>)
      requires Valid()
      modifies this
      ensures Valid() && seen == old(seen) + [TextDelta(i, delta)] && forwarded == old(forwarded) + out
      ensures ids == old(ids)
      ensures out == (if i in old(openBlocks) then [] else [BlockBegin(i, Text)]) + [TextOut(delta)]
    {
      TracksText(seen, forwarded, openBlocks.Keys, i, delta);
      IdsPlain(seen, openBlocks.Keys, openBlocks.Keys + {i}, toolCalls, ids, TextDelta(i, delta));
      hide Tracks, KnowsIds;
      ghost var before := forwarded;
      var first := Begin(i, Text);
      assert openBlocks.Keys == old(openBlocks.Keys) + {i};
      assert i in old(openBlocks) ==> openBlocks.Keys == old(openBlocks.Keys);
      out := first + [TextOut(delta)];
      assert before + out == before + first + [TextOut(delta)];
      assert before + [] == before;
      seen, forwarded := seen + [TextDelta(i, delta)], forwarded + out;
    }

    method MapThinking(i: U32, delta: string) returns (out: seq<HarnessEvent>)
      requires Valid()
      modifies this
      ensures Valid() && seen == old(seen) + [ThinkingDelta(i, delta)] && forwarded == old(forwarded) + out
      ensures ids == old(ids)
      ensures out == (if i in old(openBlocks) then [] else [BlockBegin(i, Thinking)]) + [ReasoningOut(delta)]
    {
      var e := ThinkingDelta(i, delta);
      Bracketed(seen, forwarded, openBlocks.Keys, i, Thinking, e);
      IdsPlain(seen, openBlocks.Keys, openBlocks.Keys + {i}, toolCalls, ids, e);
      hide Tracks, KnowsIds;
      ghost var before := forwarded;
      var first := Begin(i, Thinking);
      assert openBlocks.Keys == old(openBlocks.Keys) + {i};
      out := first + [ReasoningOut(delta)];
      TracksOther(seen + [e], before + first, openBlocks.Keys, ReasoningOut(delta));
      assert before + out == before + first + [ReasoningOut(delta)];
      seen, forwarded := seen + [e], forwarded + out;
    }

    method MapStart(i: U32, id: string, name: string) returns (out: seq<HarnessEvent>)
      requires Valid()
      modifies this
      ensures Valid() && seen == old(seen) + [ToolStart(i, id, name)] && forwarded == old(forwarded) + out
      ensures out == if i in old(openBlocks) then [] else [BlockBegin(i, ToolUse), CallBegin(i, id, name)]
      ensures ids == old(ids) + if i in old(openBlocks) then [] else [(i, id)]
      ensures i in openBlocks
    {
      hide Tracks, KnowsIds;
      StartTracked(seen, forwarded, openBlocks.Keys, toolCalls, ids, i, id, name);
      out := Begin(i, ToolUse);
      if out != [] {
        toolCalls, ids := toolCalls[i := id], ids + [(i, id)];
        out := [BlockBegin(i, ToolUse), CallBegin(i, id, name)];
        assert openBlocks.Keys == old(openBlocks.Keys) + {i};
      } else {
        assert forwarded + [] == forwarded && ids + [] == ids;
      }
      seen, forwarded := seen + [ToolStart(i, id, name)], forwarded + out;
    }

    method MapFragment(i: U32, fragment: string) returns (out: seq<HarnessEvent>)
      requires Valid()
      modifies this
      ensures Valid() && seen == old(seen) + [ToolDelta(i, fragment)] && forwarded == old(forwarded) + out
      ensures var id := if i !in old(openBlocks) || i !in old(toolCalls) then CallId(i) else old(toolCalls)[i];
        && out == (if i in old(openBlocks) then [] else [BlockBegin(i, ToolUse), CallBegin(i, id, "")])
                  + [ArgsOut(id, fragment)]
        && ids == old(ids) + if i in old(openBlocks) then [(i, id)] else [(i, id), (i, id)]
      ensures i in openBlocks
    {
      hide Tracks, KnowsIds, CallId;
      FragmentTracked(seen, forwarded, openBlocks.Keys, toolCalls, ids, i, fragment);
      out := OpenCall(i);
      var id := if i in toolCalls then toolCalls[i] else CallId(i);
      out := out + [ArgsOut(id, fragment)];
      seen, forwarded := seen + [ToolDelta(i, fragment)], forwarded + out;
      ids := ids + if i in old(openBlocks) then [(i, id)] else [(i, id), (i, id)];
    }

    /** Opens the block of a call whose start frame never came, under a synthesized id. */
    method OpenCall(i: U32) returns (out: seq<HarnessEvent>)
      modifies this`openBlocks, this`toolCalls
      ensures openBlocks.Keys == old(openBlocks.Keys) + {i}
      ensures i in old(openBlocks) ==> out == [] && toolCalls == old(toolCalls)
      ensures i !in old(openBlocks) ==>
                && out == [BlockBegin(i, ToolUse), CallBegin(i, CallId(i), "")]
                && toolCalls == old(toolCalls)[i := CallId(i)]
    {
      out := Begin(i, ToolUse);
      if out != [] {
        toolCalls := toolCalls[i := CallId(i)];
        out := out + [CallBegin(i, CallId(i), "")];
      }
    }

    method MapStop(i: U32) returns (out: seq<HarnessEvent>)
      requires Valid()
      modifies this
      ensures Valid() && seen == old(seen) + [BlockStop(i)] && forwarded == old(forwarded) + out && ids == old(ids)
      ensures out == [BlockEnd(i)]
    {
      TracksStop(seen, forwarded, openBlocks.Keys, i);
      IdsPlain(seen, openBlocks.Keys, openBlocks.Keys - {i}, toolCalls, ids, BlockStop(i));
      hide Tracks, KnowsIds;
      openBlocks := openBlocks - {i};
      assert openBlocks.Keys == old(openBlocks.Keys) - {i};
      out := [BlockEnd(i)];
      seen, forwarded := seen + [BlockStop(i)], forwarded + out;
    }
  }

  // ---------------------------------------------------------------------------
  // The mapper and the accumulator
  // ---------------------------------------------------------------------------

  lemma {:induction false} NoStartFrame(es: seq<StreamEvent>, i: U32)
    requires !HasStart(es, i)
    ensures Started(es, i) == ("", "")
  {
    if es != [] {
      var before, e := es[..|es| - 1], es[|es| - 1];
      assert es == before + [e];
      StartSnoc(before, e, i);
      NoStartFrame(before, i);
    }
  }

  /**
   At a tidy index, an id sent is the id of the call the accumulator rebuilds there,
   exactly when it is not empty: a start frame without an id is forwarded as it is,
   while the accumulator makes one up.
   */
  lemma MapperAgrees(es: seq<StreamEvent>, openBlocks: set<U32>, toolCalls: map<U32, string>, sent: seq<(U32, string)>,
                     valid: string -> bool, r: Response, p: (U32, string))
    requires KnowsIds(es, openBlocks, toolCalls, sent) && p in sent && TidyAt(es, p.0)
    requires Rebuilds(es, valid, r)
    ensures exists j :: 0 <= j < |r.content| && Order(es)[j] == p.0 && r.content[j].ToolBlock?
                        && (r.content[j].id == p.1 <==> p.1 != "")
  {
    OrderIsKinds(es, p.0);
    var j :| 0 <= j < |Order(es)| && Order(es)[j] == p.0;
    assert r.content[j] == BlockAt(es, p.0, valid);
    if !HasStart(es, p.0) {
      NoStartFrame(es, p.0);
    }
  }

  /**
   Without tidiness they part: after a fragment and a late start frame, the mapper has
   sent the call under the synthesized id only, and the accumulator rebuilds it under
   the id of the frame.
   */
  method LateStartDisagrees(valid: string -> bool) returns (mapper: TurnStream, r: Response)
    ensures mapper.seen == LATE_START && !TidyAt(mapper.seen, 0)
    ensures mapper.ids == [(0, CallId(0)), (0, CallId(0))]
    ensures |r.content| == 1 && r.content[0].ToolBlock? && r.content[0].id == "x" != CallId(0)
  {
    hide Tracks, KnowsIds, TidyAt, Rebuilds, CallId;
    LateStart();
    mapper := new TurnStream();
    var sent := mapper.MapFragment(0, "{}");
    sent := mapper.MapStart(0, "x", "t");
    assert mapper.seen == LATE_START;
    r := AccumulateLate(valid);
    LateCall(valid, r);
  }

  method AccumulateLate(valid: string -> bool) returns (r: Response)
    ensures Rebuilds(LATE_START, valid, r)
  {
    hide Rebuilds, Holds, Closing;
    var accumulator := new StreamAccumulator();
    accumulator.Fold(ToolDelta(0, "{}"));
    accumulator.Fold(ToolStart(0, "x", "t"));
    assert accumulator.seen == LATE_START;
    r := accumulator.IntoResponse(valid);
  }

  const LATE_START := [ToolDelta(0, "{}"), ToolStart(0, "x", "t")]

  lemma LateStart()
    ensures !TidyAt(LATE_START, 0)
    ensures Order(LATE_START) == [0] && Kind(LATE_START, 0) == Some(ToolUse) && Started(LATE_START, 0) == ("x", "t")
  {
    var first := [ToolDelta(0, "{}")];
    assert LATE_START[..1] == first && first[..0] == [];
    assert Kind(first, 0) == Some(ToolUse) && Order(first) == [0];
  }

  lemma LateCall(valid: string -> bool, r: Response)
    requires Rebuilds(LATE_START, valid, r)
    ensures |r.content| == 1 && r.content[0].ToolBlock? && r.content[0].id == "x" != CallId(0)
  {
    hide Order, Kind, Started, Fragments, Closing;
    LateStart();
    assert r.content[0] == BlockAt(LATE_START, 0, valid);
    assert CallId(0)[0] == 'c';
  }
}
