/** responses.go: the buffered reply, and how far it agrees with the streamed one. */
module ResponsesAgreement {
  import opened Text
  import opened Upstream
  import opened Buffered
  import opened Identifiers
  import opened ResponsesModel
  import ResponsesIds

  /* ---- The buffered reply ---- */

  datatype Object = Object(incomplete: bool, output: seq<DoneItem>, outputText: string, usage: ResponsesUsage)

  function CallItems(hex: Hex, drawn: nat, calls: seq<Call>): seq<DoneItem> {
    if calls == [] then [] else
      var c := calls[|calls| - 1];
      CallItems(hex, drawn, calls[..|calls| - 1])
      + [DoneItem(FunctionCall, "fc_" + hex(drawn + |calls| - 1), c.id, c.name, OrDefault(c.args, "{}"))]
  }

  function TextItem(kind: Kind, hex: Hex, drawn: nat, text: string): seq<DoneItem> {
    if text == "" then [] else [DoneItem(kind, Prefix(kind) + hex(drawn), "", "", text)]
  }

  /** The output list: reasoning, then the message, then the calls. */
  function OutputOf(hex: Hex, drawn: nat, thinking: string, text: string, calls: seq<Call>): seq<DoneItem> {
    var r := TextItem(Reasoning, hex, drawn, thinking);
    var m := TextItem(Message, hex, drawn + |r|, text);
    r + m + CallItems(hex, drawn + |r| + |m|, calls)
  }

  lemma {:induction false} CallItemIds(hex: Hex, drawn: nat, calls: seq<Call>)
    ensures var items := CallItems(hex, drawn, calls);
      && |items| == |calls|
      && forall i :: 0 <= i < |calls| ==>
        && items[i].kind == FunctionCall && items[i].id == "fc_" + hex(drawn + i)
        && items[i].text == OrDefault(calls[i].args, "{}")
  {
    if calls != [] {
      CallItemIds(hex, drawn, calls[..|calls| - 1]);
    }
  }

  /** No two items of the buffered list share an identifier. */
  lemma OutputDistinct(hex: Hex, drawn: nat, thinking: string, text: string, calls: seq<Call>)
    requires Injective(hex)
    ensures Distinct(ResponsesIds.DoneIds(OutputOf(hex, drawn, thinking, text, calls)))
  {
    var out := OutputOf(hex, drawn, thinking, text, calls);
    OutputIds(hex, drawn, thinking, text, calls);
    forall i, j | 0 <= i < j < |out| ensures out[i].id != out[j].id {
      var a, b := Prefix(out[i].kind), Prefix(out[j].kind);
      if a == b {
        assert (a + hex(drawn + i))[|a|..] == hex(drawn + i) && (a + hex(drawn + j))[|a|..] == hex(drawn + j);
      } else {
        ResponsesIds.PrefixesDiffer(out[i].kind, out[j].kind, hex(drawn + i), hex(drawn + j));
      }
    }
  }

  lemma OutputIds(hex: Hex, drawn: nat, thinking: string, text: string, calls: seq<Call>)
    ensures var out := OutputOf(hex, drawn, thinking, text, calls);
      forall i :: 0 <= i < |out| ==> out[i].id == Prefix(out[i].kind) + hex(drawn + i)
  {
    var h := |TextItem(Reasoning, hex, drawn, thinking)|;
    h := h + |TextItem(Message, hex, drawn + h, text)|;
    CallItemIds(hex, drawn + h, calls);
  }

  method BuildResponsesOutput(hex: Hex, drawn: nat, fullText: string, thinkingText: string, toolCalls: seq<Call>)
    returns (output: seq<DoneItem>)
    ensures output == OutputOf(hex, drawn, thinkingText, fullText, toolCalls)
  {
    output := [];
    var next := drawn;
    if thinkingText != "" {
      output := output + [DoneItem(Reasoning, "rs_" + hex(next), "", "", thinkingText)];
      next := next + 1;
    }
    assert output == TextItem(Reasoning, hex, drawn, thinkingText);
    ghost var r, base := output, next;
    if fullText != "" {
      output := output + [DoneItem(Message, "msg_" + hex(next), "", "", fullText)];
      next := next + 1;
    }
    assert output == r + TextItem(Message, hex, base, fullText);
    output := AddCalls(hex, next, output, toolCalls);
  }

  method AddCalls(hex: Hex, drawn: nat, head: seq<DoneItem>, toolCalls: seq<Call>) returns (output: seq<DoneItem>)
    ensures output == head + CallItems(hex, drawn, toolCalls)
  {
    output := head;
    for i := 0 to |toolCalls|
      invariant output == head + CallItems(hex, drawn, toolCalls[..i])
    {
      var tc := toolCalls[i];
      assert toolCalls[..i + 1][..i] == toolCalls[..i];
      output := output + [DoneItem(FunctionCall, "fc_" + hex(drawn + i), tc.id, tc.name, OrDefault(tc.args, "{}"))];
    }
    assert toolCalls[..|toolCalls|] == toolCalls;
  }

  /** responsesNonStream: reads everything, then answers once. */
  method NonStream(hex: Hex, events: seq<Event>, ending: Ending, timeoutMessage: string)
    returns (reply: Reply, body: Option<Object>)
    ensures reply == BufferedReply(events, ending, timeoutMessage)
    ensures body.Some? <==> ending.Eof? && reply.NoReply?
    ensures body.Some? ==>
      body.value == Object(
        FinishOf(events) == "length",
        OutputOf(hex, Unnamed(events), ReasoningOf(events), TextOf(events), NamedBy(hex, events)),
        TextOf(events), BuildUsage(LastUsage(events), 0))
    ensures body.Some? && Injective(hex) ==> Distinct(ResponsesIds.DoneIds(body.value.output))
  {
    if Injective(hex) {
      OutputDistinct(hex, Unnamed(events), ReasoningOf(events), TextOf(events), NamedBy(hex, events));
    }
    hide OutputOf, Injective, Distinct;
    var c := Collect(hex, events);
    reply := Refuse(c, ending, timeoutMessage, events);
    body := None;
    if ending.Eof? && reply.NoReply? {
      var output := BuildResponsesOutput(hex, c.drawn, c.fullText, c.thinking, c.toolCalls);
      body := Some(Object(c.finishReason == "length", output, c.fullText, BuildUsage(c.usage, 0)));
    }
  }

  /* ---- What the streamed items say ---- */

  function CallsIn(items: seq<DoneItem>): seq<Call> {
    if items == [] then [] else
      var last := items[|items| - 1];
      CallsIn(items[..|items| - 1])
      + if last.kind == FunctionCall then [Call(last.callID, last.name, last.text)] else []
  }

  function Items(s: State): seq<DoneItem> { Stored(Close(s).closed) }

  lemma ItemsSnoc(items: seq<DoneItem>, it: DoneItem, kind: Kind)
    ensures TextsOf(items + [it], kind) == TextsOf(items, kind) + if it.kind == kind then it.text else ""
    ensures CallsIn(items + [it])
            == CallsIn(items) + if it.kind == FunctionCall then [Call(it.callID, it.name, it.text)] else []
  {
    assert (items + [it])[..|items|] == items;
  }

  /** A piece either lengthens the last item or adds a new one. */
  lemma PieceItems(s: State, hex: Hex, kind: Kind, callID: string, name: string, text: string)
    ensures var after := Items(WithPiece(s, hex, kind, callID, name, text));
      if Continues(s, kind, callID) then
        var it := Finished(s.open.value);
        && Items(s) == Stored(s.closed) + [it]
        && after == Stored(s.closed) + [it.(text := it.text + text)]
      else
        exists id :: after == Items(s) + [DoneItem(kind, id, callID, name, text)]
  {
    hide Concat, TextsOf, Stored;
    var o := Opened(s, hex, kind, callID, name);
    var it := o.open.value;
    StoredSnoc(o.closed, Extended(it, text), Message);
    if Continues(s, kind, callID) {
      ConcatSnoc(it.chunks, text);
      StoredSnoc(s.closed, it, Message);
    } else {
      ConcatOne(text);
      assert it.chunks + [text] == [text];
      assert Finished(Extended(it, text)) == DoneItem(kind, it.id, callID, name, text);
    }
  }

  lemma PieceTexts(s: State, hex: Hex, kind: Kind, callID: string, name: string, text: string, k: Kind)
    ensures TextsOf(Items(WithPiece(s, hex, kind, callID, name, text)), k)
            == TextsOf(Items(s), k) + if kind == k then text else ""
  {
    hide Items, WithPiece, TextsOf, Stored;
    PieceItems(s, hex, kind, callID, name, text);
    var after := Items(WithPiece(s, hex, kind, callID, name, text));
    if Continues(s, kind, callID) {
      var it := Finished(s.open.value);
      ItemsSnoc(Stored(s.closed), it, k);
      ItemsSnoc(Stored(s.closed), it.(text := it.text + text), k);
      var before := TextsOf(Stored(s.closed), k);
      assert kind == k ==> before + (it.text + text) == before + it.text + text;
    } else {
      var id :| after == Items(s) + [DoneItem(kind, id, callID, name, text)];
      ItemsSnoc(Items(s), DoneItem(kind, id, callID, name, text), k);
    }
  }

  lemma PieceCalls(s: State, hex: Hex, kind: Kind, callID: string, name: string, text: string)
    ensures var before, after := CallsIn(Items(s)), CallsIn(Items(WithPiece(s, hex, kind, callID, name, text)));
      if kind != FunctionCall then after == before
      else if Continues(s, kind, callID) then |after| == |before|
      else after == before + [Call(callID, name, text)]
  {
    hide Items, WithPiece, CallsIn, Stored;
    PieceItems(s, hex, kind, callID, name, text);
    var after := Items(WithPiece(s, hex, kind, callID, name, text));
    if Continues(s, kind, callID) {
      var it := Finished(s.open.value);
      ItemsSnoc(Stored(s.closed), it, kind);
      ItemsSnoc(Stored(s.closed), it.(text := it.text + text), kind);
    } else {
      var id :| after == Items(s) + [DoneItem(kind, id, callID, name, text)];
      ItemsSnoc(Items(s), DoneItem(kind, id, callID, name, text), kind);
    }
  }

  /** Streaming loses and invents no text. */
  lemma {:induction false} TextsAgree(hex: Hex, evs: seq<Event>)
    ensures TextsOf(Items(Fold(hex, evs)), Message) == TextOf(evs)
    ensures TextsOf(Items(Fold(hex, evs)), Reasoning) == ReasoningOf(evs)
  {
    hide Items, WithPiece, TextsOf, Opened;
    if evs == [] {
      assert Items(INITIAL) == [] && TextsOf([], Message) == "" && TextsOf([], Reasoning) == "" by {
        NoItems();
      }
    } else {
      var before := evs[..|evs| - 1];
      TextsAgree(hex, before);
      ContentTexts(Fold(hex, before), hex, evs[|evs| - 1]);
    }
  }

  lemma NoItems()
    ensures Items(INITIAL) == [] && TextsOf([], Message) == "" && TextsOf([], Reasoning) == "" && CallsIn([]) == []
  {
  }

  lemma SameItems(s: State, t: State)
    requires s.closed == t.closed && s.open == t.open
    ensures Items(s) == Items(t)
  {
  }

  lemma ContentTexts(s: State, hex: Hex, ev: Event)
    ensures var before, after := Items(s), Items(Step(s, hex, ev));
      && TextsOf(after, Message) == TextsOf(before, Message) + (match ev case TextDelta(t) => t case _ => "")
      && TextsOf(after, Reasoning) == TextsOf(before, Reasoning) + (match ev case ReasoningDelta(t) => t case _ => "")
  {
    hide Items, WithPiece, TextsOf, Opened;
    var unnamed := ev.ToolCall? && ev.id == "";
    var s1 := s.(created := true, drawn := if unnamed then s.drawn + 1 else s.drawn);
    SameItems(s, s1);
    match ev
    case TextDelta(t) =>
      PieceTexts(s1, hex, Message, "", "", t, Message);
      PieceTexts(s1, hex, Message, "", "", t, Reasoning);
    case ReasoningDelta(t) =>
      PieceTexts(s1, hex, Reasoning, "", "", t, Message);
      PieceTexts(s1, hex, Reasoning, "", "", t, Reasoning);
    case ToolCall(id, name, input) =>
      var callID := if unnamed then "call_" + hex(s.drawn) else id;
      PieceTexts(s1, hex, FunctionCall, callID, name, ToolArgs(input), Message);
      PieceTexts(s1, hex, FunctionCall, callID, name, ToolArgs(input), Reasoning);
      SameItems(WithPiece(s1, hex, FunctionCall, callID, name, ToolArgs(input)), Step(s, hex, ev));
    case _ => SameItems(s, Step(s, hex, ev));
  }

  /* ---- Function calls ---- */

  /** The identifier under which the stream tells of a call. */
  function NameGiven(hex: Hex, before: seq<Event>, id: string): string {
    if id == "" then "call_" + hex(Fold(hex, before).drawn) else id
  }

  /** The upstream's calls in order, under these identifiers. */
  function Assigned(hex: Hex, evs: seq<Event>): seq<Call> {
    if evs == [] then [] else
      var before := evs[..|evs| - 1];
      Assigned(hex, before)
      + match evs[|evs| - 1]
        case ToolCall(id, name, input) => [Call(NameGiven(hex, before, id), name, ToolArgs(input))]
        case _ => []
  }

  lemma {:induction false} AssignedDraws(hex: Hex, evs: seq<Event>)
    ensures Drawn(Assigned(hex, evs), CallsOf(evs), "call_", hex, Fold(hex, evs).drawn)
  {
    hide Drawn, ToolArgs, Step;
    if evs == [] {
      NothingDrawn("call_", hex);
    } else {
      var before, last := evs[..|evs| - 1], evs[|evs| - 1];
      var n, m := Fold(hex, before).drawn, Fold(hex, evs).drawn;
      AssignedDraws(hex, before);
      StepDraws(Fold(hex, before), hex, last);
      if last.ToolCall? {
        var c := Call(last.id, last.name, ToolArgs(last.input));
        DrawnSnoc(Assigned(hex, before), CallsOf(before), "call_", hex, n, c, m);
      } else {
        assert Assigned(hex, evs) == Assigned(hex, before) && CallsOf(evs) == CallsOf(before);
        DrawnLater(Assigned(hex, before), CallsOf(before), "call_", hex, n, m);
      }
    }
  }

  lemma StepDraws(s: State, hex: Hex, ev: Event)
    ensures s.drawn <= Step(s, hex, ev).drawn
    ensures ev.ToolCall? && ev.id == "" ==> s.drawn < Step(s, hex, ev).drawn
  {
    hide ToolArgs;
  }

  /** The identifier of the call that ended the latest content, if a call did. */
  function OpenCall(hex: Hex, evs: seq<Event>): Option<string> {
    if evs == [] then None else
      var before := OpenCall(hex, evs[..|evs| - 1]);
      match evs[|evs| - 1]
      case TextDelta(t) => if t == "" then before else None
      case ReasoningDelta(t) => if t == "" then before else None
      case ToolCall(id, _, _) => Some(NameGiven(hex, evs[..|evs| - 1], id))
      case _ => before
  }

  /** No tool call has the identifier of a call that directly precedes it in the content. */
  predicate NoRepeat(hex: Hex, evs: seq<Event>) {
    evs == [] || (
      var before, last := evs[..|evs| - 1], evs[|evs| - 1];
      && NoRepeat(hex, before)
      && (last.ToolCall? ==> OpenCall(hex, before) != Some(NameGiven(hex, before, last.id))))
  }

  predicate CallIsOpen(s: State, open: Option<string>) {
    if open.None? then s.open.Some? ==> s.open.value.kind != FunctionCall
    else s.open.Some? && s.open.value.kind == FunctionCall && s.open.value.callID == open.value
  }

  lemma ContentCalls(s: State, hex: Hex, ev: Event)
    ensures var before, after := CallsIn(Items(s)), CallsIn(Items(Step(s, hex, ev)));
      if !ev.ToolCall? then after == before
      else
        var id := if ev.id == "" then "call_" + hex(s.drawn) else ev.id;
        if Continues(s, FunctionCall, id) then |after| == |before|
        else after == before + [Call(id, ev.name, ToolArgs(ev.input))]
  {
    hide Items, WithPiece, CallsIn, Opened;
    var unnamed := ev.ToolCall? && ev.id == "";
    var s1 := s.(created := true, drawn := if unnamed then s.drawn + 1 else s.drawn);
    SameItems(s, s1);
    match ev
    case TextDelta(t) => PieceCalls(s1, hex, Message, "", "", t);
    case ReasoningDelta(t) => PieceCalls(s1, hex, Reasoning, "", "", t);
    case ToolCall(id, name, input) =>
      var callID := if unnamed then "call_" + hex(s.drawn) else id;
      PieceCalls(s1, hex, FunctionCall, callID, name, ToolArgs(input));
      SameItems(WithPiece(s1, hex, FunctionCall, callID, name, ToolArgs(input)), Step(s, hex, ev));
    case _ => SameItems(s, Step(s, hex, ev));
  }

  lemma {:induction false} OpenCallTracked(hex: Hex, evs: seq<Event>)
    ensures CallIsOpen(Fold(hex, evs), OpenCall(hex, evs))
  {
    if evs != [] {
      OpenCallTracked(hex, evs[..|evs| - 1]);
    }
  }

  /** The streamed calls are the upstream's calls exactly when no call has the identifier of its direct
      predecessor; otherwise the stream has fewer of them. */
  lemma {:induction false} CallsAgree(hex: Hex, evs: seq<Event>)
    ensures CallsIn(Items(Fold(hex, evs))) == Assigned(hex, evs) <==> NoRepeat(hex, evs)
    ensures |CallsIn(Items(Fold(hex, evs)))| <= |Assigned(hex, evs)|
    ensures !NoRepeat(hex, evs) ==> |CallsIn(Items(Fold(hex, evs)))| < |Assigned(hex, evs)|
  {
    hide Items, CallsIn, Step;
    if evs == [] {
      NoItems();
    } else {
      var before, last := evs[..|evs| - 1], evs[|evs| - 1];
      CallsAgree(hex, before);
      OpenCallTracked(hex, before);
      ContentCalls(Fold(hex, before), hex, last);
    }
  }

  /* ---- Calls without an identifier ---- */

  /** The identifier, as the upstream gave it, of the call that ended the latest content, if a call did. */
  function LatestCall(evs: seq<Event>): Option<string> {
    if evs == [] then None else
      var before := LatestCall(evs[..|evs| - 1]);
      match evs[|evs| - 1]
      case TextDelta(t) => if t == "" then before else None
      case ReasoningDelta(t) => if t == "" then before else None
      case ToolCall(id, _, _) => Some(id)
      case _ => before
  }

  /** The upstream gives no two neighbouring calls one identifier; it may give them none. */
  predicate NoTwins(evs: seq<Event>) {
    evs == [] || (
      var before, last := evs[..|evs| - 1], evs[|evs| - 1];
      NoTwins(before) && (last.ToolCall? && last.id != "" ==> LatestCall(before) != Some(last.id)))
  }

  /** No identifier that the upstream gives is one that the translator could make up. */
  ghost predicate Foreign(hex: Hex, evs: seq<Event>) {
    forall i, k: nat :: 0 <= i < |evs| && evs[i].ToolCall? ==> evs[i].id != "call_" + hex(k)
  }

  lemma {:induction false} LatestIsOpen(hex: Hex, evs: seq<Event>)
    ensures var open, latest := OpenCall(hex, evs), LatestCall(evs);
      && (open.None? <==> latest.None?)
      && (latest.Some? && latest.value != "" ==> open == latest)
      && (latest == Some("") ==> MadeUp(open.value, "call_", hex, Fold(hex, evs).drawn))
  {
    hide Step;
    if evs != [] {
      var before, last := evs[..|evs| - 1], evs[|evs| - 1];
      LatestIsOpen(hex, before);
      StepDraws(Fold(hex, before), hex, last);
      if last.ToolCall? && last.id == "" {
        MadeUpNow("call_", hex, Fold(hex, before).drawn, Fold(hex, evs).drawn);
      } else if LatestCall(before) == Some("") {
        MadeUpLater(OpenCall(hex, before).value, "call_", hex, Fold(hex, before).drawn, Fold(hex, evs).drawn);
      }
    }
  }

  /** A call without an identifier is never merged with the call before it: only twins are. */
  lemma {:induction false} OnlyTwinsRepeat(hex: Hex, evs: seq<Event>)
    requires NamedCalls(evs) || (Injective(hex) && Foreign(hex, evs))
    ensures NoRepeat(hex, evs) <==> NoTwins(evs)
  {
    hide Fold, Injective, OpenCall, LatestCall;
    if evs != [] {
      var before, last := evs[..|evs| - 1], evs[|evs| - 1];
      forall i, k: nat | Foreign(hex, evs) && 0 <= i < |before| && before[i].ToolCall?
        ensures before[i].id != "call_" + hex(k)
      {
        assert evs[i] == before[i];
      }
      OnlyTwinsRepeat(hex, before);
      LatestIsOpen(hex, before);
      if last.ToolCall? && LatestCall(before).Some? {
        LatestForeign(hex, before);
        var open := OpenCall(hex, before).value;
        if last.id == "" && LatestCall(before) == Some("") {
          NotYet(open, "call_", hex, Fold(hex, before).drawn);
        } else if last.id != "" && LatestCall(before) == Some("") {
          var k: nat :| k < Fold(hex, before).drawn && open == "call_" + hex(k);
          assert evs[|evs| - 1].id != "call_" + hex(k);
        }
      }
    }
  }

  lemma {:induction false} LatestForeign(hex: Hex, evs: seq<Event>)
    requires LatestCall(evs).Some?
    ensures exists i :: 0 <= i < |evs| && evs[i].ToolCall? && evs[i].id == LatestCall(evs).value
  {
    var before, last := evs[..|evs| - 1], evs[|evs| - 1];
    if !last.ToolCall? {
      LatestForeign(hex, before);
      var i :| 0 <= i < |before| && before[i].ToolCall? && before[i].id == LatestCall(before).value;
      assert evs[i] == before[i];
    } else {
      assert evs[|evs| - 1].id == LatestCall(evs).value;
    }
  }

  /** Unless the upstream repeats an identifier, the client is told of all calls in order, each an item of
      its own, and those without an identifier under different ones. */
  lemma CallsTold(hex: Hex, evs: seq<Event>)
    requires NamedCalls(evs) || (Injective(hex) && Foreign(hex, evs))
    ensures Told(CallsIn(Items(Fold(hex, evs))), CallsOf(evs), "call_", hex) <==> NoTwins(evs)
  {
    hide Items, CallsIn, Fold, NoRepeat, NoTwins, NamedCalls, Injective, Foreign;
    CallsAgree(hex, evs);
    OnlyTwinsRepeat(hex, evs);
    AssignedDraws(hex, evs);
  }

  /* ---- Status, usage and whether there is an answer at all ---- */

  function CallsSinceUsage(evs: seq<Event>): nat {
    if evs == [] then 0 else
      var before := CallsSinceUsage(evs[..|evs| - 1]);
      match evs[|evs| - 1]
      case ToolCall(_, _, _) => before + 1
      case Finish(_, total, step) => if ReportedUsage(total, step).Some? then 0 else before
      case _ => before
  }

  lemma ContentKeepsBooks(s: State, hex: Hex, kind: Kind, id: string, name: string, text: string)
    ensures var t := WithContent(s, hex, kind, id, name, text);
      && t.created && t.finish == s.finish && t.usage == s.usage
      && t.outputTokens == s.outputTokens && t.failure == s.failure
  {
  }

  lemma {:induction false} Bookkeeping(hex: Hex, evs: seq<Event>)
    ensures var s := Fold(hex, evs);
      && s.finish == (if LastFinish(evs).None? then "" else LastFinish(evs).value)
      && s.usage == (if LastUsage(evs).None? then None else Some(Normalize(LastUsage(evs).value)))
      && s.outputTokens == ReportedOutput(evs) + 20 * CallsSinceUsage(evs)
      && s.failure == LastError(evs)
      && (s.created <==> HasContent(evs))
  {
    hide WithContent, HasContent, ToolArgs;
    NoContent();
    if evs != [] {
      var before, last := evs[..|evs| - 1], evs[|evs| - 1];
      Bookkeeping(hex, before);
      ContentSnoc(evs);
      match last
      case TextDelta(t) => ContentKeepsBooks(Fold(hex, before), hex, Message, "", "", t);
      case ReasoningDelta(t) => ContentKeepsBooks(Fold(hex, before), hex, Reasoning, "", "", t);
      case ToolCall(id, name, input) =>
        ContentKeepsBooks(Fold(hex, before), hex, FunctionCall, id, name, ToolArgs(input));
      case _ =>
    }
  }

  /** The streamed and the buffered reply to the same events. Text and reasoning always agree, and
      so does the status. Both tell of the upstream's calls, in order and with identifiers of their own, unless
      the upstream gives two neighbours one identifier. The usage agrees unless zero output tokens were
      reported and calls followed that report. */
  lemma Agreement(hex: Hex, evs: seq<Event>)
    requires NamedCalls(evs) || (Injective(hex) && Foreign(hex, evs))
    ensures var s := Close(Fold(hex, evs));
      var streamed := FinalOf(s);
      && streamed.outputText == TextOf(evs)
      && TextsOf(streamed.output, Reasoning) == ReasoningOf(evs)
      && (streamed.incomplete <==> FinishOf(evs) == "length")
      && (Told(CallsIn(streamed.output), CallsOf(evs), "call_", hex) <==> NoTwins(evs))
      && Told(NamedBy(hex, evs), CallsOf(evs), "call_", hex)
      && (NamedCalls(evs) ==> (CallsIn(streamed.output) == NamedBy(hex, evs) <==> NoTwins(evs)))
      && (streamed.usage == BuildUsage(LastUsage(evs), 0)
          <==> ReportedOutput(evs) != 0 || CallsSinceUsage(evs) == 0)
  {
    hide CallsOf, CallsIn, NoTwins, NamedBy, CallsSinceUsage, TextsOf, Stored, Fold, Told, NamedCalls, TextOf;
    hide ReasoningOf, BuildUsage, LastFinish, LastUsage, Injective, Foreign, Opened;
    TextsAgree(hex, evs);
    CallsTold(hex, evs);
    UsageAgrees(hex, evs);
    StatusAgrees(hex, evs);
    NamedByTold(hex, evs);
    ToldUpstream(NamedBy(hex, evs), "call_", hex, evs);
    if NoTwins(evs) {
      ToldUpstream(CallsIn(Items(Fold(hex, evs))), "call_", hex, evs);
    }
    ToldSelf(hex, evs);
  }

  lemma ToldSelf(hex: Hex, evs: seq<Event>)
    ensures NamedCalls(evs) ==> Told(CallsOf(evs), CallsOf(evs), "call_", hex)
  {
    hide CallsOf, NamedCalls;
    CallsNamed(evs);
  }

  lemma StatusAgrees(hex: Hex, evs: seq<Event>)
    ensures FinalOf(Close(Fold(hex, evs))).incomplete <==> FinishOf(evs) == "length"
  {
    hide TextsOf, Stored, BuildUsage, Fold, LastFinish, LastUsage, CallsSinceUsage;
    Bookkeeping(hex, evs);
    CloseKeepsBooks(Fold(hex, evs));
  }

  lemma UsageAgrees(hex: Hex, evs: seq<Event>)
    ensures FinalOf(Close(Fold(hex, evs))).usage == BuildUsage(LastUsage(evs), 0)
            <==> ReportedOutput(evs) != 0 || CallsSinceUsage(evs) == 0
  {
    hide TextsOf, Stored, Fold, LastUsage, LastFinish, CallsSinceUsage;
    Bookkeeping(hex, evs);
    CloseKeepsBooks(Fold(hex, evs));
  }

  /** The usage in a reply: what the last finish reports, no input for a report of no output. */
  predicate UsageMeans(told: ResponsesUsage, u: Usage, output: int) {
    && told.output == output
    && told.input == (if u.output == 0 then 0 else u.input)
    && told.cached == (if u.output == 0 then 0 else u.cached)
    && told.cacheWrite == (if u.details.Some? then u.details.value.cacheWrite else 0)
    && told.total == told.input + told.output
  }

  lemma UsageMeant(u: Usage, fallback: int)
    ensures UsageMeans(BuildUsage(Some(u), fallback), u, if u.output != 0 then u.output else fallback)
    ensures UsageMeans(BuildUsage(Some(Normalize(u)), fallback), u, if u.output != 0 then u.output else fallback)
    ensures UsageMeans(BuildUsage(None, fallback), NO_USAGE, fallback)
  {
  }

  /** The usage of the buffered reply. */
  lemma BufferedUsageTold(evs: seq<Event>)
    ensures var u := if LastUsage(evs).None? then NO_USAGE else LastUsage(evs).value;
      UsageMeans(BuildUsage(LastUsage(evs), 0), u, u.output)
  {
    hide LastUsage, BuildUsage, UsageMeans;
    UsageMeant(if LastUsage(evs).None? then NO_USAGE else LastUsage(evs).value, 0);
  }

  /** How the stream ends: the response is incomplete exactly if the last finish says that the answer was cut,
      its text is that of the events, and its usage what they report, or 20 tokens for each call since. */
  lemma EndTold(hex: Hex, evs: seq<Event>, ending: Ending, timeoutMessage: string)
    ensures var all := AllBodies(Fold(hex, evs), ending, timeoutMessage);
      all != [] ==>
        var last := all[|all| - 1];
        match ending
        case Cancelled => !last.Final? && !last.Failed? && !last.ErrorEvent?
        case Idle => last == ErrorEvent("rate_limit_error", timeoutMessage)
        case Broken(message) => last == ErrorEvent("proxy_error", message)
        case Eof =>
          if LastError(evs).Some? then last == Failed(LastError(evs).value.message)
          else
            var u := if LastUsage(evs).None? then NO_USAGE else LastUsage(evs).value;
            && last.Final?
            && (last.incomplete <==> LastFinish(evs) == Some("length"))
            && last.outputText == TextOf(evs)
            && UsageMeans(last.usage, u, if u.output != 0 then u.output else 20 * CallsSinceUsage(evs))
  {
    hide Fold, TextsOf, Stored, TextOf, CallsSinceUsage, Bodies, UsageMeans, BuildUsage;
    var s := Fold(hex, evs);
    TextsAgree(hex, evs);
    Bookkeeping(hex, evs);
    CloseKeepsBooks(s);
    UsageMeant(if LastUsage(evs).None? then NO_USAGE else LastUsage(evs).value, s.outputTokens);
    if ending.Cancelled? {
      NoEnd(Close(s));
    }
  }

  /** No frame of an item ends the stream. */
  lemma NoEnd(s: State)
    ensures Bodies(s) != [] ==>
      var last := Bodies(s)[|Bodies(s)| - 1]; !last.Final? && !last.Failed? && !last.ErrorEvent?
  {
  }

  lemma TextItemReads(head: seq<DoneItem>, kind: Kind, hex: Hex, drawn: nat, text: string)
    requires kind != FunctionCall
    ensures var out := head + TextItem(kind, hex, drawn, text);
      && TextsOf(out, kind) == TextsOf(head, kind) + text
      && (forall k :: k != kind ==> TextsOf(out, k) == TextsOf(head, k))
      && CallsIn(out) == CallsIn(head)
  {
    if text == "" {
      assert head + [] == head;
    } else {
      forall k ensures TextsOf(head + TextItem(kind, hex, drawn, text), k)
                       == TextsOf(head, k) + if k == kind then text else "" {
        ItemsSnoc(head, TextItem(kind, hex, drawn, text)[0], k);
      }
      ItemsSnoc(head, TextItem(kind, hex, drawn, text)[0], kind);
    }
  }

  /** Reasoning comes before the message, and the message before the calls; no text is empty. */
  predicate Orderly(items: seq<DoneItem>) {
    && (forall i, j :: 0 <= i < j < |items| && items[j].kind == Reasoning ==> items[i].kind == Reasoning)
    && (forall i, j :: 0 <= i < j < |items| && items[i].kind == FunctionCall ==> items[j].kind == FunctionCall)
    && (forall i :: 0 <= i < |items| ==> items[i].text != "")
  }

  lemma OutputOrder(hex: Hex, drawn: nat, thinking: string, text: string, calls: seq<Call>)
    ensures Orderly(OutputOf(hex, drawn, thinking, text, calls))
  {
    hide CallItems;
    var h := |TextItem(Reasoning, hex, drawn, thinking)|;
    h := h + |TextItem(Message, hex, drawn + h, text)|;
    CallItemIds(hex, drawn + h, calls);
    assert |"{}"| == 2;
  }

  /** The buffered output list, read the way a client reads a streamed one. */
  lemma BufferedItems(hex: Hex, drawn: nat, thinking: string, text: string, calls: seq<Call>)
    requires forall i :: 0 <= i < |calls| ==> calls[i].args != ""
    ensures var out := OutputOf(hex, drawn, thinking, text, calls);
      && TextsOf(out, Message) == text && TextsOf(out, Reasoning) == thinking && CallsIn(out) == calls
      && Orderly(out)
  {
    hide TextsOf, CallsIn, CallItems, TextItem, Orderly;
    OutputOrder(hex, drawn, thinking, text, calls);
    var r := TextItem(Reasoning, hex, drawn, thinking);
    var m := TextItem(Message, hex, drawn + |r|, text);
    NoItems();
    TextItemReads([], Reasoning, hex, drawn, thinking);
    TextItemReads(r, Message, hex, drawn + |r|, text);
    assert [] + r == r;
    BufferedCalls(hex, drawn + |r| + |m|, r + m, calls);
  }

  lemma {:induction false} BufferedCalls(hex: Hex, drawn: nat, head: seq<DoneItem>, calls: seq<Call>)
    requires forall i :: 0 <= i < |calls| ==> calls[i].args != ""
    requires CallsIn(head) == []
    ensures var out := head + CallItems(hex, drawn, calls);
      && TextsOf(out, Message) == TextsOf(head, Message)
      && TextsOf(out, Reasoning) == TextsOf(head, Reasoning)
      && CallsIn(out) == calls
  {
    if calls == [] {
      assert head + [] == head;
    } else {
      var before, c := calls[..|calls| - 1], calls[|calls| - 1];
      BufferedCalls(hex, drawn, head, before);
      var it := DoneItem(FunctionCall, "fc_" + hex(drawn + |before|), c.id, c.name, c.args);
      var most := head + CallItems(hex, drawn, before);
      assert head + CallItems(hex, drawn, calls) == most + [it];
      ItemsSnoc(most, it, Message);
      ItemsSnoc(most, it, Reasoning);
    }
  }

  /** Whether both forms answer with the same JSON error, or neither with one. A failure that comes after
      content is told by the stream in a frame, so they do only if there was none. A clean end is answered
      alike unless the upstream reports output tokens without any content: then only the buffered form
      refuses. */
  lemma RepliesAgree(hex: Hex, evs: seq<Event>, ending: Ending, timeoutMessage: string)
    ensures ReplyOf(Fold(hex, evs), ending, timeoutMessage) == BufferedReply(evs, ending, timeoutMessage) <==>
      match ending
      case Cancelled => true
      case Eof => if LastError(evs).Some? then !HasContent(evs) else HasContent(evs) || ReportedOutput(evs) == 0
      case _ => !HasContent(evs)
  {
    hide HasContent, ReportedOutput, CallsSinceUsage, Fold;
    Bookkeeping(hex, evs);
    NoCallsWithoutContent(evs);
  }

  lemma {:induction false} NoCallsWithoutContent(evs: seq<Event>)
    ensures !HasContent(evs) ==> CallsSinceUsage(evs) == 0
  {
    if evs != [] {
      NoCallsWithoutContent(evs[..|evs| - 1]);
    }
  }

  /** Two neighbouring calls with one identifier become a single streamed call. */
  lemma RepeatMerges(hex: Hex)
    ensures var call := ToolCall("c1", "f", JsonText("[1]"));
      && NamedCalls([call, call])
      && CallsIn(Items(Fold(hex, [call, call]))) != CallsOf([call, call])
  {
    var call := ToolCall("c1", "f", JsonText("[1]"));
    var evs := [call, call];
    assert evs[..1] == [call] && evs[..1][..0] == [];
    assert OpenCall(hex, evs[..1]) == Some("c1");
    assert NameGiven(hex, evs[..1], "c1") == "c1" && !NoRepeat(hex, evs);
    AssignedDraws(hex, evs);
    CallsNamed(evs);
    ToldAll(Assigned(hex, evs), CallsOf(evs), "call_", hex);
    CallsAgree(hex, evs);
  }

  /** A call after a report of zero output tokens: the stream counts 20 tokens, the buffered form none. */
  lemma UsageCanDiffer(hex: Hex)
    ensures var evs := [Finish("stop", Some(Usage(3, 0, 0, None)), None), ToolCall("c1", "f", JsonText("[1]"))];
      && FinalOf(Close(Fold(hex, evs))).usage.output == 20
      && BuildUsage(LastUsage(evs), 0).output == 0
  {
    var finish, call := Finish("stop", Some(Usage(3, 0, 0, None)), None), ToolCall("c1", "f", JsonText("[1]"));
    var evs := [finish, call];
    assert evs[..1] == [finish] && evs[..1][..0] == [];
    assert LastUsage(evs[..1]) == Some(Usage(3, 0, 0, None)) && CallsSinceUsage(evs[..1]) == 0;
    assert LastUsage(evs) == Some(Usage(3, 0, 0, None)) && CallsSinceUsage(evs) == 1;
    hide LastUsage, CallsSinceUsage, Fold, TextsOf, Stored;
    Bookkeeping(hex, evs);
    CloseKeepsBooks(Fold(hex, evs));
  }

  lemma CloseKeepsBooks(s: State)
    ensures Close(s).usage == s.usage && Close(s).outputTokens == s.outputTokens && Close(s).finish == s.finish
  {
  }

  /** Tokens without content: the stream ends normally, and the buffered form refuses. */
  lemma RepliesCanDiffer(hex: Hex, timeoutMessage: string)
    ensures var evs := [Finish("stop", Some(Usage(3, 5, 0, None)), None)];
      && ReplyOf(Fold(hex, evs), Eof, timeoutMessage) == NoReply
      && BufferedReply(evs, Eof, timeoutMessage) == JsonError(EMPTY_ERROR)
  {
    var evs := [Finish("stop", Some(Usage(3, 5, 0, None)), None)];
    assert evs[..0] == [];
    assert LastUsage(evs) == Some(Usage(3, 5, 0, None)) && CallsSinceUsage(evs) == 0;
    Bookkeeping(hex, evs);
  }
}
