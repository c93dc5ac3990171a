/** anthropic.go: the buffered reply, and how far it agrees with the streamed one. */
module AnthropicAgreement {
  import opened Text
  import opened Upstream
  import opened Buffered
  import opened Identifiers
  import opened AnthropicModel
  import opened AnthropicClient
  import Json
  import JsonCompact

  /* ---- The buffered reply ---- */

  datatype Content = Thinking(text: string, signature: string) | Written(text: string) | ToolUse(call: Call)

  datatype Object = Object(content: seq<Content>, stopReason: string, usage: DeltaUsage)

  function Trimmed(c: Call): Call { c.(args := TrimmedArgs(c)) }

  function ToolContent(calls: seq<Call>): seq<Content> {
    seq(|calls|, i requires 0 <= i < |calls| => ToolUse(Trimmed(calls[i])))
  }

  function TextContent(sign: Sign, thinking: string, text: string): seq<Content> {
    (if thinking == "" then [] else [Thinking(thinking, sign(thinking))])
    + if text == "" then [] else [Written(text)]
  }

  /** The content before it is encoded. */
  function ContentOf(sign: Sign, thinking: string, text: string, calls: seq<Call>): seq<Content> {
    TextContent(sign, thinking, text) + ToolContent(calls)
  }

  /** The content as it is sent. */
  function SentContent(sign: Sign, thinking: string, text: string, calls: seq<Call>): seq<Content> {
    TextContent(sign, thinking, text)
    + seq(|calls|, i requires 0 <= i < |calls| => ToolUse(SentCall(calls[i])))
  }

  function BufferedUsage(usage: Option<Usage>, thinking: string, text: string, calls: seq<Call>): DeltaUsage {
    var u := Normalize(if usage.None? then NO_USAGE else usage.value);
    var guess := (|text| + |thinking|) / 4 + |calls| * 20;
    DeltaUsage(if u.output != 0 then u.output else if guess < 1 then 1 else guess,
               CacheRead(u), CacheWrite(u), AnthropicInputTokens(u))
  }

  /* ---- What a content list says ---- */

  function WrittenIn(content: seq<Content>): string {
    if content == [] then "" else
      var last := content[|content| - 1];
      WrittenIn(content[..|content| - 1]) + if last.Written? then last.text else ""
  }

  function ThoughtIn(content: seq<Content>): string {
    if content == [] then "" else
      var last := content[|content| - 1];
      ThoughtIn(content[..|content| - 1]) + if last.Thinking? then last.text else ""
  }

  function UsesIn(content: seq<Content>): seq<Call> {
    if content == [] then [] else
      var last := content[|content| - 1];
      UsesIn(content[..|content| - 1]) + if last.ToolUse? then [last.call] else []
  }

  /** Every thought is signed, no part is empty, and thoughts precede texts, which precede tools. */
  predicate Orderly(sign: Sign, content: seq<Content>) {
    && (forall i :: 0 <= i < |content| && content[i].Thinking? ==> content[i].signature == sign(content[i].text))
    && (forall i :: 0 <= i < |content| && !content[i].ToolUse? ==> content[i].text != "")
    && (forall i, j :: 0 <= i < j < |content| && content[j].Thinking? ==> content[i].Thinking?)
    && (forall i, j :: 0 <= i < j < |content| && content[i].ToolUse? ==> content[j].ToolUse?)
  }

  /** The uses are these calls, in order, each with a JSON text for what the trimmed arguments mean. */
  predicate UsesMean(uses: seq<Call>, calls: seq<Call>) {
    |uses| == |calls|
    && forall i :: 0 <= i < |calls| ==>
      && uses[i].id == calls[i].id && uses[i].name == calls[i].name
      && Json.Parse(uses[i].args).Some?
      && Json.Parse(uses[i].args) == Json.Parse(Trim(calls[i].args))
  }

  lemma PartSnoc(content: seq<Content>, c: Content)
    ensures WrittenIn(content + [c]) == WrittenIn(content) + if c.Written? then c.text else ""
    ensures ThoughtIn(content + [c]) == ThoughtIn(content) + if c.Thinking? then c.text else ""
    ensures UsesIn(content + [c]) == UsesIn(content) + if c.ToolUse? then [c.call] else []
  {
    assert (content + [c])[..|content|] == content;
  }

  lemma TextSays(sign: Sign, thinking: string, text: string)
    ensures var content := TextContent(sign, thinking, text);
      WrittenIn(content) == text && ThoughtIn(content) == thinking && UsesIn(content) == []
  {
    hide WrittenIn, ThoughtIn, UsesIn;
    NothingSaid();
    var t, w := Thinking(thinking, sign(thinking)), Written(text);
    var head := if thinking == "" then [] else [t];
    assert [] + [t] == [t] && head + [] == head;
    PartSnoc([], t);
    PartSnoc(head, w);
  }

  lemma NothingSaid()
    ensures WrittenIn([]) == "" && ThoughtIn([]) == "" && UsesIn([]) == []
  {
  }

  lemma {:induction false} UsesSay(head: seq<Content>, calls: seq<Call>)
    ensures var tools := seq(|calls|, i requires 0 <= i < |calls| => ToolUse(SentCall(calls[i])));
      && WrittenIn(head + tools) == WrittenIn(head) && ThoughtIn(head + tools) == ThoughtIn(head)
      && UsesIn(head + tools)
         == UsesIn(head) + seq(|calls|, i requires 0 <= i < |calls| => SentCall(calls[i]))
  {
    hide SentCall;
    var tools := seq(|calls|, i requires 0 <= i < |calls| => ToolUse(SentCall(calls[i])));
    if calls == [] {
      assert head + tools == head;
    } else {
      var n := |calls| - 1;
      UsesSay(head, calls[..n]);
      var most := seq(n, i requires 0 <= i < n => ToolUse(SentCall(calls[..n][i])));
      assert head + tools == head + most + [ToolUse(SentCall(calls[n]))];
      PartSnoc(head + most, ToolUse(SentCall(calls[n])));
    }
  }

  /** A client reads the text, the thinking and the calls off the content that is sent. */
  lemma ContentSays(sign: Sign, thinking: string, text: string, calls: seq<Call>)
    requires AllJson(calls) && forall i :: 0 <= i < |calls| ==> Trim(calls[i].args) != ""
    ensures var content := SentContent(sign, thinking, text, calls);
      && Orderly(sign, content) && WrittenIn(content) == text && ThoughtIn(content) == thinking
      && UsesMean(UsesIn(content), calls)
  {
    hide Json.Parse, SentCall, Trim, TrimmedArgs, WrittenIn, ThoughtIn, UsesIn;
    TextSays(sign, thinking, text);
    UsesSay(TextContent(sign, thinking, text), calls);
    forall i | 0 <= i < |calls|
      ensures Json.Parse(SentCall(calls[i]).args).Some?
      ensures Json.Parse(SentCall(calls[i]).args) == Json.Parse(Trim(calls[i].args))
      ensures SentCall(calls[i]).id == calls[i].id && SentCall(calls[i]).name == calls[i].name
    {
      ArgumentsSent(calls[i]);
      SentValue(calls[i]);
    }
  }

  lemma SentValue(c: Call)
    requires Trim(c.args) != ""
    ensures TrimmedArgs(c) == Trim(c.args) && SentCall(c).id == c.id && SentCall(c).name == c.name
  {
  }

  /** messagesNonStream: reads everything, then answers once. The body embeds the arguments of the calls as
      JSON; if they are not, the answer is an encode error. */
  method NonStream(hex: Hex, sign: Sign, events: seq<Event>, ending: Ending, timeoutMessage: string)
    returns (reply: Reply, body: Option<Object>)
    ensures reply == EmbeddedReply(events, ending, timeoutMessage)
    ensures body.Some? <==> ending.Eof? && LastError(events).None? && HasContent(events) && AllJson(CallsOf(events))
    ensures body.Some? ==>
      body.value == Object(
        SentContent(sign, ReasoningOf(events), TextOf(events), NamedBy(hex, events)),
        MapAnthropicStopReason(FinishOf(events)),
        BufferedUsage(LastUsage(events), ReasoningOf(events), TextOf(events), NamedBy(hex, events)))
    ensures body.Some? ==>
      && Orderly(sign, body.value.content)
      && WrittenIn(body.value.content) == TextOf(events) && ThoughtIn(body.value.content) == ReasoningOf(events)
      && UsesMean(UsesIn(body.value.content), NamedBy(hex, events))
      && Told(NamedBy(hex, events), CallsOf(events), "call_", hex)
  {
    hide AllJson, SentContent, ContentOf, Orderly, WrittenIn, ThoughtIn, UsesIn, UsesMean, Told, Trim;
    NamedByTold(hex, events);
    ArgumentsNotBlank(hex, events);
    var c := Collect(hex, events);
    reply := Refuse(c, ending, timeoutMessage, events);
    body := None;
    if ending.Eof? && reply.NoReply? {
      var content := BuildContent(sign, c.fullText, c.thinking, c.toolCalls);
      var u := Normalize(if c.usage.None? then NO_USAGE else c.usage.value);
      var estOut := u.output;
      if estOut == 0 {
        estOut := (|c.fullText| + |c.thinking|) / 4 + |c.toolCalls| * 20;
        if estOut < 1 {
          estOut := 1;
        }
      }
      NamedJson(hex, events);
      var sent := Encode(sign, content, c.thinking, c.fullText, c.toolCalls);
      if sent.None? {
        return JsonError(ENCODE_ERROR), None;
      }
      ContentSays(sign, c.thinking, c.fullText, c.toolCalls);
      body := Some(Object(sent.value, MapAnthropicStopReason(c.finishReason),
                          DeltaUsage(estOut, CacheRead(u), CacheWrite(u), AnthropicInputTokens(u))));
    }
  }

  lemma {:induction false} ArgumentsNotBlank(hex: Hex, evs: seq<Event>)
    ensures forall i :: 0 <= i < |NamedBy(hex, evs)| ==> Trim(NamedBy(hex, evs)[i].args) != ""
  {
    hide Trim, ToolArgs;
    if evs != [] {
      ArgumentsNotBlank(hex, evs[..|evs| - 1]);
    }
  }

  /** writeJSON, for the content: it encodes each embedded text, or fails. */
  method Encode(ghost sign: Sign, content: seq<Content>, ghost thinking: string, ghost text: string,
                ghost calls: seq<Call>)
    returns (sent: Option<seq<Content>>)
    requires content == ContentOf(sign, thinking, text, calls)
    ensures sent.Some? <==> AllJson(calls)
    ensures sent.Some? ==> sent.value == SentContent(sign, thinking, text, calls)
  {
    hide Json.Parse, JsonCompact.Compact, TrimmedArgs;
    ghost var texts := TextContent(sign, thinking, text);
    ghost var all := SentContent(sign, thinking, text, calls);
    var out: seq<Content> := [];
    for i := 0 to |content|
      invariant |out| == i && forall k :: 0 <= k < i ==> out[k] == all[k]
      invariant forall k :: 0 <= k < i - |texts| ==> Json.Parse(TrimmedArgs(calls[k])).Some?
    {
      var part := content[i];
      if part.ToolUse? {
        assert part == ToolUse(Trimmed(calls[i - |texts|]));
        var raw := JsonCompact.MarshalRaw(part.call.args, false);
        if raw.None? {
          return None;
        }
        part := ToolUse(part.call.(args := raw.value));
      }
      out := out + [part];
    }
    return Some(out);
  }

  method BuildContent(sign: Sign, fullText: string, thinking: string, toolCalls: seq<Call>)
    returns (content: seq<Content>)
    ensures content == ContentOf(sign, thinking, fullText, toolCalls)
  {
    hide Trim;
    content := [];
    if thinking != "" {
      content := content + [Thinking(thinking, sign(thinking))];
    }
    if fullText != "" {
      content := content + [Written(fullText)];
    }
    ghost var head := content;
    assert head == TextContent(sign, thinking, fullText);
    for i := 0 to |toolCalls|
      invariant content == head + ToolContent(toolCalls[..i])
    {
      var tc := toolCalls[i];
      var args := Trim(tc.args);
      if args == "" {
        args := "{}";
      }
      content := content + [ToolUse(tc.(args := args))];
      assert ToolContent(toolCalls[..i + 1]) == ToolContent(toolCalls[..i]) + [ToolUse(Trimmed(tc))];
    }
    assert toolCalls[..|toolCalls|] == toolCalls;
  }

  /* ---- What the streamed blocks say ---- */

  function TextsIn(blocks: seq<Done>, kind: Kind): string {
    if blocks == [] then "" else
      var last := blocks[|blocks| - 1];
      TextsIn(blocks[..|blocks| - 1], kind) + if last.kind == kind then last.text else ""
  }

  function ToolsIn(blocks: seq<Done>): seq<Call> {
    if blocks == [] then [] else
      var last := blocks[|blocks| - 1];
      ToolsIn(blocks[..|blocks| - 1]) + if last.kind == ToolBlock then [Call(last.id, last.name, last.text)] else []
  }

  function Blocks(s: State): seq<Done> { Stored(Close(s).closed) }

  lemma BlocksSnoc(blocks: seq<Done>, b: Done, kind: Kind)
    ensures TextsIn(blocks + [b], kind) == TextsIn(blocks, kind) + if b.kind == kind then b.text else ""
    ensures ToolsIn(blocks + [b]) == ToolsIn(blocks) + if b.kind == ToolBlock then [Call(b.id, b.name, b.text)] else []
  {
    assert (blocks + [b])[..|blocks|] == blocks;
  }

  lemma StoredSnoc(blocks: seq<Block>, b: Block)
    ensures Stored(blocks + [b]) == Stored(blocks) + [Finished(b)]
  {
    assert (blocks + [b])[..|blocks|] == blocks;
  }

  lemma PieceBlocks(s: State, kind: Kind, text: string, k: Kind)
    requires kind != ToolBlock
    ensures var before, after := Blocks(s), Blocks(WithPiece(s, kind, text));
      && TextsIn(after, k) == TextsIn(before, k) + (if k == kind then text else "")
      && ToolsIn(after) == ToolsIn(before)
  {
    hide Concat, TextsIn, ToolsIn, Stored;
    var o := Opened(s.(begun := true), kind);
    var b := o.open.value;
    StoredSnoc(o.closed, Extended(b, text));
    BlocksSnoc(Stored(o.closed), Finished(Extended(b, text)), k);
    ConcatSnoc(b.chunks, text);
    if s.open.Some? && s.open.value.kind == kind {
      StoredSnoc(s.closed, b);
      BlocksSnoc(Stored(s.closed), Finished(b), k);
      var x, y := TextsIn(Stored(s.closed), k), Concat(b.chunks);
      assert x + (y + text) == x + y + text;
    } else {
      ConcatNone();
      assert "" + text == text;
    }
  }

  lemma ToolBlocks(s: State, hex: Hex, id: string, name: string, args: string, k: Kind)
    requires k != ToolBlock
    ensures var before, after := Blocks(s), Blocks(WithTool(s, hex, id, name, args));
      && TextsIn(after, k) == TextsIn(before, k)
      && ToolsIn(after) == ToolsIn(before) + [Call(if id == "" then "toolu_" + hex(s.drawn) else id, name, args)]
  {
    hide Concat, TextsIn, ToolsIn, Stored;
    var b := Block(ToolBlock, if id == "" then "toolu_" + hex(s.drawn) else id, name, [args]);
    StoredSnoc(Close(s).closed, b);
    BlocksSnoc(Blocks(s), Finished(b), k);
    ConcatOne(args);
    assert TextsIn(Blocks(s), k) + "" == TextsIn(Blocks(s), k);
  }

  lemma SameBlocks(s: State, t: State)
    requires s.closed == t.closed && s.open == t.open
    ensures Blocks(s) == Blocks(t)
  {
  }

  lemma NoBlocks()
    ensures Blocks(INITIAL) == [] && TextsIn([], TextBlock) == "" && TextsIn([], ThinkingBlock) == ""
    ensures ToolsIn([]) == []
  {
  }

  lemma StepBlocks(s: State, hex: Hex, ev: Event)
    ensures var before, after := Blocks(s), Blocks(Step(s, hex, ev));
      && TextsIn(after, TextBlock) == TextsIn(before, TextBlock) + (match ev case TextDelta(t) => t case _ => "")
      && TextsIn(after, ThinkingBlock)
         == TextsIn(before, ThinkingBlock) + (match ev case ReasoningDelta(t) => t case _ => "")
      && ToolsIn(after) == ToolsIn(before)
         + (match ev
            case ToolCall(id, name, input) =>
              [Call(if id == "" then "toolu_" + hex(s.drawn) else id, name, ToolArgs(input))]
            case _ => [])
  {
    hide Blocks, WithPiece, WithTool, TextsIn, ToolsIn;
    match ev
    case TextDelta(t) =>
      if t != "" {
        PieceBlocks(s, TextBlock, t, TextBlock);
        PieceBlocks(s, TextBlock, t, ThinkingBlock);
        SameBlocks(WithPiece(s, TextBlock, t), Step(s, hex, ev));
      }
    case ReasoningDelta(t) =>
      if t != "" {
        PieceBlocks(s, ThinkingBlock, t, TextBlock);
        PieceBlocks(s, ThinkingBlock, t, ThinkingBlock);
      }
    case ToolCall(id, name, input) =>
      ToolBlocks(s, hex, id, name, ToolArgs(input), TextBlock);
      ToolBlocks(s, hex, id, name, ToolArgs(input), ThinkingBlock);
    case _ => SameBlocks(s, Step(s, hex, ev));
  }

  /** Streaming loses and invents no text, no thinking and no call. */
  lemma {:induction false} BlocksAgree(hex: Hex, evs: seq<Event>)
    ensures TextsIn(Blocks(Fold(hex, evs)), TextBlock) == TextOf(evs)
    ensures TextsIn(Blocks(Fold(hex, evs)), ThinkingBlock) == ReasoningOf(evs)
    ensures Drawn(ToolsIn(Blocks(Fold(hex, evs))), CallsOf(evs), "toolu_", hex, Fold(hex, evs).drawn)
  {
    hide Blocks, Step, TextsIn, ToolsIn, Drawn, ToolArgs;
    if evs == [] {
      NoBlocks();
      NothingDrawn("toolu_", hex);
    } else {
      var before, last := evs[..|evs| - 1], evs[|evs| - 1];
      BlocksAgree(hex, before);
      StepBlocks(Fold(hex, before), hex, last);
      var said, n, m := ToolsIn(Blocks(Fold(hex, before))), Fold(hex, before).drawn, Fold(hex, evs).drawn;
      StepDraws(Fold(hex, before), hex, last);
      if last.ToolCall? {
        var c := Call(last.id, last.name, ToolArgs(last.input));
        DrawnSnoc(said, CallsOf(before), "toolu_", hex, n, c, m);
        assert CallsOf(evs) == CallsOf(before) + [c];
        assert ToolsIn(Blocks(Fold(hex, evs))) == said + [c.(id := if c.id == "" then "toolu_" + hex(n) else c.id)];
      } else {
        assert CallsOf(evs) == CallsOf(before) && ToolsIn(Blocks(Fold(hex, evs))) == said;
        DrawnLater(said, CallsOf(before), "toolu_", hex, n, m);
      }
    }
  }

  lemma StepDraws(s: State, hex: Hex, ev: Event)
    ensures s.drawn <= Step(s, hex, ev).drawn
    ensures ev.ToolCall? && ev.id == "" ==> s.drawn < Step(s, hex, ev).drawn
  {
    hide ToolArgs, Normalize, CacheRead, CacheWrite;
  }

  /* ---- The stop reason ---- */

  /** The last non-empty reason given by a `finish` or a `finish-step`. */
  function LastReason(evs: seq<Event>): string {
    if evs == [] then "" else
      var before := LastReason(evs[..|evs| - 1]);
      match evs[|evs| - 1]
      case Finish(reason, _, _) => if reason == "" then before else reason
      case FinishStep(reason, _, _) => if reason == "" then before else reason
      case _ => before
  }

  /** The three ways an upstream reason can read: a tool call, a cut, or anything else. */
  datatype StopClass = ToolStop | LengthStop | OtherStop

  function ClassOf(reason: string): StopClass {
    if reason == "tool-calls" || reason == "tool_calls" then ToolStop
    else if reason == "length" then LengthStop
    else OtherStop
  }

  /** A `finish` with a reason closes the events, except for events that are no `finish-step`. */
  predicate FinishHasTheLastWord(evs: seq<Event>) {
    evs != [] &&
    match evs[|evs| - 1]
    case Finish(reason, _, _) => reason != ""
    case FinishStep(_, _, _) => false
    case _ => FinishHasTheLastWord(evs[..|evs| - 1])
  }

  lemma {:induction false} LastWord(evs: seq<Event>)
    requires FinishHasTheLastWord(evs)
    ensures LastFinish(evs) == Some(LastReason(evs))
  {
    if !evs[|evs| - 1].Finish? {
      LastWord(evs[..|evs| - 1]);
    }
  }

  lemma StopReasonClass(reason: string)
    ensures MapAnthropicStopReason(MapFinishReason(reason))
            == match ClassOf(reason)
               case ToolStop => "tool_use"
               case LengthStop => "max_tokens"
               case OtherStop => "end_turn"
  {
  }

  lemma {:induction false} StopReasonTracked(hex: Hex, evs: seq<Event>)
    ensures Fold(hex, evs).stopReason
            == if LastReason(evs) == "" then "" else MapAnthropicStopReason(MapFinishReason(LastReason(evs)))
  {
    hide Opened, Close, Normalize;
    if evs != [] {
      StopReasonTracked(hex, evs[..|evs| - 1]);
      StepKeepsReason(Fold(hex, evs[..|evs| - 1]), hex, evs[|evs| - 1]);
    }
  }

  lemma StepKeepsReason(s: State, hex: Hex, ev: Event)
    ensures !ev.Finish? && !ev.FinishStep? ==> Step(s, hex, ev).stopReason == s.stopReason
  {
  }

  /* ---- Agreement ---- */

  /** The streamed and the buffered reply to the same events, for any endings and any reasons.
      Text, thinking and the tool calls agree; but the buffered form answers with an encode error
      unless every call's arguments are JSON. The stop reasons agree exactly when the last reason of any
      kind and the reason of the last `finish` read alike. */
  lemma Agreement(hex: Hex, sign: Sign, evs: seq<Event>, timeoutMessage: string)
    requires LastError(evs).None? && HasContent(evs)
    ensures var c := Follow(NEW_CLIENT, sign, AllFrames(Fold(hex, evs), sign, Eof, timeoutMessage));
      && c.Client? && c.stage == Ended
      && TextsIn(c.blocks, TextBlock) == TextOf(evs)
      && TextsIn(c.blocks, ThinkingBlock) == ReasoningOf(evs)
      && Told(ToolsIn(c.blocks), CallsOf(evs), "toolu_", hex)
      && (NamedCalls(evs) ==> ToolsIn(c.blocks) == NamedBy(hex, evs))
      && (c.stopReason == MapAnthropicStopReason(FinishOf(evs))
          <==> ClassOf(LastReason(evs)) == ClassOf(if LastFinish(evs).None? then "" else LastFinish(evs).value))
      && (EmbeddedReply(evs, Eof, timeoutMessage) == NoReply <==> AllJson(CallsOf(evs)))
      && (FinishHasTheLastWord(evs) ==> c.stopReason == MapAnthropicStopReason(FinishOf(evs)))
  {
    hide Follow, AllFrames, Fold, Stored, Close, TextsIn, ToolsIn, NamedBy, NamedCalls;
    var s := Fold(hex, evs);
    if NamedCalls(evs) {
      NamedByUpstream(hex, evs);
    }
    Bookkeeping(hex, evs);
    BegunAll(s, sign, timeoutMessage);
    AllFollowed(sign, hex, evs, Eof, timeoutMessage);
    BlocksAgree(hex, evs);
    ToldUpstream(ToolsIn(Stored(Close(s).closed)), "toolu_", hex, evs);
    StopReasonTracked(hex, evs);
    StopReasonClass(LastReason(evs));
    StopReasonClass(if LastFinish(evs).None? then "stop" else LastFinish(evs).value);
    if FinishHasTheLastWord(evs) {
      LastWord(evs);
    }
  }

  /* ---- The usage ---- */

  /** The usage that an event reports. */
  function UsageIn(ev: Event): Option<Usage> {
    if !ev.Finish? && !ev.FinishStep? then None
    else if ev.totalUsage.Some? then ev.totalUsage
    else ev.stepUsage
  }

  /** The last usage that a finish or a finish-step reports. */
  function LastReport(evs: seq<Event>): Option<Usage> {
    if evs == [] then None
    else if UsageIn(evs[|evs| - 1]).Some? then UsageIn(evs[|evs| - 1])
    else LastReport(evs[..|evs| - 1])
  }

  /** The last count of input tokens outside of any cache; -1 if none is reported. */
  function LastNoCache(evs: seq<Event>): int {
    if evs == [] then -1 else
      match UsageIn(evs[|evs| - 1])
      case Some(Usage(_, _, _, Some(InputTokenDetails(Some(n), _, _)))) => n
      case _ => LastNoCache(evs[..|evs| - 1])
  }

  /** One token for a text, 20 for a call, until a report says better. */
  function OutputCount(evs: seq<Event>): int {
    if evs == [] then 0 else
      var ev, before := evs[|evs| - 1], OutputCount(evs[..|evs| - 1]);
      if ev.TextDelta? && ev.text != "" then before + 1
      else if ev.ToolCall? then before + 20
      else if UsageIn(ev).Some? && UsageIn(ev).value.output > 0 then UsageIn(ev).value.output
      else before
  }

  /** The tokens read from and written to a cache, and the input; a report of no output counts no input. */
  function ReadOf(u: Usage): int {
    if u.cached != 0 && u.output != 0 then u.cached else if u.details.Some? then u.details.value.cacheRead else 0
  }

  function WrittenOf(u: Usage): int { if u.details.Some? then u.details.value.cacheWrite else 0 }

  function InputOf(u: Usage): int { if u.output == 0 then 0 else u.input }

  function Floor0(n: int): int { if n < 0 then 0 else n }

  lemma UsageReads(u: Usage)
    ensures var n := Normalize(u);
      && CacheRead(n) == ReadOf(u) && CacheWrite(n) == WrittenOf(u) && n.input == InputOf(u) && n.output == u.output
      && n.details == u.details
  {
  }

  lemma {:induction false} CountsTracked(hex: Hex, evs: seq<Event>)
    ensures var s, u := Fold(hex, evs), LastReport(evs);
      && s.outputTokens == OutputCount(evs) && s.noCache == LastNoCache(evs)
      && s.inputTokens == (if u.None? then 0 else InputOf(u.value))
      && s.cachedInput == (if u.None? then 0 else ReadOf(u.value))
      && s.cacheWrite == (if u.None? then 0 else WrittenOf(u.value))
  {
    hide Fold;
    if evs == [] {
      assert Fold(hex, evs) == INITIAL by {
        FoldNone(hex);
      }
    } else {
      CountsTracked(hex, evs[..|evs| - 1]);
      FoldSnoc(hex, evs);
      StepCounts(Fold(hex, evs[..|evs| - 1]), hex, evs[|evs| - 1]);
    }
  }

  lemma FoldNone(hex: Hex)
    ensures Fold(hex, []) == INITIAL
  {
  }

  lemma FoldSnoc(hex: Hex, evs: seq<Event>)
    requires evs != []
    ensures Fold(hex, evs) == Step(Fold(hex, evs[..|evs| - 1]), hex, evs[|evs| - 1])
  {
  }

  lemma StepCounts(s: State, hex: Hex, ev: Event)
    ensures var t, u := Step(s, hex, ev), UsageIn(ev);
      && t.outputTokens
         == (if ev.TextDelta? && ev.text != "" then s.outputTokens + 1
             else if ev.ToolCall? then s.outputTokens + 20
             else if u.Some? && u.value.output > 0 then u.value.output
             else s.outputTokens)
      && t.noCache
         == (if u.Some? && u.value.details.Some? && u.value.details.value.noCache.Some?
             then u.value.details.value.noCache.value else s.noCache)
      && t.inputTokens == (if u.Some? then InputOf(u.value) else s.inputTokens)
      && t.cachedInput == (if u.Some? then ReadOf(u.value) else s.cachedInput)
      && t.cacheWrite == (if u.Some? then WrittenOf(u.value) else s.cacheWrite)
  {
    hide ToolArgs, Normalize, CacheRead, CacheWrite, ReadOf, WrittenOf, InputOf;
    if UsageIn(ev).Some? {
      UsageReads(UsageIn(ev).value);
    }
  }

  /** The usage that the stream tells of. What came from a cache, what went into one and the rest are the
      input tokens of the last report, unless that report counts the rest itself. */
  lemma UsageTold(hex: Hex, sign: Sign, evs: seq<Event>, timeoutMessage: string)
    requires LastError(evs).None? && HasContent(evs)
    ensures var c := Follow(NEW_CLIENT, sign, AllFrames(Fold(hex, evs), sign, Eof, timeoutMessage));
      var u := if LastReport(evs).None? then NO_USAGE else LastReport(evs).value;
      && c.Client? && c.usage.Some?
      && var told := c.usage.value;
        && told.output == OutputCount(evs)
        && told.cacheRead == ReadOf(u) && told.cacheWrite == WrittenOf(u)
        && told.input == (if LastNoCache(evs) >= 0 then LastNoCache(evs)
                          else Floor0(InputOf(u) - ReadOf(u) - WrittenOf(u)))
        && (LastNoCache(evs) < 0 && ReadOf(u) + WrittenOf(u) <= InputOf(u) ==>
              told.input + told.cacheRead + told.cacheWrite == InputOf(u))
  {
    hide Follow, AllFrames, Fold, LastReport, LastNoCache, OutputCount;
    Bookkeeping(hex, evs);
    BegunAll(Fold(hex, evs), sign, timeoutMessage);
    AllFollowed(sign, hex, evs, Eof, timeoutMessage);
    CountsTracked(hex, evs);
  }

  /** The usage of the buffered reply. Without a count of its own, the output is guessed from the content. */
  lemma BufferedTold(u: Usage, thinking: string, text: string, calls: seq<Call>)
    ensures var told := BufferedUsage(Some(u), thinking, text, calls);
      && (u.output != 0 ==> told.output == u.output)
      && (u.output == 0 ==> told.output == if |text| + |thinking| < 4 && calls == [] then 1
                                           else (|text| + |thinking|) / 4 + 20 * |calls|)
      && told.cacheRead == ReadOf(u) && told.cacheWrite == WrittenOf(u)
      && told.input == (match u.details
                        case Some(InputTokenDetails(Some(n), _, _)) =>
                          if n >= 0 then n else Floor0(InputOf(u) - ReadOf(u) - WrittenOf(u))
                        case _ => Floor0(InputOf(u) - ReadOf(u) - WrittenOf(u)))
  {
    UsageReads(u);
  }

  /** What the client of the stream is told of a failure. */
  lemma TroubleTold(hex: Hex, sign: Sign, evs: seq<Event>, ending: Ending, timeoutMessage: string)
    ensures var all := AllFrames(Fold(hex, evs), sign, ending, timeoutMessage);
      var c := Follow(NEW_CLIENT, sign, all);
      && c.Client?
      && c.trouble == if all == [] then None else TroubleOf(LastError(evs), ending, timeoutMessage)
  {
    hide Follow, AllFrames, Fold;
    Bookkeeping(hex, evs);
    AllFollowed(sign, hex, evs, ending, timeoutMessage);
  }

  /** What the client of the stream has put together is what a client reads off the buffered content. */
  lemma ContentAgrees(hex: Hex, sign: Sign, evs: seq<Event>, timeoutMessage: string)
    requires LastError(evs).None? && HasContent(evs) && AllJson(CallsOf(evs))
    ensures var c := Follow(NEW_CLIENT, sign, AllFrames(Fold(hex, evs), sign, Eof, timeoutMessage));
      var content := SentContent(sign, ReasoningOf(evs), TextOf(evs), NamedBy(hex, evs));
      && c.Client?
      && TextsIn(c.blocks, TextBlock) == WrittenIn(content)
      && TextsIn(c.blocks, ThinkingBlock) == ThoughtIn(content)
      && |ToolsIn(c.blocks)| == |UsesIn(content)|
      && (NamedCalls(evs) ==> UsesMean(UsesIn(content), ToolsIn(c.blocks)))
  {
    hide Follow, AllFrames, Fold, TextsIn, ToolsIn, NamedBy, SentContent, WrittenIn, ThoughtIn, UsesIn, AllJson;
    hide NamedCalls, Trim, Json.Parse;
    Agreement(hex, sign, evs, timeoutMessage);
    ArgumentsNotBlank(hex, evs);
    NamedByTold(hex, evs);
    NamedJson(hex, evs);
    ContentSays(sign, ReasoningOf(evs), TextOf(evs), NamedBy(hex, evs));
  }

  lemma BegunAll(s: State, sign: Sign, timeoutMessage: string)
    requires s.begun && s.failure.None?
    ensures AllFrames(s, sign, Eof, timeoutMessage) != []
  {
  }

  lemma {:induction false} Bookkeeping(hex: Hex, evs: seq<Event>)
    ensures Fold(hex, evs).begun <==> HasContent(evs)
    ensures Fold(hex, evs).failure == LastError(evs)
  {
    hide Close;
    if evs != [] {
      Bookkeeping(hex, evs[..|evs| - 1]);
      StepBooks(Fold(hex, evs[..|evs| - 1]), hex, evs[|evs| - 1]);
    }
  }

  lemma StepBooks(s: State, hex: Hex, ev: Event)
    ensures var t := Step(s, hex, ev);
      && t.failure == (if ev.Error? then Some(ev.err) else s.failure)
      && (t.begun <==> s.begun || IsContent(ev))
  {
  }

  /** The output tokens that an event reports. */
  function TokensOf(ev: Event): int {
    if !ev.Finish? && !ev.FinishStep? then 0
    else
      var u := ReportedUsage(ev.totalUsage, ev.stepUsage);
      if u.Some? then u.value.output else 0
  }

  /** Whether some finish or finish-step reports output tokens. */
  predicate ReportsTokens(evs: seq<Event>) { exists i :: 0 <= i < |evs| && TokensOf(evs[i]) > 0 }

  /** Without content the stream counts only what is reported. */
  lemma {:induction false} TokensTracked(hex: Hex, evs: seq<Event>)
    ensures !HasContent(evs) ==> Fold(hex, evs).outputTokens >= 0
    ensures !HasContent(evs) ==> (Fold(hex, evs).outputTokens > 0 <==> ReportsTokens(evs))
  {
    if evs != [] {
      var n := |evs| - 1;
      hide HasContent, Fold, Close;
      TokensTracked(hex, evs[..n]);
      ContentSnoc(evs);
      StepTokens(hex, evs);
      assert ReportsTokens(evs) <==> ReportsTokens(evs[..n]) || TokensOf(evs[n]) > 0 by {
        hide TokensOf;
        if ReportsTokens(evs[..n]) {
          var i :| 0 <= i < n && TokensOf(evs[..n][i]) > 0;
          assert TokensOf(evs[i]) > 0;
        }
      }
    }
  }

  /** What the last event does to the count, if it is no content. */
  lemma StepTokens(hex: Hex, evs: seq<Event>)
    requires evs != []
    ensures var n, ev := |evs| - 1, evs[|evs| - 1];
      IsContent(ev) || Fold(hex, evs).outputTokens
                       == if TokensOf(ev) > 0 then TokensOf(ev) else Fold(hex, evs[..n]).outputTokens
  {
    hide WithPiece, WithTool;
  }

  /** Whether both forms answer with the same JSON error, or neither with one. A failure that comes after
      content is told by the stream in a frame, so they do only if there was none. After a clean end they do
      if all arguments of the content's calls are JSON, or if there is no content and no output token was
      reported; otherwise the stream ends normally, and the buffered form answers with an error. */
  lemma RepliesAgree(hex: Hex, evs: seq<Event>, ending: Ending, timeoutMessage: string)
    ensures ReplyOf(Fold(hex, evs), ending, timeoutMessage) == EmbeddedReply(evs, ending, timeoutMessage) <==>
      match ending
      case Cancelled => true
      case Eof =>
        if LastError(evs).Some? then !HasContent(evs)
        else if HasContent(evs) then AllJson(CallsOf(evs))
        else !ReportsTokens(evs)
      case _ => !HasContent(evs)
  {
    hide HasContent, ReportsTokens, AllJson, Fold;
    Bookkeeping(hex, evs);
    TokensTracked(hex, evs);
  }

  /** Tokens without content: the stream starts, and ends normally, and the buffered form refuses. */
  lemma RepliesCanDiffer(hex: Hex, sign: Sign, timeoutMessage: string)
    ensures var evs := [Finish("stop", Some(Usage(3, 5, 0, None)), None)];
      && ReplyOf(Fold(hex, evs), Eof, timeoutMessage) == NoReply
      && AllFrames(Fold(hex, evs), sign, Eof, timeoutMessage)
         == [MessageStart, MessageDelta("end_turn", DeltaUsage(5, 0, 0, 3)), MessageStop]
      && EmbeddedReply(evs, Eof, timeoutMessage) == JsonError(EMPTY_ERROR)
  {
    assert [Finish("stop", Some(Usage(3, 5, 0, None)), None)][..0] == [];
  }

  /** A text around which there is no white space but that of RFC 8259. */
  predicate Bordered(text: string) {
    JsonCompact.AllWhite(JsonCompact.LeftMargin(text)) && JsonCompact.AllWhite(JsonCompact.RightMargin(text))
  }

  /** A text without white space around it or between its tokens. */
  predicate Tight(text: string) { Trim(text) == text && JsonCompact.Dense(Json.START, text) }

  /** The arguments that the two forms send. The buffered ones always mean what the trimmed text means. They
      mean the same as the streamed text exactly if that is bordered by RFC 8259's white space only, and are
      the same bytes exactly if it is tight. */
  lemma ArgumentsAgree(calls: seq<Call>)
    requires forall i :: 0 <= i < |calls| ==> Trim(calls[i].args) != ""
    requires AllJson(calls)
    ensures forall i :: 0 <= i < |calls| ==> Json.Parse(SentCall(calls[i]).args) == Json.Parse(Trim(calls[i].args))
    ensures (forall i :: 0 <= i < |calls| ==> Json.Parse(SentCall(calls[i]).args) == Json.Parse(calls[i].args))
            <==> forall i :: 0 <= i < |calls| ==> Bordered(calls[i].args)
    ensures (forall i :: 0 <= i < |calls| ==> SentCall(calls[i]) == calls[i])
            <==> forall i :: 0 <= i < |calls| ==> Tight(calls[i].args)
  {
    hide Json.Parse, SentCall, Trim, TrimmedArgs;
    forall i | 0 <= i < |calls|
      ensures Json.Parse(SentCall(calls[i]).args) == Json.Parse(Trim(calls[i].args))
      ensures Json.Parse(SentCall(calls[i]).args) == Json.Parse(calls[i].args) <==> Bordered(calls[i].args)
      ensures SentCall(calls[i]) == calls[i] <==> Tight(calls[i].args)
    {
      ArgumentsSent(calls[i]);
    }
  }

  /** A call whose arguments are no JSON: the stream passes them on, the buffered form fails. */
  lemma EncodeErrorReached(hex: Hex, sign: Sign, timeoutMessage: string)
    ensures var evs := [BAD_CALL];
      var c := Follow(NEW_CLIENT, sign, AllFrames(Fold(hex, evs), sign, Eof, timeoutMessage));
      && c.Client? && c.stage == Ended && ToolsIn(c.blocks) == [Call("c", "f", "hello")]
      && EmbeddedReply(evs, Eof, timeoutMessage) == JsonError(ENCODE_ERROR)
  {
    hide Follow, AllFrames, Fold, ToolsIn, AllJson;
    BadCallIs();
    Agreement(hex, sign, [BAD_CALL], timeoutMessage);
    NamedByUpstream(hex, [BAD_CALL]);
  }

  /** White space around the arguments is gone from the buffered reply; a vertical tab is white space for the
      trimming only, so it makes a JSON text of what was none. */
  lemma ArgumentsCanDiffer()
    ensures SentCall(Call("c", "f", " 1")).args == "1"
    ensures SentCall(Call("c", "f", ['\U{0b}', '1'])).args == "1"
    ensures Json.Parse(" 1") == Json.Parse("1") && Json.Parse(['\U{0b}', '1']).None? && Json.Parse("1").Some?
  {
    TrimFixed("1");
    assert " 1"[1..] == "1" && ['\U{0b}', '1'][1..] == "1";
    assert TrimLeft("1") == "1";
    assert TrimLeft(" 1") == "1" && TrimLeft(['\U{0b}', '1']) == "1";
    OneIsJson();
    JsonCompact.CompactSame(Json.START, "1");
    JsonCompact.ParseTrimmed(" 1");
    JsonCompact.ParseTrimmed(['\U{0b}', '1']);
    assert JsonCompact.LeftMargin(['\U{0b}', '1'])[0] == '\U{0b}';
  }

  lemma OneIsJson()
    ensures Json.Parse("1").Some? && JsonCompact.Dense(Json.START, "1")
  {
    assert "1" == ['1'] && "1"[1..] == "";
    Json.FeedOne(Json.START, '1');
  }

  /** A step that stops for a tool call, then a `finish` without a reason: the two forms differ. */
  lemma StopReasonsCanDiffer(hex: Hex)
    ensures var evs := [TextDelta("a"), FinishStep("tool-calls", None, None), Finish("", None, None)];
      Fold(hex, evs).stopReason == "tool_use" && MapAnthropicStopReason(FinishOf(evs)) == "end_turn"
  {
    var evs := [TextDelta("a"), FinishStep("tool-calls", None, None), Finish("", None, None)];
    assert evs[..2] == [TextDelta("a"), FinishStep("tool-calls", None, None)];
    assert LastReason(evs[..2]) == "tool-calls";
    StopReasonTracked(hex, evs);
  }
}
