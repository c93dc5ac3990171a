/** The Anthropic message stream as data: which content blocks a run of upstream events
    stands for, and the frames that present those blocks. */
module AnthropicModel {
  import opened Text
  import opened Upstream

  datatype Kind = TextBlock | ThinkingBlock | ToolBlock

  /** A content block with the deltas it was streamed in. */
  datatype Block = Block(kind: Kind, id: string, name: string, chunks: seq<string>)

  datatype DeltaUsage = DeltaUsage(output: int, cacheRead: int, cacheWrite: int, input: int)

  datatype Frame =
    | MessageStart
    | BlockStart(index: int, kind: Kind, id: string, name: string)
    | BlockDelta(index: int, kind: Kind, text: string)
    | Signature(index: int, signature: string)
    | BlockStop(index: int)
    | MessageDelta(stopReason: string, usage: DeltaUsage)
    | MessageStop
    | ErrorEvent(typ: string, message: string, retryAfter: int)
    | Ping

  predicate IsPing(f: Frame) { f.Ping? }

  function NoPings(frames: seq<Frame>): seq<Frame> { Without(frames, IsPing) }

  /** The thinking signature of a text; its bytes play no part here. */
  type Sign = string -> string

  function Deltas(j: int, b: Block): seq<Frame> {
    seq(|b.chunks|, i requires 0 <= i < |b.chunks| => BlockDelta(j, b.kind, b.chunks[i]))
  }

  function Open(j: int, b: Block): seq<Frame> { [BlockStart(j, b.kind, b.id, b.name)] + Deltas(j, b) }

  function Tail(sign: Sign, j: int, b: Block): seq<Frame> {
    (if b.kind == ThinkingBlock then [Signature(j, sign(Concat(b.chunks)))] else []) + [BlockStop(j)]
  }

  function ClosedFrames(sign: Sign, blocks: seq<Block>): seq<Frame> {
    if blocks == [] then [] else
      var j := |blocks| - 1;
      ClosedFrames(sign, blocks[..j]) + (Open(j, blocks[j]) + Tail(sign, j, blocks[j]))
  }

  /* ---- The blocks a run of events stands for ---- */

  datatype State = State(
    begun: bool, closed: seq<Block>, open: Option<Block>, drawn: nat, stopReason: string,
    outputTokens: int, inputTokens: int, cachedInput: int, cacheWrite: int, noCache: int,
    failure: Option<MappedError>)

  const INITIAL := State(false, [], None, 0, "", 0, 0, 0, 0, -1, None)

  function Close(s: State): State {
    if s.open.None? then s else s.(closed := s.closed + [s.open.value], open := None)
  }

  function Opened(s: State, kind: Kind): State {
    if s.open.Some? && s.open.value.kind == kind then s else
      Close(s).(open := Some(Block(kind, "", "", [])))
  }

  function Extended(b: Block, text: string): Block { b.(chunks := b.chunks + [text]) }

  /** A piece of text or thinking. */
  function WithPiece(s: State, kind: Kind, text: string): State {
    var o := Opened(s.(begun := true), kind);
    o.(open := Some(Extended(o.open.value, text)))
  }

  /** A tool call is a block of its own, complete at once. */
  function WithTool(s: State, hex: Hex, id: string, name: string, args: string): State {
    var c := Close(s.(begun := true));
    var toolID := if id == "" then "toolu_" + hex(s.drawn) else id;
    c.(drawn := if id == "" then s.drawn + 1 else s.drawn,
       closed := c.closed + [Block(ToolBlock, toolID, name, [args])],
       outputTokens := s.outputTokens + 20)
  }

  function WithReason(s: State, reason: string): State {
    if reason == "" then s else s.(stopReason := MapAnthropicStopReason(MapFinishReason(reason)))
  }

  function WithUsage(s: State, u: Usage): State {
    s.(outputTokens := if u.output > 0 then u.output else s.outputTokens,
       inputTokens := u.input, cachedInput := CacheRead(u), cacheWrite := CacheWrite(u),
       noCache := if u.details.Some? && u.details.value.noCache.Some? then u.details.value.noCache.value
                  else s.noCache)
  }

  lemma UsageKeeps(s: State, u: Usage)
    ensures var t := WithUsage(s, u);
      && t.begun == s.begun && t.closed == s.closed && t.open == s.open && t.drawn == s.drawn
      && t.stopReason == s.stopReason && t.failure == s.failure
      && (u.output <= 0 ==> t.outputTokens == s.outputTokens)
      && (!(u.details.Some? && u.details.value.noCache.Some?) ==> t.noCache == s.noCache)
  {
  }

  function WithReport(s: State, reason: string, reported: Option<Usage>): State {
    var s1 := WithReason(s, reason);
    if reported.None? then s1 else WithUsage(s1, Normalize(reported.value))
  }

  function Step(s: State, hex: Hex, ev: Event): State {
    match ev
    case TextDelta(t) =>
      if t == "" then s else
        var w := WithPiece(s, TextBlock, t);
        w.(outputTokens := w.outputTokens + 1)
    case ReasoningDelta(t) => if t == "" then s else WithPiece(s, ThinkingBlock, t)
    case ToolCall(id, name, input) => WithTool(s, hex, id, name, ToolArgs(input))
    case FinishStep(reason, total, step) => WithReport(s, reason, ReportedUsage(total, step))
    case Finish(reason, total, step) => WithReport(s, reason, ReportedUsage(total, step))
    case Error(e) => s.(failure := Some(e))
    case Quiet(_) => s
    case Unknown => s
  }

  function Fold(hex: Hex, evs: seq<Event>): State {
    if evs == [] then INITIAL else Step(Fold(hex, evs[..|evs| - 1]), hex, evs[|evs| - 1])
  }

  predicate Proper(b: Block) { b.chunks != [] && Concat(b.chunks) != "" }

  /** Nothing exists before the message does, and no block is empty. */
  predicate WellFormed(s: State) {
    && (!s.begun ==> s.closed == [] && s.open.None?)
    && (forall i :: 0 <= i < |s.closed| ==> Proper(s.closed[i]))
    && (s.open.Some? ==> Proper(s.open.value) && s.open.value.kind != ToolBlock)
  }

  lemma CloseKeepsWellFormed(s: State)
    requires WellFormed(s)
    ensures WellFormed(Close(s))
  {
  }

  lemma PieceKeepsWellFormed(s: State, kind: Kind, text: string)
    requires WellFormed(s) && text != "" && kind != ToolBlock
    ensures WellFormed(WithPiece(s, kind, text))
  {
    hide Concat;
    CloseKeepsWellFormed(s);
    ConcatSnoc(Opened(s.(begun := true), kind).open.value.chunks, text);
  }

  lemma ToolKeepsWellFormed(s: State, hex: Hex, id: string, name: string, args: string)
    requires WellFormed(s) && args != ""
    ensures WellFormed(WithTool(s, hex, id, name, args))
  {
    hide Concat;
    CloseKeepsWellFormed(s);
    ConcatOne(args);
  }

  lemma StepKeepsWellFormed(s: State, hex: Hex, ev: Event)
    requires WellFormed(s)
    ensures WellFormed(Step(s, hex, ev))
  {
    hide WithPiece, WithTool, Proper;
    match ev
    case TextDelta(t) => if t != "" { PieceKeepsWellFormed(s, TextBlock, t); }
    case ReasoningDelta(t) => if t != "" { PieceKeepsWellFormed(s, ThinkingBlock, t); }
    case ToolCall(id, name, input) => ToolKeepsWellFormed(s, hex, id, name, ToolArgs(input));
    case _ =>
  }

  lemma {:induction false} FoldWellFormed(hex: Hex, evs: seq<Event>)
    ensures WellFormed(Fold(hex, evs))
  {
    hide WellFormed, Step;
    if evs == [] {
      InitialWellFormed();
    } else {
      FoldWellFormed(hex, evs[..|evs| - 1]);
      StepKeepsWellFormed(Fold(hex, evs[..|evs| - 1]), hex, evs[|evs| - 1]);
    }
  }

  lemma InitialWellFormed()
    ensures WellFormed(INITIAL)
  {
  }

  /* ---- The frames that present a state ---- */

  function Frames(s: State, sign: Sign): seq<Frame> {
    if !s.begun then [] else
      [MessageStart] + ClosedFrames(sign, s.closed)
      + if s.open.None? then [] else Open(|s.closed|, s.open.value)
  }

  function InputTokens(s: State): int {
    if s.noCache >= 0 then s.noCache else
      var v := s.inputTokens - s.cachedInput - s.cacheWrite;
      if v < 0 then 0 else v
  }

  function Ends(s: State): seq<Frame> {
    [MessageDelta(OrDefault(s.stopReason, "end_turn"),
                  DeltaUsage(s.outputTokens, s.cachedInput, s.cacheWrite, InputTokens(s))),
     MessageStop]
  }

  /** Nothing was streamed and no tokens were reported. */
  predicate Empty(s: State) { !s.begun && s.outputTokens == 0 }

  /** Every frame, pings aside, of a run in which no write fails. */
  function AllFrames(s: State, sign: Sign, ending: Ending, timeoutMessage: string): seq<Frame> {
    var c := Close(s);
    match ending
    case Cancelled => Frames(c, sign)
    case Idle => if !s.begun then [] else Frames(c, sign) + [ErrorEvent("rate_limit_error", timeoutMessage, 5)]
    case Broken(msg) => if !s.begun then [] else Frames(c, sign) + [ErrorEvent("internal_error", msg, 0)]
    case Eof =>
      if s.failure.Some? then
        if !s.begun then [] else
          Frames(c, sign) + [ErrorEvent(s.failure.value.typ, s.failure.value.message, 0)]
      else if Empty(s) then []
      else Frames(c.(begun := true), sign) + Ends(s)
  }

  function ReplyOf(s: State, ending: Ending, timeoutMessage: string): Reply {
    if s.begun then NoReply else
      match ending
      case Cancelled => NoReply
      case Idle => JsonError(IdleError(timeoutMessage))
      case Broken(msg) => JsonError(BrokenError(msg))
      case Eof =>
        if s.failure.Some? then JsonError(s.failure.value)
        else if Empty(s) then JsonError(EMPTY_ERROR)
        else NoReply
  }

  /* ---- Growth ---- */

  lemma SameContent(s: State, t: State, sign: Sign)
    requires s.begun == t.begun && s.closed == t.closed && s.open == t.open
    ensures Frames(s, sign) == Frames(t, sign) && WellFormed(s) == WellFormed(t)
  {
  }

  lemma BegunShows(s: State, sign: Sign)
    requires WellFormed(s)
    ensures s.begun <==> Frames(s, sign) != []
    ensures !s.begun ==> Frames(s.(begun := true), sign) == [MessageStart] && WellFormed(s.(begun := true))
    ensures s.begun ==> s.(begun := true) == s
  {
  }

  lemma ClosedSnoc(sign: Sign, blocks: seq<Block>, b: Block)
    ensures ClosedFrames(sign, blocks + [b])
            == ClosedFrames(sign, blocks) + (Open(|blocks|, b) + Tail(sign, |blocks|, b))
  {
    assert (blocks + [b])[..|blocks|] == blocks;
  }

  lemma CloseGrows(s: State, sign: Sign)
    ensures s.begun && s.open.Some? ==>
      Frames(Close(s), sign) == Frames(s, sign) + Tail(sign, |s.closed|, s.open.value)
    ensures Frames(s, sign) <= Frames(Close(s), sign)
  {
    hide Open, Tail;
    if s.begun && s.open.Some? {
      var j, b := |s.closed|, s.open.value;
      ClosedSnoc(sign, s.closed, b);
      var pre, cf := [MessageStart], ClosedFrames(sign, s.closed);
      Assoc4(pre, cf, Open(j, b), Tail(sign, j, b));
      assert Frames(Close(s), sign) == pre + (cf + (Open(j, b) + Tail(sign, j, b))) + [];
    }
  }

  lemma OpenGrows(s: State, sign: Sign, kind: Kind)
    requires s.begun
    ensures !(s.open.Some? && s.open.value.kind == kind) ==>
      Frames(Opened(s, kind), sign) == Frames(Close(s), sign) + [BlockStart(|Close(s).closed|, kind, "", "")]
    ensures Frames(s, sign) <= Frames(Opened(s, kind), sign)
  {
    CloseGrows(s, sign);
    if !(s.open.Some? && s.open.value.kind == kind) {
      var o := Opened(s, kind);
      assert Open(|o.closed|, o.open.value) == [BlockStart(|o.closed|, kind, "", "")];
      assert Frames(Close(s), sign) == [MessageStart] + ClosedFrames(sign, o.closed);
    }
  }

  lemma OpenedIs(s: State, kind: Kind)
    ensures var o := Opened(s, kind);
      && o.open.Some? && o.open.value.kind == kind
      && o.begun == s.begun && o.outputTokens == s.outputTokens
  {
  }

  lemma PieceGrows(s: State, sign: Sign, kind: Kind, text: string)
    requires s.begun
    ensures Frames(WithPiece(s, kind, text), sign)
            == Frames(Opened(s, kind), sign) + [BlockDelta(|Opened(s, kind).closed|, kind, text)]
    ensures Frames(s, sign) <= Frames(WithPiece(s, kind, text), sign)
  {
    OpenGrows(s, sign, kind);
    assert s.(begun := true) == s;
    var o := Opened(s, kind);
    var j, b := |o.closed|, o.open.value;
    var d := [BlockDelta(j, kind, text)];
    assert Deltas(j, Extended(b, text)) == Deltas(j, b) + d;
    Assoc3([BlockStart(j, b.kind, b.id, b.name)], Deltas(j, b), d);
    Assoc3([MessageStart] + ClosedFrames(sign, o.closed), Open(j, b), d);
    PrefixSnoc(Frames(s, sign), Frames(o, sign), d);
  }

  function ToolFrames(j: int, id: string, name: string, args: string): seq<Frame> {
    [BlockStart(j, ToolBlock, id, name)] + [BlockDelta(j, ToolBlock, args), BlockStop(j)]
  }

  lemma ToolBlockFrames(sign: Sign, j: int, id: string, name: string, args: string)
    ensures var b := Block(ToolBlock, id, name, [args]);
      Open(j, b) + Tail(sign, j, b) == ToolFrames(j, id, name, args)
  {
    hide Concat;
    assert Deltas(j, Block(ToolBlock, id, name, [args])) == [BlockDelta(j, ToolBlock, args)];
  }

  lemma ToolGrows(s: State, sign: Sign, hex: Hex, id: string, name: string, args: string)
    requires s.begun
    ensures var w := WithTool(s, hex, id, name, args);
      && Frames(w, sign)
         == Frames(Close(s), sign) + ToolFrames(|Close(s).closed|, w.closed[|w.closed| - 1].id, name, args)
    ensures Frames(s, sign) <= Frames(WithTool(s, hex, id, name, args), sign)
  {
    hide Open, Tail, ClosedFrames, ToolFrames;
    CloseGrows(s, sign);
    assert s.(begun := true) == s;
    var w, c := WithTool(s, hex, id, name, args), Close(s);
    var j := |c.closed|;
    var b := w.closed[j];
    ClosedSnoc(sign, c.closed, b);
    ToolBlockFrames(sign, j, b.id, name, args);
    var cf, tf := ClosedFrames(sign, c.closed), ToolFrames(j, b.id, name, args);
    assert Frames(w, sign) == [MessageStart] + (cf + tf);
    assert Frames(c, sign) == [MessageStart] + cf;
    Assoc3([MessageStart], cf, tf);
    PrefixSnoc(Frames(s, sign), Frames(c, sign), tf);
  }

  /** The first frame of the message is part of what any content event calls for. */
  lemma BegunPieces(s: State, sign: Sign, kind: Kind, text: string)
    requires WellFormed(s)
    ensures WithPiece(s, kind, text).begun
    ensures !s.begun ==> [MessageStart] <= Frames(WithPiece(s, kind, text), sign)
  {
    hide WellFormed, Frames;
    BegunShows(s, sign);
    PieceGrows(s.(begun := true), sign, kind, text);
  }

  lemma BegunTool(s: State, sign: Sign, hex: Hex, id: string, name: string, args: string)
    requires WellFormed(s)
    ensures WithTool(s, hex, id, name, args).begun
    ensures !s.begun ==> [MessageStart] <= Frames(WithTool(s, hex, id, name, args), sign)
  {
    hide WellFormed, Frames;
    BegunShows(s, sign);
    ToolGrows(s.(begun := true), sign, hex, id, name, args);
  }

  lemma StepBegins(s: State, hex: Hex, ev: Event)
    ensures s.begun ==> Step(s, hex, ev).begun
    ensures forall kind, t :: WithPiece(s.(begun := true), kind, t) == WithPiece(s, kind, t)
    ensures forall id, name, args ::
      WithTool(s.(begun := true), hex, id, name, args) == WithTool(s, hex, id, name, args)
  {
  }

  /** What a step has put on the wire, no later step takes back. */
  lemma StepGrows(s: State, sign: Sign, hex: Hex, ev: Event)
    requires WellFormed(s)
    ensures Frames(s, sign) <= Frames(Step(s, hex, ev), sign)
    ensures s.begun ==> Step(s, hex, ev).begun
  {
    hide WellFormed, Frames, WithPiece, WithTool, Opened;
    BegunShows(s, sign);
    var b := s.(begun := true);
    StepBegins(s, hex, ev);
    match ev
    case TextDelta(t) =>
      if t != "" {
        PieceGrows(b, sign, TextBlock, t);
        SameContent(WithPiece(s, TextBlock, t), Step(s, hex, ev), sign);
      }
    case ReasoningDelta(t) => if t != "" { PieceGrows(b, sign, ThinkingBlock, t); }
    case ToolCall(id, name, input) => ToolGrows(b, sign, hex, id, name, ToolArgs(input));
    case _ => SameContent(s, Step(s, hex, ev), sign);
  }

  lemma {:induction false} FoldGrows(sign: Sign, hex: Hex, evs: seq<Event>, k: nat)
    requires k <= |evs|
    ensures Frames(Fold(hex, evs[..k]), sign) <= Frames(Fold(hex, evs), sign)
    ensures Fold(hex, evs[..k]).begun ==> Fold(hex, evs).begun
    decreases |evs| - k
  {
    hide Frames, Step;
    if k == |evs| {
      assert evs[..k] == evs;
    } else {
      assert evs[..k + 1][..k] == evs[..k];
      FoldWellFormed(hex, evs[..k]);
      StepGrows(Fold(hex, evs[..k]), sign, hex, evs[k]);
      FoldGrows(sign, hex, evs, k + 1);
      Prefix3(Frames(Fold(hex, evs[..k]), sign), Frames(Fold(hex, evs[..k + 1]), sign), Frames(Fold(hex, evs), sign));
    }
  }

  lemma AllGrows(s: State, sign: Sign, ending: Ending, timeoutMessage: string)
    requires WellFormed(s)
    ensures Frames(Close(s), sign) <= AllFrames(s, sign, ending, timeoutMessage)
    ensures Frames(s, sign) <= AllFrames(s, sign, ending, timeoutMessage)
    ensures ending.Eof? && s.failure.None? && !Empty(s) ==>
      Frames(Close(s).(begun := true), sign) <= AllFrames(s, sign, ending, timeoutMessage)
  {
    hide ClosedFrames, Open;
    CloseGrows(s, sign);
    var c := Close(s);
    assert s.begun ==> c.(begun := true) == c;
  }

  lemma ClosedAlready(s: State, sign: Sign, ending: Ending, timeoutMessage: string)
    ensures AllFrames(Close(s), sign, ending, timeoutMessage) == AllFrames(s, sign, ending, timeoutMessage)
    ensures ReplyOf(Close(s), ending, timeoutMessage) == ReplyOf(s, ending, timeoutMessage)
  {
  }
}
