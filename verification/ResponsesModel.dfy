/** The Responses stream as data: which output items a run of upstream events
    stands for, and the frames that present those items. */
module ResponsesModel {
  import opened Text
  import opened Upstream

  datatype Kind = Message | Reasoning | FunctionCall

  /** An output item with the deltas it was streamed in. */
  datatype Item = Item(kind: Kind, id: string, callID: string, name: string, chunks: seq<string>)

  /** An output item as stored and as sent in its last frame. */
  datatype DoneItem = DoneItem(kind: Kind, id: string, callID: string, name: string, text: string)

  datatype ResponsesUsage =
    ResponsesUsage(input: int, cached: int, cacheWrite: int, output: int, total: int)

  datatype Body =
    | Created
    | InProgress
    | ItemAdded(index: int, kind: Kind, id: string, callID: string, name: string)
    | PartAdded(index: int, kind: Kind, id: string)
    | Delta(index: int, kind: Kind, id: string, text: string)
    | TextDone(index: int, kind: Kind, id: string, text: string)
    | PartDone(index: int, kind: Kind, id: string, text: string)
    | ItemDone(index: int, item: DoneItem)
    | Final(incomplete: bool, output: seq<DoneItem>, outputText: string, usage: ResponsesUsage)
    | Failed(message: string)
    | ErrorEvent(typ: string, message: string)

  datatype Frame = Frame(seqNo: int, body: Body) | Ping

  predicate IsPing(f: Frame) { f.Ping? }

  function NoPings(frames: seq<Frame>): seq<Frame> { Without(frames, IsPing) }

  /** The k-th body carries sequence number k. */
  function Numbered(bodies: seq<Body>): seq<Frame> {
    seq(|bodies|, k requires 0 <= k < |bodies| => Frame(k, bodies[k]))
  }

  function Finished(it: Item): DoneItem {
    DoneItem(it.kind, it.id, it.callID, it.name, Concat(it.chunks))
  }

  function Stored(items: seq<Item>): seq<DoneItem> {
    if items == [] then [] else Stored(items[..|items| - 1]) + [Finished(items[|items| - 1])]
  }

  function Head(j: int, it: Item): seq<Body> {
    [ItemAdded(j, it.kind, it.id, it.callID, it.name)]
    + if it.kind == FunctionCall then [] else [PartAdded(j, it.kind, it.id)]
  }

  function Deltas(j: int, it: Item): seq<Body> {
    seq(|it.chunks|, i requires 0 <= i < |it.chunks| => Delta(j, it.kind, it.id, it.chunks[i]))
  }

  function TextTail(j: int, it: Item): seq<Body> {
    [TextDone(j, it.kind, it.id, Concat(it.chunks))]
    + if it.kind == FunctionCall then [] else [PartDone(j, it.kind, it.id, Concat(it.chunks))]
  }

  function Tail(j: int, it: Item): seq<Body> { TextTail(j, it) + [ItemDone(j, Finished(it))] }

  function Open(j: int, it: Item): seq<Body> { Head(j, it) + Deltas(j, it) }

  function ClosedFrames(items: seq<Item>): seq<Body> {
    if items == [] then [] else
      var j := |items| - 1;
      ClosedFrames(items[..j]) + (Open(j, items[j]) + Tail(j, items[j]))
  }

  /* ---- The items a run of events stands for ---- */

  datatype State = State(
    created: bool, closed: seq<Item>, open: Option<Item>, drawn: nat,
    usage: Option<Usage>, finish: string, outputTokens: int, failure: Option<MappedError>)

  const INITIAL := State(false, [], None, 0, None, "", 0, None)

  function Prefix(kind: Kind): string {
    match kind case Message => "msg_" case Reasoning => "rs_" case FunctionCall => "fc_"
  }

  function Close(s: State): State {
    if s.open.None? then s else s.(closed := s.closed + [s.open.value], open := None)
  }

  /** The open item takes the next piece: same kind, and for calls the same call. */
  predicate Continues(s: State, kind: Kind, callID: string) {
    && s.open.Some?
    && s.open.value.kind == kind
    && (kind == FunctionCall ==> s.open.value.callID == callID)
  }

  function Opened(s: State, hex: Hex, kind: Kind, callID: string, name: string): State {
    if Continues(s, kind, callID) then s else
      Close(s).(open := Some(Item(kind, Prefix(kind) + hex(s.drawn), callID, name, [])), drawn := s.drawn + 1)
  }

  function Extended(it: Item, text: string): Item { it.(chunks := it.chunks + [text]) }

  function WithPiece(s: State, hex: Hex, kind: Kind, callID: string, name: string, text: string): State {
    var o := Opened(s, hex, kind, callID, name);
    o.(open := Some(Extended(o.open.value, text)))
  }

  /** A piece of content: the response begins, and a call without an identifier gets one. */
  function WithContent(s: State, hex: Hex, kind: Kind, id: string, name: string, text: string): State {
    var unnamed := kind == FunctionCall && id == "";
    var s1 := s.(created := true, drawn := if unnamed then s.drawn + 1 else s.drawn);
    WithPiece(s1, hex, kind, if unnamed then "call_" + hex(s.drawn) else id, name, text)
  }

  function Step(s: State, hex: Hex, ev: Event): State {
    match ev
    case TextDelta(t) => if t == "" then s else WithContent(s, hex, Message, "", "", t)
    case ReasoningDelta(t) => if t == "" then s else WithContent(s, hex, Reasoning, "", "", t)
    case ToolCall(id, name, input) =>
      var s1 := WithContent(s, hex, FunctionCall, id, name, ToolArgs(input));
      s1.(outputTokens := s1.outputTokens + 20)
    case Finish(reason, total, step) =>
      var s1 := s.(finish := reason);
      if ReportedUsage(total, step).None? then s1 else
        var u := Normalize(ReportedUsage(total, step).value);
        s1.(usage := Some(u), outputTokens := u.output)
    case Error(e) => s.(failure := Some(e))
    case FinishStep(_, _, _) => s
    case Quiet(_) => s
    case Unknown => s
  }

  function Fold(hex: Hex, evs: seq<Event>): State {
    if evs == [] then INITIAL else Step(Fold(hex, evs[..|evs| - 1]), hex, evs[|evs| - 1])
  }

  /** Nothing exists before the response does, and no item is empty. */
  predicate WellFormed(s: State) {
    && (!s.created ==> s.closed == [] && s.open.None?)
    && (forall i :: 0 <= i < |s.closed| ==> s.closed[i].chunks != [])
    && (s.open.Some? ==> s.open.value.chunks != [])
  }

  lemma PieceKeepsWellFormed(s: State, hex: Hex, kind: Kind, callID: string, name: string, text: string)
    requires WellFormed(s) && s.created
    ensures WellFormed(WithPiece(s, hex, kind, callID, name, text))
  {
  }

  lemma StepKeepsWellFormed(s: State, hex: Hex, ev: Event)
    requires WellFormed(s)
    ensures WellFormed(Step(s, hex, ev))
  {
  }

  lemma {:induction false} FoldWellFormed(hex: Hex, evs: seq<Event>)
    ensures WellFormed(Fold(hex, evs))
  {
    if evs != [] {
      FoldWellFormed(hex, evs[..|evs| - 1]);
      StepKeepsWellFormed(Fold(hex, evs[..|evs| - 1]), hex, evs[|evs| - 1]);
    }
  }

  /* ---- The frames that present a state ---- */

  function Bodies(s: State): seq<Body> {
    if !s.created then [] else
      [Created, InProgress] + ClosedFrames(s.closed)
      + if s.open.None? then [] else Open(|s.closed|, s.open.value)
  }

  function TextsOf(items: seq<DoneItem>, kind: Kind): string {
    if items == [] then "" else
      var last := items[|items| - 1];
      TextsOf(items[..|items| - 1], kind) + if last.kind == kind then last.text else ""
  }

  function BuildUsage(u: Option<Usage>, fallback: int): ResponsesUsage {
    var n := if u.Some? then Normalize(u.value) else NO_USAGE;
    var out := if n.output == 0 then fallback else n.output;
    ResponsesUsage(n.input, n.cached, CacheWrite(n), out, n.input + out)
  }

  function FinalOf(s: State): Body {
    var out := Stored(s.closed);
    Final(s.finish == "length", out, TextsOf(out, Message), BuildUsage(s.usage, s.outputTokens))
  }

  /** Nothing was streamed and no tokens were reported. */
  predicate Empty(s: State) { !s.created && s.outputTokens == 0 }

  /** Every frame, pings aside, of a run in which no write fails. */
  function AllBodies(s: State, ending: Ending, timeoutMessage: string): seq<Body> {
    var c := Close(s);
    match ending
    case Cancelled => Bodies(c)
    case Idle => if !s.created then [] else Bodies(c) + [ErrorEvent("rate_limit_error", timeoutMessage)]
    case Broken(msg) => if !s.created then [] else Bodies(c) + [ErrorEvent("proxy_error", msg)]
    case Eof =>
      if s.failure.Some? then
        if !s.created then [] else Bodies(c) + [Failed(s.failure.value.message)]
      else if Empty(s) then []
      else Bodies(c.(created := true)) + [FinalOf(c)]
  }

  /** The JSON error of a run that streams nothing. */
  function ReplyOf(s: State, ending: Ending, timeoutMessage: string): Reply {
    if s.created then NoReply else
      match ending
      case Cancelled => NoReply
      case Idle => JsonError(IdleError(timeoutMessage))
      case Broken(msg) => JsonError(BrokenError(msg))
      case Eof =>
        if s.failure.Some? then JsonError(s.failure.value)
        else if Empty(s) then JsonError(EMPTY_ERROR)
        else NoReply
  }

  /* ---- Growth: the frames of a state are a prefix of the frames of the next ---- */

  lemma CloseGrows(s: State)
    ensures Bodies(s) <= Bodies(Close(s))
    ensures s.created && s.open.Some? ==>
      Bodies(Close(s)) == Bodies(s) + Tail(|s.closed|, s.open.value)
  {
    if s.created && s.open.Some? {
      var j, it := |s.closed|, s.open.value;
      assert (s.closed + [it])[..j] == s.closed;
      var pre, cf := [Created, InProgress], ClosedFrames(s.closed);
      Assoc4(pre, cf, Open(j, it), Tail(j, it));
      assert Bodies(Close(s)) == pre + (cf + (Open(j, it) + Tail(j, it))) + [];
    }
  }

  lemma CloseParts(s: State)
    requires s.created && s.open.Some?
    requires WellFormed(s)
    ensures WellFormed(Close(s))
    ensures var t := TextTail(|s.closed|, s.open.value);
      && Bodies(s) + t <= Bodies(Close(s))
      && Bodies(Close(s)) == Bodies(s) + t + [ItemDone(|s.closed|, Finished(s.open.value))]
  {
    CloseGrows(s);
    Assoc3(Bodies(s), TextTail(|s.closed|, s.open.value), [ItemDone(|s.closed|, Finished(s.open.value))]);
  }

  lemma FirstFrames(s: State)
    requires WellFormed(s) && !s.created
    ensures Bodies(s) == [] && Bodies(s.(created := true)) == [Created, InProgress]
    ensures [Created] + [InProgress] == [Created, InProgress]
  {
  }

  lemma CreatedShows(s: State)
    ensures WellFormed(s) ==> (s.created <==> Bodies(s) != [])
  {
  }

  lemma StoredSnoc(items: seq<Item>, it: Item, kind: Kind)
    ensures Stored(items + [it]) == Stored(items) + [Finished(it)]
    ensures TextsOf(Stored(items + [it]), kind)
            == TextsOf(Stored(items), kind) + if it.kind == kind then Concat(it.chunks) else ""
  {
    assert (items + [it])[..|items|] == items;
    assert (Stored(items) + [Finished(it)])[..|Stored(items)|] == Stored(items);
  }

  lemma OpenGrows(s: State, hex: Hex, kind: Kind, callID: string, name: string)
    requires s.created
    ensures !Continues(s, kind, callID) ==>
      var o := Opened(s, hex, kind, callID, name);
      && Bodies(o) == Bodies(Close(s)) + Head(|o.closed|, o.open.value)
    ensures Bodies(s) <= Bodies(Opened(s, hex, kind, callID, name))
  {
    CloseGrows(s);
    if !Continues(s, kind, callID) {
      var o := Opened(s, hex, kind, callID, name);
      assert Open(|o.closed|, o.open.value) == Head(|o.closed|, o.open.value);
      assert Bodies(Close(s)) == [Created, InProgress] + ClosedFrames(o.closed);
    }
  }

  lemma PieceGrows(s: State, hex: Hex, kind: Kind, callID: string, name: string, text: string)
    requires s.created
    ensures var o := Opened(s, hex, kind, callID, name);
      && Bodies(WithPiece(s, hex, kind, callID, name, text))
         == Bodies(o) + [Delta(|o.closed|, kind, o.open.value.id, text)]
    ensures Bodies(s) <= Bodies(WithPiece(s, hex, kind, callID, name, text))
  {
    OpenGrows(s, hex, kind, callID, name);
    var o := Opened(s, hex, kind, callID, name);
    var j, it := |o.closed|, o.open.value;
    var d := [Delta(j, kind, it.id, text)];
    assert Deltas(j, Extended(it, text)) == Deltas(j, it) + d;
    Assoc3(Head(j, it), Deltas(j, it), d);
    assert Open(j, Extended(it, text)) == Open(j, it) + d;
    Assoc3([Created, InProgress] + ClosedFrames(o.closed), Open(j, it), d);
    PrefixSnoc(Bodies(s), Bodies(o), d);
  }

  lemma SameFrames(s: State, t: State)
    requires !s.created || (t.created && s.closed == t.closed && s.open == t.open)
    ensures Bodies(s) <= Bodies(t)
  {
  }

  lemma SameContent(s: State, t: State)
    requires s.created == t.created && s.closed == t.closed && s.open == t.open
    ensures Bodies(s) == Bodies(t) && WellFormed(s) == WellFormed(t)
  {
  }

  lemma ContentGrows(s: State, hex: Hex, kind: Kind, id: string, name: string, text: string)
    ensures Bodies(s.(created := true)) <= Bodies(WithContent(s, hex, kind, id, name, text))
    ensures Bodies(s) <= Bodies(WithContent(s, hex, kind, id, name, text))
    ensures WithContent(s, hex, kind, id, name, text).created
  {
    hide Bodies;
    var unnamed := kind == FunctionCall && id == "";
    var s1 := s.(created := true, drawn := if unnamed then s.drawn + 1 else s.drawn);
    SameFrames(s.(created := true), s1);
    SameFrames(s, s1);
    PieceGrows(s1, hex, kind, if unnamed then "call_" + hex(s.drawn) else id, name, text);
  }

  /** What a step has put on the wire, no later step takes back. */
  lemma StepGrows(s: State, hex: Hex, ev: Event)
    ensures Bodies(s) <= Bodies(Step(s, hex, ev))
  {
    match ev
    case TextDelta(t) =>
      if t != "" { ContentGrows(s, hex, Message, "", "", t); }
    case ReasoningDelta(t) =>
      if t != "" { ContentGrows(s, hex, Reasoning, "", "", t); }
    case ToolCall(id, name, input) =>
      ContentGrows(s, hex, FunctionCall, id, name, ToolArgs(input));
      SameFrames(WithContent(s, hex, FunctionCall, id, name, ToolArgs(input)), Step(s, hex, ev));
    case _ => SameFrames(s, Step(s, hex, ev));
  }

  lemma {:induction false} FoldGrows(hex: Hex, evs: seq<Event>, k: nat)
    requires k <= |evs|
    ensures Bodies(Fold(hex, evs[..k])) <= Bodies(Fold(hex, evs))
    decreases |evs| - k
  {
    if k == |evs| {
      assert evs[..k] == evs;
    } else {
      assert evs[..k + 1][..k] == evs[..k];
      StepGrows(Fold(hex, evs[..k]), hex, evs[k]);
      FoldGrows(hex, evs, k + 1);
      Prefix3(Bodies(Fold(hex, evs[..k])), Bodies(Fold(hex, evs[..k + 1])), Bodies(Fold(hex, evs)));
    }
  }

  lemma {:induction false} CreatedStays(hex: Hex, evs: seq<Event>, k: nat)
    requires k <= |evs| && Fold(hex, evs[..k]).created
    ensures Fold(hex, evs).created
    decreases |evs| - k
  {
    if k == |evs| {
      assert evs[..k] == evs;
    } else {
      assert evs[..k + 1][..k] == evs[..k];
      CreatedStays(hex, evs, k + 1);
    }
  }

  lemma AllGrows(s: State, ending: Ending, timeoutMessage: string)
    ensures Bodies(Close(s)) <= AllBodies(s, ending, timeoutMessage)
    ensures Bodies(s) <= AllBodies(s, ending, timeoutMessage)
    ensures ending.Eof? && s.failure.None? && !Empty(s) ==>
      Bodies(Close(s).(created := true)) <= AllBodies(s, ending, timeoutMessage)
  {
    CloseGrows(s);
    var c := Close(s);
    assert s.created ==> c.(created := true) == c;
  }

  lemma ClosedAlready(s: State, ending: Ending, timeoutMessage: string)
    ensures AllBodies(Close(s), ending, timeoutMessage) == AllBodies(s, ending, timeoutMessage)
    ensures ReplyOf(Close(s), ending, timeoutMessage) == ReplyOf(s, ending, timeoutMessage)
  {
  }

  lemma NumberedSnoc(bodies: seq<Body>, b: Body)
    ensures Numbered(bodies + [b]) == Numbered(bodies) + [Frame(|bodies|, b)]
  {
  }
}
