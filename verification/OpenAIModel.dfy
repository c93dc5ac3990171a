/** The OpenAI chat stream as data: the chunks a run of upstream events calls for, and a client
    that follows them. */
module OpenAIModel {
  import opened Text
  import opened Upstream
  import opened Buffered
  import opened Identifiers

  datatype Delta = Content(text: string) | ReasoningContent(text: string) | ToolCalls(index: int, call: Call) | NoDelta

  datatype Counts = Counts(prompt: int, completion: int, cached: int)

  datatype Frame =
    | Chunk(role: bool, delta: Delta, finish: string, usage: Option<Counts>)
    | UsageChunk(counts: Counts)
    | ErrorFrame(typ: string, message: string, retryAfter: int)
    | DoneMark
    | KeepAlive

  predicate IsPing(f: Frame) { f.KeepAlive? }

  function NoPings(frames: seq<Frame>): seq<Frame> { Without(frames, IsPing) }

  function CountsOf(u: Usage): Counts { Counts(u.input, u.output, u.cached) }

  datatype State = State(
    chunks: seq<Frame>, sentRole: bool, toolCallIndex: nat, finishReason: string,
    usage: Option<Usage>, failure: Option<MappedError>)

  const INITIAL := State([], false, 0, "", None, None)

  function WithDelta(s: State, delta: Delta): State {
    s.(chunks := s.chunks + [Chunk(!s.sentRole, delta, "", None)], sentRole := true)
  }

  function CallOf(s: State, hex: Hex, id: string, name: string, input: Input): Call {
    Call(if id == "" then "call_" + hex(s.toolCallIndex) else id, name, ToolArgs(input))
  }

  function FinishUsage(s: State, total: Option<Usage>, step: Option<Usage>): Usage {
    var reported := ReportedUsage(total, step);
    Normalize(if reported.Some? then reported.value else if s.usage.Some? then s.usage.value else NO_USAGE)
  }

  function Step(s: State, hex: Hex, includeUsage: bool, ev: Event): State {
    match ev
    case TextDelta(t) => if t == "" then s else WithDelta(s, Content(t))
    case ReasoningDelta(t) => if t == "" then s else WithDelta(s, ReasoningContent(t))
    case ToolCall(id, name, input) =>
      var w := WithDelta(s, ToolCalls(s.toolCallIndex, CallOf(s, hex, id, name, input)));
      w.(toolCallIndex := s.toolCallIndex + 1)
    case FinishStep(reason, _, step) =>
      s.(finishReason := if reason == "" then s.finishReason else MapFinishReason(reason),
         usage := if step.Some? then Some(Normalize(step.value)) else s.usage)
    case Finish(reason, total, step) =>
      var fr := if s.finishReason == "" then MapFinishReason(reason) else s.finishReason;
      var u := FinishUsage(s, total, step);
      s.(usage := Some(u),
         chunks := s.chunks + [Chunk(false, NoDelta, fr, if includeUsage then None else Some(CountsOf(u)))])
    case Error(e) => s.(failure := Some(e))
    case Quiet(_) => s
    case Unknown => s
  }

  function Fold(hex: Hex, includeUsage: bool, evs: seq<Event>): State {
    if evs == [] then INITIAL else
      Step(Fold(hex, includeUsage, evs[..|evs| - 1]), hex, includeUsage, evs[|evs| - 1])
  }

  /** Nothing was streamed and no usage was reported. */
  predicate Empty(s: State) { s.chunks == [] && s.usage.None? }

  function Ends(s: State, includeUsage: bool): seq<Frame> {
    (if includeUsage && s.usage.Some? then [UsageChunk(CountsOf(s.usage.value))] else []) + [DoneMark]
  }

  /** Every frame, keep-alives aside, of a run in which no write fails. */
  function AllFrames(s: State, includeUsage: bool, ending: Ending, timeoutMessage: string): seq<Frame> {
    match ending
    case Cancelled => s.chunks
    case Idle => if s.chunks == [] then [] else s.chunks + [ErrorFrame("rate_limit_error", timeoutMessage, 5)]
    case Broken(msg) => if s.chunks == [] then [] else s.chunks + [ErrorFrame("proxy_error", msg, 0)]
    case Eof =>
      if s.failure.Some? then
        if s.chunks == [] then [] else
          s.chunks + [ErrorFrame(s.failure.value.typ, s.failure.value.message, s.failure.value.retryAfter)]
      else if Empty(s) then []
      else s.chunks + Ends(s, includeUsage)
  }

  function ReplyOf(s: State, ending: Ending, timeoutMessage: string): Reply {
    if s.chunks != [] then NoReply else
      match ending
      case Cancelled => NoReply
      case Idle => JsonError(IdleError(timeoutMessage))
      case Broken(msg) => JsonError(BrokenError(msg))
      case Eof =>
        if s.failure.Some? then JsonError(s.failure.value)
        else if Empty(s) then JsonError(EMPTY_ERROR)
        else NoReply
  }

  lemma {:induction false} FoldGrows(hex: Hex, includeUsage: bool, evs: seq<Event>, k: nat)
    requires k <= |evs|
    ensures Fold(hex, includeUsage, evs[..k]).chunks <= Fold(hex, includeUsage, evs).chunks
    decreases |evs| - k
  {
    if k == |evs| {
      assert evs[..k] == evs;
    } else {
      hide Step;
      assert evs[..k + 1][..k] == evs[..k];
      FoldGrows(hex, includeUsage, evs, k + 1);
      StepGrows(Fold(hex, includeUsage, evs[..k]), hex, includeUsage, evs[k]);
    }
  }

  lemma StepGrows(s: State, hex: Hex, includeUsage: bool, ev: Event)
    ensures s.chunks <= Step(s, hex, includeUsage, ev).chunks
  {
  }

  lemma AllGrows(s: State, includeUsage: bool, ending: Ending, timeoutMessage: string)
    ensures s.chunks <= AllFrames(s, includeUsage, ending, timeoutMessage)
  {
  }

  /* ---- A client ---- */

  /** It takes the role from the first content chunk and refuses another; it expects the tool calls
      to be numbered from 0, usage only right before the mark, and nothing after the mark or an error.
      A keep-alive is a comment and tells it nothing. */
  datatype Client =
    | Rejected
    | Client(hasRole: bool, content: string, reasoning: string, tools: seq<Call>, finish: string,
             usage: Option<Counts>, counted: bool, done: bool, trouble: Option<Trouble>)

  const NEW_CLIENT := Client(false, "", "", [], "", None, false, false, None)

  function Receive(c: Client, f: Frame): Client {
    if f.KeepAlive? then c
    else if c.Rejected? || c.done || c.trouble.Some? then Rejected
    else
      match f
      case KeepAlive => c
      case DoneMark => c.(done := true)
      case ErrorFrame(typ, message, retryAfter) =>
        if c.counted then Rejected else c.(trouble := Some(Trouble(typ, message, retryAfter)))
      case UsageChunk(counts) => if c.counted then Rejected else c.(counted := true, usage := Some(counts))
      case Chunk(role, delta, finish, usage) =>
        if c.counted then Rejected
        else if delta.NoDelta? then
          if role || finish == "" then Rejected
          else c.(finish := finish, usage := if usage.Some? then usage else c.usage)
        else if role == c.hasRole || finish != "" || usage.Some? then Rejected
        else
          match delta
          case Content(text) => c.(hasRole := true, content := c.content + text)
          case ReasoningContent(text) => c.(hasRole := true, reasoning := c.reasoning + text)
          case ToolCalls(index, call) =>
            if index == |c.tools| then c.(hasRole := true, tools := c.tools + [call]) else Rejected
          case NoDelta => c
  }

  function Follow(frames: seq<Frame>): Client {
    if frames == [] then NEW_CLIENT else Receive(Follow(frames[..|frames| - 1]), frames[|frames| - 1])
  }

  lemma FollowSnoc(frames: seq<Frame>, f: Frame)
    ensures Follow(frames + [f]) == Receive(Follow(frames), f)
  {
    assert (frames + [f])[..|frames|] == frames;
  }

  lemma {:induction false} FollowPrefix(a: seq<Frame>, b: seq<Frame>)
    requires a <= b && Follow(b) != Rejected
    ensures Follow(a) != Rejected
    decreases |b|
  {
    if a != b {
      assert a <= b[..|b| - 1];
      FollowPrefix(a, b[..|b| - 1]);
    }
  }

  /* ---- Finish reason and usage, read off the events ---- */

  /** The last non-empty reason of a finish-step. */
  function StepReason(evs: seq<Event>): string {
    if evs == [] then "" else
      var before := StepReason(evs[..|evs| - 1]);
      match evs[|evs| - 1] case FinishStep(r, _, _) => if r == "" then before else r case _ => before
  }

  /** The events up to the last finish. */
  function ToFinish(evs: seq<Event>): seq<Event> {
    if evs == [] || evs[|evs| - 1].Finish? then evs else ToFinish(evs[..|evs| - 1])
  }

  /** The reason that the stream shows: that of a finish-step before the last finish, if there is one, else
      the finish's own; "" without a finish. */
  function ShownReason(evs: seq<Event>): string {
    if LastFinish(evs).None? then ""
    else MapFinishReason(OrDefault(StepReason(ToFinish(evs)), LastFinish(evs).value))
  }

  function ReportOf(ev: Event): Option<Usage> {
    match ev
    case FinishStep(_, _, step) => step
    case Finish(_, total, step) => ReportedUsage(total, step)
    case _ => None
  }

  /** The last usage that a finish or a finish-step reports. */
  function LastReport(evs: seq<Event>): Option<Usage> {
    if evs == [] then None
    else if ReportOf(evs[|evs| - 1]).Some? then ReportOf(evs[|evs| - 1])
    else LastReport(evs[..|evs| - 1])
  }

  function CountsOrNone(u: Option<Usage>): Counts { CountsOf(Normalize(if u.Some? then u.value else NO_USAGE)) }

  /** The usage that the finishing chunk shows. */
  function ShownUsage(evs: seq<Event>): Option<Counts> {
    if LastFinish(evs).None? then None else Some(CountsOrNone(LastReport(ToFinish(evs))))
  }

  lemma {:induction false} Bookkeeping(hex: Hex, includeUsage: bool, evs: seq<Event>)
    ensures var s := Fold(hex, includeUsage, evs);
      && s.failure == LastError(evs)
      && (s.chunks != [] <==> HasContent(evs) || LastFinish(evs).Some?)
  {
    hide FinishUsage, CallOf, ToolArgs;
    if evs != [] {
      Bookkeeping(hex, includeUsage, evs[..|evs| - 1]);
    }
  }

  /** What the translator remembers of reasons and usage. */
  lemma {:induction false} Remembered(hex: Hex, includeUsage: bool, evs: seq<Event>)
    ensures var s := Fold(hex, includeUsage, evs);
      && s.finishReason == (if StepReason(evs) == "" then "" else MapFinishReason(StepReason(evs)))
      && s.usage == (if LastReport(evs).Some? then Some(Normalize(LastReport(evs).value))
                     else if LastFinish(evs).Some? then Some(NO_USAGE) else None)
  {
    hide CallOf, ToolArgs, WithDelta;
    if evs != [] {
      Remembered(hex, includeUsage, evs[..|evs| - 1]);
      DeltaRemembers(Fold(hex, includeUsage, evs[..|evs| - 1]));
    }
  }

  lemma DeltaRemembers(s: State)
    ensures forall delta :: WithDelta(s, delta).finishReason == s.finishReason && WithDelta(s, delta).usage == s.usage
  {
  }

  /** The client's view of the chunks, in terms of the events alone. */
  ghost predicate Sees(c: Client, s: State, hex: Hex, evs: seq<Event>, includeUsage: bool) {
    && c.Client? && !c.counted && !c.done && c.trouble.None?
    && c.hasRole == s.sentRole && |c.tools| == s.toolCallIndex
    && c.content == TextOf(evs) && c.reasoning == ReasoningOf(evs)
    && Drawn(c.tools, CallsOf(evs), "call_", hex, s.toolCallIndex)
    && c.finish == ShownReason(evs)
    && c.usage == if includeUsage then None else ShownUsage(evs)
  }

  lemma DeltaReceived(c: Client, role: bool, delta: Delta)
    requires c.Client? && !c.counted && !c.done && c.trouble.None? && role == !c.hasRole && !delta.NoDelta?
    requires delta.ToolCalls? ==> delta.index == |c.tools|
    ensures var after := match delta
        case Content(text) => c.(hasRole := true, content := c.content + text)
        case ReasoningContent(text) => c.(hasRole := true, reasoning := c.reasoning + text)
        case ToolCalls(_, call) => c.(hasRole := true, tools := c.tools + [call])
        case NoDelta => c;
      Receive(c, Chunk(role, delta, "", None)) == after
  {
  }

  lemma FinishReceived(c: Client, finish: string, usage: Option<Counts>)
    requires c.Client? && !c.counted && !c.done && c.trouble.None? && finish != ""
    ensures Receive(c, Chunk(false, NoDelta, finish, usage))
            == c.(finish := finish, usage := if usage.Some? then usage else c.usage)
  {
  }

  lemma EventsSnoc(evs: seq<Event>, ev: Event)
    ensures (evs + [ev])[..|evs|] == evs && (evs + [ev])[|evs|] == ev
    ensures NamedCalls(evs + [ev]) <==> NamedCalls(evs) && (ev.ToolCall? ==> ev.id != "")
  {
    var all := evs + [ev];
    assert all[..|evs|] == evs && all[|evs|] == ev;
    assert forall i :: 0 <= i < |evs| ==> all[i] == evs[i];
  }

  /** What one event adds to what the client sees. */
  lemma SeenSnoc(evs: seq<Event>, ev: Event)
    ensures var all := evs + [ev];
      && TextOf(all) == TextOf(evs) + (if ev.TextDelta? then ev.text else "")
      && ReasoningOf(all) == ReasoningOf(evs) + (if ev.ReasoningDelta? then ev.text else "")
      && CallsOf(all)
         == CallsOf(evs) + (if ev.ToolCall? then [Call(ev.id, ev.name, ToolArgs(ev.input))] else [])
      && (!ev.Finish? ==> ShownReason(all) == ShownReason(evs) && ShownUsage(all) == ShownUsage(evs))
  {
    hide ToolArgs, StepReason, LastReport;
    EventsSnoc(evs, ev);
  }

  lemma StepSeen(hex: Hex, includeUsage: bool, evs: seq<Event>, ev: Event)
    requires var s := Fold(hex, includeUsage, evs); Sees(Follow(s.chunks), s, hex, evs, includeUsage)
    ensures var t := Step(Fold(hex, includeUsage, evs), hex, includeUsage, ev);
      Sees(Follow(t.chunks), t, hex, evs + [ev], includeUsage)
  {
    hide Follow, FinishUsage, Receive, NamedCalls, Fold, TextOf, ReasoningOf, CallsOf, ShownReason, ShownUsage;
    hide ToolArgs, Drawn;
    EventsSnoc(evs, ev);
    SeenSnoc(evs, ev);
    assert !ev.ToolCall? ==> CallsOf(evs + [ev]) == CallsOf(evs);
    var s := Fold(hex, includeUsage, evs);
    var c, t := Follow(s.chunks), Step(s, hex, includeUsage, ev);
    if |t.chunks| > |s.chunks| {
      var f := t.chunks[|s.chunks|];
      FollowSnoc(s.chunks, f);
      if ev.Finish? {
        FinishShown(hex, includeUsage, evs, ev);
        FinishReceived(c, f.finish, f.usage);
      } else {
        DeltaReceived(c, !s.sentRole, f.delta);
        if ev.ToolCall? {
          var call := Call(ev.id, ev.name, ToolArgs(ev.input));
          DrawnSnoc(c.tools, CallsOf(evs), "call_", hex, s.toolCallIndex, call, s.toolCallIndex + 1);
        }
      }
    }
  }

  /** What the finishing chunk shows. */
  lemma FinishShown(hex: Hex, includeUsage: bool, evs: seq<Event>, ev: Event)
    requires ev.Finish?
    ensures var s := Fold(hex, includeUsage, evs);
      var fr := if s.finishReason == "" then MapFinishReason(ev.reason) else s.finishReason;
      && fr != "" && fr == ShownReason(evs + [ev])
      && Some(CountsOf(FinishUsage(s, ev.totalUsage, ev.stepUsage))) == ShownUsage(evs + [ev])
  {
    hide Fold;
    var all := evs + [ev];
    EventsSnoc(evs, ev);
    Remembered(hex, includeUsage, evs);
    assert ToFinish(all) == all && StepReason(all) == StepReason(evs);
  }

  lemma {:induction false} ChunksSeen(hex: Hex, includeUsage: bool, evs: seq<Event>)
    ensures Sees(Follow(Fold(hex, includeUsage, evs).chunks), Fold(hex, includeUsage, evs), hex, evs, includeUsage)
  {
    hide Step, Sees;
    if evs == [] {
      NothingSeen(hex, includeUsage);
    } else {
      var before := evs[..|evs| - 1];
      ChunksSeen(hex, includeUsage, before);
      assert evs == before + [evs[|evs| - 1]];
      StepSeen(hex, includeUsage, before, evs[|evs| - 1]);
    }
  }

  lemma NothingSeen(hex: Hex, includeUsage: bool)
    ensures Follow([]) == NEW_CLIENT
    ensures Sees(Follow(INITIAL.chunks), INITIAL, hex, [], includeUsage)
  {
  }

  /** The trouble that the stream tells of: a timeout, a broken connection, or the upstream's own error. */
  function TroubleOf(evs: seq<Event>, ending: Ending, timeoutMessage: string): Option<Trouble> {
    match ending
    case Cancelled => None
    case Idle => Some(Trouble("rate_limit_error", timeoutMessage, 5))
    case Broken(message) => Some(Trouble("proxy_error", message, 0))
    case Eof =>
      if LastError(evs).None? then None
      else
        var e := LastError(evs).value;
        Some(Trouble(e.typ, e.message, e.retryAfter))
  }

  /** Every frame sequence of a run without write failures satisfies the client. The mark comes at
      the end of exactly the successful runs, the error at the end of exactly the failed ones; what
      the client has put together is the text, the reasoning and the calls of the events. */
  lemma AllFollowed(hex: Hex, includeUsage: bool, evs: seq<Event>, ending: Ending, timeoutMessage: string)
    ensures var s := Fold(hex, includeUsage, evs);
      var all := AllFrames(s, includeUsage, ending, timeoutMessage);
      var c := Follow(all);
      && c.Client?
      && (c.done <==> ending.Eof? && s.failure.None? && !Empty(s))
      && c.trouble == (if all == [] then None else TroubleOf(evs, ending, timeoutMessage))
      && (all != [] ==> c.content == TextOf(evs) && c.reasoning == ReasoningOf(evs))
      && (all != [] ==> Told(c.tools, CallsOf(evs), "call_", hex))
      && (all != [] ==> c.finish == ShownReason(evs))
      && (all != [] && !includeUsage ==> c.usage == ShownUsage(evs))
      && (includeUsage && c.done ==> c.usage == if s.usage.Some? then Some(CountsOf(s.usage.value)) else None)
  {
    hide Fold, Follow, Ends, Receive;
    var s := Fold(hex, includeUsage, evs);
    Bookkeeping(hex, includeUsage, evs);
    ChunksSeen(hex, includeUsage, evs);
    var all := AllFrames(s, includeUsage, ending, timeoutMessage);
    assert Follow([]) == NEW_CLIENT by {
      NothingSeen(hex, includeUsage);
    }
    if ending.Eof? && s.failure.None? && !Empty(s) {
      EndsFollowed(s, includeUsage);
    } else if all != [] && !ending.Cancelled? {
      var last := all[|all| - 1];
      assert all == s.chunks + [last];
      ErrorFollowed(s.chunks, last);
    }
  }

  lemma EndsFollowed(s: State, includeUsage: bool)
    requires Open(Follow(s.chunks)) && !Follow(s.chunks).counted
    ensures var c, shown := Follow(s.chunks + Ends(s, includeUsage)), includeUsage && s.usage.Some?;
      c == Follow(s.chunks).(counted := shown, done := true,
                             usage := if shown then Some(CountsOf(s.usage.value)) else Follow(s.chunks).usage)
  {
    hide Follow;
    var ends := Ends(s, includeUsage);
    FollowSnoc(s.chunks, ends[0]);
    if |ends| == 2 {
      FollowSnoc(s.chunks + [ends[0]], ends[1]);
      assert s.chunks + ends == s.chunks + [ends[0]] + [ends[1]];
    } else {
      assert ends == [ends[0]];
    }
  }

  lemma ErrorFollowed(chunks: seq<Frame>, last: Frame)
    requires Open(Follow(chunks)) && !Follow(chunks).counted && last.ErrorFrame?
    ensures Follow(chunks + [last])
            == Follow(chunks).(trouble := Some(Trouble(last.typ, last.message, last.retryAfter)))
  {
    FollowSnoc(chunks, last);
  }

  predicate Open(c: Client) { c.Client? && !c.done && c.trouble.None? }

  lemma {:induction false} FollowIgnoresPings(wire: seq<Frame>)
    ensures Follow(wire) == Follow(NoPings(wire))
  {
    hide Receive;
    if wire != [] {
      var most, last := wire[..|wire| - 1], wire[|wire| - 1];
      WithoutSnoc(most, last, IsPing);
      FollowIgnoresPings(most);
      assert wire == most + [last];
      FollowSnoc(most, last);
      if last.KeepAlive? {
        KeepAliveIgnored(Follow(most));
        assert NoPings(most) + [] == NoPings(most);
      } else {
        FollowSnoc(NoPings(most), last);
      }
    }
  }

  lemma KeepAliveIgnored(c: Client)
    ensures Receive(c, KeepAlive) == c
  {
  }

  /** Two reasons that read the same once they are mapped. */
  predicate ReadAlike(a: string, b: string) {
    || a == b
    || (a in {"tool-calls", "tool_calls"} && b in {"tool-calls", "tool_calls"})
    || (a in {"", "stop"} && b in {"", "stop"})
  }

  lemma ReadAlikeIs(a: string, b: string)
    ensures ReadAlike(a, b) <==> MapFinishReason(a) == MapFinishReason(b)
  {
  }

  /** The streamed and the buffered reply. Text, reasoning and calls agree. The finish reasons agree exactly
      if there is a finish and no finish-step before the last one gives another reason. The usages agree
      exactly if one is shown and the last usage reported before it is shown, by a finish or a finish-step,
      counts the same as the last one that a finish reports. */
  lemma Agreement(hex: Hex, includeUsage: bool, evs: seq<Event>, timeoutMessage: string)
    requires LastError(evs).None? && HasContent(evs)
    ensures var c := Follow(AllFrames(Fold(hex, includeUsage, evs), includeUsage, Eof, timeoutMessage));
      var step := StepReason(ToFinish(evs));
      && c.Client? && c.done
      && c.content == TextOf(evs) && c.reasoning == ReasoningOf(evs)
      && Told(c.tools, CallsOf(evs), "call_", hex) && Told(NamedBy(hex, evs), CallsOf(evs), "call_", hex)
      && (NamedCalls(evs) ==> c.tools == NamedBy(hex, evs))
      && (c.finish == FinishOf(evs)
          <==> LastFinish(evs).Some? && (step == "" || ReadAlike(step, LastFinish(evs).value)))
      && (c.usage == Some(CountsOrNone(LastUsage(evs)))
          <==> if includeUsage then
                 && (LastReport(evs).Some? || LastFinish(evs).Some?)
                 && CountsOrNone(LastReport(evs)) == CountsOrNone(LastUsage(evs))
               else
                 && LastFinish(evs).Some?
                 && CountsOrNone(LastReport(ToFinish(evs))) == CountsOrNone(LastUsage(evs)))
  {
    hide AllFrames, Follow, Fold, StepReason, LastReport, ToFinish, NamedCalls, NamedBy, CallsOf;
    AllFollowed(hex, includeUsage, evs, Eof, timeoutMessage);
    NamedByTold(hex, evs);
    ToldUpstream(NamedBy(hex, evs), "call_", hex, evs);
    Bookkeeping(hex, includeUsage, evs);
    Remembered(hex, includeUsage, evs);
    SomeFrames(Fold(hex, includeUsage, evs), includeUsage, timeoutMessage);
    var all := AllFrames(Fold(hex, includeUsage, evs), includeUsage, Eof, timeoutMessage);
    ToldUpstream(Follow(all).tools, "call_", hex, evs);
    ReadAlikeIs(StepReason(ToFinish(evs)), if LastFinish(evs).Some? then LastFinish(evs).value else "");
  }

  /** Token counts as reported, none of them input if there is no output. */
  predicate CountsMean(counts: Counts, u: Usage) {
    && counts.completion == u.output
    && counts.prompt == (if u.output == 0 then 0 else u.input)
    && counts.cached == (if u.output == 0 then 0 else u.cached)
  }

  /** A usage, or none at all. */
  function OrNone(u: Option<Usage>): Usage { if u.Some? then u.value else NO_USAGE }

  lemma CountsMeant(u: Option<Usage>)
    ensures CountsMean(CountsOrNone(u), OrNone(u))
  {
  }

  /** How the stream ends: the finish reason and the usage that its client is told. */
  lemma EndTold(hex: Hex, includeUsage: bool, evs: seq<Event>, timeoutMessage: string)
    requires LastError(evs).None? && HasContent(evs)
    ensures var c := Follow(AllFrames(Fold(hex, includeUsage, evs), includeUsage, Eof, timeoutMessage));
      && c.Client?
      && (if LastFinish(evs).None? then c.finish == ""
          else
            var step := StepReason(ToFinish(evs));
            c.finish == match (if step == "" then LastFinish(evs).value else step)
                        case "" => "stop"
                        case "tool-calls" => "tool_calls"
                        case reason => reason)
      && (if includeUsage then
            && (c.usage.Some? <==> LastReport(evs).Some? || LastFinish(evs).Some?)
            && (c.usage.Some? ==> CountsMean(c.usage.value, OrNone(LastReport(evs))))
          else
            && (c.usage.Some? <==> LastFinish(evs).Some?)
            && (c.usage.Some? ==> CountsMean(c.usage.value, OrNone(LastReport(ToFinish(evs))))))
  {
    hide AllFrames, Follow, Fold, StepReason, LastReport, ToFinish, CountsMean, CountsOrNone, Normalize;
    AllFollowed(hex, includeUsage, evs, Eof, timeoutMessage);
    Bookkeeping(hex, includeUsage, evs);
    Remembered(hex, includeUsage, evs);
    SomeFrames(Fold(hex, includeUsage, evs), includeUsage, timeoutMessage);
    CountsMeant(LastReport(evs));
    CountsMeant(LastReport(ToFinish(evs)));
    NoneNormal();
    CountsAre(OrNone(LastReport(evs)));
  }

  lemma NoneNormal()
    ensures Normalize(NO_USAGE) == NO_USAGE
  {
  }

  lemma CountsAre(u: Usage)
    ensures CountsOf(Normalize(u)) == CountsOrNone(Some(u)) && CountsOf(NO_USAGE) == CountsOrNone(None)
  {
  }

  lemma SomeFrames(s: State, includeUsage: bool, timeoutMessage: string)
    requires s.chunks != []
    ensures AllFrames(s, includeUsage, Eof, timeoutMessage) != []
  {
  }

  /** If only finishes report usage, the last report is the one that the buffered form keeps. */
  lemma {:induction false} UsageFromFinishes(evs: seq<Event>)
    requires forall i :: 0 <= i < |evs| && evs[i].FinishStep? ==> evs[i].stepUsage.None?
    ensures LastReport(evs) == LastUsage(evs) && LastReport(ToFinish(evs)) == LastUsage(evs)
  {
    if evs != [] {
      UsageFromFinishes(evs[..|evs| - 1]);
    }
  }

  /** Whether both forms answer with the same JSON error, or neither with one. A failure that comes after
      content or a finish is told by the stream in a frame, so they do only if there was neither. A clean end
      is answered alike exactly if there is content, or neither a finish nor a finish-step that reports usage;
      otherwise the stream ends normally where the buffered form answers with an error. */
  lemma RepliesAgree(hex: Hex, includeUsage: bool, evs: seq<Event>, ending: Ending, timeoutMessage: string)
    ensures
      ReplyOf(Fold(hex, includeUsage, evs), ending, timeoutMessage) == BufferedReply(evs, ending, timeoutMessage) <==>
      match ending
      case Cancelled => true
      case Eof =>
        if LastError(evs).Some? then !HasContent(evs) && LastFinish(evs).None?
        else HasContent(evs) || (LastFinish(evs).None? && LastReport(evs).None?)
      case _ => !HasContent(evs) && LastFinish(evs).None?
  {
    hide HasContent, LastReport, Fold;
    Bookkeeping(hex, includeUsage, evs);
    Remembered(hex, includeUsage, evs);
  }

  /** A lone finish: the stream ends normally, and the buffered form refuses. */
  lemma RepliesCanDiffer(hex: Hex, includeUsage: bool, timeoutMessage: string)
    ensures var evs := [Finish("stop", None, None)];
      && ReplyOf(Fold(hex, includeUsage, evs), Eof, timeoutMessage) == NoReply
      && BufferedReply(evs, Eof, timeoutMessage) == JsonError(EMPTY_ERROR)
  {
    var evs := [Finish("stop", None, None)];
    assert evs[..0] == [];
    Bookkeeping(hex, includeUsage, evs);
    Remembered(hex, includeUsage, evs);
  }

  /** A finish-step with a reason and a usage of its own: both differ from what the buffered form says. */
  lemma EndsCanDiffer(hex: Hex, timeoutMessage: string)
    ensures var u, v := Usage(3, 5, 0, None), Usage(7, 9, 0, None);
      var evs := [TextDelta("a"), Finish("stop", Some(u), None), FinishStep("length", None, Some(v)),
                  Finish("stop", None, None)];
      && ShownReason(evs) == "length" && FinishOf(evs) == "stop"
      && ShownUsage(evs) == Some(Counts(7, 9, 0)) && CountsOrNone(LastUsage(evs)) == Counts(3, 5, 0)
  {
    var u, v := Usage(3, 5, 0, None), Usage(7, 9, 0, None);
    var evs := [TextDelta("a"), Finish("stop", Some(u), None), FinishStep("length", None, Some(v)),
                Finish("stop", None, None)];
    var three := [TextDelta("a"), Finish("stop", Some(u), None), FinishStep("length", None, Some(v))];
    assert evs[..3] == three && three[..2] == [TextDelta("a"), Finish("stop", Some(u), None)];
    assert LastUsage(three[..2]) == Some(u) && LastUsage(three) == Some(u) && LastUsage(evs) == Some(u);
    assert StepReason(three) == "length" && LastReport(three) == Some(v);
  }

  /** chatNonStream: the message of the buffered reply. */
  datatype Message = Message(
    content: Option<string>, toolCalls: seq<Call>, reasoning: string, finishReason: string, usage: Counts)

  method NonStream(hex: Hex, events: seq<Event>, ending: Ending, timeoutMessage: string)
    returns (reply: Reply, body: Option<Message>)
    ensures reply == BufferedReply(events, ending, timeoutMessage)
    ensures body.Some? <==> ending.Eof? && reply.NoReply?
    ensures body.Some? ==>
      body.value == Message(if TextOf(events) == "" then None else Some(TextOf(events)), NamedBy(hex, events),
                            ReasoningOf(events), FinishOf(events),
                            CountsOf(Normalize(if LastUsage(events).None? then NO_USAGE else LastUsage(events).value)))
  {
    var c := Collect(hex, events);
    reply := Refuse(c, ending, timeoutMessage, events);
    body := None;
    if ending.Eof? && reply.NoReply? {
      var content := None;
      if c.fullText != "" {
        content := Some(c.fullText);
      }
      var u := Normalize(if c.usage.None? then NO_USAGE else c.usage.value);
      body := Some(Message(content, c.toolCalls, c.thinking, c.finishReason, CountsOf(u)));
    }
  }
}
