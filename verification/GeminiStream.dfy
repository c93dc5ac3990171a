/** gemini.go: the three forms of a Gemini reply, as an event stream, as one JSON array, and buffered, and
    how far they agree. */
module GeminiStream {
  import opened Text
  import opened Upstream
  import opened Buffered
  import opened Sse
  import Json
  import JsonCompact

  datatype Part = TextPart(text: string, thought: bool) | FunctionPart(name: string, args: string)

  datatype Counts = Counts(prompt: int, candidates: int, total: int, cached: int)

  /** One response object; a finish reason of "" is left out. */
  datatype Chunk = Chunk(parts: seq<Part>, finish: string, counts: Counts)

  datatype Frame = Content(chunk: Chunk) | ErrorFrame(code: int, message: string)

  datatype State = State(usage: Option<Usage>, finish: string, finished: bool, hasContent: bool, outputTok: int)

  const INITIAL := State(None, "", false, false, 0)

  function MapGeminiFinishReason(reason: string): string { if reason == "length" then "MAX_TOKENS" else "STOP" }

  function BuildUsage(u: Option<Usage>, fallback: int): Counts {
    var n := Normalize(if u.Some? then u.value else NO_USAGE);
    var out := if n.output == 0 then fallback else n.output;
    Counts(n.input, out, n.input + out, n.cached)
  }

  /** What a client should be told of why a reply ended: whether the upstream cut it short. */
  function TellsEnd(evs: seq<Event>): string { if LastFinish(evs) == Some("length") then "MAX_TOKENS" else "STOP" }

  /* ---- What the events call for ---- */

  /** The part that an event adds, if any. */
  function PartOf(ev: Event): Option<Part> {
    match ev
    case TextDelta(t) => if t == "" then None else Some(TextPart(t, false))
    case ReasoningDelta(t) => if t == "" then None else Some(TextPart(t, true))
    case ToolCall(_, name, input) => Some(FunctionPart(name, ToolArgs(input)))
    case _ => None
  }

  function Consumed(s: State, ev: Event): State {
    match ev
    case TextDelta(t) => s.(hasContent := true, outputTok := s.outputTok + 1)
    case ReasoningDelta(t) => s.(hasContent := true, outputTok := s.outputTok + 1)
    case ToolCall(_, _, _) => s.(hasContent := true, outputTok := s.outputTok + 20)
    case Finish(reason, total, step) =>
      var s1 := s.(finished := true, finish := reason);
      if ReportedUsage(total, step).None? then s1 else
        var u := Normalize(ReportedUsage(total, step).value);
        s1.(usage := Some(u), outputTok := u.output)
    case _ => s
  }

  function ChunkOf(s: State, part: Part): Chunk {
    Chunk([part], if s.finished then MapGeminiFinishReason(s.finish) else "", BuildUsage(s.usage, s.outputTok))
  }

  function After(evs: seq<Event>): State {
    if evs == [] then INITIAL else
      var before, ev := After(evs[..|evs| - 1]), evs[|evs| - 1];
      if PartOf(ev).Some? || ev.Finish? then Consumed(before, ev) else before
  }

  const NO_TEXT := TextPart("", false)

  /* ---- Encoding: the arguments of a function are embedded as JSON ---- */

  predicate Encodes(p: Part) { p.FunctionPart? ==> Json.Parse(p.args).Some? }

  function SentPart(p: Part, html: bool): Part {
    if p.FunctionPart? then p.(args := JsonCompact.Compact(Json.START, p.args, html)) else p
  }

  function SentParts(parts: seq<Part>, html: bool): seq<Part> {
    seq(|parts|, i requires 0 <= i < |parts| => SentPart(parts[i], html))
  }

  /** A chunk as json.Marshal encodes it; None is the error. */
  function Encoded(c: Chunk, html: bool): Option<Chunk> {
    if forall i :: 0 <= i < |c.parts| ==> Encodes(c.parts[i]) then Some(c.(parts := SentParts(c.parts, html))) else None
  }

  function AsList(c: Option<Chunk>): seq<Chunk> { if c.Some? then [c.value] else [] }

  /** The chunks that the event stream is to send: one for each part and one for each finish. */
  function Due(evs: seq<Event>): seq<Chunk> {
    if evs == [] then [] else Due(evs[..|evs| - 1]) + AsList(DueNow(evs))
  }

  /** The chunk that the last event calls for. */
  function DueNow(evs: seq<Event>): Option<Chunk>
    requires evs != []
  {
    var ev := evs[|evs| - 1];
    if PartOf(ev).Some? then Some(ChunkOf(After(evs), PartOf(ev).value))
    else if ev.Finish? then Some(ChunkOf(After(evs), NO_TEXT))
    else None
  }

  /** The chunks that reach the wire: one that cannot be encoded is passed over in silence. */
  function Streamed(evs: seq<Event>): seq<Chunk> {
    if evs == [] then [] else
      Streamed(evs[..|evs| - 1]) + if DueNow(evs).Some? then AsList(Encoded(DueNow(evs).value, true)) else []
  }

  /** The chunks of the array before its last one. */
  function Listed(evs: seq<Event>): seq<Chunk> {
    if evs == [] then [] else
      var ev := evs[|evs| - 1];
      Listed(evs[..|evs| - 1]) + if PartOf(ev).Some? then [ChunkOf(After(evs), PartOf(ev).value)] else []
  }

  function Contents(chunks: seq<Chunk>): seq<Frame> {
    seq(|chunks|, i requires 0 <= i < |chunks| => Content(chunks[i]))
  }

  /** The stream starts with the first chunk that is due, whether or not it can be encoded. */
  predicate Begun(evs: seq<Event>) { Due(evs) != [] }

  /** Every frame of a run of the event stream in which no write fails. */
  function AllFrames(evs: seq<Event>, ending: Ending, timeoutMessage: string): seq<Frame> {
    var frames := Contents(Streamed(evs));
    if !Begun(evs) then [] else
      match ending
      case Cancelled => frames
      case Idle => frames + [ErrorFrame(429, timeoutMessage)]
      case Broken(_) => frames + [ErrorFrame(502, "upstream error")]
      case Eof =>
        if LastError(evs).Some? then frames + [ErrorFrame(LastError(evs).value.status, LastError(evs).value.message)]
        else frames
  }

  /** The JSON error of a run that streams nothing, as a status and a message. */
  function ReplyOf(evs: seq<Event>, ending: Ending, timeoutMessage: string): Option<(int, string)> {
    if Begun(evs) then None else RefusalOf(evs, ending, timeoutMessage)
  }

  /** The JSON error of a run that cannot be answered. */
  function RefusalOf(evs: seq<Event>, ending: Ending, timeoutMessage: string): Option<(int, string)> {
    match ending
    case Cancelled => None
    case Idle => Some((429, timeoutMessage))
    case Broken(message) => Some((502, "Upstream error: " + message))
    case Eof =>
      if LastError(evs).Some? then Some((LastError(evs).value.status, LastError(evs).value.message))
      else Some((429, "Empty response from upstream (zero output tokens)"))
  }

  /* ---- The state, updated in place ---- */

  class StreamState {
    var usage: Option<Usage>
    var finish: string
    var finished: bool
    var hasContent: bool
    var outputTok: int

    constructor ()
      ensures Value() == INITIAL
    {
      usage, finish, finished, hasContent, outputTok := None, "", false, false, 0;
    }

    function Value(): State
      reads this
    {
      State(usage, finish, finished, hasContent, outputTok)
    }

    method Consume(ev: Event)
      modifies this
      ensures Value() == Consumed(old(Value()), ev)
    {
      match ev
      case TextDelta(_) =>
        hasContent := true;
        outputTok := outputTok + 1;
      case ReasoningDelta(_) =>
        hasContent := true;
        outputTok := outputTok + 1;
      case ToolCall(_, _, _) =>
        hasContent := true;
        outputTok := outputTok + 20;
      case Finish(reason, total, step) =>
        finished, finish := true, reason;
        var u := total;
        if u.None? {
          u := step;
        }
        if u.Some? {
          usage := Some(Normalize(u.value));
          outputTok := Normalize(u.value).output;
        }
      case _ =>
    }

    method MakeChunk(part: Part) returns (c: Chunk)
      ensures c == ChunkOf(Value(), part)
    {
      c := Chunk([part], "", BuildUsage(usage, outputTok));
      if finished {
        c := c.(finish := MapGeminiFinishReason(finish));
      }
    }
  }

  /* ---- The event stream ---- */

  lemma EventsSnoc(evs: seq<Event>, i: nat)
    requires i < |evs|
    ensures var ev, now, before := evs[i], evs[..i + 1], evs[..i];
      && After(now) == (if PartOf(ev).Some? || ev.Finish? then Consumed(After(before), ev) else After(before))
      && DueNow(now) == (if PartOf(ev).Some? then Some(ChunkOf(After(now), PartOf(ev).value))
                         else if ev.Finish? then Some(ChunkOf(After(now), NO_TEXT)) else None)
      && Due(now) == Due(before) + AsList(DueNow(now))
      && Streamed(now)
         == Streamed(before) + (if DueNow(now).Some? then AsList(Encoded(DueNow(now).value, true)) else [])
      && Listed(now) == Listed(before) + (if PartOf(ev).Some? then [ChunkOf(After(now), PartOf(ev).value)] else [])
      && LastError(now) == (if ev.Error? then Some(ev.err) else LastError(before))
  {
    assert evs[..i + 1][..i] == evs[..i];
  }

  lemma {:induction false} StreamedGrows(evs: seq<Event>, i: nat)
    requires i <= |evs|
    ensures Contents(Streamed(evs[..i])) <= Contents(Streamed(evs))
    ensures Begun(evs[..i]) ==> Begun(evs)
    decreases |evs| - i
  {
    hide DueNow, Encoded;
    if i == |evs| {
      assert evs[..i] == evs;
    } else {
      StreamedGrows(evs, i + 1);
      EventsSnoc(evs, i);
    }
  }

  /** The stream starts exactly if there is content or a finish. */
  lemma {:induction false} BegunWhen(evs: seq<Event>)
    ensures Begun(evs) <==> HasContent(evs) || LastFinish(evs).Some?
    ensures After(evs).hasContent <==> HasContent(evs)
    ensures !Begun(evs) ==> After(evs) == INITIAL && Streamed(evs) == []
  {
    hide Encoded, ChunkOf, ToolArgs, TextOf, ReasoningOf, CallsOf;
    if evs == [] {
      assert !HasContent([]) by {
        NoContent();
      }
    } else {
      BegunWhen(evs[..|evs| - 1]);
      ContentSnoc(evs);
    }
  }

  ghost predicate Wired(sw: SseWriter<Frame>)
    reads sw
  {
    (!sw.started ==> sw.wire == []) && (!sw.failed ==> sw.pending == []) && (sw.failed ==> sw.started)
  }

  /** One frame, or none if it could not be encoded. */
  method Emit(sw: SseWriter<Frame>, frame: Option<Frame>) returns (ok: bool)
    requires Wired(sw)
    modifies sw
    ensures Wired(sw) && sw.started && ok == !sw.failed
    ensures old(sw.failed) ==> sw.failed
    ensures sw.wire == if ok && frame.Some? then old(sw.wire) + [frame.value] else old(sw.wire)
  {
    ok := sw.Start();
    if !ok {
      return;
    }
    if frame.None? {
      return !sw.failed;
    }
    ok := sw.Write(frame.value);
  }

  /** The callback run on every decoded upstream event. */
  method Handle(sw: SseWriter<Frame>, st: StreamState, ghost evs: seq<Event>, ev: Event, ghost i: nat)
    returns (ok: bool)
    requires Wired(sw) && !sw.failed && i < |evs| && evs[i] == ev
    requires st.Value() == After(evs[..i]) && sw.wire == Contents(Streamed(evs[..i])) && sw.started == Begun(evs[..i])
    modifies sw, st
    ensures Wired(sw) && st.Value() == After(evs[..i + 1]) && ok == !sw.failed
    ensures sw.started == Begun(evs[..i + 1])
    ensures ok ==> sw.wire == Contents(Streamed(evs[..i + 1]))
    ensures !ok ==> sw.wire <= Contents(Streamed(evs[..i + 1]))
  {
    hide ChunkOf, Consumed, Streamed, Due, After, ToolArgs, Encoded;
    EventsSnoc(evs, i);
    ok := true;
    var part := PartOf(ev);
    if part.Some? {
      st.Consume(ev);
      var chunk := st.MakeChunk(part.value);
      ok := EmitChunk(sw, chunk);
    } else if ev.Finish? {
      st.Consume(ev);
      var chunk := st.MakeChunk(NO_TEXT);
      ok := EmitChunk(sw, chunk);
    }
  }

  method EmitChunk(sw: SseWriter<Frame>, chunk: Chunk) returns (ok: bool)
    requires Wired(sw) && !sw.failed
    modifies sw
    ensures Wired(sw) && sw.started && ok == !sw.failed
    ensures sw.wire == if ok then old(sw.wire) + Contents(AsList(Encoded(chunk, true))) else old(sw.wire)
  {
    hide Encoded;
    var enc := Encoded(chunk, true);
    ok := Emit(sw, if enc.Some? then Some(Content(enc.value)) else None);
    assert old(sw.wire) + [] == old(sw.wire);
  }

  /** geminiStreamSSE. The branch that would write a last frame when nothing was started is never
      reached. */
  method StreamSSE(sw: SseWriter<Frame>, events: seq<Event>, ending: Ending, timeoutMessage: string)
    returns (reply: Option<(int, string)>)
    requires Wired(sw) && !sw.started && !sw.failed
    modifies sw
    ensures sw.started == Begun(events)
    ensures sw.failed ==> sw.wire <= AllFrames(events, ending, timeoutMessage)
    ensures !sw.failed ==> sw.wire == AllFrames(events, ending, timeoutMessage)
    ensures reply == ReplyOf(events, ending, timeoutMessage)
    ensures reply.Some? ==> sw.wire == []
    // The last chunk of a whole stream tells why it ended, if the upstream said so.
    ensures !sw.failed && LastFinish(events).Some? ==>
      var n := |Streamed(events)|;
      0 < n <= |sw.wire| && sw.wire[n - 1].Content? && sw.wire[n - 1].chunk.finish == TellsEnd(events)
  {
    hide Streamed, Due, Begun, Contents, After, LastError;
    var st := new StreamState();
    var upstreamErr: Option<MappedError> := None;
    Beginning();
    assert events[..0] == [];
    var ok, i := true, 0;
    while i < |events| && ok
      invariant 0 <= i <= |events| && Wired(sw) && ok == !sw.failed
      invariant st.Value() == After(events[..i]) && upstreamErr == LastError(events[..i])
      invariant sw.started == Begun(events[..i])
      invariant ok ==> sw.wire == Contents(Streamed(events[..i]))
      invariant !ok ==> sw.wire <= Contents(Streamed(events[..i]))
      invariant fresh(st)
    {
      ok := Handle(sw, st, events, events[i], i);
      EventsSnoc(events, i);
      if events[i].Error? {
        upstreamErr := Some(events[i].err);
      }
      i := i + 1;
    }
    reply := None;
    StreamedGrows(events, i);
    FramesGrow(events, ending, timeoutMessage);
    WireEnd(events, ending, timeoutMessage);
    if !ok {
      Prefix3(sw.wire, Contents(Streamed(events[..i])), Contents(Streamed(events)));
      Prefix3(sw.wire, Contents(Streamed(events)), AllFrames(events, ending, timeoutMessage));
      return;
    }
    assert events[..i] == events;
    BegunWhen(events);
    match ending
    case Cancelled =>
    case Idle =>
      if !sw.started {
        return Some((429, timeoutMessage));
      }
      var _ := Emit(sw, Some(ErrorFrame(429, timeoutMessage)));
    case Broken(message) =>
      if !sw.started {
        return Some((502, "Upstream error: " + message));
      }
      var _ := Emit(sw, Some(ErrorFrame(502, "upstream error")));
    case Eof =>
      if upstreamErr.Some? {
        if !sw.started {
          return Some((upstreamErr.value.status, upstreamErr.value.message));
        }
        var _ := Emit(sw, Some(ErrorFrame(upstreamErr.value.status, upstreamErr.value.message)));
        return;
      }
      if !st.hasContent && st.outputTok == 0 {
        if !sw.started {
          return Some((429, "Empty response from upstream (zero output tokens)"));
        }
      }
      assert sw.started;
  }

  lemma Beginning()
    ensures After([]) == INITIAL && Streamed([]) == [] && !Begun([]) && Contents([]) == [] && LastError([]).None?
  {
  }

  lemma FramesGrow(evs: seq<Event>, ending: Ending, timeoutMessage: string)
    ensures Begun(evs) ==> Contents(Streamed(evs)) <= AllFrames(evs, ending, timeoutMessage)
    ensures !Begun(evs) ==> Contents(Streamed(evs)) == [] && AllFrames(evs, ending, timeoutMessage) == []
  {
    BegunWhen(evs);
  }

  /* ---- The array ---- */

  /** Every call's arguments, as they are, are a JSON text. */
  predicate AllArgs(calls: seq<Call>) { forall i :: 0 <= i < |calls| ==> Json.Parse(calls[i].args).Some? }

  function SentChunks(chunks: seq<Chunk>): seq<Chunk> {
    seq(|chunks|, i requires 0 <= i < |chunks| => chunks[i].(parts := SentParts(chunks[i].parts, false)))
  }

  predicate Encodable(chunks: seq<Chunk>) { forall i :: 0 <= i < |chunks| ==> Encoded(chunks[i], false).Some? }

  /** writeJSON, for the array: it encodes every chunk, or fails. */
  method EncodeAll(chunks: seq<Chunk>) returns (sent: Option<seq<Chunk>>)
    ensures sent.Some? <==> Encodable(chunks)
    ensures sent.Some? ==> sent.value == SentChunks(chunks)
  {
    hide SentParts, Encodes;
    var out: seq<Chunk> := [];
    for i := 0 to |chunks|
      invariant |out| == i && forall k :: 0 <= k < i ==> Encoded(chunks[k], false) == Some(out[k])
    {
      var enc := Encoded(chunks[i], false);
      if enc.None? {
        return None;
      }
      out := out + [enc.value];
    }
    return Some(out);
  }

  /** All chunks of the array. */
  function Array(evs: seq<Event>): seq<Chunk> { Listed(evs) + [ChunkOf(After(evs), NO_TEXT)] }

  /** Whether there is something to encode: content, and no failure. */
  predicate Answerable(evs: seq<Event>, ending: Ending) { ending.Eof? && LastError(evs).None? && HasContent(evs) }

  /** The JSON error of a form that is encoded as a whole. */
  function EncodedReply(evs: seq<Event>, ending: Ending, timeoutMessage: string, encodes: bool): Option<(int, string)> {
    if !Answerable(evs, ending) then RefusalOf(evs, ending, timeoutMessage)
    else if encodes then None
    else Some((500, "encode error"))
  }

  /** geminiStreamArray. */
  method StreamArray(events: seq<Event>, ending: Ending, timeoutMessage: string)
    returns (reply: Option<(int, string)>, chunks: seq<Chunk>)
    ensures chunks != [] <==> Answerable(events, ending) && AllArgs(CallsOf(events))
    ensures chunks != [] ==> chunks == SentChunks(Array(events))
    ensures chunks != [] ==>
      chunks[|chunks| - 1].finish == if LastFinish(events).None? then "" else TellsEnd(events)
    ensures reply == EncodedReply(events, ending, timeoutMessage, AllArgs(CallsOf(events)))
  {
    hide ChunkOf, Consumed, ToolArgs, AllArgs;
    var st := new StreamState();
    var upstreamErr: Option<MappedError> := None;
    chunks := [];
    for i := 0 to |events|
      invariant fresh(st) && st.Value() == After(events[..i]) && upstreamErr == LastError(events[..i])
      invariant chunks == Listed(events[..i])
    {
      var ev := events[i];
      EventsSnoc(events, i);
      if PartOf(ev).Some? {
        st.Consume(ev);
        var chunk := st.MakeChunk(PartOf(ev).value);
        chunks := chunks + [chunk];
      } else if ev.Finish? {
        st.Consume(ev);
      } else if ev.Error? {
        upstreamErr := Some(ev.err);
      }
    }
    assert events[..|events|] == events;
    ListedSome(events);
    ArrayEncodes(events);
    ArrayEnd(events);
    reply := None;
    match ending
    case Idle => return Some((429, timeoutMessage)), [];
    case Cancelled => return None, [];
    case Broken(message) => return Some((502, "Upstream error: " + message)), [];
    case Eof =>
      if upstreamErr.Some? {
        return Some((upstreamErr.value.status, upstreamErr.value.message)), [];
      }
      if |chunks| == 0 {
        return Some((429, "Empty response from upstream (zero output tokens)")), [];
      }
      var last := st.MakeChunk(NO_TEXT);
      chunks := chunks + [last];
      var sent := EncodeAll(chunks);
      if sent.None? {
        return Some((500, "encode error")), [];
      }
      chunks := sent.value;
  }

  lemma {:induction false} ListedSome(evs: seq<Event>)
    ensures Listed(evs) != [] <==> HasContent(evs)
  {
    hide ChunkOf;
    if evs != [] {
      ListedSome(evs[..|evs| - 1]);
    }
  }

  /** The array can be encoded exactly if every call's arguments are JSON. */
  lemma ArrayEncodes(evs: seq<Event>)
    ensures Encodable(Array(evs)) <==> AllArgs(CallsOf(evs))
  {
    ListedEncodes(evs);
    var all, last := Array(evs), |Listed(evs)|;
    assert all[..last] == Listed(evs);
    assert Encoded(all[last], false).Some?;
    if Encodable(all) {
      forall i | 0 <= i < last ensures Encoded(Listed(evs)[i], false).Some? {
        assert Listed(evs)[i] == all[i];
      }
    }
  }

  lemma {:induction false} ListedEncodes(evs: seq<Event>)
    ensures Encodable(Listed(evs)) <==> AllArgs(CallsOf(evs))
  {
    hide ToolArgs, After, Consumed;
    if evs != [] {
      var before, ev := evs[..|evs| - 1], evs[|evs| - 1];
      ListedEncodes(before);
      var m, n := |Listed(before)|, |CallsOf(before)|;
      assert Listed(evs)[..m] == Listed(before) && CallsOf(evs)[..n] == CallsOf(before);
      if PartOf(ev).Some? {
        assert Listed(evs)[m] == ChunkOf(After(evs), PartOf(ev).value);
        OneEncodes(After(evs), PartOf(ev).value, false);
      }
      if ev.ToolCall? {
        assert CallsOf(evs)[n].args == ToolArgs(ev.input);
      }
      EncodableSplit(Listed(evs), m);
      ArgsSplit(CallsOf(evs), n);
    }
  }

  lemma OneEncodes(s: State, p: Part, html: bool)
    ensures Encoded(ChunkOf(s, p), html).Some? <==> Encodes(p)
  {
    assert ChunkOf(s, p).parts == [p] && [p][0] == p;
  }

  lemma EncodableSplit(chunks: seq<Chunk>, m: nat)
    requires m <= |chunks| <= m + 1
    ensures Encodable(chunks) <==> Encodable(chunks[..m]) && (|chunks| > m ==> Encoded(chunks[m], false).Some?)
  {
    forall i | 0 <= i < m ensures chunks[..m][i] == chunks[i] {
    }
    if Encodable(chunks[..m]) && (|chunks| > m ==> Encoded(chunks[m], false).Some?) {
      forall i | 0 <= i < |chunks| ensures Encoded(chunks[i], false).Some? {
        if i < m {
          assert chunks[..m][i] == chunks[i];
        }
      }
    }
  }

  lemma ArgsSplit(calls: seq<Call>, n: nat)
    requires n <= |calls| <= n + 1
    ensures AllArgs(calls) <==> AllArgs(calls[..n]) && (|calls| > n ==> Json.Parse(calls[n].args).Some?)
  {
    forall i | 0 <= i < n ensures calls[..n][i] == calls[i] {
    }
  }

  /* ---- The buffered reply ---- */

  function CallParts(calls: seq<Call>): seq<Part> {
    seq(|calls|, i requires 0 <= i < |calls| => FunctionPart(calls[i].name, TrimmedArgs(calls[i])))
  }

  /** buildGeminiCandidates: the parts of the only candidate. */
  method BuildParts(fullText: string, thinking: string, toolCalls: seq<Call>) returns (parts: seq<Part>)
    ensures parts == BufferedParts(thinking, fullText, toolCalls)
  {
    hide Trim;
    parts := [];
    if thinking != "" {
      parts := parts + [TextPart(thinking, true)];
    }
    if fullText != "" {
      parts := parts + [TextPart(fullText, false)];
    }
    ghost var texts := parts;
    assert texts == TextItem(thinking, true) + TextItem(fullText, false);
    for i := 0 to |toolCalls|
      invariant parts == texts + CallParts(toolCalls[..i])
    {
      var args := Trim(toolCalls[i].args);
      var part := FunctionPart(toolCalls[i].name, if args != "" then args else "{}");
      assert CallParts(toolCalls[..i + 1]) == CallParts(toolCalls[..i]) + [part];
      parts := parts + [part];
    }
    assert toolCalls[..|toolCalls|] == toolCalls;
    if |parts| == 0 {
      parts := [TextPart("", false)];
    }
  }

  function TextItem(text: string, thought: bool): seq<Part> { if text == "" then [] else [TextPart(text, thought)] }

  function BufferedParts(thinking: string, text: string, calls: seq<Call>): seq<Part> {
    var parts := TextItem(thinking, true) + TextItem(text, false) + CallParts(calls);
    if parts == [] then [TextPart("", false)] else parts
  }

  /** The candidate of the buffered reply, before it is encoded. */
  function Candidate(hex: Hex, events: seq<Event>): Chunk {
    Chunk(BufferedParts(ReasoningOf(events), TextOf(events), NamedBy(hex, events)),
          MapGeminiFinishReason(if LastFinish(events).None? then "stop" else LastFinish(events).value),
          BuildUsage(LastUsage(events), 0))
  }

  /** geminiNonStream. Its finish reason is the last one as it stands. */
  method NonStream(hex: Hex, events: seq<Event>, ending: Ending, timeoutMessage: string)
    returns (reply: Option<(int, string)>, body: Option<Chunk>)
    ensures body.Some? <==> Answerable(events, ending) && AllJson(CallsOf(events))
    ensures body.Some? ==>
      var c := Candidate(hex, events);
      body.value == c.(parts := SentParts(c.parts, false)) && c.finish == TellsEnd(events)
    ensures reply == EncodedReply(events, ending, timeoutMessage, AllJson(CallsOf(events)))
  {
    hide BufferedParts, BuildUsage, AllJson, SentParts, Encodes;
    var c := Collect(hex, events);
    SameReason(events);
    reply, body := None, None;
    match ending
    case Idle => reply := Some((429, timeoutMessage));
    case Cancelled =>
    case Broken(message) => reply := Some((502, "Upstream error: " + message));
    case Eof =>
      if c.upstreamErr.Some? {
        reply := Some((c.upstreamErr.value.status, c.upstreamErr.value.message));
      } else if c.fullText == "" && c.thinking == "" && c.toolCalls == [] {
        reply := Some((429, "Empty response from upstream (zero output tokens)"));
      } else {
        var parts := BuildParts(c.fullText, c.thinking, c.toolCalls);
        CandidateEncodes(hex, events);
        CandidateEnd(hex, events);
        body := Encoded(Chunk(parts, MapGeminiFinishReason(c.finishReason), BuildUsage(c.usage, 0)), false);
        if body.None? {
          reply := Some((500, "encode error"));
        }
      }
  }

  /** The candidate can be encoded exactly if every call's arguments, trimmed, are JSON. */
  lemma CandidateEncodes(hex: Hex, evs: seq<Event>)
    ensures Encoded(Candidate(hex, evs), false).Some? <==> AllJson(CallsOf(evs))
  {
    hide TrimmedArgs, Json.Parse, BuildUsage, SentParts, NamedBy, CallsOf, TextOf, ReasoningOf;
    NamedJson(hex, evs);
    var calls := NamedBy(hex, evs);
    var texts := TextItem(ReasoningOf(evs), true) + TextItem(TextOf(evs), false);
    var parts := Candidate(hex, evs).parts;
    if texts + CallParts(calls) != [] {
      forall i | 0 <= i < |parts|
        ensures Encodes(parts[i]) <==> i < |texts| || Json.Parse(TrimmedArgs(calls[i - |texts|])).Some? {
      }
      forall i | 0 <= i < |calls| ensures Encodes(parts[i + |texts|]) <==> Json.Parse(TrimmedArgs(calls[i])).Some? {
      }
    } else {
      assert calls == [];
    }
  }

  /** The three other mappings of a reason read alike here. */
  lemma SameReason(evs: seq<Event>)
    ensures MapGeminiFinishReason(FinishOf(evs))
            == MapGeminiFinishReason(if LastFinish(evs).None? then "stop" else LastFinish(evs).value)
  {
  }

  /* ---- Agreement ---- */

  /** A function as a client reads it. */
  datatype Function = Function(name: string, args: Option<Json.Value>)

  function TextsIn(parts: seq<Part>, thought: bool): string {
    if parts == [] then "" else
      var p := parts[|parts| - 1];
      TextsIn(parts[..|parts| - 1], thought) + if p.TextPart? && p.thought == thought then p.text else ""
  }

  function FunctionsIn(parts: seq<Part>): seq<Function> {
    if parts == [] then [] else
      var p := parts[|parts| - 1];
      FunctionsIn(parts[..|parts| - 1]) + if p.FunctionPart? then [Function(p.name, Json.Parse(p.args))] else []
  }

  function PartsOf(chunks: seq<Chunk>): seq<Part> {
    if chunks == [] then [] else PartsOf(chunks[..|chunks| - 1]) + chunks[|chunks| - 1].parts
  }

  /** The calls that can be embedded. */
  function Sound(calls: seq<Call>): seq<Function> {
    if calls == [] then [] else
      var c := calls[|calls| - 1];
      Sound(calls[..|calls| - 1])
      + if Json.Parse(c.args).Some? then [Function(c.name, Json.Parse(c.args))] else []
  }

  function Functions(calls: seq<Call>): seq<Function> {
    seq(|calls|, i requires 0 <= i < |calls| => Function(calls[i].name, Json.Parse(calls[i].args)))
  }

  function TrimmedFunctions(calls: seq<Call>): seq<Function> {
    seq(|calls|, i requires 0 <= i < |calls| => Function(calls[i].name, Json.Parse(TrimmedArgs(calls[i]))))
  }

  lemma {:induction false} SoundAll(calls: seq<Call>)
    ensures |Sound(calls)| <= |calls|
    ensures |Sound(calls)| == |calls| <==> AllArgs(calls)
    ensures AllArgs(calls) ==> Sound(calls) == Functions(calls)
  {
    if calls != [] {
      var n := |calls| - 1;
      SoundAll(calls[..n]);
      ArgsSplit(calls, n);
      assert Functions(calls) == Functions(calls[..n]) + [Function(calls[n].name, Json.Parse(calls[n].args))];
    }
  }

  /** Encoding changes nothing that a client reads. */
  lemma {:induction false} SentSay(parts: seq<Part>, html: bool, thought: bool)
    requires forall i :: 0 <= i < |parts| ==> Encodes(parts[i])
    ensures TextsIn(SentParts(parts, html), thought) == TextsIn(parts, thought)
    ensures FunctionsIn(SentParts(parts, html)) == FunctionsIn(parts)
  {
    hide Json.Parse, JsonCompact.Compact;
    if parts != [] {
      var n := |parts| - 1;
      assert SentParts(parts, html)[..n] == SentParts(parts[..n], html);
      SentSay(parts[..n], html, thought);
      if parts[n].FunctionPart? {
        JsonCompact.CompactKeepsValue(parts[n].args, html);
      }
    }
  }

  lemma {:induction false} PartsAppend(a: seq<Chunk>, b: seq<Chunk>)
    ensures PartsOf(a + b) == PartsOf(a) + PartsOf(b)
  {
    if b == [] {
      assert a + b == a;
    } else {
      assert (a + b)[..|a + b| - 1] == a + b[..|b| - 1];
      PartsAppend(a, b[..|b| - 1]);
    }
  }

  lemma PartsOne(c: Chunk)
    ensures PartsOf([c]) == c.parts
  {
    assert [c][..0] == [];
  }

  lemma SayOne(parts: seq<Part>, p: Part)
    ensures forall thought :: TextsIn(parts + [p], thought)
              == TextsIn(parts, thought) + if p.TextPart? && p.thought == thought then p.text else ""
    ensures FunctionsIn(parts + [p])
              == FunctionsIn(parts) + if p.FunctionPart? then [Function(p.name, Json.Parse(p.args))] else []
  {
    assert (parts + [p])[..|parts|] == parts;
  }

  /** One chunk more on the wire. */
  lemma StreamedOne(before: seq<Part>, s: State, p: Part)
    ensures var now := before + PartsOf(AsList(Encoded(ChunkOf(s, p), true)));
      && (forall thought :: TextsIn(now, thought)
            == TextsIn(before, thought) + if p.TextPart? && p.thought == thought then p.text else "")
      && FunctionsIn(now)
         == if p.FunctionPart? && Json.Parse(p.args).Some? then
              FunctionsIn(before) + [Function(p.name, Json.Parse(p.args))]
            else FunctionsIn(before)
  {
    hide TextsIn, FunctionsIn, PartsOf, Json.Parse, JsonCompact.Compact;
    OneEncodes(s, p, true);
    PartsNone();
    var chunk := ChunkOf(s, p);
    if Encodes(p) {
      var sent := Encoded(chunk, true).value;
      PartsOne(sent);
      assert sent.parts == [SentPart(p, true)];
      SayOne(before, SentPart(p, true));
      assert FunctionsIn(before) + [] == FunctionsIn(before);
      if p.FunctionPart? {
        JsonCompact.CompactKeepsValue(p.args, true);
      }
    } else {
      assert before + [] == before;
    }
  }

  lemma PartsNone()
    ensures PartsOf([]) == []
  {
  }

  /** What the part of the last event says is what that event adds. */
  lemma PartSays(evs: seq<Event>)
    requires evs != []
    ensures var before, part := evs[..|evs| - 1], PartOf(evs[|evs| - 1]);
      var p := if part.Some? then part.value else NO_TEXT;
      && TextOf(evs) == TextOf(before) + (if p.TextPart? && !p.thought then p.text else "")
      && ReasoningOf(evs) == ReasoningOf(before) + (if p.TextPart? && p.thought then p.text else "")
  {
    hide ToolArgs;
  }

  lemma CallSays(evs: seq<Event>)
    requires evs != []
    ensures var before, part := evs[..|evs| - 1], PartOf(evs[|evs| - 1]);
      if part.Some? && part.value.FunctionPart? then
        var f := Function(part.value.name, Json.Parse(part.value.args));
        && Functions(CallsOf(evs)) == Functions(CallsOf(before)) + [f]
        && Sound(CallsOf(evs)) == if f.args.Some? then Sound(CallsOf(before)) + [f] else Sound(CallsOf(before))
      else CallsOf(evs) == CallsOf(before)
  {
    hide ToolArgs, Json.Parse, Sound;
    var before, ev := evs[..|evs| - 1], evs[|evs| - 1];
    if ev.ToolCall? {
      SoundSnoc(CallsOf(before), Call(ev.id, ev.name, ToolArgs(ev.input)));
    }
  }

  /** The stream says the texts and thoughts of the events, and the functions that can be embedded. */
  lemma {:induction false} StreamedSay(evs: seq<Event>)
    ensures var parts := PartsOf(Streamed(evs));
      && TextsIn(parts, false) == TextOf(evs) && TextsIn(parts, true) == ReasoningOf(evs)
      && FunctionsIn(parts) == Sound(CallsOf(evs))
  {
    hide ChunkOf, After, TextsIn, FunctionsIn, PartsOf, Encoded, Json.Parse, PartOf, CallsOf, Sound;
    hide TextOf, ReasoningOf;
    if evs == [] {
      NothingSays();
      NoEvents();
    } else {
      var before, ev := evs[..|evs| - 1], evs[|evs| - 1];
      StreamedSay(before);
      var due := DueNow(evs);
      PartsAppend(Streamed(before), if due.Some? then AsList(Encoded(due.value, true)) else []);
      PartsNone();
      if due.Some? {
        StreamedOne(PartsOf(Streamed(before)), After(evs), if PartOf(ev).Some? then PartOf(ev).value else NO_TEXT);
      } else {
        assert PartsOf(Streamed(before)) + [] == PartsOf(Streamed(before));
      }
      PartSays(evs);
      CallSays(evs);
    }
  }

  lemma SoundSnoc(calls: seq<Call>, c: Call)
    ensures Sound(calls + [c])
            == if Json.Parse(c.args).Some? then Sound(calls) + [Function(c.name, Json.Parse(c.args))] else Sound(calls)
  {
    assert (calls + [c])[..|calls|] == calls;
    assert Sound(calls) + [] == Sound(calls);
  }

  lemma NoEvents()
    ensures TextOf([]) == "" && ReasoningOf([]) == "" && CallsOf([]) == []
  {
  }

  lemma NothingSays()
    ensures PartsOf([]) == [] && TextsIn([], false) == "" && TextsIn([], true) == "" && FunctionsIn([]) == []
    ensures Sound([]) == []
  {
  }

  /** The chunks of the array, before they are encoded, say everything. */
  lemma {:induction false} ListedSay(evs: seq<Event>)
    ensures var parts := PartsOf(Listed(evs));
      && TextsIn(parts, false) == TextOf(evs) && TextsIn(parts, true) == ReasoningOf(evs)
      && FunctionsIn(parts) == Functions(CallsOf(evs))
  {
    hide ChunkOf, After, TextsIn, FunctionsIn, PartsOf, Json.Parse, PartOf, CallsOf, Sound, TextOf, ReasoningOf;
    if evs == [] {
      NothingSays();
      NoEvents();
    } else {
      var before, ev := evs[..|evs| - 1], evs[|evs| - 1];
      ListedSay(before);
      if PartOf(ev).Some? {
        var p, c := PartOf(ev).value, ChunkOf(After(evs), PartOf(ev).value);
        PartsAppend(Listed(before), [c]);
        PartsOne(c);
        ChunkParts(After(evs), p);
        SayOne(PartsOf(Listed(before)), p);
      } else {
        assert Listed(before) + [] == Listed(before);
      }
      PartSays(evs);
      CallSays(evs);
    }
  }

  lemma ChunkParts(s: State, p: Part)
    ensures ChunkOf(s, p).parts == [p]
  {
  }

  /** The array as it is sent says the same. */
  lemma ArraySays(evs: seq<Event>)
    requires AllArgs(CallsOf(evs))
    ensures var parts := PartsOf(SentChunks(Array(evs)));
      && TextsIn(parts, false) == TextOf(evs) && TextsIn(parts, true) == ReasoningOf(evs)
      && FunctionsIn(parts) == Functions(CallsOf(evs))
  {
    hide ChunkOf, After, TextsIn, FunctionsIn, PartsOf, SentParts, AllArgs, Encodes;
    ListedSay(evs);
    ArrayEncodes(evs);
    var last := ChunkOf(After(evs), NO_TEXT);
    PartsAppend(Listed(evs), [last]);
    PartsOne(last);
    ChunkParts(After(evs), NO_TEXT);
    SayOne(PartsOf(Listed(evs)), NO_TEXT);
    SentChunksParts(Array(evs));
    SentSay(PartsOf(Array(evs)), false, false);
    SentSay(PartsOf(Array(evs)), false, true);
  }

  lemma {:induction false} SentChunksParts(chunks: seq<Chunk>)
    requires Encodable(chunks)
    ensures PartsOf(SentChunks(chunks)) == SentParts(PartsOf(chunks), false)
    ensures forall i :: 0 <= i < |PartsOf(chunks)| ==> Encodes(PartsOf(chunks)[i])
  {
    hide SentPart, Encodes, Encoded, Encodable;
    if chunks != [] {
      var n := |chunks| - 1;
      EncodableSplit(chunks, n);
      SentChunksParts(chunks[..n]);
      var sent := SentChunks(chunks);
      assert sent[..n] == SentChunks(chunks[..n]) && sent[n].parts == SentParts(chunks[n].parts, false);
      SentPartsAppend(PartsOf(chunks[..n]), chunks[n].parts);
      EncodedParts(chunks[n]);
    }
  }

  lemma SentPartsAppend(a: seq<Part>, b: seq<Part>)
    ensures SentParts(a + b, false) == SentParts(a, false) + SentParts(b, false)
  {
    hide SentPart;
  }

  lemma EncodedParts(c: Chunk)
    requires Encoded(c, false).Some?
    ensures forall i :: 0 <= i < |c.parts| ==> Encodes(c.parts[i])
  {
  }

  lemma {:induction false} BufferedCallsSay(texts: seq<Part>, calls: seq<Call>)
    requires FunctionsIn(texts) == []
    ensures forall thought :: TextsIn(texts + CallParts(calls), thought) == TextsIn(texts, thought)
    ensures FunctionsIn(texts + CallParts(calls)) == TrimmedFunctions(calls)
  {
    hide TrimmedArgs, Json.Parse, TextsIn, FunctionsIn;
    if calls == [] {
      assert texts + CallParts(calls) == texts;
    } else {
      var n := |calls| - 1;
      BufferedCallsSay(texts, calls[..n]);
      var p := FunctionPart(calls[n].name, TrimmedArgs(calls[n]));
      assert texts + CallParts(calls) == (texts + CallParts(calls[..n])) + [p];
      SayOne(texts + CallParts(calls[..n]), p);
      assert TrimmedFunctions(calls)
             == TrimmedFunctions(calls[..n]) + [Function(p.name, Json.Parse(p.args))];
    }
  }

  lemma BufferedSays(thinking: string, text: string, calls: seq<Call>)
    ensures var parts := BufferedParts(thinking, text, calls);
      && TextsIn(parts, false) == text && TextsIn(parts, true) == thinking
      && FunctionsIn(parts) == TrimmedFunctions(calls)
  {
    hide CallParts, TextsIn, FunctionsIn, TextItem;
    var first, texts := TextItem(thinking, true), TextItem(thinking, true) + TextItem(text, false);
    NothingSays();
    NoTextSays();
    ItemSays([], thinking, true);
    assert [] + first == first;
    ItemSays(first, text, false);
    BufferedCallsSay(texts, calls);
  }

  lemma ItemSays(parts: seq<Part>, text: string, thought: bool)
    ensures forall t :: TextsIn(parts + TextItem(text, thought), t)
                        == TextsIn(parts, t) + if thought == t then text else ""
    ensures FunctionsIn(parts + TextItem(text, thought)) == FunctionsIn(parts)
  {
    hide TextsIn, FunctionsIn;
    if text == "" {
      assert parts + [] == parts;
    } else {
      SayOne(parts, TextPart(text, thought));
      assert FunctionsIn(parts) + [] == FunctionsIn(parts);
    }
  }

  lemma NoTextSays()
    ensures TextsIn([NO_TEXT], false) == "" && TextsIn([NO_TEXT], true) == "" && FunctionsIn([NO_TEXT]) == []
  {
    assert [NO_TEXT][..0] == [];
  }

  /** Thoughts come before texts, and texts before functions. */
  predicate Orderly(parts: seq<Part>) {
    && (forall i, j :: 0 <= i < j < |parts| && parts[j].TextPart? && parts[j].thought ==>
          parts[i].TextPart? && parts[i].thought)
    && (forall i, j :: 0 <= i < j < |parts| && parts[i].FunctionPart? ==> parts[j].FunctionPart?)
  }

  lemma BufferedOrder(thinking: string, text: string, calls: seq<Call>, html: bool)
    ensures Orderly(SentParts(BufferedParts(thinking, text, calls), html))
  {
    hide TrimmedArgs, JsonCompact.Compact;
  }

  /** The candidate as it is sent. */
  lemma CandidateSays(hex: Hex, evs: seq<Event>)
    requires AllJson(CallsOf(evs))
    ensures Orderly(SentParts(Candidate(hex, evs).parts, false))
    ensures var parts := SentParts(Candidate(hex, evs).parts, false);
      && TextsIn(parts, false) == TextOf(evs) && TextsIn(parts, true) == ReasoningOf(evs)
      && FunctionsIn(parts) == TrimmedFunctions(CallsOf(evs))
  {
    hide TextsIn, FunctionsIn, SentParts, BufferedParts, AllJson, Encodes, TrimmedArgs, Json.Parse, Orderly;
    CandidateEncodes(hex, evs);
    BufferedOrder(ReasoningOf(evs), TextOf(evs), NamedBy(hex, evs), false);
    BufferedSays(ReasoningOf(evs), TextOf(evs), NamedBy(hex, evs));
    SentSay(Candidate(hex, evs).parts, false, false);
    SentSay(Candidate(hex, evs).parts, false, true);
    SameArguments(hex, evs);
    assert TrimmedFunctions(NamedBy(hex, evs)) == TrimmedFunctions(CallsOf(evs)) by {
      SameTrimmed(NamedBy(hex, evs), CallsOf(evs));
    }
  }

  lemma SameTrimmed(a: seq<Call>, b: seq<Call>)
    requires |a| == |b| && forall i :: 0 <= i < |a| ==> a[i].args == b[i].args && a[i].name == b[i].name
    ensures TrimmedFunctions(a) == TrimmedFunctions(b)
  {
    hide Json.Parse, Trim;
    forall i | 0 <= i < |a| ensures TrimmedFunctions(a)[i] == TrimmedFunctions(b)[i] {
      assert TrimmedArgs(a[i]) == TrimmedArgs(b[i]);
    }
  }

  /* ---- Finish reason and usage ---- */

  /** What is counted for the content since the last usage that a `finish` reported. */
  function CountedSince(evs: seq<Event>): nat {
    if evs == [] then 0 else
      var before, ev := CountedSince(evs[..|evs| - 1]), evs[|evs| - 1];
      match ev
      case Finish(_, total, step) => if ReportedUsage(total, step).Some? then 0 else before
      case ToolCall(_, _, _) => before + 20
      case _ => if PartOf(ev).Some? then before + 1 else before
  }

  lemma {:induction false} Bookkeeping(evs: seq<Event>)
    ensures After(evs).finished <==> LastFinish(evs).Some?
    ensures LastFinish(evs).Some? ==> After(evs).finish == LastFinish(evs).value
    ensures After(evs).usage == if LastUsage(evs).None? then None else Some(Normalize(LastUsage(evs).value))
    ensures After(evs).outputTok == ReportedOutput(evs) + CountedSince(evs)
  {
    hide ToolArgs;
    if evs != [] {
      Bookkeeping(evs[..|evs| - 1]);
    }
  }

  /** Whether some chunk tells the client why the reply ended. */
  predicate TellsFinish(chunks: seq<Chunk>) { exists i :: 0 <= i < |chunks| && chunks[i].finish != "" }

  lemma {:induction false} StreamedFinish(evs: seq<Event>)
    ensures TellsFinish(Streamed(evs)) <==> LastFinish(evs).Some?
  {
    hide Consumed, ToolArgs, BuildUsage;
    if evs != [] {
      var before := evs[..|evs| - 1];
      StreamedFinish(before);
      Bookkeeping(evs);
      Bookkeeping(before);
      var chunks, now := Streamed(before), Streamed(evs);
      FinishDue(evs);
      if TellsFinish(chunks) {
        var i :| 0 <= i < |chunks| && chunks[i].finish != "";
        assert now[i].finish != "";
      }
      if now != chunks {
        assert now[|chunks|].finish == if After(evs).finished then MapGeminiFinishReason(After(evs).finish) else "";
      }
    }
  }

  lemma FinishDue(evs: seq<Event>)
    requires evs != []
    ensures evs[|evs| - 1].Finish? ==>
      DueNow(evs) == Some(ChunkOf(After(evs), NO_TEXT)) && Encoded(ChunkOf(After(evs), NO_TEXT), true).Some?
    ensures !evs[|evs| - 1].Finish? ==> LastFinish(evs) == LastFinish(evs[..|evs| - 1])
  {
    hide After;
    OneEncodes(After(evs), NO_TEXT, true);
  }

  /** A chunk that is due carries the usage so far, and reaches the wire if the arguments are JSON. */
  lemma DueCounts(evs: seq<Event>)
    requires evs != [] && DueNow(evs).Some? && AllArgs(CallsOf(evs))
    ensures Encoded(DueNow(evs).value, true).Some?
    ensures Encoded(DueNow(evs).value, true).value.counts == BuildUsage(After(evs).usage, After(evs).outputTok)
  {
    hide ToolArgs, Consumed, BuildUsage, After;
    var ev := evs[|evs| - 1];
    ArgsBefore(evs);
    OneEncodes(After(evs), if PartOf(ev).Some? then PartOf(ev).value else NO_TEXT, true);
  }

  /** The last chunk on the wire carries the usage that the whole reply ends with, if none was passed over. */
  lemma {:induction false} StreamedUsage(evs: seq<Event>)
    requires AllArgs(CallsOf(evs))
    ensures Streamed(evs) != [] ==>
      Streamed(evs)[|Streamed(evs)| - 1].counts == BuildUsage(After(evs).usage, After(evs).outputTok)
    ensures |Streamed(evs)| == |Due(evs)|
  {
    hide CallsOf, BuildUsage, After, DueNow, Encoded, AllArgs;
    if evs != [] {
      ArgsBefore(evs);
      StreamedUsage(evs[..|evs| - 1]);
      AfterSame(evs);
      if DueNow(evs).Some? {
        DueCounts(evs);
      }
    }
  }

  lemma ArgsBefore(evs: seq<Event>)
    requires evs != []
    ensures AllArgs(CallsOf(evs)) <==>
      && AllArgs(CallsOf(evs[..|evs| - 1]))
      && (evs[|evs| - 1].ToolCall? ==> Json.Parse(ToolArgs(evs[|evs| - 1].input)).Some?)
  {
    hide ToolArgs, Json.Parse;
    var n := |CallsOf(evs[..|evs| - 1])|;
    assert CallsOf(evs)[..n] == CallsOf(evs[..|evs| - 1]);
    ArgsSplit(CallsOf(evs), n);
  }

  lemma AfterSame(evs: seq<Event>)
    requires evs != []
    ensures DueNow(evs).None? ==> After(evs) == After(evs[..|evs| - 1])
  {
    hide ChunkOf;
  }

  /** Every chunk that is due reaches the wire exactly if every call's arguments are JSON. */
  lemma {:induction false} AllReachTheWire(evs: seq<Event>)
    ensures |Streamed(evs)| <= |Due(evs)|
    ensures |Streamed(evs)| == |Due(evs)| <==> AllArgs(CallsOf(evs))
  {
    hide ToolArgs, After, Consumed, BuildUsage, AllArgs;
    if evs == [] {
      NoArgs();
    } else {
      var ev := evs[|evs| - 1];
      ArgsBefore(evs);
      AllReachTheWire(evs[..|evs| - 1]);
      if DueNow(evs).Some? {
        OneEncodes(After(evs), if PartOf(ev).Some? then PartOf(ev).value else NO_TEXT, true);
      }
    }
  }

  lemma NoArgs()
    ensures AllArgs([])
  {
  }

  /** The three forms of the reply to the same events. Text and thoughts agree wherever there is an answer.
      The stream passes over the functions whose arguments are no JSON; the array and the buffered form
      answer only if there are none, the latter after trimming. What the buffered form says of the functions
      is the same exactly if around their arguments stands only the white space of RFC 8259. */
  lemma Agreement(hex: Hex, evs: seq<Event>)
    ensures var parts := PartsOf(Streamed(evs));
      && TextsIn(parts, false) == TextOf(evs) && TextsIn(parts, true) == ReasoningOf(evs)
      && FunctionsIn(parts) == Sound(CallsOf(evs))
      && (FunctionsIn(parts) == Functions(CallsOf(evs)) <==> AllArgs(CallsOf(evs)))
    ensures AllArgs(CallsOf(evs)) ==>
      var parts := PartsOf(SentChunks(Array(evs)));
      && TextsIn(parts, false) == TextOf(evs) && TextsIn(parts, true) == ReasoningOf(evs)
      && FunctionsIn(parts) == Functions(CallsOf(evs))
    ensures AllJson(CallsOf(evs)) ==>
      var parts := SentParts(Candidate(hex, evs).parts, false);
      && TextsIn(parts, false) == TextOf(evs) && TextsIn(parts, true) == ReasoningOf(evs)
      && FunctionsIn(parts) == TrimmedFunctions(CallsOf(evs))
    ensures AllJson(CallsOf(evs)) ==>
      (TrimmedFunctions(CallsOf(evs)) == Functions(CallsOf(evs)) <==> AllArgs(CallsOf(evs)))
  {
    hide TextsIn, FunctionsIn, PartsOf, Streamed, Array, Candidate, SentParts, SentChunks, AllArgs, AllJson;
    StreamedSay(evs);
    SoundAll(CallsOf(evs));
    if AllArgs(CallsOf(evs)) {
      ArraySays(evs);
    }
    if AllJson(CallsOf(evs)) {
      CandidateSays(hex, evs);
      ArgumentsNeverBlank(evs);
      TrimmedMeans(CallsOf(evs));
    }
  }

  lemma {:induction false} ArgumentsNeverBlank(evs: seq<Event>)
    ensures forall i :: 0 <= i < |CallsOf(evs)| ==> Trim(CallsOf(evs)[i].args) != ""
  {
    if evs != [] {
      ArgumentsNeverBlank(evs[..|evs| - 1]);
    }
  }

  lemma TrimmedMeans(calls: seq<Call>)
    requires AllJson(calls) && forall i :: 0 <= i < |calls| ==> Trim(calls[i].args) != ""
    ensures TrimmedFunctions(calls) == Functions(calls) <==> AllArgs(calls)
  {
    hide Json.Parse, Trim;
    forall i | 0 <= i < |calls|
      ensures Json.Parse(TrimmedArgs(calls[i])).Some?
      ensures Json.Parse(calls[i].args) == Json.Parse(TrimmedArgs(calls[i])) <==> Json.Parse(calls[i].args).Some?
    {
      JsonCompact.ParseTrimmed(calls[i].args);
    }
    if TrimmedFunctions(calls) == Functions(calls) {
      forall i | 0 <= i < |calls| ensures Json.Parse(calls[i].args).Some? {
        assert TrimmedFunctions(calls)[i] == Functions(calls)[i];
      }
    }
  }

  lemma ArrayEnd(evs: seq<Event>)
    ensures var chunks := SentChunks(Array(evs));
      chunks[|chunks| - 1].finish == if LastFinish(evs).None? then "" else TellsEnd(evs)
  {
    hide SentParts, Listed, BuildUsage;
    Bookkeeping(evs);
  }

  lemma CandidateEnd(hex: Hex, evs: seq<Event>)
    ensures Candidate(hex, evs).finish == TellsEnd(evs)
  {
    hide BufferedParts, BuildUsage;
  }

  /** What the last event adds to the stream: at most one chunk, which tells the state's finish. */
  lemma StreamedNext(evs: seq<Event>)
    requires evs != []
    ensures var before, now := Streamed(evs[..|evs| - 1]), Streamed(evs);
      && |before| <= |now| <= |before| + 1 && (|now| == |before| ==> now == before)
      && (|now| > |before| ==>
            now[|before|].finish == if After(evs).finished then MapGeminiFinishReason(After(evs).finish) else "")
      && (evs[|evs| - 1].Finish? ==> |now| > |before|)
  {
    hide Consumed, ToolArgs, BuildUsage, After, SentParts, Encodes, LastFinish;
    FinishDue(evs);
  }

  /** A finish always sends a chunk, and what follows it tells the same. */
  lemma {:induction false} StreamEnd(evs: seq<Event>)
    ensures LastFinish(evs).Some? ==> Streamed(evs) != []
    ensures Streamed(evs) != [] ==>
      Streamed(evs)[|Streamed(evs)| - 1].finish == if LastFinish(evs).None? then "" else TellsEnd(evs)
  {
    if evs == [] {
      NothingStreamed();
    } else {
      hide Streamed, After, LastUsage;
      StreamEnd(evs[..|evs| - 1]);
      StreamedNext(evs);
      Bookkeeping(evs);
    }
  }

  lemma NothingStreamed()
    ensures Streamed([]) == []
  {
  }

  lemma WireEnd(evs: seq<Event>, ending: Ending, timeoutMessage: string)
    ensures LastFinish(evs).Some? ==>
      var n, frames := |Streamed(evs)|, AllFrames(evs, ending, timeoutMessage);
      0 < n <= |frames| && frames[n - 1].Content? && frames[n - 1].chunk.finish == TellsEnd(evs)
  {
    hide Streamed, Begun, TellsEnd;
    StreamEnd(evs);
    BegunWhen(evs);
  }

  /** The three forms tell a client that the reply was cut short exactly if the upstream did: the buffered form
      always says how it ended, the array's last chunk and the stream's once the upstream did. */
  lemma EndTold(hex: Hex, evs: seq<Event>)
    ensures Candidate(hex, evs).finish == "MAX_TOKENS" <==> LastFinish(evs) == Some("length")
    ensures Candidate(hex, evs).finish == "STOP" <==> LastFinish(evs) != Some("length")
    ensures LastFinish(evs).Some? ==>
      var chunks, listed := Streamed(evs), SentChunks(Array(evs));
      && chunks != [] && chunks[|chunks| - 1].finish == Candidate(hex, evs).finish
      && listed[|listed| - 1].finish == Candidate(hex, evs).finish
    ensures LastFinish(evs).None? ==>
      var listed := SentChunks(Array(evs));
      !TellsFinish(Streamed(evs)) && listed[|listed| - 1].finish == ""
  {
    hide Streamed, Array, Candidate, SentChunks;
    assert "MAX_TOKENS" != "STOP" by {
      assert |"MAX_TOKENS"| != |"STOP"|;
    }
    CandidateEnd(hex, evs);
    ArrayEnd(evs);
    StreamEnd(evs);
    StreamedFinish(evs);
  }

  /** The counts of the buffered form and, once output tokens were reported, of every form, are the upstream's
      own; a report without output tokens counts as nothing. */
  lemma CountsTold(hex: Hex, evs: seq<Event>)
    ensures Candidate(hex, evs).counts
            == if ReportedOutput(evs) == 0 then Counts(0, 0, 0, 0)
               else
                 var u := LastUsage(evs).value;
                 Counts(u.input, u.output, u.input + u.output, u.cached)
    ensures ReportedOutput(evs) == 0 ==>
      ChunkOf(After(evs), NO_TEXT).counts == Counts(0, CountedSince(evs), CountedSince(evs), 0)
    ensures ReportedOutput(evs) != 0 ==> ChunkOf(After(evs), NO_TEXT).counts == Candidate(hex, evs).counts
  {
    hide BufferedParts;
    Bookkeeping(evs);
  }

  /** The buffered form always gives a finish reason; the array's last chunk gives the same one, and the
      stream gives one at all, exactly when the upstream sent a finish. The array's last chunk gives the
      buffered usage exactly if output tokens were reported or nothing was counted since; and so does the
      stream's last chunk, if none was passed over. */
  lemma EndsAgree(hex: Hex, evs: seq<Event>)
    ensures TellsFinish(Streamed(evs)) <==> LastFinish(evs).Some?
    ensures ChunkOf(After(evs), NO_TEXT).finish == Candidate(hex, evs).finish <==> LastFinish(evs).Some?
    ensures ChunkOf(After(evs), NO_TEXT).counts == Candidate(hex, evs).counts
            <==> ReportedOutput(evs) != 0 || CountedSince(evs) == 0
    ensures AllArgs(CallsOf(evs)) && Streamed(evs) != [] ==>
      Streamed(evs)[|Streamed(evs)| - 1].counts == ChunkOf(After(evs), NO_TEXT).counts
  {
    StreamedFinish(evs);
    Bookkeeping(evs);
    hide Streamed, AllArgs, BufferedParts;
    if AllArgs(CallsOf(evs)) {
      StreamedUsage(evs);
    }
  }

  /** When the event stream and a form that is encoded as a whole answer alike: after a failure exactly if the
      stream has not started, and after a clean end exactly if there is content that can be encoded, or
      neither content nor a finish. */
  predicate AnswersAlike(evs: seq<Event>, ending: Ending, encodes: bool) {
    match ending
    case Cancelled => true
    case Eof =>
      if LastError(evs).None? && HasContent(evs) then encodes else !HasContent(evs) && LastFinish(evs).None?
    case _ => !HasContent(evs) && LastFinish(evs).None?
  }

  /** Whether the forms answer with the same JSON error, or none with one: the event stream and the array, the
      event stream and the buffered form, and the array and the buffered form. */
  lemma RepliesAgree(evs: seq<Event>, ending: Ending, timeoutMessage: string)
    ensures var calls := CallsOf(evs);
      var streamed := ReplyOf(evs, ending, timeoutMessage);
      var listed := EncodedReply(evs, ending, timeoutMessage, AllArgs(calls));
      var whole := EncodedReply(evs, ending, timeoutMessage, AllJson(calls));
      && (streamed == listed <==> AnswersAlike(evs, ending, AllArgs(calls)))
      && (streamed == whole <==> AnswersAlike(evs, ending, AllJson(calls)))
      && (listed == whole <==> Answerable(evs, ending) ==> AllArgs(calls) == AllJson(calls))
  {
    hide AllArgs, AllJson, HasContent;
    BegunWhen(evs);
  }

  /** A lone finish: the event stream sends a chunk, and the other forms refuse. */
  lemma RepliesCanDiffer(timeoutMessage: string, encodes: bool)
    ensures var evs := [Finish("stop", None, None)];
      && ReplyOf(evs, Eof, timeoutMessage).None? && |AllFrames(evs, Eof, timeoutMessage)| == 1
      && EncodedReply(evs, Eof, timeoutMessage, encodes)
         == Some((429, "Empty response from upstream (zero output tokens)"))
  {
    var evs := [Finish("stop", None, None)];
    assert evs[..0] == [];
    BegunWhen(evs);
    NoArgs();
    AllReachTheWire(evs);
  }

  /** A lone call whose arguments are no JSON: the stream starts and says nothing, and neither the array nor
      the buffered form can be encoded. */
  lemma EncodeErrorReached(hex: Hex)
    ensures var evs := [BAD_CALL];
      && Begun(evs) && Streamed(evs) == [] && |Due(evs)| == 1
      && HasContent(evs) && !AllArgs(CallsOf(evs)) && !AllJson(CallsOf(evs))
      && !Encodable(Array(evs)) && Encoded(Candidate(hex, evs), false).None?
  {
    var evs := [BAD_CALL];
    hide AllJson, ChunkOf;
    BadCallIs();
    BegunWhen(evs);
    JsonCompact.HelloIsNoJson();
    assert CallsOf(evs)[0].args == "hello";
    assert !AllArgs(CallsOf(evs));
    hide AllArgs, Encodable, Array, Candidate;
    AllReachTheWire(evs);
    assert evs[..0] == [];
    assert |Due(evs)| == 1;
    ArrayEncodes(evs);
    CandidateEncodes(hex, evs);
  }

  /** Text and no finish: only the buffered form says why the reply ended. */
  lemma FinishCanDiffer(hex: Hex)
    ensures var evs := [TextDelta("a")];
      && !TellsFinish(Streamed(evs)) && ChunkOf(After(evs), NO_TEXT).finish == ""
      && Candidate(hex, evs).finish == "STOP"
  {
    var evs := [TextDelta("a")];
    assert evs[..0] == [];
    assert LastFinish(evs).None?;
    StreamedFinish(evs);
    Bookkeeping(evs);
  }
}
