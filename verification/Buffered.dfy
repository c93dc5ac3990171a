/** What the three buffered replies have in common: each reads every event into the same
    accumulators (the source repeats the loop in responses.go, anthropic.go and openai.go)
    and refuses in the same cases. */
module Buffered {
  import opened Text
  import opened Upstream
  import opened Identifiers
  import Json
  import JsonCompact

  function Unnamed(evs: seq<Event>): nat {
    if evs == [] then 0 else
      Unnamed(evs[..|evs| - 1]) + if evs[|evs| - 1].ToolCall? && evs[|evs| - 1].id == "" then 1 else 0
  }

  /** The tool calls in order; the k-th without an identifier takes the k-th random one. */
  function NamedBy(hex: Hex, evs: seq<Event>): seq<Call> {
    if evs == [] then [] else
      var before := evs[..|evs| - 1];
      NamedBy(hex, before)
      + match evs[|evs| - 1]
        case ToolCall(id, name, input) =>
          [Call(if id == "" then "call_" + hex(Unnamed(before)) else id, name, ToolArgs(input))]
        case _ => []
  }

  lemma {:induction false} NamedByDraws(hex: Hex, evs: seq<Event>)
    ensures Drawn(NamedBy(hex, evs), CallsOf(evs), "call_", hex, Unnamed(evs))
  {
    hide Drawn, ToolArgs;
    if evs == [] {
      NothingDrawn("call_", hex);
    } else {
      var before, last := evs[..|evs| - 1], evs[|evs| - 1];
      NamedByDraws(hex, before);
      if last.ToolCall? {
        var c := Call(last.id, last.name, ToolArgs(last.input));
        DrawnSnoc(NamedBy(hex, before), CallsOf(before), "call_", hex, Unnamed(before), c, Unnamed(evs));
      } else {
        assert NamedBy(hex, evs) == NamedBy(hex, before) && CallsOf(evs) == CallsOf(before);
      }
    }
  }

  /** The buffered forms list the upstream's calls, each under an identifier of its own if it had none. */
  lemma NamedByTold(hex: Hex, evs: seq<Event>)
    ensures Told(NamedBy(hex, evs), CallsOf(evs), "call_", hex)
  {
    NamedByDraws(hex, evs);
  }

  lemma {:induction false} CallsNamed(evs: seq<Event>)
    ensures NamedCalls(evs) <==> forall i :: 0 <= i < |CallsOf(evs)| ==> CallsOf(evs)[i].id != ""
  {
    if evs != [] {
      var before, last := evs[..|evs| - 1], evs[|evs| - 1];
      CallsNamed(before);
      assert NamedCalls(evs) <==> NamedCalls(before) && (last.ToolCall? ==> last.id != "");
      var more := CallsOf(evs);
      assert CallsOf(before) <= more;
      assert last.ToolCall? ==> more[|CallsOf(before)|].id == last.id;
    }
  }

  /** If every call has an identifier, a client is told of the upstream's own calls. */
  lemma ToldUpstream(said: seq<Call>, prefix: string, hex: Hex, evs: seq<Event>)
    requires Told(said, CallsOf(evs), prefix, hex)
    ensures NamedCalls(evs) ==> said == CallsOf(evs)
  {
    hide CallsOf, NamedCalls;
    CallsNamed(evs);
    if NamedCalls(evs) {
      ToldAll(said, CallsOf(evs), prefix, hex);
    }
  }

  lemma NamedByUpstream(hex: Hex, evs: seq<Event>)
    requires NamedCalls(evs)
    ensures NamedBy(hex, evs) == CallsOf(evs)
  {
    NamedByTold(hex, evs);
    ToldUpstream(NamedBy(hex, evs), "call_", hex, evs);
  }

  lemma SameArguments(hex: Hex, evs: seq<Event>)
    ensures |NamedBy(hex, evs)| == |CallsOf(evs)|
    ensures forall i :: 0 <= i < |CallsOf(evs)| ==>
      NamedBy(hex, evs)[i].args == CallsOf(evs)[i].args && NamedBy(hex, evs)[i].name == CallsOf(evs)[i].name
  {
    NamedByTold(hex, evs);
  }

  function FinishOf(evs: seq<Event>): string {
    if LastFinish(evs).None? then "stop" else MapFinishReason(LastFinish(evs).value)
  }

  function BufferedReply(evs: seq<Event>, ending: Ending, timeoutMessage: string): Reply {
    match ending
    case Cancelled => NoReply
    case Idle => JsonError(IdleError(timeoutMessage))
    case Broken(msg) => JsonError(BrokenError(msg))
    case Eof =>
      if LastError(evs).Some? then JsonError(LastError(evs).value)
      else if !HasContent(evs) then JsonError(EMPTY_ERROR)
      else NoReply
  }

  datatype Collected = Collected(
    fullText: string, thinking: string, toolCalls: seq<Call>, usage: Option<Usage>,
    upstreamErr: Option<MappedError>, finishReason: string, drawn: nat)

  method Collect(hex: Hex, events: seq<Event>) returns (r: Collected)
    ensures r == Collected(TextOf(events), ReasoningOf(events), NamedBy(hex, events), LastUsage(events),
                           LastError(events), FinishOf(events), Unnamed(events))
    ensures (r.toolCalls == []) == (CallsOf(events) == [])
  {
    var fullText, thinking := "", "";
    var toolCalls: seq<Call> := [];
    var usage: Option<Usage> := None;
    var upstreamErr: Option<MappedError> := None;
    var finishReason := "stop";
    var drawn := 0;
    for i := 0 to |events|
      invariant fullText == TextOf(events[..i]) && thinking == ReasoningOf(events[..i])
      invariant toolCalls == NamedBy(hex, events[..i]) && drawn == Unnamed(events[..i])
      invariant usage == LastUsage(events[..i]) && upstreamErr == LastError(events[..i])
      invariant finishReason == FinishOf(events[..i])
    {
      assert events[..i + 1][..i] == events[..i];
      match events[i]
      case TextDelta(text) => fullText := fullText + text;
      case ReasoningDelta(text) => thinking := thinking + text;
      case ToolCall(id, name, input) =>
        var callID := id;
        if id == "" {
          callID := "call_" + hex(drawn);
          drawn := drawn + 1;
        }
        toolCalls := toolCalls + [Call(callID, name, ToolArgs(input))];
      case Finish(reason, total, step) =>
        finishReason := MapFinishReason(reason);
        if total.Some? {
          usage := total;
        } else if step.Some? {
          usage := step;
        }
      case Error(err) => upstreamErr := Some(err);
      case _ =>
    }
    assert events[..|events|] == events;
    SameArguments(hex, events);
    r := Collected(fullText, thinking, toolCalls, usage, upstreamErr, finishReason, drawn);
  }

  /** Whether the collected events are refused, and with which JSON error. */
  method Refuse(c: Collected, ending: Ending, timeoutMessage: string, ghost events: seq<Event>) returns (reply: Reply)
    requires c.fullText == TextOf(events) && c.thinking == ReasoningOf(events)
    requires (c.toolCalls == []) == (CallsOf(events) == []) && c.upstreamErr == LastError(events)
    ensures reply == BufferedReply(events, ending, timeoutMessage)
  {
    reply := NoReply;
    match ending
    case Idle => reply := JsonError(IdleError(timeoutMessage));
    case Cancelled =>
    case Broken(msg) => reply := JsonError(BrokenError(msg));
    case Eof =>
      if c.upstreamErr.Some? {
        reply := JsonError(c.upstreamErr.value);
      } else if c.fullText == "" && c.thinking == "" && c.toolCalls == [] {
        reply := JsonError(EMPTY_ERROR);
      }
  }

  /** The finish reason, as the chat form says it. */
  lemma FinishIs(evs: seq<Event>)
    ensures FinishOf(evs) == match LastFinish(evs)
                             case None => "stop"
                             case Some("") => "stop"
                             case Some("tool-calls") => "tool_calls"
                             case Some(reason) => reason
  {
  }

  /** The errors that a client gets instead of a reply. */
  lemma RefusalIs(evs: seq<Event>, ending: Ending, timeoutMessage: string)
    ensures EmbeddedReply(evs, ending, timeoutMessage) ==
      match ending
      case Cancelled => NoReply
      case Idle => JsonError(MappedError(429, "rate_limit_error", timeoutMessage, 5))
      case Broken(message) => JsonError(MappedError(502, "proxy_error", "Upstream error: " + message, 10))
      case Eof =>
        if LastError(evs).Some? then JsonError(LastError(evs).value)
        else if TextOf(evs) == "" && ReasoningOf(evs) == "" && CallsOf(evs) == [] then
          JsonError(MappedError(429, "rate_limit_error", "Empty response from upstream (zero output tokens)", 10))
        else if !AllJson(CallsOf(evs)) then JsonError(MappedError(500, "internal_error", "encode error", 0))
        else NoReply
    ensures AllJson(CallsOf(evs)) || !ending.Eof? ==>
      BufferedReply(evs, ending, timeoutMessage) == EmbeddedReply(evs, ending, timeoutMessage)
  {
    hide AllJson, TextOf, ReasoningOf, CallsOf, LastError;
  }

  /** The output tokens of the last usage that a `finish` reports. */
  function ReportedOutput(evs: seq<Event>): int {
    if LastUsage(evs).None? then 0 else LastUsage(evs).value.output
  }

  /* ---- Arguments that are embedded as JSON ---- */

  function TrimmedArgs(c: Call): string { OrDefault(Trim(c.args), "{}") }

  /** Every call's arguments, without the white space around them, are a JSON text. */
  predicate AllJson(calls: seq<Call>) {
    forall i :: 0 <= i < |calls| ==> Json.Parse(TrimmedArgs(calls[i])).Some?
  }

  /** A call as it is sent: json.Marshal takes the white space out of its arguments. */
  function SentCall(c: Call): Call { c.(args := JsonCompact.Compact(Json.START, TrimmedArgs(c), false)) }

  /** A reply whose body embeds the arguments: there is a third outcome. */
  function EmbeddedReply(evs: seq<Event>, ending: Ending, timeoutMessage: string): Reply {
    var r := BufferedReply(evs, ending, timeoutMessage);
    if ending.Eof? && r.NoReply? && !AllJson(CallsOf(evs)) then JsonError(ENCODE_ERROR) else r
  }

  lemma NamedJson(hex: Hex, evs: seq<Event>)
    ensures AllJson(NamedBy(hex, evs)) == AllJson(CallsOf(evs))
  {
    SameArguments(hex, evs);
    forall i | 0 <= i < |CallsOf(evs)| ensures TrimmedArgs(NamedBy(hex, evs)[i]) == TrimmedArgs(CallsOf(evs)[i]) {
    }
  }

  /** One call whose arguments are the string "hello". */
  const BAD_CALL := ToolCall("c", "f", JsonString("hello"))

  lemma BadCallIs()
    ensures CallsOf([BAD_CALL]) == [Call("c", "f", "hello")] && HasContent([BAD_CALL]) && LastError([BAD_CALL]).None?
    ensures NamedCalls([BAD_CALL]) && LastFinish([BAD_CALL]).None? && LastUsage([BAD_CALL]).None?
    ensures !AllJson(CallsOf([BAD_CALL]))
  {
    JsonCompact.HelloIsNoJson();
    assert [BAD_CALL][..0] == [];
    assert CallsOf([]) + [Call("c", "f", "hello")] == [Call("c", "f", "hello")];
    assert CallsOf([BAD_CALL])[0].args == "hello";
    assert TrimmedArgs(CallsOf([BAD_CALL])[0]) == "hello";
  }

  lemma TrimSame(s: string)
    ensures |Trim(s)| == |s| ==> Trim(s) == s
  {
  }

  /** The arguments as the buffered reply sends them, against the upstream's own. They always mean what the
      trimmed text means. They mean what the text itself means exactly if around it there is only the white
      space of RFC 8259, and they are that very text exactly if there is no white space outside of strings. */
  lemma ArgumentsSent(c: Call)
    requires Trim(c.args) != "" && Json.Parse(TrimmedArgs(c)).Some?
    ensures Json.Parse(SentCall(c).args) == Json.Parse(Trim(c.args))
    ensures Json.Parse(SentCall(c).args) == Json.Parse(c.args) <==>
      JsonCompact.AllWhite(JsonCompact.LeftMargin(c.args)) && JsonCompact.AllWhite(JsonCompact.RightMargin(c.args))
    ensures SentCall(c) == c <==> Trim(c.args) == c.args && JsonCompact.Dense(Json.START, c.args)
  {
    hide Json.Parse, JsonCompact.Compact, JsonCompact.Dense, Trim;
    JsonCompact.CompactKeepsValue(Trim(c.args), false);
    JsonCompact.ParseTrimmed(c.args);
    JsonCompact.CompactSame(Json.START, Trim(c.args));
    TrimSame(c.args);
  }
}
