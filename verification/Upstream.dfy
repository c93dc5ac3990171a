/** The upstream NDJSON events after decoding, and the small conversions of
    translate.go that both the streaming and the buffered replies go through. */
module Upstream {
  import opened Text

  /** The supply of random hexadecimal strings. */
  type Hex = nat -> string

  datatype InputTokenDetails = InputTokenDetails(noCache: Option<int>, cacheRead: int, cacheWrite: int)

  datatype Usage = Usage(input: int, output: int, cached: int, details: Option<InputTokenDetails>)

  const NO_USAGE := Usage(0, 0, 0, None)

  datatype MappedError = MappedError(status: int, typ: string, message: string, retryAfter: int)

  /** The `input` field of a tool call: missing or null, a JSON string, or any
      other JSON text (never blank, never surrounded by white space). */
  datatype RawInput = Absent | JsonString(s: string) | JsonText(text: string)

  type Input = i: RawInput | i.JsonText? ==> i.text != "" && Trim(i.text) == i.text witness Absent

  /** One decoded line. `TextDelta` and `ReasoningDelta` carry textOf(); a quiet
      event says whether more than 15 s have passed since the last write. */
  datatype Event =
    | TextDelta(text: string)
    | ReasoningDelta(text: string)
    | ToolCall(id: string, name: string, input: Input)
    | FinishStep(reason: string, totalUsage: Option<Usage>, stepUsage: Option<Usage>)
    | Finish(reason: string, totalUsage: Option<Usage>, stepUsage: Option<Usage>)
    | Error(err: MappedError)
    | Quiet(stale: bool)
    | Unknown

  /** How reading the upstream body ended, other than through a failed write. */
  datatype Ending = Eof | Idle | Cancelled | Broken(message: string)

  /** What the client gets instead of a stream: nothing, or one JSON error. */
  datatype Reply = NoReply | JsonError(err: MappedError)

  /** What a client is told of a failure after the stream has begun; no retry hint counts as 0. */
  datatype Trouble = Trouble(typ: string, message: string, retryAfter: int)

  function IdleError(message: string): MappedError { MappedError(429, "rate_limit_error", message, 5) }

  function BrokenError(message: string): MappedError {
    MappedError(502, "proxy_error", "Upstream error: " + message, 10)
  }

  const EMPTY_ERROR :=
    MappedError(429, "rate_limit_error", "Empty response from upstream (zero output tokens)", 10)

  /** What writeJSON answers if the body cannot be encoded. */
  const ENCODE_ERROR := MappedError(500, "internal_error", "encode error", 0)

  function ReportedUsage(total: Option<Usage>, step: Option<Usage>): Option<Usage> {
    if total.Some? then total else step
  }

  function Normalize(u: Usage): Usage {
    if u.output == 0 then u.(input := 0, cached := 0) else u
  }

  function CacheWrite(u: Usage): int {
    if u.details.None? then 0 else u.details.value.cacheWrite
  }

  function CacheRead(u: Usage): int {
    if u.cached != 0 then u.cached
    else if u.details.Some? then u.details.value.cacheRead
    else 0
  }

  function AnthropicInputTokens(u: Usage): int {
    if u.details.Some? && u.details.value.noCache.Some? && u.details.value.noCache.value >= 0 then
      u.details.value.noCache.value
    else
      var v := u.input - CacheRead(u) - CacheWrite(u);
      if v < 0 then 0 else v
  }

  function MapFinishReason(reason: string): string {
    if reason == "tool-calls" then "tool_calls"
    else if reason == "" then "stop"
    else reason
  }

  function MapAnthropicStopReason(reason: string): string {
    if reason == "tool_calls" then "tool_use"
    else if reason == "length" then "max_tokens"
    else "end_turn"
  }

  /** The argument text of a tool call. It is never blank. */
  function ToolArgs(input: Input): (r: string)
    ensures Trim(r) != ""
  {
    match input
    case Absent => TrimFixed("{}"); "{}"
    case JsonString(s) => if Trim(s) == "" then TrimFixed("{}"); "{}" else s
    case JsonText(text) => text
  }

  /* What a run of events says, read without any of the translators' state. */

  function TextOf(evs: seq<Event>): string {
    if evs == [] then "" else
      TextOf(evs[..|evs| - 1]) + match evs[|evs| - 1] case TextDelta(t) => t case _ => ""
  }

  function ReasoningOf(evs: seq<Event>): string {
    if evs == [] then "" else
      ReasoningOf(evs[..|evs| - 1]) + match evs[|evs| - 1] case ReasoningDelta(t) => t case _ => ""
  }

  datatype Call = Call(id: string, name: string, args: string)

  /** The tool calls in order, each with the identifier the upstream gave it. */
  function CallsOf(evs: seq<Event>): seq<Call> {
    if evs == [] then [] else
      CallsOf(evs[..|evs| - 1])
      + match evs[|evs| - 1] case ToolCall(id, name, input) => [Call(id, name, ToolArgs(input))] case _ => []
  }

  function LastError(evs: seq<Event>): Option<MappedError> {
    if evs == [] then None else
      match evs[|evs| - 1] case Error(e) => Some(e) case _ => LastError(evs[..|evs| - 1])
  }

  /** The reason given by the last `finish` event. */
  function LastFinish(evs: seq<Event>): Option<string> {
    if evs == [] then None else
      match evs[|evs| - 1] case Finish(r, _, _) => Some(r) case _ => LastFinish(evs[..|evs| - 1])
  }

  /** The usage reported by the last `finish` event that reports one. */
  function LastUsage(evs: seq<Event>): Option<Usage> {
    if evs == [] then None else
      var before := LastUsage(evs[..|evs| - 1]);
      match evs[|evs| - 1]
      case Finish(_, total, step) => if ReportedUsage(total, step).Some? then ReportedUsage(total, step) else before
      case _ => before
  }

  predicate NamedCalls(evs: seq<Event>) {
    forall i :: 0 <= i < |evs| && evs[i].ToolCall? ==> evs[i].id != ""
  }

  predicate HasContent(evs: seq<Event>) {
    TextOf(evs) != "" || ReasoningOf(evs) != "" || CallsOf(evs) != []
  }

  /** An event that gives the client something. */
  predicate IsContent(ev: Event) { ev.ToolCall? || ((ev.TextDelta? || ev.ReasoningDelta?) && ev.text != "") }

  lemma NoContent()
    ensures !HasContent([])
  {
  }

  lemma ContentSnoc(evs: seq<Event>)
    requires evs != []
    ensures HasContent(evs) <==> HasContent(evs[..|evs| - 1]) || IsContent(evs[|evs| - 1])
  {
  }
}
