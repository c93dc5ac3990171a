/** anthropic.go: the frames of the Anthropic stream as bytes, and what they mean. */
module AnthropicFrames {
  import opened Text
  import opened Upstream
  import opened Utf8Events
  import opened Json
  import opened JsonPrinter
  import opened JsonBuf
  import opened EventStream
  import opened JsonMembers
  import M = AnthropicModel

  type DeltaUsage = M.DeltaUsage

  datatype Meta = Meta(id: string, model: string)

  /* ---- What each frame means ---- */

  function EmptyMessageValue(meta: Meta): Value {
    Obj(NoFields
        .And("id", StrValue(meta.id))
        .And("type", Str("message"))
        .And("role", Str("assistant"))
        .And("content", Arr(NoItems))
        .And("model", StrValue(meta.model))
        .And("usage", Obj(NoFields.And("input_tokens", IntValue(0)).And("output_tokens", IntValue(0)))))
  }

  function ToolUseValue(id: string, name: string): Value {
    Obj(NoFields
        .And("type", Str("tool_use"))
        .And("id", StrValue(id))
        .And("name", StrValue(name))
        .And("input", Obj(NoFields)))
  }

  function MessageStartValue(meta: Meta): Value {
    Obj(NoFields.And("type", Str("message_start")).And("message", EmptyMessageValue(meta)))
  }

  function PlainBlockStartValue(index: int, kind: string): Value {
    Obj(NoFields
        .And("type", Str("content_block_start"))
        .And("index", IntValue(index))
        .And("content_block", Obj(NoFields.And("type", StrValue(kind)).And(kind, Str("")))))
  }

  function ToolBlockStartValue(index: int, id: string, name: string): Value {
    Obj(NoFields
        .And("type", Str("content_block_start"))
        .And("index", IntValue(index))
        .And("content_block", ToolUseValue(id, name)))
  }

  function TextDeltaValue(index: int, text: string): Value {
    Obj(NoFields
        .And("type", Str("content_block_delta"))
        .And("index", IntValue(index))
        .And("delta", Obj(NoFields.And("type", Str("text_delta")).And("text", StrValue(text)))))
  }

  function ThinkingDeltaValue(index: int, text: string): Value {
    Obj(NoFields
        .And("type", Str("content_block_delta"))
        .And("index", IntValue(index))
        .And("delta", Obj(NoFields.And("type", Str("thinking_delta")).And("thinking", StrValue(text)))))
  }

  function ToolDeltaValue(index: int, partial: string): Value {
    Obj(NoFields
        .And("type", Str("content_block_delta"))
        .And("index", IntValue(index))
        .And("delta", Obj(NoFields.And("type", Str("input_json_delta")).And("partial_json", StrValue(partial)))))
  }

  function SignatureDeltaValue(index: int, signature: string): Value {
    Obj(NoFields
        .And("type", Str("content_block_delta"))
        .And("index", IntValue(index))
        .And("delta", Obj(NoFields.And("type", Str("signature_delta")).And("signature", StrValue(signature)))))
  }

  function BlockStopValue(index: int): Value {
    Obj(NoFields.And("type", Str("content_block_stop")).And("index", IntValue(index)))
  }

  function StopValue(reason: string): Value {
    Obj(NoFields.And("stop_reason", StrValue(reason)).And("stop_sequence", Null))
  }

  function UsageValue(usage: DeltaUsage): Value {
    Obj(NoFields
        .And("output_tokens", IntValue(usage.output))
        .And("cache_read_input_tokens", IntValue(usage.cacheRead))
        .And("cache_creation_input_tokens", IntValue(usage.cacheWrite))
        .And("input_tokens", IntValue(usage.input)))
  }

  function MessageDeltaValue(reason: string, usage: DeltaUsage): Value {
    Obj(NoFields
        .And("type", Str("message_delta"))
        .And("delta", StopValue(reason))
        .And("usage", UsageValue(usage)))
  }

  function MessageStopValue(): Value {
    Obj(NoFields.And("type", Str("message_stop")))
  }

  function PlainErrorValue(typ: string, message: string): Value {
    Obj(NoFields
        .And("type", Str("error"))
        .And("error", Obj(NoFields.And("type", StrValue(typ)).And("message", StrValue(message)))))
  }

  function RetryErrorValue(typ: string, message: string, retryAfter: int): Value {
    Obj(NoFields
        .And("type", Str("error"))
        .And("error", Obj(NoFields.And("type", StrValue(typ)).And("message", StrValue(message))))
        .And("retry_after", IntValue(retryAfter)))
  }

  function PingValue(): Value {
    Obj(NoFields.And("type", Str("ping")))
  }

  function SentOf(meta: Meta, f: M.Frame): Sent {
    match f
    case MessageStart => Event("message_start", MessageStartValue(meta))
    case BlockStart(index, kind, id, name) =>
      Event("content_block_start",
            match kind
            case TextBlock => PlainBlockStartValue(index, "text")
            case ThinkingBlock => PlainBlockStartValue(index, "thinking")
            case ToolBlock => ToolBlockStartValue(index, id, name))
    case BlockDelta(index, kind, text) =>
      Event("content_block_delta",
            match kind
            case TextBlock => TextDeltaValue(index, text)
            case ThinkingBlock => ThinkingDeltaValue(index, text)
            case ToolBlock => ToolDeltaValue(index, text))
    case Signature(index, signature) => Event("content_block_delta", SignatureDeltaValue(index, signature))
    case BlockStop(index) => Event("content_block_stop", BlockStopValue(index))
    case MessageDelta(reason, usage) => Event("message_delta", MessageDeltaValue(reason, usage))
    case MessageStop => Event("message_stop", MessageStopValue())
    case ErrorEvent(typ, message, retryAfter) =>
      Event("error",
            if retryAfter > 0 then RetryErrorValue(typ, message, retryAfter) else PlainErrorValue(typ, message))
    case Ping => Event("ping", PingValue())
  }

  /* ---- The constants ---- */

  lemma EventNames()
    ensures Plain("type") && Plain("ping") && Plain("error")
  {
  }

  lemma MessageEvents()
    ensures Plain("message_start") && Plain("message_delta") && Plain("message_stop")
  {
  }

  lemma BlockEvents()
    ensures Plain("content_block_start") && Plain("content_block_delta")
  {
  }

  lemma BlockEnd()
    ensures Plain("content_block_stop")
  {
  }

  lemma BlockNames()
    ensures Plain("index") && Plain("content_block") && Plain("delta")
  {
  }

  lemma TextNames()
    ensures Plain("text") && Plain("text_delta") && Plain("thinking") && Plain("thinking_delta")
  {
  }

  lemma InputNames()
    ensures Plain("input_json_delta") && Plain("partial_json")
  {
  }

  lemma SignatureNames()
    ensures Plain("signature") && Plain("signature_delta")
  {
  }

  lemma ToolNames()
    ensures Plain("tool_use") && Plain("id") && Plain("name") && Plain("input") && Plain("")
  {
  }

  lemma MessageNames()
    ensures Plain("message") && Plain("role") && Plain("assistant") && Plain("content") && Plain("model")
    ensures Plain("usage")
  {
  }

  lemma StopNames()
    ensures Plain("stop_reason") && Plain("stop_sequence")
  {
  }

  lemma TokenNames()
    ensures Plain("input_tokens") && Plain("output_tokens")
  {
  }

  lemma CacheNames()
    ensures Plain("cache_read_input_tokens") && Plain("cache_creation_input_tokens")
  {
  }

  lemma RetryName()
    ensures Plain("retry_after")
  {
  }

  /* ---- Writing the frames ---- */

  /** beginAnthropicEvent, into an empty buffer. */
  method BeginEvent(buf: JsonBuf, event: string)
    modifies buf
    ensures buf.Valid() && buf.st == START && buf.head == Head(event)
  {
    buf.Reset();
    buf.Lead("event: ");
    buf.Lead(event);
    buf.Lead("\ndata: ");
    assert "" + "event: " == "event: ";
  }

  method EmptyMessage(buf: JsonBuf, meta: Meta)
    requires buf.Valid() && buf.st.Reading? && Wants(buf.st.mode)
    modifies buf
    ensures buf.Valid() && buf.head == old(buf.head)
    ensures buf.st == Put(old(buf.st).stack, EmptyMessageValue(meta))
  {
    hide Plain, Feed, Join, Framed, Head, JsonBuf.Valid, Clean, Repaired, Decimal;
    EventNames();
    ToolNames();
    MessageNames();
    TokenNames();
    buf.Open();
    buf.Key("id"); buf.Str(meta.id);
    buf.Next("type"); buf.Const("message");
    buf.Next("role"); buf.Const("assistant");
    buf.Next("content"); buf.OpenList(); buf.CloseList();
    buf.Next("model"); buf.Str(meta.model);
    buf.Next("usage"); buf.Open();
    buf.Key("input_tokens"); buf.Int(0);
    buf.Next("output_tokens"); buf.Int(0);
    buf.Close(); buf.Close();
  }

  method ToolUse(buf: JsonBuf, id: string, name: string)
    requires buf.Valid() && buf.st.Reading? && Wants(buf.st.mode)
    modifies buf
    ensures buf.Valid() && buf.head == old(buf.head)
    ensures buf.st == Put(old(buf.st).stack, ToolUseValue(id, name))
  {
    hide Plain, Feed, Join, Framed, Head, JsonBuf.Valid, Clean, Repaired, Decimal;
    EventNames();
    ToolNames();
    buf.Open();
    buf.Key("type"); buf.Const("tool_use");
    buf.Next("id"); buf.Str(id);
    buf.Next("name"); buf.Str(name);
    buf.Next("input"); buf.Open();
    buf.Close(); buf.Close();
  }

  /** writeAnthropicMessageStart. */
  method MessageStart(buf: JsonBuf, meta: Meta)
    modifies buf
    ensures Renders(buf.b, Event("message_start", MessageStartValue(meta)))
  {
    hide Plain, Feed, Join, Framed, Head, JsonBuf.Valid, Clean, Repaired, Decimal;
    EventNames();
    MessageEvents();
    MessageNames();
    PlainClean("message_start");
    BeginEvent(buf, "message_start");
    buf.Open();
    buf.Key("type"); buf.Const("message_start");
    buf.Next("message"); EmptyMessage(buf, meta);
    buf.Close();
    buf.EndFrame();
  }

  /** startBlock, for the kinds "text" and "thinking". */
  method PlainBlockStart(buf: JsonBuf, index: int, kind: string)
    requires Plain(kind)
    modifies buf
    ensures Renders(buf.b, Event("content_block_start", PlainBlockStartValue(index, kind)))
  {
    hide Plain, Feed, Join, Framed, Head, JsonBuf.Valid, Clean, Repaired, Decimal;
    EventNames();
    BlockEvents();
    BlockNames();
    ToolNames();
    PlainClean("content_block_start");
    PlainRepaired(kind);
    BeginEvent(buf, "content_block_start");
    buf.Open();
    buf.Key("type"); buf.Const("content_block_start");
    buf.Next("index"); buf.Int(index);
    buf.Next("content_block"); buf.Open();
    buf.Key("type"); buf.Str(kind);
    buf.Next(kind); buf.Const("");
    buf.Close(); buf.Close();
    buf.EndFrame();
  }

  /** The start of a tool call's block. */
  method ToolBlockStart(buf: JsonBuf, index: int, id: string, name: string)
    modifies buf
    ensures Renders(buf.b, Event("content_block_start", ToolBlockStartValue(index, id, name)))
  {
    hide Plain, Feed, Join, Framed, Head, JsonBuf.Valid, Clean, Repaired, Decimal;
    EventNames();
    BlockEvents();
    BlockNames();
    PlainClean("content_block_start");
    BeginEvent(buf, "content_block_start");
    buf.Open();
    buf.Key("type"); buf.Const("content_block_start");
    buf.Next("index"); buf.Int(index);
    buf.Next("content_block"); ToolUse(buf, id, name);
    buf.Close();
    buf.EndFrame();
  }

  /** deltaText. */
  method TextDelta(buf: JsonBuf, index: int, text: string)
    modifies buf
    ensures Renders(buf.b, Event("content_block_delta", TextDeltaValue(index, text)))
  {
    hide Plain, Feed, Join, Framed, Head, JsonBuf.Valid, Clean, Repaired, Decimal;
    EventNames();
    BlockEvents();
    BlockNames();
    TextNames();
    PlainClean("content_block_delta");
    BeginEvent(buf, "content_block_delta");
    buf.Open();
    buf.Key("type"); buf.Const("content_block_delta");
    buf.Next("index"); buf.Int(index);
    buf.Next("delta"); buf.Open();
    buf.Key("type"); buf.Const("text_delta");
    buf.Next("text"); buf.Str(text);
    buf.Close(); buf.Close();
    buf.EndFrame();
  }

  /** deltaThinking. */
  method ThinkingDelta(buf: JsonBuf, index: int, text: string)
    modifies buf
    ensures Renders(buf.b, Event("content_block_delta", ThinkingDeltaValue(index, text)))
  {
    hide Plain, Feed, Join, Framed, Head, JsonBuf.Valid, Clean, Repaired, Decimal;
    EventNames();
    BlockEvents();
    BlockNames();
    TextNames();
    PlainClean("content_block_delta");
    BeginEvent(buf, "content_block_delta");
    buf.Open();
    buf.Key("type"); buf.Const("content_block_delta");
    buf.Next("index"); buf.Int(index);
    buf.Next("delta"); buf.Open();
    buf.Key("type"); buf.Const("thinking_delta");
    buf.Next("thinking"); buf.Str(text);
    buf.Close(); buf.Close();
    buf.EndFrame();
  }

  /** deltaToolInput. */
  method ToolDelta(buf: JsonBuf, index: int, partial: string)
    modifies buf
    ensures Renders(buf.b, Event("content_block_delta", ToolDeltaValue(index, partial)))
  {
    hide Plain, Feed, Join, Framed, Head, JsonBuf.Valid, Clean, Repaired, Decimal;
    EventNames();
    BlockEvents();
    BlockNames();
    InputNames();
    PlainClean("content_block_delta");
    BeginEvent(buf, "content_block_delta");
    buf.Open();
    buf.Key("type"); buf.Const("content_block_delta");
    buf.Next("index"); buf.Int(index);
    buf.Next("delta"); buf.Open();
    buf.Key("type"); buf.Const("input_json_delta");
    buf.Next("partial_json"); buf.Str(partial);
    buf.Close(); buf.Close();
    buf.EndFrame();
  }

  /** closeBlock, for a thinking block. */
  method SignatureDelta(buf: JsonBuf, index: int, signature: string)
    modifies buf
    ensures Renders(buf.b, Event("content_block_delta", SignatureDeltaValue(index, signature)))
  {
    hide Plain, Feed, Join, Framed, Head, JsonBuf.Valid, Clean, Repaired, Decimal;
    EventNames();
    BlockEvents();
    BlockNames();
    SignatureNames();
    PlainClean("content_block_delta");
    BeginEvent(buf, "content_block_delta");
    buf.Open();
    buf.Key("type"); buf.Const("content_block_delta");
    buf.Next("index"); buf.Int(index);
    buf.Next("delta"); buf.Open();
    buf.Key("type"); buf.Const("signature_delta");
    buf.Next("signature"); buf.Str(signature);
    buf.Close(); buf.Close();
    buf.EndFrame();
  }

  /** closeBlock. */
  method BlockStop(buf: JsonBuf, index: int)
    modifies buf
    ensures Renders(buf.b, Event("content_block_stop", BlockStopValue(index)))
  {
    hide Plain, Feed, Join, Framed, Head, JsonBuf.Valid, Clean, Repaired, Decimal;
    EventNames();
    BlockEnd();
    BlockNames();
    PlainClean("content_block_stop");
    BeginEvent(buf, "content_block_stop");
    buf.Open();
    buf.Key("type"); buf.Const("content_block_stop");
    buf.Next("index"); buf.Int(index);
    buf.Close();
    buf.EndFrame();
  }

  method Stop(buf: JsonBuf, reason: string)
    requires buf.Valid() && buf.st.Reading? && Wants(buf.st.mode)
    modifies buf
    ensures buf.Valid() && buf.head == old(buf.head)
    ensures buf.st == Put(old(buf.st).stack, StopValue(reason))
  {
    hide Plain, Feed, Join, Framed, Head, JsonBuf.Valid, Clean, Repaired, Decimal;
    StopNames();
    buf.Open();
    buf.Key("stop_reason"); buf.Str(reason);
    buf.Next("stop_sequence"); buf.Null();
    buf.Close();
  }

  method WriteUsage(buf: JsonBuf, usage: DeltaUsage)
    requires buf.Valid() && buf.st.Reading? && Wants(buf.st.mode)
    modifies buf
    ensures buf.Valid() && buf.head == old(buf.head)
    ensures buf.st == Put(old(buf.st).stack, UsageValue(usage))
  {
    hide Plain, Feed, Join, Framed, Head, JsonBuf.Valid, Clean, Repaired, Decimal;
    TokenNames();
    CacheNames();
    buf.Open();
    buf.Key("output_tokens"); buf.Int(usage.output);
    buf.Next("cache_read_input_tokens"); buf.Int(usage.cacheRead);
    buf.Next("cache_creation_input_tokens"); buf.Int(usage.cacheWrite);
    buf.Next("input_tokens"); buf.Int(usage.input);
    buf.Close();
  }

  /** The end of messagesStream. */
  method MessageDelta(buf: JsonBuf, reason: string, usage: DeltaUsage)
    modifies buf
    ensures Renders(buf.b, Event("message_delta", MessageDeltaValue(reason, usage)))
  {
    hide Plain, Feed, Join, Framed, Head, JsonBuf.Valid, Clean, Repaired, Decimal, StopValue, UsageValue;
    EventNames();
    MessageEvents();
    BlockNames();
    MessageNames();
    PlainClean("message_delta");
    BeginEvent(buf, "message_delta");
    buf.Open();
    buf.Key("type"); buf.Const("message_delta");
    buf.Next("delta"); Stop(buf, reason);
    buf.Next("usage"); WriteUsage(buf, usage);
    buf.Close();
    buf.EndFrame();
  }

  method MessageStop(buf: JsonBuf)
    modifies buf
    ensures Renders(buf.b, Event("message_stop", MessageStopValue()))
  {
    hide Plain, Feed, Join, Framed, Head, JsonBuf.Valid, Clean, Repaired, Decimal;
    EventNames();
    MessageEvents();
    PlainClean("message_stop");
    BeginEvent(buf, "message_stop");
    buf.Open();
    buf.Key("type"); buf.Const("message_stop");
    buf.Close();
    buf.EndFrame();
  }

  method PlainError(buf: JsonBuf, typ: string, message: string)
    modifies buf
    ensures Renders(buf.b, Event("error", PlainErrorValue(typ, message)))
  {
    hide Plain, Feed, Join, Framed, Head, JsonBuf.Valid, Clean, Repaired, Decimal;
    EventNames();
    MessageNames();
    PlainClean("error");
    BeginEvent(buf, "error");
    buf.Open();
    buf.Key("type"); buf.Const("error");
    buf.Next("error"); buf.Open();
    buf.Key("type"); buf.Str(typ);
    buf.Next("message"); buf.Str(message);
    buf.Close(); buf.Close();
    buf.EndFrame();
  }

  /** The idle timeout. */
  method RetryError(buf: JsonBuf, typ: string, message: string, retryAfter: int)
    modifies buf
    ensures Renders(buf.b, Event("error", RetryErrorValue(typ, message, retryAfter)))
  {
    hide Plain, Feed, Join, Framed, Head, JsonBuf.Valid, Clean, Repaired, Decimal;
    EventNames();
    MessageNames();
    RetryName();
    PlainClean("error");
    BeginEvent(buf, "error");
    buf.Open();
    buf.Key("type"); buf.Const("error");
    buf.Next("error"); buf.Open();
    buf.Key("type"); buf.Str(typ);
    buf.Next("message"); buf.Str(message);
    buf.Close();
    buf.Next("retry_after"); buf.Int(retryAfter);
    buf.Close();
    buf.EndFrame();
  }

  method Ping(buf: JsonBuf)
    modifies buf
    ensures Renders(buf.b, Event("ping", PingValue()))
  {
    hide Plain, Feed, Join, Framed, Head, JsonBuf.Valid, Clean, Repaired, Decimal;
    EventNames();
    PlainClean("ping");
    BeginEvent(buf, "ping");
    buf.Open();
    buf.Key("type"); buf.Const("ping");
    buf.Close();
    buf.EndFrame();
  }

  /** Any frame of the stream. */
  method WriteFrame(buf: JsonBuf, meta: Meta, f: M.Frame)
    modifies buf
    ensures Renders(buf.b, SentOf(meta, f))
  {
    hide Plain, Renders;
    match f {
      case MessageStart => MessageStart(buf, meta);
      case BlockStart(index, kind, id, name) =>
        KindNames();
        match kind {
          case TextBlock => PlainBlockStart(buf, index, "text");
          case ThinkingBlock => PlainBlockStart(buf, index, "thinking");
          case ToolBlock => ToolBlockStart(buf, index, id, name);
        }
      case BlockDelta(index, kind, text) =>
        match kind {
          case TextBlock => TextDelta(buf, index, text);
          case ThinkingBlock => ThinkingDelta(buf, index, text);
          case ToolBlock => ToolDelta(buf, index, text);
        }
      case Signature(index, signature) => SignatureDelta(buf, index, signature);
      case BlockStop(index) => BlockStop(buf, index);
      case MessageDelta(reason, usage) => MessageDelta(buf, reason, usage);
      case MessageStop => MessageStop(buf);
      case ErrorEvent(typ, message, retryAfter) =>
        if retryAfter > 0 {
          RetryError(buf, typ, message, retryAfter);
        } else {
          PlainError(buf, typ, message);
        }
      case Ping => Ping(buf);
    }
  }

  lemma KindNames()
    ensures Plain("text") && Plain("thinking")
  {
  }

  function Sents(meta: Meta, frames: seq<M.Frame>): seq<Sent> {
    seq(|frames|, i requires 0 <= i < |frames| => SentOf(meta, frames[i]))
  }

  /** The bytes of a whole stream: a client dispatches exactly its frames, and the data of each parses to
      exactly the value that was meant. */
  method WriteAll(buf: JsonBuf, meta: Meta, frames: seq<M.Frame>) returns (bytes: string)
    modifies buf
    ensures MatchesAll(Receive(bytes), Meant(Sents(meta, frames)))
  {
    hide Renders, SentOf, MatchesAll, Receive, Meant, Concat;
    bytes := "";
    ghost var texts: seq<string> := [];
    ConcatNone();
    for i := 0 to |frames|
      invariant bytes == Concat(texts) && RendersAll(texts, Sents(meta, frames[..i]))
    {
      WriteFrame(buf, meta, frames[i]);
      ConcatSnoc(texts, buf.b);
      bytes := bytes + buf.b;
      texts := texts + [buf.b];
    }
    assert frames[..|frames|] == frames;
    StreamReads(texts, Sents(meta, frames));
  }

  /** Strings are valid UTF-8, and what a frame does not send is empty. */
  predicate Sendable(f: M.Frame) {
    match f
    case BlockStart(_, kind, id, name) =>
      if kind == M.ToolBlock then ValidUtf8(id) && ValidUtf8(name) else id == "" && name == ""
    case BlockDelta(_, _, text) => ValidUtf8(text)
    case Signature(_, signature) => ValidUtf8(signature)
    case MessageDelta(reason, _) => ValidUtf8(reason)
    case ErrorEvent(typ, message, retryAfter) => ValidUtf8(typ) && ValidUtf8(message) && retryAfter >= 0
    case _ => true
  }

  lemma EventsDiffer()
    ensures "message_start" != "message_delta" && "message_start" != "message_stop"
    ensures "message_delta" != "message_stop"
    ensures "content_block_start" != "content_block_delta" && "content_block_start" != "content_block_stop"
    ensures "content_block_delta" != "content_block_stop"
  {
    assert "message_start"[8] == 's' && "message_delta"[8] == 'd';
  }

  lemma TypesDiffer()
    ensures "text" != "thinking" && "text_delta" != "thinking_delta" && "text_delta" != "input_json_delta"
    ensures "thinking_delta" != "input_json_delta" && "signature_delta" != "text_delta"
    ensures "signature_delta" != "thinking_delta" && "signature_delta" != "input_json_delta"
  {
  }

  /* ---- What a client reads ---- */

  function ReadStart(index: int, block: Value): M.Frame {
    match TextIn(block, "type")
    case "text" => M.BlockStart(index, M.TextBlock, "", "")
    case "thinking" => M.BlockStart(index, M.ThinkingBlock, "", "")
    case _ => M.BlockStart(index, M.ToolBlock, TextIn(block, "id"), TextIn(block, "name"))
  }

  function ReadDelta(index: int, delta: Value): M.Frame {
    match TextIn(delta, "type")
    case "text_delta" => M.BlockDelta(index, M.TextBlock, TextIn(delta, "text"))
    case "thinking_delta" => M.BlockDelta(index, M.ThinkingBlock, TextIn(delta, "thinking"))
    case "input_json_delta" => M.BlockDelta(index, M.ToolBlock, TextIn(delta, "partial_json"))
    case _ => M.Signature(index, TextIn(delta, "signature"))
  }

  function ReadUsage(v: Value): DeltaUsage {
    M.DeltaUsage(IntIn(v, "output_tokens"), IntIn(v, "cache_read_input_tokens"),
                 IntIn(v, "cache_creation_input_tokens"), IntIn(v, "input_tokens"))
  }

  /** A client of the stream finds everything under the names that the protocol gives it. */
  function Read(event: string, v: Value): M.Frame {
    var index, error := IntIn(v, "index"), Member(v, "error");
    match event
    case "message_start" => M.MessageStart
    case "content_block_start" => ReadStart(index, Member(v, "content_block"))
    case "content_block_delta" => ReadDelta(index, Member(v, "delta"))
    case "content_block_stop" => M.BlockStop(index)
    case "message_delta" =>
      M.MessageDelta(TextIn(Member(v, "delta"), "stop_reason"), ReadUsage(Member(v, "usage")))
    case "message_stop" => M.MessageStop
    case "error" => M.ErrorEvent(TextIn(error, "type"), TextIn(error, "message"), IntIn(v, "retry_after"))
    case _ => M.Ping
  }

  lemma MemberNamesDiffer()
    ensures "type" != "index" && "type" != "content_block" && "type" != "delta" && "type" != "usage"
    ensures "type" != "error" && "type" != "retry_after" && "type" != "message" && "type" != "text"
    ensures "index" != "content_block" && "index" != "delta" && "error" != "retry_after" && "delta" != "usage"
    ensures "type" != "id" && "type" != "name" && "type" != "input" && "id" != "name" && "id" != "input"
    ensures "name" != "input" && "type" != "thinking" && "type" != "partial_json" && "type" != "signature"
    ensures "stop_reason" != "stop_sequence"
  {
    assert "type"[0] != "name"[0] && "type"[1] != "text"[1];
    assert "index"[0] != "delta"[0] && "error"[0] != "usage"[0] && "delta"[0] != "usage"[0];
  }

  lemma CountNamesDiffer()
    ensures "output_tokens" != "cache_read_input_tokens" && "output_tokens" != "cache_creation_input_tokens"
    ensures "output_tokens" != "input_tokens" && "cache_read_input_tokens" != "cache_creation_input_tokens"
    ensures "cache_read_input_tokens" != "input_tokens" && "cache_creation_input_tokens" != "input_tokens"
  {
  }

  lemma UsageRead(usage: DeltaUsage)
    ensures ReadUsage(UsageValue(usage)) == usage
  {
    hide In, Repaired, Decimal, DecimalValue, IntOf;
    Lookup();
    Spelled();
    CountNamesDiffer();
  }

  lemma StopRead(reason: string)
    requires ValidUtf8(reason)
    ensures TextIn(StopValue(reason), "stop_reason") == reason
  {
    hide In, Repaired, ValidUtf8, StringOf;
    Lookup();
    Spelled();
    MemberNamesDiffer();
    ValidIsRepaired(reason);
  }

  lemma PlainStrings()
    ensures forall s :: StringOf(Str(s)) == s
    ensures Repaired("text") == "text" && Repaired("thinking") == "thinking"
  {
    hide Plain, Repaired;
    KindNames();
    PlainValid("text");
    PlainValid("thinking");
    ValidIsRepaired("text");
    ValidIsRepaired("thinking");
  }

  lemma BlockStartRead(meta: Meta, f: M.Frame)
    requires Sendable(f) && f.BlockStart?
    ensures var sent := SentOf(meta, f); Read(sent.event, sent.v) == f && TextIn(sent.v, "type") == sent.event
  {
    hide In, Repaired, Decimal, DecimalValue, IntOf, StringOf, ValidUtf8;
    Lookup();
    Spelled();
    PlainStrings();
    MemberNamesDiffer();
    EventsDiffer();
    TypesDiffer();
    if f.kind == M.ToolBlock {
      ValidIsRepaired(f.id);
      ValidIsRepaired(f.name);
    }
  }

  lemma BlockDeltaRead(meta: Meta, f: M.Frame)
    requires Sendable(f) && (f.BlockDelta? || f.Signature?)
    ensures var sent := SentOf(meta, f); Read(sent.event, sent.v) == f && TextIn(sent.v, "type") == sent.event
  {
    hide In, Repaired, Decimal, DecimalValue, IntOf, StringOf, ValidUtf8, ReadDelta, ReadStart;
    Lookup();
    Spelled();
    PlainStrings();
    MemberNamesDiffer();
    EventsDiffer();
    DeltaRead(f, f.index);
  }

  function DeltaOf(f: M.Frame): Value
    requires f.BlockDelta? || f.Signature?
  {
    match f
    case BlockDelta(_, kind, text) =>
      (match kind
       case TextBlock => Obj(NoFields.And("type", Str("text_delta")).And("text", StrValue(text)))
       case ThinkingBlock => Obj(NoFields.And("type", Str("thinking_delta")).And("thinking", StrValue(text)))
       case ToolBlock => Obj(NoFields.And("type", Str("input_json_delta")).And("partial_json", StrValue(text))))
    case Signature(_, signature) =>
      Obj(NoFields.And("type", Str("signature_delta")).And("signature", StrValue(signature)))
  }

  lemma DeltaRead(f: M.Frame, index: int)
    requires Sendable(f) && (f.BlockDelta? || f.Signature?) && index == f.index
    ensures ReadDelta(index, DeltaOf(f)) == f
  {
    hide In, Repaired, StringOf, ValidUtf8;
    Lookup();
    Spelled();
    PlainStrings();
    MemberNamesDiffer();
    TypesDiffer();
    ValidIsRepaired(if f.BlockDelta? then f.text else f.signature);
  }

  /** What a client reads is the frame, and the event is named after the type in its data. */
  lemma ReadsBack(meta: Meta, f: M.Frame)
    requires Sendable(f)
    ensures var sent := SentOf(meta, f);
      sent.Event? && Read(sent.event, sent.v) == f && TextIn(sent.v, "type") == sent.event
  {
    hide In, Repaired, Decimal, DecimalValue, StringOf, ValidUtf8, ReadUsage, UsageValue, StopValue;
    hide ReadStart, ReadDelta, ToolUseValue, EmptyMessageValue;
    Lookup();
    Spelled();
    PlainStrings();
    MemberNamesDiffer();
    EventsDiffer();
    match f
    case BlockStart(_, _, _, _) => BlockStartRead(meta, f);
    case BlockDelta(_, _, _) => BlockDeltaRead(meta, f);
    case Signature(_, _) => BlockDeltaRead(meta, f);
    case MessageDelta(reason, usage) =>
      UsageRead(usage);
      StopRead(reason);
    case ErrorEvent(typ, message, _) =>
      ValidIsRepaired(typ);
      ValidIsRepaired(message);
    case _ =>
  }

  /** No two frames mean the same: what a client receives determines the frame. */
  lemma Lossless(meta: Meta, f: M.Frame, g: M.Frame)
    requires Sendable(f) && Sendable(g) && SentOf(meta, f) == SentOf(meta, g)
    ensures f == g
  {
    hide SentOf, Read, Sendable;
    ReadsBack(meta, f);
    ReadsBack(meta, g);
  }

  /* ---- The frames of a run ---- */

  predicate AllSendable(frames: seq<M.Frame>) { forall i :: 0 <= i < |frames| ==> Sendable(frames[i]) }

  predicate ValidBlock(b: M.Block) {
    && AllValid(b.chunks)
    && if b.kind == M.ToolBlock then ValidUtf8(b.id) && ValidUtf8(b.name) else b.id == "" && b.name == ""
  }

  ghost predicate ValidSign(sign: M.Sign) { forall text :: ValidUtf8(sign(text)) }

  /** What a run over valid events keeps. */
  predicate Sound(s: M.State) {
    && (forall i :: 0 <= i < |s.closed| ==> ValidBlock(s.closed[i]))
    && (s.open.Some? ==> ValidBlock(s.open.value))
    && ValidUtf8(s.stopReason)
    && (s.failure.Some? ==> ValidEvent(Error(s.failure.value)))
  }

  lemma StopReasons()
    ensures Plain("end_turn") && Plain("tool_use") && Plain("max_tokens")
  {
  }

  lemma StopReasonValid(reason: string)
    ensures ValidUtf8(MapAnthropicStopReason(reason)) && ValidUtf8("end_turn")
  {
    hide ValidUtf8, Plain;
    StopReasons();
    PlainValid("end_turn");
    PlainValid("tool_use");
    PlainValid("max_tokens");
  }

  lemma PieceSound(s: M.State, kind: M.Kind, text: string)
    requires Sound(s) && ValidUtf8(text) && kind != M.ToolBlock
    ensures Sound(M.WithPiece(s, kind, text))
  {
    hide ValidUtf8;
  }

  lemma ToolSound(s: M.State, hex: Hex, id: string, name: string, args: string)
    requires Sound(s) && ValidHex(hex) && ValidUtf8(id) && ValidUtf8(name) && ValidUtf8(args)
    ensures Sound(M.WithTool(s, hex, id, name, args))
  {
    hide ValidUtf8;
    Constants();
    ValidID("toolu_", hex, s.drawn);
  }

  lemma ReportSound(s: M.State, reason: string, reported: Option<Usage>)
    requires Sound(s)
    ensures Sound(M.WithReport(s, reason, reported))
  {
    hide ValidUtf8, ValidBlock, MapFinishReason, MapAnthropicStopReason, Normalize, M.WithUsage;
    StopReasonValid(MapFinishReason(reason));
    if reported.Some? {
      UsageSound(M.WithReason(s, reason), Normalize(reported.value));
    }
  }

  lemma UsageSound(s: M.State, u: Usage)
    requires Sound(s)
    ensures Sound(M.WithUsage(s, u))
  {
    hide ValidUtf8, ValidBlock, CacheRead, CacheWrite;
    M.UsageKeeps(s, u);
  }

  lemma StepSound(s: M.State, hex: Hex, ev: Event)
    requires Sound(s) && ValidEvent(ev) && ValidHex(hex)
    ensures Sound(M.Step(s, hex, ev))
  {
    hide ValidUtf8, ToolArgs, MapFinishReason, MapAnthropicStopReason, Normalize, M.WithUsage, M.WithPiece, M.WithTool;
    match ev
    case TextDelta(t) => PieceSound(s, M.TextBlock, t);
    case ReasoningDelta(t) => PieceSound(s, M.ThinkingBlock, t);
    case ToolCall(id, name, input) =>
      ValidArgs(input);
      ToolSound(s, hex, id, name, ToolArgs(input));
    case FinishStep(reason, total, step) => ReportSound(s, reason, ReportedUsage(total, step));
    case Finish(reason, total, step) => ReportSound(s, reason, ReportedUsage(total, step));
    case _ =>
  }

  lemma {:induction false} FoldSound(hex: Hex, evs: seq<Event>)
    requires ValidEvents(evs) && ValidHex(hex)
    ensures Sound(M.Fold(hex, evs))
  {
    hide ValidUtf8, M.Step, ValidEvent, ValidHex, Sound;
    if evs == [] {
      NothingSound();
    } else {
      FoldSound(hex, evs[..|evs| - 1]);
      StepSound(M.Fold(hex, evs[..|evs| - 1]), hex, evs[|evs| - 1]);
    }
  }

  lemma NothingSound()
    ensures Sound(M.INITIAL)
  {
    ValidNothing();
  }

  lemma BlockSendable(sign: M.Sign, j: int, b: M.Block)
    requires ValidBlock(b) && ValidSign(sign)
    ensures AllSendable(M.Open(j, b)) && AllSendable(M.Tail(sign, j, b))
  {
    hide ValidUtf8, Concat;
  }

  lemma {:induction false} ClosedSendable(sign: M.Sign, blocks: seq<M.Block>)
    requires ValidSign(sign) && forall i :: 0 <= i < |blocks| ==> ValidBlock(blocks[i])
    ensures AllSendable(M.ClosedFrames(sign, blocks))
  {
    hide Sendable, ValidBlock, ValidSign, M.Open, M.Tail;
    if blocks != [] {
      var j := |blocks| - 1;
      ClosedSendable(sign, blocks[..j]);
      BlockSendable(sign, j, blocks[j]);
    }
  }

  lemma FramesSendable(s: M.State, sign: M.Sign)
    requires Sound(s) && s.open.None? && ValidSign(sign)
    ensures AllSendable(M.Frames(s, sign))
  {
    hide ValidUtf8, ValidSign, ValidBlock, M.ClosedFrames;
    ClosedSendable(sign, s.closed);
  }

  /** Every frame of a run over valid events can be sent without loss. */
  lemma RunSendable(hex: Hex, sign: M.Sign, evs: seq<Event>, ending: Ending, timeoutMessage: string)
    requires ValidEvents(evs) && ValidHex(hex) && ValidSign(sign) && ValidEnding(ending) && ValidUtf8(timeoutMessage)
    ensures AllSendable(M.AllFrames(M.Fold(hex, evs), sign, ending, timeoutMessage))
  {
    hide ValidUtf8, M.Fold, ValidEvents, ValidHex, ValidSign, ValidBlock, M.Frames;
    FoldSound(hex, evs);
    var c := M.Close(M.Fold(hex, evs));
    FramesSendable(c, sign);
    FramesSendable(c.(begun := true), sign);
    StopReasonValid("");
    ErrorTypes();
  }

  /** No two streams mean the same: what a client receives determines all frames. */
  lemma AllLossless(meta: Meta, fs: seq<M.Frame>, gs: seq<M.Frame>)
    requires AllSendable(fs) && AllSendable(gs) && Sents(meta, fs) == Sents(meta, gs)
    ensures fs == gs
  {
    hide Sendable, SentOf;
    assert |Sents(meta, fs)| == |Sents(meta, gs)|;
    forall i | 0 <= i < |fs| ensures fs[i] == gs[i] {
      assert Sents(meta, fs)[i] == Sents(meta, gs)[i];
      Lossless(meta, fs[i], gs[i]);
    }
  }
}
