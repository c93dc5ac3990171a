/** openai.go: the frames of the chat stream as bytes, and what they mean. */
module OpenAIFrames {
  import opened Upstream
  import opened Json
  import opened JsonPrinter
  import opened JsonBuf
  import opened EventStream
  import opened JsonMembers
  import M = OpenAIModel
  import opened Text
  import opened Utf8Events

  type Delta = M.Delta

  type Counts = M.Counts

  datatype Meta = Meta(id: string, model: string, created: int)

  /* ---- What each frame means ---- */

  function CallValue(index: int, call: Call): Value {
    Obj(NoFields
        .And("index", IntValue(index)).And("id", StrValue(call.id)).And("type", Str("function"))
        .And("function", Obj(NoFields.And("name", StrValue(call.name)).And("arguments", StrValue(call.args)))))
  }

  function RoleFields(role: bool): Fields { if role then NoFields.And("role", Str("assistant")) else NoFields }

  function DeltaFields(role: bool, d: Delta): Fields {
    match d
    case Content(text) => RoleFields(role).And("content", StrValue(text))
    case ReasoningContent(text) => RoleFields(role).And("reasoning_content", StrValue(text))
    case ToolCalls(index, call) =>
      (if role then RoleFields(role).And("content", Null) else NoFields)
      .And("tool_calls", Arr(Item(NoItems, CallValue(index, call))))
    case NoDelta => NoFields
  }

  function ChoiceValue(role: bool, d: Delta, finish: string): Value {
    Obj(NoFields
        .And("index", IntValue(0)).And("delta", Obj(DeltaFields(role, d)))
        .And("finish_reason", if finish == "" then Null else StrValue(finish)))
  }

  function CountsValue(u: Counts): Value {
    Obj(NoFields
        .And("prompt_tokens", IntValue(u.prompt)).And("completion_tokens", IntValue(u.completion))
        .And("total_tokens", IntValue(u.prompt + u.completion))
        .And("prompt_tokens_details", Obj(NoFields.And("cached_tokens", IntValue(u.cached)))))
  }

  function ChunkFields(meta: Meta): Fields {
    NoFields
    .And("id", StrValue(meta.id)).And("object", Str("chat.completion.chunk")).And("created", IntValue(meta.created))
    .And("model", StrValue(meta.model))
  }

  function ErrorValue(typ: string, message: string, retryAfter: int): Value {
    var e := NoFields.And("error", Obj(NoFields.And("message", StrValue(message)).And("type", StrValue(typ))));
    Obj(if retryAfter > 0 then e.And("retry_after", IntValue(retryAfter)) else e)
  }

  function SentOf(meta: Meta, f: M.Frame): Sent {
    match f
    case Chunk(role, d, finish, usage) =>
      var chunk := ChunkFields(meta).And("choices", Arr(Item(NoItems, ChoiceValue(role, d, finish))));
      Data(Obj(if usage.Some? then chunk.And("usage", CountsValue(usage.value)) else chunk))
    case UsageChunk(counts) =>
      Data(Obj(ChunkFields(meta).And("choices", Arr(NoItems)).And("usage", CountsValue(counts))))
    case ErrorFrame(typ, message, retryAfter) => Data(ErrorValue(typ, message, retryAfter))
    case DoneMark => Sent.DoneMark
    case KeepAlive => Comment
  }

  /* ---- The constants ---- */

  lemma ChunkNames()
    ensures Plain("id") && Plain("object") && Plain("created") && Plain("model") && Plain("choices")
    ensures Plain("usage")
  {
  }

  lemma ChunkObject()
    ensures Plain("chat.completion.chunk")
  {
  }

  lemma ChoiceNames()
    ensures Plain("index") && Plain("delta") && Plain("finish_reason")
  {
  }

  lemma DeltaNames()
    ensures Plain("role") && Plain("assistant") && Plain("content") && Plain("tool_calls")
  {
  }

  lemma ReasoningName()
    ensures Plain("reasoning_content")
  {
  }

  lemma CallNames()
    ensures Plain("type") && Plain("function") && Plain("name") && Plain("arguments")
  {
  }

  lemma TokenNames()
    ensures Plain("prompt_tokens") && Plain("completion_tokens") && Plain("total_tokens")
  {
  }

  lemma CachedNames()
    ensures Plain("prompt_tokens_details") && Plain("cached_tokens")
  {
  }

  lemma ErrorNames()
    ensures Plain("error") && Plain("message") && Plain("retry_after")
  {
  }

  /* ---- Writing the frames ---- */

  /** beginOpenAIChunk up to the model. */
  method BeginChunk(buf: JsonBuf, meta: Meta)
    modifies buf
    ensures buf.Valid() && buf.head == "data: "
    ensures buf.st == Reading(InObj(ChunkFields(meta), "model", Outside), Settled)
  {
    hide Plain, Feed, Join, Framed, Head, JsonBuf.Valid, Clean, Repaired, Decimal;
    ChunkNames();
    ChunkObject();
    buf.Reset();
    buf.Lead("data: ");
    assert "" + "data: " == "data: ";
    buf.Open();
    buf.Key("id"); buf.Str(meta.id);
    buf.Next("object"); buf.Const("chat.completion.chunk");
    buf.Next("created"); buf.Int(meta.created);
    buf.Next("model"); buf.Str(meta.model);
  }

  /** A member whose value is a string. */
  method TextDelta(buf: JsonBuf, role: bool, name: string, text: string)
    requires buf.Valid() && buf.st.Reading? && Wants(buf.st.mode) && Plain(name)
    modifies buf
    ensures buf.Valid() && buf.head == old(buf.head)
    ensures buf.st == Put(old(buf.st).stack, Obj(RoleFields(role).And(name, StrValue(text))))
  {
    hide Plain, Feed, Join, Framed, Head, JsonBuf.Valid, Clean, Repaired, Decimal;
    DeltaNames();
    buf.Open();
    if role {
      buf.Key("role"); buf.Const("assistant");
      buf.Next(name);
    } else {
      buf.Key(name);
    }
    buf.Str(text);
    buf.Close();
  }

  method Tool(buf: JsonBuf, index: int, call: Call)
    requires buf.Valid() && buf.st.Reading? && Wants(buf.st.mode)
    modifies buf
    ensures buf.Valid() && buf.head == old(buf.head)
    ensures buf.st == Put(old(buf.st).stack, CallValue(index, call))
  {
    hide Plain, Feed, Join, Framed, Head, JsonBuf.Valid, Clean, Repaired, Decimal;
    ChunkNames();
    ChoiceNames();
    CallNames();
    buf.Open();
    buf.Key("index"); buf.Int(index);
    buf.Next("id"); buf.Str(call.id);
    buf.Next("type"); buf.Const("function");
    buf.Next("function"); buf.Open();
    buf.Key("name"); buf.Str(call.name);
    buf.Next("arguments"); buf.Str(call.args);
    buf.Close(); buf.Close();
  }

  method ToolDelta(buf: JsonBuf, role: bool, index: int, call: Call)
    requires buf.Valid() && buf.st.Reading? && Wants(buf.st.mode)
    modifies buf
    ensures buf.Valid() && buf.head == old(buf.head)
    ensures buf.st == Put(old(buf.st).stack, Obj(DeltaFields(role, M.ToolCalls(index, call))))
  {
    hide Plain, Feed, Join, Framed, Head, JsonBuf.Valid, Clean, Repaired, Decimal;
    DeltaNames();
    hide CallValue;
    buf.Open();
    if role {
      buf.Key("role"); buf.Const("assistant");
      buf.Next("content"); buf.Null();
      buf.Next("tool_calls");
    } else {
      buf.Key("tool_calls");
    }
    buf.OpenList();
    Tool(buf, index, call);
    buf.CloseList(); buf.Close();
  }

  method WriteDelta(buf: JsonBuf, role: bool, d: Delta)
    requires buf.Valid() && buf.st.Reading? && Wants(buf.st.mode)
    modifies buf
    ensures buf.Valid() && buf.head == old(buf.head)
    ensures buf.st == Put(old(buf.st).stack, Obj(DeltaFields(role, d)))
  {
    hide Plain, Feed, Join, Framed, Head, JsonBuf.Valid, Clean, Repaired, Decimal;
    DeltaNames();
    ReasoningName();
    match d {
      case Content(text) => TextDelta(buf, role, "content", text);
      case ReasoningContent(text) => TextDelta(buf, role, "reasoning_content", text);
      case ToolCalls(index, call) => ToolDelta(buf, role, index, call);
      case NoDelta => buf.Open(); buf.Close();
    }
  }

  /** From the index to endOpenAIChunk. */
  method Choice(buf: JsonBuf, role: bool, d: Delta, finish: string)
    requires buf.Valid() && buf.st.Reading? && Wants(buf.st.mode)
    modifies buf
    ensures buf.Valid() && buf.head == old(buf.head)
    ensures buf.st == Put(old(buf.st).stack, ChoiceValue(role, d, finish))
  {
    hide Plain, Feed, Join, Framed, Head, JsonBuf.Valid, Clean, Repaired, Decimal;
    ChoiceNames();
    hide DeltaFields;
    buf.Open();
    buf.Key("index"); buf.Int(0);
    buf.Next("delta"); WriteDelta(buf, role, d);
    buf.Next("finish_reason");
    if finish == "" {
      buf.Null();
    } else {
      buf.Str(finish);
    }
    buf.Close();
  }

  /** appendOpenAIUsage, from the value on. */
  method WriteCounts(buf: JsonBuf, u: Counts)
    requires buf.Valid() && buf.st.Reading? && Wants(buf.st.mode)
    modifies buf
    ensures buf.Valid() && buf.head == old(buf.head)
    ensures buf.st == Put(old(buf.st).stack, CountsValue(u))
  {
    hide Plain, Feed, Join, Framed, Head, JsonBuf.Valid, Clean, Repaired, Decimal;
    TokenNames();
    CachedNames();
    buf.Open();
    buf.Key("prompt_tokens"); buf.Int(u.prompt);
    buf.Next("completion_tokens"); buf.Int(u.completion);
    buf.Next("total_tokens"); buf.Int(u.prompt + u.completion);
    buf.Next("prompt_tokens_details"); buf.Open();
    buf.Key("cached_tokens"); buf.Int(u.cached);
    buf.Close(); buf.Close();
  }

  method Chunk(buf: JsonBuf, meta: Meta, role: bool, d: Delta, finish: string, usage: Option<Counts>)
    modifies buf
    ensures Renders(buf.b, SentOf(meta, M.Chunk(role, d, finish, usage)))
  {
    hide Plain, Feed, Join, Framed, Head, JsonBuf.Valid, Clean, Repaired, Decimal;
    ChunkNames();
    hide ChunkFields, ChoiceValue, CountsValue;
    BeginChunk(buf, meta);
    buf.Next("choices"); buf.OpenList();
    Choice(buf, role, d, finish);
    buf.CloseList();
    if usage.Some? {
      buf.Next("usage"); WriteCounts(buf, usage.value);
    }
    buf.Close();
    buf.EndFrame();
  }

  /** The usage on its own, when the client asked for it. */
  method UsageChunk(buf: JsonBuf, meta: Meta, counts: Counts)
    modifies buf
    ensures Renders(buf.b, SentOf(meta, M.UsageChunk(counts)))
  {
    hide Plain, Feed, Join, Framed, Head, JsonBuf.Valid, Clean, Repaired, Decimal;
    ChunkNames();
    hide ChunkFields, CountsValue;
    BeginChunk(buf, meta);
    buf.Next("choices"); buf.OpenList(); buf.CloseList();
    buf.Next("usage"); WriteCounts(buf, counts);
    buf.Close();
    buf.EndFrame();
  }

  /** The bytes of an error frame. */
  function ErrorText(typ: string, message: string, retryAfter: int): string {
    "data: " + "{\"error\":{\"message\":" + Quote(message) + ",\"type\":" + Quote(typ)
    + if retryAfter > 0 then "}" + ",\"retry_after\":" + Decimal(retryAfter) + "}\n\n" else "}}\n\n"
  }

  lemma ErrorMembers(b: string)
    ensures
      Join(Join(Join(Join(b, "{"), KeyText("error")), "{"), KeyText("message")) == Join(b, "{\"error\":{\"message\":")
    ensures "," + KeyText("type") == ",\"type\":" && "," + KeyText("retry_after") == ",\"retry_after\":"
  {
    JoinTwo(b, "{", KeyText("error"));
    JoinTwo(b, "{" + KeyText("error"), "{");
    JoinTwo(b, "{" + KeyText("error") + "{", KeyText("message"));
    assert "{" + KeyText("error") + "{" + KeyText("message") == "{\"error\":{\"message\":";
  }

  lemma ErrorAssoc(c: string, name: string, n: string)
    ensures c + "}" + name + n + "}\n\n" == c + ("}" + name + n + "}\n\n")
  {
  }

  lemma ErrorIs(typ: string, message: string, retryAfter: int)
    ensures
      var b := Join(Join(Join(Join(Join("data: ", "{"), KeyText("error")), "{"), KeyText("message")), Quote(message));
      var c := Join(Join(Join(Join(b, ","), KeyText("type")), Quote(typ)), "}");
      Join(Join(if retryAfter > 0 then Join(Join(Join(c, ","), KeyText("retry_after")), Decimal(retryAfter)) else c,
                "}"), "\n\n") == ErrorText(typ, message, retryAfter)
  {
    hide Quote, Decimal, KeyText;
    var b := Join(Join("data: ", "{\"error\":{\"message\":"), Quote(message));
    var c := Join(Join(Join(b, ","), KeyText("type")), Quote(typ));
    ErrorMembers("data: ");
    NextPiece(b, "type");
    NextPiece(Join(c, "}"), "retry_after");
    Ends(c);
    Ends(Join(Join(Join(Join(c, "}"), ","), KeyText("retry_after")), Decimal(retryAfter)));
    ErrorAssoc(c, ",\"retry_after\":", Decimal(retryAfter));
  }

  /** streamErrorFrame, and the frame for an upstream error. */
  method ErrorFrame(buf: JsonBuf, typ: string, message: string, retryAfter: int)
    modifies buf
    ensures Renders(buf.b, Data(ErrorValue(typ, message, retryAfter)))
    ensures buf.b == ErrorText(typ, message, retryAfter)
  {
    hide ErrorText, KeyText, Quote;
    hide Plain, Feed, Join, Framed, Head, JsonBuf.Valid, Clean, Repaired, Decimal;
    CallNames();
    ErrorNames();
    buf.Reset();
    buf.Lead("data: ");
    assert "" + "data: " == "data: ";
    buf.Open();
    buf.Key("error"); buf.Open();
    buf.Key("message"); buf.Str(message);
    buf.Next("type"); buf.Str(typ);
    buf.Close();
    if retryAfter > 0 {
      buf.Next("retry_after"); buf.Int(retryAfter);
    }
    buf.Close();
    buf.EndFrame();
    ErrorIs(typ, message, retryAfter);
  }

  /** Any frame of the stream. */
  method WriteFrame(buf: JsonBuf, meta: Meta, f: M.Frame)
    modifies buf
    ensures Renders(buf.b, SentOf(meta, f))
  {
    hide ErrorValue, Framed;
    match f {
      case Chunk(role, d, finish, usage) => Chunk(buf, meta, role, d, finish, usage);
      case UsageChunk(counts) => UsageChunk(buf, meta, counts);
      case ErrorFrame(typ, message, retryAfter) => ErrorFrame(buf, typ, message, retryAfter);
      case DoneMark =>
        buf.Reset();
        buf.Lead("data: [DONE]\n\n");
        buf.IsLead();
      case KeepAlive =>
        buf.Reset();
        buf.Lead(": keepalive\n\n");
        buf.IsLead();
    }
  }

  function Sents(meta: Meta, frames: seq<M.Frame>): seq<Sent> {
    seq(|frames|, i requires 0 <= i < |frames| => SentOf(meta, frames[i]))
  }

  /** The bytes of a whole stream: a client dispatches exactly its frames, and the data of each parses to
      exactly the value that was meant. */
  method WriteAll(buf: JsonBuf, meta: Meta, frames: seq<M.Frame>) returns (bytes: string)
    modifies buf
    ensures MatchesAll(Receive(bytes), Meant(Sents(meta, frames)))
  {
    hide Renders, SentOf, MatchesAll, Receive, Meant, Concat;
    bytes := "";
    ghost var texts: seq<string> := [];
    ConcatNone();
    for i := 0 to |frames|
      invariant bytes == Concat(texts) && RendersAll(texts, Sents(meta, frames[..i]))
    {
      WriteFrame(buf, meta, frames[i]);
      ConcatSnoc(texts, buf.b);
      bytes := bytes + buf.b;
      texts := texts + [buf.b];
    }
    assert frames[..|frames|] == frames;
    StreamReads(texts, Sents(meta, frames));
  }

  /** Strings are valid UTF-8, and what a frame does not send is empty. */
  predicate Sendable(f: M.Frame) {
    match f
    case Chunk(role, d, finish, _) =>
      && ValidUtf8(finish)
      && (match d
          case Content(text) => ValidUtf8(text)
          case ReasoningContent(text) => ValidUtf8(text)
          case ToolCalls(_, call) => ValidUtf8(call.id) && ValidUtf8(call.name) && ValidUtf8(call.args)
          case NoDelta => !role)
    case ErrorFrame(typ, message, retryAfter) => ValidUtf8(typ) && ValidUtf8(message) && retryAfter >= 0
    case _ => true
  }

  lemma NamesDiffer()
    ensures "content" != "reasoning_content" && "content" != "tool_calls" && "reasoning_content" != "tool_calls"
    ensures "role" != "content" && "role" != "reasoning_content" && "role" != "tool_calls"
    ensures "error" != "id" && "error" != "usage" && "error" != "choices"
  {
  }

  /* ---- What a client reads ---- */

  function ReadCounts(v: Value): Counts {
    M.Counts(IntIn(v, "prompt_tokens"), IntIn(v, "completion_tokens"),
             IntIn(Member(v, "prompt_tokens_details"), "cached_tokens"))
  }

  function ReadCall(v: Value): Delta {
    var f := Member(v, "function");
    M.ToolCalls(IntIn(v, "index"), Call(TextIn(v, "id"), TextIn(f, "name"), TextIn(f, "arguments")))
  }

  function ReadDelta(v: Value): Delta {
    if Member(v, "tool_calls") != Null then ReadCall(Only(Member(v, "tool_calls")))
    else if Member(v, "content") != Null then M.Content(TextIn(v, "content"))
    else if Member(v, "reasoning_content") != Null then M.ReasoningContent(TextIn(v, "reasoning_content"))
    else M.NoDelta
  }

  /** A client of the chat stream finds everything under the names that the protocol gives it. */
  function Read(v: Value): M.Frame {
    var error, usage, choice := Member(v, "error"), Member(v, "usage"), Only(Member(v, "choices"));
    if error != Null then M.ErrorFrame(TextIn(error, "type"), TextIn(error, "message"), IntIn(v, "retry_after"))
    else if choice == Null then M.UsageChunk(ReadCounts(usage))
    else
      var delta := Member(choice, "delta");
      M.Chunk(TextIn(delta, "role") == "assistant", ReadDelta(delta), TextIn(choice, "finish_reason"),
              if usage == Null then None else Some(ReadCounts(usage)))
  }

  lemma CountNamesDiffer()
    ensures "prompt_tokens" != "completion_tokens" && "prompt_tokens" != "total_tokens"
    ensures "prompt_tokens" != "prompt_tokens_details" && "completion_tokens" != "total_tokens"
    ensures "completion_tokens" != "prompt_tokens_details" && "total_tokens" != "prompt_tokens_details"
  {
  }

  lemma CountsRead(u: Counts)
    ensures ReadCounts(CountsValue(u)) == u && CountsValue(u) != Null
    ensures IntIn(CountsValue(u), "total_tokens") == u.prompt + u.completion
  {
    hide In, Repaired, Decimal, DecimalValue, IntOf;
    Lookup();
    Spelled();
    CountNamesDiffer();
  }

  lemma CallNamesDiffer()
    ensures "index" != "id" && "index" != "type" && "index" != "function" && "id" != "type" && "id" != "function"
    ensures "type" != "function" && "name" != "arguments"
  {
  }

  lemma CallRead(index: int, call: Call)
    requires ValidUtf8(call.id) && ValidUtf8(call.name) && ValidUtf8(call.args)
    ensures ReadCall(CallValue(index, call)) == M.ToolCalls(index, call) && CallValue(index, call) != Null
  {
    hide In, Repaired, Decimal, DecimalValue, IntOf, ValidUtf8, StringOf;
    Lookup();
    Spelled();
    CallNamesDiffer();
    ValidIsRepaired(call.id);
    ValidIsRepaired(call.name);
    ValidIsRepaired(call.args);
  }

  lemma DeltaRead(role: bool, d: Delta)
    requires Sendable(M.Chunk(role, d, "", None))
    ensures var v := Obj(DeltaFields(role, d));
      ReadDelta(v) == d && (TextIn(v, "role") == "assistant" <==> role)
  {
    hide In, Repaired, Decimal, DecimalValue, IntOf, ValidUtf8, CallValue, ReadCall;
    Lookup();
    Spelled();
    NamesDiffer();
    match d
    case Content(text) => ValidIsRepaired(text);
    case ReasoningContent(text) => ValidIsRepaired(text);
    case ToolCalls(index, call) => CallRead(index, call);
    case NoDelta =>
  }

  lemma ChunkNamesDiffer()
    ensures "id" != "object" && "id" != "created" && "id" != "model" && "id" != "choices" && "id" != "usage"
    ensures "object" != "choices" && "created" != "choices" && "model" != "choices"
    ensures "object" != "usage" && "created" != "usage" && "model" != "usage" && "choices" != "usage"
    ensures "object" != "error" && "created" != "error" && "model" != "error" && "choices" != "error"
    ensures "usage" != "error" && "id" != "error"
  {
  }

  lemma ChoiceNamesDiffer()
    ensures "index" != "delta" && "index" != "finish_reason" && "delta" != "finish_reason"
    ensures "message" != "type" && "error" != "retry_after"
  {
  }

  lemma ChoiceRead(role: bool, d: Delta, finish: string)
    requires ValidUtf8(finish) && Sendable(M.Chunk(role, d, "", None))
    ensures var v := ChoiceValue(role, d, finish); var delta := Member(v, "delta");
      && v != Null && TextIn(v, "finish_reason") == finish
      && ReadDelta(delta) == d && (TextIn(delta, "role") == "assistant" <==> role)
  {
    hide In, Repaired, Decimal, DecimalValue, ValidUtf8, DeltaFields, ReadDelta;
    Lookup();
    Spelled();
    ChoiceNamesDiffer();
    ValidIsRepaired(finish);
    DeltaRead(role, d);
  }

  /** What a client reads is the frame. */
  lemma ReadsBack(meta: Meta, f: M.Frame)
    requires Sendable(f) && SentOf(meta, f).Data?
    ensures Read(SentOf(meta, f).v) == f
  {
    hide In, Repaired, Decimal, DecimalValue, ValidUtf8, ReadDelta, ChoiceValue, CountsValue, ReadCounts;
    Lookup();
    Spelled();
    ChunkNamesDiffer();
    ChoiceNamesDiffer();
    match f
    case Chunk(role, d, finish, usage) =>
      EmptyValid();
      ChoiceRead(role, d, finish);
      if usage.Some? {
        CountsRead(usage.value);
      }
    case UsageChunk(counts) => CountsRead(counts);
    case ErrorFrame(typ, message, retryAfter) =>
      ValidIsRepaired(typ);
      ValidIsRepaired(message);
    case _ =>
  }

  /** No two frames mean the same: what a client receives determines the frame. */
  lemma Lossless(meta: Meta, f: M.Frame, g: M.Frame)
    requires Sendable(f) && Sendable(g) && SentOf(meta, f) == SentOf(meta, g)
    ensures f == g
  {
    hide Read, Sendable, ChunkFields, ChoiceValue, CountsValue, ErrorValue;
    if SentOf(meta, f).Data? {
      ReadsBack(meta, f);
      ReadsBack(meta, g);
    }
  }

  /* ---- The frames of a run ---- */

  predicate AllSendable(frames: seq<M.Frame>) { forall i :: 0 <= i < |frames| ==> Sendable(frames[i]) }

  /** What a run over valid events keeps. */
  predicate Sound(s: M.State) {
    && AllSendable(s.chunks) && ValidUtf8(s.finishReason)
    && (s.failure.Some? ==> ValidEvent(Error(s.failure.value)))
  }

  lemma StepSound(s: M.State, hex: Hex, includeUsage: bool, ev: Event)
    requires Sound(s) && ValidEvent(ev) && ValidHex(hex)
    ensures Sound(M.Step(s, hex, includeUsage, ev))
  {
    hide ValidUtf8, ToolArgs, MapFinishReason, M.FinishUsage;
    Constants();
    match ev
    case ToolCall(_, _, input) =>
      ValidArgs(input);
      ValidID("call_", hex, s.toolCallIndex);
    case FinishStep(reason, _, _) => ValidReason(reason);
    case Finish(reason, _, _) => ValidReason(reason);
    case _ =>
  }

  lemma {:induction false} FoldSound(hex: Hex, includeUsage: bool, evs: seq<Event>)
    requires ValidEvents(evs) && ValidHex(hex)
    ensures Sound(M.Fold(hex, includeUsage, evs))
  {
    hide ValidUtf8, M.Step, ValidEvent, ValidHex, Sound;
    if evs == [] {
      NothingSound();
    } else {
      FoldSound(hex, includeUsage, evs[..|evs| - 1]);
      StepSound(M.Fold(hex, includeUsage, evs[..|evs| - 1]), hex, includeUsage, evs[|evs| - 1]);
    }
  }

  lemma NothingSound()
    ensures Sound(M.INITIAL)
  {
    ValidNothing();
  }

  /** Every frame of a run over valid events can be sent without loss. */
  lemma RunSendable(hex: Hex, includeUsage: bool, evs: seq<Event>, ending: Ending, timeoutMessage: string)
    requires ValidEvents(evs) && ValidHex(hex) && ValidEnding(ending) && ValidUtf8(timeoutMessage)
    ensures AllSendable(M.AllFrames(M.Fold(hex, includeUsage, evs), includeUsage, ending, timeoutMessage))
  {
    hide ValidUtf8, M.Fold, ValidEvents, ValidHex;
    FoldSound(hex, includeUsage, evs);
    ErrorTypes();
  }

  /** No two streams mean the same: what a client receives determines all frames. */
  lemma AllLossless(meta: Meta, fs: seq<M.Frame>, gs: seq<M.Frame>)
    requires AllSendable(fs) && AllSendable(gs) && Sents(meta, fs) == Sents(meta, gs)
    ensures fs == gs
  {
    hide Sendable, SentOf;
    assert |Sents(meta, fs)| == |Sents(meta, gs)|;
    forall i | 0 <= i < |fs| ensures fs[i] == gs[i] {
      assert Sents(meta, fs)[i] == Sents(meta, gs)[i];
      Lossless(meta, fs[i], gs[i]);
    }
  }
}
