/** responses.go: the frames of the Responses stream as bytes, and what they mean. */
module ResponsesFrames {
  import opened Text
  import opened Upstream
  import opened Utf8Events
  import opened Json
  import opened JsonPrinter
  import opened JsonBuf
  import opened EventStream
  import opened JsonMembers
  import M = ResponsesModel

  datatype Meta = Meta(id: string, model: string, created: int)

  /* ---- The parts that json.Marshal encodes ---- */

  function ItemValue(it: M.DoneItem): Value {
    match it.kind
    case Message =>
      Obj(NoFields
          .And("type", Str("message")).And("id", StrValue(it.id)).And("status", Str("completed"))
          .And("role", Str("assistant"))
          .And("content", Arr(Item(NoItems, Obj(NoFields
               .And("annotations", Arr(NoItems)).And("text", StrValue(it.text)).And("type", Str("output_text")))))))
    case Reasoning =>
      Obj(NoFields
          .And("type", Str("reasoning")).And("id", StrValue(it.id))
          .And("summary", Arr(Item(NoItems, Obj(NoFields
               .And("text", StrValue(it.text)).And("type", Str("summary_text"))))))
          .And("status", Str("completed")))
    case FunctionCall =>
      Obj(NoFields
          .And("type", Str("function_call")).And("id", StrValue(it.id)).And("call_id", StrValue(it.callID))
          .And("name", StrValue(it.name)).And("arguments", StrValue(it.text)).And("status", Str("completed")))
  }

  function ItemValues(items: seq<M.DoneItem>): Items {
    if items == [] then NoItems else Item(ItemValues(items[..|items| - 1]), ItemValue(items[|items| - 1]))
  }

  function BaseValue(meta: Meta, status: string, output: seq<M.DoneItem>): Value {
    Obj(NoFields
        .And("id", StrValue(meta.id)).And("object", Str("response")).And("created_at", IntValue(meta.created))
        .And("status", Str(status)).And("output", Arr(ItemValues(output))).And("output_text", Str(""))
        .And("model", StrValue(meta.model)).And("error", Null).And("incomplete_details", Null)
        .And("parallel_tool_calls", Bool(true)).And("previous_response_id", Null).And("store", Bool(false))
        .And("tools", Arr(NoItems)).And("metadata", Obj(NoFields)))
  }

  function UsageValue(u: M.ResponsesUsage): Value {
    Obj(NoFields
        .And("input_tokens", IntValue(u.input))
        .And("input_tokens_details",
             Obj(NoFields.And("cached_tokens", IntValue(u.cached)).And("cache_write_tokens", IntValue(u.cacheWrite))))
        .And("output_tokens", IntValue(u.output))
        .And("output_tokens_details", Obj(NoFields.And("reasoning_tokens", IntValue(0))))
        .And("total_tokens", IntValue(u.total)))
  }

  function FinalStatus(incomplete: bool): string { if incomplete then "incomplete" else "completed" }

  /* ---- What each frame means ---- */

  /** Every numbered event begins with its type and its number. */
  function Numbered(event: string, n: int): Fields {
    NoFields.And("type", Str(event)).And("sequence_number", IntValue(n))
  }

  function NewMessageValue(id: string): Value {
    Obj(NoFields
        .And("type", Str("message"))
        .And("id", StrValue(id))
        .And("status", Str("in_progress"))
        .And("role", Str("assistant"))
        .And("content", Arr(NoItems)))
  }

  function NewReasoningValue(id: string): Value {
    Obj(NoFields
        .And("type", Str("reasoning"))
        .And("id", StrValue(id))
        .And("summary", Arr(NoItems))
        .And("status", Str("in_progress")))
  }

  function NewCallValue(id: string, callID: string, name: string): Value {
    Obj(NoFields
        .And("type", Str("function_call"))
        .And("id", StrValue(id))
        .And("call_id", StrValue(callID))
        .And("name", StrValue(name))
        .And("arguments", Str(""))
        .And("status", Str("in_progress")))
  }

  function OutputTextValue(text: string): Value {
    Obj(NoFields.And("type", Str("output_text")).And("text", StrValue(text)).And("annotations", Arr(NoItems)))
  }

  function MessageAddedFields(before: Fields, index: int, id: string): Fields {
    before
    .And("output_index", IntValue(index))
    .And("item", NewMessageValue(id))
  }

  function ReasoningAddedFields(before: Fields, index: int, id: string): Fields {
    before
    .And("output_index", IntValue(index))
    .And("item", NewReasoningValue(id))
  }

  function CallAddedFields(before: Fields, index: int, id: string, callID: string, name: string): Fields {
    before
    .And("output_index", IntValue(index))
    .And("item", NewCallValue(id, callID, name))
  }

  function TextPartFields(before: Fields, index: int, id: string, text: string): Fields {
    before
    .And("item_id", StrValue(id))
    .And("output_index", IntValue(index))
    .And("content_index", IntValue(0))
    .And("part", OutputTextValue(text))
  }

  function SummaryPartFields(before: Fields, index: int, id: string, text: string): Fields {
    before
    .And("item_id", StrValue(id))
    .And("output_index", IntValue(index))
    .And("summary_index", IntValue(0))
    .And("part", Obj(NoFields.And("type", Str("summary_text")).And("text", StrValue(text))))
  }

  function MessageTextFields(before: Fields, key: string, index: int, id: string, text: string): Fields {
    before
    .And("item_id", StrValue(id))
    .And("output_index", IntValue(index))
    .And("content_index", IntValue(0))
    .And(key, StrValue(text))
    .And("logprobs", Arr(NoItems))
  }

  function SummaryTextFields(before: Fields, key: string, index: int, id: string, text: string): Fields {
    before
    .And("item_id", StrValue(id))
    .And("output_index", IntValue(index))
    .And("summary_index", IntValue(0))
    .And(key, StrValue(text))
  }

  function ArgumentsFields(before: Fields, key: string, index: int, id: string, text: string): Fields {
    before
    .And("item_id", StrValue(id))
    .And("output_index", IntValue(index))
    .And(key, StrValue(text))
  }

  function ItemDoneFields(before: Fields, index: int, item: M.DoneItem): Fields {
    before
    .And("output_index", IntValue(index))
    .And("item", ItemValue(item))
  }

  function FailedFields(before: Fields, meta: Meta, message: string): Fields {
    before
    .And("response", BaseValue(meta, "failed", []))
    .And("error", Obj(NoFields.And("code", Str("upstream_error")).And("message", StrValue(message))))
  }

  function ErrorFrameFields(before: Fields, typ: string, message: string): Fields {
    before
    .And("error", Obj(NoFields
                   .And("type", StrValue(typ))
                   .And("code", Null)
                   .And("message", StrValue(message))
                   .And("param", Null)))
  }

  function FinalFields(before: Fields, meta: Meta, f: M.Body): Fields
    requires f.Final?
  {
    before
    .And("response", BaseValue(meta, FinalStatus(f.incomplete), f.output))
    .And("output_text", StrValue(f.outputText))
    .And("incomplete_details",
         if f.incomplete then Obj(NoFields.And("reason", Str("max_output_tokens"))) else Null)
    .And("usage", UsageValue(f.usage))
  }

  function EventName(b: M.Body): string {
    match b
    case Created => "response.created"
    case InProgress => "response.in_progress"
    case ItemAdded(_, _, _, _, _) => "response.output_item.added"
    case PartAdded(_, kind, _) =>
      if kind == M.Message then "response.content_part.added" else "response.reasoning_summary_part.added"
    case Delta(_, kind, _, _) =>
      (match kind
       case Message => "response.output_text.delta"
       case Reasoning => "response.reasoning_summary_text.delta"
       case FunctionCall => "response.function_call_arguments.delta")
    case TextDone(_, kind, _, _) =>
      (match kind
       case Message => "response.output_text.done"
       case Reasoning => "response.reasoning_summary_text.done"
       case FunctionCall => "response.function_call_arguments.done")
    case PartDone(_, kind, _, _) =>
      if kind == M.Message then "response.content_part.done" else "response.reasoning_summary_part.done"
    case ItemDone(_, _) => "response.output_item.done"
    case Final(incomplete, _, _, _) => if incomplete then "response.incomplete" else "response.completed"
    case Failed(_) => "response.failed"
    case ErrorEvent(_, _) => "error"
  }

  /** The members of a frame after its type and number. */
  function BodyFields(start: Fields, meta: Meta, b: M.Body): Fields {
    match b
    case Created => start.And("response", BaseValue(meta, "in_progress", []))
    case InProgress => start.And("response", BaseValue(meta, "in_progress", []))
    case ItemAdded(index, kind, id, callID, name) =>
      (match kind
       case Message => MessageAddedFields(start, index, id)
       case Reasoning => ReasoningAddedFields(start, index, id)
       case FunctionCall => CallAddedFields(start, index, id, callID, name))
    case PartAdded(index, kind, id) =>
      if kind == M.Message then TextPartFields(start, index, id, "") else SummaryPartFields(start, index, id, "")
    case Delta(index, kind, id, text) =>
      (match kind
       case Message => MessageTextFields(start, "delta", index, id, text)
       case Reasoning => SummaryTextFields(start, "delta", index, id, text)
       case FunctionCall => ArgumentsFields(start, "delta", index, id, text))
    case TextDone(index, kind, id, text) =>
      (match kind
       case Message => MessageTextFields(start, "text", index, id, text)
       case Reasoning => SummaryTextFields(start, "text", index, id, text)
       case FunctionCall => ArgumentsFields(start, "arguments", index, id, text))
    case PartDone(index, kind, id, text) =>
      if kind == M.Message then TextPartFields(start, index, id, text) else SummaryPartFields(start, index, id, text)
    case ItemDone(index, item) => ItemDoneFields(start, index, item)
    case Final(_, _, _, _) => FinalFields(start, meta, b)
    case Failed(message) => FailedFields(start, meta, message)
    case ErrorEvent(typ, message) => ErrorFrameFields(start, typ, message)
  }

  function SentOf(meta: Meta, f: M.Frame): Sent {
    match f
    case Frame(n, b) => Event(EventName(b), Obj(BodyFields(Numbered(EventName(b), n), meta, b)))
    case Ping => Event("ping", Obj(NoFields.And("type", Str("ping"))))
  }

  /** What json.Marshal is relied on for: its texts are JSON texts for the values marshalled. */
  ghost predicate Marshals(marshal: Value -> string, meta: Meta, b: M.Body) {
    match b
    case Created => Denotes(marshal(BaseValue(meta, "in_progress", [])), BaseValue(meta, "in_progress", []))
    case InProgress => Denotes(marshal(BaseValue(meta, "in_progress", [])), BaseValue(meta, "in_progress", []))
    case ItemDone(_, item) => Denotes(marshal(ItemValue(item)), ItemValue(item))
    case Final(incomplete, output, _, usage) =>
      && Denotes(marshal(BaseValue(meta, FinalStatus(incomplete), output)),
                 BaseValue(meta, FinalStatus(incomplete), output))
      && Denotes(marshal(UsageValue(usage)), UsageValue(usage))
    case Failed(_) => Denotes(marshal(BaseValue(meta, "failed", [])), BaseValue(meta, "failed", []))
    case _ => true
  }

  /* ---- The constants ---- */

  lemma EventNames()
    ensures Plain("type") && Plain("sequence_number") && Plain("error") && Plain("ping") && Plain("")
  {
  }

  lemma StartEvents()
    ensures Plain("response.created") && Plain("response.in_progress")
  {
  }

  lemma EndEvents()
    ensures Plain("response.completed") && Plain("response.incomplete")
  {
  }

  lemma FailedEvent()
    ensures Plain("response.failed") && Plain("upstream_error")
  {
  }

  lemma ItemAddedEvent()
    ensures Plain("response.output_item.added")
  {
  }

  lemma ItemDoneEvent()
    ensures Plain("response.output_item.done")
  {
  }

  lemma ContentPartAddedEvent()
    ensures Plain("response.content_part.added")
  {
  }

  lemma ContentPartDoneEvent()
    ensures Plain("response.content_part.done")
  {
  }

  lemma SummaryPartAddedEvent()
    ensures Plain("response.reasoning_summary_part.added")
  {
  }

  lemma SummaryPartDoneEvent()
    ensures Plain("response.reasoning_summary_part.done")
  {
  }

  lemma TextDeltaEvent()
    ensures Plain("response.output_text.delta")
  {
  }

  lemma TextDoneEvent()
    ensures Plain("response.output_text.done")
  {
  }

  lemma SummaryDeltaEvent()
    ensures Plain("response.reasoning_summary_text.delta")
  {
  }

  lemma SummaryDoneEvent()
    ensures Plain("response.reasoning_summary_text.done")
  {
  }

  lemma ArgumentsDeltaEvent()
    ensures Plain("response.function_call_arguments.delta")
  {
  }

  lemma ArgumentsDoneEvent()
    ensures Plain("response.function_call_arguments.done")
  {
  }

  lemma IndexNames()
    ensures Plain("item_id") && Plain("output_index") && Plain("content_index")
  {
  }

  lemma PartNames()
    ensures Plain("part") && Plain("delta") && Plain("text") && Plain("logprobs")
  {
  }

  lemma ItemNames()
    ensures Plain("item") && Plain("id") && Plain("status") && Plain("in_progress")
  {
  }

  lemma MessageNames()
    ensures Plain("message") && Plain("role") && Plain("assistant") && Plain("content")
  {
  }

  lemma ReasoningNames()
    ensures Plain("reasoning") && Plain("summary") && Plain("summary_text") && Plain("summary_index")
  {
  }

  lemma CallNames()
    ensures Plain("function_call") && Plain("call_id") && Plain("name") && Plain("arguments")
  {
  }

  lemma OutputTextNames()
    ensures Plain("output_text") && Plain("annotations")
  {
  }

  lemma ErrorNames()
    ensures Plain("code") && Plain("param")
  {
  }

  lemma ResponseNames()
    ensures Plain("response") && Plain("usage") && Plain("reason")
  {
  }

  lemma DetailsNames()
    ensures Plain("incomplete_details") && Plain("max_output_tokens")
  {
  }

  /* ---- Writing the frames ---- */

  /* ---- The bytes of the last frames ---- */

  /** A frame up to its number. */
  function Begun(event: string, n: int): string {
    "event: " + event + "\ndata: " + "{\"type\":" + Quote(event) + ",\"sequence_number\":" + Decimal(n)
  }

  /** A terminal frame around the marshalled response and usage. */
  function FinalText(n: int, f: M.Body, base: string, usage: string): string
    requires f.Final?
  {
    Begun(EventName(f), n)
    + ",\"response\":" + base
    + ",\"output_text\":" + Quote(f.outputText)
    + ",\"incomplete_details\":" + (if f.incomplete then "{\"reason\":\"max_output_tokens\"}" else "null")
    + ",\"usage\":" + usage + "}\n\n"
  }

  function FailedText(n: int, message: string, base: string): string {
    Begun("response.failed", n)
    + ",\"response\":" + base
    + ",\"error\":{\"code\":\"upstream_error\",\"message\":" + Quote(message) + "}}\n\n"
  }

  lemma BegunIs(event: string, n: int)
    ensures
      var b := Join(Join(Join("event: " + event + "\ndata: ", "{"), KeyText("type")), Quote(event));
      Join(Join(Join(b, ","), KeyText("sequence_number")), Decimal(n)) == Begun(event, n)
  {
    hide Quote, Decimal;
    var b := "event: " + event + "\ndata: ";
    JoinTwo(b, "{", KeyText("type"));
    NextPiece(Join(Join(Join(b, "{"), KeyText("type")), Quote(event)), "sequence_number");
    NumberMember();
  }

  lemma NumberMember()
    ensures "{" + KeyText("type") == "{\"type\":"
    ensures "," + KeyText("sequence_number") == ",\"sequence_number\":"
  {
  }

  lemma FinalMembers()
    ensures "," + KeyText("response") == ",\"response\":"
    ensures "," + KeyText("output_text") == ",\"output_text\":"
    ensures "," + KeyText("usage") == ",\"usage\":"
  {
  }

  lemma DetailsMember()
    ensures "," + KeyText("incomplete_details") == ",\"incomplete_details\":"
  {
  }

  lemma ReasonObject(b: string)
    ensures
      Join(Join(Join(Join(b, "{"), KeyText("reason")), "\"" + "max_output_tokens" + "\""), "}")
      == Join(b, "{\"reason\":\"max_output_tokens\"}")
  {
    JoinTwo(b, "{", KeyText("reason"));
    JoinTwo(b, "{" + KeyText("reason"), "\"" + "max_output_tokens" + "\"");
    JoinTwo(b, "{" + KeyText("reason") + ("\"" + "max_output_tokens" + "\""), "}");
    ReasonText();
  }

  lemma ReasonText()
    ensures
      "{" + KeyText("reason") + ("\"" + "max_output_tokens" + "\"") + "}" == "{\"reason\":\"max_output_tokens\"}"
  {
  }

  /** The pieces of a terminal frame after its number. */
  lemma FinalIs(n: int, f: M.Body, base: string, usage: string)
    requires f.Final?
    ensures
      var b := Join(Join(Join(Begun(EventName(f), n), ","), KeyText("response")), base);
      var c := Join(Join(Join(Join(Join(b, ","), KeyText("output_text")), Quote(f.outputText)), ","),
                    KeyText("incomplete_details"));
      var d := if f.incomplete
               then Join(Join(Join(Join(c, "{"), KeyText("reason")), "\"" + "max_output_tokens" + "\""), "}")
               else Join(c, "null");
      Join(Join(Join(Join(Join(d, ","), KeyText("usage")), usage), "}"), "\n\n") == FinalText(n, f, base, usage)
  {
    hide Quote, Begun, EventName, KeyText;
    var b := Join(Join(Join(Begun(EventName(f), n), ","), KeyText("response")), base);
    var c := Join(Join(Join(Join(Join(b, ","), KeyText("output_text")), Quote(f.outputText)), ","),
                  KeyText("incomplete_details"));
    var d := if f.incomplete
             then Join(Join(Join(Join(c, "{"), KeyText("reason")), "\"" + "max_output_tokens" + "\""), "}")
             else Join(c, "null");
    NextPiece(Begun(EventName(f), n), "response");
    NextPiece(b, "output_text");
    NextPiece(Join(Join(Join(b, ","), KeyText("output_text")), Quote(f.outputText)), "incomplete_details");
    ReasonObject(c);
    NextPiece(d, "usage");
    Ends(Join(Join(Join(d, ","), KeyText("usage")), usage));
    FinalMembers();
    DetailsMember();
  }

  /** What follows the response in a failed frame, up to the text of the message. */
  lemma FailedMembers(b: string)
    ensures
      var code := Join(Join(Join(Join(Join(b, ","), KeyText("error")), "{"), KeyText("code")),
                       "\"" + "upstream_error" + "\"");
      Join(Join(code, ","), KeyText("message"))
      == Join(b, ",\"error\":{\"code\":\"upstream_error\",\"message\":")
  {
    var error, code, next := "," + KeyText("error") + "{", "\"" + "upstream_error" + "\"", "," + KeyText("message");
    NextPiece(b, "error");
    JoinTwo(b, "," + KeyText("error"), "{");
    JoinTwo(b, error, KeyText("code"));
    JoinTwo(b, error + KeyText("code"), code);
    NextPiece(Join(b, error + KeyText("code") + code), "message");
    JoinTwo(b, error + KeyText("code") + code, next);
    FailedLiteral();
  }

  lemma FailedLiteral()
    ensures
      "," + KeyText("error") + "{" + KeyText("code") + ("\"" + "upstream_error" + "\"") + ("," + KeyText("message"))
      == ",\"error\":{\"code\":\"upstream_error\",\"message\":"
  {
    assert "," + KeyText("error") + "{" + KeyText("code") == ",\"error\":{\"code\":";
    assert "\"" + "upstream_error" + "\"" == "\"upstream_error\"";
    assert "," + KeyText("message") == ",\"message\":";
    LongLiteral();
  }

  lemma LongLiteral()
    ensures ",\"error\":{\"code\":" + "\"upstream_error\"" == ",\"error\":{\"code\":\"upstream_error\""
    ensures ",\"error\":{\"code\":\"upstream_error\"" + ",\"message\":"
         == ",\"error\":{\"code\":\"upstream_error\",\"message\":"
  {
  }

  lemma FailedIs(n: int, message: string, base: string)
    ensures
      var b := Join(Join(Join(Begun("response.failed", n), ","), KeyText("response")), base);
      var code := Join(Join(Join(Join(Join(b, ","), KeyText("error")), "{"), KeyText("code")),
                       "\"" + "upstream_error" + "\"");
      var c := Join(Join(Join(code, ","), KeyText("message")), Quote(message));
      Join(Join(Join(c, "}"), "}"), "\n\n") == FailedText(n, message, base)
  {
    hide Quote, Begun, KeyText;
    var b := Join(Join(Join(Begun("response.failed", n), ","), KeyText("response")), base);
    NextPiece(Begun("response.failed", n), "response");
    FailedMembers(b);
    Ends(Join(Join(b, ",\"error\":{\"code\":\"upstream_error\",\"message\":"), Quote(message)));
    FinalMembers();
  }

  /** beginResponsesEvent up to the number, in an empty buffer. */
  method BeginEvent(buf: JsonBuf, event: string, n: int)
    requires Plain(event)
    modifies buf
    ensures buf.Valid() && buf.head == Head(event) && Between(buf.st)
    ensures Settle(buf.st) == Reading(InObj(Numbered(event, n), "sequence_number", Outside), Settled)
    ensures buf.b == Begun(event, n)
  {
    hide Plain, Feed, Join, Framed, Clean, Repaired, Decimal, Begun, Quote, KeyText;
    EventNames();
    PlainClean(event);
    PlainRepaired(event);
    buf.Reset();
    buf.Lead("event: ");
    buf.Lead(event);
    buf.Lead("\ndata: ");
    assert "" + "event: " == "event: ";
    buf.Open();
    buf.Key("type"); buf.Str(event);
    buf.Next("sequence_number"); buf.Int(n);
    BegunIs(event, n);
  }

  method NewMessage(buf: JsonBuf, id: string)
    requires buf.Valid() && buf.st.Reading? && Wants(buf.st.mode)
    modifies buf
    ensures buf.Valid() && buf.head == old(buf.head)
    ensures buf.st == Put(old(buf.st).stack, NewMessageValue(id))
  {
    hide Plain, Feed, Join, Framed, Head, JsonBuf.Valid, Clean, Repaired, Decimal;
    EventNames();
    ItemNames();
    MessageNames();
    buf.Open();
    buf.Key("type"); buf.Const("message");
    buf.Next("id"); buf.Str(id);
    buf.Next("status"); buf.Const("in_progress");
    buf.Next("role"); buf.Const("assistant");
    buf.Next("content"); buf.OpenList(); buf.CloseList(); buf.Close();
  }

  method NewReasoning(buf: JsonBuf, id: string)
    requires buf.Valid() && buf.st.Reading? && Wants(buf.st.mode)
    modifies buf
    ensures buf.Valid() && buf.head == old(buf.head)
    ensures buf.st == Put(old(buf.st).stack, NewReasoningValue(id))
  {
    hide Plain, Feed, Join, Framed, Head, JsonBuf.Valid, Clean, Repaired, Decimal;
    EventNames();
    ItemNames();
    ReasoningNames();
    buf.Open();
    buf.Key("type"); buf.Const("reasoning");
    buf.Next("id"); buf.Str(id);
    buf.Next("summary"); buf.OpenList(); buf.CloseList();
    buf.Next("status"); buf.Const("in_progress");
    buf.Close();
  }

  method NewCall(buf: JsonBuf, id: string, callID: string, name: string)
    requires buf.Valid() && buf.st.Reading? && Wants(buf.st.mode)
    modifies buf
    ensures buf.Valid() && buf.head == old(buf.head)
    ensures buf.st == Put(old(buf.st).stack, NewCallValue(id, callID, name))
  {
    hide Plain, Feed, Join, Framed, Head, JsonBuf.Valid, Clean, Repaired, Decimal;
    EventNames();
    ItemNames();
    CallNames();
    buf.Open();
    buf.Key("type"); buf.Const("function_call");
    buf.Next("id"); buf.Str(id);
    buf.Next("call_id"); buf.Str(callID);
    buf.Next("name"); buf.Str(name);
    buf.Next("arguments"); buf.Const("");
    buf.Next("status"); buf.Const("in_progress");
    buf.Close();
  }

  method OutputText(buf: JsonBuf, text: string)
    requires buf.Valid() && buf.st.Reading? && Wants(buf.st.mode)
    modifies buf
    ensures buf.Valid() && buf.head == old(buf.head)
    ensures buf.st == Put(old(buf.st).stack, OutputTextValue(text))
  {
    hide Plain, Feed, Join, Framed, Head, JsonBuf.Valid, Clean, Repaired, Decimal;
    EventNames();
    PartNames();
    OutputTextNames();
    buf.Open();
    buf.Key("type"); buf.Const("output_text");
    buf.Next("text"); buf.Str(text);
    buf.Next("annotations"); buf.OpenList(); buf.CloseList(); buf.Close();
  }

  method MessageAdded(buf: JsonBuf, n: int, index: int, id: string)
    modifies buf
    ensures Renders(buf.b, Event("response.output_item.added",
                                 Obj(MessageAddedFields(Numbered("response.output_item.added", n), index, id))))
  {
    hide Plain, Feed, Join, Framed, Head, JsonBuf.Valid, Clean, Repaired, Decimal, Numbered, Denotes;
    hide Begun, KeyText, Quote;
    ItemAddedEvent();
    IndexNames();
    ItemNames();
    PlainClean("response.output_item.added");
    BeginEvent(buf, "response.output_item.added", n);
    buf.Next("output_index"); buf.Int(index);
    buf.Next("item"); NewMessage(buf, id);
    buf.Close();
    buf.EndFrame();
  }

  method ReasoningAdded(buf: JsonBuf, n: int, index: int, id: string)
    modifies buf
    ensures Renders(buf.b, Event("response.output_item.added",
                                 Obj(ReasoningAddedFields(Numbered("response.output_item.added", n), index, id))))
  {
    hide Plain, Feed, Join, Framed, Head, JsonBuf.Valid, Clean, Repaired, Decimal, Numbered, Denotes;
    hide Begun, KeyText, Quote;
    ItemAddedEvent();
    IndexNames();
    ItemNames();
    PlainClean("response.output_item.added");
    BeginEvent(buf, "response.output_item.added", n);
    buf.Next("output_index"); buf.Int(index);
    buf.Next("item"); NewReasoning(buf, id);
    buf.Close();
    buf.EndFrame();
  }

  method CallAdded(buf: JsonBuf, n: int, index: int, id: string, callID: string, name: string)
    modifies buf
    ensures Renders(buf.b, Event("response.output_item.added",
                                 Obj(CallAddedFields(Numbered("response.output_item.added", n), index, id, callID,
                                                     name))))
  {
    hide Plain, Feed, Join, Framed, Head, JsonBuf.Valid, Clean, Repaired, Decimal, Numbered, Denotes;
    hide Begun, KeyText, Quote;
    ItemAddedEvent();
    IndexNames();
    ItemNames();
    PlainClean("response.output_item.added");
    BeginEvent(buf, "response.output_item.added", n);
    buf.Next("output_index"); buf.Int(index);
    buf.Next("item"); NewCall(buf, id, callID, name);
    buf.Close();
    buf.EndFrame();
  }

  method TextPart(buf: JsonBuf, n: int, event: string, index: int, id: string, text: string)
    requires Plain(event) && event != ""
    modifies buf
    ensures Renders(buf.b, Event(event, Obj(TextPartFields(Numbered(event, n), index, id, text))))
  {
    hide Plain, Feed, Join, Framed, Head, JsonBuf.Valid, Clean, Repaired, Decimal, Numbered, Denotes;
    hide Begun, KeyText, Quote;
    IndexNames();
    PartNames();
    PlainClean(event);
    BeginEvent(buf, event, n);
    buf.Next("item_id"); buf.Str(id);
    buf.Next("output_index"); buf.Int(index);
    buf.Next("content_index"); buf.Int(0);
    buf.Next("part"); OutputText(buf, text);
    buf.Close();
    buf.EndFrame();
  }

  method SummaryPart(buf: JsonBuf, n: int, event: string, index: int, id: string, text: string)
    requires Plain(event) && event != ""
    modifies buf
    ensures Renders(buf.b, Event(event, Obj(SummaryPartFields(Numbered(event, n), index, id, text))))
  {
    hide Plain, Feed, Join, Framed, Head, JsonBuf.Valid, Clean, Repaired, Decimal, Numbered, Denotes;
    hide Begun, KeyText, Quote;
    EventNames();
    IndexNames();
    PartNames();
    ReasoningNames();
    PlainClean(event);
    BeginEvent(buf, event, n);
    buf.Next("item_id"); buf.Str(id);
    buf.Next("output_index"); buf.Int(index);
    buf.Next("summary_index"); buf.Int(0);
    buf.Next("part"); buf.Open();
    buf.Key("type"); buf.Const("summary_text");
    buf.Next("text"); buf.Str(text);
    buf.Close(); buf.Close();
    buf.EndFrame();
  }

  method MessageText(buf: JsonBuf, n: int, event: string, key: string, index: int, id: string, text: string)
    requires Plain(event) && Plain(key) && event != ""
    modifies buf
    ensures Renders(buf.b, Event(event, Obj(MessageTextFields(Numbered(event, n), key, index, id, text))))
  {
    hide Plain, Feed, Join, Framed, Head, JsonBuf.Valid, Clean, Repaired, Decimal, Numbered, Denotes;
    hide Begun, KeyText, Quote;
    IndexNames();
    PartNames();
    PlainClean(event);
    BeginEvent(buf, event, n);
    buf.Next("item_id"); buf.Str(id);
    buf.Next("output_index"); buf.Int(index);
    buf.Next("content_index"); buf.Int(0);
    buf.Next(key); buf.Str(text);
    buf.Next("logprobs"); buf.OpenList(); buf.CloseList(); buf.Close();
    buf.EndFrame();
  }

  method SummaryText(buf: JsonBuf, n: int, event: string, key: string, index: int, id: string, text: string)
    requires Plain(event) && Plain(key) && event != ""
    modifies buf
    ensures Renders(buf.b, Event(event, Obj(SummaryTextFields(Numbered(event, n), key, index, id, text))))
  {
    hide Plain, Feed, Join, Framed, Head, JsonBuf.Valid, Clean, Repaired, Decimal, Numbered, Denotes;
    hide Begun, KeyText, Quote;
    IndexNames();
    ReasoningNames();
    PlainClean(event);
    BeginEvent(buf, event, n);
    buf.Next("item_id"); buf.Str(id);
    buf.Next("output_index"); buf.Int(index);
    buf.Next("summary_index"); buf.Int(0);
    buf.Next(key); buf.Str(text);
    buf.Close();
    buf.EndFrame();
  }

  method Arguments(buf: JsonBuf, n: int, event: string, key: string, index: int, id: string, text: string)
    requires Plain(event) && Plain(key) && event != ""
    modifies buf
    ensures Renders(buf.b, Event(event, Obj(ArgumentsFields(Numbered(event, n), key, index, id, text))))
  {
    hide Plain, Feed, Join, Framed, Head, JsonBuf.Valid, Clean, Repaired, Decimal, Numbered, Denotes;
    hide Begun, KeyText, Quote;
    IndexNames();
    PlainClean(event);
    BeginEvent(buf, event, n);
    buf.Next("item_id"); buf.Str(id);
    buf.Next("output_index"); buf.Int(index);
    buf.Next(key); buf.Str(text);
    buf.Close();
    buf.EndFrame();
  }

  method ItemDone(buf: JsonBuf, n: int, index: int, item: M.DoneItem, enc: string)
    requires Denotes(enc, ItemValue(item))
    modifies buf
    ensures Renders(buf.b, Event("response.output_item.done",
                                 Obj(ItemDoneFields(Numbered("response.output_item.done", n), index, item))))
  {
    hide Plain, Feed, Join, Framed, Head, JsonBuf.Valid, Clean, Repaired, Decimal, Numbered, Denotes, ItemValue;
    hide Begun, KeyText, Quote;
    ItemDoneEvent();
    IndexNames();
    ItemNames();
    PlainClean("response.output_item.done");
    DenotesSome();
    BeginEvent(buf, "response.output_item.done", n);
    buf.Next("output_index"); buf.Int(index);
    buf.Next("item"); buf.RawJSON(enc, ItemValue(item));
    buf.Close();
    buf.EndFrame();
  }

  method Failed(buf: JsonBuf, n: int, meta: Meta, message: string, enc: string)
    requires Denotes(enc, BaseValue(meta, "failed", []))
    modifies buf
    ensures Renders(buf.b, Event("response.failed", Obj(FailedFields(Numbered("response.failed", n), meta, message))))
    ensures buf.b == FailedText(n, message, enc)
  {
    hide FailedText;
    hide Plain, Feed, Join, Framed, Head, JsonBuf.Valid, Clean, Repaired, Decimal, Numbered, Denotes, BaseValue;
    hide Begun, KeyText, Quote;
    EventNames();
    FailedEvent();
    MessageNames();
    ErrorNames();
    ResponseNames();
    PlainClean("response.failed");
    DenotesSome();
    BeginEvent(buf, "response.failed", n);
    buf.Next("response"); buf.RawJSON(enc, BaseValue(meta, "failed", []));
    buf.Next("error"); buf.Open();
    buf.Key("code"); buf.Const("upstream_error");
    buf.Next("message"); buf.Str(message);
    buf.Close(); buf.Close();
    buf.EndFrame();
    FailedIs(n, message, enc);
  }

  method ErrorFrame(buf: JsonBuf, n: int, typ: string, message: string)
    modifies buf
    ensures Renders(buf.b, Event("error", Obj(ErrorFrameFields(Numbered("error", n), typ, message))))
  {
    hide Plain, Feed, Join, Framed, Head, JsonBuf.Valid, Clean, Repaired, Decimal, Numbered, Denotes;
    hide Begun, KeyText, Quote;
    EventNames();
    MessageNames();
    ErrorNames();
    PlainClean("error");
    BeginEvent(buf, "error", n);
    buf.Next("error"); buf.Open();
    buf.Key("type"); buf.Str(typ);
    buf.Next("code"); buf.Null();
    buf.Next("message"); buf.Str(message);
    buf.Next("param"); buf.Null();
    buf.Close(); buf.Close();
    buf.EndFrame();
  }

  /** startResponse: the first two events. */
  method Started(buf: JsonBuf, n: int, meta: Meta, event: string, enc: string)
    requires Plain(event) && event != "" && Denotes(enc, BaseValue(meta, "in_progress", []))
    modifies buf
    ensures Renders(buf.b, Event(event, Obj(Numbered(event, n).And("response", BaseValue(meta, "in_progress", [])))))
  {
    hide Plain, Feed, Join, Framed, Head, JsonBuf.Valid, Clean, Repaired, Decimal, Numbered, Denotes, BaseValue;
    hide Begun, KeyText, Quote;
    ResponseNames();
    PlainClean(event);
    DenotesSome();
    BeginEvent(buf, event, n);
    buf.Next("response"); buf.RawJSON(enc, BaseValue(meta, "in_progress", []));
    buf.Close();
    buf.EndFrame();
  }

  /** The last event of a stream that was not cut short. */
  method Final(buf: JsonBuf, n: int, meta: Meta, f: M.Body, base: string, usage: string)
    requires f.Final? && Denotes(base, BaseValue(meta, FinalStatus(f.incomplete), f.output))
    requires Denotes(usage, UsageValue(f.usage))
    modifies buf
    ensures Renders(buf.b, Event(EventName(f), Obj(FinalFields(Numbered(EventName(f), n), meta, f))))
    ensures buf.b == FinalText(n, f, base, usage)
  {
    hide Begun, FinalText, KeyText, Quote;
    hide Plain, Feed, Join, Framed, Head, JsonBuf.Valid, Clean, Repaired, Decimal;
    hide Numbered, Denotes, BaseValue, UsageValue;
    OutputTextNames();
    ResponseNames();
    DetailsNames();
    EndEvents();
    PlainClean(EventName(f));
    DenotesSome();
    BeginEvent(buf, EventName(f), n);
    buf.Next("response"); buf.RawJSON(base, BaseValue(meta, FinalStatus(f.incomplete), f.output));
    buf.Next("output_text"); buf.Str(f.outputText);
    buf.Next("incomplete_details");
    if f.incomplete {
      buf.Open();
      buf.Key("reason"); buf.Const("max_output_tokens");
      buf.Close();
    } else {
      buf.Null();
    }
    buf.Next("usage"); buf.RawJSON(usage, UsageValue(f.usage));
    buf.Close();
    buf.EndFrame();
    FinalIs(n, f, base, usage);
  }

  method Ping(buf: JsonBuf)
    modifies buf
    ensures Renders(buf.b, Event("ping", Obj(NoFields.And("type", Str("ping")))))
  {
    buf.Reset();
    buf.Lead("event: ping\ndata: ");
    hide Plain, Feed, Join, Framed, Head, Clean, Repaired, Decimal;
    EventNames();
    PlainClean("ping");
    PingHead();
    buf.Open();
    buf.Key("type"); buf.Const("ping");
    buf.Close();
    buf.EndFrame();
  }

  lemma PingHead()
    ensures "" + "event: ping\ndata: " == Head("ping")
  {
  }

  lemma DenotesSome()
    ensures forall text: string, v: Value :: Denotes(text, v) ==> text != ""
  {
  }

  method WriteBody(buf: JsonBuf, n: int, meta: Meta, b: M.Body, marshal: Value -> string)
    requires Marshals(marshal, meta, b)
    modifies buf
    ensures Renders(buf.b, SentOf(meta, M.Frame(n, b)))
  {
    hide Plain, Renders, Numbered, Denotes, BaseValue, ItemValue, UsageValue, FinalFields;
    hide MessageAddedFields, ReasoningAddedFields, CallAddedFields, TextPartFields, SummaryPartFields;
    hide MessageTextFields, SummaryTextFields, ArgumentsFields, ItemDoneFields, FailedFields, ErrorFrameFields;
    EventNames();
    StartEvents();
    ContentPartAddedEvent();
    ContentPartDoneEvent();
    SummaryPartAddedEvent();
    SummaryPartDoneEvent();
    TextDeltaEvent();
    TextDoneEvent();
    SummaryDeltaEvent();
    SummaryDoneEvent();
    ArgumentsDeltaEvent();
    ArgumentsDoneEvent();
    PartNames();
    ItemNames();
    CallNames();
    match b {
      case Created => Started(buf, n, meta, "response.created", marshal(BaseValue(meta, "in_progress", [])));
      case InProgress => Started(buf, n, meta, "response.in_progress", marshal(BaseValue(meta, "in_progress", [])));
      case ItemAdded(index, kind, id, callID, name) =>
        match kind {
          case Message => MessageAdded(buf, n, index, id);
          case Reasoning => ReasoningAdded(buf, n, index, id);
          case FunctionCall => CallAdded(buf, n, index, id, callID, name);
        }
      case PartAdded(index, kind, id) =>
        if kind == M.Message {
          TextPart(buf, n, "response.content_part.added", index, id, "");
        } else {
          SummaryPart(buf, n, "response.reasoning_summary_part.added", index, id, "");
        }
      case Delta(index, kind, id, text) =>
        match kind {
          case Message => MessageText(buf, n, "response.output_text.delta", "delta", index, id, text);
          case Reasoning => SummaryText(buf, n, "response.reasoning_summary_text.delta", "delta", index, id, text);
          case FunctionCall => Arguments(buf, n, "response.function_call_arguments.delta", "delta", index, id, text);
        }
      case TextDone(index, kind, id, text) =>
        match kind {
          case Message => MessageText(buf, n, "response.output_text.done", "text", index, id, text);
          case Reasoning => SummaryText(buf, n, "response.reasoning_summary_text.done", "text", index, id, text);
          case FunctionCall => Arguments(buf, n, "response.function_call_arguments.done", "arguments", index, id, text);
        }
      case PartDone(index, kind, id, text) =>
        if kind == M.Message {
          TextPart(buf, n, "response.content_part.done", index, id, text);
        } else {
          SummaryPart(buf, n, "response.reasoning_summary_part.done", index, id, text);
        }
      case ItemDone(index, item) => ItemDone(buf, n, index, item, marshal(ItemValue(item)));
      case Final(incomplete, output, outputText, usage) =>
        Final(buf, n, meta, b, marshal(BaseValue(meta, FinalStatus(incomplete), output)), marshal(UsageValue(usage)));
      case Failed(message) => Failed(buf, n, meta, message, marshal(BaseValue(meta, "failed", [])));
      case ErrorEvent(typ, message) => ErrorFrame(buf, n, typ, message);
    }
  }

  /** Any frame of the stream. */
  method WriteFrame(buf: JsonBuf, meta: Meta, f: M.Frame, marshal: Value -> string)
    requires f.Frame? ==> Marshals(marshal, meta, f.body)
    modifies buf
    ensures Renders(buf.b, SentOf(meta, f))
  {
    hide Renders, Marshals, BodyFields;
    match f {
      case Frame(n, b) => WriteBody(buf, n, meta, b, marshal);
      case Ping => Ping(buf);
    }
  }

  function Sents(meta: Meta, frames: seq<M.Frame>): seq<Sent> {
    seq(|frames|, i requires 0 <= i < |frames| => SentOf(meta, frames[i]))
  }

  /** The bytes of a whole stream: a client dispatches exactly its frames, and the data of each parses to
      exactly the value that was meant. */
  method WriteAll(buf: JsonBuf, meta: Meta, frames: seq<M.Frame>, marshal: Value -> string) returns (bytes: string)
    requires forall f :: f in frames && f.Frame? ==> Marshals(marshal, meta, f.body)
    modifies buf
    ensures MatchesAll(Receive(bytes), Meant(Sents(meta, frames)))
  {
    hide Renders, SentOf, MatchesAll, Receive, Meant, Concat, Marshals;
    bytes := "";
    ghost var texts: seq<string> := [];
    ConcatNone();
    for i := 0 to |frames|
      invariant bytes == Concat(texts) && RendersAll(texts, Sents(meta, frames[..i]))
    {
      WriteFrame(buf, meta, frames[i], marshal);
      ConcatSnoc(texts, buf.b);
      bytes := bytes + buf.b;
      texts := texts + [buf.b];
    }
    assert frames[..|frames|] == frames;
    StreamReads(texts, Sents(meta, frames));
  }

  /* ---- Nothing is lost ---- */

  predicate ItemSendable(it: M.DoneItem) {
    && ValidUtf8(it.id) && ValidUtf8(it.text)
    && if it.kind == M.FunctionCall then ValidUtf8(it.callID) && ValidUtf8(it.name)
       else it.callID == "" && it.name == ""
  }

  /** Strings are valid UTF-8, calls have no parts, and what a frame does not send is empty. */
  predicate Sendable(b: M.Body) {
    match b
    case ItemAdded(_, kind, id, callID, name) =>
      && ValidUtf8(id)
      && if kind == M.FunctionCall then ValidUtf8(callID) && ValidUtf8(name) else callID == "" && name == ""
    case PartAdded(_, kind, id) => kind != M.FunctionCall && ValidUtf8(id)
    case Delta(_, _, id, text) => ValidUtf8(id) && ValidUtf8(text)
    case TextDone(_, _, id, text) => ValidUtf8(id) && ValidUtf8(text)
    case PartDone(_, kind, id, text) => kind != M.FunctionCall && ValidUtf8(id) && ValidUtf8(text)
    case ItemDone(_, item) => ItemSendable(item)
    case Final(_, output, outputText, _) =>
      ValidUtf8(outputText) && forall i :: 0 <= i < |output| ==> ItemSendable(output[i])
    case Failed(message) => ValidUtf8(message)
    case ErrorEvent(typ, message) => ValidUtf8(typ) && ValidUtf8(message)
    case _ => true
  }

  /** What the name of an event says: the constructor and the kind. */
  function Sort(b: M.Body): nat {
    match b
    case Created => 0
    case InProgress => 1
    case ItemAdded(_, _, _, _, _) => 2
    case PartAdded(_, kind, _) => if kind == M.Message then 3 else 4
    case Delta(_, kind, _, _) => (match kind case Message => 5 case Reasoning => 6 case FunctionCall => 7)
    case TextDone(_, kind, _, _) => (match kind case Message => 8 case Reasoning => 9 case FunctionCall => 10)
    case PartDone(_, kind, _, _) => if kind == M.Message then 11 else 12
    case ItemDone(_, _) => 13
    case Final(incomplete, _, _, _) => if incomplete then 14 else 15
    case Failed(_) => 16
    case ErrorEvent(_, _) => 17
  }

  lemma NameLengths()
    ensures |"response.created"| == 16 && |"response.in_progress"| == 20 && |"response.output_item.added"| == 26
    ensures |"response.content_part.added"| == 27 && |"response.reasoning_summary_part.added"| == 37
    ensures |"response.output_text.delta"| == 26 && |"response.reasoning_summary_text.delta"| == 37
    ensures |"response.function_call_arguments.delta"| == 38 && |"response.output_text.done"| == 25
    ensures |"response.reasoning_summary_text.done"| == 36 && |"response.function_call_arguments.done"| == 37
    ensures |"response.content_part.done"| == 26 && |"response.reasoning_summary_part.done"| == 36
    ensures |"response.output_item.done"| == 25 && |"response.completed"| == 18 && |"response.incomplete"| == 19
    ensures |"response.failed"| == 15 && |"error"| == 5 && |"ping"| == 4
  {
  }

  lemma NamesDiffer()
    ensures "response.output_item.added" != "response.output_text.delta"
    ensures "response.output_item.added" != "response.content_part.done"
    ensures "response.output_text.delta" != "response.content_part.done"
    ensures "response.output_text.done" != "response.output_item.done"
  {
    assert "response.output_item.added"[16] == 'i' && "response.output_text.delta"[16] == 't';
    assert "response.content_part.done"[16] == '_' && "response.output_text.done"[16] == 't';
    assert "response.output_item.done"[16] == 'i';
  }

  lemma SummaryNamesDiffer()
    ensures "response.reasoning_summary_part.added" != "response.reasoning_summary_text.delta"
    ensures "response.reasoning_summary_part.added" != "response.function_call_arguments.done"
    ensures "response.reasoning_summary_text.delta" != "response.function_call_arguments.done"
    ensures "response.reasoning_summary_text.done" != "response.reasoning_summary_part.done"
  {
    assert "response.reasoning_summary_part.added"[27] == 'p' && "response.reasoning_summary_text.delta"[27] == 't';
    assert "response.reasoning_summary_text.done"[27] == 't' && "response.reasoning_summary_part.done"[27] == 'p';
    assert "response.function_call_arguments.done"[27] == 'm';
  }

  /* ---- What a client reads ---- */

  /** The event with this name. */
  function Recognized(event: string): nat {
    if event == "response.created" then 0
    else if event == "response.in_progress" then 1
    else if event == "response.output_item.added" then 2
    else if event == "response.content_part.added" then 3
    else if event == "response.reasoning_summary_part.added" then 4
    else if event == "response.output_text.delta" then 5
    else if event == "response.reasoning_summary_text.delta" then 6
    else if event == "response.function_call_arguments.delta" then 7
    else if event == "response.output_text.done" then 8
    else if event == "response.reasoning_summary_text.done" then 9
    else if event == "response.function_call_arguments.done" then 10
    else if event == "response.content_part.done" then 11
    else if event == "response.reasoning_summary_part.done" then 12
    else if event == "response.output_item.done" then 13
    else if event == "response.incomplete" then 14
    else if event == "response.completed" then 15
    else if event == "response.failed" then 16
    else 17
  }

  lemma EventRecognized(b: M.Body)
    ensures Recognized(EventName(b)) == Sort(b)
  {
    NameLengths();
    NamesDiffer();
    SummaryNamesDiffer();
  }

  function ReadKind(item: Value): M.Kind {
    match TextIn(item, "type") case "message" => M.Message case "reasoning" => M.Reasoning case _ => M.FunctionCall
  }

  function ReadItem(item: Value): M.DoneItem {
    var kind, id := ReadKind(item), TextIn(item, "id");
    match kind
    case Message => M.DoneItem(kind, id, "", "", TextIn(Only(Member(item, "content")), "text"))
    case Reasoning => M.DoneItem(kind, id, "", "", TextIn(Only(Member(item, "summary")), "text"))
    case FunctionCall =>
      M.DoneItem(kind, id, TextIn(item, "call_id"), TextIn(item, "name"), TextIn(item, "arguments"))
  }

  function ReadItems(items: Items): seq<M.DoneItem> {
    match items
    case NoItems => []
    case Item(before, v) => ReadItems(before) + [ReadItem(v)]
  }

  function ReadUsage(v: Value): M.ResponsesUsage {
    var input := Member(v, "input_tokens_details");
    M.ResponsesUsage(IntIn(v, "input_tokens"), IntIn(input, "cached_tokens"), IntIn(input, "cache_write_tokens"),
                     IntIn(v, "output_tokens"), IntIn(v, "total_tokens"))
  }

  function ReadFinal(incomplete: bool, v: Value): M.Body {
    var output := Member(Member(v, "response"), "output");
    M.Final(incomplete, if output.Arr? then ReadItems(output.items) else [], TextIn(v, "output_text"),
            ReadUsage(Member(v, "usage")))
  }

  /** A client finds everything under the names that the protocol gives it. */
  function Read(event: string, v: Value): M.Body {
    var index, id, error, item := IntIn(v, "output_index"), TextIn(v, "item_id"), Member(v, "error"), Member(v, "item");
    match Recognized(event)
    case 0 => M.Created
    case 1 => M.InProgress
    case 2 => M.ItemAdded(index, ReadKind(item), TextIn(item, "id"), TextIn(item, "call_id"), TextIn(item, "name"))
    case 3 => M.PartAdded(index, M.Message, id)
    case 4 => M.PartAdded(index, M.Reasoning, id)
    case 5 => M.Delta(index, M.Message, id, TextIn(v, "delta"))
    case 6 => M.Delta(index, M.Reasoning, id, TextIn(v, "delta"))
    case 7 => M.Delta(index, M.FunctionCall, id, TextIn(v, "delta"))
    case 8 => M.TextDone(index, M.Message, id, TextIn(v, "text"))
    case 9 => M.TextDone(index, M.Reasoning, id, TextIn(v, "text"))
    case 10 => M.TextDone(index, M.FunctionCall, id, TextIn(v, "arguments"))
    case 11 => M.PartDone(index, M.Message, id, TextIn(Member(v, "part"), "text"))
    case 12 => M.PartDone(index, M.Reasoning, id, TextIn(Member(v, "part"), "text"))
    case 13 => M.ItemDone(index, ReadItem(item))
    case 14 => ReadFinal(true, v)
    case 15 => ReadFinal(false, v)
    case 16 => M.Failed(TextIn(error, "message"))
    case _ => M.ErrorEvent(TextIn(error, "type"), TextIn(error, "message"))
  }

  lemma ItemNamesDiffer()
    ensures "type" != "id" && "type" != "status" && "type" != "role" && "type" != "content" && "type" != "summary"
    ensures "type" != "call_id" && "type" != "name" && "type" != "arguments" && "id" != "status" && "id" != "role"
    ensures "id" != "content" && "id" != "summary" && "id" != "call_id" && "id" != "name" && "id" != "arguments"
    ensures "content" != "summary" && "call_id" != "name" && "call_id" != "arguments" && "call_id" != "status"
    ensures "name" != "arguments" && "name" != "status" && "arguments" != "status" && "summary" != "status"
    ensures "text" != "type" && "annotations" != "text" && "name" != "role" && "name" != "content"
    ensures "name" != "summary" && "call_id" != "role" && "call_id" != "content" && "call_id" != "summary"
  {
    assert "type"[0] != "role"[0] && "type"[0] != "name"[0] && "name"[0] != "role"[0] && "text"[1] != "type"[1];
    assert "content"[0] != "summary"[0] && "call_id"[1] != "content"[1] && "call_id"[0] != "summary"[0];
  }

  lemma KindNamesDiffer()
    ensures "message" != "reasoning" && "message" != "function_call" && "reasoning" != "function_call"
    ensures forall s :: StringOf(Str(s)) == s
  {
  }

  lemma ItemRead(it: M.DoneItem)
    requires ItemSendable(it)
    ensures ReadItem(ItemValue(it)) == it
  {
    hide In, Repaired, ValidUtf8, StringOf;
    Lookup();
    Spelled();
    ItemNamesDiffer();
    KindNamesDiffer();
    ValidIsRepaired(it.id);
    ValidIsRepaired(it.text);
    ValidIsRepaired(it.callID);
    ValidIsRepaired(it.name);
  }

  lemma {:induction false} ItemsRead(items: seq<M.DoneItem>)
    requires forall i :: 0 <= i < |items| ==> ItemSendable(items[i])
    ensures ReadItems(ItemValues(items)) == items
  {
    if items != [] {
      hide ItemSendable, ItemValue, ReadItem;
      var n := |items| - 1;
      var before, last := items[..n], items[n];
      ItemsRead(before);
      ItemRead(last);
      OneMore(ItemValues(before), ItemValue(last));
      assert ItemValues(items) == Item(ItemValues(before), ItemValue(last));
      assert items == before + [last];
    }
  }

  lemma OneMore(items: Items, v: Value)
    ensures ReadItems(Item(items, v)) == ReadItems(items) + [ReadItem(v)]
  {
    hide ReadItem;
  }

  lemma UsageNamesDiffer()
    ensures "input_tokens" != "input_tokens_details" && "input_tokens" != "output_tokens"
    ensures "input_tokens" != "output_tokens_details" && "input_tokens" != "total_tokens"
    ensures "input_tokens_details" != "output_tokens" && "input_tokens_details" != "output_tokens_details"
    ensures "input_tokens_details" != "total_tokens" && "output_tokens" != "output_tokens_details"
    ensures "output_tokens" != "total_tokens" && "output_tokens_details" != "total_tokens"
    ensures "cached_tokens" != "cache_write_tokens"
  {
    assert "input_tokens"[0] != "total_tokens"[0];
  }

  lemma UsageRead(u: M.ResponsesUsage)
    ensures ReadUsage(UsageValue(u)) == u
  {
    hide In, Repaired, Decimal, DecimalValue, IntOf;
    Lookup();
    Spelled();
    UsageNamesDiffer();
  }

  lemma FrameNamesDiffer()
    ensures "type" != "sequence_number" && "type" != "output_index" && "type" != "item" && "type" != "item_id"
    ensures "type" != "content_index" && "type" != "summary_index" && "type" != "part" && "type" != "delta"
    ensures "type" != "text" && "type" != "arguments" && "type" != "logprobs" && "type" != "response"
    ensures "type" != "error" && "type" != "output_text" && "type" != "incomplete_details" && "type" != "usage"
    ensures "output_index" != "item" && "output_index" != "item_id" && "output_index" != "content_index"
    ensures "output_index" != "summary_index" && "output_index" != "part" && "output_index" != "delta"
    ensures "output_index" != "text" && "output_index" != "arguments" && "output_index" != "logprobs"
    ensures "item_id" != "content_index" && "item_id" != "summary_index" && "item_id" != "part"
    ensures "item_id" != "delta" && "item_id" != "text" && "item_id" != "arguments" && "item_id" != "logprobs"
    ensures "logprobs" != "delta" && "logprobs" != "text" && "item" != "item_id"
  {
    assert "type"[0] != "item"[0] && "type"[0] != "part"[0] && "type"[1] != "text"[1];
  }

  lemma NumberNamesDiffer()
    ensures "sequence_number" != "type" && "sequence_number" != "output_index" && "sequence_number" != "item"
    ensures "sequence_number" != "item_id" && "sequence_number" != "content_index"
    ensures "sequence_number" != "summary_index" && "sequence_number" != "part" && "sequence_number" != "delta"
    ensures "sequence_number" != "text" && "sequence_number" != "arguments" && "sequence_number" != "logprobs"
    ensures "sequence_number" != "response" && "sequence_number" != "error" && "sequence_number" != "output_text"
    ensures "sequence_number" != "incomplete_details" && "sequence_number" != "usage"
  {
  }

  lemma EndNamesDiffer()
    ensures "response" != "output_text" && "response" != "incomplete_details" && "response" != "usage"
    ensures "response" != "error" && "output_text" != "incomplete_details" && "output_text" != "usage"
    ensures "incomplete_details" != "usage" && "type" != "code" && "type" != "message" && "type" != "param"
    ensures "message" != "code" && "message" != "param"
  {
    assert "type"[0] != "code"[0];
  }

  /** What is told of the whole response. */
  lemma BaseNamesDiffer()
    ensures "output" != "output_text" && "output" != "model" && "output" != "error" && "output" != "incomplete_details"
    ensures "output" != "parallel_tool_calls" && "output" != "previous_response_id" && "output" != "store"
    ensures "output" != "tools" && "output" != "metadata" && "status" != "output" && "status" != "output_text"
    ensures "status" != "model" && "status" != "error" && "status" != "incomplete_details"
    ensures "status" != "parallel_tool_calls" && "status" != "previous_response_id" && "status" != "store"
    ensures "status" != "tools" && "status" != "metadata"
  {
    assert "output"[0] != "status"[0];
  }

  lemma BaseRead(meta: Meta, status: string, output: seq<M.DoneItem>)
    ensures var v := BaseValue(meta, status, output);
      Member(v, "output") == Arr(ItemValues(output)) && TextIn(v, "status") == status
  {
    hide In, Repaired, Decimal, StringOf, ItemValues;
    Lookup();
    KindNamesDiffer();
    BaseNamesDiffer();
  }

  predicate IsPiece(b: M.Body) { b.PartAdded? || b.Delta? || b.TextDone? || b.PartDone? }

  /** The members of a frame come after its type and its number, and do not hide them. */
  predicate Behind(start: Fields, fields: Fields) {
    In(fields, "type") == In(start, "type") && In(fields, "sequence_number") == In(start, "sequence_number")
  }

  lemma PartsBehind(start: Fields, index: int, id: string, text: string)
    ensures Behind(start, TextPartFields(start, index, id, text))
    ensures Behind(start, SummaryPartFields(start, index, id, text))
  {
    hide In, Repaired, Decimal, OutputTextValue;
    Lookup();
    FrameNamesDiffer();
    NumberNamesDiffer();
  }

  lemma TextsBehind(start: Fields, key: string, index: int, id: string, text: string)
    requires key != "type" && key != "sequence_number"
    ensures Behind(start, MessageTextFields(start, key, index, id, text))
    ensures Behind(start, SummaryTextFields(start, key, index, id, text))
    ensures Behind(start, ArgumentsFields(start, key, index, id, text))
  {
    hide In, Repaired, Decimal;
    Lookup();
    FrameNamesDiffer();
    NumberNamesDiffer();
  }

  lemma PieceBehind(start: Fields, meta: Meta, b: M.Body)
    requires IsPiece(b)
    ensures Behind(start, BodyFields(start, meta, b))
  {
    hide Behind, TextPartFields, SummaryPartFields, MessageTextFields, SummaryTextFields, ArgumentsFields;
    FrameNamesDiffer();
    NumberNamesDiffer();
    var text := if b.PartAdded? then "" else b.text;
    PartsBehind(start, b.index, b.id, text);
    TextsBehind(start, "delta", b.index, b.id, text);
    TextsBehind(start, "text", b.index, b.id, text);
    TextsBehind(start, "arguments", b.index, b.id, text);
  }

  lemma OtherBehind(start: Fields, meta: Meta, b: M.Body)
    requires !IsPiece(b)
    ensures Behind(start, BodyFields(start, meta, b))
  {
    hide In, Repaired, Decimal, ItemValue, BaseValue, UsageValue, FinalStatus;
    hide NewMessageValue, NewReasoningValue, NewCallValue;
    Lookup();
    FrameNamesDiffer();
    NumberNamesDiffer();
  }

  lemma Headed(event: string, n: int, meta: Meta, b: M.Body)
    ensures var v := Obj(BodyFields(Numbered(event, n), meta, b));
      TextIn(v, "type") == event && IntIn(v, "sequence_number") == n
  {
    hide In, Repaired, Decimal, DecimalValue, StringOf, IntOf, BodyFields;
    Lookup();
    Spelled();
    KindNamesDiffer();
    NumberNamesDiffer();
    if IsPiece(b) {
      PieceBehind(Numbered(event, n), meta, b);
    } else {
      OtherBehind(Numbered(event, n), meta, b);
    }
  }

  /** The frames of one item. */
  lemma PieceRead(event: string, n: int, meta: Meta, b: M.Body)
    requires Sendable(b) && Recognized(event) == Sort(b)
    requires IsPiece(b)
    ensures Read(event, Obj(BodyFields(Numbered(event, n), meta, b))) == b
  {
    hide In, Repaired, Decimal, DecimalValue, StringOf, IntOf, ValidUtf8, ReadItem, ReadKind, ReadFinal, Recognized;
    Lookup();
    Spelled();
    KindNamesDiffer();
    ItemNamesDiffer();
    FrameNamesDiffer();
    ValidIsRepaired(b.id);
    ValidIsRepaired(if b.PartAdded? then "" else b.text);
  }

  function NewItemValue(kind: M.Kind, id: string, callID: string, name: string): Value {
    match kind
    case Message => NewMessageValue(id)
    case Reasoning => NewReasoningValue(id)
    case FunctionCall => NewCallValue(id, callID, name)
  }

  lemma NewItemRead(kind: M.Kind, id: string, callID: string, name: string)
    requires Sendable(M.ItemAdded(0, kind, id, callID, name))
    ensures var item := NewItemValue(kind, id, callID, name);
      && ReadKind(item) == kind && TextIn(item, "id") == id
      && TextIn(item, "call_id") == callID && TextIn(item, "name") == name
  {
    hide In, Repaired, ValidUtf8, StringOf;
    Lookup();
    Spelled();
    ItemNamesDiffer();
    KindNamesDiffer();
    ValidIsRepaired(id);
    ValidIsRepaired(callID);
    ValidIsRepaired(name);
    assert StringOf(Null) == "" by {
      NothingThere();
    }
  }

  lemma NothingThere()
    ensures StringOf(Null) == ""
  {
  }

  lemma AddedFields(start: Fields, meta: Meta, b: M.Body)
    requires b.ItemAdded?
    ensures BodyFields(start, meta, b)
            == start.And("output_index", IntValue(b.index))
                    .And("item", NewItemValue(b.kind, b.id, b.callID, b.name))
  {
    hide NewMessageValue, NewReasoningValue, NewCallValue;
  }

  /** The frames of a whole item. */
  lemma WholeItemRead(event: string, n: int, meta: Meta, b: M.Body)
    requires Sendable(b) && Recognized(event) == Sort(b)
    requires b.ItemAdded? || b.ItemDone?
    ensures Read(event, Obj(BodyFields(Numbered(event, n), meta, b))) == b
  {
    hide In, Repaired, Decimal, DecimalValue, IntOf, StringOf, ValidUtf8, ReadItem, ItemValue, ItemSendable;
    hide ReadFinal, Recognized, NewItemValue, ReadKind;
    Lookup();
    Spelled();
    FrameNamesDiffer();
    if b.ItemDone? {
      ItemRead(b.item);
    } else {
      hide BodyFields;
      AddedFields(Numbered(event, n), meta, b);
      NewItemRead(b.kind, b.id, b.callID, b.name);
    }
  }

  lemma EndRead(event: string, n: int, meta: Meta, b: M.Body)
    requires Sendable(b) && Recognized(event) == Sort(b)
    requires b.Created? || b.InProgress? || b.Final? || b.Failed? || b.ErrorEvent?
    ensures Read(event, Obj(BodyFields(Numbered(event, n), meta, b))) == b
  {
    hide In, Repaired, Decimal, DecimalValue, StringOf, IntOf, ValidUtf8, ReadItem, ItemValues, ItemSendable;
    hide BaseValue, UsageValue, ReadUsage, Recognized, ReadItems, ReadKind;
    Lookup();
    Spelled();
    EndNamesDiffer();
    FrameNamesDiffer();
    match b
    case Final(incomplete, output, outputText, usage) =>
      BaseRead(meta, FinalStatus(incomplete), output);
      ItemsRead(output);
      UsageRead(usage);
      ValidIsRepaired(outputText);
    case Failed(message) => ValidIsRepaired(message);
    case ErrorEvent(typ, message) =>
      ValidIsRepaired(typ);
      ValidIsRepaired(message);
    case _ =>
  }

  /** What a client reads is the frame: its number, and under a name that is also the type in its data, all
      that the frame says. */
  lemma ReadsBack(meta: Meta, f: M.Frame)
    requires f.Frame? && Sendable(f.body)
    ensures var sent := SentOf(meta, f);
      && sent.Event? && Read(sent.event, sent.v) == f.body
      && TextIn(sent.v, "type") == sent.event && IntIn(sent.v, "sequence_number") == f.seqNo
  {
    hide EventName, BodyFields, Recognized, Sort, Sendable, Read, TextIn, IntIn;
    EventRecognized(f.body);
    var event, b := EventName(f.body), f.body;
    Headed(event, f.seqNo, meta, b);
    if b.ItemAdded? || b.ItemDone? {
      WholeItemRead(event, f.seqNo, meta, b);
    } else if IsPiece(b) {
      PieceRead(event, f.seqNo, meta, b);
    } else {
      EndRead(event, f.seqNo, meta, b);
    }
  }

  lemma NeverPing(b: M.Body)
    ensures EventName(b) != "ping"
  {
    NameLengths();
  }

  /** No two frames mean the same: what a client receives determines the frame. */
  lemma Lossless(meta: Meta, f: M.Frame, g: M.Frame)
    requires (f.Frame? ==> Sendable(f.body)) && (g.Frame? ==> Sendable(g.body))
    requires SentOf(meta, f) == SentOf(meta, g)
    ensures f == g
  {
    hide EventName, BodyFields, Sendable, Read, TextIn, IntIn;
    if f.Frame? && g.Frame? {
      ReadsBack(meta, f);
      ReadsBack(meta, g);
    } else if f.Frame? {
      NeverPing(f.body);
    } else if g.Frame? {
      NeverPing(g.body);
    }
  }

  /** What the response is said to be, before its end and at it. */
  lemma StatusRead(meta: Meta, f: M.Frame)
    requires f.Frame?
    ensures var v := SentOf(meta, f).v; var status := TextIn(Member(v, "response"), "status");
      match f.body
      case Created => status == "in_progress"
      case InProgress => status == "in_progress"
      case Failed(_) => status == "failed"
      case Final(incomplete, _, _, _) =>
        && status == (if incomplete then "incomplete" else "completed")
        && TextIn(Member(v, "incomplete_details"), "reason") == if incomplete then "max_output_tokens" else ""
      case _ => true
  {
    hide In, Repaired, Decimal, DecimalValue, EventName, BaseValue, UsageValue, ItemValue;
    Lookup();
    EndNamesDiffer();
    FrameNamesDiffer();
    KindNamesDiffer();
    BaseRead(meta, "in_progress", []);
    BaseRead(meta, "failed", []);
    if f.body.Final? {
      BaseRead(meta, FinalStatus(f.body.incomplete), f.body.output);
    }
  }

  /* ---- The frames of a run ---- */

  predicate AllSendable(bodies: seq<M.Body>) { forall i :: 0 <= i < |bodies| ==> Sendable(bodies[i]) }

  predicate ValidItem(it: M.Item) {
    && AllValid(it.chunks) && ValidUtf8(it.id)
    && if it.kind == M.FunctionCall then ValidUtf8(it.callID) && ValidUtf8(it.name)
       else it.callID == "" && it.name == ""
  }

  /** What a run over valid events keeps. */
  predicate Sound(s: M.State) {
    && (forall i :: 0 <= i < |s.closed| ==> ValidItem(s.closed[i]))
    && (s.open.Some? ==> ValidItem(s.open.value))
    && (s.failure.Some? ==> ValidEvent(Error(s.failure.value)))
  }

  lemma PieceSound(s: M.State, hex: Hex, kind: M.Kind, callID: string, name: string, text: string)
    requires Sound(s) && ValidHex(hex) && ValidUtf8(text)
    requires if kind == M.FunctionCall then ValidUtf8(callID) && ValidUtf8(name) else callID == "" && name == ""
    ensures Sound(M.WithPiece(s, hex, kind, callID, name, text))
  {
    hide ValidUtf8;
    Constants();
    ValidID(M.Prefix(kind), hex, s.drawn);
  }

  lemma ContentSound(s: M.State, hex: Hex, kind: M.Kind, id: string, name: string, text: string)
    requires Sound(s) && ValidHex(hex) && ValidUtf8(text)
    requires if kind == M.FunctionCall then ValidUtf8(id) && ValidUtf8(name) else id == "" && name == ""
    ensures Sound(M.WithContent(s, hex, kind, id, name, text))
  {
    hide ValidUtf8, ValidHex, ValidItem, M.WithPiece;
    Constants();
    ValidID("call_", hex, s.drawn);
    var unnamed := kind == M.FunctionCall && id == "";
    PieceSound(s.(created := true, drawn := if unnamed then s.drawn + 1 else s.drawn), hex, kind,
               if unnamed then "call_" + hex(s.drawn) else id, name, text);
  }

  lemma StepSound(s: M.State, hex: Hex, ev: Event)
    requires Sound(s) && ValidEvent(ev) && ValidHex(hex)
    ensures Sound(M.Step(s, hex, ev))
  {
    hide ValidUtf8, ValidHex, ValidItem, ToolArgs, Normalize, M.WithContent;
    match ev
    case TextDelta(t) => ContentSound(s, hex, M.Message, "", "", t);
    case ReasoningDelta(t) => ContentSound(s, hex, M.Reasoning, "", "", t);
    case ToolCall(id, name, input) =>
      ValidArgs(input);
      ContentSound(s, hex, M.FunctionCall, id, name, ToolArgs(input));
    case _ =>
  }

  lemma {:induction false} FoldSound(hex: Hex, evs: seq<Event>)
    requires ValidEvents(evs) && ValidHex(hex)
    ensures Sound(M.Fold(hex, evs))
  {
    hide M.Step, ValidEvent, ValidHex, ValidItem;
    if evs != [] {
      FoldSound(hex, evs[..|evs| - 1]);
      StepSound(M.Fold(hex, evs[..|evs| - 1]), hex, evs[|evs| - 1]);
    }
  }

  lemma ItemSound(j: int, it: M.Item)
    requires ValidItem(it)
    ensures AllSendable(M.Open(j, it)) && AllSendable(M.Tail(j, it)) && ItemSendable(M.Finished(it))
  {
    hide ValidUtf8, Concat;
    ValidConcat(it.chunks);
  }

  lemma {:induction false} ClosedSound(items: seq<M.Item>)
    requires forall i :: 0 <= i < |items| ==> ValidItem(items[i])
    ensures AllSendable(M.ClosedFrames(items))
    ensures forall i :: 0 <= i < |M.Stored(items)| ==> ItemSendable(M.Stored(items)[i])
    ensures ValidUtf8(M.TextsOf(M.Stored(items), M.Message))
  {
    hide Sendable, ItemSendable, ValidItem, ValidUtf8, M.Open, M.Tail, M.Finished;
    if items == [] {
      ValidNothing();
    } else {
      var j := |items| - 1;
      ClosedSound(items[..j]);
      ItemSound(j, items[j]);
      ItemText(M.Finished(items[j]));
      var before := M.Stored(items[..j]);
      assert (before + [M.Finished(items[j])])[..|before|] == before;
      ValidAppend(M.TextsOf(before, M.Message), M.Finished(items[j]).text);
      assert M.TextsOf(before, M.Message) + "" == M.TextsOf(before, M.Message);
    }
  }

  lemma ItemText(it: M.DoneItem)
    requires ItemSendable(it)
    ensures ValidUtf8(it.text)
  {
  }

  lemma BodiesSendable(s: M.State)
    requires Sound(s) && s.open.None?
    ensures AllSendable(M.Bodies(s))
  {
    hide ValidUtf8, ValidItem, M.ClosedFrames, ItemSendable;
    ClosedSound(s.closed);
  }

  lemma FinalSendable(s: M.State)
    requires Sound(s)
    ensures Sendable(M.FinalOf(s))
  {
    hide ValidUtf8, ValidItem, ItemSendable, M.TextsOf, M.Stored;
    ClosedSound(s.closed);
  }

  /** Every frame of a run over valid events can be sent without loss. */
  lemma RunSendable(hex: Hex, evs: seq<Event>, ending: Ending, timeoutMessage: string)
    requires ValidEvents(evs) && ValidHex(hex) && ValidEnding(ending) && ValidUtf8(timeoutMessage)
    ensures AllSendable(M.AllBodies(M.Fold(hex, evs), ending, timeoutMessage))
  {
    hide ValidUtf8, M.Fold, ValidEvents, ValidHex, ValidItem, M.Bodies, M.FinalOf, AllSendable, M.AllBodies;
    FoldSound(hex, evs);
    var c := M.Close(M.Fold(hex, evs));
    BodiesSendable(c);
    BodiesSendable(c.(created := true));
    FinalSendable(c);
    NoneSendable();
    EndsSendable(M.Fold(hex, evs), ending, timeoutMessage);
  }

  /** The terminal frame is sendable if all before it are. */
  lemma EndsSendable(s: M.State, ending: Ending, timeoutMessage: string)
    requires ValidEnding(ending) && ValidUtf8(timeoutMessage)
    requires s.failure.Some? ==> ValidEvent(Error(s.failure.value))
    requires var c := M.Close(s);
      && AllSendable(M.Bodies(c)) && AllSendable(M.Bodies(c.(created := true))) && Sendable(M.FinalOf(c))
      && AllSendable([])
    ensures AllSendable(M.AllBodies(s, ending, timeoutMessage))
  {
    hide ValidUtf8, M.Bodies, M.FinalOf, AllSendable;
    ErrorTypes();
    var c := M.Close(s);
    match ending
    case Cancelled =>
    case Idle => LastSendable(M.Bodies(c), M.ErrorEvent("rate_limit_error", timeoutMessage));
    case Broken(message) => LastSendable(M.Bodies(c), M.ErrorEvent("proxy_error", message));
    case Eof =>
      if s.failure.Some? {
        LastSendable(M.Bodies(c), M.Failed(s.failure.value.message));
      } else {
        LastSendable(M.Bodies(c.(created := true)), M.FinalOf(c));
      }
  }

  lemma NoneSendable()
    ensures AllSendable([])
  {
  }

  lemma LastSendable(bodies: seq<M.Body>, last: M.Body)
    ensures AllSendable(bodies) && Sendable(last) ==> AllSendable(bodies + [last])
  {
    hide Sendable;
  }

  /** No two streams mean the same: what a client receives determines all frames. */
  lemma AllLossless(meta: Meta, fs: seq<M.Frame>, gs: seq<M.Frame>)
    requires forall i :: 0 <= i < |fs| && fs[i].Frame? ==> Sendable(fs[i].body)
    requires forall i :: 0 <= i < |gs| && gs[i].Frame? ==> Sendable(gs[i].body)
    requires Sents(meta, fs) == Sents(meta, gs)
    ensures fs == gs
  {
    hide Sendable, SentOf;
    assert |Sents(meta, fs)| == |Sents(meta, gs)|;
    forall i | 0 <= i < |fs| ensures fs[i] == gs[i] {
      assert Sents(meta, fs)[i] == Sents(meta, gs)[i];
      Lossless(meta, fs[i], gs[i]);
    }
  }
}
