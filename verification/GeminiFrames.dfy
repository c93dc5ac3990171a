/** gemini.go: the frames of the event stream as bytes, and what they mean. */
module GeminiFrames {
  import opened Text
  import opened Json
  import opened JsonPrinter
  import opened JsonBuf
  import opened EventStream
  import opened JsonMembers
  import opened Upstream
  import opened Utf8Events
  import Chat
  import JsonCompact
  import M = GeminiStream

  /** httpStatusText. */
  function StatusText(code: int): string {
    if code == 400 || code == 413 then "INVALID_ARGUMENT"
    else if code == 401 || code == 403 then "UNAUTHENTICATED"
    else if code == 404 then "NOT_FOUND"
    else if code == 429 then "RESOURCE_EXHAUSTED"
    else if code == 500 then "INTERNAL"
    else if code == 502 || code == 503 then "UNAVAILABLE"
    else "UNKNOWN"
  }

  /** timeoutMessage, for this many timeouts in a row. */
  function TimeoutMessage(timeouts: int): string {
    "Response timeout - "
    + if timeouts >= 3 then "try reducing context " + ("length (summarize " + "earlier messages)")
      else "request timed out"
  }

  function ErrorValue(code: int, message: string): Value {
    Obj(NoFields.And("error", Obj(NoFields
        .And("code", IntValue(code)).And("message", StrValue(message)).And("status", Str(StatusText(code))))))
  }

  /* ---- What each frame means ---- */

  function ArgsValue(args: string): Value { if Parse(args).Some? then Parse(args).value else Null }

  /** The text is sent even where it is empty, the mark of a thought only where it is set. */
  function PartValue(p: M.Part): Value {
    match p
    case TextPart(text, thought) =>
      var part := NoFields.And("text", StrValue(text));
      Obj(if thought then part.And("thought", Bool(true)) else part)
    case FunctionPart(name, args) =>
      Obj(NoFields
          .And("text", Str(""))
          .And("functionCall", Obj(NoFields.And("name", StrValue(name)).And("args", ArgsValue(args)))))
  }

  function PartValues(parts: seq<M.Part>): Items {
    if parts == [] then NoItems else Item(PartValues(parts[..|parts| - 1]), PartValue(parts[|parts| - 1]))
  }

  function CandidateValue(c: M.Chunk): Value {
    var content := NoFields.And("content", Obj(NoFields
                                               .And("role", Str("model")).And("parts", Arr(PartValues(c.parts)))));
    Obj((if c.finish == "" then content else content.And("finishReason", StrValue(c.finish))).And("index", IntValue(0)))
  }

  function CountsValue(n: M.Counts): Value {
    var counts := NoFields
                  .And("promptTokenCount", IntValue(n.prompt)).And("candidatesTokenCount", IntValue(n.candidates))
                  .And("totalTokenCount", IntValue(n.total));
    Obj(if n.cached == 0 then counts else counts.And("cachedContentTokenCount", IntValue(n.cached)))
  }

  function ChunkValue(c: M.Chunk): Value {
    Obj(NoFields.And("candidates", Arr(Item(NoItems, CandidateValue(c)))).And("usageMetadata", CountsValue(c.counts)))
  }

  function SentOf(f: M.Frame): Sent {
    match f
    case Content(chunk) => Data(ChunkValue(chunk))
    case ErrorFrame(code, message) => Data(ErrorValue(code, message))
  }

  lemma ErrorNames()
    ensures Plain("error") && Plain("code") && Plain("message") && Plain("status")
  {
  }

  lemma StatusPlain(code: int)
    ensures Plain(StatusText(code))
  {
    hide Plain;
    StatusNames();
    MoreStatusNames();
  }

  lemma StatusNames()
    ensures Plain("INVALID_ARGUMENT") && Plain("UNAUTHENTICATED") && Plain("NOT_FOUND")
  {
  }

  lemma MoreStatusNames()
    ensures Plain("RESOURCE_EXHAUSTED") && Plain("INTERNAL") && Plain("UNAVAILABLE") && Plain("UNKNOWN")
  {
  }

  /** Neither the escapes of a string literal nor those for HTML change the text. */
  predicate Untouched(s: string) {
    forall i :: 0 <= i < |s| ==>
      ' ' <= s[i] <= '~' && s[i] != '"' && s[i] != '\\' && s[i] != '<' && s[i] != '>' && s[i] != '&'
  }

  lemma {:induction false} UntouchedMarshal(s: string)
    requires Untouched(s)
    ensures Plain(s) && Marshal(s) == s
    decreases |s|
  {
    if s != "" {
      assert Width(s) == 1;
      UntouchedMarshal(s[1..]);
    }
  }

  lemma UntouchedAppend(a: string, b: string)
    requires Untouched(a) && Untouched(b)
    ensures Untouched(a + b)
  {
  }

  lemma TimeoutWords()
    ensures Untouched("Response timeout - ") && Untouched("request timed out")
  {
  }

  lemma MoreTimeoutWords()
    ensures Untouched("try reducing context ") && Untouched("length (summarize ") && Untouched("earlier messages)")
  {
  }

  lemma BrokenWords()
    ensures Untouched("upstream error")
  {
  }

  /** The messages that the source writes without escaping are what json.Marshal would have written. */
  lemma FixedMessages(timeouts: int)
    ensures Plain(TimeoutMessage(timeouts))
    ensures Chat.Encoded(TimeoutMessage(timeouts)) == "\"" + TimeoutMessage(timeouts) + "\""
    ensures Plain("upstream error") && Chat.Encoded("upstream error") == "\"" + "upstream error" + "\""
  {
    hide Untouched, Marshal, Plain;
    TimeoutWords();
    MoreTimeoutWords();
    BrokenWords();
    UntouchedAppend("length (summarize ", "earlier messages)");
    UntouchedAppend("try reducing context ", "length (summarize " + "earlier messages)");
    UntouchedAppend("Response timeout - ",
                    if timeouts >= 3 then "try reducing context " + ("length (summarize " + "earlier messages)")
                    else "request timed out");
    UntouchedMarshal(TimeoutMessage(timeouts));
    UntouchedMarshal("upstream error");
  }

  lemma QuoteDenotes(s: string)
    ensures Denotes(Quote(s), StrValue(s))
  {
    hide Feed, Quote, Clean, Repaired;
    QuoteClean(s);
    QuoteStart(s);
    forall stack: Stack, m: Mode | Wants(m)
      ensures Settle(Feed(Reading(stack, m), Quote(s))) == Put(stack, StrValue(s))
    {
      StringToken(stack, m, s);
    }
  }

  lemma PlainDenotes(s: string)
    requires Plain(s)
    ensures Denotes("\"" + s + "\"", StrValue(s))
  {
    hide Denotes;
    QuoteDenotes(s);
    PlainQuote(s);
  }

  /** json.Marshal of a string. */
  lemma EncodedDenotes(s: string)
    ensures Denotes(Chat.Encoded(s), StrValue(s))
  {
    hide Feed, Marshal, Clean, Repaired;
    MarshalClean(s);
    QuoteMarkClean();
    CleanAppend("\"", Marshal(s));
    CleanAppend("\"" + Marshal(s), "\"");
    MarshalSpells(s);
    forall stack: Stack, m: Mode | Wants(m)
      ensures Settle(Feed(Reading(stack, m), Chat.Encoded(s))) == Put(stack, StrValue(s))
    {
      FeedAppend(Reading(stack, m), "\"" + Marshal(s), "\"");
      FeedAppend(Reading(stack, m), "\"", Marshal(s));
      FeedOne(Reading(stack, m), '"');
      assert "" + Repaired(s) == Repaired(s);
      FeedOne(Reading(stack, InString(false, Repaired(s))), '"');
    }
  }

  /** The bytes of an error frame. */
  function ErrorText(code: int, text: string): string {
    "data: " + "{\"error\":{\"code\":" + Decimal(code) + ",\"message\":" + text
    + ",\"status\":" + ("\"" + StatusText(code) + "\"") + "}}\n\n"
  }

  lemma ErrorMembers(b: string)
    ensures Join(Join(Join(Join(b, "{"), KeyText("error")), "{"), KeyText("code")) == Join(b, "{\"error\":{\"code\":")
    ensures "," + KeyText("message") == ",\"message\":" && "," + KeyText("status") == ",\"status\":"
  {
    JoinTwo(b, "{", KeyText("error"));
    JoinTwo(b, "{" + KeyText("error"), "{");
    JoinTwo(b, "{" + KeyText("error") + "{", KeyText("code"));
    assert "{" + KeyText("error") + "{" + KeyText("code") == "{\"error\":{\"code\":";
  }

  lemma ErrorIs(code: int, text: string)
    ensures
      var b := Join(Join(Join(Join(Join("data: ", "{"), KeyText("error")), "{"), KeyText("code")), Decimal(code));
      var c := Join(Join(Join(Join(b, ","), KeyText("message")), text), ",");
      Join(Join(Join(Join(Join(c, KeyText("status")), "\"" + StatusText(code) + "\""), "}"), "}"), "\n\n")
      == ErrorText(code, text)
  {
    hide StatusText, Decimal, KeyText;
    var b := Join(Join("data: ", "{\"error\":{\"code\":"), Decimal(code));
    ErrorMembers("data: ");
    NextPiece(b, "message");
    var c := Join(Join(Join(b, ","), KeyText("message")), text);
    NextPiece(c, "status");
    Ends(Join(Join(Join(c, ","), KeyText("status")), "\"" + StatusText(code) + "\""));
  }

  /** An error frame around the JSON text of its message. */
  method ErrorFrame(buf: JsonBuf, code: int, text: string, ghost message: string)
    requires Denotes(text, StrValue(message))
    modifies buf
    ensures Renders(buf.b, Data(ErrorValue(code, message)))
    ensures buf.b == ErrorText(code, text)
  {
    hide ErrorText, KeyText;
    hide Plain, Feed, Join, Framed, JsonBuf.Valid, Clean, Repaired, Decimal, StatusText;
    ErrorNames();
    StatusPlain(code);
    assert text != "";
    buf.Reset();
    buf.Lead("data: ");
    assert "" + "data: " == "data: ";
    hide Denotes;
    buf.Open();
    buf.Key("error"); buf.Open();
    buf.Key("code"); buf.Int(code);
    buf.Next("message"); buf.RawJSON(text, StrValue(message));
    buf.Next("status"); buf.Const(StatusText(code));
    buf.Close(); buf.Close();
    buf.EndFrame();
    ErrorIs(code, text);
  }

  method IdleFrame(buf: JsonBuf, timeouts: int)
    modifies buf
    ensures Renders(buf.b, Data(ErrorValue(429, TimeoutMessage(timeouts))))
    ensures buf.b == ErrorText(429, "\"" + TimeoutMessage(timeouts) + "\"")
  {
    hide ErrorText;
    hide Renders, Denotes, TimeoutMessage;
    FixedMessages(timeouts);
    PlainDenotes(TimeoutMessage(timeouts));
    ErrorFrame(buf, 429, "\"" + TimeoutMessage(timeouts) + "\"", TimeoutMessage(timeouts));
  }

  method BrokenFrame(buf: JsonBuf)
    modifies buf
    ensures Renders(buf.b, Data(ErrorValue(502, "upstream error")))
    ensures buf.b == ErrorText(502, "\"" + "upstream error" + "\"")
  {
    hide ErrorText;
    hide Renders, Denotes, Plain;
    FixedMessages(0);
    PlainDenotes("upstream error");
    ErrorFrame(buf, 502, "\"" + "upstream error" + "\"", "upstream error");
  }

  method UpstreamErrorFrame(buf: JsonBuf, status: int, message: string)
    modifies buf
    ensures Renders(buf.b, Data(ErrorValue(status, message)))
    ensures buf.b == ErrorText(status, Chat.Encoded(message))
  {
    hide ErrorText;
    hide Renders, Denotes;
    EncodedDenotes(message);
    ErrorFrame(buf, status, Chat.Encoded(message), message);
  }

  /** A chunk around its marshalled response object. */
  method ChunkFrame(buf: JsonBuf, text: string, ghost v: Value)
    requires Denotes(text, v)
    modifies buf
    ensures Renders(buf.b, Data(v))
  {
    hide Feed, Join, Framed, JsonBuf.Valid, Clean;
    assert text != "";
    buf.Reset();
    buf.Lead("data: ");
    assert "" + "data: " == "data: ";
    buf.RawJSON(text, v);
    buf.EndFrame();
  }

  /** What json.Marshal is relied on for: its texts are JSON texts for the values marshalled. */
  ghost predicate Marshals(marshal: Value -> string, f: M.Frame) {
    f.Content? ==> Denotes(marshal(ChunkValue(f.chunk)), ChunkValue(f.chunk))
  }

  /** Any frame of the stream. */
  method WriteFrame(buf: JsonBuf, f: M.Frame, marshal: Value -> string)
    requires Marshals(marshal, f)
    modifies buf
    ensures Renders(buf.b, SentOf(f))
    ensures f.ErrorFrame? ==> buf.b == ErrorText(f.code, Chat.Encoded(f.message))
  {
    hide Renders, ChunkValue, ErrorValue, Denotes, ErrorText;
    match f {
      case Content(chunk) => ChunkFrame(buf, marshal(ChunkValue(chunk)), ChunkValue(chunk));
      case ErrorFrame(code, message) => UpstreamErrorFrame(buf, code, message);
    }
  }

  function Sents(frames: seq<M.Frame>): seq<Sent> {
    seq(|frames|, i requires 0 <= i < |frames| => SentOf(frames[i]))
  }

  /** The bytes of a whole stream: a client dispatches exactly its frames, and the data of each parses to
      exactly the value that was meant. */
  method WriteAll(buf: JsonBuf, frames: seq<M.Frame>, marshal: Value -> string) returns (bytes: string)
    requires forall f :: f in frames ==> Marshals(marshal, f)
    modifies buf
    ensures MatchesAll(Receive(bytes), Meant(Sents(frames)))
  {
    hide Renders, SentOf, MatchesAll, Receive, Meant, Concat, Marshals, ErrorText;
    bytes := "";
    ghost var texts: seq<string> := [];
    ConcatNone();
    for i := 0 to |frames|
      invariant bytes == Concat(texts) && RendersAll(texts, Sents(frames[..i]))
    {
      WriteFrame(buf, frames[i], marshal);
      ConcatSnoc(texts, buf.b);
      bytes := bytes + buf.b;
      texts := texts + [buf.b];
    }
    assert frames[..|frames|] == frames;
    StreamReads(texts, Sents(frames));
  }

  /* ---- Nothing is lost ---- */

  /** Its strings are valid UTF-8, and its arguments are a JSON text. */
  predicate SendablePart(p: M.Part) {
    match p
    case TextPart(text, _) => ValidUtf8(text)
    case FunctionPart(name, args) => ValidUtf8(name) && Parse(args).Some?
  }

  predicate Sendable(f: M.Frame) {
    match f
    case Content(c) => ValidUtf8(c.finish) && forall i :: 0 <= i < |c.parts| ==> SendablePart(c.parts[i])
    case ErrorFrame(_, message) => ValidUtf8(message)
  }

  /** The same, up to how the JSON text of the arguments is written. */
  predicate SamePart(p: M.Part, q: M.Part) {
    p == q || (p.FunctionPart? && q.FunctionPart? && p.name == q.name && Parse(p.args) == Parse(q.args))
  }

  predicate SameParts(a: seq<M.Part>, b: seq<M.Part>) {
    |a| == |b| && forall i :: 0 <= i < |a| ==> SamePart(a[i], b[i])
  }

  predicate Same(f: M.Frame, g: M.Frame) {
    f == g
    || (f.Content? && g.Content? && SameParts(f.chunk.parts, g.chunk.parts)
        && f.chunk == g.chunk.(parts := f.chunk.parts))
  }

  lemma NamesDiffer()
    ensures "error" != "candidates" && "error" != "usageMetadata" && "thought" != "functionCall"
    ensures "finishReason" != "index" && "cachedContentTokenCount" != "totalTokenCount"
  {
  }

  lemma PartLossless(p: M.Part, q: M.Part)
    requires SendablePart(p) && SendablePart(q) && PartValue(p) == PartValue(q)
    ensures SamePart(p, q)
  {
    hide ValidUtf8, Repaired, Parse;
    ValuesDiffer();
    NamesDiffer();
  }

  lemma {:induction false} PartsLossless(a: seq<M.Part>, b: seq<M.Part>)
    requires forall i :: 0 <= i < |a| ==> SendablePart(a[i])
    requires forall i :: 0 <= i < |b| ==> SendablePart(b[i])
    requires PartValues(a) == PartValues(b)
    ensures SameParts(a, b)
  {
    hide SendablePart, PartValue, SamePart;
    if a != [] && b != [] {
      var m, n := |a| - 1, |b| - 1;
      PartsLossless(a[..m], b[..n]);
      PartLossless(a[m], b[n]);
      forall i | 0 <= i < m ensures SamePart(a[i], b[i]) {
        assert SamePart(a[..m][i], b[..n][i]);
      }
    }
  }

  lemma CountsLossless(a: M.Counts, b: M.Counts)
    requires CountsValue(a) == CountsValue(b)
    ensures a == b
  {
    hide Decimal, DecimalValue, Repaired, ValidUtf8;
    ValuesDiffer();
    NamesDiffer();
  }

  lemma CandidateLossless(a: M.Chunk, b: M.Chunk)
    requires Sendable(M.Content(a)) && Sendable(M.Content(b)) && CandidateValue(a) == CandidateValue(b)
    ensures SameParts(a.parts, b.parts) && a.finish == b.finish
  {
    hide Decimal, DecimalValue, Repaired, ValidUtf8, PartValues, SendablePart, SameParts;
    ValuesDiffer();
    NamesDiffer();
    PartsLossless(a.parts, b.parts);
  }

  /** Two frames that mean the same are the same, up to how the arguments' JSON texts are written. */
  lemma Lossless(f: M.Frame, g: M.Frame)
    requires Sendable(f) && Sendable(g) && SentOf(f) == SentOf(g)
    ensures Same(f, g)
  {
    hide Decimal, DecimalValue, Repaired, ValidUtf8, CandidateValue, CountsValue, SendablePart, SameParts, StatusText;
    ValuesDiffer();
    NamesDiffer();
    if f.Content? && g.Content? {
      CandidateLossless(f.chunk, g.chunk);
      CountsLossless(f.chunk.counts, g.chunk.counts);
    }
  }

  /* ---- What a client reads ---- */

  /** A part as a client takes it. */
  datatype Seen = SeenText(text: string, thought: bool) | SeenCall(name: string, args: Value)

  function ReadPart(v: Value): Seen {
    var call := Member(v, "functionCall");
    if call != Null then SeenCall(TextIn(call, "name"), Member(call, "args"))
    else SeenText(TextIn(v, "text"), Member(v, "thought") == Bool(true))
  }

  function ReadParts(items: Items): seq<Seen> {
    match items
    case NoItems => []
    case Item(before, v) => ReadParts(before) + [ReadPart(v)]
  }

  function ReadCounts(v: Value): M.Counts {
    M.Counts(IntIn(v, "promptTokenCount"), IntIn(v, "candidatesTokenCount"), IntIn(v, "totalTokenCount"),
             IntIn(v, "cachedContentTokenCount"))
  }

  /** What the part says; the arguments are read as a value. */
  predicate Says(seen: Seen, p: M.Part) {
    match p
    case TextPart(text, thought) => seen == SeenText(text, thought)
    case FunctionPart(name, args) => Parse(args).Some? && seen == SeenCall(name, Parse(args).value)
  }

  lemma PartNamesDiffer()
    ensures "text" != "thought" && "text" != "functionCall" && "thought" != "functionCall" && "name" != "args"
    ensures "role" != "parts" && "content" != "finishReason" && "content" != "index" && "finishReason" != "index"
    ensures "candidates" != "usageMetadata" && "error" != "candidates" && "error" != "usageMetadata"
    ensures "code" != "message" && "code" != "status" && "message" != "status"
  {
  }

  lemma CountNamesDiffer()
    ensures "promptTokenCount" != "candidatesTokenCount" && "promptTokenCount" != "totalTokenCount"
    ensures "promptTokenCount" != "cachedContentTokenCount" && "candidatesTokenCount" != "totalTokenCount"
    ensures "candidatesTokenCount" != "cachedContentTokenCount" && "totalTokenCount" != "cachedContentTokenCount"
  {
  }

  lemma PartRead(p: M.Part)
    requires SendablePart(p)
    ensures Says(ReadPart(PartValue(p)), p)
  {
    hide In, Repaired, ValidUtf8, Parse, StringOf;
    Lookup();
    Spelled();
    PartNamesDiffer();
    ValidIsRepaired(if p.TextPart? then p.text else p.name);
  }

  lemma {:induction false} PartsRead(parts: seq<M.Part>)
    requires forall i :: 0 <= i < |parts| ==> SendablePart(parts[i])
    ensures var seen := ReadParts(PartValues(parts));
      |seen| == |parts| && forall i :: 0 <= i < |parts| ==> Says(seen[i], parts[i])
  {
    hide SendablePart, PartValue, Says, ReadPart;
    if parts != [] {
      var n := |parts| - 1;
      PartsRead(parts[..n]);
      PartRead(parts[n]);
      forall i | 0 <= i < n ensures Says(ReadParts(PartValues(parts))[i], parts[i]) {
        assert Says(ReadParts(PartValues(parts[..n]))[i], parts[..n][i]);
      }
    }
  }

  lemma CountsRead(counts: M.Counts)
    ensures ReadCounts(CountsValue(counts)) == counts
  {
    hide In, Repaired, Decimal, DecimalValue;
    Lookup();
    Spelled();
    CountNamesDiffer();
  }

  lemma CandidateRead(c: M.Chunk)
    requires Sendable(M.Content(c))
    ensures var v := CandidateValue(c); var content := Member(v, "content");
      && TextIn(v, "finishReason") == c.finish && TextIn(content, "role") == "model"
      && Member(content, "parts") == Arr(PartValues(c.parts))
  {
    hide In, Repaired, Decimal, DecimalValue, ValidUtf8, PartValues, SendablePart;
    Lookup();
    Spelled();
    PartNamesDiffer();
    ValidIsRepaired(c.finish);
  }

  /** A client finds everything under the names that the protocol gives it: the parts in order, the finish
      reason, the counts; or the error. */
  lemma ReadsBack(f: M.Frame)
    requires Sendable(f)
    ensures var v := SentOf(f).v;
      var error, candidate := Member(v, "error"), Only(Member(v, "candidates"));
      match f
      case ErrorFrame(code, message) =>
        error != Null && IntIn(error, "code") == code && TextIn(error, "message") == message
      case Content(c) =>
        var parts := Member(Member(candidate, "content"), "parts");
        && error == Null && parts.Arr?
        && TextIn(candidate, "finishReason") == c.finish
        && ReadCounts(Member(v, "usageMetadata")) == c.counts
        && |ReadParts(parts.items)| == |c.parts|
        && forall i :: 0 <= i < |c.parts| ==> Says(ReadParts(parts.items)[i], c.parts[i])
  {
    hide In, Repaired, Decimal, DecimalValue, StringOf, ValidUtf8, PartValues, CandidateValue, CountsValue;
    hide ReadCounts, ReadParts, Says, SendablePart;
    Lookup();
    Spelled();
    PartNamesDiffer();
    match f
    case ErrorFrame(_, message) => ValidIsRepaired(message);
    case Content(c) =>
      CandidateRead(c);
      CountsRead(c.counts);
      PartsRead(c.parts);
  }

  /* ---- The frames of a run ---- */

  predicate AllSendable(frames: seq<M.Frame>) { forall i :: 0 <= i < |frames| ==> Sendable(frames[i]) }

  lemma FinishReasons(reason: string)
    ensures ValidUtf8(M.MapGeminiFinishReason(reason)) && ValidUtf8("") && ValidUtf8("upstream error")
  {
    hide ValidUtf8;
    assert Plain("MAX_TOKENS") && Plain("STOP") && Plain("");
    BrokenWords();
    UntouchedMarshal("upstream error");
    PlainValid("upstream error");
    PlainValid("MAX_TOKENS");
    PlainValid("STOP");
    PlainValid("");
  }

  /** A chunk that could be encoded. */
  lemma EncodedSendable(s: M.State, p: M.Part)
    requires if p.TextPart? then ValidUtf8(p.text) else ValidUtf8(p.name)
    ensures M.Encoded(M.ChunkOf(s, p), true).Some? ==> Sendable(M.Content(M.Encoded(M.ChunkOf(s, p), true).value))
  {
    hide ValidUtf8, Parse, JsonCompact.Compact, M.BuildUsage;
    FinishReasons(s.finish);
    M.OneEncodes(s, p, true);
    if p.FunctionPart? && Parse(p.args).Some? {
      JsonCompact.CompactKeepsValue(p.args, true);
    }
  }

  lemma PartValid(ev: Event)
    requires ValidEvent(ev) && M.PartOf(ev).Some?
    ensures var p := M.PartOf(ev).value; if p.TextPart? then ValidUtf8(p.text) else ValidUtf8(p.name)
  {
  }

  lemma {:induction false} StreamedSendable(evs: seq<Event>)
    requires ValidEvents(evs)
    ensures AllSendable(M.Contents(M.Streamed(evs)))
  {
    hide Sendable, M.Encoded, M.After, M.ChunkOf, ValidUtf8, ToolArgs;
    if evs != [] {
      var ev := evs[|evs| - 1];
      StreamedSendable(evs[..|evs| - 1]);
      ValidNothing();
      if M.PartOf(ev).Some? {
        PartValid(ev);
      }
      EncodedSendable(M.After(evs), if M.PartOf(ev).Some? then M.PartOf(ev).value else M.NO_TEXT);
      var before, now := M.Streamed(evs[..|evs| - 1]), M.Streamed(evs);
      forall i | 0 <= i < |now| ensures Sendable(M.Contents(now)[i]) {
        if i < |before| {
          assert now[i] == before[i] && Sendable(M.Contents(before)[i]);
        }
      }
    }
  }

  lemma {:induction false} ErrorValid(evs: seq<Event>)
    requires ValidEvents(evs)
    ensures LastError(evs).Some? ==> ValidUtf8(LastError(evs).value.message)
  {
    hide ValidUtf8;
    if evs != [] {
      assert ValidEvent(evs[|evs| - 1]);
      ErrorValid(evs[..|evs| - 1]);
    }
  }

  /** Every frame of a run over valid events can be sent without loss. */
  lemma RunSendable(evs: seq<Event>, ending: Ending, timeoutMessage: string)
    requires ValidEvents(evs) && ValidUtf8(timeoutMessage)
    ensures AllSendable(M.AllFrames(evs, ending, timeoutMessage))
  {
    hide ValidUtf8, ValidEvents, M.Streamed, M.Contents, M.Begun;
    StreamedSendable(evs);
    ErrorValid(evs);
    FinishReasons("");
  }

  /** No two streams mean the same, up to how the arguments' JSON texts are written. */
  lemma AllLossless(fs: seq<M.Frame>, gs: seq<M.Frame>)
    requires AllSendable(fs) && AllSendable(gs) && Sents(fs) == Sents(gs)
    ensures |fs| == |gs| && forall i :: 0 <= i < |fs| ==> Same(fs[i], gs[i])
  {
    hide Sendable, SentOf, Same;
    assert |Sents(fs)| == |Sents(gs)|;
    forall i | 0 <= i < |fs| ensures Same(fs[i], gs[i]) {
      assert Sents(fs)[i] == Sents(gs)[i];
      Lossless(fs[i], gs[i]);
    }
  }
}
