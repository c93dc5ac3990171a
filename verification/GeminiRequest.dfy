/** gemini.go: from the contents of a Gemini request to chat messages. */
module GeminiRequest {
  import opened Text
  import opened Upstream
  import opened Json
  import opened JsonPrinter
  import opened Chat
  import opened Transcript
  import opened Identifiers

  /** A decoded string is valid UTF-8. */
  type Utf8String = s: string | ValidUtf8(s)

  /** A part, by the first of its fields that is set. */
  datatype Piece =
    | InlineData(mimeType: string, data: string)
    | FunctionCall(name: string, args: string)
    | FunctionResponse(name: string, response: string)
    | TextPiece(text: Utf8String, thought: bool)

  datatype GeminiContent = GeminiContent(role: string, parts: seq<Piece>)

  /** A piece and whether the model said it. */
  datatype Turn = Turn(model: bool, piece: Piece)

  function TurnsOf(c: GeminiContent): seq<Turn> {
    seq(|c.parts|, i requires 0 <= i < |c.parts| => Turn(c.role == "model", c.parts[i]))
  }

  function Flat(contents: seq<GeminiContent>): seq<Turn> {
    if contents == [] then [] else Flat(contents[..|contents| - 1]) + TurnsOf(contents[|contents| - 1])
  }

  /** The content of a user message that holds an image. */
  function ImageContent(mimeType: string, data: string): string {
    var url := "data:" + mimeType + ";base64," + data;
    Print(Arr(Item(NoItems, Obj(NoFields
          .And("image_url", Obj(NoFields.And("url", StrValue(url)))).And("type", Str("image_url"))))))
  }

  /* ---- Runs: what lies between two flush points ---- */

  predicate Flushes(it: Turn) {
    it.piece.InlineData? || it.piece.FunctionResponse? || (it.piece.TextPiece? && it.piece.text != "" && !it.model)
  }

  function CallId(random: Hex, i: nat): string { "call_" + random(i) }

  /** The identifier of the last call with this name. */
  function LastCallID(random: Hex, turns: seq<Turn>, name: string): Option<string> {
    if turns == [] then None else
      var n := |turns| - 1;
      if turns[n].piece.FunctionCall? && turns[n].piece.name == name then Some(CallId(random, n))
      else LastCallID(random, turns[..n], name)
  }

  function ResponseID(random: Hex, turns: seq<Turn>, n: nat): string
    requires n < |turns| && turns[n].piece.FunctionResponse?
  {
    var last := LastCallID(random, turns[..n], turns[n].piece.name);
    if last.Some? then last.value else CallId(random, n)
  }

  function FlushMessage(random: Hex, turns: seq<Turn>, n: nat): Message
    requires n < |turns|
  {
    match turns[n].piece
    case InlineData(mimeType, data) => TextMessage("user", ImageContent(mimeType, data))
    case FunctionResponse(_, response) => ToolMessage(ResponseID(random, turns, n), Encoded(response), "")
    case TextPiece(text, _) => TextMessage("user", Encoded(text))
    case FunctionCall(_, _) => TextMessage("user", "")
  }

  function RunStart(turns: seq<Turn>): (k: nat)
    ensures k <= |turns|
    ensures k > 0 ==> Flushes(turns[k - 1])
    ensures forall i :: k <= i < |turns| ==> !Flushes(turns[i])
  {
    if turns == [] then 0
    else if Flushes(turns[|turns| - 1]) then |turns|
    else RunStart(turns[..|turns| - 1])
  }

  /** The model's text, or thoughts, from item k on. */
  function RunText(turns: seq<Turn>, k: nat, thought: bool): string {
    if |turns| <= k then "" else
      var it := turns[|turns| - 1];
      RunText(turns[..|turns| - 1], k, thought)
      + if it.model && it.piece.TextPiece? && it.piece.thought == thought then it.piece.text else ""
  }

  function CallsFrom(random: Hex, turns: seq<Turn>, k: nat): seq<Call> {
    if |turns| <= k then [] else
      var n := |turns| - 1;
      CallsFrom(random, turns[..n], k)
      + match turns[n].piece case FunctionCall(name, args) => [Call(CallId(random, n), name, args)] case _ => []
  }

  function Assistant(text: string, thoughts: string, calls: seq<Call>): Message {
    Message("assistant", if text == "" then "" else Encoded(text), "", "", thoughts, "", calls)
  }

  /** The one message that a run becomes; a run of thoughts alone becomes none. */
  function RunMessage(random: Hex, turns: seq<Turn>, k: nat): seq<Message> {
    var text, calls := RunText(turns, k, false), CallsFrom(random, turns, k);
    if text == "" && calls == [] then [] else [Assistant(text, RunText(turns, k, true), calls)]
  }

  /** The messages of a request, read run by run. */
  function Messages(random: Hex, base: seq<Message>, turns: seq<Turn>): seq<Message>
    decreases |turns|
  {
    var k := RunStart(turns);
    (if k == 0 then base else Messages(random, base, turns[..k - 1]) + [FlushMessage(random, turns, k - 1)])
    + RunMessage(random, turns, k)
  }

  /* ---- The loops ---- */

  function Pending(random: Hex, turns: seq<Turn>, k: nat): Option<Message> {
    var text, thoughts, calls := RunText(turns, k, false), RunText(turns, k, true), CallsFrom(random, turns, k);
    if text == "" && thoughts == "" && calls == [] then None else Some(Assistant(text, thoughts, calls))
  }

  ghost predicate Reached(random: Hex, base: seq<Message>, turns: seq<Turn>, out: seq<Message>,
                          pending: Option<Message>) {
    var k := RunStart(turns);
    && out == (if k == 0 then base else Messages(random, base, turns[..k - 1]) + [FlushMessage(random, turns, k - 1)])
    && pending == Pending(random, turns, k)
  }

  ghost predicate Knows(random: Hex, turns: seq<Turn>, lastCallID: map<string, string>) {
    forall name :: LastCallID(random, turns, name) == if name in lastCallID then Some(lastCallID[name]) else None
  }

  /** flushPending: what is written out. */
  method Flushed(out: seq<Message>, pending: Option<Message>) returns (r: seq<Message>)
    ensures r == if pending.None? || (pending.value.content == "" && pending.value.calls == []) then out
                 else out + [pending.value]
  {
    if pending.None? {
      return out;
    }
    if pending.value.content == "" && |pending.value.calls| == 0 {
      return out;
    }
    return out + [pending.value];
  }

  lemma FlushedIs(random: Hex, base: seq<Message>, turns: seq<Turn>, out: seq<Message>, pending: Option<Message>)
    requires Reached(random, base, turns, out, pending)
    ensures Messages(random, base, turns)
            == if pending.None? || (pending.value.content == "" && pending.value.calls == []) then out
               else out + [pending.value]
  {
    hide Encoded, RunText, CallsFrom, FlushMessage, RunStart;
  }

  lemma Begin(random: Hex, base: seq<Message>)
    ensures Reached(random, base, [], base, None) && Knows(random, [], map[])
  {
  }

  lemma KnowsStep(random: Hex, turns: seq<Turn>, n: nat, lastCallID: map<string, string>)
    requires n < |turns| && Knows(random, turns[..n], lastCallID)
    ensures Knows(random, turns[..n + 1],
                  if turns[n].piece.FunctionCall? then lastCallID[turns[n].piece.name := CallId(random, n)]
                  else lastCallID)
  {
    hide CallId;
    assert turns[..n + 1][..n] == turns[..n];
  }

  lemma ReachedFlush(random: Hex, base: seq<Message>, turns: seq<Turn>, n: nat)
    requires n < |turns| && Flushes(turns[n])
    ensures Reached(random, base, turns[..n + 1],
                    Messages(random, base, turns[..n]) + [FlushMessage(random, turns, n)], None)
  {
    hide Messages;
    var now := turns[..n + 1];
    assert RunStart(now) == n + 1 && now[..n] == turns[..n];
  }

  /** A piece of the model's extends the run. */
  lemma ReachedStep(random: Hex, base: seq<Message>, turns: seq<Turn>, n: nat, out: seq<Message>,
                    pending: Option<Message>)
    requires n < |turns| && !Flushes(turns[n]) && Reached(random, base, turns[..n], out, pending)
    ensures Reached(random, base, turns[..n + 1], out, Pending(random, turns[..n + 1], RunStart(turns[..n])))
    ensures pending == Pending(random, turns[..n], RunStart(turns[..n]))
  {
    hide Messages, Pending;
    var now, before := turns[..n + 1], turns[..n];
    assert now[..n] == before;
    assert RunStart(now) == RunStart(before);
    var k := RunStart(before);
    if k > 0 {
      assert now[..k - 1] == before[..k - 1] && now[..k - 1] == turns[..k - 1];
      assert FlushMessage(random, now, k - 1) == FlushMessage(random, before, k - 1);
    }
  }

  /** The pending message after one more piece of the model's. */
  lemma PendingStep(random: Hex, turns: seq<Turn>, n: nat, k: nat)
    requires k <= n < |turns|
    ensures var it, now, before := turns[n], turns[..n + 1], turns[..n];
      var said := it.model && it.piece.TextPiece?;
      && RunText(now, k, false)
         == (if said && !it.piece.thought then RunText(before, k, false) + it.piece.text else RunText(before, k, false))
      && RunText(now, k, true)
         == (if said && it.piece.thought then RunText(before, k, true) + it.piece.text else RunText(before, k, true))
      && CallsFrom(random, now, k)
         == if it.piece.FunctionCall? then
              CallsFrom(random, before, k) + [Call(CallId(random, n), it.piece.name, it.piece.args)]
            else CallsFrom(random, before, k)
  {
    assert turns[..n + 1][..n] == turns[..n];
    var before, it := turns[..n], turns[n];
    assert RunText(before, k, false) + "" == RunText(before, k, false);
    assert RunText(before, k, true) + "" == RunText(before, k, true);
    assert CallsFrom(random, before, k) + [] == CallsFrom(random, before, k);
  }

  lemma {:induction false} RunTextValid(turns: seq<Turn>, k: nat, thought: bool)
    ensures ValidUtf8(RunText(turns, k, thought))
  {
    if |turns| > k {
      var it := turns[|turns| - 1];
      RunTextValid(turns[..|turns| - 1], k, thought);
      ValidAppend(RunText(turns[..|turns| - 1], k, thought),
                  if it.model && it.piece.TextPiece? && it.piece.thought == thought then it.piece.text else "");
    }
  }

  /** More text: the content is decoded, extended and encoded again. */
  method AddText(content: string, text: string, ghost so: string) returns (r: string)
    requires content == (if so == "" then "" else Encoded(so)) && ValidUtf8(so)
    ensures r == Encoded(so + text)
  {
    hide Encoded, Decoded, Repaired, ValidUtf8;
    EncodedSome(so);
    if |content| == 0 {
      assert so + text == text;
      return Encoded(text);
    }
    DecodeEncoded(so);
    ValidIsRepaired(so);
    var prev := Decoded(content);
    return if prev.Some? then Encoded(prev.value + text) else Encoded(text);
  }

  lemma EncodedSome(s: string)
    ensures Encoded(s) != ""
  {
  }

  const NEW_ASSISTANT := TextMessage("assistant", "")

  /** The body of the loops: one part. */
  method Handle(random: Hex, ghost base: seq<Message>, ghost turns: seq<Turn>, n: nat, it: Turn,
                out0: seq<Message>, pending0: Option<Message>, lastCallID0: map<string, string>)
    returns (out: seq<Message>, pending: Option<Message>, lastCallID: map<string, string>)
    requires n < |turns| && turns[n] == it
    requires Reached(random, base, turns[..n], out0, pending0) && Knows(random, turns[..n], lastCallID0)
    ensures Reached(random, base, turns[..n + 1], out, pending) && Knows(random, turns[..n + 1], lastCallID)
  {
    hide Messages, Reached, Knows, Encoded, RunText, CallsFrom, ImageContent, CallId, RunStart, LastCallID;
    out, pending, lastCallID := out0, pending0, lastCallID0;
    ghost var k := RunStart(turns[..n]);
    FlushedIs(random, base, turns[..n], out, pending);
    KnowsStep(random, turns, n, lastCallID);
    StartWithin(turns[..n]);
    PendingStep(random, turns, n, k);
    match it.piece {
      case InlineData(mimeType, data) =>
        ReachedFlush(random, base, turns, n);
        out := Flushed(out, pending);
        out, pending := out + [TextMessage("user", ImageContent(mimeType, data))], None;
      case FunctionCall(name, args) =>
        ReachedStep(random, base, turns, n, out, pending);
        var p := if pending.Some? then pending.value else NEW_ASSISTANT;
        var id := "call_" + random(n);
        CallIdIs(random, n);
        lastCallID := lastCallID[name := id];
        pending := Some(p.(calls := p.calls + [Call(id, name, args)]));
      case FunctionResponse(name, response) =>
        ReachedFlush(random, base, turns, n);
        out := Flushed(out, pending);
        var id := if name in lastCallID then lastCallID[name] else "";
        KnownID(random, turns[..n], name, lastCallID);
        CallIdIs(random, n);
        if id == "" {
          id := "call_" + random(n);
        }
        out, pending := out + [ToolMessage(id, Encoded(response), "")], None;
      case TextPiece(text, thought) =>
        if text == "" {
          ReachedStep(random, base, turns, n, out, pending);
          NothingAdded(turns, n, k);
        } else if it.model {
          ReachedStep(random, base, turns, n, out, pending);
          var p := if pending.Some? then pending.value else NEW_ASSISTANT;
          if thought {
            pending := Some(p.(reasoning := p.reasoning + text));
          } else {
            RunTextValid(turns[..n], k, false);
            var content := AddText(p.content, text, RunText(turns[..n], k, false));
            pending := Some(p.(content := content));
          }
        } else {
          ReachedFlush(random, base, turns, n);
          out := Flushed(out, pending);
          out, pending := out + [TextMessage("user", Encoded(text))], None;
        }
    }
  }

  lemma StartWithin(turns: seq<Turn>)
    ensures RunStart(turns) <= |turns|
  {
  }

  lemma CallIdIs(random: Hex, n: nat)
    ensures CallId(random, n) == "call_" + random(n) && CallId(random, n) != ""
  {
  }

  lemma {:induction false} KnownID(random: Hex, turns: seq<Turn>, name: string, lastCallID: map<string, string>)
    requires Knows(random, turns, lastCallID)
    ensures LastCallID(random, turns, name) == if name in lastCallID then Some(lastCallID[name]) else None
    ensures LastCallID(random, turns, name) != Some("")
  {
    NeverEmpty(random, turns, name);
  }

  lemma {:induction false} NeverEmpty(random: Hex, turns: seq<Turn>, name: string)
    ensures LastCallID(random, turns, name) != Some("")
  {
    if turns != [] {
      NeverEmpty(random, turns[..|turns| - 1], name);
    }
  }

  lemma NothingAdded(turns: seq<Turn>, n: nat, k: nat)
    requires k <= n < |turns| && turns[n].piece.TextPiece? && turns[n].piece.text == ""
    ensures RunText(turns[..n + 1], k, false) == RunText(turns[..n], k, false)
    ensures RunText(turns[..n + 1], k, true) == RunText(turns[..n], k, true)
  {
    assert turns[..n + 1][..n] == turns[..n];
    assert RunText(turns[..n], k, false) + "" == RunText(turns[..n], k, false);
    assert RunText(turns[..n], k, true) + "" == RunText(turns[..n], k, true);
  }

  lemma {:induction false} FlatPrefix(contents: seq<GeminiContent>, c: nat)
    requires c <= |contents|
    ensures Flat(contents[..c]) <= Flat(contents)
  {
    if c == |contents| {
      assert contents[..c] == contents;
    } else {
      var before := contents[..|contents| - 1];
      assert before[..c] == contents[..c];
      FlatPrefix(before, c);
      PrefixSnoc(Flat(contents[..c]), Flat(before), TurnsOf(contents[|contents| - 1]));
    }
  }

  lemma FlatAt(contents: seq<GeminiContent>, c: nat, p: nat)
    requires c < |contents| && p < |contents[c].parts|
    ensures var n := |Flat(contents[..c])| + p;
      n < |Flat(contents)| && Flat(contents)[n] == Turn(contents[c].role == "model", contents[c].parts[p])
  {
    FlatPrefix(contents, c + 1);
    assert contents[..c + 1][..c] == contents[..c];
    var turns := Flat(contents[..c + 1]);
    assert turns[|Flat(contents[..c])| + p] == TurnsOf(contents[c])[p];
  }

  lemma FlatNext(contents: seq<GeminiContent>, c: nat)
    requires c < |contents|
    ensures |Flat(contents[..c + 1])| == |Flat(contents[..c])| + |contents[c].parts|
  {
    assert contents[..c + 1][..c] == contents[..c];
  }

  function Base(system: string): seq<Message> {
    if system == "" then [] else [TextMessage("system", Encoded(system))]
  }

  /** convertGeminiToChat, for the messages; the n-th part of the request draws the n-th random string, if
      it draws one. */
  method Convert(system: string, contents: seq<GeminiContent>, random: Hex) returns (out: seq<Message>)
    ensures out == Messages(random, Base(system), Flat(contents))
  {
    hide Messages, Reached, Knows, Flat, Encoded;
    ghost var turns, base := Flat(contents), Base(system);
    out := [];
    if system != "" {
      out := out + [TextMessage("system", Encoded(system))];
    }
    assert out == base;
    var lastCallID: map<string, string> := map[];
    var pending: Option<Message> := None;
    Begin(random, base);
    FlatNothing();
    assert turns[..0] == [] && contents[..0] == [];
    var n := 0;
    for c := 0 to |contents|
      invariant n == |Flat(contents[..c])| <= |turns|
      invariant Reached(random, base, turns[..n], out, pending) && Knows(random, turns[..n], lastCallID)
    {
      var parts := contents[c].parts;
      for p := 0 to |parts|
        invariant n == |Flat(contents[..c])| + p <= |turns|
        invariant Reached(random, base, turns[..n], out, pending) && Knows(random, turns[..n], lastCallID)
      {
        FlatAt(contents, c, p);
        out, pending, lastCallID :=
          Handle(random, base, turns, n, Turn(contents[c].role == "model", parts[p]), out, pending, lastCallID);
        n := n + 1;
      }
      FlatNext(contents, c);
    }
    assert contents[..|contents|] == contents && turns[..|turns|] == turns;
    FlushedIs(random, base, turns, out, pending);
    out := Flushed(out, pending);
  }

  lemma FlatNothing()
    ensures Flat([]) == []
  {
  }

  /* ---- Calls and results ---- */

  function MarkOf(random: Hex, turns: seq<Turn>, n: nat): seq<Mark>
    requires n < |turns|
  {
    match turns[n].piece
    case FunctionCall(name, args) => [Called(Call(CallId(random, n), name, args))]
    case FunctionResponse(_, response) => [Returned(ResponseID(random, turns, n), "", Repaired(response))]
    case _ => []
  }

  function Marks(random: Hex, turns: seq<Turn>): seq<Mark> {
    if turns == [] then [] else Marks(random, turns[..|turns| - 1]) + MarkOf(random, turns, |turns| - 1)
  }

  lemma {:induction false} RunMarks(random: Hex, turns: seq<Turn>, k: nat)
    requires k <= |turns| && forall i :: k <= i < |turns| ==> !Flushes(turns[i])
    ensures Marks(random, turns) == Marks(random, turns[..k]) + CallMarks(CallsFrom(random, turns, k))
  {
    hide Flushes, ResponseID;
    if |turns| == k {
      assert turns[..k] == turns;
      assert Marks(random, turns) + [] == Marks(random, turns);
    } else {
      var n := |turns| - 1;
      RunMarks(random, turns[..n], k);
      assert turns[..n][..k] == turns[..k] && !Flushes(turns[n]);
      NotResponse(turns[n]);
      var calls := CallsFrom(random, turns[..n], k);
      assert calls + [] == calls;
      Assoc3(Marks(random, turns[..k]), CallMarks(calls), MarkOf(random, turns, n));
    }
  }

  lemma NotResponse(it: Turn)
    requires !Flushes(it)
    ensures !it.piece.FunctionResponse?
  {
  }

  lemma RunTrail(dec: Decoder, random: Hex, turns: seq<Turn>, k: nat, before: seq<Message>)
    ensures Trail(dec, before + RunMessage(random, turns, k))
            == Trail(dec, before) + CallMarks(CallsFrom(random, turns, k))
  {
    hide Trail, CallsFrom, RunText, Encoded, ResultText;
    var m := RunMessage(random, turns, k);
    if m != [] {
      TrailSnoc(dec, before, m[0]);
    } else {
      assert before + [] == before;
    }
  }

  lemma FlushMarks(dec: Decoder, random: Hex, turns: seq<Turn>, n: nat)
    requires n < |turns| && Flushes(turns[n])
    ensures MarksOf(dec, FlushMessage(random, turns, n)) == MarkOf(random, turns, n)
  {
    hide ResultText, Encoded, ResponseID, ImageContent, Repaired;
    if turns[n].piece.FunctionResponse? {
      TextSurvives(dec, turns[n].piece.response);
    }
  }

  /** The chat has exactly the calls and results of the request, in their order, and the upstream reads
      the text of each result as it was. */
  lemma {:induction false} TrailKept(dec: Decoder, random: Hex, base: seq<Message>, turns: seq<Turn>)
    requires Trail(dec, base) == []
    ensures Trail(dec, Messages(random, base, turns)) == Marks(random, turns)
    decreases |turns|, 0
  {
    hide Trail, CallsFrom, FlushMessage, Flushes, RunMessage, MarksOf, MarkOf;
    var k := RunStart(turns);
    RunMarks(random, turns, k);
    if k == 0 {
      RunTrail(dec, random, turns, k, base);
    } else {
      PlacedBefore(dec, random, base, turns[..k]);
      SameFlush(random, turns, k);
      RunTrail(dec, random, turns, k, Messages(random, base, turns[..k - 1]) + [FlushMessage(random, turns, k - 1)]);
      assert turns[..k][..k - 1] == turns[..k - 1];
    }
  }

  lemma SameFlush(random: Hex, turns: seq<Turn>, k: nat)
    requires 0 < k <= |turns|
    ensures FlushMessage(random, turns[..k], k - 1) == FlushMessage(random, turns, k - 1)
  {
    assert turns[..k][..k - 1] == turns[..k - 1];
  }

  lemma {:induction false} PlacedBefore(dec: Decoder, random: Hex, base: seq<Message>, turns: seq<Turn>)
    requires Trail(dec, base) == [] && turns != [] && Flushes(turns[|turns| - 1])
    ensures var n := |turns| - 1; var before := Messages(random, base, turns[..n]);
      && Trail(dec, before) == Marks(random, turns[..n])
      && Trail(dec, before + [FlushMessage(random, turns, n)]) == Marks(random, turns)
    decreases |turns| - 1, 1
  {
    hide Trail, Messages, FlushMessage, Flushes, MarksOf, MarkOf;
    var n := |turns| - 1;
    TrailKept(dec, random, base, turns[..n]);
    TrailSnoc(dec, Messages(random, base, turns[..n]), FlushMessage(random, turns, n));
    FlushMarks(dec, random, turns, n);
  }

  /** The result of a response has its own message, which everything called or returned before it
      precedes. */
  lemma ResultPlaced(dec: Decoder, random: Hex, base: seq<Message>, turns: seq<Turn>, j: nat)
    requires Trail(dec, base) == [] && j < |turns| && turns[j].piece.FunctionResponse?
    ensures var before := Messages(random, base, turns[..j]);
      && before + [FlushMessage(random, turns, j)] <= Messages(random, base, turns)
      && MarksOf(dec, FlushMessage(random, turns, j)) == MarkOf(random, turns, j)
      && Trail(dec, before) == Marks(random, turns[..j])
  {
    hide Trail, Messages, Marks, FlushMessage, MarksOf, MarkOf;
    TrailKept(dec, random, base, turns[..j]);
    FlushIsPrefix(random, base, turns, j);
    FlushMarks(dec, random, turns, j);
  }

  lemma {:induction false} FlushIsPrefix(random: Hex, base: seq<Message>, turns: seq<Turn>, j: nat)
    requires j < |turns| && Flushes(turns[j])
    ensures Messages(random, base, turns[..j]) + [FlushMessage(random, turns, j)] <= Messages(random, base, turns)
    decreases |turns|
  {
    hide Flushes, FlushMessage, RunMessage;
    var k := RunStart(turns);
    assert j < k;
    var upTo := Messages(random, base, turns[..k - 1]) + [FlushMessage(random, turns, k - 1)];
    PrefixSnoc(upTo, upTo, RunMessage(random, turns, k));
    if j < k - 1 {
      FlushIsPrefix(random, base, turns[..k - 1], j);
      assert turns[..k - 1][..j] == turns[..j];
      SameFlush(random, turns, j + 1);
      assert turns[..k - 1][..j + 1] == turns[..j + 1];
      SameFlush(random, turns[..k - 1], j + 1);
      PrefixSnoc(Messages(random, base, turns[..j]) + [FlushMessage(random, turns, j)],
                 Messages(random, base, turns[..k - 1]), [FlushMessage(random, turns, k - 1)]);
    }
  }

  /** The identifier that the most recent call with this name has among some marks. */
  function LastNamed(marks: seq<Mark>, name: string): Option<string> {
    if marks == [] then None else
      var last := marks[|marks| - 1];
      if last.Called? && last.call.name == name then Some(last.call.id) else LastNamed(marks[..|marks| - 1], name)
  }

  lemma LastNamedSnoc(marks: seq<Mark>, m: Mark, name: string)
    ensures LastNamed(marks + [m], name)
            == if m.Called? && m.call.name == name then Some(m.call.id) else LastNamed(marks, name)
  {
    assert (marks + [m])[..|marks|] == marks;
  }

  /** A result carries the identifier of the most recent earlier call with its name, whose message thus
      comes first; without such a call it draws its own. */
  lemma {:induction false} Paired(random: Hex, turns: seq<Turn>, name: string)
    ensures LastCallID(random, turns, name) == LastNamed(Marks(random, turns), name)
  {
    hide CallId, ResponseID;
    if turns != [] {
      var n := |turns| - 1;
      Paired(random, turns[..n], name);
      var before := Marks(random, turns[..n]);
      if MarkOf(random, turns, n) != [] {
        LastNamedSnoc(before, MarkOf(random, turns, n)[0], name);
      } else {
        assert before + [] == before;
      }
    }
  }

  /* ---- What is said ---- */

  /** The JSON value of a list with one image. */
  function ImageValue(url: string): Value {
    Arr(Item(NoItems, Obj(NoFields
        .And("image_url", Obj(NoFields.And("url", Str(url)))).And("type", Str("image_url")))))
  }

  /** json.Unmarshal reads such a list as one part. */
  ghost predicate ReadsImages(dec: Decoder) {
    forall text: string, url: string :: Parse(text) == Some(ImageValue(url)) ==>
      dec(text) == Some([Part("image_url", "", "", Some(url), "")])
  }

  function DataURL(mimeType: string, data: string): string { "data:" + mimeType + ";base64," + data }

  lemma {:induction false} ImageReads(mimeType: string, data: string)
    ensures Parse(ImageContent(mimeType, data)) == Some(ImageValue(Repaired(DataURL(mimeType, data))))
  {
    hide Parse, Print, Repaired, ValidUtf8;
    var url := Repaired(DataURL(mimeType, data));
    RepairedValid(DataURL(mimeType, data));
    PlainValid();
    ProperImage(url);
    RoundTrip(ImageValue(url));
    assert "data:" + mimeType + ";base64," + data == DataURL(mimeType, data);
  }

  lemma PlainValid()
    ensures ValidUtf8("image_url") && ValidUtf8("url") && ValidUtf8("type")
  {
    hide ValidUtf8;
    assert ValidUtf8("image_url") by {
      PlainIsValid("image_url");
    }
    assert ValidUtf8("url") by {
      PlainIsValid("url");
    }
    assert ValidUtf8("type") by {
      PlainIsValid("type");
    }
  }

  lemma {:induction false} PlainIsValid(s: string)
    requires forall i :: 0 <= i < |s| ==> s[i] < '\U{80}'
    ensures ValidUtf8(s)
  {
    if s != "" {
      PlainIsValid(s[1..]);
    }
  }

  lemma ProperImage(url: string)
    requires ValidUtf8(url) && ValidUtf8("image_url") && ValidUtf8("url") && ValidUtf8("type")
    ensures Proper(ImageValue(url))
  {
    hide ValidUtf8;
    var inner := NoFields.And("url", Str(url));
    assert ProperFields(inner);
    var outer := NoFields.And("image_url", Obj(inner));
    assert Proper(Obj(inner)) && ProperFields(outer);
    var o := Obj(outer.And("type", Str("image_url")));
    assert Proper(Str("image_url")) && Proper(o);
    assert ProperItems(NoItems) && ProperItems(Item(NoItems, o));
  }

  lemma ImageTrimmed(mimeType: string, data: string)
    ensures var c := ImageContent(mimeType, data); Trim(c) == c && c != "" && c[0] == '['
  {
    hide PrintItems, Repaired;
    TrimFixed(ImageContent(mimeType, data));
  }

  /** An image is read by the second pass as that image, with its type and its data. */
  lemma ImageSpeaks(dec: Decoder, mimeType: string, data: string)
    requires ReadsImages(dec)
    ensures Spoken(dec, TextMessage("user", ImageContent(mimeType, data)))
            == [Line("user", Picture(Repaired(DataURL(mimeType, data))))]
  {
    hide ImageContent, ImageValue, Parse, Trim, Repaired, DataURL, Decoded, ResultText, AssistantLines;
    ImageReads(mimeType, data);
    ImageTrimmed(mimeType, data);
    var c := ImageContent(mimeType, data);
    assert c != "null" by {
      assert "null"[0] == 'n';
    }
    assert ContentParts(dec, c) == [Part("image_url", "", "", Some(Repaired(DataURL(mimeType, data))), "")];
  }

  /** What a piece that ends a run says. */
  function FlushLines(random: Hex, turns: seq<Turn>, n: nat): seq<Line>
    requires n < |turns|
  {
    match turns[n].piece
    case InlineData(mimeType, data) => [Line("user", Picture(Repaired(DataURL(mimeType, data))))]
    case FunctionResponse(_, response) => [Line("tool", Outcome(ResponseID(random, turns, n), Repaired(response)))]
    case TextPiece(text, _) => [Line("user", Words(text))]
    case FunctionCall(_, _) => []
  }

  function RunLines(random: Hex, turns: seq<Turn>, k: nat): seq<Line> {
    var text, calls := RunText(turns, k, false), CallsFrom(random, turns, k);
    if text == "" && calls == [] then [] else AssistantSays(text, RunText(turns, k, true), calls)
  }

  /** What the contents say, run by run. */
  function Lines(random: Hex, turns: seq<Turn>): seq<Line>
    decreases |turns|
  {
    var k := RunStart(turns);
    (if k == 0 then [] else Lines(random, turns[..k - 1]) + FlushLines(random, turns, k - 1))
    + RunLines(random, turns, k)
  }

  lemma FlushSpeaks(dec: Decoder, random: Hex, turns: seq<Turn>, n: nat)
    requires n < |turns| && Flushes(turns[n]) && ReadsImages(dec)
    ensures Spoken(dec, FlushMessage(random, turns, n)) == FlushLines(random, turns, n)
  {
    hide Spoken, Encoded, ResultText, Repaired, ResponseID, ImageContent, DataURL, ReadsImages;
    match turns[n].piece
    case InlineData(mimeType, data) => ImageSpeaks(dec, mimeType, data);
    case FunctionResponse(_, response) =>
      ToolSpeaks(dec, ResponseID(random, turns, n), Encoded(response), "");
      TextSurvives(dec, response);
    case TextPiece(text, _) =>
      UserSpeaks(dec, text);
      ValidIsRepaired(text);
    case _ =>
  }

  lemma RunSpeaks(dec: Decoder, random: Hex, turns: seq<Turn>, k: nat, before: seq<Message>)
    ensures AllSpoken(dec, before + RunMessage(random, turns, k))
            == AllSpoken(dec, before) + RunLines(random, turns, k)
  {
    hide AllSpoken, Spoken, CallsFrom, RunText, Encoded, AssistantSays;
    var m := RunMessage(random, turns, k);
    if m != [] {
      AssistantSpeaks(dec, RunText(turns, k, false), RunText(turns, k, true), CallsFrom(random, turns, k));
      SpokenSnoc(dec, before, m[0]);
    } else {
      assert before + [] == before;
    }
  }

  /** The chat says what the contents say. */
  lemma {:induction false} SpeechKept(dec: Decoder, random: Hex, base: seq<Message>, turns: seq<Turn>)
    requires AllSpoken(dec, base) == [] && ReadsImages(dec)
    ensures AllSpoken(dec, Messages(random, base, turns)) == Lines(random, turns)
    decreases |turns|
  {
    hide AllSpoken, Spoken, CallsFrom, RunText, FlushMessage, FlushLines, Flushes, RunMessage, RunLines, ReadsImages;
    var k := RunStart(turns);
    if k == 0 {
      RunSpeaks(dec, random, turns, 0, base);
    } else {
      var before := Messages(random, base, turns[..k - 1]);
      SpeechKept(dec, random, base, turns[..k - 1]);
      SpokenSnoc(dec, before, FlushMessage(random, turns, k - 1));
      FlushSpeaks(dec, random, turns, k - 1);
      RunSpeaks(dec, random, turns, k, before + [FlushMessage(random, turns, k - 1)]);
    }
  }

  /** What the user says, piece by piece: texts that the model did not say, and all images. */
  function UserSays(turns: seq<Turn>): seq<Line> {
    if turns == [] then [] else
      UserSays(turns[..|turns| - 1]) + UserSaid(turns[|turns| - 1])
  }

  function UserSaid(it: Turn): seq<Line> {
    match it.piece
    case InlineData(mimeType, data) =>
      [Line("user", Picture(Repaired("data:" + mimeType + ";base64," + data)))]
    case TextPiece(text, _) => if it.model || text == "" then [] else [Line("user", Words(text))]
    case _ => []
  }

  /** All that the user says is among the lines, in order, and nothing else is the user's. */
  lemma {:induction false} UserHeard(random: Hex, turns: seq<Turn>)
    ensures ByUser(Lines(random, turns)) == UserSays(turns)
    decreases |turns|
  {
    hide CallsFrom, RunText, FlushLines, Flushes, RunLines, ByUser, UserSays, UserSaid;
    var k := RunStart(turns);
    NotUsers(random, turns, k);
    NoUserInRun(turns, k);
    if k == 0 {
      assert Lines(random, turns) == RunLines(random, turns, 0);
      NoUser();
      assert turns[..0] == [];
    } else {
      var before := Lines(random, turns[..k - 1]);
      UserHeard(random, turns[..k - 1]);
      FlushByUser(random, turns, k - 1);
      UserSaysNext(turns, k - 1);
      ByUserAppend(before, FlushLines(random, turns, k - 1));
      ByUserAppend(before + FlushLines(random, turns, k - 1), RunLines(random, turns, k));
    }
  }

  lemma NoUser()
    ensures UserSays([]) == []
  {
  }

  lemma NotUsers(random: Hex, turns: seq<Turn>, k: nat)
    ensures ByUser(RunLines(random, turns, k)) == []
  {
    hide ByUser, Repaired, RunText, CallsFrom;
    NotByUser(RunLines(random, turns, k));
  }

  lemma UserSaysNext(turns: seq<Turn>, n: nat)
    requires n < |turns|
    ensures UserSays(turns[..n + 1]) == UserSays(turns[..n]) + UserSaid(turns[n])
  {
    hide UserSaid;
    assert turns[..n + 1][..n] == turns[..n];
  }

  lemma FlushByUser(random: Hex, turns: seq<Turn>, n: nat)
    requires n < |turns| && Flushes(turns[n])
    ensures ByUser(FlushLines(random, turns, n)) == UserSaid(turns[n])
  {
    hide Repaired, ResponseID;
    var lines := FlushLines(random, turns, n);
    if lines != [] {
      assert lines[..0] == [];
    }
  }

  lemma {:induction false} NoUserInRun(turns: seq<Turn>, k: nat)
    requires k <= |turns| && forall i :: k <= i < |turns| ==> !Flushes(turns[i])
    ensures UserSays(turns) == UserSays(turns[..k])
  {
    hide Flushes, UserSaid;
    if |turns| == k {
      assert turns[..k] == turns;
    } else {
      var n := |turns| - 1;
      NoUserInRun(turns[..n], k);
      assert turns[..n][..k] == turns[..k] && !Flushes(turns[n]);
      NotFlushed(turns[n]);
    }
  }

  lemma NotFlushed(it: Turn)
    requires !Flushes(it)
    ensures UserSaid(it) == []
  {
  }

  /** The same, content by content. */
  function ContentSays(c: GeminiContent): seq<Line> {
    PartsSay(c.role, c.parts)
  }

  function PartsSay(role: string, parts: seq<Piece>): seq<Line> {
    if parts == [] then [] else
      PartsSay(role, parts[..|parts| - 1])
      + match parts[|parts| - 1]
        case InlineData(mimeType, data) =>
          [Line("user", Picture(Repaired("data:" + mimeType + ";base64," + data)))]
        case TextPiece(text, _) => if role == "model" || text == "" then [] else [Line("user", Words(text))]
        case _ => []
  }

  function ContentsSay(contents: seq<GeminiContent>): seq<Line> {
    if contents == [] then [] else
      ContentsSay(contents[..|contents| - 1]) + ContentSays(contents[|contents| - 1])
  }

  lemma {:induction false} UserSaysAppend(a: seq<Turn>, b: seq<Turn>)
    ensures UserSays(a + b) == UserSays(a) + UserSays(b)
  {
    hide UserSaid;
    if b == [] {
      assert a + b == a;
    } else {
      UserSaysAppend(a, b[..|b| - 1]);
      assert (a + b)[..|a + b| - 1] == a + b[..|b| - 1];
    }
  }

  lemma {:induction false} PartsAreTurns(role: string, parts: seq<Piece>)
    ensures UserSays(TurnsOf(GeminiContent(role, parts))) == PartsSay(role, parts)
  {
    hide Repaired;
    if parts != [] {
      var n := |parts| - 1;
      PartsAreTurns(role, parts[..n]);
      var turns := TurnsOf(GeminiContent(role, parts));
      assert turns[..n] == TurnsOf(GeminiContent(role, parts[..n]));
    }
  }

  lemma {:induction false} ContentsAreTurns(contents: seq<GeminiContent>)
    ensures UserSays(Flat(contents)) == ContentsSay(contents)
  {
    hide UserSaid, UserSays, TurnsOf, PartsSay;
    if contents == [] {
      NoUser();
    } else {
      var n := |contents| - 1;
      ContentsAreTurns(contents[..n]);
      UserSaysAppend(Flat(contents[..n]), TurnsOf(contents[n]));
      PartsAreTurns(contents[n].role, contents[n].parts);
      assert contents[n] == GeminiContent(contents[n].role, contents[n].parts);
    }
  }

  /** What the model says, in answer or in thought. */
  function ModelSays(turns: seq<Turn>, thought: bool): string {
    if turns == [] then "" else
      var it := turns[|turns| - 1];
      ModelSays(turns[..|turns| - 1], thought)
      + match it.piece case TextPiece(text, t) => if it.model && t == thought then text else "" case _ => ""
  }

  /** The text of a run is what the model says in it, in answer and in thought. */
  lemma {:induction false} RunSaysText(turns: seq<Turn>, k: nat, thought: bool)
    requires k <= |turns|
    ensures ModelSays(turns, thought) == ModelSays(turns[..k], thought) + RunText(turns, k, thought)
  {
    if |turns| == k {
      assert turns[..k] == turns && ModelSays(turns, thought) + "" == ModelSays(turns, thought);
    } else {
      var n := |turns| - 1;
      RunSaysText(turns[..n], k, thought);
      assert turns[..n][..k] == turns[..k];
      var it := turns[n];
      Assoc3(ModelSays(turns[..k], thought), RunText(turns[..n], k, thought),
             if it.model && it.piece.TextPiece? && it.piece.thought == thought then it.piece.text else "");
    }
  }

  /** The model's text reaches the upstream whole, as the assistant's words. */
  lemma {:induction false} ModelHeard(random: Hex, turns: seq<Turn>)
    ensures WordsBy(Lines(random, turns), "assistant") == ModelSays(turns, false)
    decreases |turns|
  {
    hide CallsFrom, RunText, FlushLines, Flushes, RunLines, ModelSays, WordsBy;
    var k := RunStart(turns);
    RunSaysText(turns, k, false);
    RunWords(random, turns, k);
    if k == 0 {
      assert Lines(random, turns) == RunLines(random, turns, 0);
      assert turns[..0] == [] && ModelSays([], false) == "" by {
        NothingModel();
      }
    } else {
      var before := Lines(random, turns[..k - 1]);
      ModelHeard(random, turns[..k - 1]);
      FlushWords(random, turns, k - 1);
      assert turns[..k][..k - 1] == turns[..k - 1];
      WordsAppend(before, FlushLines(random, turns, k - 1), "assistant");
      WordsAppend(before + FlushLines(random, turns, k - 1), RunLines(random, turns, k), "assistant");
    }
  }

  lemma NothingModel()
    ensures ModelSays([], false) == ""
  {
  }

  lemma RunWords(random: Hex, turns: seq<Turn>, k: nat)
    ensures WordsBy(RunLines(random, turns, k), "assistant") == RunText(turns, k, false)
  {
    hide RunText, CallsFrom, Repaired, ValidUtf8;
    RunTextValid(turns, k, false);
    ValidIsRepaired(RunText(turns, k, false));
    SaidWords(RunText(turns, k, false), RunText(turns, k, true), CallsFrom(random, turns, k));
    NoWords();
  }

  lemma FlushWords(random: Hex, turns: seq<Turn>, n: nat)
    requires n < |turns| && Flushes(turns[n])
    ensures WordsBy(FlushLines(random, turns, n), "assistant") == ""
    ensures ModelSays(turns[..n + 1], false) == ModelSays(turns[..n], false)
  {
    hide Repaired, ResponseID;
    assert turns[..n + 1][..n] == turns[..n];
    var lines := FlushLines(random, turns, n);
    if lines != [] {
      assert lines[..0] == [];
    }
  }

  /** No two parts of a request make up the same identifier. */
  lemma IdsDiffer(random: Hex, i: nat, j: nat)
    requires Injective(random) && i != j
    ensures CallId(random, i) != CallId(random, j)
  {
    assert CallId(random, i)[5..] == random(i) && CallId(random, j)[5..] == random(j);
  }

  /** Contents hold no system texts, so the chat has only the one it begins with. */
  lemma {:induction false} SystemKept(dec: Decoder, random: Hex, base: seq<Message>, turns: seq<Turn>)
    ensures SystemTexts(dec, Messages(random, base, turns)) == SystemTexts(dec, base)
    decreases |turns|
  {
    hide SystemTexts, MessageText, FlushMessage, Flushes, RunMessage;
    var k := RunStart(turns);
    var before := base;
    if k > 0 {
      var earlier := Messages(random, base, turns[..k - 1]);
      SystemKept(dec, random, base, turns[..k - 1]);
      SystemSnoc(dec, earlier, FlushMessage(random, turns, k - 1));
      RolesOf(random, turns, k - 1);
      before := earlier + [FlushMessage(random, turns, k - 1)];
    }
    RunRole(random, turns, k);
    var m := RunMessage(random, turns, k);
    if m != [] {
      assert m[0] in m && m == [m[0]];
      SystemSnoc(dec, before, m[0]);
    } else {
      assert before + [] == before;
    }
  }

  lemma RolesOf(random: Hex, turns: seq<Turn>, n: nat)
    requires n < |turns|
    ensures FlushMessage(random, turns, n).role in {"user", "tool"}
  {
    hide Encoded, ImageContent, ResponseID;
  }

  lemma RunRole(random: Hex, turns: seq<Turn>, k: nat)
    ensures |RunMessage(random, turns, k)| <= 1
    ensures forall m :: m in RunMessage(random, turns, k) ==> m.role == "assistant"
  {
    hide Encoded, RunText, CallsFrom;
  }
}
