/** anthropic.go: from the messages of an Anthropic request to chat messages. */
module AnthropicRequest {
  import opened Text
  import opened Upstream
  import opened Json
  import opened Chat
  import opened Transcript

  /** A content block; an image without a usable source is among the others. */
  datatype Block =
    | TextBlock(text: string)
    | ThinkingBlock(thinking: string)
    | ToolUse(id: string, name: string, input: string)
    | ToolResult(toolUseID: string, content: string)
    | Image(url: string)
    | OtherBlock

  datatype Said = Said(role: string, blocks: seq<Block>)

  /** json.Marshal of a list of content parts. */
  type Encoder = seq<Part> -> string

  function ArgumentsOf(input: string): string {
    if input == "" || Trim(input) == "null" then "{}" else input
  }

  /* ---- What each message becomes ---- */

  function Texts(bs: seq<Block>): string {
    if bs == [] then "" else
      Texts(bs[..|bs| - 1]) + match bs[|bs| - 1] case TextBlock(t) => t case _ => ""
  }

  function Thoughts(bs: seq<Block>): string {
    if bs == [] then "" else
      Thoughts(bs[..|bs| - 1]) + match bs[|bs| - 1] case ThinkingBlock(t) => t case _ => ""
  }

  function Calls(bs: seq<Block>): seq<Call> {
    if bs == [] then [] else
      Calls(bs[..|bs| - 1])
      + match bs[|bs| - 1] case ToolUse(id, name, input) => [Call(id, name, ArgumentsOf(input))] case _ => []
  }

  function Results(bs: seq<Block>): seq<Block> {
    if bs == [] then [] else
      Results(bs[..|bs| - 1]) + if bs[|bs| - 1].ToolResult? then [bs[|bs| - 1]] else []
  }

  function Images(bs: seq<Block>): seq<Part> {
    if bs == [] then [] else
      Images(bs[..|bs| - 1])
      + match bs[|bs| - 1] case Image(url) => [Part("image_url", "", "", Some(url), "")] case _ => []
  }

  /** The name of the last tool use so far with this identifier; "" if there is none. */
  function NameSoFar(said: seq<Said>, id: string): string {
    if said == [] then "" else
      var m := said[|said| - 1];
      var here := if m.role == "assistant" && id != "" then NameIn(m.blocks, id) else None;
      if here.Some? then here.value else NameSoFar(said[..|said| - 1], id)
  }

  function NameIn(bs: seq<Block>, id: string): Option<string> {
    if bs == [] then None
    else if bs[|bs| - 1].ToolUse? && bs[|bs| - 1].id == id then Some(bs[|bs| - 1].name)
    else NameIn(bs[..|bs| - 1], id)
  }

  function AssistantMessage(bs: seq<Block>): Message {
    Message("assistant", if Texts(bs) == "" then "" else Encoded(Texts(bs)), "", "", Thoughts(bs), "", Calls(bs))
  }

  function ResultMessage(dec: Decoder, before: seq<Said>, b: Block): Message
    requires b.ToolResult?
  {
    ToolMessage(b.toolUseID, Encoded(ResultText(dec, b.content)), NameSoFar(before, b.toolUseID))
  }

  /** The tool messages for the results among some blocks. */
  function ResultMessages(dec: Decoder, before: seq<Said>, bs: seq<Block>): seq<Message> {
    if bs == [] then [] else
      var b := bs[|bs| - 1];
      ResultMessages(dec, before, bs[..|bs| - 1]) + if b.ToolResult? then [ResultMessage(dec, before, b)] else []
  }

  function UserContent(enc: Encoder, bs: seq<Block>): string {
    if Images(bs) == [] then Encoded(Texts(bs))
    else enc((if Texts(bs) == "" then [] else [TextContent(Texts(bs))]) + Images(bs))
  }

  /** The user's own message, after the results that came with it. */
  function UserMessages(enc: Encoder, bs: seq<Block>): seq<Message> {
    if Texts(bs) == "" && Images(bs) == [] then [] else [TextMessage("user", UserContent(enc, bs))]
  }

  function Of(dec: Decoder, enc: Encoder, before: seq<Said>, m: Said): seq<Message> {
    if m.role == "assistant" then [AssistantMessage(m.blocks)]
    else if m.role == "user" then ResultMessages(dec, before, m.blocks) + UserMessages(enc, m.blocks)
    else []
  }

  function Messages(dec: Decoder, enc: Encoder, base: seq<Message>, said: seq<Said>): seq<Message> {
    if said == [] then base else
      var n := |said| - 1;
      Messages(dec, enc, base, said[..n]) + Of(dec, enc, said[..n], said[n])
  }

  function Base(system: string): seq<Message> {
    if system == "" then [] else [TextMessage("system", Encoded(system))]
  }

  /* ---- The loops ---- */

  ghost predicate Names(toolNames: map<string, string>, said: seq<Said>) {
    forall id :: (if id in toolNames then toolNames[id] else "") == NameSoFar(said, id)
  }

  /** The names while an assistant's message is being read. */
  ghost predicate NamesWithin(toolNames: map<string, string>, said: seq<Said>, bs: seq<Block>) {
    forall id :: (if id in toolNames then toolNames[id] else "") ==
                 var here := if id != "" then NameIn(bs, id) else None;
                 if here.Some? then here.value else NameSoFar(said, id)
  }

  lemma NamesStart(toolNames: map<string, string>, said: seq<Said>)
    requires Names(toolNames, said)
    ensures NamesWithin(toolNames, said, [])
  {
  }

  lemma NamesStep(toolNames: map<string, string>, said: seq<Said>, bs: seq<Block>, j: nat)
    requires j < |bs| && NamesWithin(toolNames, said, bs[..j])
    ensures NamesWithin(if bs[j].ToolUse? && bs[j].id != "" then toolNames[bs[j].id := bs[j].name] else toolNames,
                        said, bs[..j + 1])
  {
    hide NameSoFar;
    assert bs[..j + 1][..j] == bs[..j];
  }

  method ReadAssistant(ghost before: seq<Said>, bs: seq<Block>, toolNames0: map<string, string>)
    returns (m: Message, toolNames: map<string, string>)
    requires Names(toolNames0, before)
    ensures m == AssistantMessage(bs)
    ensures NamesWithin(toolNames, before, bs)
  {
    hide Encoded, ArgumentsOf, NameSoFar, NamesWithin, Names;
    NamesStart(toolNames0, before);
    toolNames := toolNames0;
    var text, thinking, toolCalls: seq<Call> := "", "", [];
    for j := 0 to |bs|
      invariant text == Texts(bs[..j]) && thinking == Thoughts(bs[..j]) && toolCalls == Calls(bs[..j])
      invariant NamesWithin(toolNames, before, bs[..j])
    {
      assert bs[..j + 1][..j] == bs[..j];
      NamesStep(toolNames, before, bs, j);
      match bs[j] {
        case TextBlock(t) => text := text + t;
        case ThinkingBlock(t) => thinking := thinking + t;
        case ToolUse(id, name, input) =>
          if id != "" {
            toolNames := toolNames[id := name];
          }
          toolCalls := toolCalls + [Call(id, name, ArgumentsOf(input))];
        case ToolResult(_, _) =>
        case Image(_) =>
        case OtherBlock =>
      }
    }
    assert bs[..|bs|] == bs;
    m := Message("assistant", if |text| > 0 then Encoded(text) else "", "", "", thinking, "", toolCalls);
  }

  method ReadUser(dec: Decoder, enc: Encoder, ghost before: seq<Said>, bs: seq<Block>, toolNames: map<string, string>)
    returns (out: seq<Message>)
    requires Names(toolNames, before)
    ensures out == ResultMessages(dec, before, bs) + UserMessages(enc, bs)
  {
    hide Encoded, NameSoFar, ResultText;
    var text, toolResults: seq<Block>, images: seq<Part> := "", [], [];
    for j := 0 to |bs|
      invariant text == Texts(bs[..j]) && toolResults == Results(bs[..j]) && images == Images(bs[..j])
    {
      assert bs[..j + 1][..j] == bs[..j];
      match bs[j] {
        case TextBlock(t) => text := text + t;
        case ToolResult(_, _) => toolResults := toolResults + [bs[j]];
        case Image(url) => images := images + [Part("image_url", "", "", Some(url), "")];
        case ThinkingBlock(_) =>
        case ToolUse(_, _, _) =>
        case OtherBlock =>
      }
    }
    assert bs[..|bs|] == bs;
    AllResults(bs);
    out := WriteResults(dec, before, toolResults, toolNames);
    ResultsOnly(dec, before, bs);
    if |text| > 0 || |images| > 0 {
      if |images| == 0 {
        out := out + [TextMessage("user", Encoded(text))];
      } else {
        var parts := if |text| > 0 then [TextContent(text)] else [];
        out := out + [TextMessage("user", enc(parts + images))];
      }
    }
  }

  method WriteResults(dec: Decoder, ghost before: seq<Said>, results: seq<Block>, toolNames: map<string, string>)
    returns (out: seq<Message>)
    requires Names(toolNames, before) && forall b :: b in results ==> b.ToolResult?
    ensures out == ResultMessages(dec, before, results)
  {
    hide Encoded, NameSoFar, ResultText;
    out := [];
    for i := 0 to |results|
      invariant out == ResultMessages(dec, before, results[..i])
    {
      assert results[..i + 1][..i] == results[..i];
      var tr := results[i];
      var text := ToolResultText(dec, tr.content);
      var name := if tr.toolUseID in toolNames then toolNames[tr.toolUseID] else "";
      out := out + [ToolMessage(tr.toolUseID, Encoded(text), name)];
    }
    assert results[..|results|] == results;
  }

  lemma {:induction false} AllResults(bs: seq<Block>)
    ensures forall b :: b in Results(bs) ==> b.ToolResult?
  {
    if bs != [] {
      AllResults(bs[..|bs| - 1]);
    }
  }

  lemma {:induction false} ResultsOnly(dec: Decoder, before: seq<Said>, bs: seq<Block>)
    ensures ResultMessages(dec, before, Results(bs)) == ResultMessages(dec, before, bs)
  {
    hide ResultMessage;
    if bs != [] {
      var n := |bs| - 1;
      ResultsOnly(dec, before, bs[..n]);
      var results := Results(bs[..n]);
      if bs[n].ToolResult? {
        assert (results + [bs[n]])[..|results|] == results;
        assert Results(bs) == results + [bs[n]];
      } else {
        assert Results(bs) == results;
        assert ResultMessages(dec, before, bs) == ResultMessages(dec, before, bs[..n]);
      }
    }
  }

  lemma NamesAfter(toolNames: map<string, string>, said: seq<Said>, n: nat)
    requires n < |said|
    requires if said[n].role == "assistant" then NamesWithin(toolNames, said[..n], said[n].blocks)
             else Names(toolNames, said[..n])
    ensures Names(toolNames, said[..n + 1])
  {
    hide NameIn;
    assert said[..n + 1][..n] == said[..n];
  }

  lemma MessagesNone(dec: Decoder, enc: Encoder, base: seq<Message>)
    ensures Messages(dec, enc, base, []) == base
  {
  }

  lemma MessagesSnoc(dec: Decoder, enc: Encoder, base: seq<Message>, said: seq<Said>, n: nat)
    requires n < |said|
    ensures Messages(dec, enc, base, said[..n + 1])
            == Messages(dec, enc, base, said[..n]) + Of(dec, enc, said[..n], said[n])
  {
    assert said[..n + 1][..n] == said[..n];
  }

  /** convertAnthropicToChat, for the messages. */
  method Convert(dec: Decoder, enc: Encoder, system: string, said: seq<Said>) returns (out: seq<Message>)
    ensures out == Messages(dec, enc, Base(system), said)
  {
    hide NameSoFar, AssistantMessage, ResultMessages, UserMessages, Encoded, Names, NamesWithin, Messages;
    MessagesNone(dec, enc, Base(system));
    out := [];
    if system != "" {
      out := out + [TextMessage("system", Encoded(system))];
    }
    assert out == Base(system);
    var toolNames: map<string, string> := map[];
    NoNames();
    for n := 0 to |said|
      invariant out == Messages(dec, enc, Base(system), said[..n]) && Names(toolNames, said[..n])
    {
      var m := said[n];
      MessagesSnoc(dec, enc, Base(system), said, n);
      if m.role == "assistant" {
        var message;
        message, toolNames := ReadAssistant(said[..n], m.blocks, toolNames);
        out := out + [message];
      } else if m.role == "user" {
        var messages := ReadUser(dec, enc, said[..n], m.blocks, toolNames);
        out := out + messages;
      }
      NamesAfter(toolNames, said, n);
    }
    assert said[..|said|] == said;
  }

  lemma NoNames()
    ensures Names(map[], [])
  {
  }

  /* ---- Calls and results ---- */

  /** The results among some blocks, as the upstream will read them. */
  function ResultMarks(dec: Decoder, before: seq<Said>, bs: seq<Block>): seq<Mark> {
    if bs == [] then [] else
      ResultMarks(dec, before, bs[..|bs| - 1])
      + match bs[|bs| - 1]
        case ToolResult(id, content) => [Returned(id, NameSoFar(before, id), Repaired(ResultText(dec, content)))]
        case _ => []
  }

  function MarksIn(dec: Decoder, before: seq<Said>, m: Said): seq<Mark> {
    if m.role == "assistant" then CallMarks(Calls(m.blocks))
    else if m.role == "user" then ResultMarks(dec, before, m.blocks)
    else []
  }

  function Marks(dec: Decoder, said: seq<Said>): seq<Mark> {
    if said == [] then [] else
      var n := |said| - 1;
      Marks(dec, said[..n]) + MarksIn(dec, said[..n], said[n])
  }

  lemma {:induction false} ResultTrail(dec: Decoder, before: seq<Said>, bs: seq<Block>, ms: seq<Message>)
    ensures Trail(dec, ms + ResultMessages(dec, before, bs)) == Trail(dec, ms) + ResultMarks(dec, before, bs)
  {
    hide Trail, ResultText, Encoded, NameSoFar, Repaired;
    if bs == [] {
      assert ms + [] == ms && Trail(dec, ms) + [] == Trail(dec, ms);
    } else {
      var n := |bs| - 1;
      ResultTrail(dec, before, bs[..n], ms);
      var so := ms + ResultMessages(dec, before, bs[..n]);
      if bs[n].ToolResult? {
        var m := ResultMessage(dec, before, bs[n]);
        TrailSnoc(dec, so, m);
        TextSurvives(dec, ResultText(dec, bs[n].content));
        Assoc3(ms, ResultMessages(dec, before, bs[..n]), [m]);
        Assoc3(Trail(dec, ms), ResultMarks(dec, before, bs[..n]), MarksOf(dec, m));
      } else {
        assert ResultMessages(dec, before, bs) == ResultMessages(dec, before, bs[..n]);
        assert ResultMarks(dec, before, bs) == ResultMarks(dec, before, bs[..n]);
      }
    }
  }

  lemma OfTrail(dec: Decoder, enc: Encoder, before: seq<Said>, m: Said, ms: seq<Message>)
    ensures Trail(dec, ms + Of(dec, enc, before, m)) == Trail(dec, ms) + MarksIn(dec, before, m)
  {
    hide Trail, ResultMessages, ResultMarks, UserContent, Texts, Images, Thoughts, Calls, Encoded;
    if m.role == "assistant" {
      TrailSnoc(dec, ms, AssistantMessage(m.blocks));
    } else if m.role == "user" {
      var so := ms + ResultMessages(dec, before, m.blocks);
      ResultTrail(dec, before, m.blocks, ms);
      Assoc3(ms, ResultMessages(dec, before, m.blocks), UserMessages(enc, m.blocks));
      if UserMessages(enc, m.blocks) == [] {
        assert so + [] == so;
      } else {
        TrailSnoc(dec, so, UserMessages(enc, m.blocks)[0]);
        assert Trail(dec, so) + [] == Trail(dec, so);
      }
    } else {
      assert ms + [] == ms && Trail(dec, ms) + [] == Trail(dec, ms);
    }
  }

  /** The chat has exactly the calls and results of the request, in their order; the text of each result
      survives being encoded and decoded again. */
  lemma {:induction false} TrailKept(dec: Decoder, enc: Encoder, base: seq<Message>, said: seq<Said>)
    requires Trail(dec, base) == []
    ensures Trail(dec, Messages(dec, enc, base, said)) == Marks(dec, said)
  {
    hide Trail, Of, MarksIn;
    if said != [] {
      var n := |said| - 1;
      TrailKept(dec, enc, base, said[..n]);
      OfTrail(dec, enc, said[..n], said[n], Messages(dec, enc, base, said[..n]));
    }
  }

  /** The results of a user's message follow everything called or returned before it, and come before
      what the user says in the same message. */
  lemma ResultsPlaced(dec: Decoder, enc: Encoder, base: seq<Message>, said: seq<Said>, n: nat)
    requires Trail(dec, base) == [] && n < |said| && said[n].role == "user"
    ensures var before := Messages(dec, enc, base, said[..n]);
      && before + ResultMessages(dec, said[..n], said[n].blocks) + UserMessages(enc, said[n].blocks)
         <= Messages(dec, enc, base, said)
      && Trail(dec, before) == Marks(dec, said[..n])
      && (forall m :: m in ResultMessages(dec, said[..n], said[n].blocks) ==> m.role == "tool")
      && (forall m :: m in UserMessages(enc, said[n].blocks) ==> m.role == "user")
  {
    hide Trail, Messages, Marks, ResultMessages, UserMessages;
    TrailKept(dec, enc, base, said[..n]);
    MessagesPrefix(dec, enc, base, said, n + 1);
    MessagesNext(dec, enc, base, said, n);
    Roles(dec, enc, said[..n], said[n].blocks);
    var before := Messages(dec, enc, base, said[..n]);
    Assoc3(before, ResultMessages(dec, said[..n], said[n].blocks), UserMessages(enc, said[n].blocks));
  }

  lemma MessagesNext(dec: Decoder, enc: Encoder, base: seq<Message>, said: seq<Said>, n: nat)
    requires n < |said|
    ensures Messages(dec, enc, base, said[..n + 1])
            == Messages(dec, enc, base, said[..n]) + Of(dec, enc, said[..n], said[n])
  {
    hide Of;
    assert said[..n + 1][..n] == said[..n];
  }

  lemma {:induction false} MessagesPrefix(dec: Decoder, enc: Encoder, base: seq<Message>, said: seq<Said>, n: nat)
    requires n <= |said|
    ensures Messages(dec, enc, base, said[..n]) <= Messages(dec, enc, base, said)
  {
    hide Of;
    if n == |said| {
      assert said[..n] == said;
    } else {
      var before := said[..|said| - 1];
      assert before[..n] == said[..n];
      MessagesPrefix(dec, enc, base, before, n);
      PrefixSnoc(Messages(dec, enc, base, said[..n]), Messages(dec, enc, base, before),
                 Of(dec, enc, before, said[|said| - 1]));
    }
  }

  lemma {:induction false} Roles(dec: Decoder, enc: Encoder, before: seq<Said>, bs: seq<Block>)
    ensures forall m :: m in ResultMessages(dec, before, bs) ==> m.role == "tool"
    ensures forall m :: m in UserMessages(enc, bs) ==> m.role == "user"
  {
    hide ResultText, Encoded, NameSoFar, UserContent;
    if bs != [] {
      Roles(dec, enc, before, bs[..|bs| - 1]);
    }
  }

  /** Each result has its own message, which everything said before that message precedes. */
  lemma ResultPlaced(dec: Decoder, enc: Encoder, base: seq<Message>, said: seq<Said>, n: nat, q: nat)
    requires Trail(dec, base) == [] && n < |said| && said[n].role == "user"
    requires q < |said[n].blocks| && said[n].blocks[q].ToolResult?
    ensures var b, earlier := said[n].blocks[q], ResultMarks(dec, said[..n], said[n].blocks[..q]);
      var before := Messages(dec, enc, base, said[..n]) + ResultMessages(dec, said[..n], said[n].blocks[..q]);
      && before + [ResultMessage(dec, said[..n], b)] <= Messages(dec, enc, base, said)
      && Trail(dec, before) == Marks(dec, said[..n]) + earlier
  {
    hide Trail, Messages, Marks, ResultMessages, UserMessages, ResultMessage, ResultMarks;
    var bs, first := said[n].blocks, Messages(dec, enc, base, said[..n]);
    ResultsPlaced(dec, enc, base, said, n);
    ResultTrail(dec, said[..n], bs[..q], first);
    ResultNext(dec, said[..n], bs, q);
    ResultsPrefix(dec, said[..n], bs, q + 1);
    var upTo, all := ResultMessages(dec, said[..n], bs[..q + 1]), ResultMessages(dec, said[..n], bs);
    assert all == upTo + all[|upTo|..];
    var before := first + ResultMessages(dec, said[..n], bs[..q]);
    Assoc3(first, ResultMessages(dec, said[..n], bs[..q]), [ResultMessage(dec, said[..n], bs[q])]);
    Assoc3(first, upTo, all[|upTo|..]);
    PrefixSnoc(first + upTo, first + upTo, all[|upTo|..]);
    PrefixSnoc(first + upTo, first + all, UserMessages(enc, bs));
    Prefix3(first + upTo, first + all + UserMessages(enc, bs), Messages(dec, enc, base, said));
  }

  lemma ResultNext(dec: Decoder, before: seq<Said>, bs: seq<Block>, q: nat)
    requires q < |bs| && bs[q].ToolResult?
    ensures ResultMessages(dec, before, bs[..q + 1])
            == ResultMessages(dec, before, bs[..q]) + [ResultMessage(dec, before, bs[q])]
  {
    assert bs[..q + 1][..q] == bs[..q];
  }

  lemma {:induction false} ResultsPrefix(dec: Decoder, before: seq<Said>, bs: seq<Block>, q: nat)
    requires q <= |bs|
    ensures ResultMessages(dec, before, bs[..q]) <= ResultMessages(dec, before, bs)
  {
    hide ResultMessage;
    if q == |bs| {
      assert bs[..q] == bs;
    } else {
      var shorter := bs[..|bs| - 1];
      assert shorter[..q] == bs[..q];
      ResultsPrefix(dec, before, shorter, q);
      var last := bs[|bs| - 1];
      PrefixSnoc(ResultMessages(dec, before, bs[..q]), ResultMessages(dec, before, shorter),
                 if last.ToolResult? then [ResultMessage(dec, before, last)] else []);
    }
  }

  /* ---- What is said ---- */

  function RepairedPart(p: Part): Part {
    p.(text := Repaired(p.text), content := Repaired(p.content), reasoning := Repaired(p.reasoning),
       imageURL := if p.imageURL.Some? then Some(Repaired(p.imageURL.value)) else None)
  }

  function RepairedParts(parts: seq<Part>): seq<Part> {
    seq(|parts|, i requires 0 <= i < |parts| => RepairedPart(parts[i]))
  }

  /** What one block adds, and that reading goes block by block. */
  lemma OneBlock(b: Block)
    ensures Texts([b]) == (if b.TextBlock? then b.text else "")
    ensures Thoughts([b]) == (if b.ThinkingBlock? then b.thinking else "")
    ensures Calls([b]) == if b.ToolUse? then [Call(b.id, b.name, ArgumentsOf(b.input))] else []
    ensures Pictures([b]) == if b.Image? then [Line("user", Picture(Repaired(b.url)))] else []
  {
    hide ArgumentsOf, Repaired;
    assert [b][..0] == [];
  }

  lemma BlocksSnoc(bs: seq<Block>, b: Block)
    ensures Texts(bs + [b]) == Texts(bs) + Texts([b]) && Thoughts(bs + [b]) == Thoughts(bs) + Thoughts([b])
    ensures Calls(bs + [b]) == Calls(bs) + Calls([b]) && Pictures(bs + [b]) == Pictures(bs) + Pictures([b])
  {
    OneBlock(b);
    hide ArgumentsOf, Repaired;
    assert (bs + [b])[..|bs|] == bs;
  }

  lemma {:induction false} BlocksAppend(a: seq<Block>, b: seq<Block>)
    ensures Texts(a + b) == Texts(a) + Texts(b) && Thoughts(a + b) == Thoughts(a) + Thoughts(b)
    ensures Calls(a + b) == Calls(a) + Calls(b) && Pictures(a + b) == Pictures(a) + Pictures(b)
  {
    if b == [] {
      assert a + b == a;
    } else {
      hide Texts, Thoughts, Calls, Pictures;
      var n := |b| - 1;
      var rest, last := b[..n], [b[n]];
      assert a + b == a + rest + last && b == rest + last;
      BlocksAppend(a, rest);
      BlocksSnoc(a + rest, b[n]);
      BlocksSnoc(rest, b[n]);
      Assoc3(Texts(a), Texts(rest), Texts(last));
      Assoc3(Thoughts(a), Thoughts(rest), Thoughts(last));
      Assoc3(Calls(a), Calls(rest), Calls(last));
      Assoc3(Pictures(a), Pictures(rest), Pictures(last));
    }
  }

  /** json.Unmarshal reads what json.Marshal writes, malformed bytes replaced. */
  ghost predicate Faithful(dec: Decoder, enc: Encoder) {
    forall parts: seq<Part> ::
      var text := enc(parts);
      Trim(text) == text && text != "" && text[0] == '[' && dec(text) == Some(RepairedParts(parts))
  }

  function Pictures(bs: seq<Block>): seq<Line> {
    if bs == [] then [] else
      Pictures(bs[..|bs| - 1])
      + match bs[|bs| - 1] case Image(url) => [Line("user", Picture(Repaired(url)))] case _ => []
  }

  function ResultLines(dec: Decoder, bs: seq<Block>): seq<Line> {
    if bs == [] then [] else
      ResultLines(dec, bs[..|bs| - 1])
      + match bs[|bs| - 1]
        case ToolResult(id, content) => [Line("tool", Outcome(id, Repaired(ResultText(dec, content))))]
        case _ => []
  }

  /** What the user says in a message: its texts, put together, and its images. */
  function UserSaid(bs: seq<Block>): seq<Line> {
    (if Texts(bs) == "" then [] else [Line("user", Words(Repaired(Texts(bs))))]) + Pictures(bs)
  }

  function MessageLines(dec: Decoder, m: Said): seq<Line> {
    match m.role
    case "assistant" => AssistantSays(Texts(m.blocks), Thoughts(m.blocks), Calls(m.blocks))
    case "user" => ResultLines(dec, m.blocks) + UserSaid(m.blocks)
    case _ => []
  }

  /** What the messages of a request say. */
  function Lines(dec: Decoder, said: seq<Said>): seq<Line> {
    if said == [] then [] else Lines(dec, said[..|said| - 1]) + MessageLines(dec, said[|said| - 1])
  }

  lemma {:induction false} ImagesShown(bs: seq<Block>)
    ensures UserLines(RepairedParts(Images(bs))) == Pictures(bs)
    ensures |Images(bs)| == |Pictures(bs)|
  {
    hide Repaired;
    if bs != [] {
      var n := |bs| - 1;
      ImagesShown(bs[..n]);
      if bs[n].Image? {
        var p := Part("image_url", "", "", Some(bs[n].url), "");
        assert RepairedParts(Images(bs)) == RepairedParts(Images(bs[..n])) + [RepairedPart(p)];
      }
    }
  }

  lemma UserMessageSpeaks(dec: Decoder, enc: Encoder, bs: seq<Block>)
    requires Faithful(dec, enc)
    requires Texts(bs) != "" || Images(bs) != []
    ensures Spoken(dec, TextMessage("user", UserContent(enc, bs))) == UserSaid(bs)
  {
    hide Encoded, Repaired, Spoken, Texts, Images, Pictures, Faithful, UserLines, RepairedParts;
    ImagesShown(bs);
    if Images(bs) == [] {
      UserSpeaks(dec, Texts(bs));
    } else {
      var head := if Texts(bs) == "" then [] else [TextContent(Texts(bs))];
      EncodedSpeaks(dec, enc, head + Images(bs));
      LinesAppend(head, Images(bs));
      if Texts(bs) == "" {
        NoLines();
      } else {
        HeadShown(Texts(bs));
      }
    }
  }

  lemma EncodedSpeaks(dec: Decoder, enc: Encoder, parts: seq<Part>)
    requires Faithful(dec, enc) && parts != []
    ensures Spoken(dec, TextMessage("user", enc(parts))) == UserLines(RepairedParts(parts))
  {
    hide Decoded, ResultText, AssistantLines, UserLines, Trim;
    var c := enc(parts);
    assert dec(c) == Some(RepairedParts(parts)) && c[0] == '[' && Trim(c) == c;
    hide Faithful;
    assert c != "null" by {
      assert "null"[0] == 'n';
    }
    assert |RepairedParts(parts)| == |parts|;
    hide RepairedParts;
    assert ContentParts(dec, c) == RepairedParts(parts);
  }

  lemma LinesAppend(a: seq<Part>, b: seq<Part>)
    ensures UserLines(RepairedParts(a + b)) == UserLines(RepairedParts(a)) + UserLines(RepairedParts(b))
  {
    hide Repaired;
  }

  lemma NoLines()
    ensures UserLines(RepairedParts([])) == []
  {
  }

  lemma HeadShown(text: string)
    requires text != ""
    ensures UserLines(RepairedParts([TextContent(text)])) == [Line("user", Words(Repaired(text)))]
  {
    hide Repaired;
    RepairedSome(text);
    ValidIsRepaired("");
  }

  lemma {:induction false} ResultsSpeak(dec: Decoder, before: seq<Said>, bs: seq<Block>, ms: seq<Message>)
    ensures AllSpoken(dec, ms + ResultMessages(dec, before, bs)) == AllSpoken(dec, ms) + ResultLines(dec, bs)
  {
    hide AllSpoken, Spoken, ResultText, Encoded, NameSoFar, Repaired;
    if bs == [] {
      assert ms + [] == ms && AllSpoken(dec, ms) + [] == AllSpoken(dec, ms);
    } else {
      var n := |bs| - 1;
      var most := ResultMessages(dec, before, bs[..n]);
      ResultsSpeak(dec, before, bs[..n], ms);
      if bs[n].ToolResult? {
        var m := ResultMessage(dec, before, bs[n]);
        SpokenSnoc(dec, ms + most, m);
        ToolSpeaks(dec, bs[n].toolUseID, Encoded(ResultText(dec, bs[n].content)), m.name);
        TextSurvives(dec, ResultText(dec, bs[n].content));
        Assoc3(ms, most, [m]);
        Assoc3(AllSpoken(dec, ms), ResultLines(dec, bs[..n]), Spoken(dec, m));
      } else {
        assert ResultMessages(dec, before, bs) == most && ResultLines(dec, bs) == ResultLines(dec, bs[..n]);
      }
    }
  }

  lemma OfSpeaks(dec: Decoder, enc: Encoder, before: seq<Said>, m: Said, ms: seq<Message>)
    requires Faithful(dec, enc)
    ensures AllSpoken(dec, ms + Of(dec, enc, before, m)) == AllSpoken(dec, ms) + MessageLines(dec, m)
  {
    hide AllSpoken, Spoken, ResultMessages, ResultLines, UserContent, Texts, Images, Thoughts, Calls, Encoded;
    hide Faithful, AssistantSays, Pictures, Repaired;
    if m.role == "assistant" {
      SpokenSnoc(dec, ms, AssistantMessage(m.blocks));
      AssistantSpeaks(dec, Texts(m.blocks), Thoughts(m.blocks), Calls(m.blocks));
    } else if m.role == "user" {
      var so := ms + ResultMessages(dec, before, m.blocks);
      ResultsSpeak(dec, before, m.blocks, ms);
      Assoc3(ms, ResultMessages(dec, before, m.blocks), UserMessages(enc, m.blocks));
      Assoc3(AllSpoken(dec, ms), ResultLines(dec, m.blocks), UserSaid(m.blocks));
      if UserMessages(enc, m.blocks) == [] {
        ImagesShown(m.blocks);
        assert so + [] == so && UserSaid(m.blocks) == [];
      } else {
        SpokenSnoc(dec, so, UserMessages(enc, m.blocks)[0]);
        UserMessageSpeaks(dec, enc, m.blocks);
      }
    } else {
      assert ms + [] == ms && AllSpoken(dec, ms) + [] == AllSpoken(dec, ms);
    }
  }

  /** The chat says what the messages say. */
  lemma {:induction false} SpeechKept(dec: Decoder, enc: Encoder, base: seq<Message>, said: seq<Said>)
    requires AllSpoken(dec, base) == [] && Faithful(dec, enc)
    ensures AllSpoken(dec, Messages(dec, enc, base, said)) == Lines(dec, said)
  {
    hide AllSpoken, Of, MessageLines, Faithful;
    if said != [] {
      var n := |said| - 1;
      SpeechKept(dec, enc, base, said[..n]);
      OfSpeaks(dec, enc, said[..n], said[n], Messages(dec, enc, base, said[..n]));
    }
  }

  /** What the user says, message by message. */
  function UserSays(said: seq<Said>): seq<Line> {
    if said == [] then [] else
      var m := said[|said| - 1];
      UserSays(said[..|said| - 1]) + if m.role == "user" then UserSaid(m.blocks) else []
  }

  /** All that the user says is among the lines, in order, and nothing else is the user's. */
  lemma {:induction false} UserHeard(dec: Decoder, said: seq<Said>)
    ensures ByUser(Lines(dec, said)) == UserSays(said)
  {
    hide ByUser, MessageLines, UserSaid;
    if said == [] {
      NotByUser([]);
    } else {
      var n := |said| - 1;
      UserHeard(dec, said[..n]);
      ByUserAppend(Lines(dec, said[..n]), MessageLines(dec, said[n]));
      MessageByUser(dec, said[n]);
    }
  }

  lemma MessageByUser(dec: Decoder, m: Said)
    ensures ByUser(MessageLines(dec, m)) == if m.role == "user" then UserSaid(m.blocks) else []
  {
    hide ByUser, Texts, Thoughts, Calls, ResultLines, Pictures, Repaired, ResultText, ArgsJSON, Parse;
    if m.role == "user" {
      ByUserAppend(ResultLines(dec, m.blocks), UserSaid(m.blocks));
      LineRoles(dec, m.blocks);
      NotByUser(ResultLines(dec, m.blocks));
      OnlyByUser(UserSaid(m.blocks));
    } else {
      NotByUser(MessageLines(dec, m));
    }
  }

  lemma {:induction false} LineRoles(dec: Decoder, bs: seq<Block>)
    ensures forall i :: 0 <= i < |ResultLines(dec, bs)| ==> ResultLines(dec, bs)[i].role == "tool"
    ensures forall i :: 0 <= i < |Pictures(bs)| ==> Pictures(bs)[i].role == "user"
  {
    hide ResultText, Repaired;
    if bs != [] {
      LineRoles(dec, bs[..|bs| - 1]);
    }
  }

  /** Messages hold no system texts, so the chat has only the one it begins with. */
  lemma {:induction false} SystemKept(dec: Decoder, enc: Encoder, base: seq<Message>, said: seq<Said>)
    ensures SystemTexts(dec, Messages(dec, enc, base, said)) == SystemTexts(dec, base)
  {
    hide SystemTexts, Of;
    if said != [] {
      var n := |said| - 1;
      var before := Messages(dec, enc, base, said[..n]);
      SystemKept(dec, enc, base, said[..n]);
      OfRoles(dec, enc, said[..n], said[n]);
      NoSystem(dec, before, Of(dec, enc, said[..n], said[n]));
    }
  }

  lemma OfRoles(dec: Decoder, enc: Encoder, before: seq<Said>, m: Said)
    ensures forall x :: x in Of(dec, enc, before, m) ==> x.role !in {"system", "developer"}
  {
    hide ResultMessages, UserMessages, Texts, Thoughts, Calls, Encoded;
    Roles(dec, enc, before, m.blocks);
  }

  lemma {:induction false} NoSystem(dec: Decoder, before: seq<Message>, more: seq<Message>)
    requires forall x :: x in more ==> x.role !in {"system", "developer"}
    ensures SystemTexts(dec, before + more) == SystemTexts(dec, before)
  {
    hide MessageText;
    if more == [] {
      assert before + more == before;
    } else {
      var n := |more| - 1;
      assert (before + more)[..|before| + n] == before + more[..n];
      assert more[n] in more;
      NoSystem(dec, before, more[..n]);
    }
  }
}
