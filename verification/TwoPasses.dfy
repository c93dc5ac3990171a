/** From a client's request to the upstream's messages: both passes together. */
module TwoPasses {
  import opened Text
  import opened Upstream
  import opened Json
  import opened Chat
  import opened CCBuild
  import opened Transcript
  import Gemini = GeminiRequest
  import Responses = ResponsesRequest
  import Anthropic = AnthropicRequest

  /** Some message before the n-th holds this part. */
  ghost predicate HeldBefore(out: seq<CCMessage>, n: nat, part: CCBuild.Part) {
    exists p: nat :: p < n && p < |out| && part in out[p].content
  }

  lemma {:induction false} InParts(parts: seq<CCBuild.Part>, part: CCBuild.Part)
    requires part in TrailOfParts(parts)
    ensures part in parts
  {
    if part in TrailOfParts(parts[..|parts| - 1]) {
      InParts(parts[..|parts| - 1], part);
    }
  }

  lemma {:induction false} InTrail(ms: seq<CCMessage>, part: CCBuild.Part)
    requires part in CCTrail(ms)
    ensures HeldBefore(ms, |ms|, part)
  {
    var n := |ms| - 1;
    if part in CCTrail(ms[..n]) {
      InTrail(ms[..n], part);
      var p: nat :| p < n && part in ms[..n][p].content;
      assert part in ms[p].content;
    } else {
      InParts(ms[n].content, part);
    }
  }

  /** What becomes of a tool message: its own message upstream, after the messages that hold everything
      called or returned before it. */
  lemma Placed(dec: Decoder, ms: seq<Message>, before: seq<Message>, m: Message)
    requires before + [m] <= ms && IsTool(m)
    ensures var out, n := Converted(dec, ms, ms), |Converted(dec, ms, before)|;
      && n < |out|
      && [out[n]] == One(dec, ms, m)
      && forall mark :: mark in Trail(dec, before) ==> HeldBefore(out, n, Told(Trail(dec, ms), mark))
  {
    hide Converted, CCTrail, Trail, One, Told;
    var j := |before|;
    assert ms[..j] == (before + [m])[..j] == before && ms[j] == (before + [m])[j] == m;
    ResultPlaced(dec, ms, ms, j);
    var out, n := Converted(dec, ms, ms), |Converted(dec, ms, before)|;
    assert out[n..n + 1] == [out[n]];
    var all := Trail(dec, ms);
    forall mark | mark in Trail(dec, before) ensures HeldBefore(out, n, Told(all, mark)) {
      InTold(all, Trail(dec, before), mark);
      InTrail(out[..n], Told(all, mark));
      HeldPrefix(out, n, Told(all, mark));
    }
  }

  lemma InTold(all: seq<Mark>, marks: seq<Mark>, mark: Mark)
    requires mark in marks
    ensures Told(all, mark) in ToldAll(all, marks)
  {
    hide Told;
    var i :| 0 <= i < |marks| && marks[i] == mark;
    assert ToldAll(all, marks)[i] == Told(all, mark);
  }

  lemma HeldPrefix(out: seq<CCMessage>, n: nat, part: CCBuild.Part)
    requires n <= |out| && HeldBefore(out[..n], n, part)
    ensures HeldBefore(out, n, part)
  {
    var p: nat :| p < n && part in out[..n][p].content;
    assert part in out[p].content;
  }

  /* ---- Responses ---- */

  /** The calls and results of a Responses request reach the upstream in their order. */
  lemma ResponsesTrail(dec: Decoder, random: Hex, instructions: string, items: seq<Responses.Item>)
    ensures var ms, marks := Responses.Messages(random, Responses.Base(instructions), items),
                             Responses.Marks(dec, random, items);
      CCTrail(Converted(dec, ms, ms)) == ToldAll(marks, marks)
  {
    hide Converted, CCTrail, Trail, Told, Responses.Messages, Responses.Marks, Encoded;
    var ms := Responses.Messages(random, Responses.Base(instructions), items);
    SystemTrail(dec, instructions);
    Responses.TrailKept(dec, random, Responses.Base(instructions), items);
    TrailKept(dec, ms, ms);
  }

  /** A call and a later output with its identifier: the call stands in an earlier upstream message than
      the result, and the result goes under the name of the last call with that identifier. */
  lemma ResponsesPair(dec: Decoder, random: Hex, instructions: string, items: seq<Responses.Item>, i: nat, j: nat)
    requires i < j < |items| && Responses.KindOf(items[i]).CallItem? && Responses.KindOf(items[j]).OutputItem?
    requires Responses.ToolCall(items[i], random(i)).id == items[j].callID
    ensures var ms := Responses.Messages(random, Responses.Base(instructions), items);
      var out, c, it := Converted(dec, ms, ms), Responses.ToolCall(items[i], random(i)), items[j];
      var text := ResultText(dec, Responses.OutputContent(it.output));
      exists n: nat :: n < |out|
        && HeldBefore(out, n, CallPart(c.id, c.name, ArgsJSON(c.args)))
        && out[n] == CCMessage("tool", [Told(Responses.Marks(dec, random, items), Returned(it.callID, "", text))])
  {
    hide Converted, CCTrail, Trail, Responses.Messages, Responses.Marks, Responses.OutputContent, Responses.KindOf;
    hide Encoded, ResultText, LastIn, Responses.ToolCall, ArgsJSON, NameOf, HeldBefore;
    var base := Responses.Base(instructions);
    var ms := Responses.Messages(random, base, items);
    SystemTrail(dec, instructions);
    Responses.TrailKept(dec, random, base, items);
    Responses.ResultPlaced(dec, random, base, items, j);
    var before, it := Responses.Messages(random, base, items[..j]), items[j];
    var m := ToolMessage(it.callID, Responses.OutputContent(it.output), "");
    Placed(dec, ms, before, m);
    ResponsesMark(dec, random, items, i, j);
    NameIsLast(dec, ms, it.callID);
    var c := Responses.ToolCall(items[i], random(i));
    assert Told(Trail(dec, ms), Called(c)) == CallPart(c.id, c.name, ArgsJSON(c.args));
    var out, n := Converted(dec, ms, ms), |Converted(dec, ms, before)|;
    assert out[n] == One(dec, ms, m)[0];
  }

  lemma {:induction false} ResponsesMark(dec: Decoder, random: Hex, items: seq<Responses.Item>, i: nat, j: nat)
    requires i < j <= |items| && Responses.KindOf(items[i]).CallItem?
    ensures Called(Responses.ToolCall(items[i], random(i))) in Responses.Marks(dec, random, items[..j])
  {
    hide Responses.KindOf, Responses.ToolCall, Responses.MarkOf;
    var n := j - 1;
    assert items[..j][..n] == items[..n];
    if i < n {
      ResponsesMark(dec, random, items, i, n);
    } else {
      Responses.RunMark(dec, items[i], random(i));
    }
  }

  lemma SystemTrail(dec: Decoder, system: string)
    ensures Trail(dec, Responses.Base(system)) == [] && Trail(dec, Gemini.Base(system)) == []
    ensures Trail(dec, Anthropic.Base(system)) == []
  {
    hide Encoded, Trail;
    FirstTrail(dec, system, Responses.Base(system));
    FirstTrail(dec, system, Gemini.Base(system));
    FirstTrail(dec, system, Anthropic.Base(system));
  }

  lemma FirstTrail(dec: Decoder, system: string, base: seq<Message>)
    requires base == if system == "" then [] else [TextMessage("system", Encoded(system))]
    ensures Trail(dec, base) == []
  {
    hide Encoded, ResultText;
    if system != "" {
      assert base[..0] == [] && MarksOf(dec, base[0]) == [];
    }
  }

  /** Filling in empty arguments changes nothing for the second pass, which does so too. */
  lemma DefaultsAgree(arguments: string)
    ensures ArgsJSON(OrDefault(arguments, "{}")) == ArgsJSON(arguments)
    ensures ArgsJSON(Anthropic.ArgumentsOf(arguments)) == ArgsJSON(arguments)
  {
    TrimFixed("{}");
    TrimFixed("");
    assert "{}"[0] == '{';
    assert ArgsJSON("{}") == "{}" && ArgsJSON("") == "{}";
  }

  /* ---- Anthropic ---- */

  lemma AnthropicTrail(dec: Decoder, enc: Anthropic.Encoder, system: string, said: seq<Anthropic.Said>)
    ensures var ms, marks := Anthropic.Messages(dec, enc, Anthropic.Base(system), said), Anthropic.Marks(dec, said);
      CCTrail(Converted(dec, ms, ms)) == ToldAll(marks, marks)
  {
    hide Converted, CCTrail, Trail, Told, Anthropic.Messages, Anthropic.Marks;
    var ms := Anthropic.Messages(dec, enc, Anthropic.Base(system), said);
    SystemTrail(dec, system);
    Anthropic.TrailKept(dec, enc, Anthropic.Base(system), said);
    TrailKept(dec, ms, ms);
  }

  /** A tool use and a result for it in a later message of the user. */
  lemma AnthropicPair(dec: Decoder, enc: Anthropic.Encoder, system: string, said: seq<Anthropic.Said>,
                      i: nat, p: nat, j: nat, q: nat)
    requires i < j < |said| && said[i].role == "assistant" && said[j].role == "user"
    requires p < |said[i].blocks| && said[i].blocks[p].ToolUse?
    requires q < |said[j].blocks| && said[j].blocks[q].ToolResult?
    requires said[i].blocks[p].id == said[j].blocks[q].toolUseID
    ensures var ms := Anthropic.Messages(dec, enc, Anthropic.Base(system), said);
      var out, c, b := Converted(dec, ms, ms), said[i].blocks[p], said[j].blocks[q];
      var result := Returned(b.toolUseID, Anthropic.NameSoFar(said[..j], b.toolUseID),
                             Repaired(ResultText(dec, b.content)));
      exists n: nat :: n < |out|
        && HeldBefore(out, n, CallPart(c.id, c.name, ArgsJSON(Anthropic.ArgumentsOf(c.input))))
        && out[n] == CCMessage("tool", [Told(Anthropic.Marks(dec, said), result)])
  {
    hide Converted, CCTrail, Trail, Anthropic.Messages, Anthropic.Marks, Anthropic.ResultMessages;
    hide Anthropic.ResultMarks, Encoded, ResultText, LastIn, ArgsJSON, NameOf, HeldBefore, Repaired;
    hide Anthropic.NameSoFar, Anthropic.ArgumentsOf;
    var base := Anthropic.Base(system);
    var ms := Anthropic.Messages(dec, enc, base, said);
    SystemTrail(dec, system);
    Anthropic.TrailKept(dec, enc, base, said);
    Anthropic.ResultPlaced(dec, enc, base, said, j, q);
    var c, b, bs := said[i].blocks[p], said[j].blocks[q], said[j].blocks;
    var before := Anthropic.Messages(dec, enc, base, said[..j]) + Anthropic.ResultMessages(dec, said[..j], bs[..q]);
    var m := Anthropic.ResultMessage(dec, said[..j], b);
    Placed(dec, ms, before, m);
    AnthropicMark(dec, said, i, p, j);
    TextSurvives(dec, ResultText(dec, b.content));
    NameIsLast(dec, ms, b.toolUseID);
    var call := Call(c.id, c.name, Anthropic.ArgumentsOf(c.input));
    assert Told(Trail(dec, ms), Called(call)) == CallPart(c.id, c.name, ArgsJSON(call.args));
    var out, n := Converted(dec, ms, ms), |Converted(dec, ms, before)|;
    assert out[n] == One(dec, ms, m)[0];
  }

  lemma {:induction false} AnthropicMark(dec: Decoder, said: seq<Anthropic.Said>, i: nat, p: nat, j: nat)
    requires i < j <= |said| && said[i].role == "assistant" && p < |said[i].blocks| && said[i].blocks[p].ToolUse?
    ensures var c := said[i].blocks[p];
      Called(Call(c.id, c.name, Anthropic.ArgumentsOf(c.input))) in Anthropic.Marks(dec, said[..j])
  {
    hide Anthropic.ArgumentsOf, Anthropic.ResultMarks, Anthropic.Calls;
    var n := j - 1;
    assert said[..j][..n] == said[..n];
    if i < n {
      AnthropicMark(dec, said, i, p, n);
    } else {
      BlockCalled(said[i].blocks, p);
    }
  }

  lemma {:induction false} BlockCalled(bs: seq<Anthropic.Block>, p: nat)
    requires p < |bs| && bs[p].ToolUse?
    ensures Called(Call(bs[p].id, bs[p].name, Anthropic.ArgumentsOf(bs[p].input))) in CallMarks(Anthropic.Calls(bs))
  {
    hide CallMarks, Anthropic.ArgumentsOf;
    var n := |bs| - 1;
    if p < n {
      BlockCalled(bs[..n], p);
      CallMarkIn(Anthropic.Calls(bs[..n]), Anthropic.Calls(bs),
                 Call(bs[p].id, bs[p].name, Anthropic.ArgumentsOf(bs[p].input)));
    } else {
      CallMarkLast(Anthropic.Calls(bs));
    }
  }

  lemma CallMarkIn(calls: seq<Call>, more: seq<Call>, c: Call)
    requires Called(c) in CallMarks(calls) && calls <= more
    ensures Called(c) in CallMarks(more)
  {
    var i :| 0 <= i < |calls| && CallMarks(calls)[i] == Called(c);
    assert CallMarks(more)[i] == Called(c);
  }

  lemma CallMarkLast(calls: seq<Call>)
    requires calls != []
    ensures Called(calls[|calls| - 1]) in CallMarks(calls)
  {
    assert CallMarks(calls)[|calls| - 1] == Called(calls[|calls| - 1]);
  }

  /* ---- Gemini ---- */

  lemma GeminiTrail(dec: Decoder, random: Hex, system: string, turns: seq<Gemini.Turn>)
    ensures var ms, marks := Gemini.Messages(random, Gemini.Base(system), turns), Gemini.Marks(random, turns);
      CCTrail(Converted(dec, ms, ms)) == ToldAll(marks, marks)
  {
    hide Converted, CCTrail, Trail, Told, Gemini.Messages, Gemini.Marks;
    var ms := Gemini.Messages(random, Gemini.Base(system), turns);
    SystemTrail(dec, system);
    Gemini.TrailKept(dec, random, Gemini.Base(system), turns);
    TrailKept(dec, ms, ms);
  }

  /** A call and the next response with its name: the result upstream has the call's identifier, and the
      call stands in an earlier message. */
  lemma GeminiPair(dec: Decoder, random: Hex, system: string, turns: seq<Gemini.Turn>, i: nat, j: nat)
    requires i < j < |turns| && turns[i].piece.FunctionCall? && turns[j].piece.FunctionResponse?
    requires turns[i].piece.name == turns[j].piece.name
    requires forall k :: i < k < j && turns[k].piece.FunctionCall? ==> turns[k].piece.name != turns[i].piece.name
    ensures var ms := Gemini.Messages(random, Gemini.Base(system), turns);
      var out, c, id := Converted(dec, ms, ms), turns[i].piece, Gemini.CallId(random, i);
      exists n: nat :: n < |out|
        && HeldBefore(out, n, CallPart(id, c.name, ArgsJSON(c.args)))
        && out[n]
           == CCMessage("tool", [Told(Gemini.Marks(random, turns),
                                      Returned(id, "", Repaired(turns[j].piece.response)))])
  {
    hide Converted, CCTrail, Trail, Gemini.Messages, Gemini.Marks, Encoded, ResultText, LastIn, Gemini.CallId;
    hide ArgsJSON, NameOf, HeldBefore, Repaired;
    var base := Gemini.Base(system);
    var ms := Gemini.Messages(random, base, turns);
    SystemTrail(dec, system);
    Gemini.TrailKept(dec, random, base, turns);
    Gemini.ResultPlaced(dec, random, base, turns, j);
    GeminiID(random, turns, i, j);
    var before, c, id := Gemini.Messages(random, base, turns[..j]), turns[i].piece, Gemini.CallId(random, i);
    var m := Gemini.FlushMessage(random, turns, j);
    Placed(dec, ms, before, m);
    GeminiMark(random, turns, i, j);
    NameIsLast(dec, ms, id);
    assert Told(Trail(dec, ms), Called(Call(id, c.name, c.args))) == CallPart(id, c.name, ArgsJSON(c.args));
    var out, n := Converted(dec, ms, ms), |Converted(dec, ms, before)|;
    assert out[n] == One(dec, ms, m)[0];
  }

  lemma {:induction false} GeminiMark(random: Hex, turns: seq<Gemini.Turn>, i: nat, j: nat)
    requires i < j <= |turns| && turns[i].piece.FunctionCall?
    ensures Called(Call(Gemini.CallId(random, i), turns[i].piece.name, turns[i].piece.args))
            in Gemini.Marks(random, turns[..j])
  {
    hide Gemini.CallId, Gemini.ResponseID;
    var n := j - 1;
    assert turns[..j][..n] == turns[..n];
    if i < n {
      GeminiMark(random, turns, i, n);
    }
  }

  lemma {:induction false} GeminiID(random: Hex, turns: seq<Gemini.Turn>, i: nat, j: nat)
    requires i < j <= |turns| && turns[i].piece.FunctionCall?
    requires forall k :: i < k < j && turns[k].piece.FunctionCall? ==> turns[k].piece.name != turns[i].piece.name
    ensures Gemini.LastCallID(random, turns[..j], turns[i].piece.name) == Some(Gemini.CallId(random, i))
  {
    var n := j - 1;
    assert turns[..j][..n] == turns[..n];
    if i < n {
      GeminiID(random, turns, i, n);
    }
  }

  /* ---- What is said, from the request to the upstream ---- */

  /** A system text that comes before everything else. */
  function First(system: string): seq<string> { if system == "" then [] else [Repaired(system)] }

  lemma BaseSpeech(dec: Decoder, system: string)
    ensures AllSpoken(dec, Responses.Base(system)) == [] && AllSpoken(dec, Gemini.Base(system)) == []
    ensures AllSpoken(dec, Anthropic.Base(system)) == []
    ensures SystemTexts(dec, Responses.Base(system)) == First(system)
    ensures SystemTexts(dec, Gemini.Base(system)) == First(system)
    ensures SystemTexts(dec, Anthropic.Base(system)) == First(system)
  {
    hide Encoded, Spoken, MessageText, Repaired;
    var m := TextMessage("system", Encoded(system));
    assert [m][..0] == [];
    SystemSilent(dec, Encoded(system));
    TextSurvives(dec, system);
  }

  /** What the user says in a Responses request, and the instructions among its items. */
  function ResponsesUser(input: Responses.Input): seq<Line> {
    match input
    case NoInput => []
    case InputText(s) => [Line("user", Words(Repaired(s)))]
    case InputItems(items) => Responses.UserSays(items)
  }

  function ResponsesInstructions(input: Responses.Input): seq<string> {
    if input.InputItems? then Responses.Instructions(input.items) else []
  }

  /** The upstream hears what the items say, run by run; of the user it hears exactly the texts, in order,
      and the system texts are the instructions. */
  lemma ResponsesSpeech(dec: Decoder, random: Hex, instructions: string, input: Responses.Input)
    ensures var ms := Responses.RequestMessages(random, instructions, input);
      var heard := AllHeard(Converted(dec, ms, ms));
      && (input.InputItems? ==> heard == Responses.Lines(dec, random, input.items))
      && ByUser(heard) == ResponsesUser(input)
      && SystemTexts(dec, ms) == First(instructions) + ResponsesInstructions(input)
  {
    hide Converted, AllHeard, AllSpoken, Responses.Messages, Responses.Lines, SystemTexts, Responses.Base, First;
    hide Responses.UserSays, Responses.Instructions, ByUser, Encoded, Spoken, MessageText, Repaired;
    var base := Responses.Base(instructions);
    var ms := Responses.RequestMessages(random, instructions, input);
    BaseSpeech(dec, instructions);
    SpeechKept(dec, ms, ms);
    assert First(instructions) + [] == First(instructions);
    match input
    case NoInput => NotByUser([]);
    case InputText(s) =>
      var m := TextMessage("user", Encoded(s));
      SpokenSnoc(dec, base, m);
      SystemSnoc(dec, base, m);
      UserSpeaks(dec, s);
      OnlyByUser([Line("user", Words(Repaired(s)))]);
      assert AllSpoken(dec, ms) == [Line("user", Words(Repaired(s)))];
    case InputItems(items) =>
      Responses.SpeechKept(dec, random, base, items);
      Responses.SystemKept(dec, random, base, items);
      Responses.UserHeard(dec, random, items);
  }

  /** The same of the messages of an Anthropic request, with the user's images. */
  lemma AnthropicSpeech(dec: Decoder, enc: Anthropic.Encoder, system: string, said: seq<Anthropic.Said>)
    requires Anthropic.Faithful(dec, enc)
    ensures var ms := Anthropic.Messages(dec, enc, Anthropic.Base(system), said);
      var heard := AllHeard(Converted(dec, ms, ms));
      && heard == Anthropic.Lines(dec, said)
      && ByUser(heard) == Anthropic.UserSays(said)
      && SystemTexts(dec, ms) == First(system)
  {
    hide Converted, AllHeard, AllSpoken, Anthropic.Messages, Anthropic.Lines, SystemTexts, Anthropic.Base, First;
    hide Anthropic.UserSays, ByUser, Anthropic.Faithful;
    var base := Anthropic.Base(system);
    var ms := Anthropic.Messages(dec, enc, base, said);
    BaseSpeech(dec, system);
    Anthropic.SpeechKept(dec, enc, base, said);
    Anthropic.SystemKept(dec, enc, base, said);
    Anthropic.UserHeard(dec, said);
    SpeechKept(dec, ms, ms);
  }

  /** The same of the contents of a Gemini request; the model's text is heard whole. */
  lemma GeminiSpeech(dec: Decoder, random: Hex, system: string, contents: seq<Gemini.GeminiContent>)
    requires Gemini.ReadsImages(dec)
    ensures var turns := Gemini.Flat(contents);
      var ms := Gemini.Messages(random, Gemini.Base(system), turns);
      var heard := AllHeard(Converted(dec, ms, ms));
      && heard == Gemini.Lines(random, turns)
      && ByUser(heard) == Gemini.ContentsSay(contents)
      && WordsBy(heard, "assistant") == Gemini.ModelSays(turns, false)
      && SystemTexts(dec, ms) == First(system)
  {
    hide Converted, AllHeard, AllSpoken, Gemini.Messages, Gemini.Lines, SystemTexts, Gemini.Base, First;
    hide Gemini.UserSays, Gemini.ModelSays, ByUser, WordsBy, Gemini.ReadsImages, Gemini.Flat, Gemini.ContentsSay;
    var turns := Gemini.Flat(contents);
    Gemini.ContentsAreTurns(contents);
    var base := Gemini.Base(system);
    var ms := Gemini.Messages(random, base, turns);
    BaseSpeech(dec, system);
    Gemini.SpeechKept(dec, random, base, turns);
    Gemini.SystemKept(dec, random, base, turns);
    Gemini.UserHeard(random, turns);
    Gemini.ModelHeard(random, turns);
    SpeechKept(dec, ms, ms);
  }
}
