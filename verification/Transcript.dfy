/** What is said in a conversation, line by line: texts, images, thoughts, calls and results in order. */
module Transcript {
  import opened Text
  import opened Upstream
  import opened Json
  import opened Chat

  datatype Thing =
    | Words(s: string)
    | Picture(url: string)
    | Thought(s: string)
    | Use(id: string, name: string, args: Option<Value>)
    | Outcome(id: string, text: string)

  datatype Line = Line(role: string, thing: Thing)

  /** The user's parts: the two kinds of images, and whatever has a text. */
  function UserLines(parts: seq<Part>): seq<Line> {
    seq(|parts|, i requires 0 <= i < |parts| =>
      var p := parts[i];
      if p.typ == "image_url" && p.imageURL.Some? then Line("user", Picture(p.imageURL.value))
      else if p.typ == "image" && p.text == "" then Line("user", Picture(p.content))
      else Line("user", Words(if p.text == "" then p.content else p.text)))
  }

  /** The assistant's parts. Thoughts among them count only if the message has none of its own. */
  function AssistantLines(parts: seq<Part>, thoughtful: bool): seq<Line> {
    if parts == [] then [] else
      var p := parts[|parts| - 1];
      var words := if p.text == "" then p.content else p.text;
      AssistantLines(parts[..|parts| - 1], thoughtful)
      + if p.typ != "reasoning" then (if words == "" then [] else [Line("assistant", Words(words))])
        else if thoughtful then []
        else [Line("assistant", Thought(if p.reasoning == "" then words else p.reasoning))]
  }

  function UseLines(calls: seq<Call>): seq<Line> {
    seq(|calls|, i requires 0 <= i < |calls| =>
      Line("assistant", Use(calls[i].id, calls[i].name, Parse(ArgsJSON(calls[i].args)))))
  }

  /** What one message of the chat says. A system message does not speak in the conversation. */
  function Spoken(dec: Decoder, m: Message): seq<Line> {
    var parts := ContentParts(dec, m.content);
    match m.role
    case "system" => []
    case "developer" => []
    case "assistant" =>
      var thought := if m.reasoning == "" then m.thinking else m.reasoning;
      (if thought == "" then [] else [Line("assistant", Thought(thought))])
      + AssistantLines(parts, thought != "") + UseLines(m.calls)
    case "tool" => [Line("tool", Outcome(m.toolCallID, ResultText(dec, m.content)))]
    case "function" => [Line("tool", Outcome(m.toolCallID, ResultText(dec, m.content)))]
    case _ => if parts == [] then [Line("user", Words(""))] else UserLines(parts)
  }

  function AllSpoken(dec: Decoder, ms: seq<Message>): seq<Line> {
    if ms == [] then [] else AllSpoken(dec, ms[..|ms| - 1]) + Spoken(dec, ms[|ms| - 1])
  }

  lemma SpokenSnoc(dec: Decoder, ms: seq<Message>, m: Message)
    ensures AllSpoken(dec, ms + [m]) == AllSpoken(dec, ms) + Spoken(dec, m)
  {
    hide Spoken;
    assert (ms + [m])[..|ms|] == ms;
  }

  /** The system texts of a chat. */
  function SystemTexts(dec: Decoder, ms: seq<Message>): seq<string> {
    if ms == [] then [] else
      var m := ms[|ms| - 1];
      SystemTexts(dec, ms[..|ms| - 1])
      + if m.role in {"system", "developer"} then [MessageText(dec, m.content)] else []
  }

  lemma SystemSnoc(dec: Decoder, ms: seq<Message>, m: Message)
    ensures SystemTexts(dec, ms + [m])
            == SystemTexts(dec, ms) + if m.role in {"system", "developer"} then [MessageText(dec, m.content)] else []
  {
    hide MessageText;
    assert (ms + [m])[..|ms|] == ms;
  }

  /** The lines of the user alone. */
  function ByUser(lines: seq<Line>): seq<Line> {
    if lines == [] then [] else
      var last := lines[|lines| - 1];
      ByUser(lines[..|lines| - 1]) + if last.role == "user" then [last] else []
  }

  lemma {:induction false} ByUserAppend(a: seq<Line>, b: seq<Line>)
    ensures ByUser(a + b) == ByUser(a) + ByUser(b)
  {
    if b == [] {
      assert a + b == a;
    } else {
      assert (a + b)[..|a + b| - 1] == a + b[..|b| - 1];
      ByUserAppend(a, b[..|b| - 1]);
    }
  }

  lemma {:induction false} NotByUser(lines: seq<Line>)
    requires forall i :: 0 <= i < |lines| ==> lines[i].role != "user"
    ensures ByUser(lines) == []
  {
    if lines != [] {
      NotByUser(lines[..|lines| - 1]);
    }
  }

  lemma {:induction false} OnlyByUser(lines: seq<Line>)
    requires forall i :: 0 <= i < |lines| ==> lines[i].role == "user"
    ensures ByUser(lines) == lines
  {
    if lines != [] {
      OnlyByUser(lines[..|lines| - 1]);
    }
  }

  /** The words of one role, put together. */
  function WordsBy(lines: seq<Line>, role: string): string {
    if lines == [] then "" else
      var last := lines[|lines| - 1];
      WordsBy(lines[..|lines| - 1], role) + if last.role == role && last.thing.Words? then last.thing.s else ""
  }

  lemma NoWords()
    ensures forall role :: WordsBy([], role) == ""
  {
  }

  lemma {:induction false} WordsAppend(a: seq<Line>, b: seq<Line>, role: string)
    ensures WordsBy(a + b, role) == WordsBy(a, role) + WordsBy(b, role)
  {
    if b == [] {
      assert a + b == a && WordsBy(a, role) + "" == WordsBy(a, role);
    } else {
      assert (a + b)[..|a + b| - 1] == a + b[..|b| - 1];
      WordsAppend(a, b[..|b| - 1], role);
      var last := b[|b| - 1];
      Assoc3(WordsBy(a, role), WordsBy(b[..|b| - 1], role),
             if last.role == role && last.thing.Words? then last.thing.s else "");
    }
  }

  lemma {:induction false} Wordless(lines: seq<Line>, role: string)
    requires forall i :: 0 <= i < |lines| ==> !lines[i].thing.Words?
    ensures WordsBy(lines, role) == ""
  {
    if lines != [] {
      Wordless(lines[..|lines| - 1], role);
    }
  }

  lemma SaidWords(text: string, thought: string, calls: seq<Call>)
    ensures WordsBy(AssistantSays(text, thought, calls), "assistant") == Repaired(text)
  {
    hide WordsBy, Repaired, Parse, ArgsJSON;
    var first := if thought == "" then [] else [Line("assistant", Thought(thought))];
    var second := if text == "" then [] else [Line("assistant", Words(Repaired(text)))];
    WordsAppend(first + second, UseLines(calls), "assistant");
    WordsAppend(first, second, "assistant");
    Wordless(first, "assistant");
    Wordless(UseLines(calls), "assistant");
    OneLine(second);
    ValidIsRepaired("");
    NoWords();
  }

  lemma OneLine(lines: seq<Line>)
    requires lines == [] || (|lines| == 1 && lines[0].role == "assistant" && lines[0].thing.Words?)
    ensures WordsBy(lines, "assistant") == if lines == [] then "" else lines[0].thing.s
  {
    if lines != [] {
      assert lines[..0] == [];
    }
  }

  /** A user's message that one pass encodes says that text, and nothing else. */
  lemma UserSpeaks(dec: Decoder, s: string)
    ensures Spoken(dec, TextMessage("user", Encoded(s))) == [Line("user", Words(Repaired(s)))]
  {
    hide Repaired, Encoded, ContentParts, ResultText;
    TextSurvives(dec, s);
  }

  lemma SystemSilent(dec: Decoder, s: string)
    ensures Spoken(dec, TextMessage("system", s)) == []
  {
    hide ContentParts;
  }

  lemma ToolSpeaks(dec: Decoder, id: string, content: string, name: string)
    ensures Spoken(dec, ToolMessage(id, content, name)) == [Line("tool", Outcome(id, ResultText(dec, content)))]
  {
    hide ResultText, ContentParts;
  }

  /** The assistant's message that the first pass builds: the thought, the text, the calls. */
  lemma AssistantSpeaks(dec: Decoder, text: string, thought: string, calls: seq<Call>)
    ensures Spoken(dec, Message("assistant", if text == "" then "" else Encoded(text), "", "", thought, "", calls))
            == AssistantSays(text, thought, calls)
  {
    hide Repaired, Encoded, ContentParts, ResultText, UseLines;
    TextSurvives(dec, text);
    RepairedSome(text);
    if text == "" {
      NoParts(dec);
    } else {
      var p := TextContent(Repaired(text));
      assert [p][..0] == [];
      assert AssistantLines([p], thought != "") == [Line("assistant", Words(Repaired(text)))];
    }
  }

  /** What a message of the assistant's says: the thought, the text, the calls. */
  function AssistantSays(text: string, thought: string, calls: seq<Call>): seq<Line> {
    (if thought == "" then [] else [Line("assistant", Thought(thought))])
    + (if text == "" then [] else [Line("assistant", Words(Repaired(text)))])
    + UseLines(calls)
  }

  lemma RepairedSome(s: string)
    ensures s != "" ==> Repaired(s) != ""
  {
  }

  lemma NoParts(dec: Decoder)
    ensures ContentParts(dec, "") == []
  {
  }
}
