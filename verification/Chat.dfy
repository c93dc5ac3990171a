/** ccbuild.go, translate.go: the chat form that every protocol is translated into, and how its contents
    are encoded and decoded. */
module Chat {
  import opened Text
  import opened Upstream
  import opened Json
  import opened JsonPrinter
  import JsonCompact

  /* ---- Strings as JSON ---- */

  /** A character keeps its width whatever follows it. */
  lemma WidthKept(s: string, t: string)
    requires Width(s) > 0
    ensures Width(s[..Width(s)] + t) == Width(s)
  {
  }

  lemma {:induction false} RepairedValid(s: string)
    ensures ValidUtf8(Repaired(s))
    decreases |s|
  {
    hide Width;
    if s != "" {
      var w := if Width(s) == 0 then 1 else Width(s);
      var rest := Repaired(s[w..]);
      RepairedValid(s[w..]);
      if Width(s) == 0 {
        ReplacementWidth(rest);
        assert (REPLACEMENT + rest)[3..] == rest;
      } else {
        WidthKept(s, rest);
        assert (s[..w] + rest)[w..] == rest;
      }
    }
  }

  lemma ReplacementWidth(t: string)
    ensures Width(REPLACEMENT + t) == 3
  {
  }

  /** mustJSON of a string. */
  function Encoded(s: string): (r: string)
    ensures |r| >= 2 && r[0] == '"' && r[|r| - 1] == '"'
  {
    "\"" + Marshal(s) + "\""
  }

  /** json.Unmarshal into a string. */
  function Decoded(text: string): Option<string> {
    var v := Parse(text);
    if v.Some? && v.value.Str? then Some(Repaired(v.value.s)) else None
  }

  /** What is encoded and decoded again comes back unchanged, its malformed bytes replaced. */
  lemma DecodeEncoded(s: string)
    ensures Decoded(Encoded(s)) == Some(Repaired(s))
  {
    hide Marshal, Repaired, Feed, ValidUtf8;
    var body := Marshal(s);
    MarshalSpells(s);
    FeedAppend(START, "\"" + body, "\"");
    FeedAppend(START, "\"", body);
    FeedOne(START, '"');
    assert "" + Repaired(s) == Repaired(s);
    FeedOne(Reading(Outside, InString(false, Repaired(s))), '"');
    RepairedValid(s);
    ValidIsRepaired(Repaired(s));
  }

  /** An escaped pair of surrogates decodes to the one character it stands for. */
  lemma PairDecoded(high: nat, low: nat)
    requires IsHigh(high) && IsLow(low)
    ensures Decoded("\"" + (UnicodeEscape(high) + UnicodeEscape(low)) + "\"") == Some(Utf8Pair(high, low))
  {
    hide Repaired, Feed, ValidUtf8, Utf8Pair, UnicodeEscape;
    var body, pair := UnicodeEscape(high) + UnicodeEscape(low), Utf8Pair(high, low);
    PairSpells(high, low);
    FeedAppend(START, "\"" + body, "\"");
    FeedAppend(START, "\"", body);
    FeedOne(START, '"');
    assert "" + pair == pair;
    FeedOne(Reading(Outside, InString(false, pair)), '"');
    PairValid(high, low);
    ValidIsRepaired(pair);
  }

  lemma PairValid(high: nat, low: nat)
    requires IsHigh(high) && IsLow(low)
    ensures ValidUtf8(Utf8Pair(high, low))
  {
    var pair := Utf8Pair(high, low);
    assert Width(pair) == 4 && pair[4..] == "";
  }

  lemma EncodedTrimmed(s: string)
    ensures Trim(Encoded(s)) == Encoded(s) && Encoded(s) != "" && Encoded(s)[0] == '"'
  {
    TrimFixed(Encoded(s));
  }

  /* ---- Contents ---- */

  datatype Part = Part(typ: string, text: string, content: string, imageURL: Option<string>, reasoning: string) {
    function TextOf(): string { if text != "" then text else content }
  }

  function TextContent(s: string): Part { Part("text", s, "", None, "") }

  /** json.Unmarshal into a list of parts. */
  type Decoder = string -> Option<seq<Part>>

  function TextsOf(parts: seq<Part>): string {
    if parts == [] then "" else TextsOf(parts[..|parts| - 1]) + parts[|parts| - 1].TextOf()
  }

  function JoinedTexts(parts: seq<Part>): string {
    if parts == [] then ""
    else if |parts| == 1 then parts[0].TextOf()
    else JoinedTexts(parts[..|parts| - 1]) + "\n" + parts[|parts| - 1].TextOf()
  }

  /** The texts of a tool result are put together as they are. */
  lemma {:induction false} TextsAppend(a: seq<Part>, b: seq<Part>)
    ensures TextsOf(a + b) == TextsOf(a) + TextsOf(b)
  {
    if b == [] {
      assert a + b == a;
    } else {
      var n := |b| - 1;
      assert (a + b)[..|a + b| - 1] == a + b[..n];
      TextsAppend(a, b[..n]);
      Assoc3(TextsOf(a), TextsOf(b[..n]), b[n].TextOf());
    }
  }

  /** Those of a system message stand on lines of their own. */
  lemma {:induction false} JoinedAppend(a: seq<Part>, b: seq<Part>)
    requires a != [] && b != []
    ensures JoinedTexts(a + b) == JoinedTexts(a) + "\n" + JoinedTexts(b)
  {
    var n := |b| - 1;
    assert (a + b)[..|a + b| - 1] == a + b[..n];
    if n == 0 {
      assert a + b[..n] == a;
    } else {
      JoinedAppend(a, b[..n]);
      var x, y := JoinedTexts(a) + "\n", JoinedTexts(b[..n]);
      Assoc3(x, y, "\n");
      Assoc3(x, y + "\n", b[n].TextOf());
    }
  }

  lemma OnePart(p: Part)
    ensures var text := if p.text == "" then p.content else p.text; TextsOf([p]) == text && JoinedTexts([p]) == text
  {
    assert [p][..0] == [];
  }

  /** toolResultText. */
  method ToolResultText(dec: Decoder, content: string) returns (r: string)
    ensures r == ResultText(dec, content)
  {
    var trimmed := Trim(content);
    if |trimmed| == 0 || trimmed == "null" {
      return "";
    }
    if trimmed[0] == '"' {
      var s := Decoded(trimmed);
      return if s.Some? then s.value else trimmed;
    }
    if trimmed[0] == '[' {
      var parts := dec(trimmed);
      if parts.Some? {
        r := "";
        for i := 0 to |parts.value|
          invariant r == TextsOf(parts.value[..i])
        {
          assert parts.value[..i + 1][..i] == parts.value[..i];
          r := r + parts.value[i].TextOf();
        }
        assert parts.value[..|parts.value|] == parts.value;
        return r;
      }
    }
    return trimmed;
  }

  function ResultText(dec: Decoder, content: string): string {
    var t := Trim(content);
    if t == "" || t == "null" then ""
    else if t[0] == '"' then if Decoded(t).Some? then Decoded(t).value else t
    else if t[0] == '[' && dec(t).Some? then TextsOf(dec(t).value)
    else t
  }

  /** contentParts. */
  function ContentParts(dec: Decoder, content: string): seq<Part> {
    var t := Trim(content);
    if t == "" || t == "null" then []
    else if t[0] == '"' then if Decoded(t).Some? then [TextContent(Decoded(t).value)] else []
    else if t[0] == '[' && dec(t).Some? then dec(t).value
    else [TextContent(t)]
  }

  /** messageText. */
  function MessageText(dec: Decoder, content: string): string {
    var t := Trim(content);
    if t == "" || t == "null" then ""
    else if t[0] == '"' then if Decoded(t).Some? then Decoded(t).value else ""
    else if t[0] == '[' && dec(t).Some? then JoinedTexts(dec(t).value)
    else t
  }

  /** The three readings of a content agree: a system text is the texts of its parts line by line, and a result
      is these put together, except that a string that cannot be read stands as it is. */
  lemma ContentsAgree(dec: Decoder, content: string)
    ensures MessageText(dec, content) == JoinedTexts(ContentParts(dec, content))
    ensures var t := Trim(content);
      ResultText(dec, content) == if t != "" && t[0] == '"' && Decoded(t).None? then t
                                  else TextsOf(ContentParts(dec, content))
    ensures var t := Trim(content);
      t != "" && t[0] == '[' && dec(t).Some? ==> ContentParts(dec, content) == dec(t).value
  {
    hide Decoded, Trim, JoinedTexts, TextsOf;
    var t := Trim(content);
    OnePart(TextContent(t));
    NoPart();
    assert "null"[0] == 'n';
    if t != "" && t[0] == '"' && Decoded(t).Some? {
      OnePart(TextContent(Decoded(t).value));
    }
  }

  lemma NoPart()
    ensures TextsOf([]) == "" && JoinedTexts([]) == ""
  {
  }

  /** A text that one pass encodes is what the next pass reads, in whatever place it stands. */
  lemma TextSurvives(dec: Decoder, s: string)
    ensures ResultText(dec, Encoded(s)) == Repaired(s)
    ensures ContentParts(dec, Encoded(s)) == [TextContent(Repaired(s))]
    ensures MessageText(dec, Encoded(s)) == Repaired(s)
    ensures ValidUtf8(s) ==> Repaired(s) == s
  {
    hide Encoded, Decoded, Repaired, Trim, ValidUtf8;
    EncodedTrimmed(s);
    DecodeEncoded(s);
    assert "null"[0] != '"';
    if ValidUtf8(s) {
      ValidIsRepaired(s);
    }
  }

  /* ---- Tool arguments ---- */

  /** What toolArgsJSON finds in the bytes of an `input` or `arguments` field. */
  function Classified(raw: string): Input {
    var t := Trim(raw);
    if t == "" || t == "null" then Absent
    else if t[0] == '"' && Decoded(t).Some? then JsonString(Decoded(t).value)
    else TrimFixed(t); JsonText(t)
  }

  function ArgsJSON(raw: string): string { ToolArgs(Classified(raw)) }

  /** The character that opened the outermost array or object. */
  function Base(stack: Stack): char {
    match stack
    case Outside => ' '
    case InArr(_, below) => if below.Outside? then '[' else Base(below)
    case InObj(_, _, below) => if below.Outside? then '{' else Base(below)
  }

  /** What the first character of a text says about the value being read. */
  predicate Rooted(st: State, first: char) {
    st.Reading? ==>
      if st.stack.Outside? then
        match st.mode
        case InNumber(_, _) => first != '"' && first != 'n'
        case InWord(_, word) => first != '"' && !word.Str? && (word.Null? <==> first == 'n')
        case Complete(v) => (v.Str? <==> first == '"') && (v.Null? <==> first == 'n')
        case m => JsonCompact.InText(m) && first == '"'
      else !st.mode.Complete? && Base(st.stack) == first && (first == '[' || first == '{')
  }

  lemma BasePut(stack: Stack, v: Value)
    ensures !stack.Outside? ==> Base(Put(stack, v).stack) == Base(stack)
  {
  }

  /** Within the outermost array or object. */
  predicate Inside(stack: Stack, first: char) {
    !stack.Outside? && Base(stack) == first && (first == '[' || first == '{')
  }

  lemma PutRooted(stack: Stack, v: Value, first: char)
    requires Inside(stack, first)
    ensures Rooted(Put(stack, v), first)
  {
    BasePut(stack, v);
  }

  lemma SeparateRooted(stack: Stack, c: char, first: char)
    requires Inside(stack, first)
    ensures Rooted(Separate(stack, c), first)
  {
    BasePut(stack.below, if stack.InArr? then Arr(stack.items) else Obj(stack.fields));
  }

  lemma BeginInside(stack: Stack, c: char, first: char)
    requires Inside(stack, first)
    ensures Rooted(Begin(stack, c), first)
  {
  }

  lemma KeyInside(stack: Stack, first: char, key: string)
    requires Inside(stack, first) && stack.InObj?
    ensures Inside(stack.(key := key), first)
  {
  }

  lemma StepRooted(st: State, first: char, c: char)
    requires Rooted(st, first)
    ensures Rooted(Step(st, c), first)
  {
    hide NextPhase, HexValue, Short;
    if st.Reading? && !st.stack.Outside? {
      InsideStep(st, first, c);
    }
  }

  lemma InsideStep(st: State, first: char, c: char)
    requires st.Reading? && Inside(st.stack, first) && !st.mode.Complete?
    ensures Rooted(Step(st, c), first)
  {
    hide Begin, Separate, Put, Base, NextPhase, HexValue, Short;
    var stack, m := st.stack, st.mode;
    SeparateRooted(stack, c, first);
    BeginInside(stack, c, first);
    if m.InWord? {
      PutRooted(stack, m.word, first);
    } else if m.InNumber? {
      PutRooted(stack, Number(m.text), first);
      PutSettled(stack, Number(m.text));
      SeparateRooted(Put(stack, Number(m.text)).stack, c, first);
    } else if m.InString? || m.AfterHigh? {
      var s := if m.InString? then m.s else m.s + REPLACEMENT;
      PutRooted(stack, Str(s), first);
      if stack.InObj? {
        KeyInside(stack, first, s);
      }
    }
  }

  lemma PutSettled(stack: Stack, v: Value)
    ensures !stack.Outside? ==> Put(stack, v).Reading? && Put(stack, v).mode.Settled?
  {
  }

  lemma {:induction false} FeedRooted(st: State, first: char, text: string)
    requires Rooted(st, first)
    ensures Rooted(Feed(st, text), first)
    decreases |text|
  {
    hide Step, Rooted;
    if text != "" {
      StepRooted(st, first, text[0]);
      FeedRooted(Step(st, text[0]), first, text[1..]);
    }
  }

  /** The first character of a JSON text decides whether it is a string, and whether it is null. */
  lemma FirstTells(t: string)
    requires t != "" && !White(t[0]) && Parse(t).Some?
    ensures Parse(t).value.Str? <==> t[0] == '"'
    ensures Parse(t).value.Null? <==> t[0] == 'n'
  {
    hide Step, Feed;
    BeginRooted(t[0]);
    assert t == [t[0]] + t[1..];
    FeedAppend(START, [t[0]], t[1..]);
    FeedOne(START, t[0]);
    FeedRooted(Step(START, t[0]), t[0], t[1..]);
    assert Rooted(Feed(START, t), t[0]);
    SettleRooted(Feed(START, t), t[0]);
  }

  lemma SettleRooted(st: State, first: char)
    requires Rooted(st, first)
    ensures Rooted(Settle(st), first)
    ensures JsonCompact.Finish(st).Some? ==> Settle(st).stack.Outside?
  {
  }

  lemma BeginRooted(c: char)
    requires !White(c)
    ensures Rooted(Step(START, c), c)
  {
  }

  /** A trimmed JSON text for null is the word itself. */
  lemma OnlyNull(t: string)
    requires Parse(t).Some? && t != "" && t[0] == 'n' && !IsSpace(t[|t| - 1])
    ensures t == "null"
  {
    hide Feed;
    var n := Step(START, 'n');
    assert t == [t[0]] + t[1..];
    FeedAppend(START, [t[0]], t[1..]);
    FeedOne(START, 'n');
    WordSpelled(n, "ull", t[1..]);
  }

  lemma {:induction false} WordSpelled(st: State, rest: string, text: string)
    requires st == if rest == "" then Reading(Outside, Complete(Null)) else Reading(Outside, InWord(rest, Null))
    requires JsonCompact.Finish(Feed(st, text)).Some? && (text != "" ==> !IsSpace(text[|text| - 1]))
    ensures text == rest
    decreases |text|
  {
    if text != "" {
      JsonCompact.FailStays(text[1..]);
      if rest != "" {
        WordSpelled(Step(st, text[0]), rest[1..], text[1..]);
      } else {
        WordSpelled(st, "", text[1..]);
      }
    }
  }

  /** The argument text of a call: the text that a string spells, "{}" for null and for a blank string, and
      otherwise a JSON text for the value that was sent. */
  lemma ArgumentsMean(raw: string)
    requires Parse(raw).Some?
    ensures
      match Parse(raw).value
      case Null => ArgsJSON(raw) == "{}"
      case Str(s) => ArgsJSON(raw) == if Trim(Repaired(s)) == "" then "{}" else Repaired(s)
      case v => ArgsJSON(raw) == Trim(raw) && Parse(ArgsJSON(raw)) == Some(v)
  {
    hide Feed, Repaired;
    var t := Trim(raw);
    JsonCompact.ParseTrimmed(raw);
    TrimEnds(raw);
    FirstTells(t);
    if t[0] == 'n' {
      OnlyNull(t);
    }
  }

  lemma TrimEnds(s: string)
    requires Parse(Trim(s)).Some?
    ensures Trim(s) != "" && !IsSpace(Trim(s)[0]) && !IsSpace(Trim(s)[|Trim(s)| - 1])
  {
  }

  /* ---- Messages ---- */

  datatype Message = Message(
    role: string, content: string, name: string, toolCallID: string, reasoning: string, thinking: string,
    calls: seq<Call>)

  function TextMessage(role: string, content: string): Message { Message(role, content, "", "", "", "", []) }

  function ToolMessage(id: string, content: string, name: string): Message {
    Message("tool", content, name, id, "", "", [])
  }

  /** The calls and results of a conversation, in order. */
  datatype Mark = Called(call: Call) | Returned(id: string, name: string, text: string)

  function CallMarks(calls: seq<Call>): seq<Mark> {
    seq(|calls|, i requires 0 <= i < |calls| => Called(calls[i]))
  }

  predicate IsTool(m: Message) { m.role == "tool" || m.role == "function" }

  function MarksOf(dec: Decoder, m: Message): seq<Mark> {
    if m.role == "assistant" then CallMarks(m.calls)
    else if IsTool(m) then [Returned(m.toolCallID, m.name, ResultText(dec, m.content))]
    else []
  }

  function Trail(dec: Decoder, ms: seq<Message>): seq<Mark> {
    if ms == [] then [] else Trail(dec, ms[..|ms| - 1]) + MarksOf(dec, ms[|ms| - 1])
  }

  lemma TrailSnoc(dec: Decoder, ms: seq<Message>, m: Message)
    ensures Trail(dec, ms + [m]) == Trail(dec, ms) + MarksOf(dec, m)
  {
    assert (ms + [m])[..|ms|] == ms;
  }
}
