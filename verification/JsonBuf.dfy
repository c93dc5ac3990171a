/** jsonx.go: the buffer in which frames are assembled by plain concatenation. */
module JsonBuf {
  import opened Text
  import opened Json
  import opened JsonPrinter

  /** No line break, so that the text fits on one line of an event stream. */
  predicate Clean(text: string) { '\n' !in text && '\r' !in text }

  lemma CleanAppend(a: string, b: string)
    ensures Clean(a + b) <==> Clean(a) && Clean(b)
  {
    if Clean(a + b) {
      assert forall c :: c in a || c in b ==> c in a + b;
    }
  }

  lemma {:induction false} EscapeClean(s: string)
    ensures Clean(Escape(s))
  {
    if s != "" {
      EscapeClean(s[..|s| - 1]);
      CleanAppend(Escape(s[..|s| - 1]), EscapeByte(s[|s| - 1]));
    }
  }

  lemma {:induction false} MarshalClean(s: string)
    ensures Clean(Marshal(s))
    decreases |s|
  {
    hide Width;
    if s != "" {
      var w := if Width(s) == 0 then 1 else Width(s);
      MarshalClean(s[w..]);
      MarshalOneClean(s);
      CleanAppend(MarshalOne(s), Marshal(s[w..]));
    }
  }

  lemma MarshalOneClean(s: string)
    requires s != ""
    ensures Clean(MarshalOne(s))
  {
    hide UnicodeEscape, EscapeByte;
    EscapeByteClean(s[0]);
    UnicodeClean(0xFFFD);
    UnicodeClean(0x2028);
    UnicodeClean(0x2029);
    if Width(s) == 1 {
      UnicodeClean(s[0] as int);
    }
  }

  lemma EscapeByteClean(c: char)
    ensures Clean(EscapeByte(c))
  {
  }

  lemma UnicodeClean(code: nat)
    requires code < 0x10000
    ensures Clean(UnicodeEscape(code))
  {
  }

  lemma QuoteClean(s: string)
    ensures Clean(Quote(s))
  {
    hide Escape, Marshal, ValidUtf8, Clean;
    EscapeClean(s);
    MarshalClean(s);
    var body := if ValidUtf8(s) then Escape(s) else Marshal(s);
    QuoteMarkClean();
    CleanAppend("\"", body);
    CleanAppend("\"" + body, "\"");
  }

  lemma QuoteMarkClean()
    ensures Clean("\"")
  {
  }

  lemma NumberClean(text: string)
    requires NumberText(text)
    ensures Clean(text)
  {
    PhaseClean(text);
  }

  lemma {:induction false} PhaseClean(text: string)
    requires PhaseOf(text).Some?
    ensures Clean(text)
  {
    var n := |text| - 1;
    if n > 0 {
      PhaseClean(text[..n]);
      assert text == text[..n] + [text[n]];
    } else {
      assert text == [text[0]];
    }
  }

  /** A text without line breaks that reads as this value wherever a value may stand. */
  ghost predicate Denotes(text: string, v: Value) {
    && text != "" && Clean(text)
    && forall stack: Stack, m: Mode :: Wants(m) ==> Settle(Feed(Reading(stack, m), text)) == Put(stack, v)
  }

  lemma {:induction false} PrintClean(v: Value)
    requires Proper(v)
    ensures Clean(Print(v))
    decreases v, 1
  {
    hide Clean, Quote, NumberText;
    Punctuation();
    match v
    case Null =>
    case Bool(_) =>
    case Number(text) => NumberClean(text);
    case Str(s) => QuoteClean(s);
    case Arr(items) =>
      ItemsClean(items);
      CleanAppend("[", PrintItems(items));
      CleanAppend("[" + PrintItems(items), "]");
    case Obj(fields) =>
      FieldsClean(fields);
      CleanAppend("{", PrintFields(fields));
      CleanAppend("{" + PrintFields(fields), "}");
  }

  lemma Punctuation()
    ensures Clean("") && Clean(",") && Clean(":") && Clean("[") && Clean("]") && Clean("{") && Clean("}")
    ensures Clean("null") && Clean("true") && Clean("false")
  {
  }

  lemma {:induction false} ItemsClean(items: Items)
    requires ProperItems(items)
    ensures Clean(PrintItems(items))
    decreases items, 0
  {
    hide Clean, Print;
    Punctuation();
    if items.Item? {
      ItemsClean(items.before);
      PrintClean(items.item);
      CleanAppend(PrintItems(items.before), ",");
      CleanAppend(if items.before.NoItems? then "" else PrintItems(items.before) + ",", Print(items.item));
    }
  }

  lemma {:induction false} FieldsClean(fields: Fields)
    requires ProperFields(fields)
    ensures Clean(PrintFields(fields))
    decreases fields, 0
  {
    hide Clean, Print, Quote;
    Punctuation();
    if fields.Field? {
      FieldsClean(fields.before);
      QuoteClean(fields.key);
      PrintClean(fields.value);
      CleanAppend(PrintFields(fields.before), ",");
      CleanAppend(Quote(fields.key), ":");
      CleanAppend(Quote(fields.key) + ":", Print(fields.value));
      CleanAppend(if fields.before.NoFields? then "" else PrintFields(fields.before) + ",",
                  Quote(fields.key) + ":" + Print(fields.value));
    }
  }

  /** Every proper value has such a text: the printed one. */
  lemma PrintDenotes(v: Value)
    requires Proper(v)
    ensures Denotes(Print(v), v)
  {
    hide Clean, Print, Proper, Feed;
    PrintClean(v);
    forall stack: Stack, m: Mode | Wants(m) ensures Settle(Feed(Reading(stack, m), Print(v))) == Put(stack, v) {
      PrintReads(stack, m, v);
    }
    var st := Reading(Outside, WantValue);
    assert Settle(Feed(st, Print(v))) == Put(Outside, v) && Settle(st) != Put(Outside, v);
    assert Feed(st, "") == st by {
      FeedNothing(st);
    }
  }

  /** The text of one server-sent event whose data is one JSON text for this value. */
  ghost predicate Framed(text: string, head: string, v: Value) {
    exists payload: string :: text == head + payload + "\n\n" && Clean(payload) && Parse(payload) == Some(v)
  }

  /** A constant that needs no escaping: its literal is the constant between quotation marks. */
  predicate Plain(s: string) {
    forall i :: 0 <= i < |s| ==> ' ' <= s[i] <= '~' && s[i] != '"' && s[i] != '\\'
  }

  lemma {:induction false} PlainQuote(s: string)
    requires Plain(s)
    ensures Escape(s) == s && ValidUtf8(s) && Repaired(s) == s
    ensures Quote(s) == "\"" + s + "\""
  {
    PlainEscape(s);
    PlainValid(s);
    ValidIsRepaired(s);
  }

  lemma {:induction false} PlainEscape(s: string)
    requires Plain(s)
    ensures Escape(s) == s
  {
    if s != "" {
      PlainEscape(s[..|s| - 1]);
    }
  }

  lemma {:induction false} PlainValid(s: string)
    requires Plain(s)
    ensures ValidUtf8(s)
    decreases |s|
  {
    if s != "" {
      assert Width(s) == 1;
      PlainValid(s[1..]);
    }
  }

  lemma {:induction false} PlainClean(s: string)
    requires Plain(s)
    ensures Clean(s)
  {
  }

  lemma PlainRepaired(s: string)
    requires Plain(s)
    ensures Repaired(s) == s
  {
    PlainQuote(s);
  }

  /** Concatenation, under a name of its own so that its result can be told piece by piece. */
  function Join(before: string, text: string): string { before + text }

  /** Two pieces in a row are one. */
  lemma JoinTwo(before: string, a: string, b: string)
    ensures Join(Join(before, a), b) == Join(before, a + b)
  {
    Assoc3(before, a, b);
  }

  function KeyText(k: string): string { "\"" + k + "\"" + ":" }

  /** A comma and a member's name are one piece. */
  lemma NextPiece(b: string, k: string)
    ensures Join(Join(b, ","), KeyText(k)) == Join(b, "," + KeyText(k))
  {
    JoinTwo(b, ",", KeyText(k));
  }

  /** The end of a frame, after one brace or two. */
  lemma Ends(b: string)
    ensures Join(Join(b, "}"), "\n\n") == Join(b, "}\n\n")
    ensures Join(Join(Join(b, "}"), "}"), "\n\n") == Join(b, "}}\n\n")
  {
    JoinTwo(b, "}", "\n\n");
    JoinTwo(Join(b, "}"), "}", "\n\n");
    JoinTwo(b, "}", "}\n\n");
    assert "}" + "}\n\n" == "}}\n\n" && "}" + "\n\n" == "}\n\n";
  }

  class JsonBuf {
    var b: string
    /** The bytes that precede the JSON text, the JSON text so far, and how far it has been read. */
    ghost var head: string
    ghost var body: string
    ghost var st: State

    constructor ()
      ensures Valid() && head == "" && st == START
    {
      b, head, body, st := "", "", "", START;
    }

    ghost predicate Valid()
      reads this
    {
      b == head + body && Clean(body) && st == Feed(START, body)
    }

    method Reset()
      modifies this
      ensures Valid() && head == "" && st == START && b == ""
    {
      b, head, body, st := "", "", "", START;
    }

    /** `raw` before the JSON text begins. */
    method Lead(text: string)
      requires Valid() && body == ""
      modifies this
      ensures Valid() && head == old(head) + text && body == "" && st == START && b == old(b) + text
    {
      b := b + text;
      head := head + text;
    }

    lemma IsLead()
      requires Valid() && body == ""
      ensures b == head
    {
    }

    /** `raw` within the JSON text. */
    method Raw(text: string)
      requires Valid() && Clean(text)
      modifies this
      ensures Valid() && head == old(head) && b == Join(old(b), text)
      ensures st == Feed(old(st), text)
    {
      hide Feed;
      CleanAppend(body, text);
      FeedAppend(START, body, text);
      assert b + text == head + (body + text);
      b, body, st := b + text, body + text, Feed(st, text);
    }

    /** The fixed text "{" and so on: what the source's literals consist of. */
    method Open()
      requires Valid() && st.Reading? && Wants(st.mode)
      modifies this
      ensures Valid() && head == old(head) && b == Join(old(b), "{")
      ensures st == Reading(InObj(NoFields, "", old(st).stack), WantKeyOrEnd)
    {
      OpenObject(st.stack, st.mode);
      Raw("{");
    }

    method Close()
      requires Valid() && (Between(st) || (st.Reading? && st.mode.WantKeyOrEnd?)) && Settle(st).stack.InObj?
      modifies this
      ensures Valid() && head == old(head) && b == Join(old(b), "}")
      ensures st == Put(Settle(old(st)).stack.below, Obj(Settle(old(st)).stack.fields))
    {
      CloseObject(st);
      Raw("}");
    }

    method OpenList()
      requires Valid() && st.Reading? && Wants(st.mode)
      modifies this
      ensures Valid() && head == old(head) && b == Join(old(b), "[")
      ensures st == Reading(InArr(NoItems, old(st).stack), WantItemOrEnd)
    {
      OpenArray(st.stack, st.mode);
      Raw("[");
    }

    method CloseList()
      requires Valid() && (Between(st) || (st.Reading? && st.mode.WantItemOrEnd?)) && Settle(st).stack.InArr?
      modifies this
      ensures Valid() && head == old(head) && b == Join(old(b), "]")
      ensures st == Put(Settle(old(st)).stack.below, Arr(Settle(old(st)).stack.items))
    {
      CloseArray(st);
      Raw("]");
    }

    /** A member name and its colon. */
    method Key(k: string)
      requires Valid() && Plain(k) && st.Reading? && (st.mode.WantKey? || st.mode.WantKeyOrEnd?) && st.stack.InObj?
      modifies this
      ensures Valid() && head == old(head) && b == Join(old(b), KeyText(k))
      ensures st == Reading(old(st).stack.(key := k), WantValue)
    {
      hide Feed;
      PlainQuote(k);
      KeyToken(st.stack, st.mode, k);
      QuoteClean(k);
      CleanAppend(Quote(k), ":");
      Raw(KeyText(k));
    }

    /** A comma, a member name and its colon. */
    method Next(k: string)
      requires Valid() && Plain(k) && Between(st) && Settle(st).stack.InObj?
      modifies this
      ensures Valid() && head == old(head) && b == Join(Join(old(b), ","), KeyText(k))
      ensures st == Reading(Settle(old(st)).stack.(key := k), WantValue)
    {
      Comma(st);
      Raw(",");
      Key(k);
    }

    /** A constant string. */
    method Const(s: string)
      requires Valid() && Plain(s) && st.Reading? && Wants(st.mode)
      modifies this
      ensures Valid() && head == old(head) && b == Join(old(b), "\"" + s + "\"")
      ensures st == Put(old(st).stack, Json.Value.Str(s))
    {
      hide Feed;
      PlainQuote(s);
      StringToken(st.stack, st.mode, s);
      QuoteClean(s);
      Raw("\"" + s + "\"");
    }

    method Null()
      requires Valid() && st.Reading? && Wants(st.mode)
      modifies this
      ensures Valid() && head == old(head) && b == Join(old(b), "null")
      ensures st == Put(old(st).stack, Json.Value.Null)
    {
      WordToken(st.stack, st.mode, Json.Value.Null);
      Raw("null");
    }

    method Int(n: int)
      requires Valid() && st.Reading? && Wants(st.mode)
      modifies this
      ensures Valid() && head == old(head) && b == Join(old(b), Decimal(n))
      ensures Settle(st) == Put(old(st).stack, IntValue(n)) && Between(st) == (!old(st).stack.Outside?)
    {
      hide Feed, Decimal, Clean;
      DecimalIsNumber(n);
      NumberClean(Decimal(n));
      NumberReads(st.stack, st.mode, Decimal(n));
      Raw(Decimal(n));
    }

    method RawJSON(text: string, ghost v: Value)
      requires Valid() && st.Reading? && Wants(st.mode)
      requires if text == "" then v == Json.Value.Null else Denotes(text, v)
      modifies this
      ensures Valid() && head == old(head) && b == Join(old(b), if text == "" then "null" else text)
      ensures Settle(st) == Put(old(st).stack, v) && Between(st) == (!old(st).stack.Outside?)
    {
      if |text| == 0 {
        Null();
        return;
      }
      hide Feed;
      Raw(text);
    }

    /** `raw` of the blank line that ends a frame. */
    method EndFrame()
      requires Valid() && Settle(st).Reading? && Settle(st).mode.Complete?
      modifies this
      ensures Framed(b, old(head), Settle(old(st)).mode.v) && b == Join(old(b), "\n\n")
    {
      hide Feed;
      b := b + "\n\n";
      assert Parse(body) == Some(Settle(st).mode.v);
      assert b == head + body + "\n\n";
    }

    /** `str`: copies the stretches that need no escaping, and escapes what is between them. */
    method Str(s: string)
      requires Valid() && st.Reading? && Wants(st.mode)
      modifies this
      ensures Valid() && head == old(head) && b == Join(old(b), Quote(s))
      ensures st == Put(old(st).stack, Json.Value.Str(Repaired(s)))
    {
      hide Feed, Clean, Repaired, Marshal, ValidUtf8;
      if ValidUtf8(s) {
        WriteEscaped(s);
      } else {
        b := b + Quote(s);
      }
      QuoteClean(s);
      CleanAppend(body, Quote(s));
      FeedAppend(START, body, Quote(s));
      StringToken(st.stack, st.mode, s);
      assert b == head + (body + Quote(s));
      body, st := body + Quote(s), Put(st.stack, Json.Value.Str(Repaired(s)));
    }

    /** The loop of `str` for a valid string. */
    method WriteEscaped(s: string)
      modifies this`b
      ensures b == old(b) + ("\"" + Escape(s) + "\"")
    {
      hide Escape;
      b := b + "\"";
      ghost var from := b;
      var start, i := 0, 0;
      NothingCopied(b, s);
      while i < |s|
        invariant 0 <= start <= i <= |s|
        invariant b + s[start..i] == from + Escape(s[..i])
      {
        var c := s[i];
        if c as int >= 0x80 || (c as int >= 0x20 && c != '"' && c != '\\') {
          CopyStep(b, from, s, start, i);
        } else {
          EscapeStep(b, from, s, start, i);
          if start < i {
            b := b + s[start..i];
          }
          WriteEscape(c);
          start := i + 1;
        }
        i := i + 1;
      }
      assert s[..|s|] == s;
      if start < |s| {
        b := b + s[start..];
      }
      EndStep(old(b), b, Escape(s));
      b := b + "\"";
    }

    method WriteEscape(c: char)
      requires !Verbatim(c)
      modifies this`b
      ensures b == old(b) + EscapeByte(c)
    {
      if c == '"' {
        b := b + ['\\', '"'];
      } else if c == '\\' {
        b := b + ['\\', '\\'];
      } else if c == '\n' {
        b := b + ['\\', 'n'];
      } else if c == '\r' {
        b := b + ['\\', 'r'];
      } else if c == '\t' {
        b := b + ['\\', 't'];
      } else if c == '\U{08}' {
        b := b + ['\\', 'b'];
      } else if c == '\U{0c}' {
        b := b + ['\\', 'f'];
      } else {
        b := b + ['\\', 'u', '0', '0', HexDigit(c as int / 16), HexDigit(c as int % 16)];
      }
    }
  }

  lemma NothingCopied(b: string, s: string)
    ensures b + s[0..0] == b + Escape(s[..0])
  {
  }

  lemma CopyStep(b: string, from: string, s: string, start: nat, i: nat)
    requires start <= i < |s| && Verbatim(s[i])
    requires b + s[start..i] == from + Escape(s[..i])
    ensures b + s[start..i + 1] == from + Escape(s[..i + 1])
  {
    hide Escape;
    EscapeSnoc(s, i);
    assert s[start..i + 1] == s[start..i] + [s[i]];
    Assoc3(b, s[start..i], [s[i]]);
    Assoc3(from, Escape(s[..i]), [s[i]]);
  }

  lemma EscapeStep(b: string, from: string, s: string, start: nat, i: nat)
    requires start <= i < |s|
    requires b + s[start..i] == from + Escape(s[..i])
    ensures var now := (if start < i then b + s[start..i] else b) + EscapeByte(s[i]);
      now + s[i + 1..i + 1] == from + Escape(s[..i + 1])
  {
    hide Escape, EscapeByte;
    EscapeSnoc(s, i);
    var now := if start < i then b + s[start..i] else b;
    assert now == b + s[start..i];
    Assoc3(from, Escape(s[..i]), EscapeByte(s[i]));
    assert (now + EscapeByte(s[i])) + s[i + 1..i + 1] == now + EscapeByte(s[i]);
  }

  lemma EndStep(before: string, b: string, escaped: string)
    requires b == before + "\"" + escaped
    ensures b + "\"" == before + ("\"" + escaped + "\"")
  {
  }

  lemma EscapeSnoc(s: string, i: nat)
    requires i < |s|
    ensures Escape(s[..i + 1]) == Escape(s[..i]) + EscapeByte(s[i])
  {
    assert s[..i + 1][..i] == s[..i];
  }
}
