/** Printing JSON values, and what the reader of RFC 8259 makes of the pieces that printing puts
    together. */
module JsonPrinter {
  import opened Text
  import opened Json

  /* ---- Numbers ---- */

  function Natural(n: nat): string {
    if n < 10 then [HexDigit(n)] else Natural(n / 10) + [HexDigit(n % 10)]
  }

  function Decimal(n: int): string { if n < 0 then "-" + Natural(-n) else Natural(n) }

  function NaturalValue(text: string): nat {
    if text == "" then 0 else
      var digit := HexValue(text[|text| - 1]);
      NaturalValue(text[..|text| - 1]) * 10 + (if digit.Some? then digit.value else 0)
  }

  function DecimalValue(text: string): int {
    if text != "" && text[0] == '-' then 0 - (NaturalValue(text[1..]) as int) else NaturalValue(text)
  }

  lemma {:induction false} NaturalReads(n: nat)
    ensures NaturalValue(Natural(n)) == n
    ensures Natural(n) != "" && Natural(n)[0] != '-'
    ensures n > 0 ==> Natural(n)[0] != '0'
    ensures forall c :: c in Natural(n) ==> IsDigit(c)
  {
    HexDigitValue(n % 10);
    if n < 10 {
      assert NaturalValue([HexDigit(n)][..0]) == 0;
    } else {
      NaturalReads(n / 10);
      assert Natural(n)[..|Natural(n)| - 1] == Natural(n / 10);
    }
  }

  lemma DecimalReads(n: int)
    ensures DecimalValue(Decimal(n)) == n
  {
    if n < 0 {
      NaturalReads(-n);
      assert Decimal(n)[1..] == Natural(-n);
    } else {
      NaturalReads(n);
    }
  }

  function IntValue(n: int): Value { Number(Decimal(n)) }

  /** The value that a string stands for: malformed bytes do not survive. */
  function StrValue(s: string): Value { Str(Repaired(s)) }

  /** The phase that a number text ends in. */
  function PhaseOf(text: string): Option<Phase> {
    if text == "" then None
    else if |text| == 1 then
      if text == "-" then Some(Minus) else if text == "0" then Some(Zero)
      else if IsDigit(text[0]) then Some(Digits) else None
    else
      var before := PhaseOf(text[..|text| - 1]);
      if before.None? then None else NextPhase(before.value, text[|text| - 1])
  }

  predicate NumberText(text: string) { PhaseOf(text).Some? && EndsNumber(PhaseOf(text).value) }

  predicate Wants(m: Mode) { m.WantValue? || m.WantItemOrEnd? }

  lemma {:induction false} NumberReads(stack: Stack, m: Mode, text: string)
    requires Wants(m) && PhaseOf(text).Some?
    ensures Feed(Reading(stack, m), text) == Reading(stack, InNumber(text, PhaseOf(text).value))
  {
    hide Feed;
    var n := |text| - 1;
    if n == 0 {
      assert text == [text[0]];
      FeedOne(Reading(stack, m), text[0]);
    } else {
      NumberReads(stack, m, text[..n]);
      assert text == text[..n] + [text[n]];
      FeedAppend(Reading(stack, m), text[..n], [text[n]]);
      FeedOne(Reading(stack, InNumber(text[..n], PhaseOf(text[..n]).value)), text[n]);
    }
  }

  lemma {:induction false} DigitsPhase(text: string)
    requires text != "" && text[0] != '0' && forall c :: c in text ==> IsDigit(c)
    ensures PhaseOf(text) == Some(Digits)
  {
    if |text| > 1 {
      DigitsPhase(text[..|text| - 1]);
    } else {
      assert text[0] in text;
    }
  }

  lemma {:induction false} MinusDigitsPhase(text: string)
    requires text != "" && text[0] != '0' && forall c :: c in text ==> IsDigit(c)
    ensures PhaseOf("-" + text) == Some(Digits)
  {
    var n := |text| - 1;
    assert ("-" + text)[..n + 1] == "-" + text[..n];
    if n > 0 {
      MinusDigitsPhase(text[..n]);
    } else {
      assert "-" + text[..0] == "-";
    }
  }

  lemma DecimalIsNumber(n: int)
    ensures NumberText(Decimal(n))
  {
    if n == 0 {
      assert Decimal(0) == "0";
    } else if n > 0 {
      NaturalReads(n);
      DigitsPhase(Natural(n));
    } else {
      NaturalReads(-n);
      MinusDigitsPhase(Natural(-n));
    }
  }

  /* ---- Tokens ---- */

  lemma OpenObject(stack: Stack, m: Mode)
    requires Wants(m)
    ensures Feed(Reading(stack, m), "{") == Reading(InObj(NoFields, "", stack), WantKeyOrEnd)
  {
    FeedOne(Reading(stack, m), '{');
  }

  lemma OpenArray(stack: Stack, m: Mode)
    requires Wants(m)
    ensures Feed(Reading(stack, m), "[") == Reading(InArr(NoItems, stack), WantItemOrEnd)
  {
    FeedOne(Reading(stack, m), '[');
  }

  /** Inside an array or object, a comma or a closing bracket may come. */
  predicate Between(st: State) { Settle(st).Reading? && Settle(st).mode.Settled? }

  /** A comma or closing bracket ends a number that stands before it. */
  lemma FeedSettled(st: State, c: char)
    requires Between(st) && (c == ',' || c == ']' || c == '}')
    ensures Feed(st, [c]) == Separate(Settle(st).stack, c)
  {
    FeedOne(st, c);
  }

  lemma Comma(st: State)
    requires Between(st) && !Settle(st).stack.Outside?
    ensures Feed(st, ",") == Reading(Settle(st).stack, if Settle(st).stack.InArr? then WantValue else WantKey)
  {
    FeedSettled(st, ',');
  }

  lemma CloseObject(st: State)
    requires Between(st) || (st.Reading? && st.mode.WantKeyOrEnd?)
    requires Settle(st).stack.InObj?
    ensures Feed(st, "}") == Put(Settle(st).stack.below, Obj(Settle(st).stack.fields))
  {
    FeedOne(st, '}');
  }

  lemma CloseArray(st: State)
    requires Between(st) || (st.Reading? && st.mode.WantItemOrEnd?)
    requires Settle(st).stack.InArr?
    ensures Feed(st, "]") == Put(Settle(st).stack.below, Arr(Settle(st).stack.items))
  {
    FeedOne(st, ']');
  }

  lemma StringToken(stack: Stack, m: Mode, s: string)
    requires Wants(m)
    ensures Feed(Reading(stack, m), Quote(s)) == Put(stack, Str(Repaired(s)))
  {
    hide Quote, Repaired;
    QuoteStart(s);
    FeedAppend(Reading(stack, m), "\"", Quote(s)[1..]);
    FeedOne(Reading(stack, m), '"');
    QuoteReads(stack, s);
  }

  lemma QuoteStart(s: string)
    ensures Quote(s) != "" && Quote(s) == "\"" + Quote(s)[1..]
  {
  }

  /** A member name and its colon. */
  lemma KeyToken(stack: Stack, m: Mode, k: string)
    requires (m.WantKey? || m.WantKeyOrEnd?) && stack.InObj?
    ensures Feed(Reading(stack, m), Quote(k) + ":") == Reading(stack.(key := Repaired(k)), WantValue)
  {
    hide Feed, Quote, Repaired;
    var st, open := Reading(stack, m), Reading(stack, InString(true, ""));
    FeedAppend(st, Quote(k), ":");
    QuoteStart(k);
    FeedAppend(st, "\"", Quote(k)[1..]);
    FeedOne(st, '"');
    KeyReads(stack, k);
    FeedOne(Reading(stack.(key := Repaired(k)), WantColon), ':');
  }

  lemma KeyReads(stack: Stack, s: string)
    requires stack.InObj?
    ensures Quote(s) != ""
    ensures Feed(Reading(stack, InString(true, "")), Quote(s)[1..])
            == Reading(stack.(key := Repaired(s)), WantColon)
  {
    hide Feed, Escape, Marshal, Repaired, ValidUtf8;
    BodySpells(s);
    var body := if ValidUtf8(s) then Escape(s) else Marshal(s);
    assert Quote(s)[1..] == body + "\"";
    var st := Reading(stack, InString(true, ""));
    FeedAppend(st, body, "\"");
    assert "" + Repaired(s) == Repaired(s);
    FeedOne(Reading(stack, InString(true, Repaired(s))), '"');
  }

  function Word(v: Value): string
    requires v.Null? || v.Bool?
  {
    if v.Null? then "null" else if v.b then "true" else "false"
  }

  lemma {:induction false} WordRest(stack: Stack, rest: string, v: Value)
    requires rest != ""
    ensures Feed(Reading(stack, InWord(rest, v)), rest) == Put(stack, v)
    decreases |rest|
  {
    if |rest| == 1 {
      FeedOne(Reading(stack, InWord(rest, v)), rest[0]);
      assert rest == [rest[0]];
    } else {
      WordRest(stack, rest[1..], v);
    }
  }

  lemma WordToken(stack: Stack, m: Mode, v: Value)
    requires Wants(m) && (v.Null? || v.Bool?)
    ensures Feed(Reading(stack, m), Word(v)) == Put(stack, v)
  {
    hide Feed, Put;
    var w := Word(v);
    var c := if v.Null? then 'n' else if v.b then 't' else 'f';
    var rest := if v.Null? then "ull" else if v.b then "rue" else "alse";
    assert w == [c] + rest;
    FeedAppend(Reading(stack, m), [c], rest);
    FeedOne(Reading(stack, m), c);
    WordRest(stack, rest, v);
  }

  /* ---- Printing ---- */

  /** A value whose strings are valid UTF-8 and whose numbers are numbers. */
  predicate Proper(v: Value)
    decreases v
  {
    match v
    case Null => true
    case Bool(_) => true
    case Number(text) => NumberText(text)
    case Str(s) => ValidUtf8(s)
    case Arr(items) => ProperItems(items)
    case Obj(fields) => ProperFields(fields)
  }

  predicate ProperItems(items: Items) {
    items.Item? ==> ProperItems(items.before) && Proper(items.item)
  }

  predicate ProperFields(fields: Fields) {
    fields.Field? ==> ProperFields(fields.before) && ValidUtf8(fields.key) && Proper(fields.value)
  }

  function Print(v: Value): string
    decreases v
  {
    match v
    case Null => "null"
    case Bool(b) => if b then "true" else "false"
    case Number(text) => text
    case Str(s) => Quote(s)
    case Arr(items) => "[" + PrintItems(items) + "]"
    case Obj(fields) => "{" + PrintFields(fields) + "}"
  }

  function PrintItems(items: Items): string {
    match items
    case NoItems => ""
    case Item(before, v) => (if before.NoItems? then "" else PrintItems(before) + ",") + Print(v)
  }

  function PrintFields(fields: Fields): string {
    match fields
    case NoFields => ""
    case Field(before, k, v) =>
      (if before.NoFields? then "" else PrintFields(before) + ",") + ((Quote(k) + ":") + Print(v))
  }

  /** Reading a printed value completes that value, wherever a value may stand; a number is complete
      once something follows. */
  lemma {:induction false} PrintReads(stack: Stack, m: Mode, v: Value)
    requires Wants(m) && Proper(v)
    ensures Settle(Feed(Reading(stack, m), Print(v))) == Put(stack, v)
    decreases v, 1
  {
    hide Feed, Quote, NumberText, PhaseOf, Separate;
    var st := Reading(stack, m);
    match v
    case Null => WordToken(stack, m, v);
    case Bool(b) => WordToken(stack, m, v);
    case Number(text) => NumberSettles(stack, m, text);
    case Str(s) =>
      StringToken(stack, m, s);
      ValidIsRepaired(s);
    case Arr(items) =>
      FeedAppend(st, "[" + PrintItems(items), "]");
      FeedAppend(st, "[", PrintItems(items));
      OpenArray(stack, m);
      ItemsRead(stack, items);
      CloseArray(Feed(st, "[" + PrintItems(items)));
    case Obj(fields) =>
      FeedAppend(st, "{" + PrintFields(fields), "}");
      FeedAppend(st, "{", PrintFields(fields));
      OpenObject(stack, m);
      FieldsRead(stack, fields);
      CloseObject(Feed(st, "{" + PrintFields(fields)));
  }

  lemma NumberSettles(stack: Stack, m: Mode, text: string)
    requires Wants(m) && NumberText(text)
    ensures Settle(Feed(Reading(stack, m), text)) == Put(stack, Number(text))
  {
    NumberReads(stack, m, text);
  }

  lemma {:induction false} ItemsRead(stack: Stack, items: Items)
    requires ProperItems(items)
    ensures var st := Feed(Reading(InArr(NoItems, stack), WantItemOrEnd), PrintItems(items));
      if items.NoItems? then st == Reading(InArr(NoItems, stack), WantItemOrEnd)
      else Settle(st) == Reading(InArr(items, stack), Settled)
    decreases items, 0
  {
    var start := Reading(InArr(NoItems, stack), WantItemOrEnd);
    if items.NoItems? {
      assert Feed(start, "") == start;
    } else if items.before.NoItems? {
      hide Feed, Print;
      PrintReads(InArr(NoItems, stack), WantItemOrEnd, items.item);
      assert PrintItems(items) == "" + Print(items.item) == Print(items.item);
    } else {
      hide Feed, Print;
      ItemsRead(stack, items.before);
      FeedAppend(start, PrintItems(items.before) + ",", Print(items.item));
      FeedAppend(start, PrintItems(items.before), ",");
      Comma(Feed(start, PrintItems(items.before)));
      PrintReads(InArr(items.before, stack), WantValue, items.item);
    }
  }

  lemma {:induction false} FieldsRead(stack: Stack, fields: Fields)
    requires ProperFields(fields)
    ensures var st := Feed(Reading(InObj(NoFields, "", stack), WantKeyOrEnd), PrintFields(fields));
      if fields.NoFields? then st == Reading(InObj(NoFields, "", stack), WantKeyOrEnd)
      else Settle(st) == Reading(InObj(fields, fields.key, stack), Settled)
    decreases fields, 0
  {
    var start := Reading(InObj(NoFields, "", stack), WantKeyOrEnd);
    if fields.NoFields? {
      assert Feed(start, "") == start;
    } else {
      hide Feed, Print, Quote;
      var before, k := fields.before, Quote(fields.key) + ":";
      ValidIsRepaired(fields.key);
      if before.NoFields? {
        assert PrintFields(fields) == "" + (k + Print(fields.value)) == k + Print(fields.value);
        FeedAppend(start, k, Print(fields.value));
        KeyToken(InObj(NoFields, "", stack), WantKeyOrEnd, fields.key);
      } else {
        FieldsRead(stack, before);
        FeedAppend(start, PrintFields(before) + ",", k + Print(fields.value));
        FeedAppend(start, PrintFields(before), ",");
        Comma(Feed(start, PrintFields(before)));
        FeedAppend(Feed(start, PrintFields(before) + ","), k, Print(fields.value));
        KeyToken(InObj(before, before.key, stack), WantKey, fields.key);
      }
      PrintReads(InObj(before, fields.key, stack), WantValue, fields.value);
    }
  }

  /** What printing writes, reading takes back. */
  lemma RoundTrip(v: Value)
    requires Proper(v)
    ensures Parse(Print(v)) == Some(v)
  {
    hide Feed, Print, Proper;
    PrintReads(Outside, WantValue, v);
  }

  /** Different strings and numbers are different values. */
  lemma ValuesDiffer()
    ensures forall s :: ValidUtf8(s) ==> Repaired(s) == s
    ensures forall n :: DecimalValue(Decimal(n)) == n
  {
    forall s | ValidUtf8(s) ensures Repaired(s) == s {
      ValidIsRepaired(s);
    }
    forall n ensures DecimalValue(Decimal(n)) == n {
      DecimalReads(n);
    }
  }
}
