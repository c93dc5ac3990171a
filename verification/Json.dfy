/** RFC 8259 as a machine that reads a text character by character. Texts are UTF-8: a character
    stands for one byte. */
module Json {
  import opened Text

  /** A JSON value; a number is kept as it is spelled, and members in their order. */
  datatype Value =
    | Null | Bool(b: bool) | Number(text: string) | Str(s: string) | Arr(items: Items) | Obj(fields: Fields)

  datatype Items = NoItems | Item(before: Items, item: Value)

  datatype Fields = NoFields | Field(before: Fields, key: string, value: Value) {
    function And(key: string, value: Value): Fields { Field(this, key, value) }
  }

  /** The arrays and objects the reader is inside of, with what they hold so far. */
  datatype Stack =
    | Outside
    | InArr(items: Items, below: Stack)
    | InObj(fields: Fields, key: string, below: Stack)

  /** How far a number has been read. */
  datatype Phase = Minus | Zero | Digits | Point | Fraction | Exp | Sign | Exponent

  /** In a string, `high` is an escaped high surrogate that waits for its low one; 0 stands for none. */
  datatype Mode =
    | WantValue | WantItemOrEnd | WantKeyOrEnd | WantKey | WantColon | Settled
    | InString(isKey: bool, s: string)
    | InEscape(isKey: bool, s: string)
    | InUnicode(isKey: bool, s: string, high: nat, digits: nat, code: nat)
    | AfterHigh(isKey: bool, s: string, high: nat)
    | AfterHighEscape(isKey: bool, s: string, high: nat)
    | InNumber(text: string, phase: Phase)
    | InWord(rest: string, word: Value)
    | Complete(v: Value)

  datatype State = Reading(stack: Stack, mode: Mode) | Fail

  const START := Reading(Outside, WantValue)

  predicate White(c: char) { c == ' ' || c == '\t' || c == '\n' || c == '\r' }

  predicate IsDigit(c: char) { '0' <= c <= '9' }

  /** A value is complete. */
  function Put(stack: Stack, v: Value): State {
    match stack
    case Outside => Reading(Outside, Complete(v))
    case InArr(items, below) => Reading(InArr(Item(items, v), below), Settled)
    case InObj(fields, key, below) => Reading(InObj(fields.And(key, v), key, below), Settled)
  }

  function Begin(stack: Stack, c: char): State {
    if c == '"' then Reading(stack, InString(false, ""))
    else if c == '{' then Reading(InObj(NoFields, "", stack), WantKeyOrEnd)
    else if c == '[' then Reading(InArr(NoItems, stack), WantItemOrEnd)
    else if c == '-' then Reading(stack, InNumber([c], Minus))
    else if c == '0' then Reading(stack, InNumber([c], Zero))
    else if IsDigit(c) then Reading(stack, InNumber([c], Digits))
    else if c == 't' then Reading(stack, InWord("rue", Bool(true)))
    else if c == 'f' then Reading(stack, InWord("alse", Bool(false)))
    else if c == 'n' then Reading(stack, InWord("ull", Null))
    else Fail
  }

  /** After a value: the next one, or the end of the array or object. */
  function Separate(stack: Stack, c: char): State {
    match stack
    case Outside => Fail
    case InArr(items, below) =>
      if c == ',' then Reading(stack, WantValue) else if c == ']' then Put(below, Arr(items)) else Fail
    case InObj(fields, _, below) =>
      if c == ',' then Reading(stack, WantKey) else if c == '}' then Put(below, Obj(fields)) else Fail
  }

  function EndString(stack: Stack, isKey: bool, s: string): State {
    if !isKey then Put(stack, Str(s))
    else if stack.InObj? then Reading(stack.(key := s), WantColon)
    else Fail
  }

  function Short(c: char): Option<char> {
    match c
    case '"' => Some('"')
    case '\\' => Some('\\')
    case '/' => Some('/')
    case 'b' => Some('\U{08}')
    case 'f' => Some('\U{0c}')
    case 'n' => Some('\n')
    case 'r' => Some('\r')
    case 't' => Some('\t')
    case _ => None
  }

  function HexValue(c: char): Option<nat> {
    if IsDigit(c) then Some(c as int - '0' as int)
    else if 'a' <= c <= 'f' then Some(c as int - 'a' as int + 10)
    else if 'A' <= c <= 'F' then Some(c as int - 'A' as int + 10)
    else None
  }

  /** The UTF-8 bytes of a code point below 0x10000. */
  function Utf8(code: nat): string
    requires code < 0x10000
  {
    if code < 0x80 then [code as char]
    else if code < 0x800 then [(0xC0 + code / 0x40) as char, (0x80 + code % 0x40) as char]
    else [(0xE0 + code / 0x1000) as char, (0x80 + code / 0x40 % 0x40) as char, (0x80 + code % 0x40) as char]
  }

  predicate IsHigh(code: nat) { 0xD800 <= code < 0xDC00 }

  predicate IsLow(code: nat) { 0xDC00 <= code < 0xE000 }

  /** The UTF-8 bytes of the character that a pair of surrogates stands for. */
  function Utf8Pair(high: nat, low: nat): string
    requires IsHigh(high) && IsLow(low)
  {
    var code := 0x10000 + (high - 0xD800) * 0x400 + (low - 0xDC00);
    [(0xF0 + code / 0x40000) as char, (0x80 + code / 0x1000 % 0x40) as char, (0x80 + code / 0x40 % 0x40) as char,
     (0x80 + code % 0x40) as char]
  }

  /** A surrogate without its partner becomes U+FFFD. */
  const REPLACEMENT := ['\U{ef}', '\U{bf}', '\U{bd}']

  function NextPhase(p: Phase, c: char): Option<Phase> {
    match p
    case Minus => if c == '0' then Some(Zero) else if IsDigit(c) then Some(Digits) else None
    case Zero => if c == '.' then Some(Point) else if c == 'e' || c == 'E' then Some(Exp) else None
    case Digits =>
      if IsDigit(c) then Some(Digits) else if c == '.' then Some(Point)
      else if c == 'e' || c == 'E' then Some(Exp) else None
    case Point => if IsDigit(c) then Some(Fraction) else None
    case Fraction => if IsDigit(c) then Some(Fraction) else if c == 'e' || c == 'E' then Some(Exp) else None
    case Exp => if c == '+' || c == '-' then Some(Sign) else if IsDigit(c) then Some(Exponent) else None
    case Sign => if IsDigit(c) then Some(Exponent) else None
    case Exponent => if IsDigit(c) then Some(Exponent) else None
  }

  predicate EndsNumber(p: Phase) { p == Zero || p == Digits || p == Fraction || p == Exponent }

  /** A number is complete only when something else follows. */
  function Settle(st: State): State {
    if st.Reading? && st.mode.InNumber? && EndsNumber(st.mode.phase) then Put(st.stack, Number(st.mode.text)) else st
  }

  function StepSettled(st: State, c: char): State {
    if st.Fail? then Fail
    else if White(c) then st
    else if st.mode.Settled? then Separate(st.stack, c)
    else Fail
  }

  function StepString(stack: Stack, isKey: bool, s: string, c: char): State {
    if c == '"' then EndString(stack, isKey, s)
    else if c == '\\' then Reading(stack, InEscape(isKey, s))
    else if c < ' ' then Fail
    else Reading(stack, InString(isKey, s + [c]))
  }

  function StepEscape(stack: Stack, isKey: bool, s: string, c: char): State {
    if c == 'u' then Reading(stack, InUnicode(isKey, s, 0, 0, 0))
    else if Short(c).Some? then Reading(stack, InString(isKey, s + [Short(c).value]))
    else Fail
  }

  /** A code unit is complete. */
  function EndUnicode(isKey: bool, s: string, high: nat, code: nat): Mode
    requires code < 0x10000
  {
    if IsHigh(high) && IsLow(code) then InString(isKey, s + Utf8Pair(high, code))
    else
      var t := if high == 0 then s else s + REPLACEMENT;
      if IsHigh(code) then AfterHigh(isKey, t, code)
      else if IsLow(code) then InString(isKey, t + REPLACEMENT)
      else InString(isKey, t + Utf8(code))
  }

  function StepUnicode(stack: Stack, isKey: bool, s: string, high: nat, digits: nat, code: nat, c: char): State {
    if HexValue(c).None? then Fail
    else
      var now := code * 16 + HexValue(c).value;
      if digits < 3 then Reading(stack, InUnicode(isKey, s, high, digits + 1, now))
      else if now >= 0x10000 then Fail
      else Reading(stack, EndUnicode(isKey, s, high, now))
  }

  function Step(st: State, c: char): State {
    if st.Fail? then Fail else
      var stack := st.stack;
      match st.mode
      case WantValue => if White(c) then st else Begin(stack, c)
      case WantItemOrEnd =>
        if White(c) then st else if c == ']' then Separate(stack, c) else Begin(stack, c)
      case WantKeyOrEnd =>
        if White(c) then st
        else if c == '"' then Reading(stack, InString(true, ""))
        else if c == '}' then Separate(stack, c)
        else Fail
      case WantKey => if White(c) then st else if c == '"' then Reading(stack, InString(true, "")) else Fail
      case WantColon => if White(c) then st else if c == ':' then Reading(stack, WantValue) else Fail
      case Settled => StepSettled(st, c)
      case InString(isKey, s) => StepString(stack, isKey, s, c)
      case InEscape(isKey, s) => StepEscape(stack, isKey, s, c)
      case InUnicode(isKey, s, high, digits, code) => StepUnicode(stack, isKey, s, high, digits, code, c)
      case AfterHigh(isKey, s, high) =>
        if c == '\\' then Reading(stack, AfterHighEscape(isKey, s, high))
        else StepString(stack, isKey, s + REPLACEMENT, c)
      case AfterHighEscape(isKey, s, high) =>
        if c == 'u' then Reading(stack, InUnicode(isKey, s, high, 0, 0))
        else StepEscape(stack, isKey, s + REPLACEMENT, c)
      case InNumber(text, phase) =>
        if NextPhase(phase, c).Some? then Reading(stack, InNumber(text + [c], NextPhase(phase, c).value))
        else if EndsNumber(phase) then StepSettled(Settle(st), c)
        else Fail
      case InWord(rest, word) =>
        if rest == "" || rest[0] != c then Fail
        else if |rest| == 1 then Put(stack, word)
        else Reading(stack, InWord(rest[1..], word))
      case Complete(_) => StepSettled(st, c)
  }

  function Feed(st: State, text: string): State
    decreases |text|
  {
    if text == "" then st else Feed(Step(st, text[0]), text[1..])
  }

  /** The one value that a text spells, if it is a JSON text. */
  function Parse(text: string): Option<Value> {
    var end := Settle(Feed(START, text));
    if end.Reading? && end.mode.Complete? then Some(end.mode.v) else None
  }

  lemma {:induction false} FeedAppend(st: State, a: string, b: string)
    ensures Feed(st, a + b) == Feed(Feed(st, a), b)
    decreases |a|
  {
    if a == "" {
      assert a + b == b;
    } else {
      assert (a + b)[0] == a[0] && (a + b)[1..] == a[1..] + b;
      FeedAppend(Step(st, a[0]), a[1..], b);
    }
  }

  lemma FeedNothing(st: State)
    ensures Feed(st, "") == st
  {
  }

  lemma FeedOne(st: State, c: char)
    ensures Feed(st, [c]) == Step(st, c)
  {
    assert [c][1..] == "";
    assert Feed(Step(st, c), "") == Step(st, c);
  }

  /* ---- Strings ---- */

  function HexDigit(n: nat): char
    requires n < 16
  {
    if n < 10 then (n + '0' as int) as char else (n - 10 + 'a' as int) as char
  }

  /** A byte that stands for itself. */
  predicate Verbatim(c: char) { c as int >= 0x80 || (c as int >= 0x20 && c != '"' && c != '\\') }

  /** The plain per-byte escape. */
  function EscapeByte(c: char): string {
    if Verbatim(c) then [c]
    else if c == '"' then "\\\""
    else if c == '\\' then "\\\\"
    else if c == '\n' then "\\n"
    else if c == '\r' then "\\r"
    else if c == '\t' then "\\t"
    else if c == '\U{08}' then "\\b"
    else if c == '\U{0c}' then "\\f"
    else UnicodeEscape(c as int)
  }

  function UnicodeEscape(code: nat): string
    requires code < 0x10000
  {
    ['\\', 'u', HexDigit(code / 0x1000), HexDigit(code / 0x100 % 0x10), HexDigit(code / 0x10 % 0x10),
     HexDigit(code % 0x10)]
  }

  function Escape(s: string): string {
    if s == "" then "" else Escape(s[..|s| - 1]) + EscapeByte(s[|s| - 1])
  }

  predicate Continuation(c: char) { 0x80 <= c as int < 0xC0 }

  /** The length of the first character of s, or 0 if s does not start with a well-formed one
      (RFC 3629, section 4). */
  function Width(s: string): (w: nat)
    ensures w <= |s| && w <= 4
  {
    if s == "" then 0 else
      var a := s[0] as int;
      if a < 0x80 then 1
      else if |s| < 2 then 0
      else
        var b := s[1] as int;
        if 0xC2 <= a < 0xE0 && Continuation(s[1]) then 2
        else if |s| < 3 || !Continuation(s[1]) || !Continuation(s[2]) then 0
        else if 0xE0 <= a < 0xF0 && (a == 0xE0 ==> b >= 0xA0) && (a == 0xED ==> b < 0xA0) then 3
        else if |s| < 4 || !Continuation(s[3]) then 0
        else if 0xF0 <= a < 0xF5 && (a == 0xF0 ==> b >= 0x90) && (a == 0xF4 ==> b < 0x90) then 4
        else 0
  }

  predicate ValidUtf8(s: string)
    decreases |s|
  {
    s == "" || (Width(s) > 0 && ValidUtf8(s[Width(s)..]))
  }

  lemma WidthAppend(a: string, b: string)
    requires Width(a) > 0
    ensures Width(a + b) == Width(a) && (a + b)[Width(a)..] == a[Width(a)..] + b
  {
    assert forall i :: 0 <= i < |a| ==> (a + b)[i] == a[i];
  }

  lemma {:induction false} ValidAppend(a: string, b: string)
    requires ValidUtf8(a) && ValidUtf8(b)
    ensures ValidUtf8(a + b)
    decreases |a|
  {
    hide Width;
    if a == "" {
      assert a + b == b;
    } else {
      WidthAppend(a, b);
      ValidAppend(a[Width(a)..], b);
    }
  }

  /** s with every byte that is not part of a well-formed character replaced by U+FFFD. */
  function Repaired(s: string): string
    decreases |s|
  {
    if s == "" then ""
    else if Width(s) == 0 then REPLACEMENT + Repaired(s[1..])
    else s[..Width(s)] + Repaired(s[Width(s)..])
  }

  lemma {:induction false} ValidIsRepaired(s: string)
    requires ValidUtf8(s)
    ensures Repaired(s) == s
    decreases |s|
  {
    if s != "" {
      ValidIsRepaired(s[Width(s)..]);
    }
  }

  /** What json.Marshal writes for the first character of s. */
  function MarshalOne(s: string): string
    requires s != ""
  {
    if Width(s) == 0 then UnicodeEscape(0xFFFD)
    else if Width(s) == 1 then
      if s[0] == '<' || s[0] == '>' || s[0] == '&' then UnicodeEscape(s[0] as int) else EscapeByte(s[0])
    else if s[..Width(s)] == Utf8(0x2028) then UnicodeEscape(0x2028)
    else if s[..Width(s)] == Utf8(0x2029) then UnicodeEscape(0x2029)
    else s[..Width(s)]
  }

  function Marshal(s: string): string
    decreases |s|
  {
    if s == "" then "" else
      MarshalOne(s) + Marshal(s[if Width(s) == 0 then 1 else Width(s)..])
  }

  /** The string literal that jsonBuf.str writes. */
  function Quote(s: string): string {
    "\"" + (if ValidUtf8(s) then Escape(s) else Marshal(s)) + "\""
  }

  /** Reading t inside a string literal adds u to the string. */
  ghost predicate Spells(t: string, u: string) {
    forall stack: Stack, isKey: bool, acc: string ::
      Feed(Reading(stack, InString(isKey, acc)), t) == Reading(stack, InString(isKey, acc + u))
  }

  lemma SpellsAppend(t1: string, u1: string, t2: string, u2: string)
    requires Spells(t1, u1) && Spells(t2, u2)
    ensures Spells(t1 + t2, u1 + u2)
  {
    hide Feed;
    forall stack: Stack, isKey: bool, acc: string
      ensures Feed(Reading(stack, InString(isKey, acc)), t1 + t2) == Reading(stack, InString(isKey, acc + (u1 + u2)))
    {
      FeedAppend(Reading(stack, InString(isKey, acc)), t1, t2);
      assert acc + u1 + u2 == acc + (u1 + u2);
    }
  }

  lemma SpellsNothing()
    ensures Spells("", "")
  {
    forall stack: Stack, isKey: bool, acc: string
      ensures Feed(Reading(stack, InString(isKey, acc)), "") == Reading(stack, InString(isKey, acc + ""))
    {
      assert acc + "" == acc;
    }
  }

  lemma VerbatimSpells(c: char)
    requires Verbatim(c)
    ensures Spells([c], [c])
  {
    forall stack: Stack, isKey: bool, acc: string
      ensures Feed(Reading(stack, InString(isKey, acc)), [c]) == Reading(stack, InString(isKey, acc + [c]))
    {
      FeedOne(Reading(stack, InString(isKey, acc)), c);
    }
  }

  lemma {:induction false} AllVerbatimSpells(s: string)
    requires forall c :: c in s ==> Verbatim(c)
    ensures Spells(s, s)
  {
    hide Spells;
    if s == "" {
      SpellsNothing();
    } else {
      var n := |s| - 1;
      AllVerbatimSpells(s[..n]);
      VerbatimSpells(s[n]);
      SpellsAppend(s[..n], s[..n], [s[n]], [s[n]]);
      assert s == s[..n] + [s[n]];
    }
  }

  lemma ShortSpells(c: char, meaning: char)
    requires Short(c) == Some(meaning)
    ensures Spells(['\\', c], [meaning])
  {
    hide Feed;
    forall stack: Stack, isKey: bool, acc: string
      ensures Feed(Reading(stack, InString(isKey, acc)), ['\\', c]) == Reading(stack, InString(isKey, acc + [meaning]))
    {
      var st := Reading(stack, InString(isKey, acc));
      assert ['\\', c] == ['\\'] + [c];
      FeedAppend(st, ['\\'], [c]);
      FeedOne(st, '\\');
      FeedOne(Reading(stack, InEscape(isKey, acc)), c);
    }
  }

  lemma HexDigitValue(n: nat)
    requires n < 16
    ensures HexValue(HexDigit(n)) == Some(n)
  {
  }

  lemma FeedDigit(stack: Stack, isKey: bool, acc: string, high: nat, digits: nat, code: nat, d: nat)
    requires d < 16 && digits < 3
    ensures Feed(Reading(stack, InUnicode(isKey, acc, high, digits, code)), [HexDigit(d)])
            == Reading(stack, InUnicode(isKey, acc, high, digits + 1, code * 16 + d))
  {
    HexDigitValue(d);
    FeedOne(Reading(stack, InUnicode(isKey, acc, high, digits, code)), HexDigit(d));
  }

  lemma HexParts(code: nat)
    requires code < 0x10000
    ensures ((code / 0x1000 * 16 + code / 0x100 % 0x10) * 16 + code / 0x10 % 0x10) * 16 + code % 0x10 == code
    ensures code / 0x1000 < 16
  {
  }

  lemma UnicodeSpells(code: nat)
    requires code < 0x10000 && !IsHigh(code) && !IsLow(code)
    ensures Spells(UnicodeEscape(code), Utf8(code))
  {
    hide Feed, Utf8, HexDigit;
    forall stack: Stack, isKey: bool, acc: string
      ensures Feed(Reading(stack, InString(isKey, acc)), UnicodeEscape(code))
              == Reading(stack, InString(isKey, acc + Utf8(code)))
    {
      FeedUnicode(stack, InString(isKey, acc), isKey, acc, 0, code);
    }
  }

  /** The state from which the four digits of an escape continue. */
  predicate Escapes(m: Mode, isKey: bool, acc: string, high: nat) {
    m == (if high == 0 then InString(isKey, acc) else AfterHigh(isKey, acc, high))
  }

  /** The four digits of a code unit. */
  lemma FeedDigits(stack: Stack, isKey: bool, acc: string, high: nat, code: nat)
    requires code < 0x10000
    ensures Feed(Reading(stack, InUnicode(isKey, acc, high, 0, 0)), UnicodeEscape(code)[2..])
            == Reading(stack, EndUnicode(isKey, acc, high, code))
  {
    hide Feed, EndUnicode, HexDigit;
    var d3, d2, d1, d0 := code / 0x1000, code / 0x100 % 0x10, code / 0x10 % 0x10, code % 0x10;
    HexParts(code);
    var open := Reading(stack, InUnicode(isKey, acc, high, 0, 0));
    var h2, h3 := [HexDigit(d3), HexDigit(d2)], [HexDigit(d3), HexDigit(d2), HexDigit(d1)];
    assert UnicodeEscape(code)[2..] == h3 + [HexDigit(d0)];
    FeedAppend(open, h3, [HexDigit(d0)]);
    assert h3 == h2 + [HexDigit(d1)] && h2 == [HexDigit(d3)] + [HexDigit(d2)];
    FeedAppend(open, h2, [HexDigit(d1)]);
    FeedAppend(open, [HexDigit(d3)], [HexDigit(d2)]);
    FeedDigit(stack, isKey, acc, high, 0, 0, d3);
    FeedDigit(stack, isKey, acc, high, 1, d3, d2);
    FeedDigit(stack, isKey, acc, high, 2, d3 * 16 + d2, d1);
    HexDigitValue(d0);
    FeedOne(Reading(stack, InUnicode(isKey, acc, high, 3, (d3 * 16 + d2) * 16 + d1)), HexDigit(d0));
  }

  lemma FeedUnicode(stack: Stack, m: Mode, isKey: bool, acc: string, high: nat, code: nat)
    requires code < 0x10000 && Escapes(m, isKey, acc, high)
    ensures Feed(Reading(stack, m), UnicodeEscape(code)) == Reading(stack, EndUnicode(isKey, acc, high, code))
  {
    hide Feed, EndUnicode;
    var st := Reading(stack, m);
    var escaped := Reading(stack, if high == 0 then InEscape(isKey, acc) else AfterHighEscape(isKey, acc, high));
    assert UnicodeEscape(code) == (['\\'] + ['u']) + UnicodeEscape(code)[2..];
    FeedAppend(st, ['\\'] + ['u'], UnicodeEscape(code)[2..]);
    FeedAppend(st, ['\\'], ['u']);
    FeedOne(st, '\\');
    FeedOne(escaped, 'u');
    FeedDigits(stack, isKey, acc, high, code);
  }

  /** An escaped pair of surrogates is one character. */
  lemma PairSpells(high: nat, low: nat)
    requires IsHigh(high) && IsLow(low)
    ensures Spells(UnicodeEscape(high) + UnicodeEscape(low), Utf8Pair(high, low))
  {
    hide Feed, Utf8Pair, UnicodeEscape;
    forall stack: Stack, isKey: bool, acc: string
      ensures Feed(Reading(stack, InString(isKey, acc)), UnicodeEscape(high) + UnicodeEscape(low))
              == Reading(stack, InString(isKey, acc + Utf8Pair(high, low)))
    {
      var st := Reading(stack, InString(isKey, acc));
      FeedAppend(st, UnicodeEscape(high), UnicodeEscape(low));
      FeedUnicode(stack, InString(isKey, acc), isKey, acc, 0, high);
      FeedUnicode(stack, AfterHigh(isKey, acc, high), isKey, acc, high, low);
    }
  }

  /** The code unit that the digits at the front of a text complete. */
  function CodeUnit(text: string, digits: nat, code: nat): Option<nat>
    requires digits <= 4
    decreases 4 - digits
  {
    if digits == 4 then Some(code)
    else if text == "" || HexValue(text[0]).None? then None
    else CodeUnit(text[1..], digits + 1, code * 16 + HexValue(text[0]).value)
  }

  /** An escaped low surrogate at the front of a text. */
  predicate StartsLow(text: string) {
    && |text| >= 2 && text[0] == '\\' && text[1] == 'u'
    && CodeUnit(text[2..], 0, 0).Some? && IsLow(CodeUnit(text[2..], 0, 0).value)
  }

  /** Within one escape, a high surrogate still waits in the first state and has become U+FFFD in the second. */
  predicate Pending(a: State, b: State) {
    && a.Reading? && b.Reading? && a.stack == b.stack
    && match a.mode
       case AfterHigh(isKey, s, _) => b.mode == InString(isKey, s + REPLACEMENT)
       case AfterHighEscape(isKey, s, _) => b.mode == InEscape(isKey, s + REPLACEMENT)
       case InUnicode(isKey, s, high, digits, code) =>
         high > 0 && b.mode == InUnicode(isKey, s + REPLACEMENT, 0, digits, code)
       case _ => false
  }

  lemma FeedFirst(st: State, text: string)
    requires text != ""
    ensures Feed(st, text) == Feed(Step(st, text[0]), text[1..])
  {
  }

  lemma {:induction false} PendingDigits(stack: Stack, isKey: bool, s: string, high: nat, digits: nat, code: nat,
                                         text: string)
    requires high > 0 && digits < 4
    requires CodeUnit(text, digits, code).Some? ==> !IsLow(CodeUnit(text, digits, code).value)
    ensures var a := Feed(Reading(stack, InUnicode(isKey, s, high, digits, code)), text);
      var b := Feed(Reading(stack, InUnicode(isKey, s + REPLACEMENT, 0, digits, code)), text);
      a == b || Pending(a, b)
    decreases 4 - digits
  {
    hide Feed, EndUnicode;
    var a := Reading(stack, InUnicode(isKey, s, high, digits, code));
    var b := Reading(stack, InUnicode(isKey, s + REPLACEMENT, 0, digits, code));
    if text == "" {
      FeedNothing(a);
      FeedNothing(b);
    } else {
      FeedFirst(a, text);
      FeedFirst(b, text);
      if HexValue(text[0]).Some? {
        var now := code * 16 + HexValue(text[0]).value;
        if digits < 3 {
          PendingDigits(stack, isKey, s, high, digits + 1, now, text[1..]);
        } else if now < 0x10000 {
          assert CodeUnit(text[1..], 4, now) == Some(now);
          EndAlike(isKey, s, high, now);
        }
      }
    }
  }

  lemma EndAlike(isKey: bool, s: string, high: nat, code: nat)
    requires high > 0 && code < 0x10000 && !IsLow(code)
    ensures EndUnicode(isKey, s, high, code) == EndUnicode(isKey, s + REPLACEMENT, 0, code)
  {
  }

  /** An escaped surrogate is U+FFFD, whatever follows it, unless it is a high one and an escaped low one
      follows: the text is read as if U+FFFD stood there, up to the end of the next escape at the latest. */
  lemma LoneSurrogate(stack: Stack, isKey: bool, acc: string, code: nat, rest: string)
    requires IsHigh(code) || IsLow(code)
    requires !(IsHigh(code) && StartsLow(rest))
    ensures var a := Feed(Reading(stack, InString(isKey, acc)), UnicodeEscape(code) + rest);
      var b := Feed(Reading(stack, InString(isKey, acc + REPLACEMENT)), rest);
      && (a == b || Pending(a, b))
      && (b.Reading? && Settle(b).mode.Complete? ==> a == b)
  {
    hide Feed, UnicodeEscape, CodeUnit;
    var st := Reading(stack, InString(isKey, acc));
    FeedAppend(st, UnicodeEscape(code), rest);
    FeedUnicode(stack, InString(isKey, acc), isKey, acc, 0, code);
    if IsHigh(code) {
      AfterHighRead(stack, isKey, acc, code, rest);
    }
  }

  lemma AfterHighRead(stack: Stack, isKey: bool, s: string, high: nat, rest: string)
    requires high > 0 && !StartsLow(rest)
    ensures var a := Feed(Reading(stack, AfterHigh(isKey, s, high)), rest);
      var b := Feed(Reading(stack, InString(isKey, s + REPLACEMENT)), rest);
      a == b || Pending(a, b)
  {
    hide Feed, CodeUnit;
    var a, b := Reading(stack, AfterHigh(isKey, s, high)), Reading(stack, InString(isKey, s + REPLACEMENT));
    FeedNothing(a);
    FeedNothing(b);
    if rest != "" {
      FeedFirst(a, rest);
      FeedFirst(b, rest);
      if rest[0] == '\\' {
        var c, d := Step(a, rest[0]), Step(b, rest[0]);
        FeedNothing(c);
        FeedNothing(d);
        if |rest| > 1 {
          FeedFirst(c, rest[1..]);
          FeedFirst(d, rest[1..]);
          assert rest[1..][1..] == rest[2..];
          if rest[1] == 'u' {
            PendingDigits(stack, isKey, s, high, 0, 0, rest[2..]);
          }
        }
      }
    }
  }

  lemma {:induction false} DigitsRead(stack: Stack, isKey: bool, s: string, high: nat, digits: nat, code: nat,
                                      text: string)
    requires digits < 4 && CodeUnit(text, digits, code).Some? && CodeUnit(text, digits, code).value < 0x10000
    ensures |text| >= 4 - digits
    ensures Feed(Reading(stack, InUnicode(isKey, s, high, digits, code)), text)
            == Feed(Reading(stack, EndUnicode(isKey, s, high, CodeUnit(text, digits, code).value)), text[4 - digits..])
    decreases 4 - digits
  {
    hide Feed, EndUnicode;
    var st := Reading(stack, InUnicode(isKey, s, high, digits, code));
    FeedFirst(st, text);
    var now := code * 16 + HexValue(text[0]).value;
    if digits < 3 {
      DigitsRead(stack, isKey, s, high, digits + 1, now, text[1..]);
      assert text[1..][3 - digits..] == text[4 - digits..];
    } else {
      assert CodeUnit(text[1..], 4, now) == Some(now);
    }
  }

  /** In the remaining case, however the low one's digits are written, the two are one character. */
  lemma PairRead(stack: Stack, isKey: bool, acc: string, high: nat, rest: string)
    requires IsHigh(high) && StartsLow(rest)
    ensures |rest| >= 6
    ensures Feed(Reading(stack, InString(isKey, acc)), UnicodeEscape(high) + rest)
            == Feed(Reading(stack, InString(isKey, acc + Utf8Pair(high, CodeUnit(rest[2..], 0, 0).value))), rest[6..])
  {
    hide Feed, UnicodeEscape, CodeUnit, Utf8Pair;
    var st, after := Reading(stack, InString(isKey, acc)), Reading(stack, AfterHigh(isKey, acc, high));
    FeedAppend(st, UnicodeEscape(high), rest);
    FeedUnicode(stack, InString(isKey, acc), isKey, acc, 0, high);
    FeedFirst(after, rest);
    FeedFirst(Step(after, '\\'), rest[1..]);
    assert rest[1..][1..] == rest[2..];
    DigitsRead(stack, isKey, acc, high, 0, 0, rest[2..]);
    assert rest[2..][4..] == rest[6..];
  }

  lemma ByteSpells(c: char)
    ensures Spells(EscapeByte(c), [c])
  {
    hide Spells;
    if Verbatim(c) {
      VerbatimSpells(c);
    } else if c == '"' {
      ShortSpells('"', c);
    } else if c == '\\' {
      ShortSpells('\\', c);
    } else if c == '\n' {
      ShortSpells('n', c);
    } else if c == '\r' {
      ShortSpells('r', c);
    } else if c == '\t' {
      ShortSpells('t', c);
    } else if c == '\U{08}' {
      ShortSpells('b', c);
    } else if c == '\U{0c}' {
      ShortSpells('f', c);
    } else {
      UnicodeSpells(c as int);
    }
  }

  /** The per-byte escape reads back as the string itself. */
  lemma {:induction false} EscapeSpells(s: string)
    ensures Spells(Escape(s), s)
  {
    hide Spells, EscapeByte;
    if s == "" {
      SpellsNothing();
    } else {
      var n := |s| - 1;
      EscapeSpells(s[..n]);
      ByteSpells(s[n]);
      SpellsAppend(Escape(s[..n]), s[..n], EscapeByte(s[n]), [s[n]]);
      assert s == s[..n] + [s[n]];
    }
  }

  lemma MarshalOneSpells(s: string)
    requires s != ""
    ensures Spells(MarshalOne(s), if Width(s) == 0 then REPLACEMENT else s[..Width(s)])
  {
    hide Spells, EscapeByte, UnicodeEscape;
    if Width(s) == 0 {
      UnicodeSpells(0xFFFD);
      assert Utf8(0xFFFD) == REPLACEMENT;
    } else if Width(s) == 1 {
      ByteSpells(s[0]);
      UnicodeSpells(s[0] as int);
      assert s[..1] == [s[0]];
    } else {
      UnicodeSpells(0x2028);
      UnicodeSpells(0x2029);
      forall c | c in s[..Width(s)] ensures Verbatim(c) {
      }
      AllVerbatimSpells(s[..Width(s)]);
    }
  }

  lemma {:induction false} MarshalSpells(s: string)
    ensures Spells(Marshal(s), Repaired(s))
    decreases |s|
  {
    hide Spells, MarshalOne, Width;
    if s == "" {
      SpellsNothing();
    } else {
      var w := if Width(s) == 0 then 1 else Width(s);
      MarshalSpells(s[w..]);
      MarshalOneSpells(s);
      SpellsAppend(MarshalOne(s), if Width(s) == 0 then REPLACEMENT else s[..w], Marshal(s[w..]), Repaired(s[w..]));
    }
  }

  lemma BodySpells(s: string)
    ensures Spells(if ValidUtf8(s) then Escape(s) else Marshal(s), Repaired(s))
  {
    hide Spells, Escape, Marshal, Repaired, ValidUtf8;
    if ValidUtf8(s) {
      EscapeSpells(s);
      ValidIsRepaired(s);
    } else {
      MarshalSpells(s);
    }
  }

  /** What jsonBuf.str writes reads back as the string, its malformed bytes replaced; so as exactly the
      string when it is valid UTF-8. */
  lemma QuoteReads(stack: Stack, s: string)
    ensures Feed(Reading(stack, InString(false, "")), Quote(s)[1..]) == Put(stack, Str(Repaired(s)))
  {
    hide Feed, Escape, Marshal, Repaired, ValidUtf8;
    BodySpells(s);
    var body := if ValidUtf8(s) then Escape(s) else Marshal(s);
    assert Quote(s)[1..] == body + "\"";
    var st := Reading(stack, InString(false, ""));
    FeedAppend(st, body, "\"");
    assert "" + Repaired(s) == Repaired(s);
    FeedOne(Reading(stack, InString(false, Repaired(s))), '"');
  }
}
