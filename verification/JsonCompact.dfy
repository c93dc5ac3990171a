/** json.Marshal of a text that claims to be JSON: it refuses what is not, and takes out the white space. */
module JsonCompact {
  import opened Text
  import opened Json

  predicate InText(m: Mode) { m.InString? || m.InEscape? || m.InUnicode? || m.AfterHigh? || m.AfterHighEscape? }

  /** White space between the tokens. */
  predicate Skipped(st: State, c: char) { st.Reading? && !InText(st.mode) && White(c) }

  predicate Angle(c: char) { c == '<' || c == '>' || c == '&' }

  /** U+2028 or U+2029, as the bytes at the front of a text. */
  function Separator(text: string): (code: nat)
    ensures code < 0x10000
    ensures code > 0 ==> |text| >= 3
  {
    if |text| < 3 then 0
    else if text[..3] == Utf8(0x2028) then 0x2028
    else if text[..3] == Utf8(0x2029) then 0x2029
    else 0
  }

  /** The text without the white space between its tokens; with `html`, the characters that HTML treats in
      a special way are escaped. */
  function Compact(st: State, text: string, html: bool): string
    decreases |text|
  {
    if text == "" then ""
    else
      var c := text[0];
      if Skipped(st, c) then Compact(Step(st, c), text[1..], html)
      else if html && Angle(c) then UnicodeEscape(c as int) + Compact(Step(st, c), text[1..], html)
      else if html && Separator(text) > 0 then
        UnicodeEscape(Separator(text)) + Compact(Feed(st, text[..3]), text[3..], html)
      else [c] + Compact(Step(st, c), text[1..], html)
  }

  /** What is written for a json.RawMessage; None is the error. */
  function MarshalRaw(text: string, html: bool): Option<string> {
    if Parse(text).None? then None else Some(Compact(START, text, html))
  }

  /* ---- The value stays ---- */

  /** Words are lower-case letters, and a string waits for a low surrogate only after a high one. */
  predicate Sane(st: State) {
    st.Reading? ==>
      && (st.mode.InWord? ==> forall i :: 0 <= i < |st.mode.rest| ==> 'a' <= st.mode.rest[i] <= 'z')
      && (st.mode.AfterHigh? ==> IsHigh(st.mode.high))
  }

  lemma StepSane(st: State, c: char)
    requires Sane(st)
    ensures Sane(Step(st, c))
  {
    assert 'a' <= "rue"[0] <= 'z' && 'a' <= "alse"[0] <= 'z' && 'a' <= "ull"[0] <= 'z';
  }

  /** The compacted text may still be inside a number that white space has ended in the other. */
  predicate Follows(a: State, b: State) { a == b || (b.Reading? && b.mode.InNumber? && a == Settle(b)) }

  lemma FailStays(text: string)
    ensures Feed(Fail, text) == Fail
    decreases |text|
  {
    if text != "" {
      FailStays(text[1..]);
    }
  }

  lemma SkippedStep(a: State, b: State, c: char)
    requires Sane(a) && Follows(a, b) && Skipped(a, c) && Step(a, c) != Fail
    ensures Follows(Step(a, c), b)
  {
  }

  lemma KeptStep(a: State, b: State, c: char)
    requires Follows(a, b) && !Skipped(a, c) && Step(a, c) != Fail
    ensures Follows(Step(a, c), Step(b, c))
  {
  }

  /** Outside of a string such a byte is an error; inside it may be escaped. */
  lemma AngleStep(a: State, b: State, c: char)
    requires Sane(a) && Follows(a, b) && Angle(c) && Step(a, c) != Fail
    ensures Feed(b, UnicodeEscape(c as int)) == Step(a, c)
  {
    hide Feed, UnicodeEscape;
    assert a.mode.InString? || a.mode.AfterHigh?;
    var m := a.mode;
    var high := if m.InString? then 0 else m.high;
    FeedUnicode(a.stack, m, m.isKey, m.s, high, c as int);
  }

  lemma SeparatorStep(a: State, b: State, text: string)
    requires Sane(a) && Follows(a, b) && Separator(text) > 0 && Feed(a, text[..3]) != Fail
    ensures Feed(b, UnicodeEscape(Separator(text))) == Feed(a, text[..3])
  {
    hide UnicodeEscape;
    var code, first := Separator(text), text[..3];
    assert first == [first[0]] + first[1..] && first == Utf8(code) && first[0] as int == 0xE2;
    FeedAppend(a, [first[0]], first[1..]);
    FeedOne(a, first[0]);
    FailStays(first[1..]);
    OnlyInText(a, first[0]);
    var m := a.mode;
    var high := if m.InString? then 0 else m.high;
    var acc := if m.InString? then m.s else m.s + REPLACEMENT;
    FeedUnicode(a.stack, m, m.isKey, m.s, high, code);
    AllVerbatimSpells(first[1..]);
    assert Feed(Reading(a.stack, InString(m.isKey, acc + [first[0]])), first[1..])
           == Reading(a.stack, InString(m.isKey, acc + [first[0]] + first[1..]));
    assert acc + [first[0]] + first[1..] == acc + first;
  }

  lemma OnlyInText(a: State, c: char)
    requires Sane(a) && c as int == 0xE2 && Step(a, c) != Fail
    ensures a.mode.InString? || a.mode.AfterHigh?
  {
  }

  /** The two texts are read alike, to the end. */
  lemma {:induction false} CompactFollows(a: State, b: State, text: string, html: bool)
    requires Sane(a) && Follows(a, b) && Feed(a, text) != Fail
    ensures Follows(Feed(a, text), Feed(b, Compact(a, text, html)))
    decreases |text|
  {
    hide Step, Sane, Follows, Separator, Skipped, UnicodeEscape;
    if text != "" {
      var c, rest := text[0], text[1..];
      FailStays(rest);
      StepSane(a, c);
      if Skipped(a, c) {
        SkippedStep(a, b, c);
        CompactFollows(Step(a, c), b, rest, html);
      } else if html && Angle(c) {
        AngleStep(a, b, c);
        FeedAppend(b, UnicodeEscape(c as int), Compact(Step(a, c), rest, html));
        SameFollows(Step(a, c));
        CompactFollows(Step(a, c), Step(a, c), rest, html);
      } else if html && Separator(text) > 0 {
        var three := text[..3];
        assert text == three + text[3..];
        FeedAppend(a, three, text[3..]);
        FailStays(text[3..]);
        SeparatorStep(a, b, text);
        FeedSane(a, three);
        FeedAppend(b, UnicodeEscape(Separator(text)), Compact(Feed(a, three), text[3..], html));
        SameFollows(Feed(a, three));
        CompactFollows(Feed(a, three), Feed(a, three), text[3..], html);
      } else {
        KeptStep(a, b, c);
        FeedAppend(b, [c], Compact(Step(a, c), rest, html));
        FeedOne(b, c);
        CompactFollows(Step(a, c), Step(b, c), rest, html);
      }
    }
  }

  lemma SameFollows(st: State)
    ensures Follows(st, st)
  {
  }

  lemma {:induction false} FeedSane(st: State, text: string)
    requires Sane(st)
    ensures Sane(Feed(st, text))
    decreases |text|
  {
    hide Step, Sane;
    if text != "" {
      StepSane(st, text[0]);
      FeedSane(Step(st, text[0]), text[1..]);
    }
  }

  /** What json.Marshal writes for a JSON text is a JSON text for the same value. */
  lemma CompactKeepsValue(text: string, html: bool)
    requires Parse(text).Some?
    ensures Parse(Compact(START, text, html)) == Parse(text)
  {
    hide Feed;
    CompactFollows(START, START, text, html);
  }

  /* ---- The text itself ---- */

  /** There is no white space between tokens. */
  predicate Dense(st: State, text: string)
    decreases |text|
  {
    text == "" || (!Skipped(st, text[0]) && Dense(Step(st, text[0]), text[1..]))
  }

  /** Without HTML escapes the text stays exactly if it is dense, and is shorter otherwise. */
  lemma {:induction false} CompactSame(st: State, text: string)
    ensures |Compact(st, text, false)| <= |text|
    ensures Compact(st, text, false) == text <==> Dense(st, text)
    ensures !Dense(st, text) ==> |Compact(st, text, false)| < |text|
    decreases |text|
  {
    hide Step, Skipped;
    if text != "" {
      CompactSame(Step(st, text[0]), text[1..]);
      assert text == [text[0]] + text[1..];
    }
  }

  /* ---- White space around a text ---- */

  predicate AllWhite(s: string) { forall i :: 0 <= i < |s| ==> White(s[i]) }

  predicate AllSpace(s: string) { forall i :: 0 <= i < |s| ==> IsSpace(s[i]) }

  /** The value at the end of a text. */
  function Finish(st: State): Option<Value> {
    var end := Settle(st);
    if end.Reading? && end.mode.Complete? then Some(end.mode.v) else None
  }

  lemma WhiteFinish(st: State, c: char)
    requires Sane(st) && White(c)
    ensures Finish(Step(st, c)) == Finish(st)
  {
  }

  lemma OddFinish(st: State, c: char)
    requires Sane(st) && IsSpace(c) && !White(c)
    ensures Step(st, c) == Fail
  {
  }

  lemma {:induction false} TailFinish(st: State, s: string)
    requires Sane(st) && AllSpace(s)
    ensures Finish(Feed(st, s)) == if AllWhite(s) then Finish(st) else None
    decreases |s|
  {
    hide Step, Sane, Finish, White, IsSpace;
    if s != "" {
      var c := s[0];
      StepSane(st, c);
      TailFinish(Step(st, c), s[1..]);
      if White(c) {
        WhiteFinish(st, c);
      } else {
        OddFinish(st, c);
        FailStays(s[1..]);
        FinishFail();
      }
    }
  }

  lemma FinishFail()
    ensures Finish(Fail).None?
  {
  }

  lemma {:induction false} HeadStays(s: string)
    requires AllSpace(s)
    ensures Feed(START, s) == if AllWhite(s) then START else Fail
    decreases |s|
  {
    if s != "" {
      FailStays(s[1..]);
      HeadStays(s[1..]);
    }
  }

  /** Around a JSON text only the white space of RFC 8259 may stand; trimming takes away more. */
  lemma ParseAround(left: string, text: string, right: string)
    requires AllSpace(left) && AllSpace(right)
    ensures Parse(left + text + right) == if AllWhite(left) && AllWhite(right) then Parse(text) else None
  {
    hide Feed, Sane, Settle;
    FeedAppend(START, left + text, right);
    FeedAppend(START, left, text);
    HeadStays(left);
    FailStays(text);
    StartSane();
    FeedSane(START, left + text);
    TailFinish(Feed(START, left + text), right);
    FinishFail();
  }

  lemma StartSane()
    ensures Sane(START)
  {
  }

  function LeftMargin(s: string): string { s[..|s| - |TrimLeft(s)|] }

  function RightMargin(s: string): string { TrimLeft(s)[|Trim(s)|..] }

  lemma {:induction false} TrimLeftIs(s: string)
    ensures s == LeftMargin(s) + TrimLeft(s) && AllSpace(LeftMargin(s))
  {
    if s != "" && IsSpace(s[0]) {
      TrimLeftIs(s[1..]);
      assert LeftMargin(s) == [s[0]] + LeftMargin(s[1..]);
    }
  }

  lemma {:induction false} TrimRightIs(s: string)
    ensures AllSpace(s[|TrimRight(s)|..])
  {
    if s != "" && IsSpace(s[|s| - 1]) {
      var n := |s| - 1;
      TrimRightIs(s[..n]);
      assert s[|TrimRight(s)|..] == s[..n][|TrimRight(s)|..] + [s[n]];
    }
  }

  /** Trimming a text leaves its value alone exactly if it takes away only the white space of RFC 8259, or
      leaves no JSON text; otherwise it makes a JSON text of what is none. */
  lemma ParseTrimmed(s: string)
    ensures Parse(s) == if AllWhite(LeftMargin(s)) && AllWhite(RightMargin(s)) then Parse(Trim(s)) else None
    ensures Parse(s) == Parse(Trim(s)) <==>
      (AllWhite(LeftMargin(s)) && AllWhite(RightMargin(s))) || Parse(Trim(s)).None?
  {
    TrimLeftIs(s);
    TrimRightIs(TrimLeft(s));
    ParseAround(LeftMargin(s), Trim(s), RightMargin(s));
    assert TrimLeft(s) == Trim(s) + RightMargin(s);
    assert s == LeftMargin(s) + Trim(s) + RightMargin(s);
  }

  /** A word that is no JSON text. */
  lemma HelloIsNoJson()
    ensures Parse("hello").None? && Trim("hello") == "hello"
  {
    TrimFixed("hello");
    var rest := "hello"[1..];
    assert Step(START, 'h') == Fail;
    FailStays(rest);
  }
}
