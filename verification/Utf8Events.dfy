/** Events whose strings are valid UTF-8, as every decoder hands them out. */
module Utf8Events {
  import opened Text
  import opened Upstream
  import opened Json
  import opened JsonBuf

  predicate AllValid(pieces: seq<string>) { forall i :: 0 <= i < |pieces| ==> ValidUtf8(pieces[i]) }

  lemma {:induction false} ValidConcat(pieces: seq<string>)
    requires AllValid(pieces)
    ensures ValidUtf8(Concat(pieces))
  {
    hide ValidUtf8;
    if pieces == [] {
      ValidNothing();
    } else {
      ValidConcat(pieces[..|pieces| - 1]);
      ValidAppend(Concat(pieces[..|pieces| - 1]), pieces[|pieces| - 1]);
    }
  }

  lemma ValidNothing()
    ensures ValidUtf8("")
  {
  }

  /** The constants that the translators put into their frames. */
  lemma Constants()
    ensures ValidUtf8("") && ValidUtf8("{}") && ValidUtf8("stop") && ValidUtf8("tool_calls")
    ensures ValidUtf8("call_") && ValidUtf8("toolu_") && ValidUtf8("msg_") && ValidUtf8("rs_") && ValidUtf8("fc_")
  {
    ShortNames();
    Prefixes();
    forall s | Plain(s) ensures ValidUtf8(s) {
      PlainValid(s);
    }
  }

  lemma ShortNames()
    ensures Plain("") && Plain("{}") && Plain("stop") && Plain("tool_calls")
  {
  }

  lemma Prefixes()
    ensures Plain("call_") && Plain("toolu_") && Plain("msg_") && Plain("rs_") && Plain("fc_")
  {
  }

  lemma ErrorTypes()
    ensures ValidUtf8("rate_limit_error") && ValidUtf8("proxy_error") && ValidUtf8("internal_error")
  {
    assert Plain("rate_limit_error") && Plain("proxy_error") && Plain("internal_error");
    PlainValid("rate_limit_error");
    PlainValid("proxy_error");
    PlainValid("internal_error");
  }

  predicate ValidInput(input: Input) {
    match input
    case Absent => true
    case JsonString(s) => ValidUtf8(s)
    case JsonText(text) => ValidUtf8(text)
  }

  /** Its strings are valid, and an error does not ask for a wait of less than nothing. */
  predicate ValidEvent(ev: Event) {
    match ev
    case TextDelta(t) => ValidUtf8(t)
    case ReasoningDelta(t) => ValidUtf8(t)
    case ToolCall(id, name, input) => ValidUtf8(id) && ValidUtf8(name) && ValidInput(input)
    case FinishStep(reason, _, _) => ValidUtf8(reason)
    case Finish(reason, _, _) => ValidUtf8(reason)
    case Error(e) => ValidUtf8(e.typ) && ValidUtf8(e.message) && e.retryAfter >= 0
    case _ => true
  }

  predicate ValidEvents(evs: seq<Event>) { forall i :: 0 <= i < |evs| ==> ValidEvent(evs[i]) }

  predicate ValidEnding(ending: Ending) { ending.Broken? ==> ValidUtf8(ending.message) }

  ghost predicate ValidHex(hex: Hex) { forall n :: ValidUtf8(hex(n)) }

  lemma ValidArgs(input: Input)
    requires ValidInput(input)
    ensures ValidUtf8(ToolArgs(input))
  {
    hide ValidUtf8, Trim;
    Constants();
  }

  lemma ValidReason(reason: string)
    requires ValidUtf8(reason)
    ensures ValidUtf8(MapFinishReason(reason))
  {
    hide ValidUtf8;
    Constants();
  }

  lemma ValidID(prefix: string, hex: Hex, n: nat)
    requires ValidUtf8(prefix) && ValidHex(hex)
    ensures ValidUtf8(prefix + hex(n))
  {
    ValidAppend(prefix, hex(n));
  }
}
