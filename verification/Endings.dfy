/** How a reply ends, across the four protocols: what each tells its client of the same events. */
module Endings {
  import opened Text
  import opened Upstream
  import opened Buffered
  import Chat = OpenAIModel
  import Anthropic = AnthropicModel
  import AnthropicAgreement
  import Responses = ResponsesModel
  import ResponsesAgreement
  import Gemini = GeminiStream

  /** Every form tells that the answer was cut short exactly if the last finish says so; and the two that
      know of it, that it stopped for a tool call. */
  lemma CutTold(hex: Hex, evs: seq<Event>)
    ensures var cut := LastFinish(evs) == Some("length");
      && (FinishOf(evs) == "length" <==> cut)
      && (Responses.FinalOf(Responses.Close(Responses.Fold(hex, evs))).incomplete <==> cut)
      && (MapAnthropicStopReason(FinishOf(evs)) == "max_tokens" <==> cut)
      && (Gemini.Candidate(hex, evs).finish == "MAX_TOKENS" <==> cut)
    ensures var tool := LastFinish(evs) in {Some("tool-calls"), Some("tool_calls")};
      && (FinishOf(evs) == "tool_calls" <==> tool)
      && (MapAnthropicStopReason(FinishOf(evs)) == "tool_use" <==> tool)
  {
    hide LastFinish, FinishOf, Responses.Fold, Gemini.Candidate;
    FinishIs(evs);
    Gemini.EndTold(hex, evs);
    ResponsesAgreement.Bookkeeping(hex, evs);
    ResponsesAgreement.CloseKeepsBooks(Responses.Fold(hex, evs));
    WordsDiffer();
  }

  lemma WordsDiffer()
    ensures "length" != "tool-calls" && "length" != "tool_calls" && "stop" != "length" && "" != "length"
    ensures "stop" != "tool_calls" && "tool-calls" != "tool_calls" && "tool_calls" != ""
    ensures "max_tokens" != "tool_use" && "max_tokens" != "end_turn" && "tool_use" != "end_turn"
  {
    assert "tool-calls"[4] != "tool_calls"[4];
  }

  /** The last frame of each stream after content and then a failure. */
  lemma FailureTold(hex: Hex, sign: Anthropic.Sign, includeUsage: bool, evs: seq<Event>, ending: Ending,
                    timeoutMessage: string)
    requires HasContent(evs) && !ending.Cancelled? && (ending.Eof? ==> LastError(evs).Some?)
    ensures var chat :=
        Chat.AllFrames(Chat.Fold(hex, includeUsage, evs), includeUsage, ending, timeoutMessage);
      var anthropic := Anthropic.AllFrames(Anthropic.Fold(hex, evs), sign, ending, timeoutMessage);
      var responses := Responses.AllBodies(Responses.Fold(hex, evs), ending, timeoutMessage);
      var gemini := Gemini.AllFrames(evs, ending, timeoutMessage);
      && chat != [] && anthropic != [] && responses != [] && gemini != []
      && var (c, a, r, g) := (chat[|chat| - 1], anthropic[|anthropic| - 1], responses[|responses| - 1],
                              gemini[|gemini| - 1]);
        match ending
        case Cancelled => true
        case Idle =>
          && c == Chat.ErrorFrame("rate_limit_error", timeoutMessage, 5)
          && a == Anthropic.ErrorEvent("rate_limit_error", timeoutMessage, 5)
          && r == Responses.ErrorEvent("rate_limit_error", timeoutMessage)
          && g == Gemini.ErrorFrame(429, timeoutMessage)
        case Broken(message) =>
          && c == Chat.ErrorFrame("proxy_error", message, 0)
          && a == Anthropic.ErrorEvent("internal_error", message, 0)
          && r == Responses.ErrorEvent("proxy_error", message)
          && g == Gemini.ErrorFrame(502, "upstream error")
        case Eof =>
          var e := LastError(evs).value;
          && c == Chat.ErrorFrame(e.typ, e.message, e.retryAfter)
          && a == Anthropic.ErrorEvent(e.typ, e.message, 0)
          && r == Responses.Failed(e.message)
          && g == Gemini.ErrorFrame(e.status, e.message)
  {
    hide HasContent, LastError, Chat.Fold, Anthropic.Fold, Responses.Fold, Gemini.Streamed, Gemini.Begun;
    hide Anthropic.Frames, Responses.Bodies;
    Chat.Bookkeeping(hex, includeUsage, evs);
    AnthropicAgreement.Bookkeeping(hex, evs);
    ResponsesAgreement.Bookkeeping(hex, evs);
    Gemini.BegunWhen(evs);
  }

  /** The errors that a Gemini client gets instead of a reply are those of the other protocols. */
  lemma RefusalTold(evs: seq<Event>, ending: Ending, timeoutMessage: string)
    requires !Gemini.Answerable(evs, ending)
    ensures Gemini.RefusalOf(evs, ending, timeoutMessage)
            == match BufferedReply(evs, ending, timeoutMessage)
               case NoReply => None
               case JsonError(e) => Some((e.status, e.message))
  {
    hide HasContent, LastError;
  }
}
