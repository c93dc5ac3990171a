/** responses.go: from the items of a Responses request to chat messages. */
module ResponsesRequest {
  import opened Text
  import opened Upstream
  import opened Json
  import opened Chat
  import opened Transcript
  import opened Identifiers

  /** An input item; `text` and `reasoning` are what responsesTextOf and reasoningText find in it, and
      `output` is the raw output of a call. */
  datatype Item = Item(
    typ: string, role: string, text: string, reasoning: string, callID: string, id: string, name: string,
    arguments: string, output: string)

  datatype Input = NoInput | InputText(s: string) | InputItems(items: seq<Item>)

  datatype Kind = ReasoningItem | AssistantItem | SystemItem | UserItem | CallItem | OutputItem | OtherItem

  function KindOf(it: Item): Kind {
    var typ := if it.typ == "" && it.role != "" then "message" else it.typ;
    if typ == "reasoning" then ReasoningItem
    else if typ == "message" then
      if it.role == "assistant" then AssistantItem
      else if it.role == "system" || it.role == "developer" then SystemItem
      else UserItem
    else if typ == "function_call" then CallItem
    else if typ == "function_call_output" then OutputItem
    else OtherItem
  }

  function ToolCall(it: Item, random: string): Call {
    Call(OrDefault(it.callID, OrDefault(it.id, "call_" + random)), it.name, OrDefault(it.arguments, "{}"))
  }

  /** The content of the tool message for an output. */
  function OutputContent(output: string): string {
    if output == "" || Trim(output) == "null" then Encoded("")
    else if output[0] == '"' then output
    else Encoded(output)
  }

  /* ---- Runs: what lies between two messages that are not the assistant's ---- */

  predicate Flushes(it: Item) { KindOf(it).SystemItem? || KindOf(it).UserItem? || KindOf(it).OutputItem? }

  function FlushMessage(it: Item): Message {
    match KindOf(it)
    case SystemItem => TextMessage("system", Encoded(it.text))
    case OutputItem => ToolMessage(it.callID, OutputContent(it.output), "")
    case _ => TextMessage("user", Encoded(it.text))
  }

  function RunStart(items: seq<Item>): (k: nat)
    ensures k <= |items|
  {
    if items == [] then 0
    else if Flushes(items[|items| - 1]) then |items|
    else RunStart(items[..|items| - 1])
  }

  lemma {:induction false} RunStartIs(items: seq<Item>)
    ensures var k := RunStart(items);
      && (k > 0 ==> Flushes(items[k - 1]))
      && forall i :: k <= i < |items| ==> !Flushes(items[i])
  {
    hide Flushes;
    if items != [] && !Flushes(items[|items| - 1]) {
      RunStartIs(items[..|items| - 1]);
    }
  }

  /** The last text of the assistant from item k on. */
  function LastText(items: seq<Item>, k: nat): string {
    if |items| <= k then "" else
      var it := items[|items| - 1];
      if KindOf(it).AssistantItem? && it.text != "" then it.text else LastText(items[..|items| - 1], k)
  }

  function LastReasoning(items: seq<Item>, k: nat): string {
    if |items| <= k then "" else
      var it := items[|items| - 1];
      if KindOf(it).ReasoningItem? && it.reasoning != "" then it.reasoning else LastReasoning(items[..|items| - 1], k)
  }

  /** The calls from item k on; `random` gives each item its random string. */
  function CallsFrom(random: Hex, items: seq<Item>, k: nat): seq<Call> {
    if |items| <= k then [] else
      var n := |items| - 1;
      CallsFrom(random, items[..n], k) + if KindOf(items[n]).CallItem? then [ToolCall(items[n], random(n))] else []
  }

  /** The one message that a run becomes, if it says anything. */
  function RunMessage(random: Hex, items: seq<Item>, k: nat): Option<Message> {
    var text, reasoning, calls := LastText(items, k), LastReasoning(items, k), CallsFrom(random, items, k);
    if text == "" && reasoning == "" && calls == [] then None
    else Some(Message("assistant", if text == "" then "" else Encoded(text), "", "", reasoning, "", calls))
  }

  function AsList(m: Option<Message>): seq<Message> { if m.Some? then [m.value] else [] }

  /** The messages of a request, read run by run. */
  function Messages(random: Hex, base: seq<Message>, items: seq<Item>): seq<Message>
    decreases |items|
  {
    var k := RunStart(items);
    (if k == 0 then base else Messages(random, base, items[..k - 1]) + [FlushMessage(items[k - 1])])
    + AsList(RunMessage(random, items, k))
  }

  function Base(instructions: string): seq<Message> {
    if instructions == "" then [] else [TextMessage("system", Encoded(instructions))]
  }

  /* ---- The loop ---- */

  /** What the loop has done after some items. */
  ghost predicate Reached(random: Hex, base: seq<Message>, items: seq<Item>, out: seq<Message>,
                          pending: Option<Message>) {
    var k := RunStart(items);
    && out == (if k == 0 then base else Messages(random, base, items[..k - 1]) + [FlushMessage(items[k - 1])])
    && pending == RunMessage(random, items, k)
  }

  const NEW_ASSISTANT := TextMessage("assistant", "")

  /** flushPending: what is written out. */
  method Flushed(out: seq<Message>, pending: Option<Message>) returns (r: seq<Message>)
    ensures pending.Some? && (pending.value.content != "" || pending.value.calls != [] || pending.value.reasoning != "")
      ==> r == out + [pending.value]
    ensures pending.None? ==> r == out
  {
    if pending.None? {
      return out;
    }
    if pending.value.content == "" && |pending.value.calls| == 0 && pending.value.reasoning == "" {
      return out;
    }
    return out + [pending.value];
  }

  lemma FlushedIs(random: Hex, base: seq<Message>, items: seq<Item>, out: seq<Message>, pending: Option<Message>)
    requires Reached(random, base, items, out, pending)
    ensures Messages(random, base, items) == if pending.Some? then out + [pending.value] else out
    ensures pending.Some? ==> pending.value.content != "" || pending.value.calls != [] || pending.value.reasoning != ""
  {
    hide Encoded, LastText, LastReasoning, CallsFrom;
  }

  lemma ReachedFlush(random: Hex, base: seq<Message>, items: seq<Item>, n: nat)
    requires n < |items| && Flushes(items[n])
    ensures Reached(random, base, items[..n + 1], Messages(random, base, items[..n]) + [FlushMessage(items[n])], None)
  {
    hide Messages, FlushMessage, Flushes;
    var now := items[..n + 1];
    assert RunStart(now) == n + 1 && now[..n] == items[..n];
  }

  /** An item of the assistant extends the run. */
  lemma ReachedStep(random: Hex, base: seq<Message>, items: seq<Item>, n: nat, out: seq<Message>,
                    pending: Option<Message>)
    requires n < |items| && !Flushes(items[n]) && Reached(random, base, items[..n], out, pending)
    ensures Reached(random, base, items[..n + 1], out, RunMessage(random, items[..n + 1], RunStart(items[..n])))
  {
    hide Messages, FlushMessage, RunMessage;
    var now, before := items[..n + 1], items[..n];
    assert now[..n] == before;
    assert RunStart(now) == RunStart(before);
    var k := RunStart(before);
    if k > 0 {
      assert now[..k - 1] == before[..k - 1];
    }
  }

  /** The run's message after one more item of the assistant. */
  lemma RunStep(random: Hex, items: seq<Item>, n: nat, k: nat)
    requires k <= n < |items|
    ensures var it, now, before := items[n], items[..n + 1], items[..n];
      && LastText(now, k) == (if KindOf(it).AssistantItem? && it.text != "" then it.text else LastText(before, k))
      && LastReasoning(now, k)
         == (if KindOf(it).ReasoningItem? && it.reasoning != "" then it.reasoning else LastReasoning(before, k))
      && CallsFrom(random, now, k)
         == if KindOf(it).CallItem? then CallsFrom(random, before, k) + [ToolCall(it, random(n))]
            else CallsFrom(random, before, k)
  {
    assert items[..n + 1][..n] == items[..n];
  }

  /** One item: the loop's variables are what reading run by run gives. */
  method Handle(random: Hex, ghost base: seq<Message>, items: seq<Item>, n: nat, out0: seq<Message>,
                pending0: Option<Message>)
    returns (out: seq<Message>, pending: Option<Message>)
    requires n < |items| && Reached(random, base, items[..n], out0, pending0)
    ensures Reached(random, base, items[..n + 1], out, pending)
  {
    hide Messages, Reached, RunStart, Encoded, LastText, LastReasoning, CallsFrom, ToolCall, OutputContent, KindOf;
    out, pending := out0, pending0;
    var it := items[n];
    FlushedIs(random, base, items[..n], out, pending);
    ghost var k := RunStart(items[..n]);
    ReachedIs(random, base, items[..n], out, pending);
    RunStep(random, items, n, k);
    var p := if pending.Some? then pending.value else NEW_ASSISTANT;
    match KindOf(it) {
      case ReasoningItem =>
        ReachedStep(random, base, items, n, out, pending);
        if it.reasoning != "" {
          pending := Some(p.(reasoning := it.reasoning));
        }
      case AssistantItem =>
        ReachedStep(random, base, items, n, out, pending);
        if it.text != "" {
          pending := Some(p.(content := Encoded(it.text)));
        }
      case CallItem =>
        ReachedStep(random, base, items, n, out, pending);
        pending := Some(p.(calls := p.calls + [ToolCall(it, random(n))]));
      case OtherItem =>
        ReachedStep(random, base, items, n, out, pending);
      case SystemItem =>
        ReachedFlush(random, base, items, n);
        out := Flushed(out, pending);
        out, pending := out + [TextMessage("system", Encoded(it.text))], None;
      case UserItem =>
        ReachedFlush(random, base, items, n);
        out := Flushed(out, pending);
        out, pending := out + [TextMessage("user", Encoded(it.text))], None;
      case OutputItem =>
        ReachedFlush(random, base, items, n);
        out := Flushed(out, pending);
        out, pending := out + [ToolMessage(it.callID, OutputContent(it.output), "")], None;
    }
  }

  /** The messages of a whole request. */
  function RequestMessages(random: Hex, instructions: string, input: Input): seq<Message> {
    match input
    case NoInput => Base(instructions)
    case InputText(s) => Base(instructions) + [TextMessage("user", Encoded(s))]
    case InputItems(items) => Messages(random, Base(instructions), items)
  }

  /** convertResponsesToChat, for the messages. */
  method Convert(instructions: string, input: Input, random: Hex) returns (out: seq<Message>)
    ensures out == RequestMessages(random, instructions, input)
  {
    hide Messages, Reached, RunStart, Encoded, LastText, LastReasoning, CallsFrom, ToolCall, OutputContent, KindOf;
    out := [];
    if instructions != "" {
      out := out + [TextMessage("system", Encoded(instructions))];
    }
    ghost var base := Base(instructions);
    assert out == base;
    match input {
      case NoInput =>
      case InputText(s) => out := out + [TextMessage("user", Encoded(s))];
      case InputItems(items) =>
        var pending: Option<Message> := None;
        Begin(random, base);
        for n := 0 to |items|
          invariant Reached(random, base, items[..n], out, pending)
        {
          out, pending := Handle(random, base, items, n, out, pending);
        }
        assert items[..|items|] == items;
        FlushedIs(random, base, items, out, pending);
        out := Flushed(out, pending);
    }
  }

  lemma Begin(random: Hex, base: seq<Message>)
    ensures Reached(random, base, [], base, None)
  {
  }

  lemma ReachedIs(random: Hex, base: seq<Message>, items: seq<Item>, out: seq<Message>, pending: Option<Message>)
    requires Reached(random, base, items, out, pending)
    ensures pending == RunMessage(random, items, RunStart(items)) && RunStart(items) <= |items|
  {
  }

  /* ---- Calls and results ---- */

  /** The call or result that an item stands for. */
  function MarkOf(dec: Decoder, it: Item, random: string): seq<Mark> {
    if it.typ == "function_call" then
      var id := if it.callID != "" then it.callID else if it.id != "" then it.id else "call_" + random;
      [Called(Call(id, it.name, if it.arguments == "" then "{}" else it.arguments))]
    else if it.typ == "function_call_output" then
      [Returned(it.callID, "", ResultText(dec, OutputContent(it.output)))]
    else []
  }

  function Marks(dec: Decoder, random: Hex, items: seq<Item>): seq<Mark> {
    if items == [] then [] else
      var n := |items| - 1;
      Marks(dec, random, items[..n]) + MarkOf(dec, items[n], random(n))
  }

  /** The marks of a run are its calls. */
  lemma {:induction false} RunMarks(dec: Decoder, random: Hex, items: seq<Item>, k: nat)
    requires k <= |items| && forall i :: k <= i < |items| ==> !Flushes(items[i])
    ensures Marks(dec, random, items) == Marks(dec, random, items[..k]) + CallMarks(CallsFrom(random, items, k))
  {
    hide Flushes, KindOf, ToolCall, MarkOf;
    if |items| == k {
      assert items[..k] == items;
      assert Marks(dec, random, items) + [] == Marks(dec, random, items);
    } else {
      var n := |items| - 1;
      RunMarks(dec, random, items[..n], k);
      assert items[..n][..k] == items[..k] && !Flushes(items[n]);
      RunMark(dec, items[n], random(n));
      var calls := CallsFrom(random, items[..n], k);
      assert CallMarks(calls + [ToolCall(items[n], random(n))])
             == CallMarks(calls) + [Called(ToolCall(items[n], random(n)))];
      Assoc3(Marks(dec, random, items[..k]), CallMarks(calls), MarkOf(dec, items[n], random(n)));
    }
  }

  lemma RunMark(dec: Decoder, it: Item, random: string)
    requires !Flushes(it)
    ensures MarkOf(dec, it, random) == if KindOf(it).CallItem? then [Called(ToolCall(it, random))] else []
  {
  }

  lemma RunTrail(dec: Decoder, random: Hex, items: seq<Item>, k: nat, before: seq<Message>)
    ensures Trail(dec, before + AsList(RunMessage(random, items, k)))
            == Trail(dec, before) + CallMarks(CallsFrom(random, items, k))
  {
    hide Trail, CallsFrom, LastText, LastReasoning, Encoded, ResultText;
    var m := RunMessage(random, items, k);
    if m.Some? {
      TrailSnoc(dec, before, m.value);
    } else {
      assert before + [] == before;
    }
  }

  lemma FlushMarks(dec: Decoder, it: Item, random: string)
    requires Flushes(it)
    ensures MarksOf(dec, FlushMessage(it)) == MarkOf(dec, it, random)
  {
    hide ResultText, Encoded, OutputContent;
  }

  /** The chat has exactly the calls and results of the items, in their order. */
  lemma {:induction false} TrailKept(dec: Decoder, random: Hex, base: seq<Message>, items: seq<Item>)
    requires Trail(dec, base) == []
    ensures Trail(dec, Messages(random, base, items)) == Marks(dec, random, items)
    decreases |items|, 0
  {
    hide Trail, RunStart, CallsFrom, FlushMessage, Flushes, RunMessage, MarksOf, MarkOf;
    var k := RunStart(items);
    RunStartIs(items);
    RunMarks(dec, random, items, k);
    if k == 0 {
      RunTrail(dec, random, items, k, base);
    } else {
      PlacedBefore(dec, random, base, items[..k]);
      RunTrail(dec, random, items, k, Messages(random, base, items[..k - 1]) + [FlushMessage(items[k - 1])]);
      assert items[..k][..k - 1] == items[..k - 1];
    }
  }

  /** The message of an item that ends a run comes after everything called or returned before it. */
  lemma {:induction false} PlacedBefore(dec: Decoder, random: Hex, base: seq<Message>, items: seq<Item>)
    requires Trail(dec, base) == [] && items != [] && Flushes(items[|items| - 1])
    ensures var n := |items| - 1; var before := Messages(random, base, items[..n]);
      && Trail(dec, before) == Marks(dec, random, items[..n])
      && Trail(dec, before + [FlushMessage(items[n])]) == Marks(dec, random, items)
    decreases |items| - 1, 1
  {
    hide Trail, Messages, FlushMessage, Flushes, MarksOf, MarkOf;
    var n := |items| - 1;
    TrailKept(dec, random, base, items[..n]);
    TrailSnoc(dec, Messages(random, base, items[..n]), FlushMessage(items[n]));
    FlushMarks(dec, items[n], random(n));
  }

  /** The result of an output has its own message, which all earlier calls precede. */
  lemma {:induction false} ResultPlaced(dec: Decoder, random: Hex, base: seq<Message>, items: seq<Item>, j: nat)
    requires Trail(dec, base) == [] && j < |items| && KindOf(items[j]).OutputItem?
    ensures var before := Messages(random, base, items[..j]);
      && before + [ToolMessage(items[j].callID, OutputContent(items[j].output), "")] <= Messages(random, base, items)
      && Trail(dec, before) == Marks(dec, random, items[..j])
  {
    hide Trail, Messages, Marks, OutputContent;
    TrailKept(dec, random, base, items[..j]);
    FlushIsPrefix(random, base, items, j);
  }

  lemma {:induction false} FlushIsPrefix(random: Hex, base: seq<Message>, items: seq<Item>, j: nat)
    requires j < |items| && Flushes(items[j])
    ensures Messages(random, base, items[..j]) + [FlushMessage(items[j])] <= Messages(random, base, items)
    decreases |items|
  {
    hide Flushes, FlushMessage, RunMessage;
    var k := RunStart(items);
    RunStartIs(items);
    assert j < k;
    var upTo := Messages(random, base, items[..k - 1]) + [FlushMessage(items[k - 1])];
    PrefixSnoc(upTo, upTo, AsList(RunMessage(random, items, k)));
    if j < k - 1 {
      FlushIsPrefix(random, base, items[..k - 1], j);
      assert items[..k - 1][..j] == items[..j];
      PrefixSnoc(Messages(random, base, items[..j]) + [FlushMessage(items[j])], Messages(random, base, items[..k - 1]),
                 [FlushMessage(items[k - 1])]);
    }
  }

  /** What the second pass reads of an output: nothing if there is none, the string it spells, or else its
      JSON text as it stands. */
  lemma OutputSurvives(dec: Decoder, output: string)
    ensures output == "" || Trim(output) == "null" ==> ResultText(dec, OutputContent(output)) == ""
    ensures output != "" && output[0] == '"' && Trim(output) == output && Decoded(output).Some? ==>
      ResultText(dec, OutputContent(output)) == Decoded(output).value
    ensures output != "" && Trim(output) != "null" && output[0] != '"' ==>
      ResultText(dec, OutputContent(output)) == Repaired(output)
  {
    hide Encoded, Decoded, Repaired, ResultText;
    TextSurvives(dec, output);
    TextSurvives(dec, "");
    assert Repaired("") == "" by {
      ValidIsRepaired("");
    }
    StringText(dec, output);
    assert output != "" && output[0] == '"' ==> output != "null";
  }

  lemma StringText(dec: Decoder, output: string)
    ensures output != "" && output[0] == '"' && Trim(output) == output && Decoded(output).Some? ==>
      ResultText(dec, output) == Decoded(output).value
  {
    hide Decoded, Trim;
    assert output != "" && output[0] == '"' ==> output != "null";
  }

  /* ---- What is said ---- */

  predicate IsAnswer(it: Item) {
    (it.typ == "message" || it.typ == "") && it.role == "assistant" && it.text != ""
  }

  predicate IsThought(it: Item) { it.typ == "reasoning" && it.reasoning != "" }

  predicate IsInstruction(it: Item) {
    (it.typ == "message" || it.typ == "") && it.role in {"system", "developer"}
  }

  /** A message of the user's; without a role it counts as one too. */
  predicate IsUsers(it: Item) {
    (it.typ == "message" || (it.typ == "" && it.role != "")) && it.role !in {"assistant", "system", "developer"}
  }

  lemma KindIs(it: Item)
    ensures KindOf(it).AssistantItem? && it.text != "" <==> IsAnswer(it)
    ensures KindOf(it).ReasoningItem? && it.reasoning != "" <==> IsThought(it)
    ensures KindOf(it).SystemItem? <==> IsInstruction(it)
    ensures KindOf(it).UserItem? <==> IsUsers(it)
    ensures KindOf(it).CallItem? <==> it.typ == "function_call"
    ensures KindOf(it).OutputItem? <==> it.typ == "function_call_output"
  {
  }

  /** The i-th item is the last from item k on that counts. */
  predicate IsLast(items: seq<Item>, k: nat, i: nat, counts: Item -> bool) {
    k <= i < |items| && counts(items[i]) && forall j :: i < j < |items| ==> !counts(items[j])
  }

  lemma LastStays(items: seq<Item>, n: nat, k: nat, i: nat, counts: Item -> bool)
    requires |items| == n + 1 && IsLast(items[..n], k, i, counts) && !counts(items[n])
    ensures IsLast(items, k, i, counts) && items[..n][i] == items[i]
  {
    forall j | i < j < |items| ensures !counts(items[j]) {
      assert j < n ==> items[..n][j] == items[j];
    }
  }

  /** Of several answers in a run the last one is sent. */
  lemma {:induction false} LastTextIs(items: seq<Item>, k: nat)
    ensures LastText(items, k) == "" ==> forall i :: k <= i < |items| ==> !IsAnswer(items[i])
    ensures LastText(items, k) != "" ==>
      exists i: nat :: IsLast(items, k, i, IsAnswer) && items[i].text == LastText(items, k)
  {
    if k < |items| {
      var n := |items| - 1;
      KindIs(items[n]);
      LastTextIs(items[..n], k);
      if IsAnswer(items[n]) {
        assert IsLast(items, k, n, IsAnswer);
      } else if LastText(items[..n], k) != "" {
        hide IsAnswer, IsLast;
        var i: nat :| IsLast(items[..n], k, i, IsAnswer) && items[..n][i].text == LastText(items[..n], k);
        LastStays(items, n, k, i, IsAnswer);
      }
    }
  }

  /** And of several thoughts. */
  lemma {:induction false} LastReasoningIs(items: seq<Item>, k: nat)
    ensures LastReasoning(items, k) == "" ==> forall i :: k <= i < |items| ==> !IsThought(items[i])
    ensures LastReasoning(items, k) != "" ==>
      exists i: nat :: IsLast(items, k, i, IsThought) && items[i].reasoning == LastReasoning(items, k)
  {
    if k < |items| {
      var n := |items| - 1;
      KindIs(items[n]);
      LastReasoningIs(items[..n], k);
      if IsThought(items[n]) {
        assert IsLast(items, k, n, IsThought);
      } else if LastReasoning(items[..n], k) != "" {
        hide IsThought, IsLast;
        var i: nat :| IsLast(items[..n], k, i, IsThought) && items[..n][i].reasoning == LastReasoning(items[..n], k);
        LastStays(items, n, k, i, IsThought);
      }
    }
  }

  /** What an item that ends a run says. */
  function FlushLines(dec: Decoder, it: Item): seq<Line> {
    if IsInstruction(it) then []
    else if it.typ == "function_call_output" then
      [Line("tool", Outcome(it.callID, ResultText(dec, OutputContent(it.output))))]
    else [Line("user", Words(Repaired(it.text)))]
  }

  /** What the items say, run by run. */
  function Lines(dec: Decoder, random: Hex, items: seq<Item>): seq<Line>
    decreases |items|
  {
    var k := RunStart(items);
    (if k == 0 then [] else Lines(dec, random, items[..k - 1]) + FlushLines(dec, items[k - 1]))
    + AssistantSays(LastText(items, k), LastReasoning(items, k), CallsFrom(random, items, k))
  }

  lemma FlushSpeaks(dec: Decoder, it: Item)
    requires Flushes(it)
    ensures Spoken(dec, FlushMessage(it)) == FlushLines(dec, it)
  {
    hide Spoken, Encoded, ResultText, Repaired, OutputContent, KindOf, IsInstruction;
    KindIs(it);
    UserSpeaks(dec, it.text);
    SystemSilent(dec, Encoded(it.text));
    ToolSpeaks(dec, it.callID, OutputContent(it.output), "");
  }

  lemma RunSpeaks(dec: Decoder, random: Hex, items: seq<Item>, k: nat, before: seq<Message>)
    ensures AllSpoken(dec, before + AsList(RunMessage(random, items, k)))
            == AllSpoken(dec, before)
               + AssistantSays(LastText(items, k), LastReasoning(items, k), CallsFrom(random, items, k))
  {
    hide AllSpoken, Spoken, CallsFrom, LastText, LastReasoning, Encoded, Repaired;
    var text, thought, calls := LastText(items, k), LastReasoning(items, k), CallsFrom(random, items, k);
    if RunMessage(random, items, k).Some? {
      AssistantSpeaks(dec, text, thought, calls);
      SpokenSnoc(dec, before, RunMessage(random, items, k).value);
    } else {
      assert before + [] == before && AssistantSays(text, thought, calls) == [];
    }
  }

  /** The chat says what the items say: per run the last thought, the last answer and all calls. */
  lemma {:induction false} SpeechKept(dec: Decoder, random: Hex, base: seq<Message>, items: seq<Item>)
    requires AllSpoken(dec, base) == []
    ensures AllSpoken(dec, Messages(random, base, items)) == Lines(dec, random, items)
    decreases |items|
  {
    hide AllSpoken, Spoken, RunStart, CallsFrom, LastText, LastReasoning, FlushMessage, FlushLines, Flushes;
    hide RunMessage, AssistantSays;
    var k := RunStart(items);
    RunStartIs(items);
    if k == 0 {
      RunSpeaks(dec, random, items, 0, base);
    } else {
      var before := Messages(random, base, items[..k - 1]);
      SpeechKept(dec, random, base, items[..k - 1]);
      SpokenSnoc(dec, before, FlushMessage(items[k - 1]));
      FlushSpeaks(dec, items[k - 1]);
      RunSpeaks(dec, random, items, k, before + [FlushMessage(items[k - 1])]);
    }
  }

  /** What the user says, item by item. */
  function UserSays(items: seq<Item>): seq<Line> {
    if items == [] then [] else
      var it := items[|items| - 1];
      UserSays(items[..|items| - 1]) + if IsUsers(it) then [Line("user", Words(Repaired(it.text)))] else []
  }

  /** All that the user says is among the lines, in order, and nothing else is the user's. */
  lemma {:induction false} UserHeard(dec: Decoder, random: Hex, items: seq<Item>)
    ensures ByUser(Lines(dec, random, items)) == UserSays(items)
    decreases |items|
  {
    hide RunStart, CallsFrom, LastText, LastReasoning, FlushLines, Flushes, AssistantSays, ByUser, UserSays, IsUsers;
    var k := RunStart(items);
    RunStartIs(items);
    var run := AssistantSays(LastText(items, k), LastReasoning(items, k), CallsFrom(random, items, k));
    NotUsers(LastText(items, k), LastReasoning(items, k), CallsFrom(random, items, k));
    NoUserInRun(items, k);
    if k == 0 {
      assert Lines(dec, random, items) == run;
      NoUser();
      assert items[..0] == [];
    } else {
      var before := Lines(dec, random, items[..k - 1]);
      UserHeard(dec, random, items[..k - 1]);
      FlushByUser(dec, items[k - 1]);
      UserSaysNext(items, k - 1);
      ByUserAppend(before, FlushLines(dec, items[k - 1]));
      ByUserAppend(before + FlushLines(dec, items[k - 1]), run);
    }
  }

  lemma NoUser()
    ensures UserSays([]) == []
  {
  }

  lemma NotUsers(text: string, thought: string, calls: seq<Call>)
    ensures ByUser(AssistantSays(text, thought, calls)) == []
  {
    hide ByUser, Repaired;
    NotByUser(AssistantSays(text, thought, calls));
  }

  lemma UserSaysNext(items: seq<Item>, n: nat)
    requires n < |items|
    ensures UserSays(items[..n + 1])
            == UserSays(items[..n]) + if IsUsers(items[n]) then [Line("user", Words(Repaired(items[n].text)))] else []
  {
    hide IsUsers, Repaired;
    assert items[..n + 1][..n] == items[..n];
  }

  lemma FlushByUser(dec: Decoder, it: Item)
    requires Flushes(it)
    ensures ByUser(FlushLines(dec, it)) == if IsUsers(it) then [Line("user", Words(Repaired(it.text)))] else []
  {
    hide ResultText, Repaired, OutputContent;
    KindIs(it);
    var lines := FlushLines(dec, it);
    if lines != [] {
      assert lines[..0] == [];
    }
  }

  lemma {:induction false} NoUserInRun(items: seq<Item>, k: nat)
    requires k <= |items| && forall i :: k <= i < |items| ==> !Flushes(items[i])
    ensures UserSays(items) == UserSays(items[..k])
  {
    hide Flushes, IsUsers, Repaired;
    if |items| == k {
      assert items[..k] == items;
    } else {
      var n := |items| - 1;
      NoUserInRun(items[..n], k);
      assert items[..n][..k] == items[..k] && !Flushes(items[n]);
      NotFlushed(items[n]);
    }
  }

  lemma NotFlushed(it: Item)
    requires !Flushes(it)
    ensures !IsUsers(it) && !IsInstruction(it)
  {
    KindIs(it);
  }

  /** No two calls make up the same identifier. */
  lemma IdsDiffer(random: Hex, items: seq<Item>, i: nat, j: nat)
    requires Injective(random) && i < |items| && j < |items| && i != j
    requires items[i].callID == "" && items[i].id == "" && items[j].callID == "" && items[j].id == ""
    ensures ToolCall(items[i], random(i)).id != ToolCall(items[j], random(j)).id
  {
    assert ("call_" + random(i))[5..] == random(i) && ("call_" + random(j))[5..] == random(j);
  }

  /** The instructions among the items. */
  function Instructions(items: seq<Item>): seq<string> {
    if items == [] then [] else
      var it := items[|items| - 1];
      Instructions(items[..|items| - 1]) + if IsInstruction(it) then [Repaired(it.text)] else []
  }

  lemma InstructionsNext(items: seq<Item>, n: nat)
    requires n < |items|
    ensures Instructions(items[..n + 1])
            == Instructions(items[..n]) + if IsInstruction(items[n]) then [Repaired(items[n].text)] else []
  {
    hide IsInstruction, Repaired;
    assert items[..n + 1][..n] == items[..n];
  }

  lemma {:induction false} NoneInRun(items: seq<Item>, k: nat)
    requires k <= |items| && forall i :: k <= i < |items| ==> !Flushes(items[i])
    ensures Instructions(items) == Instructions(items[..k])
  {
    hide Flushes, IsInstruction, Repaired;
    if |items| == k {
      assert items[..k] == items;
    } else {
      var n := |items| - 1;
      NoneInRun(items[..n], k);
      assert items[..n][..k] == items[..k] && !Flushes(items[n]);
      NotFlushed(items[n]);
    }
  }

  lemma FlushInstructs(dec: Decoder, it: Item, before: seq<Message>)
    requires Flushes(it)
    ensures SystemTexts(dec, before + [FlushMessage(it)])
            == SystemTexts(dec, before) + if IsInstruction(it) then [Repaired(it.text)] else []
  {
    hide SystemTexts, MessageText, Encoded, Repaired, OutputContent, KindOf, IsInstruction;
    KindIs(it);
    SystemSnoc(dec, before, FlushMessage(it));
    TextSurvives(dec, it.text);
  }

  lemma RunInstructs(dec: Decoder, random: Hex, items: seq<Item>, k: nat, before: seq<Message>)
    ensures SystemTexts(dec, before + AsList(RunMessage(random, items, k))) == SystemTexts(dec, before)
  {
    hide SystemTexts, MessageText, Encoded, LastText, LastReasoning, CallsFrom;
    if RunMessage(random, items, k).Some? {
      SystemSnoc(dec, before, RunMessage(random, items, k).value);
    } else {
      assert before + [] == before;
    }
  }

  /** The system texts of the chat are those of the request, in order. */
  lemma {:induction false} SystemKept(dec: Decoder, random: Hex, base: seq<Message>, items: seq<Item>)
    ensures SystemTexts(dec, Messages(random, base, items)) == SystemTexts(dec, base) + Instructions(items)
    decreases |items|
  {
    hide SystemTexts, RunStart, FlushMessage, Flushes, RunMessage, Instructions, IsInstruction, Repaired;
    var k := RunStart(items);
    RunStartIs(items);
    NoneInRun(items, k);
    if k == 0 {
      RunInstructs(dec, random, items, 0, base);
      NoInstructions();
      assert items[..0] == [];
    } else {
      var before := Messages(random, base, items[..k - 1]);
      SystemKept(dec, random, base, items[..k - 1]);
      FlushInstructs(dec, items[k - 1], before);
      RunInstructs(dec, random, items, k, before + [FlushMessage(items[k - 1])]);
      InstructionsNext(items, k - 1);
    }
  }

  lemma NoInstructions()
    ensures Instructions([]) == []
  {
  }
}
