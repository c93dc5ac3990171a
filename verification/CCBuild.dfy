/** ccbuild.go: the upstream's messages from the chat form. */
module CCBuild {
  import opened Text
  import opened Upstream
  import opened Chat
  import opened Transcript
  import Json
  import JsonCompact

  datatype Part =
    | TextPart(text: string, marked: bool)
    | ImagePart(image: string)
    | ReasoningPart(text: string)
    | CallPart(id: string, name: string, input: string)
    | ResultPart(id: string, name: string, value: string)

  datatype CCMessage = CCMessage(role: string, content: seq<Part>)

  type ChatPart = Chat.Part

  /* ---- What each message becomes ---- */

  predicate IsSystem(m: Message) { m.role == "system" || m.role == "developer" }

  /** The name that the last call in the request with this identifier has; "" if there is none. */
  function NameOf(ms: seq<Message>, id: string): string {
    if ms == [] then "" else
      var m := ms[|ms| - 1];
      var here := if m.role == "assistant" && id != "" then LastNamed(m.calls, id) else None;
      if here.Some? then here.value else NameOf(ms[..|ms| - 1], id)
  }

  function LastNamed(calls: seq<Call>, id: string): Option<string> {
    if calls == [] then None
    else if calls[|calls| - 1].id == id then Some(calls[|calls| - 1].name)
    else LastNamed(calls[..|calls| - 1], id)
  }

  function Reasoning(m: Message): string { OrDefault(m.reasoning, m.thinking) }

  /** One part of an assistant's content. */
  function AssistantPart(p: ChatPart, reasoned: bool): seq<Part> {
    if p.typ == "reasoning" then
      if reasoned then [] else [ReasoningPart(OrDefault(p.reasoning, p.TextOf()))]
    else if p.TextOf() != "" then [TextPart(p.TextOf(), false)]
    else []
  }

  function AssistantContent(parts: seq<ChatPart>, reasoned: bool): seq<Part> {
    if parts == [] then [] else
      AssistantContent(parts[..|parts| - 1], reasoned) + AssistantPart(parts[|parts| - 1], reasoned)
  }

  function CallParts(calls: seq<Call>): seq<Part> {
    seq(|calls|, i requires 0 <= i < |calls| => CallPart(calls[i].id, calls[i].name, ArgsJSON(calls[i].args)))
  }

  function AssistantParts(dec: Decoder, m: Message): seq<Part> {
    (if Reasoning(m) == "" then [] else [ReasoningPart(Reasoning(m))])
    + AssistantContent(ContentParts(dec, m.content), Reasoning(m) != "")
    + CallParts(m.calls)
  }

  function UserPart(p: ChatPart): Part {
    if p.typ == "image_url" && p.imageURL.Some? then ImagePart(p.imageURL.value)
    else if p.typ == "image" && p.text == "" then ImagePart(p.content)
    else TextPart(p.TextOf(), false)
  }

  function UserParts(dec: Decoder, content: string): seq<Part> {
    var parts := ContentParts(dec, content);
    if parts == [] then [TextPart("", false)]
    else seq(|parts|, i requires 0 <= i < |parts| => UserPart(parts[i]))
  }

  function One(dec: Decoder, all: seq<Message>, m: Message): seq<CCMessage> {
    if IsSystem(m) then []
    else if m.role == "assistant" then [CCMessage("assistant", AssistantParts(dec, m))]
    else if IsTool(m) then
      [CCMessage("tool", [ResultPart(m.toolCallID, OrDefault(NameOf(all, m.toolCallID), m.name),
                                     ResultText(dec, m.content))])]
    else [CCMessage("user", UserParts(dec, m.content))]
  }

  /** The messages of the first ones of a request. */
  function Converted(dec: Decoder, all: seq<Message>, ms: seq<Message>): seq<CCMessage> {
    if ms == [] then [] else Converted(dec, all, ms[..|ms| - 1]) + One(dec, all, ms[|ms| - 1])
  }

  /* ---- The cache marker ---- */

  /** The number of leading messages that are not the user's. */
  function FirstUser(ms: seq<CCMessage>): (i: nat)
    ensures i <= |ms|
    ensures i < |ms| ==> ms[i].role == "user"
    ensures forall k :: 0 <= k < i ==> ms[k].role != "user"
  {
    if ms == [] || ms[0].role == "user" then 0 else 1 + FirstUser(ms[1..])
  }

  /** One more than the position of the last text part; 0 if there is none. */
  function LastText(parts: seq<Part>): (j: nat)
    ensures j <= |parts|
    ensures j > 0 ==> parts[j - 1].TextPart?
    ensures forall k :: j <= k < |parts| ==> !parts[k].TextPart?
  {
    if parts == [] then 0
    else if parts[|parts| - 1].TextPart? then |parts|
    else LastText(parts[..|parts| - 1])
  }

  /** Where the marker goes. */
  function Spot(ms: seq<CCMessage>): Option<(nat, nat)> {
    var i := FirstUser(ms);
    if i < |ms| && LastText(ms[i].content) > 0 then Some((i, LastText(ms[i].content) - 1)) else None
  }

  function WithMarker(ms: seq<CCMessage>): seq<CCMessage> {
    if Spot(ms).None? then ms else
      var (i, j) := Spot(ms).value;
      ms[i := ms[i].(content := ms[i].content[j := ms[i].content[j].(marked := true)])]
  }

  predicate MarkedAt(ms: seq<CCMessage>, i: nat, j: nat) {
    i < |ms| && j < |ms[i].content| && ms[i].content[j].TextPart? && ms[i].content[j].marked
  }

  predicate Unmarked(parts: seq<Part>) { forall j :: 0 <= j < |parts| ==> !(parts[j].TextPart? && parts[j].marked) }

  predicate NoMarker(ms: seq<CCMessage>) { forall i :: 0 <= i < |ms| ==> Unmarked(ms[i].content) }

  /* ---- The loops of buildCCBody ---- */

  /** userParts. */
  method MakeUserParts(dec: Decoder, content: string) returns (out: seq<Part>)
    ensures out == UserParts(dec, content)
  {
    var parts := ContentParts(dec, content);
    out := [];
    for i := 0 to |parts|
      invariant |out| == i && forall k :: 0 <= k < i ==> out[k] == UserPart(parts[k])
    {
      var p := parts[i];
      if p.typ == "image_url" && p.imageURL.Some? {
        out := out + [ImagePart(p.imageURL.value)];
        continue;
      }
      if p.typ == "image" && p.text == "" {
        out := out + [ImagePart(p.content)];
        continue;
      }
      out := out + [TextPart(p.TextOf(), false)];
    }
    if |out| == 0 {
      out := out + [TextPart("", false)];
    }
  }

  /** The assistant's text and reasoning parts. */
  method MakeContent(content: seq<ChatPart>, reasoning: string) returns (parts: seq<Part>)
    ensures parts == AssistantContent(content, reasoning != "")
  {
    parts := [];
    for i := 0 to |content|
      invariant parts == AssistantContent(content[..i], reasoning != "")
    {
      var p := content[i];
      assert content[..i + 1][..i] == content[..i];
      if p.typ == "reasoning" {
        if reasoning == "" {
          var t := p.reasoning;
          if t == "" {
            t := p.TextOf();
          }
          parts := parts + [ReasoningPart(t)];
        }
      } else if p.typ == "text" || p.TextOf() != "" {
        var text := p.TextOf();
        if text != "" {
          parts := parts + [TextPart(text, false)];
        }
      }
    }
    assert content[..|content|] == content;
  }

  method MakeCalls(calls: seq<Call>) returns (parts: seq<Part>)
    ensures parts == CallParts(calls)
  {
    hide ArgsJSON;
    parts := [];
    for i := 0 to |calls|
      invariant |parts| == i
      invariant forall k :: 0 <= k < i ==> parts[k] == CallPart(calls[k].id, calls[k].name, ArgsJSON(calls[k].args))
    {
      parts := parts + [CallPart(calls[i].id, calls[i].name, ArgsJSON(calls[i].args))];
    }
  }

  method MakeAssistantParts(dec: Decoder, m: Message) returns (parts: seq<Part>)
    ensures parts == AssistantParts(dec, m)
  {
    hide ContentParts, AssistantContent, CallParts;
    parts := [];
    var reasoning := m.reasoning;
    if reasoning == "" {
      reasoning := m.thinking;
    }
    if reasoning != "" {
      parts := parts + [ReasoningPart(reasoning)];
    }
    var content := MakeContent(ContentParts(dec, m.content), reasoning);
    parts := parts + content;
    var calls := MakeCalls(m.calls);
    parts := parts + calls;
  }

  ghost predicate Names(toolNames: map<string, string>, ms: seq<Message>) {
    forall id :: (if id in toolNames then toolNames[id] else "") == NameOf(ms, id)
  }

  /** The names while an assistant's message is being read. */
  ghost predicate NamesWithin(toolNames: map<string, string>, ms: seq<Message>, calls: seq<Call>) {
    forall id :: (if id in toolNames then toolNames[id] else "") ==
                 var here := if id != "" then LastNamed(calls, id) else None;
                 if here.Some? then here.value else NameOf(ms, id)
  }

  /** The inner loop: the names of one assistant's calls. */
  method CollectCalls(ghost before: seq<Message>, calls: seq<Call>, toolNames0: map<string, string>)
    returns (toolNames: map<string, string>)
    requires Names(toolNames0, before)
    ensures NamesWithin(toolNames, before, calls)
  {
    hide NameOf;
    toolNames := toolNames0;
    for k := 0 to |calls|
      invariant NamesWithin(toolNames, before, calls[..k])
    {
      var tc := calls[k];
      assert calls[..k + 1][..k] == calls[..k];
      if tc.id != "" {
        toolNames := toolNames[tc.id := tc.name];
      }
    }
    assert calls[..|calls|] == calls;
  }

  /** The names of the calls by identifier; a later call takes the place of an earlier one. */
  method CollectNames(ms: seq<Message>) returns (toolNames: map<string, string>)
    ensures Names(toolNames, ms)
  {
    toolNames := map[];
    for i := 0 to |ms|
      invariant Names(toolNames, ms[..i])
    {
      var m := ms[i];
      assert ms[..i + 1][..i] == ms[..i];
      if m.role != "assistant" {
        continue;
      }
      toolNames := CollectCalls(ms[..i], m.calls, toolNames);
    }
    assert ms[..|ms|] == ms;
  }

  /** hasCacheMarker. */
  method HasCacheMarker(ms: seq<CCMessage>) returns (found: bool)
    ensures found == !NoMarker(ms)
  {
    for i := 0 to |ms|
      invariant forall k :: 0 <= k < i ==> Unmarked(ms[k].content)
    {
      for j := 0 to |ms[i].content|
        invariant forall k :: 0 <= k < j ==> !(ms[i].content[k].TextPart? && ms[i].content[k].marked)
      {
        if ms[i].content[j].TextPart? && ms[i].content[j].marked {
          assert !Unmarked(ms[i].content);
          return true;
        }
      }
    }
    return false;
  }

  /** The marker, on the last text part of the first user message. */
  method Mark(ms: seq<CCMessage>) returns (out: seq<CCMessage>)
    ensures out == WithMarker(ms)
  {
    out := ms;
    for i := 0 to |ms|
      invariant out == ms && forall k :: 0 <= k < i ==> ms[k].role != "user"
    {
      if ms[i].role != "user" {
        continue;
      }
      var j := |ms[i].content| - 1;
      while j >= 0
        invariant -1 <= j < |ms[i].content|
        invariant out == ms && forall k :: j < k < |ms[i].content| ==> !ms[i].content[k].TextPart?
      {
        var p := ms[i].content[j];
        if p.TextPart? {
          out := out[i := out[i].(content := out[i].content[j := p.(marked := true)])];
          return;
        }
        j := j - 1;
      }
      return;
    }
  }

  /** The messages and system texts of buildCCBody. */
  method BuildMessages(dec: Decoder, ms: seq<Message>, promptCacheKey: string)
    returns (out: seq<CCMessage>, systemParts: seq<string>)
    ensures systemParts == SystemTexts(dec, ms)
    ensures out == if promptCacheKey == "" then Converted(dec, ms, ms) else WithMarker(Converted(dec, ms, ms))
  {
    hide NameOf, AssistantParts, ResultText, MessageText, UserParts, NoMarker;
    var toolNames := CollectNames(ms);
    out, systemParts := [], [];
    for i := 0 to |ms|
      invariant out == Converted(dec, ms, ms[..i]) && systemParts == SystemTexts(dec, ms[..i])
    {
      var m := ms[i];
      assert ms[..i + 1][..i] == ms[..i];
      if m.role == "system" || m.role == "developer" {
        systemParts := systemParts + [MessageText(dec, m.content)];
      } else if m.role == "assistant" {
        var parts := MakeAssistantParts(dec, m);
        out := out + [CCMessage("assistant", parts)];
      } else if m.role == "tool" || m.role == "function" {
        var name := if m.toolCallID in toolNames then toolNames[m.toolCallID] else "";
        if name == "" {
          name := m.name;
        }
        var value := ToolResultText(dec, m.content);
        out := out + [CCMessage("tool", [ResultPart(m.toolCallID, name, value)])];
      } else {
        var parts := MakeUserParts(dec, m.content);
        out := out + [CCMessage("user", parts)];
      }
    }
    assert ms[..|ms|] == ms;
    ConvertedUnmarked(dec, ms, ms);
    if promptCacheKey != "" {
      var already := HasCacheMarker(out);
      if !already {
        out := Mark(out);
      }
    }
  }

  lemma {:induction false} ConvertedUnmarked(dec: Decoder, all: seq<Message>, ms: seq<Message>)
    ensures NoMarker(Converted(dec, all, ms))
  {
    hide One, Unmarked;
    if ms != [] {
      ConvertedUnmarked(dec, all, ms[..|ms| - 1]);
      OneUnmarked(dec, all, ms[|ms| - 1]);
    }
  }

  lemma OneUnmarked(dec: Decoder, all: seq<Message>, m: Message)
    ensures NoMarker(One(dec, all, m))
  {
    hide ContentParts, NameOf, ResultText, AssistantContent;
    ContentUnmarked(ContentParts(dec, m.content), Reasoning(m) != "");
  }

  lemma {:induction false} ContentUnmarked(parts: seq<ChatPart>, reasoned: bool)
    ensures Unmarked(AssistantContent(parts, reasoned))
  {
    if parts != [] {
      ContentUnmarked(parts[..|parts| - 1], reasoned);
    }
  }

  /* ---- What the upstream is told ---- */

  /** The calls and results among some parts. */
  function TrailOfParts(parts: seq<Part>): seq<Part> {
    if parts == [] then [] else
      var last := parts[|parts| - 1];
      TrailOfParts(parts[..|parts| - 1]) + if last.CallPart? || last.ResultPart? then [last] else []
  }

  function CCTrail(ms: seq<CCMessage>): seq<Part> {
    if ms == [] then [] else CCTrail(ms[..|ms| - 1]) + TrailOfParts(ms[|ms| - 1].content)
  }

  function LastIn(marks: seq<Mark>, id: string): Option<string> {
    if marks == [] then None else
      var last := marks[|marks| - 1];
      if last.Called? && last.call.id == id then Some(last.call.name) else LastIn(marks[..|marks| - 1], id)
  }

  /** What the upstream should be told of a call or a result: a result goes under the name of the last
      call in the whole request with its identifier, or else under its own. */
  function Told(all: seq<Mark>, m: Mark): Part {
    match m
    case Called(c) => CallPart(c.id, c.name, ArgsJSON(c.args))
    case Returned(id, name, text) =>
      var known := if id == "" then None else LastIn(all, id);
      ResultPart(id, OrDefault(if known.Some? then known.value else "", name), text)
  }

  function ToldAll(all: seq<Mark>, marks: seq<Mark>): seq<Part> {
    seq(|marks|, i requires 0 <= i < |marks| => Told(all, marks[i]))
  }

  lemma ToldAppend(all: seq<Mark>, a: seq<Mark>, b: seq<Mark>)
    ensures ToldAll(all, a + b) == ToldAll(all, a) + ToldAll(all, b)
  {
  }

  lemma {:induction false} TrailAppend(a: seq<Part>, b: seq<Part>)
    ensures TrailOfParts(a + b) == TrailOfParts(a) + TrailOfParts(b)
  {
    if b == [] {
      assert a + b == a;
    } else {
      assert (a + b)[..|a + b| - 1] == a + b[..|b| - 1];
      TrailAppend(a, b[..|b| - 1]);
    }
  }

  lemma {:induction false} NoTrail(parts: seq<Part>)
    requires forall i :: 0 <= i < |parts| ==> !parts[i].CallPart? && !parts[i].ResultPart?
    ensures TrailOfParts(parts) == []
  {
    if parts != [] {
      NoTrail(parts[..|parts| - 1]);
    }
  }

  lemma {:induction false} AllTrail(parts: seq<Part>)
    requires forall i :: 0 <= i < |parts| ==> parts[i].CallPart? || parts[i].ResultPart?
    ensures TrailOfParts(parts) == parts
  {
    if parts != [] {
      AllTrail(parts[..|parts| - 1]);
    }
  }

  lemma {:induction false} ContentNoTrail(parts: seq<ChatPart>, reasoned: bool)
    ensures TrailOfParts(AssistantContent(parts, reasoned)) == []
  {
    hide AssistantPart, TrailOfParts;
    if parts == [] {
      NoTrail([]);
    } else {
      ContentNoTrail(parts[..|parts| - 1], reasoned);
      var more := AssistantPart(parts[|parts| - 1], reasoned);
      TrailAppend(AssistantContent(parts[..|parts| - 1], reasoned), more);
      PartNoTrail(parts[|parts| - 1], reasoned);
    }
  }

  lemma PartNoTrail(p: ChatPart, reasoned: bool)
    ensures TrailOfParts(AssistantPart(p, reasoned)) == []
  {
    NoTrail(AssistantPart(p, reasoned));
  }

  lemma {:induction false} LastInAppend(a: seq<Mark>, calls: seq<Call>, id: string)
    ensures LastIn(a + CallMarks(calls), id)
            == if LastNamed(calls, id).Some? then LastNamed(calls, id) else LastIn(a, id)
  {
    if calls == [] {
      assert a + CallMarks(calls) == a;
    } else {
      var n := |calls| - 1;
      var all := a + CallMarks(calls);
      assert all[..|all| - 1] == a + CallMarks(calls[..n]);
      LastInAppend(a, calls[..n], id);
    }
  }

  lemma LastInSkips(a: seq<Mark>, m: Mark, id: string)
    requires m.Returned?
    ensures LastIn(a + [m], id) == LastIn(a, id)
  {
    assert (a + [m])[..|a|] == a;
  }

  /** The loop's table of names agrees with the order of calls in the whole request. */
  lemma {:induction false} NameIsLast(dec: Decoder, ms: seq<Message>, id: string)
    ensures var last := LastIn(Trail(dec, ms), id);
      NameOf(ms, id) == if id == "" || last.None? then "" else last.value
  {
    hide ResultText, LastIn, LastNamed;
    if ms == [] {
      LastInNothing(id);
    } else {
      var m, before := ms[|ms| - 1], Trail(dec, ms[..|ms| - 1]);
      NameIsLast(dec, ms[..|ms| - 1], id);
      if m.role == "assistant" {
        LastInAppend(before, m.calls, id);
      } else if IsTool(m) {
        LastInSkips(before, Returned(m.toolCallID, m.name, ResultText(dec, m.content)), id);
      } else {
        assert before + [] == before;
      }
    }
  }

  lemma LastInNothing(id: string)
    ensures LastIn([], id).None?
  {
  }

  lemma OneTrail(dec: Decoder, all: seq<Message>, m: Message)
    ensures CCTrail(One(dec, all, m)) == ToldAll(Trail(dec, all), MarksOf(dec, m))
  {
    hide ContentParts, NameOf, ResultText, AssistantContent, LastIn, Trail, TrailOfParts, ArgsJSON;
    var out := One(dec, all, m);
    if IsSystem(m) {
    } else if m.role == "assistant" {
      AssistantTrail(dec, m);
      CCTrailOne(out[0]);
      assert CallParts(m.calls) == ToldAll(Trail(dec, all), MarksOf(dec, m));
    } else if IsTool(m) {
      NameIsLast(dec, all, m.toolCallID);
      AllTrail(out[0].content);
      CCTrailOne(out[0]);
    } else {
      NoTrail(UserParts(dec, m.content));
      CCTrailOne(out[0]);
    }
  }

  lemma CCTrailOne(m: CCMessage)
    ensures CCTrail([m]) == TrailOfParts(m.content)
  {
    assert [m][..0] == [];
    assert CCTrail([]) + TrailOfParts(m.content) == TrailOfParts(m.content);
  }

  lemma AssistantTrail(dec: Decoder, m: Message)
    ensures TrailOfParts(AssistantParts(dec, m)) == CallParts(m.calls)
  {
    hide ContentParts, AssistantContent, CallParts, TrailOfParts;
    var first := if Reasoning(m) == "" then [] else [ReasoningPart(Reasoning(m))];
    var second := AssistantContent(ContentParts(dec, m.content), Reasoning(m) != "");
    TrailAppend(first + second, CallParts(m.calls));
    TrailAppend(first, second);
    NoTrail(first);
    ContentNoTrail(ContentParts(dec, m.content), Reasoning(m) != "");
    CallsAreTrail(m.calls);
  }

  lemma CallsAreTrail(calls: seq<Call>)
    ensures TrailOfParts(CallParts(calls)) == CallParts(calls)
  {
    AllTrail(CallParts(calls));
  }

  lemma CCTrailAppend(a: seq<CCMessage>, b: seq<CCMessage>)
    requires |b| <= 1
    ensures CCTrail(a + b) == CCTrail(a) + CCTrail(b)
  {
    if b == [] {
      assert a + b == a;
    } else {
      CCTrailOne(b[0]);
      assert (a + b)[..|a|] == a;
    }
  }

  /** The upstream is told of exactly the calls and results of the chat, in their order, each result
      under the name of the last call with its identifier. */
  lemma {:induction false} TrailKept(dec: Decoder, all: seq<Message>, ms: seq<Message>)
    ensures CCTrail(Converted(dec, all, ms)) == ToldAll(Trail(dec, all), Trail(dec, ms))
  {
    hide One, MarksOf, Told;
    if ms != [] {
      var m, before := ms[|ms| - 1], ms[..|ms| - 1];
      TrailKept(dec, all, before);
      OneTrail(dec, all, m);
      OneIsOne(dec, all, m);
      CCTrailAppend(Converted(dec, all, before), One(dec, all, m));
      ToldAppend(Trail(dec, all), Trail(dec, before), MarksOf(dec, m));
    }
  }

  lemma OneIsOne(dec: Decoder, all: seq<Message>, m: Message)
    ensures |One(dec, all, m)| == if IsSystem(m) then 0 else 1
  {
  }

  /** A tool message's result stands in a message of its own, and all that was called or returned before
      it in the chat stands in the messages before that. */
  lemma ResultPlaced(dec: Decoder, all: seq<Message>, ms: seq<Message>, j: nat)
    requires j < |ms| && IsTool(ms[j])
    ensures var n := |Converted(dec, all, ms[..j])|;
      && n < |Converted(dec, all, ms)|
      && Converted(dec, all, ms)[n..n + 1] == One(dec, all, ms[j])
      && CCTrail(Converted(dec, all, ms)[..n]) == ToldAll(Trail(dec, all), Trail(dec, ms[..j]))
  {
    hide One, Told, Converted, CCTrail, Trail, ToldAll;
    OneIsOne(dec, all, ms[j]);
    ConvertedPrefix(dec, all, ms, j + 1);
    ConvertedNext(dec, all, ms, j);
    TrailKept(dec, all, ms[..j]);
    Within(Converted(dec, all, ms[..j]), One(dec, all, ms[j]), Converted(dec, all, ms));
  }

  lemma ConvertedNext(dec: Decoder, all: seq<Message>, ms: seq<Message>, j: nat)
    requires j < |ms|
    ensures Converted(dec, all, ms[..j + 1]) == Converted(dec, all, ms[..j]) + One(dec, all, ms[j])
  {
    hide One;
    assert ms[..j + 1][..j] == ms[..j];
  }

  lemma Within<T>(a: seq<T>, b: seq<T>, c: seq<T>)
    requires a + b <= c && |b| == 1
    ensures |a| < |c| && c[..|a|] == a && c[|a|..|a| + 1] == b
  {
    assert (a + b)[..|a|] == a && (a + b)[|a|..] == b;
  }

  lemma {:induction false} ConvertedPrefix(dec: Decoder, all: seq<Message>, ms: seq<Message>, j: nat)
    requires j <= |ms|
    ensures Converted(dec, all, ms[..j]) <= Converted(dec, all, ms)
  {
    hide One;
    if j == |ms| {
      assert ms[..j] == ms;
    } else {
      var before := ms[..|ms| - 1];
      assert before[..j] == ms[..j];
      ConvertedPrefix(dec, all, before, j);
      PrefixSnoc(Converted(dec, all, ms[..j]), Converted(dec, all, before), One(dec, all, ms[|ms| - 1]));
    }
  }

  /** At most one text part is marked: exactly when the first user message has a text part, its last
      one. Nothing else changes. */
  lemma MarkerOnce(ms: seq<CCMessage>)
    requires NoMarker(ms)
    ensures forall i: nat, j: nat :: MarkedAt(WithMarker(ms), i, j) <==> Spot(ms) == Some((i, j))
    ensures Spot(ms).Some? <==>
      FirstUser(ms) < |ms| && exists p :: p in ms[FirstUser(ms)].content && p.TextPart?
    ensures |WithMarker(ms)| == |ms| && CCTrail(WithMarker(ms)) == CCTrail(ms)
  {
    var out := WithMarker(ms);
    forall i: nat, j: nat ensures MarkedAt(out, i, j) <==> Spot(ms) == Some((i, j)) {
      if i < |ms| {
        assert Unmarked(ms[i].content);
      }
    }
    var u := FirstUser(ms);
    if u < |ms| {
      var content := ms[u].content;
      if LastText(content) > 0 {
        assert content[LastText(content) - 1] in content;
        MarkTrail(content, LastText(content) - 1);
        UpdateTrail(ms, u, content[LastText(content) - 1 := content[LastText(content) - 1].(marked := true)]);
      }
    }
  }

  lemma {:induction false} MarkTrail(parts: seq<Part>, j: nat)
    requires j < |parts| && parts[j].TextPart?
    ensures TrailOfParts(parts[j := parts[j].(marked := true)]) == TrailOfParts(parts)
  {
    var n := |parts| - 1;
    var marked := parts[j := parts[j].(marked := true)];
    if j < n {
      assert marked[..n] == parts[..n][j := parts[j].(marked := true)];
      MarkTrail(parts[..n], j);
    } else {
      assert marked[..n] == parts[..n];
    }
  }

  lemma {:induction false} UpdateTrail(ms: seq<CCMessage>, i: nat, content: seq<Part>)
    requires i < |ms| && TrailOfParts(content) == TrailOfParts(ms[i].content)
    ensures CCTrail(ms[i := ms[i].(content := content)]) == CCTrail(ms)
  {
    var n := |ms| - 1;
    var after := ms[i := ms[i].(content := content)];
    if i < n {
      assert after[..n] == ms[..n][i := ms[i].(content := content)];
      UpdateTrail(ms[..n], i, content);
    } else {
      assert after[..n] == ms[..n];
    }
  }

  /* ---- What is said upstream ---- */

  /** What a part tells the upstream; the cache marker and the name of a result are no part of it. */
  function Heard(role: string, p: Part): Line {
    match p
    case TextPart(text, _) => Line(role, Words(text))
    case ImagePart(image) => Line(role, Picture(image))
    case ReasoningPart(text) => Line(role, Thought(text))
    case CallPart(id, name, input) => Line(role, Use(id, name, Json.Parse(input)))
    case ResultPart(id, _, value) => Line(role, Outcome(id, value))
  }

  function HeardIn(m: CCMessage): seq<Line> {
    seq(|m.content|, j requires 0 <= j < |m.content| => Heard(m.role, m.content[j]))
  }

  function AllHeard(ms: seq<CCMessage>): seq<Line> {
    if ms == [] then [] else AllHeard(ms[..|ms| - 1]) + HeardIn(ms[|ms| - 1])
  }

  lemma {:induction false} ContentHeard(parts: seq<ChatPart>, reasoned: bool)
    ensures HeardIn(CCMessage("assistant", AssistantContent(parts, reasoned))) == AssistantLines(parts, reasoned)
  {
    if parts != [] {
      var n := |parts| - 1;
      ContentHeard(parts[..n], reasoned);
      HeardAppend("assistant", AssistantContent(parts[..n], reasoned), AssistantPart(parts[n], reasoned));
    }
  }

  lemma HeardAppend(role: string, a: seq<Part>, b: seq<Part>)
    ensures HeardIn(CCMessage(role, a + b)) == HeardIn(CCMessage(role, a)) + HeardIn(CCMessage(role, b))
  {
  }

  lemma AssistantHeard(dec: Decoder, m: Message)
    requires m.role == "assistant"
    ensures HeardIn(CCMessage("assistant", AssistantParts(dec, m))) == Spoken(dec, m)
  {
    hide AssistantContent, AssistantLines, ArgsJSON, Json.Parse, ContentParts;
    var parts := ContentParts(dec, m.content);
    var head := if Reasoning(m) == "" then [] else [ReasoningPart(Reasoning(m))];
    var middle := AssistantContent(parts, Reasoning(m) != "");
    ContentHeard(parts, Reasoning(m) != "");
    HeardAppend("assistant", head, middle);
    HeardAppend("assistant", head + middle, CallParts(m.calls));
    assert HeardIn(CCMessage("assistant", CallParts(m.calls))) == UseLines(m.calls);
  }

  lemma UserHeard(dec: Decoder, content: string)
    ensures HeardIn(CCMessage("user", UserParts(dec, content)))
            == var parts := ContentParts(dec, content);
               if parts == [] then [Line("user", Words(""))] else UserLines(parts)
  {
    hide ContentParts;
  }

  lemma OneHeard(dec: Decoder, all: seq<Message>, m: Message)
    ensures AllHeard(One(dec, all, m)) == Spoken(dec, m)
  {
    hide AssistantParts, UserParts, ContentParts, NameOf, ResultText, AssistantLines, UserLines, UseLines, HeardIn;
    var out := One(dec, all, m);
    if out != [] {
      assert out[..0] == [] && AllHeard(out) == HeardIn(out[0]);
      if m.role == "assistant" {
        AssistantHeard(dec, m);
      } else if IsTool(m) {
        ToolHeard(m.toolCallID, out[0].content[0].name, ResultText(dec, m.content));
      } else {
        UserHeard(dec, m.content);
      }
    }
  }

  lemma ToolHeard(id: string, name: string, text: string)
    ensures HeardIn(CCMessage("tool", [ResultPart(id, name, text)])) == [Line("tool", Outcome(id, text))]
  {
  }

  lemma AllHeardAppend(a: seq<CCMessage>, b: seq<CCMessage>)
    requires |b| <= 1
    ensures AllHeard(a + b) == AllHeard(a) + AllHeard(b)
  {
    hide HeardIn;
    if b == [] {
      assert a + b == a && AllHeard(a) + [] == AllHeard(a);
    } else {
      AllHeardSnoc(a, b[0]);
      AllHeardSnoc([], b[0]);
      assert b == [] + [b[0]] && a + b == a + [b[0]];
      assert AllHeard([]) + HeardIn(b[0]) == HeardIn(b[0]);
    }
  }

  lemma AllHeardSnoc(ms: seq<CCMessage>, m: CCMessage)
    ensures AllHeard(ms + [m]) == AllHeard(ms) + HeardIn(m)
  {
    hide HeardIn;
    assert (ms + [m])[..|ms|] == ms;
  }

  /** The upstream hears exactly what the chat says: every text, image, thought, call and result, under its
      role and in the chat's order. */
  lemma {:induction false} SpeechKept(dec: Decoder, all: seq<Message>, ms: seq<Message>)
    ensures AllHeard(Converted(dec, all, ms)) == AllSpoken(dec, ms)
  {
    hide One, Spoken;
    if ms != [] {
      var n := |ms| - 1;
      SpeechKept(dec, all, ms[..n]);
      OneHeard(dec, all, ms[n]);
      OneIsOne(dec, all, ms[n]);
      AllHeardAppend(Converted(dec, all, ms[..n]), One(dec, all, ms[n]));
    }
  }

  lemma {:induction false} SameHeard(a: seq<CCMessage>, b: seq<CCMessage>)
    requires |a| == |b| && forall i :: 0 <= i < |a| ==> HeardIn(a[i]) == HeardIn(b[i])
    ensures AllHeard(a) == AllHeard(b)
  {
    hide HeardIn;
    if a != [] {
      SameHeard(a[..|a| - 1], b[..|b| - 1]);
    }
  }

  /** The marker says nothing. */
  lemma MarkerSilent(ms: seq<CCMessage>)
    ensures AllHeard(WithMarker(ms)) == AllHeard(ms)
  {
    hide AllHeard, Json.Parse;
    SameHeard(WithMarker(ms), ms);
  }

  /** Embedding the arguments keeps what is said. */
  lemma SentHeard(ms: seq<CCMessage>)
    requires AllEmbedded(ms)
    ensures AllHeard(SentMessages(ms)) == AllHeard(ms)
  {
    hide AllHeard, Json.Parse, JsonCompact.Compact, Embeds, SentMessage;
    forall i | 0 <= i < |ms| ensures HeardIn(SentMessage(ms[i])) == HeardIn(ms[i]) {
      SentSame(ms[i]);
    }
    SameHeard(SentMessages(ms), ms);
  }

  lemma SentSame(m: CCMessage)
    requires Embeds(m)
    ensures HeardIn(SentMessage(m)) == HeardIn(m)
  {
    hide Json.Parse, JsonCompact.Compact;
    forall j | 0 <= j < |m.content| ensures Heard(m.role, SentPart(m.content[j])) == Heard(m.role, m.content[j]) {
      if m.content[j].CallPart? {
        SentMeans(m, j);
      }
    }
  }

  /* ---- The body ---- */

  /** A message whose calls' inputs are JSON, so that json.Marshal can embed them. */
  predicate Embeds(m: CCMessage) {
    forall j :: 0 <= j < |m.content| && m.content[j].CallPart? ==> Json.Parse(m.content[j].input).Some?
  }

  function SentPart(p: Part): Part {
    if p.CallPart? then p.(input := JsonCompact.Compact(Json.START, p.input, true)) else p
  }

  function SentMessage(m: CCMessage): CCMessage {
    m.(content := seq(|m.content|, j requires 0 <= j < |m.content| => SentPart(m.content[j])))
  }

  function SentMessages(ms: seq<CCMessage>): seq<CCMessage> {
    seq(|ms|, i requires 0 <= i < |ms| => SentMessage(ms[i]))
  }

  /** The arguments of every call in the chat, as they will be embedded, are JSON. */
  predicate AllEmbed(ms: seq<Message>) {
    forall i, j :: 0 <= i < |ms| && ms[i].role == "assistant" && 0 <= j < |ms[i].calls| ==>
      Json.Parse(ArgsJSON(ms[i].calls[j].args)).Some?
  }

  /** json.Marshal of one message. */
  method EncodeMessage(m: CCMessage) returns (sent: Option<CCMessage>)
    ensures sent == if Embeds(m) then Some(SentMessage(m)) else None
  {
    hide Json.Parse, JsonCompact.Compact;
    var out: seq<Part> := [];
    for j := 0 to |m.content|
      invariant |out| == j && forall k :: 0 <= k < j ==> out[k] == SentPart(m.content[k])
      invariant forall k :: 0 <= k < j && m.content[k].CallPart? ==> Json.Parse(m.content[k].input).Some?
    {
      var p := m.content[j];
      if p.CallPart? {
        var raw := JsonCompact.MarshalRaw(p.input, true);
        if raw.None? {
          return None;
        }
        p := p.(input := raw.value);
      }
      out := out + [p];
    }
    assert out == SentMessage(m).content;
    return Some(m.(content := out));
  }

  /** buildCCBody, for the messages and system texts of the body. It fails if the arguments of some call are
      no JSON; the handlers then answer 500. */
  method BuildBody(dec: Decoder, ms: seq<Message>, promptCacheKey: string)
    returns (body: Option<seq<CCMessage>>, systemParts: seq<string>)
    ensures systemParts == SystemTexts(dec, ms)
    ensures body.Some? <==> AllEmbed(ms)
    ensures body.Some? ==>
      var out := Converted(dec, ms, ms);
      body.value == SentMessages(if promptCacheKey == "" then out else WithMarker(out))
    ensures body.Some? ==> AllHeard(body.value) == AllSpoken(dec, ms)
  {
    hide Converted, SystemTexts, AllEmbed, Embeds, SentMessage, AllHeard, AllSpoken, WithMarker;
    SpeechKept(dec, ms, ms);
    MarkerSilent(Converted(dec, ms, ms));
    var out;
    out, systemParts := BuildMessages(dec, ms, promptCacheKey);
    BodyEmbeds(dec, ms, promptCacheKey);
    var sent: seq<CCMessage> := [];
    for i := 0 to |out|
      invariant |sent| == i && forall k :: 0 <= k < i ==> Embeds(out[k]) && sent[k] == SentMessage(out[k])
    {
      var m := EncodeMessage(out[i]);
      if m.None? {
        return None, systemParts;
      }
      sent := sent + [m.value];
    }
    SentHeard(out);
    assert sent == SentMessages(out);
    return Some(sent), systemParts;
  }

  ghost predicate AllEmbedded(out: seq<CCMessage>) { forall i :: 0 <= i < |out| ==> Embeds(out[i]) }

  lemma BodyEmbeds(dec: Decoder, ms: seq<Message>, promptCacheKey: string)
    ensures var out := Converted(dec, ms, ms);
      AllEmbedded(if promptCacheKey == "" then out else WithMarker(out)) <==> AllEmbed(ms)
  {
    hide Converted, AllEmbed;
    ConvertedEmbeds(dec, ms, ms);
    MarkerEmbeds(Converted(dec, ms, ms));
  }

  lemma MarkerEmbeds(out: seq<CCMessage>)
    ensures AllEmbedded(WithMarker(out)) <==> AllEmbedded(out)
  {
    hide Json.Parse;
    var marked := WithMarker(out);
    forall i | 0 <= i < |out| ensures Embeds(marked[i]) <==> Embeds(out[i]) {
      assert |marked[i].content| == |out[i].content|;
      forall j | 0 <= j < |out[i].content|
        ensures marked[i].content[j].CallPart? == out[i].content[j].CallPart?
        ensures out[i].content[j].CallPart? ==> marked[i].content[j] == out[i].content[j]
      {
      }
    }
  }

  lemma {:induction false} ConvertedEmbeds(dec: Decoder, all: seq<Message>, ms: seq<Message>)
    ensures AllEmbedded(Converted(dec, all, ms)) <==> AllEmbed(ms)
  {
    hide One, Embeds, Json.Parse, ArgsJSON;
    if ms != [] {
      var n := |ms| - 1;
      ConvertedEmbeds(dec, all, ms[..n]);
      OneEmbeds(dec, all, ms[n]);
      OneIsOne(dec, all, ms[n]);
      var before, out := Converted(dec, all, ms[..n]), Converted(dec, all, ms);
      EmbeddedAppend(before, One(dec, all, ms[n]));
      AllEmbedSnoc(ms, n);
    }
  }

  lemma EmbeddedAppend(a: seq<CCMessage>, b: seq<CCMessage>)
    ensures AllEmbedded(a + b) <==> AllEmbedded(a) && AllEmbedded(b)
  {
    hide Embeds;
    forall i | 0 <= i < |a| ensures (a + b)[i] == a[i] {
    }
    forall i | 0 <= i < |b| ensures (a + b)[|a| + i] == b[i] {
    }
    if AllEmbedded(a + b) {
      forall i | 0 <= i < |b| ensures Embeds(b[i]) {
        assert Embeds((a + b)[|a| + i]);
      }
    }
  }

  lemma AllEmbedSnoc(ms: seq<Message>, n: nat)
    requires |ms| == n + 1
    ensures AllEmbed(ms) <==> AllEmbed(ms[..n]) && AllEmbed([ms[n]])
  {
    hide Json.Parse, ArgsJSON;
    forall i | 0 <= i < n ensures ms[..n][i] == ms[i] {
    }
    assert [ms[n]][0] == ms[n];
  }

  lemma OneEmbeds(dec: Decoder, all: seq<Message>, m: Message)
    ensures AllEmbedded(One(dec, all, m)) <==> AllEmbed([m])
  {
    hide ContentParts, NameOf, ResultText, AssistantContent, Json.Parse, ArgsJSON;
    assert [m][0] == m;
    var out := One(dec, all, m);
    if !IsSystem(m) && m.role == "assistant" {
      AssistantEmbeds(dec, m);
      assert out[0] == CCMessage("assistant", AssistantParts(dec, m));
    }
  }

  lemma AssistantEmbeds(dec: Decoder, m: Message)
    ensures Embeds(CCMessage("assistant", AssistantParts(dec, m)))
            <==> forall j :: 0 <= j < |m.calls| ==> Json.Parse(ArgsJSON(m.calls[j].args)).Some?
  {
    hide ContentParts, AssistantContent, Json.Parse, ArgsJSON;
    var head := (if Reasoning(m) == "" then [] else [ReasoningPart(Reasoning(m))])
                + AssistantContent(ContentParts(dec, m.content), Reasoning(m) != "");
    NoCalls(ContentParts(dec, m.content), Reasoning(m) != "");
    var parts := AssistantParts(dec, m);
    assert parts == head + CallParts(m.calls);
    forall j | 0 <= j < |m.calls|
      ensures parts[|head| + j] == CallPart(m.calls[j].id, m.calls[j].name, ArgsJSON(m.calls[j].args))
    {
    }
    if Embeds(CCMessage("assistant", parts)) {
      forall j | 0 <= j < |m.calls| ensures Json.Parse(ArgsJSON(m.calls[j].args)).Some? {
        assert parts[|head| + j].CallPart?;
      }
    }
  }

  lemma {:induction false} NoCalls(parts: seq<ChatPart>, reasoned: bool)
    ensures forall j :: 0 <= j < |AssistantContent(parts, reasoned)| ==> !AssistantContent(parts, reasoned)[j].CallPart?
  {
    if parts != [] {
      NoCalls(parts[..|parts| - 1], reasoned);
    }
  }

  /** What is sent of a call means what the chat says: the same identifier, name and value. */
  lemma SentMeans(m: CCMessage, j: nat)
    requires Embeds(m) && j < |m.content| && m.content[j].CallPart?
    ensures var p, q := m.content[j], SentMessage(m).content[j];
      q.CallPart? && q.id == p.id && q.name == p.name && Json.Parse(q.input) == Json.Parse(p.input)
  {
    JsonCompact.CompactKeepsValue(m.content[j].input, true);
  }

  /** Arguments that are no JSON: no body can be built. */
  lemma BodyFails()
    ensures !AllEmbed([Message("assistant", "", "", "", "", "", [Call("c", "f", "hello")])])
  {
    hide Json.Parse;
    JsonCompact.HelloIsNoJson();
    var m := Message("assistant", "", "", "", "", "", [Call("c", "f", "hello")]);
    assert "hello"[0] == 'h';
    assert [m][0].calls[0].args == "hello";
    assert ArgsJSON("hello") == "hello";
  }
}
