/** The client's side of server-sent events (section 9.2.6 of the WHATWG HTML Living Standard), and
    what it makes of a stream of frames. */
module EventStream {
  import opened Text
  import opened Json
  import opened JsonBuf

  datatype Dispatched = Dispatched(event: string, data: string)

  /** The line being read, whether it began after a carriage return, the event being put together, and
      the events dispatched. */
  datatype Client = Client(line: string, afterReturn: bool, event: string, data: string, out: seq<Dispatched>)

  function Idle(out: seq<Dispatched>): Client { Client("", false, "", "", out) }

  function Colon(line: string): (c: nat)
    ensures c <= |line|
  {
    if line == "" || line[0] == ':' then 0 else 1 + Colon(line[1..])
  }

  function FieldValue(line: string): string {
    var c := Colon(line);
    if c == |line| then ""
    else if c + 1 < |line| && line[c + 1] == ' ' then line[c + 2..]
    else line[c + 1..]
  }

  function Dispatch(k: Client): Client {
    if k.data == "" then k.(event := "") else
      Idle(k.out + [Dispatched(if k.event == "" then "message" else k.event, k.data[..|k.data| - 1])])
  }

  function EndLine(k: Client): Client {
    var name, value := k.line[..Colon(k.line)], FieldValue(k.line);
    var next := k.(line := "");
    if k.line == "" then Dispatch(next)
    else if name == "event" then next.(event := value)
    else if name == "data" then next.(data := k.data + value + "\n")
    else next
  }

  function TakeOne(k: Client, c: char): Client {
    if c == '\n' && k.afterReturn then k.(afterReturn := false)
    else if c == '\n' || c == '\r' then EndLine(k).(afterReturn := c == '\r')
    else k.(line := k.line + [c], afterReturn := false)
  }

  function Take(k: Client, bytes: string): Client {
    if bytes == "" then k else TakeOne(Take(k, bytes[..|bytes| - 1]), bytes[|bytes| - 1])
  }

  function Receive(bytes: string): seq<Dispatched> { Take(Idle([]), bytes).out }

  lemma {:induction false} TakeAppend(k: Client, a: string, b: string)
    ensures Take(k, a + b) == Take(Take(k, a), b)
  {
    if b == "" {
      assert a + b == a;
    } else {
      var n := |b| - 1;
      assert (a + b)[..|a + b| - 1] == a + b[..n];
      TakeAppend(k, a, b[..n]);
    }
  }

  lemma {:induction false} TakeClean(k: Client, text: string)
    requires Clean(text) && !k.afterReturn
    ensures Take(k, text) == k.(line := k.line + text)
  {
    if text == "" {
      assert k.line + text == k.line;
    } else {
      var n := |text| - 1;
      CleanAppend(text[..n], [text[n]]);
      assert text == text[..n] + [text[n]];
      assert text[n] in text;
      TakeClean(k, text[..n]);
      assert k.line + text[..n] + [text[n]] == k.line + text;
    }
  }

  lemma TakeNewline(k: Client)
    requires !k.afterReturn
    ensures Take(k, "\n") == EndLine(k).(afterReturn := false)
  {
    assert "\n"[..0] == "";
    assert Take(k, "") == k;
  }

  lemma {:induction false} ColonAt(line: string, c: nat)
    requires c < |line| && line[c] == ':' && forall i :: 0 <= i < c ==> line[i] != ':'
    ensures Colon(line) == c
  {
    if c > 0 {
      ColonAt(line[1..], c - 1);
    }
  }

  lemma EventLine(k: Client, event: string)
    requires k.line == "event: " + event
    ensures EndLine(k) == k.(line := "", event := event)
  {
    ColonAt(k.line, 5);
    assert k.line[..5] == "event" && k.line[7..] == event;
  }

  lemma DataLine(k: Client, data: string)
    requires k.line == "data: " + data
    ensures EndLine(k) == k.(line := "", data := k.data + data + "\n")
  {
    ColonAt(k.line, 4);
    assert k.line[..4] == "data" && k.line[6..] == data;
  }

  lemma CommentLine(k: Client)
    requires k.line != "" && k.line[0] == ':'
    ensures EndLine(k) == k.(line := "")
  {
    assert k.line[..0] == "";
  }

  /** A line with its newline. */
  lemma TakeLine(k: Client, text: string)
    requires Clean(text) && !k.afterReturn && k.line == ""
    ensures Take(k, text + "\n") == EndLine(k.(line := text))
  {
    hide Take;
    TakeAppend(k, text, "\n");
    TakeClean(k, text);
    assert "" + text == text;
    TakeNewline(k.(line := text));
  }

  /* ---- Frames ---- */

  /** What the server means by a frame. */
  datatype Sent = Event(event: string, v: Value) | Data(v: Value) | DoneMark | Comment

  /** What surrounds the data of a named event. */
  function Head(event: string): string { "event: " + event + "\ndata: " }

  ghost predicate Renders(text: string, sent: Sent) {
    match sent
    case Event(event, v) => event != "" && Clean(event) && Framed(text, Head(event), v)
    case Data(v) => Framed(text, "data: ", v)
    case DoneMark => text == "data: [DONE]\n\n"
    case Comment => text == ": keepalive\n\n"
  }

  /** The client received what was meant. */
  ghost predicate Matches(d: Dispatched, sent: Sent) {
    match sent
    case Event(event, v) => d.event == event && Parse(d.data) == Some(v)
    case Data(v) => d.event == "message" && Parse(d.data) == Some(v)
    case DoneMark => d == Dispatched("message", "[DONE]")
    case Comment => false
  }

  lemma TakeData(k: Client, data: string)
    requires Clean(data) && !k.afterReturn && k.line == "" && k.data == ""
    ensures Take(k, "data: " + data + "\n\n")
            == Idle(k.out + [Dispatched(if k.event == "" then "message" else k.event, data)])
  {
    hide Take;
    var line := "data: " + data;
    assert line + "\n\n" == (line + "\n") + "\n";
    TakeAppend(k, line + "\n", "\n");
    assert Clean("data: ");
    CleanAppend("data: ", data);
    TakeLine(k, line);
    DataLine(k.(line := line), data);
    var full := k.(data := data + "\n");
    assert "" + data + "\n" == data + "\n";
    TakeNewline(full);
    assert (data + "\n")[..|data|] == data;
  }

  lemma TakeEvent(out: seq<Dispatched>, event: string, data: string)
    requires Clean(event) && Clean(data) && event != ""
    ensures Take(Idle(out), Head(event) + data + "\n\n") == Idle(out + [Dispatched(event, data)])
  {
    hide Take;
    var first, rest := "event: " + event, "data: " + data + "\n\n";
    SplitHead(event, data);
    TakeAppend(Idle(out), first + "\n", rest);
    assert Clean("event: ");
    CleanAppend("event: ", event);
    TakeLine(Idle(out), first);
    EventLine(Idle(out).(line := first), event);
    TakeData(Idle(out).(event := event), data);
  }

  lemma SplitHead(event: string, data: string)
    ensures Head(event) + data + "\n\n" == ("event: " + event + "\n") + ("data: " + data + "\n\n")
  {
    assert "\ndata: " == "\n" + "data: ";
  }

  lemma TakeComment(out: seq<Dispatched>)
    ensures Take(Idle(out), ": keepalive\n\n") == Idle(out)
  {
    hide Take;
    var line := ": keepalive";
    assert ": keepalive\n\n" == (line + "\n") + "\n";
    TakeAppend(Idle(out), line + "\n", "\n");
    TakeLine(Idle(out), line);
    CommentLine(Idle(out).(line := line));
    TakeNewline(Idle(out));
  }

  /** One frame, after any number of frames. */
  lemma TakeFrame(out: seq<Dispatched>, text: string, sent: Sent) returns (d: Dispatched)
    requires Renders(text, sent)
    ensures Take(Idle(out), text) == Idle(if sent.Comment? then out else out + [d])
    ensures !sent.Comment? ==> Matches(d, sent)
  {
    hide Take, Head;
    d := Dispatched("", "");
    match sent
    case Event(event, v) =>
      var payload :| text == Head(event) + payload + "\n\n" && Clean(payload) && Parse(payload) == Some(v);
      TakeEvent(out, event, payload);
      d := Dispatched(event, payload);
    case Data(v) =>
      var payload :| text == "data: " + payload + "\n\n" && Clean(payload) && Parse(payload) == Some(v);
      TakeData(Idle(out), payload);
      d := Dispatched("message", payload);
    case DoneMark =>
      assert text == "data: " + "[DONE]" + "\n\n";
      TakeData(Idle(out), "[DONE]");
      d := Dispatched("message", "[DONE]");
    case Comment =>
      TakeComment(out);
  }

  function Meant(sents: seq<Sent>): seq<Sent> {
    if sents == [] then [] else
      Meant(sents[..|sents| - 1]) + if sents[|sents| - 1].Comment? then [] else [sents[|sents| - 1]]
  }

  ghost predicate RendersAll(texts: seq<string>, sents: seq<Sent>) {
    |texts| == |sents| && forall i :: 0 <= i < |texts| ==> Renders(texts[i], sents[i])
  }

  ghost predicate MatchesAll(ds: seq<Dispatched>, sents: seq<Sent>) {
    |ds| == |sents| && forall i :: 0 <= i < |ds| ==> Matches(ds[i], sents[i])
  }

  lemma {:induction false} TakeFrames(texts: seq<string>, sents: seq<Sent>) returns (ds: seq<Dispatched>)
    requires RendersAll(texts, sents)
    ensures Take(Idle([]), Concat(texts)) == Idle(ds)
    ensures MatchesAll(ds, Meant(sents))
  {
    hide Take, Renders, Matches;
    if texts == [] {
      ds := [];
      TakeNothing(Idle([]));
    } else {
      var n := |texts| - 1;
      ds := TakeFrames(texts[..n], sents[..n]);
      TakeAppend(Idle([]), Concat(texts[..n]), texts[n]);
      var d := TakeFrame(ds, texts[n], sents[n]);
      if !sents[n].Comment? {
        ds := ds + [d];
      }
    }
  }

  lemma TakeNothing(k: Client)
    ensures Take(k, "") == k
  {
  }

  /** The bytes of any frames, one after the other: the client dispatches exactly those frames, comments
      aside, each with its name, and the data of each parses to exactly the value that was meant. */
  lemma StreamReads(texts: seq<string>, sents: seq<Sent>)
    requires RendersAll(texts, sents)
    ensures MatchesAll(Receive(Concat(texts)), Meant(sents))
  {
    hide Take, RendersAll, MatchesAll, Concat, Meant;
    var ds := TakeFrames(texts, sents);
  }
}
