/** A client of the Responses protocol. It knows nothing of the translator: it follows the
    frames one by one, rebuilds every item from its deltas, and refuses any frame that is out
    of order, misnumbered, misplaced, or at odds with what it has rebuilt. */
module ResponsesClient {
  import opened Text
  import opened Upstream
  import opened ResponsesModel

  datatype Stage = Waiting | Greeted | Between | NeedsPart | Streaming | TextClosed | PartClosed | Ended

  const BLANK := DoneItem(Message, "", "", "", "")

  datatype Client =
    | Rejected
    | Client(stage: Stage, next: int, items: seq<DoneItem>, cur: DoneItem, deltas: nat)

  const NEW_CLIENT := Client(Waiting, 0, [], BLANK, 0)

  predicate About(c: Client, index: int, kind: Kind, id: string) {
    c.Client? && index == |c.items| && kind == c.cur.kind && id == c.cur.id
  }

  function Accept(c: Client, b: Body): Client {
    if c.Rejected? then Rejected else
      var n := c.(next := c.next + 1);
      match b
      case Created => if c.stage == Waiting then n.(stage := Greeted) else Rejected
      case InProgress => if c.stage == Greeted then n.(stage := Between) else Rejected
      case ItemAdded(index, kind, id, callID, name) =>
        if c.stage == Between && index == |c.items| then
          n.(stage := if kind == FunctionCall then Streaming else NeedsPart,
             cur := DoneItem(kind, id, callID, name, ""), deltas := 0)
        else Rejected
      case PartAdded(index, kind, id) =>
        if c.stage == NeedsPart && About(c, index, kind, id) then n.(stage := Streaming) else Rejected
      case Delta(index, kind, id, text) =>
        if c.stage == Streaming && About(c, index, kind, id) then
          n.(cur := c.cur.(text := c.cur.text + text), deltas := c.deltas + 1)
        else Rejected
      case TextDone(index, kind, id, text) =>
        if c.stage == Streaming && About(c, index, kind, id) && c.deltas > 0 && text == c.cur.text then
          n.(stage := if kind == FunctionCall then PartClosed else TextClosed)
        else Rejected
      case PartDone(index, kind, id, text) =>
        if c.stage == TextClosed && About(c, index, kind, id) && text == c.cur.text then
          n.(stage := PartClosed)
        else Rejected
      case ItemDone(index, item) =>
        if c.stage == PartClosed && index == |c.items| && item == c.cur then
          n.(stage := Between, items := c.items + [item], cur := BLANK, deltas := 0)
        else Rejected
      case Final(_, output, outputText, _) =>
        if c.stage == Between && output == c.items && outputText == TextsOf(c.items, Message) then
          n.(stage := Ended)
        else Rejected
      case Failed(_) => if c.stage == Between then n.(stage := Ended) else Rejected
      case ErrorEvent(_, _) => if c.stage == Between then n.(stage := Ended) else Rejected
  }

  function AcceptAll(c: Client, bodies: seq<Body>): Client {
    if bodies == [] then c else Accept(AcceptAll(c, bodies[..|bodies| - 1]), bodies[|bodies| - 1])
  }

  /** What the client makes of one frame; pings are allowed once the response has begun. */
  function Receive(c: Client, f: Frame): Client {
    match f
    case Ping => if c.Client? && c.stage != Waiting then c else Rejected
    case Frame(n, b) => if c.Client? && n == c.next then Accept(c, b) else Rejected
  }

  function Watch(frames: seq<Frame>): Client {
    if frames == [] then NEW_CLIENT else Receive(Watch(frames[..|frames| - 1]), frames[|frames| - 1])
  }

  /* ---- From bodies to frames ---- */

  lemma Counted(c: Client, b: Body)
    ensures Accept(c, b).Client? ==> c.Client? && Accept(c, b).next == c.next + 1 && Accept(c, b).stage != Waiting
  {
  }

  lemma {:induction false} WatchNumbered(bodies: seq<Body>)
    ensures Watch(Numbered(bodies)) == AcceptAll(NEW_CLIENT, bodies)
    ensures Watch(Numbered(bodies)).Client? ==> Watch(Numbered(bodies)).next == |bodies|
    ensures Watch(Numbered(bodies)).Client? && bodies != [] ==> Watch(Numbered(bodies)).stage != Waiting
  {
    hide Accept;
    if bodies != [] {
      var k := |bodies| - 1;
      WatchNumbered(bodies[..k]);
      Counted(AcceptAll(NEW_CLIENT, bodies[..k]), bodies[k]);
      var frames := Numbered(bodies);
      assert frames[..k] == Numbered(bodies[..k]) && frames[k] == Frame(k, bodies[k]);
    }
  }

  lemma {:induction false} WatchIgnoresPings(wire: seq<Frame>, bodies: seq<Body>)
    requires NoPings(wire) == Numbered(bodies)
    requires wire != [] ==> !wire[0].Ping?
    ensures Watch(wire) == Watch(Numbered(bodies))
    ensures wire != [] ==> bodies != []
    decreases |wire|
  {
    if wire == [] {
      assert Numbered(bodies) == [];
    } else {
      var k := |wire| - 1;
      if wire[k].Ping? {
        WatchIgnoresPings(wire[..k], bodies);
        WatchNumbered(bodies);
      } else {
        var m := |bodies| - 1;
        assert |Numbered(bodies)| == |NoPings(wire[..k])| + 1;
        assert NoPings(wire[..k]) == Numbered(bodies)[..m];
        assert Numbered(bodies)[..m] == Numbered(bodies[..m]);
        WatchIgnoresPings(wire[..k], bodies[..m]);
        assert wire[k] == Numbered(bodies)[m];
      }
    }
  }

  lemma {:induction false} AcceptPrefix(c: Client, a: seq<Body>, b: seq<Body>)
    requires a <= b && AcceptAll(c, b) != Rejected
    ensures AcceptAll(c, a) != Rejected
    decreases |b|
  {
    if a == b {
    } else {
      assert a <= b[..|b| - 1];
      AcceptPrefix(c, a, b[..|b| - 1]);
    }
  }

  lemma {:induction false} AcceptSplit(c: Client, a: seq<Body>, b: seq<Body>)
    ensures AcceptAll(c, a + b) == AcceptAll(AcceptAll(c, a), b)
    decreases |b|
  {
    if b == [] {
      assert a + b == a;
    } else {
      var m := |b| - 1;
      assert (a + b)[..|a| + m] == a + b[..m];
      AcceptSplit(c, a, b[..m]);
    }
  }

  /* ---- The client's picture of a state ---- */

  function Idle(n: int, items: seq<DoneItem>): Client { Client(Between, n, items, BLANK, 0) }

  lemma AcceptTwo(c: Client, a: Body, b: Body)
    ensures AcceptAll(c, [a]) == Accept(c, a)
    ensures AcceptAll(c, [a, b]) == Accept(Accept(c, a), b)
  {
    assert [a][..0] == [];
    assert [a, b][..1] == [a];
  }

  lemma {:induction false} DeltasAccepted(n: int, items: seq<DoneItem>, it: Item, k: nat)
    requires k <= |it.chunks|
    ensures AcceptAll(Client(Streaming, n, items, Finished(it.(chunks := [])), 0), Deltas(|items|, it)[..k])
            == Client(Streaming, n + k, items, Finished(it.(chunks := it.chunks[..k])), k)
  {
    hide Concat;
    var j := |items|;
    if k == 0 {
      ConcatNone();
      assert it.chunks[..0] == [];
    } else {
      DeltasAccepted(n, items, it, k - 1);
      var ds := Deltas(j, it)[..k];
      assert ds[..k - 1] == Deltas(j, it)[..k - 1] && ds[k - 1] == Delta(j, it.kind, it.id, it.chunks[k - 1]);
      assert it.chunks[..k] == it.chunks[..k - 1] + [it.chunks[k - 1]];
      ConcatSnoc(it.chunks[..k - 1], it.chunks[k - 1]);
    }
  }

  lemma OpenAccepted(n: int, items: seq<DoneItem>, it: Item)
    ensures AcceptAll(Idle(n, items), Open(|items|, it))
            == Client(Streaming, n + |Open(|items|, it)|, items, Finished(it), |it.chunks|)
  {
    hide Concat, AcceptAll;
    ConcatNone();
    var j, empty := |items|, it.(chunks := []);
    var head := Head(j, it);
    assert head == if it.kind == FunctionCall then [head[0]] else [head[0], head[1]];
    AcceptSplit(Idle(n, items), head, Deltas(j, it));
    AcceptTwo(Idle(n, items), head[0], if it.kind == FunctionCall then head[0] else head[1]);
    assert AcceptAll(Idle(n, items), head) == Client(Streaming, n + |head|, items, Finished(empty), 0);
    DeltasAccepted(n + |head|, items, it, |it.chunks|);
    assert Deltas(j, it)[..|it.chunks|] == Deltas(j, it);
    assert it.chunks[..|it.chunks|] == it.chunks;
  }

  lemma ItemAccepted(n: int, items: seq<DoneItem>, it: Item)
    requires it.chunks != []
    ensures var frames := Open(|items|, it) + Tail(|items|, it);
      AcceptAll(Idle(n, items), frames) == Idle(n + |frames|, items + [Finished(it)])
  {
    hide Concat, AcceptAll, Open;
    var j := |items|;
    OpenAccepted(n, items, it);
    AcceptSplit(Idle(n, items), Open(j, it), Tail(j, it));
    var c := AcceptAll(Idle(n, items), Open(j, it));
    var t := TextTail(j, it);
    AcceptSplit(c, t, [ItemDone(j, Finished(it))]);
    AcceptTwo(c, t[0], if it.kind == FunctionCall then t[0] else t[1]);
    assert t == if it.kind == FunctionCall then [t[0]] else [t[0], t[1]];
    var d := AcceptAll(c, t);
    AcceptTwo(d, ItemDone(j, Finished(it)), Created);
  }

  lemma AcceptNothing(c: Client)
    ensures AcceptAll(c, []) == c
  {
  }

  lemma {:induction false} ClosedAccepted(n: int, items: seq<Item>)
    requires forall i :: 0 <= i < |items| ==> items[i].chunks != []
    ensures |Stored(items)| == |items|
    ensures AcceptAll(Idle(n, []), ClosedFrames(items)) == Idle(n + |ClosedFrames(items)|, Stored(items))
  {
    hide AcceptAll, Accept, Open, Tail, Finished;
    if items == [] {
      AcceptNothing(Idle(n, []));
    } else {
      var j := |items| - 1;
      ClosedAccepted(n, items[..j]);
      AcceptSplit(Idle(n, []), ClosedFrames(items[..j]), Open(j, items[j]) + Tail(j, items[j]));
      ItemAccepted(n + |ClosedFrames(items[..j])|, Stored(items[..j]), items[j]);
    }
  }

  /** A client that has followed the frames of a state holds exactly the items of the state. */
  lemma BodiesAccepted(s: State)
    requires WellFormed(s) && s.created && s.open.None?
    ensures AcceptAll(NEW_CLIENT, Bodies(s)) == Idle(|Bodies(s)|, Stored(s.closed))
  {
    hide AcceptAll, ClosedFrames, Stored, Concat;
    var pre := [Created, InProgress];
    AcceptTwo(NEW_CLIENT, Created, InProgress);
    AcceptSplit(NEW_CLIENT, pre, ClosedFrames(s.closed));
    ClosedAccepted(2, s.closed);
    assert Bodies(s) == pre + ClosedFrames(s.closed);
  }

  lemma CloseKeepsWellFormed(s: State)
    requires WellFormed(s)
    ensures WellFormed(Close(s)) && WellFormed(Close(s).(created := true))
  {
  }

  predicate Terminal(b: Body, items: seq<DoneItem>) {
    || b.Failed?
    || b.ErrorEvent?
    || (b.Final? && b.output == items && b.outputText == TextsOf(items, Message))
  }

  /** How the frames of a whole run end. */
  lemma LastFrame(s: State, ending: Ending, timeoutMessage: string) returns (last: Body)
    requires WellFormed(s) && AllBodies(s, ending, timeoutMessage) != []
    ensures ending.Cancelled? ==> s.created && AllBodies(s, ending, timeoutMessage) == Bodies(Close(s))
    ensures !ending.Cancelled? ==> Terminal(last, Stored(Close(s).closed))
    ensures !ending.Cancelled? ==>
      AllBodies(s, ending, timeoutMessage) == Bodies(Close(s).(created := true)) + [last]
  {
    hide Stored, TextsOf, ClosedFrames, Open;
    var c := Close(s);
    assert s.created ==> c.(created := true) == c;
    assert ending.Cancelled? && !s.created ==> Bodies(c) == [];
    last := match ending
      case Idle => ErrorEvent("rate_limit_error", timeoutMessage)
      case Broken(msg) => ErrorEvent("proxy_error", msg)
      case _ => if s.failure.Some? then Failed(s.failure.value.message) else FinalOf(c);
  }

  /** Every frame sequence of a run without write failures satisfies the client to the end. */
  lemma AllAccepted(hex: Hex, evs: seq<Event>, ending: Ending, timeoutMessage: string)
    ensures var s := Fold(hex, evs);
      var c := AcceptAll(NEW_CLIENT, AllBodies(s, ending, timeoutMessage));
      && c != Rejected
      && (AllBodies(s, ending, timeoutMessage) != [] ==> c.items == Stored(Close(s).closed))
      && (AllBodies(s, ending, timeoutMessage) != [] && !ending.Cancelled? ==> c.stage == Ended)
  {
    hide Stored, TextsOf, ClosedFrames, Open, Bodies, AllBodies, Fold, WellFormed;
    var s := Fold(hex, evs);
    FoldWellFormed(hex, evs);
    CloseKeepsWellFormed(s);
    if AllBodies(s, ending, timeoutMessage) != [] {
      var last := LastFrame(s, ending, timeoutMessage);
      var d := Close(s).(created := true);
      assert ending.Cancelled? ==> d == Close(s);
      BodiesAccepted(d);
      AcceptSplit(NEW_CLIENT, Bodies(d), [last]);
      AcceptTwo(AcceptAll(NEW_CLIENT, Bodies(d)), last, last);
    }
  }

  /** The client accepts everything that reaches it on every run: any events in any order, any
      ending, any pings, and a connection that breaks at any frame. */
  lemma WireAccepted(hex: Hex, evs: seq<Event>, ending: Ending, timeoutMessage: string,
                     wire: seq<Frame>, shown: seq<Body>)
    requires NoPings(wire) == Numbered(shown)
    requires wire != [] ==> !wire[0].Ping?
    requires shown <= AllBodies(Fold(hex, evs), ending, timeoutMessage)
    ensures Watch(wire) != Rejected
  {
    AllAccepted(hex, evs, ending, timeoutMessage);
    AcceptPrefix(NEW_CLIENT, shown, AllBodies(Fold(hex, evs), ending, timeoutMessage));
    WatchNumbered(shown);
    WatchIgnoresPings(wire, shown);
  }
}
