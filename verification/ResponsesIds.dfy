/** responses.go: the identifiers of the output items. Each item has one of its own. */
module ResponsesIds {
  import opened Text
  import opened Upstream
  import opened Identifiers
  import opened ResponsesModel

  /** The identifiers of items, closed or open. */
  function IdsOf(items: seq<Item>): seq<string> {
    seq(|items|, i requires 0 <= i < |items| => items[i].id)
  }

  function DoneIds(items: seq<DoneItem>): seq<string> {
    seq(|items|, i requires 0 <= i < |items| => items[i].id)
  }

  /** The identifiers that frames announce. */
  function AddedIds(bodies: seq<Body>): seq<string> {
    if bodies == [] then [] else
      var last := bodies[|bodies| - 1];
      AddedIds(bodies[..|bodies| - 1]) + if last.ItemAdded? then [last.id] else []
  }

  function AllItems(s: State): seq<Item> { Close(s).closed }

  /** Every item is named after its kind by a random string drawn before, and no two share one. */
  ghost predicate OwnIds(items: seq<Item>, hex: Hex, n: nat) {
    && (forall i :: 0 <= i < |items| ==> MadeUp(items[i].id, Prefix(items[i].kind), hex, n))
    && (Injective(hex) ==> forall i, j :: 0 <= i < j < |items| ==> items[i].id != items[j].id)
  }

  lemma PrefixesDiffer(a: Kind, b: Kind, x: string, y: string)
    requires a != b
    ensures Prefix(a) + x != Prefix(b) + y
  {
    assert (Prefix(a) + x)[0] == Prefix(a)[0] && (Prefix(b) + y)[0] == Prefix(b)[0];
  }

  lemma OwnLater(items: seq<Item>, hex: Hex, n: nat, m: nat)
    requires OwnIds(items, hex, n) && n <= m
    ensures OwnIds(items, hex, m)
  {
    hide MadeUp, Injective;
    forall i | 0 <= i < |items| ensures MadeUp(items[i].id, Prefix(items[i].kind), hex, m) {
      MadeUpLater(items[i].id, Prefix(items[i].kind), hex, n, m);
    }
  }

  /** A new item takes the next random string. */
  lemma OwnSnoc(items: seq<Item>, hex: Hex, n: nat, it: Item)
    requires OwnIds(items, hex, n) && it.id == Prefix(it.kind) + hex(n)
    ensures OwnIds(items + [it], hex, n + 1)
  {
    hide Injective;
    OwnLater(items, hex, n, n + 1);
    MadeUpNow(Prefix(it.kind), hex, n, n + 1);
    forall i | Injective(hex) && 0 <= i < |items| ensures items[i].id != it.id {
      if items[i].kind == it.kind {
        NotYet(items[i].id, Prefix(it.kind), hex, n);
      } else {
        var k: nat :| k < n && items[i].id == Prefix(items[i].kind) + hex(k);
        PrefixesDiffer(items[i].kind, it.kind, hex(k), hex(n));
      }
    }
  }

  /** Only identifiers and kinds matter. */
  lemma OwnSame(items: seq<Item>, more: seq<Item>, hex: Hex, n: nat)
    requires OwnIds(items, hex, n) && |items| == |more|
    requires forall i :: 0 <= i < |items| ==> more[i].id == items[i].id && more[i].kind == items[i].kind
    ensures OwnIds(more, hex, n)
  {
    hide MadeUp, Injective;
  }

  lemma PieceOwns(s: State, hex: Hex, kind: Kind, callID: string, name: string, text: string)
    requires OwnIds(AllItems(s), hex, s.drawn)
    ensures var t := WithPiece(s, hex, kind, callID, name, text); OwnIds(AllItems(t), hex, t.drawn)
    ensures WithPiece(s, hex, kind, callID, name, text).drawn
            == if Continues(s, kind, callID) then s.drawn else s.drawn + 1
  {
    hide OwnIds;
    var t := WithPiece(s, hex, kind, callID, name, text);
    if Continues(s, kind, callID) {
      OwnSame(AllItems(s), AllItems(t), hex, s.drawn);
    } else {
      var it := Opened(s, hex, kind, callID, name).open.value;
      OwnSnoc(AllItems(s), hex, s.drawn, it);
      OwnSame(AllItems(s) + [it], AllItems(t), hex, s.drawn + 1);
    }
  }

  lemma StepOwns(s: State, hex: Hex, ev: Event)
    requires OwnIds(AllItems(s), hex, s.drawn)
    ensures var t := Step(s, hex, ev); OwnIds(AllItems(t), hex, t.drawn) && s.drawn <= t.drawn
  {
    hide OwnIds, WithPiece;
    var s0 := s.(created := true);
    var s1 := s.(created := true, drawn := s.drawn + 1);
    OwnLater(AllItems(s), hex, s.drawn, s.drawn + 1);
    match ev
    case TextDelta(t) => PieceOwns(s0, hex, Message, "", "", t);
    case ReasoningDelta(t) => PieceOwns(s0, hex, Reasoning, "", "", t);
    case ToolCall(id, name, input) =>
      if id == "" {
        PieceOwns(s1, hex, FunctionCall, "call_" + hex(s.drawn), name, ToolArgs(input));
      } else {
        PieceOwns(s0, hex, FunctionCall, id, name, ToolArgs(input));
      }
    case _ =>
  }

  lemma {:induction false} FoldOwns(hex: Hex, evs: seq<Event>)
    ensures OwnIds(AllItems(Fold(hex, evs)), hex, Fold(hex, evs).drawn)
  {
    if evs == [] {
      assert AllItems(INITIAL) == [];
    } else {
      hide OwnIds, Step;
      FoldOwns(hex, evs[..|evs| - 1]);
      StepOwns(Fold(hex, evs[..|evs| - 1]), hex, evs[|evs| - 1]);
    }
  }

  /* ---- In the frames ---- */

  lemma {:induction false} AddedSplit(a: seq<Body>, b: seq<Body>)
    ensures AddedIds(a + b) == AddedIds(a) + AddedIds(b)
  {
    if b == [] {
      assert a + b == a;
    } else {
      AddedSplit(a, b[..|b| - 1]);
      assert (a + b)[..|a + b| - 1] == a + b[..|b| - 1];
    }
  }

  lemma {:induction false} NoneAdded(bodies: seq<Body>)
    requires forall i :: 0 <= i < |bodies| ==> !bodies[i].ItemAdded?
    ensures AddedIds(bodies) == []
  {
    if bodies != [] {
      NoneAdded(bodies[..|bodies| - 1]);
    }
  }

  lemma OpenAdds(j: int, it: Item)
    ensures AddedIds(Open(j, it)) == [it.id]
  {
    hide AddedIds;
    var rest := Head(j, it)[1..] + Deltas(j, it);
    assert Open(j, it) == [Head(j, it)[0]] + rest;
    NoneAdded(rest);
    AddedSplit([Head(j, it)[0]], rest);
    OneAdded(Head(j, it)[0]);
  }

  lemma OneAdded(b: Body)
    ensures AddedIds([b]) == if b.ItemAdded? then [b.id] else []
  {
    assert [b][..0] == [];
  }

  lemma {:induction false} ClosedAdd(items: seq<Item>)
    ensures AddedIds(ClosedFrames(items)) == IdsOf(items)
  {
    hide AddedIds, Open, Tail;
    if items == [] {
      NoneAdded([]);
    } else {
      var j := |items| - 1;
      ClosedAdd(items[..j]);
      AddedSplit(ClosedFrames(items[..j]), Open(j, items[j]) + Tail(j, items[j]));
      AddedSplit(Open(j, items[j]), Tail(j, items[j]));
      OpenAdds(j, items[j]);
      TailAddsNone(j, items[j]);
      assert IdsOf(items) == IdsOf(items[..j]) + [items[j].id];
    }
  }

  lemma TailAddsNone(j: int, it: Item)
    ensures AddedIds(Tail(j, it)) == []
  {
    hide AddedIds;
    NoneAdded(Tail(j, it));
  }

  /** The frames of a run announce exactly its items. */
  lemma AllAdd(s: State, ending: Ending, timeoutMessage: string)
    requires WellFormed(s)
    ensures var all := AllBodies(s, ending, timeoutMessage);
      AddedIds(all) == if all == [] then [] else IdsOf(AllItems(s))
  {
    hide AddedIds, ClosedFrames, Open, TextsOf, Stored;
    var c := Close(s);
    var all := AllBodies(s, ending, timeoutMessage);
    NoneAdded([]);
    ClosedAdd(c.closed);
    NoneAdded([Created, InProgress]);
    AddedSplit([Created, InProgress], ClosedFrames(c.closed));
    if all != [] {
      var base := [Created, InProgress] + ClosedFrames(c.closed);
      assert base <= all;
      NoneAdded(all[|base|..]);
      AddedSplit(base, all[|base|..]);
      assert all == base + all[|base|..];
    }
  }

  lemma AddedPrefix(shown: seq<Body>, all: seq<Body>)
    requires shown <= all
    ensures AddedIds(shown) <= AddedIds(all)
  {
    hide AddedIds;
    assert all == shown + all[|shown|..];
    AddedSplit(shown, all[|shown|..]);
  }

  lemma {:induction false} StoredIds(items: seq<Item>)
    ensures DoneIds(Stored(items)) == IdsOf(items)
  {
    if items != [] {
      var j := |items| - 1;
      StoredIds(items[..j]);
      assert DoneIds(Stored(items)) == DoneIds(Stored(items[..j])) + [items[j].id];
      assert IdsOf(items) == IdsOf(items[..j]) + [items[j].id];
    }
  }

  /** Whatever the events, no two items of the response share an identifier: not in the list that the last
      frame holds, and not in what has reached the client at any moment. */
  lemma ItemsDistinct(hex: Hex, evs: seq<Event>, ending: Ending, timeoutMessage: string, shown: seq<Body>)
    requires Injective(hex) && shown <= AllBodies(Fold(hex, evs), ending, timeoutMessage)
    ensures Distinct(DoneIds(Stored(Close(Fold(hex, evs)).closed)))
    ensures Distinct(AddedIds(shown))
  {
    hide AddedIds, Fold, AllBodies, Stored;
    var s := Fold(hex, evs);
    FoldOwns(hex, evs);
    FoldWellFormed(hex, evs);
    AllAdd(s, ending, timeoutMessage);
    AddedPrefix(shown, AllBodies(s, ending, timeoutMessage));
    StoredIds(AllItems(s));
    assert Distinct(IdsOf(AllItems(s)));
  }
}
