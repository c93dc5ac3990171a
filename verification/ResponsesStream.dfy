/** responses.go: the streaming translator. Its frames are those of ResponsesModel. */
module ResponsesStream {
  import opened Text
  import opened Upstream
  import opened Sse
  import opened ResponsesModel
  import opened Identifiers
  import ResponsesClient
  import ResponsesIds

  class ItemState {
    const kind: Kind
    const index: int
    var id: string
    var callID: string
    var name: string
    var text: string
    var arguments: string

    constructor (kind: Kind, index: int)
      ensures this.kind == kind && this.index == index
      ensures text == "" && arguments == "" && callID == "" && name == ""
    {
      this.kind, this.index := kind, index;
      id, callID, name, text, arguments := "", "", "", "", "";
    }

    method Identify(id: string, callID: string, name: string)
      modifies this
      ensures this.id == id && this.callID == callID && this.name == name
      ensures text == old(text) && arguments == old(arguments)
    {
      this.id, this.callID, this.name := id, callID, name;
    }

    method Append(piece: string)
      modifies this`text, this`arguments
      ensures text == old(text) + if kind == FunctionCall then "" else piece
      ensures arguments == old(arguments) + if kind == FunctionCall then piece else ""
    {
      if kind == FunctionCall {
        arguments := arguments + piece;
      } else {
        text := text + piece;
      }
    }

    /** What its deltas add up to. */
    function Content(): string
      reads this
    {
      if kind == FunctionCall then arguments else text
    }

    lemma Mirrored(it: Item, j: int)
      requires Mirrors(it, j)
      ensures Content() == Concat(it.chunks)
      ensures kind == it.kind && index == j && id == it.id && callID == it.callID && name == it.name
    {
    }

    /** This record is the item that a stream has open at position j. */
    ghost predicate Mirrors(it: Item, j: int)
      reads this
    {
      && kind == it.kind && index == j && id == it.id && callID == it.callID && name == it.name
      && (kind == FunctionCall ==> arguments == Concat(it.chunks))
      && (kind != FunctionCall ==> text == Concat(it.chunks))
    }
  }

  class Stream {
    const sw: SseWriter<Frame>
    const hex: Hex
    const timeoutMessage: string
    var seqNo: int
    var createdSent: bool
    var current: ItemState?
    var outputIndex: int
    var doneItems: seq<DoneItem>
    var textAcc: string
    var usage: Option<Usage>
    var finishReason: string
    var outputTokens: int
    var hasContent: bool
    var upstreamErr: Option<MappedError>
    var drawn: nat
    /** What the events handled so far stand for. */
    ghost var st: State
    /** The bodies of the events on the wire. */
    ghost var shown: seq<Body>

    constructor (sw: SseWriter<Frame>, hex: Hex, timeoutMessage: string)
      requires !sw.started && !sw.failed && sw.pending == [] && sw.wire == []
      ensures Valid() && st == INITIAL && this.sw == sw && this.hex == hex && this.timeoutMessage == timeoutMessage
      ensures current == null
    {
      this.sw, this.hex, this.timeoutMessage := sw, hex, timeoutMessage;
      seqNo, createdSent, current, outputIndex := 0, false, null, 0;
      doneItems, textAcc, usage, finishReason := [], "", None, "";
      outputTokens, hasContent, upstreamErr, drawn := 0, false, None, 0;
      st, shown := INITIAL, [];
    }

    /** The wire, pings aside, is the numbered list of shown bodies; no ping comes first. */
    ghost predicate Wired()
      reads this, sw
    {
      && NoPings(sw.wire) == Numbered(shown)
      && (sw.wire != [] ==> !sw.wire[0].Ping?)
      && (!sw.started ==> sw.wire == [])
      && (!sw.failed ==> seqNo == |shown| && sw.pending == [] && sw.started == createdSent)
      && (sw.failed ==> sw.started)
    }

    /** The fields that do not depend on the writer agree with the state. */
    ghost predicate Tracks(s: State)
      reads this, current
    {
      && createdSent == s.created
      && doneItems == Stored(s.closed)
      && outputIndex == |s.closed| + (if s.open.Some? then 1 else 0)
      && (current == null <==> s.open.None?)
      && (current != null ==> current.Mirrors(s.open.value, |s.closed|))
      && textAcc == TextsOf(Stored(s.closed), Message)
                    + (if s.open.Some? && s.open.value.kind == Message then Concat(s.open.value.chunks) else "")
      && usage == s.usage && finishReason == s.finish && outputTokens == s.outputTokens
      && upstreamErr == s.failure && drawn == s.drawn
    }

    /** Everything the handled events call for has been written. */
    ghost predicate Valid()
      reads this, sw, current
    {
      Ready() && hasContent == st.created
    }

    ghost predicate Ready()
      reads this, sw, current
    {
      Wired() && !sw.failed && Tracks(st) && WellFormed(st) && shown == Bodies(st)
    }

    /** A write failed with no more than a part of these bodies shown. */
    ghost predicate Broke(goal: seq<Body>)
      reads this, sw
    {
      Wired() && sw.failed && shown <= goal
    }

    /** Writes one event under the next sequence number. */
    method Emit(body: Body) returns (ok: bool)
      requires Wired() && sw.started
      modifies this`seqNo, this`shown, sw
      ensures Wired() && sw.started && ok == !sw.failed
      ensures old(sw.failed) ==> sw.failed && sw.wire == old(sw.wire)
      ensures shown == if ok then old(shown) + [body] else old(shown)
    {
      var frame := Frame(seqNo, body);
      seqNo := seqNo + 1;
      WithoutSnoc(sw.wire, frame, IsPing);
      NumberedSnoc(shown, body);
      ok := sw.Write(frame);
      if ok {
        shown := shown + [body];
      }
    }

    method StartResponse() returns (ok: bool)
      requires Ready()
      modifies this`seqNo, this`createdSent, this`st, this`shown, sw
      ensures st == old(st).(created := true)
      ensures ok ==> Ready() && sw.started
      ensures !ok ==> Broke(Bodies(st))
    {
      hide Bodies, NoPings, Numbered, Concat, TextsOf, Stored;
      if createdSent {
        return true;
      }
      FirstFrames(st);
      createdSent := true;
      st := st.(created := true);
      ok := sw.Start();
      if !ok {
        return;
      }
      assert sw.wire == old(sw.wire);
      ok := Emit(Created);
      if ok {
        ok := Emit(InProgress);
      }
    }

    /** The done frames of an item, up to the one that stores it. */
    method EmitTextTail(state: ItemState, content: string, ghost it: Item) returns (ok: bool)
      requires Wired() && sw.started
      requires state.kind == it.kind && state.id == it.id && content == Concat(it.chunks)
      modifies this`seqNo, this`shown, sw
      ensures Wired() && sw.started && ok == !sw.failed
      ensures old(sw.failed) ==> shown == old(shown) && sw.wire == old(sw.wire)
      ensures ok ==> shown == old(shown) + TextTail(state.index, it)
      ensures !ok ==> old(shown) <= shown <= old(shown) + TextTail(state.index, it)
    {
      ok := Emit(TextDone(state.index, state.kind, state.id, content));
      if ok && state.kind != FunctionCall {
        ok := Emit(PartDone(state.index, state.kind, state.id, content));
      }
    }

    /** closeItem: the done frames of the open item, and its place in the output.
        On a dead connection it changes nothing the client sees. */
    method CloseItem() returns (ok: bool)
      requires Ready() || (Wired() && sw.failed)
      modifies this`seqNo, this`current, this`doneItems, this`st, this`shown, sw
      ensures sw.started == old(sw.started)
      ensures old(sw.failed) ==> Wired() && sw.failed && shown == old(shown) && sw.wire == old(sw.wire)
      ensures !old(sw.failed) ==> st == Close(old(st))
      ensures current == null
      ensures ok && !old(sw.failed) ==> Ready()
      ensures !ok && !old(sw.failed) ==> Broke(Bodies(st))
    {
      hide Bodies, Concat, TextsOf, Stored, NoPings, Numbered, ItemState.Mirrors, ItemState.Content;
      if current == null {
        return true;
      }
      var state := current;
      current := null;
      var content := state.Content();
      ghost var it := Item(state.kind, state.id, state.callID, state.name, [content]);
      ConcatOne(content);
      if !sw.failed {
        it := st.open.value;
        state.Mirrored(it, |st.closed|);
        CloseParts(st);
        StoredSnoc(st.closed, it, Message);
        st := Close(st);
      }
      ok := EmitTextTail(state, content, it);
      if !ok {
        return;
      }
      var item := DoneItem(state.kind, state.id, state.callID, state.name, content);
      doneItems := doneItems + [item];
      assert Tracks(st);
      ok := Emit(ItemDone(state.index, item));
      assert ok ==> shown == Bodies(st);
    }

    method EmitHead(state: ItemState, ghost it: Item) returns (ok: bool)
      requires Wired() && sw.started
      requires state.Mirrors(it, state.index)
      modifies this`seqNo, this`shown, sw
      ensures Wired() && sw.started && ok == !sw.failed
      ensures ok ==> shown == old(shown) + Head(state.index, it)
      ensures !ok ==> old(shown) <= shown <= old(shown) + Head(state.index, it)
    {
      ok := Emit(ItemAdded(state.index, state.kind, state.id, state.callID, state.name));
      if ok && state.kind != FunctionCall {
        ok := Emit(PartAdded(state.index, state.kind, state.id));
      }
    }

    /** A new item takes the next output index and identifier. */
    method Announce(kind: Kind, callID: string, name: string) returns (ok: bool)
      requires Ready() && sw.started && current == null
      modifies this`seqNo, this`current, this`st, this`shown, this`outputIndex, this`drawn, sw
      ensures st == Opened(old(st), hex, kind, callID, name)
      ensures fresh(current) && sw.started
      ensures ok ==> Wired() && !sw.failed && Tracks(st) && shown == Bodies(st)
      ensures !ok ==> Broke(Bodies(st))
    {
      hide Bodies, Concat, TextsOf, Stored, NoPings, Numbered, WellFormed, Head;
      OpenGrows(st, hex, kind, callID, name);
      ConcatNone();
      var state := new ItemState(kind, outputIndex);
      outputIndex := outputIndex + 1;
      current := state;
      state.Identify(Prefix(kind) + hex(drawn), callID, name);
      drawn := drawn + 1;
      st := Opened(st, hex, kind, callID, name);
      assert Tracks(st);
      ok := EmitHead(state, st.open.value);
    }

    /** openItemWith: keeps the open item if the next piece belongs to it, else starts another. */
    method OpenItemWith(kind: Kind, callID: string, name: string) returns (ok: bool)
      requires Ready() && sw.started
      modifies this`seqNo, this`current, this`doneItems, this`st, this`shown, this`outputIndex, this`drawn, sw
      ensures st == Opened(old(st), hex, kind, callID, name)
      ensures current == null || current == old(current) || fresh(current)
      ensures ok ==> Wired() && !sw.failed && sw.started && Tracks(st) && shown == Bodies(st)
      ensures !ok ==> Broke(Bodies(st))
    {
      hide Bodies, Concat, TextsOf, Stored, NoPings, Numbered, WellFormed;
      if current != null && current.kind == kind && (kind != FunctionCall || current.callID == callID) {
        return true;
      }
      OpenGrows(st, hex, kind, callID, name);
      ghost var s := st;
      ok := CloseItem();
      if ok {
        ok := Announce(kind, callID, name);
      }
      st := Opened(s, hex, kind, callID, name);
    }

    /** The piece joins the open item and, for a message, the response text. */
    method Absorb(text: string, ghost s: State)
      requires Tracks(s) && s.open.Some?
      modifies this`textAcc, current
      ensures Tracks(s.(open := Some(Extended(s.open.value, text))))
      ensures current.kind == old(current.kind) && current.id == old(current.id) && current.index == old(current.index)
    {
      hide Concat, TextsOf, Stored;
      ConcatSnoc(s.open.value.chunks, text);
      current.Append(text);
      if current.kind == Message {
        textAcc := textAcc + text;
      }
    }

    /** One non-empty piece of an item: opens the item if needed and streams the piece. */
    method Piece(kind: Kind, callID: string, name: string, text: string) returns (ok: bool)
      requires Ready() && sw.started && text != ""
      modifies this`seqNo, this`current, this`doneItems, this`textAcc, this`st, this`shown,
               this`outputIndex, this`drawn, sw, current
      ensures st == WithPiece(old(st), hex, kind, callID, name, text)
      ensures current == null || current == old(current) || fresh(current)
      ensures ok ==> Ready() && sw.started
      ensures !ok ==> Broke(Bodies(st))
    {
      hide Bodies, Concat, TextsOf, Stored, NoPings, Numbered, WellFormed, Deltas;
      ghost var s := st;
      assert s.created;
      PieceGrows(s, hex, kind, callID, name, text);
      PieceKeepsWellFormed(s, hex, kind, callID, name, text);
      ok := OpenItemWith(kind, callID, name);
      if ok {
        Absorb(text, st);
        st := WithPiece(s, hex, kind, callID, name, text);
        ok := Emit(Delta(current.index, kind, current.id, text));
      }
      st := WithPiece(s, hex, kind, callID, name, text);
    }

    /** A call without an identifier is given a fresh one. */
    method NameCall(kind: Kind, id: string) returns (callID: string)
      requires Ready()
      modifies this`drawn, this`st
      ensures Ready()
      ensures var unnamed := kind == FunctionCall && id == "";
        && callID == (if unnamed then "call_" + hex(old(drawn)) else id)
        && st == old(st).(drawn := if unnamed then old(drawn) + 1 else old(drawn))
    {
      hide Bodies, TextsOf, Stored, NoPings, Numbered, WellFormed;
      callID := id;
      if kind == FunctionCall && id == "" {
        callID := "call_" + hex(drawn);
        SameContent(st, st.(drawn := drawn + 1));
        drawn := drawn + 1;
        st := st.(drawn := drawn);
      }
    }

    /** A content event: begins the response, names an unnamed call, streams the piece. */
    method Content(kind: Kind, id: string, name: string, text: string) returns (ok: bool)
      requires Valid() && text != ""
      modifies this, sw, current
      ensures st == WithContent(old(st), hex, kind, id, name, text) && st.created
      ensures current == null || current == old(current) || fresh(current)
      ensures ok ==> Valid()
      ensures !ok ==> Broke(Bodies(st))
    {
      hide Bodies, Concat, TextsOf, Stored, NoPings, Numbered, WellFormed, WithPiece, ItemState.Mirrors;
      ContentGrows(st, hex, kind, id, name, text);
      ghost var s, goal := st, WithContent(st, hex, kind, id, name, text);
      hasContent := true;
      ok := StartResponse();
      if ok {
        var callID := NameCall(kind, id);
        ok := Piece(kind, callID, name, text);
        assert st == goal;
      }
      st := goal;
    }

    /** The keep-alive, once something has been streamed. */
    method KeepAlive() returns (ok: bool)
      requires Ready() && sw.started
      modifies sw
      ensures ok ==> Ready() && sw.started
      ensures !ok ==> Broke(shown)
    {
      hide Bodies, TextsOf, Stored, WellFormed;
      SameContent(st, st);
      CreatedShows(st);
      WithoutSnoc(sw.wire, Ping, IsPing);
      ok := sw.Write(Ping);
    }

    method RecordReason(reason: string)
      requires Valid()
      modifies this`finishReason, this`st
      ensures Valid() && st == old(st).(finish := reason)
    {
      hide Bodies, Concat, TextsOf, Stored, NoPings, Numbered, WellFormed;
      SameContent(st, st.(finish := reason));
      finishReason := reason;
      st := st.(finish := reason);
    }

    method RecordUsage(u: Usage)
      requires Valid()
      modifies this`usage, this`outputTokens, this`st
      ensures Valid() && st == old(st).(usage := Some(u), outputTokens := u.output)
    {
      hide Bodies, Concat, TextsOf, Stored, NoPings, Numbered, WellFormed;
      SameContent(st, st.(usage := Some(u), outputTokens := u.output));
      usage, outputTokens := Some(u), u.output;
      st := st.(usage := Some(u), outputTokens := u.output);
    }

    /** A finish event: only bookkeeping. */
    method HandleFinish(reason: string, total: Option<Usage>, step: Option<Usage>)
      requires Valid()
      modifies this`finishReason, this`usage, this`outputTokens, this`st
      ensures Valid() && st == Step(old(st), hex, Finish(reason, total, step))
    {
      hide Valid, Normalize;
      RecordReason(reason);
      var u := total;
      if u.None? {
        u := step;
      }
      if u.Some? {
        RecordUsage(Normalize(u.value));
      }
    }

    method HandleCall(id: string, name: string, input: Input) returns (ok: bool)
      requires Valid()
      modifies this, sw, current
      ensures st == Step(old(st), hex, ToolCall(id, name, input)) && st.created
      ensures current == null || current == old(current) || fresh(current)
      ensures ok ==> Valid()
      ensures !ok ==> Broke(Bodies(st))
    {
      hide Bodies, TextsOf, Stored, NoPings, Numbered, WellFormed, WithContent;
      ok := Content(FunctionCall, id, name, ToolArgs(input));
      SameContent(st, st.(outputTokens := st.outputTokens + 20));
      outputTokens := outputTokens + 20;
      st := st.(outputTokens := st.outputTokens + 20);
    }

    /** The callback run on every decoded upstream event. */
    method Handle(ev: Event) returns (ok: bool)
      requires Valid()
      modifies this, sw, current
      ensures st == Step(old(st), hex, ev)
      ensures current == null || current == old(current) || fresh(current)
      ensures ok ==> Valid()
      ensures !ok ==> Broke(Bodies(st)) && st.created
    {
      hide Bodies, TextsOf, Stored, NoPings, Numbered, WellFormed, Continues, Opened;
      ok := true;
      match ev
      case TextDelta(text) =>
        if text != "" {
          ok := Content(Message, "", "", text);
        }
      case ReasoningDelta(text) =>
        if text != "" {
          ok := Content(Reasoning, "", "", text);
        }
      case ToolCall(id, name, input) =>
        ok := HandleCall(id, name, input);
      case Finish(reason, total, step) =>
        HandleFinish(reason, total, step);
      case Error(err) =>
        SameContent(st, Step(st, hex, ev));
        upstreamErr := Some(err);
        st := Step(st, hex, ev);
      case Quiet(stale) =>
        if sw.started && stale {
          ok := KeepAlive();
        }
      case _ =>
    }

    /** Reading the upstream until it ends or a write fails. */
    method Consume(events: seq<Event>) returns (ok: bool)
      requires Valid() && st == INITIAL && current == null
      modifies this, sw
      ensures st == Fold(hex, events)
      ensures current == null || fresh(current)
      ensures ok ==> Valid()
      ensures !ok ==> Broke(Bodies(st)) && st.created
    {
      hide Bodies, TextsOf, Stored, NoPings, Numbered, WellFormed, Step;
      ok := true;
      var i := 0;
      while i < |events| && ok
        invariant 0 <= i <= |events|
        invariant current == null || fresh(current)
        invariant st == Fold(hex, events[..i])
        invariant ok ==> Valid()
        invariant !ok ==> Broke(Bodies(st)) && st.created
      {
        ok := Handle(events[i]);
        assert events[..i + 1][..i] == events[..i];
        i := i + 1;
      }
      FoldGrows(hex, events, i);
      if ok {
        assert events[..i] == events;
      } else {
        CreatedStays(hex, events, i);
        st := Fold(hex, events);
      }
    }

    /** What follows the last event, once the open item is closed. */
    method Conclude(outcome: Ending) returns (reply: Reply)
      requires (Ready() && current == null && hasContent == st.created) || (Wired() && sw.failed && !outcome.Eof?)
      modifies this`seqNo, this`createdSent, this`st, this`shown, sw
      ensures Wired() && (reply.JsonError? ==> !sw.started)
      ensures old(sw.failed) ==> sw.failed && reply == NoReply && shown == old(shown)
      ensures !old(sw.failed) && sw.failed ==> shown <= AllBodies(old(st), outcome, timeoutMessage)
      ensures !sw.failed ==> shown == AllBodies(old(st), outcome, timeoutMessage)
      ensures !old(sw.failed) ==> reply == ReplyOf(old(st), outcome, timeoutMessage)
    {
      hide Bodies, NoPings, Numbered, Concat;
      reply := NoReply;
      if !sw.failed {
        CreatedShows(st);
        AllGrows(st, outcome, timeoutMessage);
      }
      match outcome
      case Cancelled =>
      case Idle =>
        if !sw.started {
          return JsonError(IdleError(timeoutMessage));
        }
        var _ := Emit(ErrorEvent("rate_limit_error", timeoutMessage));
      case Broken(message) =>
        if !sw.started {
          return JsonError(BrokenError(message));
        }
        var _ := Emit(ErrorEvent("proxy_error", message));
      case Eof =>
        if upstreamErr.Some? {
          if !sw.started {
            return JsonError(upstreamErr.value);
          }
          var _ := Emit(Failed(upstreamErr.value.message));
          return;
        }
        if !hasContent && outputTokens == 0 && !sw.started {
          return JsonError(EMPTY_ERROR);
        }
        var ok := StartResponse();
        if !ok {
          Prefix3(shown, Bodies(st), AllBodies(old(st), outcome, timeoutMessage));
          return;
        }
        assert textAcc == TextsOf(Stored(st.closed), Message);
        var _ := Emit(Final(finishReason == "length", doneItems, textAcc, BuildUsage(usage, outputTokens)));
    }

    /** A whole run. Whatever fails to be written, the client has seen the beginning of
        the frames the events call for, in order and numbered from 0; if every write
        succeeds it has seen all of them. A JSON error is sent only instead of a stream. No two
        items are announced under the same identifier. */
    method Run(events: seq<Event>, ending: Ending) returns (reply: Reply)
      requires Valid() && st == INITIAL && current == null
      modifies this, sw
      ensures NoPings(sw.wire) == Numbered(shown)
      ensures sw.wire != [] ==> !sw.wire[0].Ping?
      ensures sw.failed ==> shown <= AllBodies(Fold(hex, events), ending, timeoutMessage)
      ensures !sw.failed ==> shown == AllBodies(Fold(hex, events), ending, timeoutMessage)
      ensures ResponsesClient.Watch(sw.wire) != ResponsesClient.Rejected
      ensures reply == ReplyOf(Fold(hex, events), ending, timeoutMessage)
      ensures reply.JsonError? ==> sw.wire == []
      ensures Injective(hex) ==> Distinct(ResponsesIds.AddedIds(shown))
    {
      hide Bodies, NoPings, Numbered, TextsOf, Stored, WellFormed, Fold, Step, AllBodies;
      hide Distinct, ResponsesIds.AddedIds;
      var outcome := ending;
      ghost var s := Fold(hex, events);
      AllGrows(s, ending, timeoutMessage);
      ClosedAlready(s, ending, timeoutMessage);
      var ok := Consume(events);
      if !ok {
        outcome := Broken("client connection closed");
      }
      var closed := CloseItem();
      if !closed && outcome.Eof? {
        outcome := Broken("client connection closed");
      }
      reply := Conclude(outcome);
      assert shown <= AllBodies(s, ending, timeoutMessage);
      ResponsesClient.WireAccepted(hex, events, ending, timeoutMessage, sw.wire, shown);
      if Injective(hex) {
        ResponsesIds.ItemsDistinct(hex, events, ending, timeoutMessage, shown);
      }
    }
  }
}
