/** anthropic.go: the streaming translator. Its frames are those of AnthropicModel. */
module AnthropicStream {
  import opened Text
  import opened Upstream
  import opened Sse
  import opened AnthropicModel
  import AnthropicClient

  class Stream {
    const sw: SseWriter<Frame>
    const hex: Hex
    const sign: Sign
    const timeoutMessage: string
    var nextBlockIndex: int
    var curIndex: int
    var curType: Kind
    var blockStarted: bool
    var thinking: string
    var outputTokens: int
    var inputTokens: int
    var cachedInput: int
    var cacheWrite: int
    var noCacheTokens: int
    var stopReason: string
    var hasContent: bool
    var upstreamErr: Option<MappedError>
    var drawn: nat
    /** What the events handled so far stand for. */
    ghost var st: State
    /** The frames on the wire, pings aside. */
    ghost var shown: seq<Frame>

    constructor (sw: SseWriter<Frame>, hex: Hex, sign: Sign, timeoutMessage: string)
      requires !sw.started && !sw.failed && sw.pending == [] && sw.wire == []
      ensures Valid() && st == INITIAL
      ensures this.sw == sw && this.hex == hex && this.sign == sign && this.timeoutMessage == timeoutMessage
    {
      this.sw, this.hex, this.sign, this.timeoutMessage := sw, hex, sign, timeoutMessage;
      nextBlockIndex, curIndex, curType, blockStarted, thinking := 0, 0, TextBlock, false, "";
      outputTokens, inputTokens, cachedInput, cacheWrite, noCacheTokens := 0, 0, 0, 0, -1;
      stopReason, hasContent, upstreamErr, drawn := "", false, None, 0;
      st, shown := INITIAL, [];
    }

    /** No ping comes first, and nothing is on the wire before the response starts. */
    ghost predicate Wired()
      reads this, sw
    {
      && shown == NoPings(sw.wire)
      && (sw.wire != [] ==> !sw.wire[0].Ping?)
      && (!sw.started ==> sw.wire == [])
      && (!sw.failed ==> sw.pending == [])
      && (sw.failed ==> sw.started)
    }

    /** The fields that do not depend on the writer agree with the state. */
    ghost predicate Tracks(s: State)
      reads this
    {
      && nextBlockIndex == |s.closed| + (if s.open.Some? then 1 else 0)
      && blockStarted == s.open.Some?
      && (blockStarted ==> curIndex == |s.closed| && curType == s.open.value.kind)
      && thinking == (if s.open.Some? && s.open.value.kind == ThinkingBlock then Concat(s.open.value.chunks) else "")
      && outputTokens == s.outputTokens && inputTokens == s.inputTokens && cachedInput == s.cachedInput
      && cacheWrite == s.cacheWrite && noCacheTokens == s.noCache && stopReason == s.stopReason
      && upstreamErr == s.failure && drawn == s.drawn
    }

    ghost predicate Ready()
      reads this, sw
    {
      && Wired() && !sw.failed && Tracks(st) && WellFormed(st)
      && sw.started == st.begun && shown == Frames(st, sign)
    }

    ghost predicate Valid()
      reads this, sw
    {
      Ready() && hasContent == st.begun
    }

    /** A write failed with no more than a part of these frames shown. */
    ghost predicate Broke(goal: seq<Frame>)
      reads this, sw
    {
      Wired() && sw.failed && shown <= goal
    }

    method Emit(f: Frame) returns (ok: bool)
      requires Wired() && sw.started && !f.Ping?
      modifies this`shown, sw
      ensures Wired() && sw.started && ok == !sw.failed
      ensures old(sw.failed) ==> sw.failed && sw.wire == old(sw.wire)
      ensures shown == if ok then old(shown) + [f] else old(shown)
    {
      WithoutSnoc(sw.wire, f, IsPing);
      ok := sw.Write(f);
      shown := NoPings(sw.wire);
    }

    /** writeAnthropicMessageStart. */
    method WriteMessageStart() returns (ok: bool)
      requires Ready() && !sw.started
      modifies this`shown, this`st, sw
      ensures st == old(st).(begun := true)
      ensures ok ==> Ready()
      ensures !ok ==> Broke([MessageStart])
    {
      hide Frames, NoPings, WellFormed;
      BegunShows(st, sign);
      ok := sw.Start();
      if !ok {
        return;
      }
      assert sw.wire == old(sw.wire);
      ok := Emit(MessageStart);
      st := st.(begun := true);
    }

    /** closeBlock: the signature of a thinking block, and the stop frame.
        On a dead connection it changes nothing the client sees. */
    method CloseBlock() returns (ok: bool)
      requires Ready() || (Wired() && sw.failed)
      modifies this`blockStarted, this`curType, this`thinking, this`st, this`shown, sw
      ensures !blockStarted && sw.started == old(sw.started)
      ensures old(sw.failed) ==> Wired() && sw.failed && shown == old(shown)
      ensures !old(sw.failed) ==> st == Close(old(st))
      ensures ok && !old(sw.failed) ==> Ready()
      ensures !ok && !old(sw.failed) ==> Broke(Frames(st, sign))
    {
      hide Frames, NoPings, Concat;
      if !blockStarted {
        return true;
      }
      var idx, kind := curIndex, curType;
      blockStarted, curType := false, TextBlock;
      if !sw.failed {
        CloseGrows(st, sign);
        CloseKeepsWellFormed(st);
        assert st.begun && Proper(st.open.value);
        st := Close(st);
      }
      ok := EmitTail(idx, kind);
    }

    method EmitTail(idx: int, kind: Kind) returns (ok: bool)
      requires Wired() && sw.started
      modifies this`shown, this`thinking, sw
      ensures Wired() && sw.started && ok == !sw.failed
      ensures old(sw.failed) ==> shown == old(shown)
      ensures var signed := kind == ThinkingBlock && old(thinking) != "";
        var tail := (if signed then [Signature(idx, sign(old(thinking)))] else []) + [BlockStop(idx)];
        && thinking == (if signed then "" else old(thinking))
        && (ok ==> shown == old(shown) + tail)
        && (!ok ==> old(shown) <= shown <= old(shown) + tail)
    {
      hide NoPings;
      if kind == ThinkingBlock && thinking != "" {
        var sig := sign(thinking);
        thinking := "";
        ok := Emit(Signature(idx, sig));
        if !ok {
          return;
        }
      }
      ok := Emit(BlockStop(idx));
    }

    /** A new block takes the next index. */
    method Announce(kind: Kind) returns (ok: bool)
      requires Ready() && sw.started && !blockStarted && kind != ToolBlock
      modifies this`nextBlockIndex, this`curIndex, this`curType, this`blockStarted, this`st, this`shown, sw
      ensures st == Opened(old(st), kind) && sw.started
      ensures ok ==> Wired() && !sw.failed && Tracks(st) && shown == Frames(st, sign)
      ensures !ok ==> Broke(Frames(st, sign))
    {
      hide Frames, NoPings, Concat, WellFormed;
      OpenGrows(st, sign, kind);
      ConcatNone();
      curIndex := nextBlockIndex;
      nextBlockIndex := nextBlockIndex + 1;
      curType, blockStarted := kind, true;
      st := Opened(st, kind);
      assert Tracks(st);
      ok := Emit(BlockStart(curIndex, kind, "", ""));
    }

    /** startBlock: keeps the open block if it is of this kind, else starts another. */
    method StartBlock(kind: Kind) returns (ok: bool)
      requires Ready() && sw.started && kind != ToolBlock
      modifies this`nextBlockIndex, this`curIndex, this`curType, this`blockStarted, this`thinking
      modifies this`st, this`shown, sw
      ensures st == Opened(old(st), kind) && sw.started
      ensures ok ==> Wired() && !sw.failed && Tracks(st) && shown == Frames(st, sign)
      ensures !ok ==> Broke(Frames(st, sign))
    {
      hide Frames, NoPings, Concat, WellFormed;
      if blockStarted && curType == kind {
        return true;
      }
      ghost var s := st;
      OpenGrows(s, sign, kind);
      ok := CloseBlock();
      if ok {
        ok := Announce(kind);
      }
      st := Opened(s, kind);
    }

    /** A non-empty piece of text or thinking. */
    method Piece(kind: Kind, text: string) returns (ok: bool)
      requires Ready() && sw.started && text != "" && kind != ToolBlock
      modifies this, sw
      ensures st == WithPiece(old(st), kind, text) && sw.started && hasContent == old(hasContent)
      ensures ok ==> Ready()
      ensures !ok ==> Broke(Frames(st, sign))
    {
      hide Frames, NoPings, Concat, WellFormed, Opened;
      ghost var s := st;
      BegunShows(s, sign);
      PieceGrows(s, sign, kind, text);
      PieceKeepsWellFormed(s, kind, text);
      ok := StartBlock(kind);
      if ok {
        OpenedIs(s, kind);
        ConcatSnoc(st.open.value.chunks, text);
        if kind == ThinkingBlock {
          thinking := thinking + text;
        }
        ok := Emit(BlockDelta(curIndex, kind, text));
      }
      st := WithPiece(s, kind, text);
    }

    /** A tool call: one block, started, filled and stopped. */
    method Tool(id: string, name: string, args: string) returns (ok: bool)
      requires Ready() && sw.started && args != ""
      modifies this, sw
      ensures st == WithTool(old(st), hex, id, name, args) && sw.started && hasContent == old(hasContent)
      ensures ok ==> Ready()
      ensures !ok ==> Broke(Frames(st, sign))
    {
      hide Frames, NoPings, Concat, WellFormed;
      ghost var s := st;
      BegunShows(s, sign);
      ToolGrows(s, sign, hex, id, name, args);
      ToolKeepsWellFormed(s, hex, id, name, args);
      ok := CloseBlock();
      st := WithTool(s, hex, id, name, args);
      if !ok {
        PrefixSnoc(shown, Frames(Close(s), sign),
                   ToolFrames(|Close(s).closed|, st.closed[|st.closed| - 1].id, name, args));
        return;
      }
      var toolID := id;
      if toolID == "" {
        toolID := "toolu_" + hex(drawn);
        drawn := drawn + 1;
      }
      var idx := nextBlockIndex;
      nextBlockIndex := nextBlockIndex + 1;
      ok := EmitTool(idx, toolID, name, args);
      assert ok ==> Tracks(st);
    }

    method EmitTool(idx: int, toolID: string, name: string, args: string) returns (ok: bool)
      requires Wired() && sw.started
      modifies this`shown, this`outputTokens, sw
      ensures Wired() && sw.started && ok == !sw.failed
      ensures ok ==> shown == old(shown) + ToolFrames(idx, toolID, name, args)
      ensures ok ==> outputTokens == old(outputTokens) + 20
      ensures !ok ==> old(shown) <= shown <= old(shown) + ToolFrames(idx, toolID, name, args)
    {
      hide NoPings;
      ok := Emit(BlockStart(idx, ToolBlock, toolID, name));
      if !ok {
        return;
      }
      outputTokens := outputTokens + 20;
      ok := DeltaToolInput(idx, args);
    }

    method DeltaToolInput(idx: int, partial: string) returns (ok: bool)
      requires Wired() && sw.started
      modifies this`shown, sw
      ensures Wired() && sw.started && ok == !sw.failed
      ensures ok ==> shown == old(shown) + [BlockDelta(idx, ToolBlock, partial), BlockStop(idx)]
      ensures !ok ==> old(shown) <= shown <= old(shown) + [BlockDelta(idx, ToolBlock, partial), BlockStop(idx)]
    {
      hide NoPings;
      ok := Emit(BlockDelta(idx, ToolBlock, partial));
      if ok {
        ok := Emit(BlockStop(idx));
      }
    }

    /** A content event, once it is known to be non-empty: the message begins if it has not. */
    method Begin() returns (ok: bool)
      requires Valid()
      modifies this`hasContent, this`shown, this`st, sw
      ensures st == old(st).(begun := true) && hasContent
      ensures ok ==> Valid() && sw.started
      ensures !ok ==> Broke([MessageStart]) && !old(st.begun)
    {
      hide Frames, NoPings;
      BegunShows(st, sign);
      hasContent := true;
      ok := true;
      if !sw.started {
        ok := WriteMessageStart();
      }
    }

    method HandleText(kind: Kind, text: string) returns (ok: bool)
      requires Valid() && text != "" && kind != ToolBlock
      modifies this, sw
      ensures st == WithPiece(old(st), kind, text) && st.begun
      ensures ok ==> Valid()
      ensures !ok ==> Broke(Frames(st, sign))
    {
      hide Frames, NoPings, WellFormed, WithPiece;
      ghost var s := st;
      StepBegins(s, hex, Unknown);
      BegunPieces(s, sign, kind, text);
      ok := Begin();
      if ok {
        ok := Piece(kind, text);
      } else {
        Prefix3(shown, [MessageStart], Frames(WithPiece(s, kind, text), sign));
      }
      st := WithPiece(s, kind, text);
    }

    method HandleCall(id: string, name: string, input: Input) returns (ok: bool)
      requires Valid()
      modifies this, sw
      ensures st == Step(old(st), hex, ToolCall(id, name, input)) && st.begun
      ensures ok ==> Valid()
      ensures !ok ==> Broke(Frames(st, sign))
    {
      hide Frames, NoPings, WellFormed, WithTool;
      ghost var s := st;
      var args := ToolArgs(input);
      StepBegins(s, hex, Unknown);
      BegunTool(s, sign, hex, id, name, args);
      ok := Begin();
      if ok {
        ok := Tool(id, name, args);
      } else {
        Prefix3(shown, [MessageStart], Frames(WithTool(s, hex, id, name, args), sign));
      }
      st := WithTool(s, hex, id, name, args);
    }

    method RecordReason(reason: string)
      requires Valid()
      modifies this`stopReason, this`st
      ensures Valid() && st == WithReason(old(st), reason)
    {
      hide Frames, NoPings, WellFormed, Concat, MapFinishReason, MapAnthropicStopReason;
      SameContent(st, WithReason(st, reason), sign);
      if reason != "" {
        stopReason := MapAnthropicStopReason(MapFinishReason(reason));
      }
      st := WithReason(st, reason);
    }

    method RecordCounts(u: Usage)
      modifies this`outputTokens, this`inputTokens, this`cachedInput, this`cacheWrite, this`noCacheTokens
      ensures var t := WithUsage(st, u);
        && (outputTokens == if u.output > 0 then t.outputTokens else old(outputTokens))
        && inputTokens == t.inputTokens && cachedInput == t.cachedInput && cacheWrite == t.cacheWrite
        && noCacheTokens == if u.details.Some? && u.details.value.noCache.Some? then t.noCache else old(noCacheTokens)
    {
      if u.output > 0 {
        outputTokens := u.output;
      }
      inputTokens, cachedInput, cacheWrite := u.input, CacheRead(u), CacheWrite(u);
      if u.details.Some? && u.details.value.noCache.Some? {
        noCacheTokens := u.details.value.noCache.value;
      }
    }

    method RecordUsage(u: Usage)
      requires Valid()
      modifies this`outputTokens, this`inputTokens, this`cachedInput, this`cacheWrite, this`noCacheTokens, this`st
      ensures Valid() && st == WithUsage(old(st), u)
    {
      hide Frames, NoPings, WellFormed, Concat, WithUsage;
      ghost var t := WithUsage(st, u);
      UsageKeeps(st, u);
      SameContent(st, t, sign);
      RecordCounts(u);
      st := t;
    }

    /** finish and finish-step: only bookkeeping. */
    method HandleReport(reason: string, total: Option<Usage>, step: Option<Usage>)
      requires Valid()
      modifies this`stopReason, this`outputTokens, this`inputTokens, this`cachedInput, this`cacheWrite,
               this`noCacheTokens, this`st
      ensures Valid() && st == WithReport(old(st), reason, ReportedUsage(total, step))
    {
      hide Valid, WithReason, WithUsage, Normalize;
      RecordReason(reason);
      var reported := total;
      if reported.None? {
        reported := step;
      }
      if reported.Some? {
        RecordUsage(Normalize(reported.value));
      }
    }

    method KeepAlive() returns (ok: bool)
      requires Valid() && sw.started
      modifies sw
      ensures ok ==> Valid()
      ensures !ok ==> Broke(shown) && st.begun
    {
      hide Frames, WellFormed;
      BegunShows(st, sign);
      WithoutSnoc(sw.wire, Ping, IsPing);
      ok := sw.Write(Ping);
    }

    /** The callback run on every decoded upstream event. */
    method Handle(ev: Event) returns (ok: bool)
      requires Valid()
      modifies this, sw
      ensures st == Step(old(st), hex, ev)
      ensures ok ==> Valid()
      ensures !ok ==> Broke(Frames(st, sign)) && st.begun
    {
      hide Frames, NoPings, WellFormed, WithPiece, WithTool, WithReport;
      ok := true;
      match ev
      case TextDelta(text) =>
        if text != "" {
          ghost var w := WithPiece(st, TextBlock, text);
          SameContent(w, w.(outputTokens := w.outputTokens + 1), sign);
          ok := HandleText(TextBlock, text);
          outputTokens := outputTokens + 1;
          st := st.(outputTokens := st.outputTokens + 1);
        }
      case ReasoningDelta(text) =>
        if text != "" {
          ok := HandleText(ThinkingBlock, text);
        }
      case ToolCall(id, name, input) =>
        ok := HandleCall(id, name, input);
      case FinishStep(reason, total, step) =>
        HandleReport(reason, total, step);
      case Finish(reason, total, step) =>
        HandleReport(reason, total, step);
      case Error(err) =>
        SameContent(st, Step(st, hex, ev), sign);
        upstreamErr := Some(err);
        st := Step(st, hex, ev);
      case Quiet(stale) =>
        if sw.started && stale {
          ok := KeepAlive();
        }
      case Unknown =>
    }

    /** Reading the upstream until it ends or a write fails. */
    method Consume(events: seq<Event>) returns (ok: bool)
      requires Valid() && st == INITIAL
      modifies this, sw
      ensures st == Fold(hex, events)
      ensures ok ==> Valid()
      ensures !ok ==> Broke(Frames(st, sign)) && st.begun
    {
      hide Frames, NoPings, WellFormed, Step;
      ok := true;
      var i := 0;
      while i < |events| && ok
        invariant 0 <= i <= |events|
        invariant st == Fold(hex, events[..i])
        invariant ok ==> Valid()
        invariant !ok ==> Broke(Frames(st, sign)) && st.begun
      {
        ok := Handle(events[i]);
        assert events[..i + 1][..i] == events[..i];
        i := i + 1;
      }
      FoldGrows(sign, hex, events, i);
      if ok {
        assert events[..i] == events;
      } else {
        st := Fold(hex, events);
      }
    }

    /** What follows the last event, once the open block is closed. */
    method Conclude(outcome: Ending) returns (reply: Reply)
      requires (Valid() && !blockStarted) || (Wired() && sw.failed)
      modifies this`st, this`shown, sw
      ensures Wired() && (reply.JsonError? ==> !sw.started)
      ensures old(sw.failed) ==> sw.failed && reply == NoReply && shown == old(shown)
      ensures !old(sw.failed) && sw.failed ==> shown <= AllFrames(old(st), sign, outcome, timeoutMessage)
      ensures !sw.failed ==> shown == AllFrames(old(st), sign, outcome, timeoutMessage)
      ensures !old(sw.failed) ==> reply == ReplyOf(old(st), outcome, timeoutMessage)
    {
      hide Frames, NoPings, Concat, WellFormed;
      reply := NoReply;
      ghost var s := st;
      if !sw.failed {
        BegunShows(s, sign);
        AllGrows(s, sign, outcome, timeoutMessage);
      }
      match outcome
      case Cancelled =>
      case Idle =>
        if !sw.started {
          return JsonError(IdleError(timeoutMessage));
        }
        var _ := Emit(ErrorEvent("rate_limit_error", timeoutMessage, 5));
      case Broken(message) =>
        if !sw.started {
          return JsonError(BrokenError(message));
        }
        var _ := Emit(ErrorEvent("internal_error", message, 0));
      case Eof =>
        reply := Complete();
    }

    method Complete() returns (reply: Reply)
      requires (Valid() && !blockStarted) || (Wired() && sw.failed)
      modifies this`st, this`shown, sw
      ensures Wired() && (reply.JsonError? ==> !sw.started)
      ensures old(sw.failed) ==> sw.failed && reply == NoReply && shown == old(shown)
      ensures !old(sw.failed) && sw.failed ==> shown <= AllFrames(old(st), sign, Eof, timeoutMessage)
      ensures !sw.failed ==> shown == AllFrames(old(st), sign, Eof, timeoutMessage)
      ensures !old(sw.failed) ==> reply == ReplyOf(old(st), Eof, timeoutMessage)
    {
      hide Frames, NoPings, Concat, WellFormed;
      reply := NoReply;
      ghost var s := st;
      if !sw.failed {
        BegunShows(s, sign);
        AllGrows(s, sign, Eof, timeoutMessage);
      }
      if upstreamErr.Some? {
        if !sw.started {
          return JsonError(upstreamErr.value);
        }
        var _ := Emit(ErrorEvent(upstreamErr.value.typ, upstreamErr.value.message, 0));
        return;
      }
      if outputTokens == 0 && !hasContent {
        if !sw.started {
          return JsonError(EMPTY_ERROR);
        }
        return;
      }
      if !sw.started {
        var ok := WriteMessageStart();
        if !ok {
          Prefix3(shown, [MessageStart], AllFrames(s, sign, Eof, timeoutMessage));
          return;
        }
      }
      var input := noCacheTokens;
      if input < 0 {
        input := inputTokens - cachedInput - cacheWrite;
        if input < 0 {
          input := 0;
        }
      }
      var usage := DeltaUsage(outputTokens, cachedInput, cacheWrite, input);
      EmitEnds(OrDefault(stopReason, "end_turn"), usage);
    }

    method EmitEnds(reason: string, usage: DeltaUsage)
      requires Wired() && sw.started
      modifies this`shown, sw
      ensures Wired() && sw.started
      ensures old(sw.failed) ==> sw.failed && shown == old(shown)
      ensures !sw.failed ==> shown == old(shown) + [MessageDelta(reason, usage), MessageStop]
      ensures sw.failed ==> old(shown) <= shown <= old(shown) + [MessageDelta(reason, usage), MessageStop]
    {
      hide NoPings;
      var ok := Emit(MessageDelta(reason, usage));
      if ok {
        var _ := Emit(MessageStop);
      }
    }

    /** A whole run. Whatever fails to be written, the client has seen the beginning of the
        frames the events call for; if every write succeeds it has seen all of them. A JSON
        error is sent only on runs that put nothing on the wire. */
    method Run(events: seq<Event>, ending: Ending) returns (reply: Reply)
      requires Valid() && st == INITIAL
      modifies this, sw
      ensures sw.failed ==> NoPings(sw.wire) <= AllFrames(Fold(hex, events), sign, ending, timeoutMessage)
      ensures !sw.failed ==> NoPings(sw.wire) == AllFrames(Fold(hex, events), sign, ending, timeoutMessage)
      ensures AnthropicClient.Follow(AnthropicClient.NEW_CLIENT, sign, sw.wire) != AnthropicClient.Rejected
      ensures reply == ReplyOf(Fold(hex, events), ending, timeoutMessage)
      ensures reply.JsonError? ==> sw.wire == []
    {
      hide Frames, NoPings, WellFormed, Fold, AllFrames;
      var outcome := ending;
      ghost var s := Fold(hex, events);
      FoldWellFormed(hex, events);
      AllGrows(s, sign, ending, timeoutMessage);
      ClosedAlready(s, sign, ending, timeoutMessage);
      var ok := Consume(events);
      var closed := CloseBlock();
      if !closed {
        // The error of a broken connection replaces any other; it is reported only if it is new.
        outcome := if ok then Broken("write failed") else Eof;
      } else if !ok {
        outcome := Broken("write failed");
      }
      reply := Conclude(outcome);
      assert shown <= AllFrames(s, sign, ending, timeoutMessage);
      AnthropicClient.WireFollowed(sign, hex, events, ending, timeoutMessage, sw.wire);
    }
  }
}
