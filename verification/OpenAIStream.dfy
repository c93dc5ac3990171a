/** openai.go: the streaming translator. Its frames are those of OpenAIModel. */
module OpenAIStream {
  import opened Text
  import opened Upstream
  import opened Sse
  import opened OpenAIModel

  class Stream {
    const sw: SseWriter<Frame>
    const hex: Hex
    const includeUsage: bool
    const timeoutMessage: string
    var toolCallIndex: int
    var sentRole: bool
    var finishReason: string
    var usage: Option<Usage>
    var hasContent: bool
    var upstreamErr: Option<MappedError>
    /** What the events handled so far call for. */
    ghost var st: State
    /** The frames on the wire, keep-alives aside. */
    ghost var shown: seq<Frame>

    constructor (sw: SseWriter<Frame>, hex: Hex, includeUsage: bool, timeoutMessage: string)
      requires !sw.started && !sw.failed && sw.pending == [] && sw.wire == []
      ensures Valid() && st == INITIAL
      ensures this.sw == sw && this.hex == hex && this.includeUsage == includeUsage
      ensures this.timeoutMessage == timeoutMessage
    {
      this.sw, this.hex, this.includeUsage, this.timeoutMessage := sw, hex, includeUsage, timeoutMessage;
      toolCallIndex, sentRole, finishReason, usage := 0, false, "", None;
      hasContent, upstreamErr := false, None;
      st, shown := INITIAL, [];
    }

    ghost predicate Wired()
      reads this, sw
    {
      && shown == NoPings(sw.wire)
      && (!sw.started ==> sw.wire == [])
      && (!sw.failed ==> sw.pending == [])
      && (sw.failed ==> sw.started)
    }

    ghost predicate Valid()
      reads this, sw
    {
      && Wired() && !sw.failed
      && shown == st.chunks && sw.started == (st.chunks != [])
      && toolCallIndex == st.toolCallIndex && sentRole == st.sentRole && finishReason == st.finishReason
      && usage == st.usage && upstreamErr == st.failure
      && hasContent == sentRole && (hasContent ==> st.chunks != [])
      && (st.chunks != [] && !hasContent ==> usage.Some?)
    }

    /** A write failed with no more than a part of these frames shown. */
    ghost predicate Broke(goal: seq<Frame>)
      reads this, sw
    {
      Wired() && sw.failed && shown <= goal
    }

    method Emit(f: Frame) returns (ok: bool)
      requires Wired() && !f.KeepAlive? && (!sw.started ==> shown == [])
      modifies this`shown, sw
      ensures Wired() && sw.started && ok == !sw.failed
      ensures old(sw.failed) ==> sw.failed
      ensures shown == if ok then old(shown) + [f] else old(shown)
    {
      hide Without;
      ok := sw.Start();
      if !ok {
        return;
      }
      assert sw.wire == old(sw.wire);
      WithoutSnoc(sw.wire, f, IsPing);
      ok := sw.Write(f);
      shown := NoPings(sw.wire);
    }

    /** A chunk with a non-empty delta; the first one carries the role. */
    method EmitDelta(delta: Delta) returns (ok: bool)
      requires Valid()
      modifies this`hasContent, this`sentRole, this`shown, this`st, sw
      ensures st == WithDelta(old(st), delta)
      ensures ok ==> Valid()
      ensures !ok ==> Broke(st.chunks)
    {
      hide NoPings;
      hasContent := true;
      var role := !sentRole;
      sentRole := true;
      ok := Emit(Chunk(role, delta, "", None));
      st := WithDelta(st, delta);
    }

    method EmitCall(id: string, name: string, input: Input) returns (ok: bool)
      requires Valid()
      modifies this, sw
      ensures st == Step(old(st), hex, includeUsage, ToolCall(id, name, input))
      ensures ok ==> Valid()
      ensures !ok ==> Broke(st.chunks)
    {
      hide NoPings;
      var callID := id;
      if callID == "" {
        callID := "call_" + hex(toolCallIndex);
      }
      ok := EmitDelta(ToolCalls(toolCallIndex, Call(callID, name, ToolArgs(input))));
      toolCallIndex := toolCallIndex + 1;
      st := st.(toolCallIndex := st.toolCallIndex + 1);
    }

    method HandleFinishStep(reason: string, step: Option<Usage>)
      requires Valid()
      modifies this`finishReason, this`usage, this`st
      ensures Valid()
      ensures st == Step(old(st), hex, includeUsage, FinishStep(reason, None, step))
    {
      hide NoPings;
      if reason != "" {
        finishReason := MapFinishReason(reason);
      }
      if step.Some? {
        usage := Some(Normalize(step.value));
      }
      st := Step(st, hex, includeUsage, FinishStep(reason, None, step));
    }

    method HandleFinish(reason: string, total: Option<Usage>, step: Option<Usage>) returns (ok: bool)
      requires Valid()
      modifies this`usage, this`shown, this`st, sw
      ensures st == Step(old(st), hex, includeUsage, Finish(reason, total, step))
      ensures ok ==> Valid()
      ensures !ok ==> Broke(st.chunks)
    {
      hide NoPings;
      var fr := finishReason;
      if fr == "" {
        fr := MapFinishReason(reason);
      }
      var u := total;
      if u.None? {
        u := step;
      }
      if u.None? {
        u := usage;
      }
      if u.None? {
        u := Some(NO_USAGE);
      }
      u := Some(Normalize(u.value));
      usage := u;
      ok := Emit(Chunk(false, NoDelta, fr, if includeUsage then None else Some(CountsOf(u.value))));
      st := Step(st, hex, includeUsage, Finish(reason, total, step));
    }

    /** The callback run on every decoded upstream event. */
    method Handle(ev: Event) returns (ok: bool)
      requires Valid()
      modifies this, sw
      ensures st == Step(old(st), hex, includeUsage, ev)
      ensures ok ==> Valid()
      ensures !ok ==> Broke(st.chunks) && st.chunks != []
    {
      hide Without;
      ok := true;
      match ev
      case TextDelta(text) =>
        if text != "" {
          ok := EmitDelta(Content(text));
        }
      case ReasoningDelta(text) =>
        if text != "" {
          ok := EmitDelta(ReasoningContent(text));
        }
      case ToolCall(id, name, input) => ok := EmitCall(id, name, input);
      case FinishStep(reason, total, step) => HandleFinishStep(reason, step);
      case Finish(reason, total, step) => ok := HandleFinish(reason, total, step);
      case Error(err) =>
        upstreamErr := Some(err);
        st := st.(failure := Some(err));
      case Quiet(stale) =>
        if sw.started && stale {
          WithoutSnoc(sw.wire, KeepAlive, IsPing);
          assert NoPings(sw.wire) + [] == NoPings(sw.wire);
          ok := sw.Write(KeepAlive);
        }
      case Unknown =>
    }

    /** Reading the upstream until it ends or a write fails. */
    method Consume(events: seq<Event>) returns (ok: bool)
      requires Valid() && st == INITIAL
      modifies this, sw
      ensures st == Fold(hex, includeUsage, events)
      ensures ok ==> Valid()
      ensures !ok ==> Broke(st.chunks) && st.chunks != []
    {
      hide NoPings, Step;
      ok := true;
      var i := 0;
      while i < |events| && ok
        invariant 0 <= i <= |events|
        invariant st == Fold(hex, includeUsage, events[..i])
        invariant ok ==> Valid()
        invariant !ok ==> Broke(st.chunks) && st.chunks != []
      {
        ok := Handle(events[i]);
        assert events[..i + 1][..i] == events[..i];
        i := i + 1;
      }
      FoldGrows(hex, includeUsage, events, i);
      if ok {
        assert events[..i] == events;
      } else {
        Prefix3(shown, st.chunks, Fold(hex, includeUsage, events).chunks);
        st := Fold(hex, includeUsage, events);
      }
    }

    /** streamErrorFrame, or a JSON error if nothing has been streamed. */
    method Fail(err: MappedError, frame: Frame) returns (reply: Reply)
      requires (Valid() || (Wired() && sw.failed)) && frame.ErrorFrame?
      modifies this`shown, sw
      ensures Wired() && (reply.JsonError? ==> !sw.started)
      ensures old(sw.failed) ==> sw.failed && reply == NoReply && shown == old(shown)
      ensures !old(sw.failed) ==> reply == if st.chunks == [] then JsonError(err) else NoReply
      ensures !old(sw.failed) && sw.failed ==> shown == st.chunks
      ensures !sw.failed ==> shown == if st.chunks == [] then [] else st.chunks + [frame]
    {
      hide NoPings;
      reply := NoReply;
      if !sw.started {
        return JsonError(err);
      }
      var _ := Emit(frame);
    }

    /** The end of a run that read everything. */
    method Complete() returns (reply: Reply)
      requires Valid()
      modifies this`shown, sw
      ensures Wired() && (reply.JsonError? ==> !sw.started)
      ensures sw.failed ==> shown <= AllFrames(st, includeUsage, Eof, timeoutMessage)
      ensures !sw.failed ==> shown == AllFrames(st, includeUsage, Eof, timeoutMessage)
      ensures reply == ReplyOf(st, Eof, timeoutMessage)
    {
      hide NoPings;
      reply := NoReply;
      if upstreamErr.Some? {
        var e := upstreamErr.value;
        reply := Fail(e, ErrorFrame(e.typ, e.message, e.retryAfter));
        return;
      }
      if !hasContent && usage.None? {
        if !sw.started {
          return JsonError(EMPTY_ERROR);
        }
      }
      if includeUsage && usage.Some? {
        var _ := Emit(UsageChunk(CountsOf(usage.value)));
      }
      var _ := Emit(DoneMark);
    }

    /** A whole run. Whatever fails to be written, the client has seen the beginning of the
        frames the events call for; if every write succeeds it has seen all of them. A JSON
        error is sent only on runs that put nothing on the wire. */
    method Run(events: seq<Event>, ending: Ending) returns (reply: Reply)
      requires Valid() && st == INITIAL
      modifies this, sw
      ensures var all := AllFrames(Fold(hex, includeUsage, events), includeUsage, ending, timeoutMessage);
        && (sw.failed ==> NoPings(sw.wire) <= all)
        && (!sw.failed ==> NoPings(sw.wire) == all)
      ensures Follow(sw.wire) != Rejected
      ensures reply == ReplyOf(Fold(hex, includeUsage, events), ending, timeoutMessage)
      ensures reply.JsonError? ==> sw.wire == []
    {
      hide NoPings, Fold, Follow;
      ghost var all := AllFrames(Fold(hex, includeUsage, events), includeUsage, ending, timeoutMessage);
      AllGrows(Fold(hex, includeUsage, events), includeUsage, ending, timeoutMessage);
      var ok := Consume(events);
      reply := NoReply;
      if !ok {
        reply := Fail(BrokenError("write failed"), ErrorFrame("proxy_error", "write failed", 0));
        Prefix3(shown, st.chunks, all);
      } else {
        match ending
        case Cancelled =>
        case Idle =>
          reply := Fail(IdleError(timeoutMessage), ErrorFrame("rate_limit_error", timeoutMessage, 5));
        case Broken(message) =>
          reply := Fail(BrokenError(message), ErrorFrame("proxy_error", message, 0));
        case Eof =>
          reply := Complete();
      }
      assert shown <= all;
      AllFollowed(hex, includeUsage, events, ending, timeoutMessage);
      FollowPrefix(shown, all);
      FollowIgnoresPings(sw.wire);
    }
  }
}
