/** A client of the Anthropic message stream. It follows the frames one by one, rebuilds every
    block from its deltas, checks each signature against the thinking text it has rebuilt, and
    refuses any frame that is out of order or carries the wrong index. */
module AnthropicClient {
  import opened Text
  import opened Upstream
  import opened AnthropicModel

  datatype Done = Done(kind: Kind, id: string, name: string, text: string)

  datatype Stage = Waiting | Between | InBlock | Signed | Reported | Ended

  datatype Client =
    | Rejected
    | Client(stage: Stage, blocks: seq<Done>, cur: Done, deltas: nat, stopReason: string,
             usage: Option<DeltaUsage>, trouble: Option<Trouble>)

  const BLANK := Done(TextBlock, "", "", "")
  const NEW_CLIENT := Client(Waiting, [], BLANK, 0, "", None, None)

  function Receive(c: Client, sign: Sign, f: Frame): Client {
    if c.Rejected? then Rejected else
      match f
      case Ping => if c.stage != Waiting then c else Rejected
      case MessageStart => if c.stage == Waiting then c.(stage := Between) else Rejected
      case BlockStart(index, kind, id, name) =>
        if c.stage == Between && index == |c.blocks| then
          c.(stage := InBlock, cur := Done(kind, id, name, ""), deltas := 0)
        else Rejected
      case BlockDelta(index, kind, text) =>
        if c.stage == InBlock && index == |c.blocks| && kind == c.cur.kind then
          c.(cur := c.cur.(text := c.cur.text + text), deltas := c.deltas + 1)
        else Rejected
      case Signature(index, signature) =>
        if c.stage == InBlock && index == |c.blocks| && c.cur.kind == ThinkingBlock && c.deltas > 0
           && signature == sign(c.cur.text) then
          c.(stage := Signed)
        else Rejected
      case BlockStop(index) =>
        if c.stage == (if c.cur.kind == ThinkingBlock then Signed else InBlock) && index == |c.blocks|
           && c.deltas > 0 then
          c.(stage := Between, blocks := c.blocks + [c.cur], cur := BLANK, deltas := 0)
        else Rejected
      case MessageDelta(reason, usage) =>
        if c.stage == Between then c.(stage := Reported, stopReason := reason, usage := Some(usage)) else Rejected
      case MessageStop => if c.stage == Reported then c.(stage := Ended) else Rejected
      case ErrorEvent(typ, message, retryAfter) =>
        if c.stage == Between then c.(stage := Ended, trouble := Some(Trouble(typ, message, retryAfter)))
        else Rejected
  }

  function Follow(c: Client, sign: Sign, frames: seq<Frame>): Client {
    if frames == [] then c else
      Receive(Follow(c, sign, frames[..|frames| - 1]), sign, frames[|frames| - 1])
  }

  lemma {:induction false} FollowSplit(c: Client, sign: Sign, a: seq<Frame>, b: seq<Frame>)
    ensures Follow(c, sign, a + b) == Follow(Follow(c, sign, a), sign, b)
    decreases |b|
  {
    if b == [] {
      assert a + b == a;
    } else {
      var m := |b| - 1;
      assert (a + b)[..|a| + m] == a + b[..m];
      FollowSplit(c, sign, a, b[..m]);
    }
  }

  lemma {:induction false} FollowPrefix(c: Client, sign: Sign, a: seq<Frame>, b: seq<Frame>)
    requires a <= b && Follow(c, sign, b) != Rejected
    ensures Follow(c, sign, a) != Rejected
    decreases |b|
  {
    if a != b {
      assert a <= b[..|b| - 1];
      FollowPrefix(c, sign, a, b[..|b| - 1]);
    }
  }

  lemma FollowTwo(c: Client, sign: Sign, a: Frame, b: Frame)
    ensures Follow(c, sign, [a]) == Receive(c, sign, a)
    ensures Follow(c, sign, [a, b]) == Receive(Receive(c, sign, a), sign, b)
  {
    assert [a][..0] == [];
    assert [a, b][..1] == [a];
  }

  lemma FollowSnoc(c: Client, sign: Sign, a: seq<Frame>, f: Frame)
    ensures Follow(c, sign, a + [f]) == Receive(Follow(c, sign, a), sign, f)
  {
    assert (a + [f])[..|a|] == a;
  }

  lemma PingOrProgress(c: Client, sign: Sign, f: Frame)
    ensures f.Ping? && c.Client? && c.stage != Waiting ==> Receive(c, sign, f) == c
    ensures f.Ping? && c.Rejected? ==> Receive(c, sign, f) == c
    ensures !f.Ping? ==> Receive(c, sign, f).Rejected? || Receive(c, sign, f).stage != Waiting
  {
  }

  lemma {:induction false} FollowIgnoresPings(sign: Sign, wire: seq<Frame>)
    requires wire != [] ==> !wire[0].Ping?
    ensures Follow(NEW_CLIENT, sign, wire) == Follow(NEW_CLIENT, sign, NoPings(wire))
    ensures wire != [] ==> Follow(NEW_CLIENT, sign, wire).Rejected? || Follow(NEW_CLIENT, sign, wire).stage != Waiting
  {
    hide Receive;
    if wire != [] {
      var most, last := wire[..|wire| - 1], wire[|wire| - 1];
      FollowIgnoresPings(sign, most);
      WithoutSnoc(most, last, IsPing);
      assert wire == most + [last];
      PingOrProgress(Follow(NEW_CLIENT, sign, most), sign, last);
      if last.Ping? {
        assert NoPings(most) + [] == NoPings(most);
      } else {
        FollowSnoc(NEW_CLIENT, sign, NoPings(most), last);
      }
    }
  }

  /* ---- The client's picture of a state ---- */

  function Finished(b: Block): Done { Done(b.kind, b.id, b.name, Concat(b.chunks)) }

  function Stored(blocks: seq<Block>): seq<Done> {
    if blocks == [] then [] else Stored(blocks[..|blocks| - 1]) + [Finished(blocks[|blocks| - 1])]
  }

  function Idle(blocks: seq<Done>): Client { Client(Between, blocks, BLANK, 0, "", None, None) }

  lemma {:induction false} DeltasFollowed(sign: Sign, done: seq<Done>, b: Block, k: nat)
    requires k <= |b.chunks|
    ensures Follow(Client(InBlock, done, Finished(b.(chunks := [])), 0, "", None, None), sign, Deltas(|done|, b)[..k])
            == Client(InBlock, done, Finished(b.(chunks := b.chunks[..k])), k, "", None, None)
  {
    hide Concat;
    var j := |done|;
    if k == 0 {
      assert b.chunks[..0] == [] && Deltas(j, b)[..0] == [];
    } else {
      DeltasFollowed(sign, done, b, k - 1);
      var ds := Deltas(j, b)[..k];
      assert ds[..k - 1] == Deltas(j, b)[..k - 1] && ds[k - 1] == BlockDelta(j, b.kind, b.chunks[k - 1]);
      assert b.chunks[..k] == b.chunks[..k - 1] + [b.chunks[k - 1]];
      ConcatSnoc(b.chunks[..k - 1], b.chunks[k - 1]);
    }
  }

  lemma OpenFollowed(sign: Sign, done: seq<Done>, b: Block)
    ensures Follow(Idle(done), sign, Open(|done|, b))
            == Client(InBlock, done, Finished(b), |b.chunks|, "", None, None)
  {
    var j := |done|;
    var start := BlockStart(j, b.kind, b.id, b.name);
    FollowTwo(Idle(done), sign, start, start);
    FollowSplit(Idle(done), sign, [start], Deltas(j, b));
    DeltasFollowed(sign, done, b, |b.chunks|);
    assert Deltas(j, b)[..|b.chunks|] == Deltas(j, b);
    assert b.chunks[..|b.chunks|] == b.chunks;
  }

  lemma BlockFollowed(sign: Sign, done: seq<Done>, b: Block)
    requires b.chunks != []
    ensures Follow(Idle(done), sign, Open(|done|, b) + Tail(sign, |done|, b)) == Idle(done + [Finished(b)])
  {
    var j := |done|;
    OpenFollowed(sign, done, b);
    FollowSplit(Idle(done), sign, Open(j, b), Tail(sign, j, b));
    var c := Follow(Idle(done), sign, Open(j, b));
    var t := Tail(sign, j, b);
    FollowTwo(c, sign, t[0], t[|t| - 1]);
    assert t == if b.kind == ThinkingBlock then [t[0], t[1]] else [t[0]];
  }

  lemma {:induction false} ClosedFollowed(sign: Sign, blocks: seq<Block>)
    requires forall i :: 0 <= i < |blocks| ==> blocks[i].chunks != []
    ensures |Stored(blocks)| == |blocks|
    ensures Follow(Idle([]), sign, ClosedFrames(sign, blocks)) == Idle(Stored(blocks))
  {
    if blocks != [] {
      var j := |blocks| - 1;
      ClosedFollowed(sign, blocks[..j]);
      FollowSplit(Idle([]), sign, ClosedFrames(sign, blocks[..j]), Open(j, blocks[j]) + Tail(sign, j, blocks[j]));
      BlockFollowed(sign, Stored(blocks[..j]), blocks[j]);
    }
  }

  /** A client that has followed the frames of a state holds exactly the blocks of the state. */
  lemma FramesFollowed(s: State, sign: Sign)
    requires WellFormed(s) && s.begun && s.open.None?
    ensures Follow(NEW_CLIENT, sign, Frames(s, sign)) == Idle(Stored(s.closed))
  {
    hide Stored, Concat;
    FollowTwo(NEW_CLIENT, sign, MessageStart, MessageStart);
    FollowSplit(NEW_CLIENT, sign, [MessageStart], ClosedFrames(sign, s.closed));
    ClosedFollowed(sign, s.closed);
    assert Frames(s, sign) == [MessageStart] + ClosedFrames(sign, s.closed);
  }

  /** The trouble that the stream tells of: a timeout, a broken connection, or the upstream's own error. */
  function TroubleOf(failure: Option<MappedError>, ending: Ending, timeoutMessage: string): Option<Trouble> {
    match ending
    case Cancelled => None
    case Idle => Some(Trouble("rate_limit_error", timeoutMessage, 5))
    case Broken(message) => Some(Trouble("internal_error", message, 0))
    case Eof => if failure.None? then None else Some(Trouble(failure.value.typ, failure.value.message, 0))
  }

  /** How the frames of a whole run end: cut off, with one error, or with the two closing frames. */
  lemma LastFrames(s: State, sign: Sign, ending: Ending, timeoutMessage: string) returns (last: seq<Frame>)
    requires WellFormed(s) && AllFrames(s, sign, ending, timeoutMessage) != []
    ensures WellFormed(Close(s).(begun := true))
    ensures AllFrames(s, sign, ending, timeoutMessage) == Frames(Close(s).(begun := true), sign) + last
    ensures if ending.Cancelled? then last == []
            else if ending.Eof? && s.failure.None? then last == Ends(Close(s))
            else |last| == 1 && last[0].ErrorEvent?
                 && TroubleOf(s.failure, ending, timeoutMessage)
                    == Some(Trouble(last[0].typ, last[0].message, last[0].retryAfter))
  {
    hide ClosedFrames, Open, Proper;
    CloseKeepsWellFormed(s);
    BegunShows(Close(s), sign);
    assert Ends(s) == Ends(Close(s));
    last := match ending
      case Cancelled => []
      case Idle => [ErrorEvent("rate_limit_error", timeoutMessage, 5)]
      case Broken(msg) => [ErrorEvent("internal_error", msg, 0)]
      case Eof =>
        if s.failure.Some? then [ErrorEvent(s.failure.value.typ, s.failure.value.message, 0)]
        else Ends(s);
  }

  /** Every frame sequence of a run without write failures satisfies the client to the end. */
  lemma AllFollowed(sign: Sign, hex: Hex, evs: seq<Event>, ending: Ending, timeoutMessage: string)
    ensures var s := Fold(hex, evs);
      var all := AllFrames(s, sign, ending, timeoutMessage);
      var c := Follow(NEW_CLIENT, sign, all);
      && c != Rejected
      && (all != [] ==> c.blocks == Stored(Close(s).closed))
      && (all != [] && !ending.Cancelled? ==> c.stage == Ended)
      && (all != [] && ending.Eof? && s.failure.None? ==> c.stopReason == OrDefault(s.stopReason, "end_turn"))
      && (all != [] && ending.Eof? && s.failure.None? ==>
            c.usage == Some(DeltaUsage(s.outputTokens, s.cachedInput, s.cacheWrite, InputTokens(s))))
      && c.trouble == if all == [] then None else TroubleOf(s.failure, ending, timeoutMessage)
  {
    hide Stored, ClosedFrames, Open, Frames, AllFrames, Fold, WellFormed;
    var s := Fold(hex, evs);
    FoldWellFormed(hex, evs);
    if AllFrames(s, sign, ending, timeoutMessage) != [] {
      var last := LastFrames(s, sign, ending, timeoutMessage);
      var d := Close(s).(begun := true);
      FramesFollowed(d, sign);
      FollowSplit(NEW_CLIENT, sign, Frames(d, sign), last);
      var c := Follow(NEW_CLIENT, sign, Frames(d, sign));
      if last != [] {
        FollowTwo(c, sign, last[0], last[|last| - 1]);
        assert last == if |last| == 1 then [last[0]] else [last[0], last[1]];
      }
    }
  }

  /** The client accepts everything that reaches it on every run: any events in any order, any
      ending, any pings, and a connection that breaks at any frame. */
  lemma WireFollowed(sign: Sign, hex: Hex, evs: seq<Event>, ending: Ending, timeoutMessage: string, wire: seq<Frame>)
    requires wire != [] ==> !wire[0].Ping?
    requires NoPings(wire) <= AllFrames(Fold(hex, evs), sign, ending, timeoutMessage)
    ensures Follow(NEW_CLIENT, sign, wire) != Rejected
  {
    hide AllFrames, Fold;
    AllFollowed(sign, hex, evs, ending, timeoutMessage);
    FollowPrefix(NEW_CLIENT, sign, NoPings(wire), AllFrames(Fold(hex, evs), sign, ending, timeoutMessage));
    FollowIgnoresPings(sign, wire);
  }
}
