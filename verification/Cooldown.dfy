/** keys.go: the cooldown mark of one upstream key. `cooldown` raises it in a compare-and-swap
    loop, `markHealthy` clears it; their atomic steps interleave in any order. */
module Cooldown {
  import opened Text

  /** The deadline a cooldown asks for, or none when it is disabled. */
  function Deadline(status: int, d: int, now: int): Option<int> {
    if d <= 0 then None
    else Some(now + if status == 401 || status == 402 || status == 403 then 5 * d else d)
  }

  /** One call: about to load the mark, about to swap it (with the value it loaded and the number
      of writes made before that load), about to clear it, or finished. */
  datatype Phase = Loading(until: int) | Swapping(until: int, loaded: int, seen: nat) | Clearing | Finished

  /** A successful write of the mark, by the call with this number. */
  datatype Write = Write(call: nat, value: int)

  /** `since` holds the deadlines of the cooldowns that took effect after the last clearing. */
  datatype State = State(mark: int, writes: seq<Write>, since: seq<int>, phases: seq<Phase>)

  predicate Fresh(phases: seq<Phase>) {
    forall i :: 0 <= i < |phases| ==> phases[i].Loading? || phases[i].Clearing?
  }

  /** The next atomic step of call i. */
  function Step(s: State, i: nat): State
    requires i < |s.phases|
  {
    match s.phases[i]
    case Loading(until) =>
      if s.mark >= until then s.(since := s.since + [until], phases := s.phases[i := Finished])
      else s.(phases := s.phases[i := Swapping(until, s.mark, |s.writes|)])
    case Swapping(until, loaded, _) =>
      if s.mark == loaded then
        State(until, s.writes + [Write(i, until)], s.since + [until], s.phases[i := Finished])
      else s.(phases := s.phases[i := Loading(until)])
    case Clearing => State(0, s.writes + [Write(i, 0)], [], s.phases[i := Finished])
    case Finished => s
  }

  /** The state after the calls with these numbers have each made a step, in this order. */
  function Run(calls: seq<Phase>, turns: seq<nat>): State {
    if turns == [] then State(0, [], [], calls) else
      var before, i := Run(calls, turns[..|turns| - 1]), turns[|turns| - 1];
      if i < |before.phases| then Step(before, i) else before
  }

  /** The largest deadline, or 0. */
  function Latest(deadlines: seq<int>): int {
    if deadlines == [] then 0 else
      var before, last := Latest(deadlines[..|deadlines| - 1]), deadlines[|deadlines| - 1];
      if last > before then last else before
  }

  lemma LatestSnoc(deadlines: seq<int>, d: int)
    ensures Latest(deadlines + [d]) == if d > Latest(deadlines) then d else Latest(deadlines)
  {
    assert (deadlines + [d])[..|deadlines|] == deadlines;
  }

  lemma {:induction false} LatestIsMaximum(deadlines: seq<int>)
    ensures Latest(deadlines) == 0 || Latest(deadlines) in deadlines
    ensures Latest(deadlines) >= 0 && forall d :: d in deadlines ==> d <= Latest(deadlines)
  {
    if deadlines != [] {
      LatestIsMaximum(deadlines[..|deadlines| - 1]);
      assert deadlines == deadlines[..|deadlines| - 1] + [deadlines[|deadlines| - 1]];
    }
  }

  /** The mark after these writes. */
  function Written(writes: seq<Write>): int {
    if writes == [] then 0 else writes[|writes| - 1].value
  }

  /** A call that is about to swap has written nothing since its load. */
  ghost predicate SwapInv(s: State, i: nat)
    requires i < |s.phases|
  {
    s.phases[i].Swapping? ==>
      && s.phases[i].loaded < s.phases[i].until
      && s.phases[i].seen <= |s.writes|
      && Written(s.writes[..s.phases[i].seen]) == s.phases[i].loaded
      && forall k :: s.phases[i].seen <= k < |s.writes| ==> s.writes[k].call != i
  }

  ghost predicate Inv(s: State) {
    && s.mark == Latest(s.since)
    && s.mark == Written(s.writes)
    && (forall k :: 0 <= k < |s.writes| ==>
          s.writes[k].call < |s.phases| && s.phases[s.writes[k].call] == Finished)
    && (forall i :: 0 <= i < |s.phases| ==> SwapInv(s, i))
  }

  lemma SwapKept(s: State, i: nat, j: nat)
    requires Inv(s) && i < |s.phases| && j < |s.phases|
    ensures SwapInv(Step(s, i), j)
  {
    var t := Step(s, i);
    assert SwapInv(s, j);
    assert s.writes[..|s.writes|] == s.writes;
    if j != i && t.phases[j].Swapping? {
      assert t.writes[..t.phases[j].seen] == s.writes[..s.phases[j].seen];
    }
  }

  lemma StepKeepsInv(s: State, i: nat)
    requires Inv(s) && i < |s.phases|
    ensures Inv(Step(s, i)) && |Step(s, i).phases| == |s.phases|
  {
    hide Latest;
    var t := Step(s, i);
    assert SwapInv(s, i);
    LatestSnoc(s.since, if s.phases[i].Loading? || s.phases[i].Swapping? then s.phases[i].until else 0);
    assert Latest([]) == 0 by {
      LatestIsMaximum([]);
    }
    forall j | 0 <= j < |t.phases| ensures SwapInv(t, j) {
      SwapKept(s, i, j);
    }
  }

  lemma {:induction false} RunInv(calls: seq<Phase>, turns: seq<nat>)
    requires Fresh(calls)
    ensures Inv(Run(calls, turns)) && |Run(calls, turns).phases| == |calls|
  {
    if turns != [] {
      var before, i := Run(calls, turns[..|turns| - 1]), turns[|turns| - 1];
      RunInv(calls, turns[..|turns| - 1]);
      if i < |before.phases| {
        StepKeepsInv(before, i);
      }
    }
  }

  /** Under every interleaving the mark is the latest deadline among the cooldowns that took effect
      since the last clearing, or 0 if there are none. */
  lemma MarkIsLatest(calls: seq<Phase>, turns: seq<nat>)
    requires Fresh(calls)
    ensures var s := Run(calls, turns);
      && (s.mark == 0 || s.mark in s.since)
      && s.mark >= 0 && forall d :: d in s.since ==> d <= s.mark
  {
    RunInv(calls, turns);
    LatestIsMaximum(Run(calls, turns).since);
  }

  /** No cooldown shortens another: only a clearing ever lowers the mark. And when a cooldown
      finishes, the key is marked at least until its own deadline. */
  lemma OnlyClearingLowers(calls: seq<Phase>, turns: seq<nat>, i: nat)
    requires Fresh(calls) && i < |calls|
    ensures var s := Run(calls, turns);
      && i < |s.phases|
      && (!s.phases[i].Clearing? ==> Step(s, i).mark >= s.mark)
      && ((s.phases[i].Loading? || s.phases[i].Swapping?) && Step(s, i).phases[i].Finished? ==>
            Step(s, i).mark >= s.phases[i].until && s.phases[i].until in Step(s, i).since)
  {
    RunInv(calls, turns);
    var s := Run(calls, turns);
    assert SwapInv(s, i);
  }

  /** A swap fails only because another call has changed the mark since the load; so whenever one
      call has to retry, another has finished. */
  lemma FailedSwapHasCause(calls: seq<Phase>, turns: seq<nat>, i: nat)
    requires Fresh(calls) && i < |calls|
    ensures var s := Run(calls, turns);
      && i < |s.phases|
      && (s.phases[i].Swapping? && Step(s, i).phases[i].Loading? ==>
            exists k :: s.phases[i].seen <= k < |s.writes| && s.writes[k].call != i
                        && s.writes[k].call < |s.phases| && s.phases[s.writes[k].call] == Finished)
  {
    RunInv(calls, turns);
    var s := Run(calls, turns);
    assert SwapInv(s, i);
    if s.phases[i].Swapping? && s.mark != s.phases[i].loaded {
      assert s.writes[..|s.writes|] == s.writes;
      assert s.phases[i].seen < |s.writes|;
      assert s.writes[s.phases[i].seen].call != i;
    }
  }

  /** The key itself, as one caller sees it when nobody interferes. */
  class UpstreamKey {
    const value: string
    const index: int
    var unhealthyUntil: int
    var failures: nat

    constructor (value: string, index: int)
      ensures this.value == value && this.index == index && unhealthyUntil == 0 && failures == 0
    {
      this.value, this.index, unhealthyUntil, failures := value, index, 0, 0;
    }

    predicate Healthy(now: int)
      reads this
    {
      unhealthyUntil <= now
    }

    method CompareAndSwap(expected: int, value: int) returns (ok: bool)
      modifies this`unhealthyUntil
      ensures ok == (old(unhealthyUntil) == expected)
      ensures unhealthyUntil == if ok then value else old(unhealthyUntil)
    {
      ok := unhealthyUntil == expected;
      if ok {
        unhealthyUntil := value;
      }
    }

    method Cool(status: int, d: int, now: int)
      modifies this
      ensures Deadline(status, d, now).None? ==> unhealthyUntil == old(unhealthyUntil) && failures == old(failures)
      ensures Deadline(status, d, now).Some? ==>
        && failures == old(failures) + 1
        && unhealthyUntil == (if Deadline(status, d, now).value > old(unhealthyUntil)
                              then Deadline(status, d, now).value else old(unhealthyUntil))
    {
      if d <= 0 {
        return;
      }
      var length := d;
      if status == 401 || status == 402 || status == 403 {
        length := length * 5;
      }
      var until := now + length;
      var retry := true;
      while retry
        invariant retry ==> unhealthyUntil == old(unhealthyUntil)
        invariant !retry ==> unhealthyUntil == if until > old(unhealthyUntil) then until else old(unhealthyUntil)
        invariant failures == old(failures)
        decreases retry
      {
        var cur := unhealthyUntil;
        if cur >= until {
          retry := false;
        } else {
          var swapped := CompareAndSwap(cur, until);
          retry := !swapped;
        }
      }
      failures := failures + 1;
    }

    method MarkHealthy()
      modifies this`unhealthyUntil
      ensures unhealthyUntil == 0
    {
      unhealthyUntil := 0;
    }
  }
}
