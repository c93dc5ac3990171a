/** httpx.go: the limit on requests in flight. Every atomic access of `cur` is one step; the
    steps of any number of requests interleave in any order. */
module Limiter {
  import opened Text

  /** Where a request is: before Acquire, after an increment that went over the limit and must be
      undone, admitted, refused, finished, or about to reset a counter that Release made negative. */
  datatype Phase = Arriving | Undoing | Admitted | Refused | Released | Resetting

  datatype State = State(cur: int, phases: seq<Phase>)

  datatype Action = Increment | Undo | Decrement | Reset

  function Initial(requests: nat): State { State(0, seq(requests, _ => Arriving)) }

  predicate Enabled(s: State, i: nat, a: Action) {
    && i < |s.phases|
    && match a
       case Increment => s.phases[i] == Arriving
       case Undo => s.phases[i] == Undoing
       case Decrement => s.phases[i] == Admitted
       case Reset => s.phases[i] == Resetting
  }

  /** One atomic step of request i. With max <= 0 there is no limit and no counting. */
  function Step(max: int, s: State, i: nat, a: Action): State
    requires Enabled(s, i, a)
  {
    match a
    case Increment =>
      if max <= 0 then s.(phases := s.phases[i := Admitted])
      else State(s.cur + 1, s.phases[i := if s.cur + 1 > max then Undoing else Admitted])
    case Undo => State(s.cur - 1, s.phases[i := Refused])
    case Decrement =>
      if max <= 0 then s.(phases := s.phases[i := Released])
      else State(s.cur - 1, s.phases[i := if s.cur - 1 < 0 then Resetting else Released])
    case Reset => State(0, s.phases[i := Released])
  }

  datatype Move = Move(request: nat, action: Action)

  /** The state after these moves of `requests` arriving requests, if each move was possible. */
  function Run(max: int, requests: nat, moves: seq<Move>): Option<State> {
    if moves == [] then Some(Initial(requests)) else
      var before, last := Run(max, requests, moves[..|moves| - 1]), moves[|moves| - 1];
      if before.Some? && Enabled(before.value, last.request, last.action) then
        Some(Step(max, before.value, last.request, last.action))
      else None
  }

  function Count(phases: seq<Phase>, p: Phase): nat {
    if phases == [] then 0 else
      Count(phases[..|phases| - 1], p) + if phases[|phases| - 1] == p then 1 else 0
  }

  lemma {:induction false} CountUpdate(phases: seq<Phase>, i: nat, q: Phase, p: Phase)
    requires i < |phases|
    ensures Count(phases[i := q], p)
            == Count(phases, p) - (if phases[i] == p then 1 else 0) + (if q == p then 1 else 0)
  {
    var n := |phases| - 1;
    if i == n {
      assert phases[i := q][..n] == phases[..n];
    } else {
      assert phases[i := q][..n] == phases[..n][i := q];
      CountUpdate(phases[..n], i, q, p);
    }
  }

  lemma {:induction false} CountFresh(n: nat, p: Phase)
    ensures Count(seq(n, _ => Arriving), p) == if p == Arriving then n else 0
  {
    if n > 0 {
      assert seq(n, _ => Arriving)[..n - 1] == seq(n - 1, _ => Arriving);
      CountFresh(n - 1, p);
    }
  }

  /** The counter is the admitted requests plus those that still have to undo their increment. */
  ghost predicate Inv(max: int, s: State) {
    && Count(s.phases, Resetting) == 0
    && (max > 0 ==>
          && s.cur == Count(s.phases, Admitted) + Count(s.phases, Undoing)
          && Count(s.phases, Admitted) <= max)
  }

  lemma StepKeepsInv(max: int, s: State, i: nat, a: Action)
    requires Inv(max, s) && Enabled(s, i, a)
    ensures Inv(max, Step(max, s, i, a))
  {
    hide Count;
    var q := Step(max, s, i, a).phases[i];
    CountUpdate(s.phases, i, q, Admitted);
    CountUpdate(s.phases, i, q, Undoing);
    CountUpdate(s.phases, i, q, Resetting);
    if a == Decrement {
      CountPositive(s.phases, i);
    }
  }

  lemma {:induction false} CountPositive(phases: seq<Phase>, i: nat)
    requires i < |phases|
    ensures Count(phases, phases[i]) > 0
  {
    var n := |phases| - 1;
    if i < n {
      CountPositive(phases[..n], i);
    }
  }

  /** Under every interleaving: the number admitted never exceeds the limit, the counter is exact,
      and the reset that Release keeps for a negative counter never happens. */
  lemma {:induction false} Safety(max: int, requests: nat, moves: seq<Move>, s: State)
    requires Run(max, requests, moves) == Some(s)
    ensures Inv(max, s)
    ensures forall i :: 0 <= i < |s.phases| ==> s.phases[i] != Resetting
  {
    if moves == [] {
      CountFresh(requests, Admitted);
      CountFresh(requests, Undoing);
      CountFresh(requests, Resetting);
    } else {
      var before, last := Run(max, requests, moves[..|moves| - 1]).value, moves[|moves| - 1];
      Safety(max, requests, moves[..|moves| - 1], before);
      StepKeepsInv(max, before, last.request, last.action);
    }
    forall i | 0 <= i < |s.phases| ensures s.phases[i] != Resetting {
      CountPositive(s.phases, i);
    }
  }

  /** A request is turned away exactly when the admitted and the undoing requests fill the limit. */
  lemma RefusedWhen(max: int, requests: nat, moves: seq<Move>, s: State, i: nat)
    requires max > 0 && Run(max, requests, moves) == Some(s) && Enabled(s, i, Increment)
    ensures Step(max, s, i, Increment).phases[i] == Undoing
            <==> Count(s.phases, Admitted) + Count(s.phases, Undoing) >= max
  {
    Safety(max, requests, moves, s);
  }

  /** When every request is done, the counter is back at zero. */
  lemma DrainsToZero(max: int, requests: nat, moves: seq<Move>, s: State)
    requires max > 0 && Run(max, requests, moves) == Some(s)
    requires forall i :: 0 <= i < |s.phases| ==> s.phases[i] == Refused || s.phases[i] == Released
    ensures s.cur == 0
  {
    Safety(max, requests, moves, s);
    CountNone(s.phases, Admitted);
    CountNone(s.phases, Undoing);
  }

  lemma {:induction false} CountNone(phases: seq<Phase>, p: Phase)
    requires forall i :: 0 <= i < |phases| ==> phases[i] != p
    ensures Count(phases, p) == 0
  {
    if phases != [] {
      CountNone(phases[..|phases| - 1], p);
    }
  }

  /** A limit of one can turn a request away although nothing is admitted: one admitted request
      leaves while a refused one has not yet undone its increment. */
  lemma SpuriousRefusal()
    ensures var moves := [Move(0, Increment), Move(1, Increment), Move(0, Decrement), Move(2, Increment)];
      var end := State(2, [Released, Undoing, Undoing]);
      Run(1, 3, moves) == Some(end) && Count(end.phases, Admitted) == 0
  {
    var m1, m2, m3, m4 := Move(0, Increment), Move(1, Increment), Move(0, Decrement), Move(2, Increment);
    var s0, s1 := Initial(3), State(1, [Admitted, Arriving, Arriving]);
    var s2, s3 := State(2, [Admitted, Undoing, Arriving]), State(1, [Released, Undoing, Arriving]);
    RunSnoc(1, 3, [], s0, m1);
    assert [] + [m1] == [m1] && Step(1, s0, 0, Increment).phases == s1.phases;
    RunSnoc(1, 3, [m1], s1, m2);
    assert [m1] + [m2] == [m1, m2] && Step(1, s1, 1, Increment).phases == s2.phases;
    RunSnoc(1, 3, [m1, m2], s2, m3);
    assert [m1, m2] + [m3] == [m1, m2, m3] && Step(1, s2, 0, Decrement).phases == s3.phases;
    RunSnoc(1, 3, [m1, m2, m3], s3, m4);
    assert [m1, m2, m3] + [m4] == [m1, m2, m3, m4];
    assert Step(1, s3, 2, Increment).phases == [Released, Undoing, Undoing];
    CountNone([Released, Undoing, Undoing], Admitted);
  }

  lemma RunSnoc(max: int, requests: nat, moves: seq<Move>, s: State, m: Move)
    requires Run(max, requests, moves) == Some(s) && Enabled(s, m.request, m.action)
    ensures Run(max, requests, moves + [m]) == Some(Step(max, s, m.request, m.action))
  {
    assert (moves + [m])[..|moves|] == moves;
  }

  /** The limiter itself, as one request sees it when nobody interferes. */
  class InflightLimiter {
    const max: int
    var cur: int

    constructor (max: int)
      ensures this.max == max && cur == 0
    {
      this.max, cur := max, 0;
    }

    method Add(delta: int) returns (now: int)
      modifies this`cur
      ensures cur == old(cur) + delta && now == cur
    {
      cur := cur + delta;
      now := cur;
    }

    method Acquire() returns (admitted: bool)
      modifies this`cur
      ensures admitted == (max <= 0 || old(cur) < max)
      ensures cur == if max > 0 && admitted then old(cur) + 1 else old(cur)
    {
      if max <= 0 {
        return true;
      }
      var now := Add(1);
      if now > max {
        var _ := Add(-1);
        return false;
      }
      return true;
    }

    method Release()
      modifies this`cur
      ensures cur == if max <= 0 then old(cur) else if old(cur) <= 0 then 0 else old(cur) - 1
    {
      if max <= 0 {
        return;
      }
      var now := Add(-1);
      if now < 0 {
        cur := 0;
      }
    }
  }
}
