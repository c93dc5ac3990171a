/** keys.go: rotating through the pool of upstream keys with a 64-bit ticket counter. */
module KeyPool {
  import opened Text
  import opened Cooldown

  const WRAP: int := 0x1_0000_0000_0000_0000

  /** The key a scan that started at this ticket inspects in its i-th step. The sum wraps at 64 bits. */
  function Slot(start: nat, i: nat, n: nat): (k: nat)
    requires n > 0
    ensures k < n
  {
    ((start + i) % WRAP) % n
  }

  ghost predicate Visits(start: nat, n: nat, k: nat)
    requires n > 0
  {
    exists i: nat :: i < n && Slot(start, i, n) == k
  }

  /** The scan inspects every key exactly once. */
  ghost predicate Covers(start: nat, n: nat) {
    && n > 0
    && (forall k: nat :: k < n ==> Visits(start, n, k))
    && (forall i: nat, j: nat :: i < j < n ==> Slot(start, i, n) != Slot(start, j, n))
  }

  /* ---- Remainders ---- */

  lemma MultipleIsFar(d: int, n: int)
    requires n > 0
    ensures d == 0 || d * n >= n || d * n <= -n
  {
  }

  lemma Remainder(x: int, q: int, r: int, n: int)
    requires n > 0 && x == q * n + r && 0 <= r < n
    ensures x % n == r && x / n == q
  {
    var d := x / n - q;
    assert x == (x / n) * n + x % n;
    assert d * n == r - x % n;
    MultipleIsFar(d, n);
  }

  lemma AddMultiple(x: int, m: int, n: int)
    requires n > 0
    ensures (x + m * n) % n == x % n
  {
    assert x + m * n == (x / n + m) * n + x % n;
    Remainder(x + m * n, x / n + m, x % n, n);
  }

  /** Consecutive numbers with the same remainder are a full turn apart. */
  lemma SameRemainder(x: int, y: int, n: int)
    requires n > 0 && x <= y < x + n && x % n == y % n
    ensures x == y
  {
    var d := y / n - x / n;
    assert y - x == d * n;
    MultipleIsFar(d, n);
  }

  /** n consecutive numbers have every remainder. */
  lemma EveryRemainder(x: nat, k: nat, n: nat) returns (i: nat)
    requires k < n
    ensures i < n && (x + i) % n == k
  {
    var r := x % n;
    i := if k >= r then k - r else k - r + n;
    if k >= r {
      assert x + i == (x / n) * n + k;
      Remainder(x + i, x / n, k, n);
    } else {
      assert x + i == (x / n + 1) * n + k;
      Remainder(x + i, x / n + 1, k, n);
    }
  }

  /* ---- Coverage ---- */

  /** Without an effective wrap a slot is the remainder of the ticket plus the step. */
  predicate InStep(start: nat, n: nat) {
    n > 0 && start < WRAP && n <= WRAP && (start + n <= WRAP || WRAP % n == 0)
  }

  lemma InStepSlot(start: nat, i: nat, n: nat)
    requires InStep(start, n) && i < n
    ensures Slot(start, i, n) == (start + i) % n
  {
    if start + i >= WRAP {
      Remainder(start + i, 1, start + i - WRAP, WRAP);
      var m := WRAP / n;
      assert WRAP == m * n;
      AddMultiple(start + i - WRAP, m, n);
    } else {
      Remainder(start + i, 0, start + i, WRAP);
    }
  }

  lemma InStepCovers(start: nat, n: nat)
    requires InStep(start, n)
    ensures Covers(start, n)
  {
    forall k: nat | k < n ensures Visits(start, n, k) {
      var i := EveryRemainder(start, k, n);
      InStepSlot(start, i, n);
    }
    forall i: nat, j: nat | i < j < n ensures Slot(start, i, n) != Slot(start, j, n) {
      InStepSlot(start, i, n);
      InStepSlot(start, j, n);
      if (start + i) % n == (start + j) % n {
        SameRemainder(start + i, start + j, n);
      }
    }
  }

  /** A key that a scan across the wrap passes over. */
  function Missed(start: nat, n: nat): nat
    requires n > 0 && start < WRAP < start + n
  {
    var before, r := WRAP - start, WRAP % n;
    if r >= before then n - 1 else n - before + r - 1 + if r == 0 then 1 else 0
  }

  lemma WrapMisses(start: nat, i: nat, n: nat)
    requires start < WRAP < start + n && n <= WRAP && WRAP % n != 0 && i < n
    ensures Missed(start, n) < n
    ensures Slot(start, i, n) != Missed(start, n)
  {
    var before, r := WRAP - start, WRAP % n;
    if i >= before {
      Remainder(start + i, 1, i - before, WRAP);
      Remainder(i - before, 0, i - before, n);
    } else {
      Remainder(start + i, 0, start + i, WRAP);
      var t := before - i;
      assert start + i == WRAP - t;
      assert WRAP == (WRAP / n) * n + r;
      if t <= r {
        Remainder(start + i, WRAP / n, r - t, n);
      } else {
        assert (WRAP / n - 1) * n == (WRAP / n) * n - n;
        Remainder(start + i, WRAP / n - 1, n + r - t, n);
      }
    }
  }

  /** A scan inspects all n keys exactly once if and only if its ticket is at most 2^64 - n or n
      divides 2^64. */
  lemma Coverage(start: nat, n: nat)
    requires 0 < n <= WRAP && start < WRAP
    ensures Covers(start, n) <==> start <= WRAP - n || WRAP % n == 0
  {
    if InStep(start, n) {
      InStepCovers(start, n);
    } else {
      forall i: nat | i < n ensures Slot(start, i, n) != Missed(start, n) {
        WrapMisses(start, i, n);
      }
      WrapMisses(start, 0, n);
      assert !Visits(start, n, Missed(start, n));
    }
  }

  /* ---- The scan ---- */

  predicate Barred(excluded: seq<bool>, k: nat) { k < |excluded| && excluded[k] }

  /** k is the first of these keys that the scan meets. */
  ghost predicate FirstOf(start: nat, n: nat, good: set<nat>, k: nat) {
    && n > 0
    && k in good
    && exists i: nat :: i < n && Slot(start, i, n) == k && forall j: nat :: j < i ==> Slot(start, j, n) !in good
  }

  ghost predicate NoneOf(start: nat, n: nat, good: set<nat>) {
    n > 0 && forall i: nat :: i < n ==> Slot(start, i, n) !in good
  }

  /** With full coverage nothing is passed over. */
  lemma CoveredNone(start: nat, n: nat, good: set<nat>)
    requires Covers(start, n) && forall k :: k in good ==> k < n
    ensures NoneOf(start, n, good) <==> good == {}
  {
    if good != {} {
      var k: nat :| k in good;
      assert Visits(start, n, k);
      var i: nat :| i < n && Slot(start, i, n) == k;
      assert Slot(start, i, n) in good;
    }
  }

  class Pool {
    const keys: seq<UpstreamKey>
    const random: bool
    /** The ticket counter, a 64-bit word. */
    var rr: nat

    constructor (keys: seq<UpstreamKey>, random: bool)
      requires forall i :: 0 <= i < |keys| ==> keys[i].index == i
      ensures Valid() && this.keys == keys && this.random == random && rr == 0
    {
      this.keys, this.random, rr := keys, random, 0;
    }

    ghost predicate Valid()
      reads this
    {
      rr < WRAP && forall i :: 0 <= i < |keys| ==> keys[i].index == i
    }

    /** The keys not yet tried. */
    ghost function Left(excluded: seq<bool>): set<nat>
    {
      set k: nat | k < |keys| && !Barred(excluded, k)
    }

    /** The keys not yet tried that are not cooling down. */
    ghost function Well(excluded: seq<bool>, now: int): set<nat>
      reads keys
    {
      set k: nat | k < |keys| && !Barred(excluded, k) && keys[k].Healthy(now)
    }

    /** The loop of `next`, from a given ticket on. */
    method Scan(start: nat, excluded: seq<bool>, now: int) returns (pick: UpstreamKey?)
      requires Valid()
      ensures pick != null ==> 0 <= pick.index < |keys| && pick == keys[pick.index] && !Barred(excluded, pick.index)
      ensures |keys| == 0 ==> pick == null
      ensures |keys| > 0 && !NoneOf(start, |keys|, Well(excluded, now)) ==>
        pick != null && FirstOf(start, |keys|, Well(excluded, now), pick.index)
      ensures |keys| > 0 && NoneOf(start, |keys|, Well(excluded, now)) && !NoneOf(start, |keys|, Left(excluded)) ==>
        pick != null && FirstOf(start, |keys|, Left(excluded), pick.index)
      ensures |keys| > 0 && NoneOf(start, |keys|, Left(excluded)) ==> pick == null
      // The first key it looks at is taken if there is nothing against it.
      ensures |keys| > 0 && !Barred(excluded, Slot(start, 0, |keys|)) && keys[Slot(start, 0, |keys|)].Healthy(now) ==>
        pick == keys[Slot(start, 0, |keys|)]
    {
      var n := |keys|;
      if n == 0 {
        return null;
      }
      var unhealthy: UpstreamKey? := null;
      var i := 0;
      while i < n
        invariant 0 <= i <= n
        invariant forall j: nat :: j < i ==> Slot(start, j, n) !in Well(excluded, now)
        invariant i > 0 ==> Barred(excluded, Slot(start, 0, n)) || !keys[Slot(start, 0, n)].Healthy(now)
        invariant unhealthy == null ==> forall j: nat :: j < i ==> Slot(start, j, n) !in Left(excluded)
        invariant unhealthy != null ==>
          && 0 <= unhealthy.index < n && unhealthy == keys[unhealthy.index]
          && FirstOf(start, n, Left(excluded), unhealthy.index)
      {
        var s := Slot(start, i, n);
        var k := keys[s];
        if !(k.index < |excluded| && excluded[k.index]) {
          if k.unhealthyUntil <= now {
            assert s in Well(excluded, now);
            return k;
          }
          if unhealthy == null {
            assert s in Left(excluded);
            unhealthy := k;
          }
        }
        i := i + 1;
      }
      if unhealthy != null {
        assert unhealthy.index in Left(excluded);
      }
      return unhealthy;
    }

    /** The atomic addition to the counter, and the ticket that it draws. */
    method Draw() returns (start: nat)
      requires Valid()
      modifies this`rr
      ensures Valid() && start == old(rr) && rr == (old(rr) + 1) % WRAP
    {
      rr := (rr + 1) % WRAP;
      start := (rr + WRAP - 1) % WRAP;
      TicketBack(old(rr));
    }

    /** `next`: draws a ticket, then scans. The ticket is the counter's value, or a random word. */
    method Next(excluded: seq<bool>, now: int, word: nat) returns (pick: UpstreamKey?, start: nat)
      requires Valid() && word < WRAP
      modifies this`rr
      ensures Valid()
      ensures |keys| == 0 ==> pick == null && rr == old(rr)
      ensures |keys| > 0 ==> start == (if random then word else old(rr))
      ensures |keys| > 0 ==> rr == if random then old(rr) else (old(rr) + 1) % WRAP
      ensures pick != null ==> 0 <= pick.index < |keys| && pick == keys[pick.index] && !Barred(excluded, pick.index)
      ensures |keys| > 0 && excluded == [] ==> pick != null
      ensures |keys| > 0 && excluded == [] && keys[Slot(start, 0, |keys|)].Healthy(now) ==>
        pick == keys[Slot(start, 0, |keys|)]
      ensures |keys| > 0 && Covers(start, |keys|) ==>
        && (pick == null <==> Left(excluded) == {})
        && (Well(excluded, now) != {} ==> pick != null && FirstOf(start, |keys|, Well(excluded, now), pick.index))
        && (Well(excluded, now) == {} && pick != null ==> FirstOf(start, |keys|, Left(excluded), pick.index))
    {
      start := word;
      if |keys| == 0 {
        return null, start;
      }
      if !random {
        start := Draw();
      }
      pick := Scan(start, excluded, now);
      assert excluded == [] ==> Slot(start, 0, |keys|) in Left(excluded);
      if Covers(start, |keys|) {
        CoveredNone(start, |keys|, Well(excluded, now));
        CoveredNone(start, |keys|, Left(excluded));
      }
    }
  }

  lemma TicketBack(t: nat)
    requires t < WRAP
    ensures ((t + 1) % WRAP + WRAP - 1) % WRAP == t
  {
    if t + 1 == WRAP {
      Remainder(t + 1, 1, 0, WRAP);
      Remainder(WRAP - 1, 0, WRAP - 1, WRAP);
    } else {
      Remainder(t + 1, 0, t + 1, WRAP);
      Remainder(t + WRAP, 1, t, WRAP);
    }
  }

  /** Coverage is exactly what "no key only if all are excluded" needs: without it there is always
      an exclusion list that leaves one key and a scan that returns none. */
  lemma NilExactlyWhenExcluded(start: nat, n: nat)
    requires 0 < n <= WRAP && start < WRAP
    ensures InStep(start, n)
            <==> forall left: set<nat> :: (forall k :: k in left ==> k < n) ==> (NoneOf(start, n, left) <==> left == {})
  {
    if InStep(start, n) {
      InStepCovers(start, n);
      forall left: set<nat> | forall k :: k in left ==> k < n ensures NoneOf(start, n, left) <==> left == {} {
        CoveredNone(start, n, left);
      }
    } else {
      var m := Missed(start, n);
      forall i: nat | i < n ensures Slot(start, i, n) !in {m} {
        WrapMisses(start, i, n);
      }
      WrapMisses(start, 0, n);
      assert NoneOf(start, n, {m}) && {m} != {};
    }
  }

  /** Three keys and the last ticket before the wrap: the key with index 2 is never inspected. */
  lemma WrapCounterexample(i: nat)
    requires i < 3
    ensures !Covers(WRAP - 1, 3) && Slot(WRAP - 1, i, 3) != 2
  {
    Coverage(WRAP - 1, 3);
    WrapMisses(WRAP - 1, i, 3);
  }

  /* ---- Fairness ---- */

  /** The key that the i-th ticket after t picks when every key is healthy. */
  function Turn(t: nat, i: nat, n: nat): nat
    requires n > 0
  {
    (t + i) % n
  }

  /** How many of m consecutive tickets from t on go to key k. */
  function Picks(t: nat, m: nat, n: nat, k: nat): nat
    requires n > 0
  {
    if m == 0 then 0 else Picks(t, m - 1, n, k) + if Turn(t, m - 1, n) == k then 1 else 0
  }

  lemma {:induction false} PicksSplit(t: nat, a: nat, b: nat, n: nat, k: nat)
    requires n > 0
    ensures Picks(t, a + b, n, k) == Picks(t, a, n, k) + Picks(t + a, b, n, k)
  {
    hide Turn;
    if b > 0 {
      PicksSplit(t, a, b - 1, n, k);
      assert Turn(t, a + b - 1, n) == Turn(t + a, b - 1, n) by {
        TurnShift(t, a, b - 1, n);
      }
    }
  }

  lemma TurnShift(t: nat, a: nat, b: nat, n: nat)
    requires n > 0
    ensures Turn(t, a + b, n) == Turn(t + a, b, n)
  {
  }

  lemma {:induction false} PicksNone(t: nat, m: nat, n: nat, k: nat)
    requires n > 0 && forall i: nat :: i < m ==> Turn(t, i, n) != k
    ensures Picks(t, m, n, k) == 0
  {
    hide Turn;
    if m > 0 {
      PicksNone(t, m - 1, n, k);
    }
  }

  /** Two tickets of one key are at least n apart. */
  lemma TurnsDiffer(t: nat, i: nat, j: nat, n: nat)
    requires i < j < i + n
    ensures Turn(t, i, n) != Turn(t, j, n)
  {
    if Turn(t, i, n) == Turn(t, j, n) {
      SameRemainder(t + i, t + j, n);
    }
  }

  lemma PicksOnce(t: nat, i: nat, m: nat, n: nat, k: nat)
    requires i < m <= n && Turn(t, i, n) == k
    ensures Picks(t, m, n, k) == 1
  {
    hide Turn;
    PicksSplit(t, i, m - i, n, k);
    PicksSplit(t + i, 1, m - i - 1, n, k);
    TurnShift(t, i, 0, n);
    forall j: nat | j < i ensures Turn(t, j, n) != k {
      TurnsDiffer(t, j, i, n);
    }
    var u := t + i + 1;
    forall j: nat | j < m - i - 1 ensures Turn(u, j, n) != k {
      TurnShift(t, i + 1, j, n);
      TurnsDiffer(t, i, i + 1 + j, n);
    }
    PicksNone(t, i, n, k);
    PicksNone(u, m - i - 1, n, k);
    assert Picks(t + i, 1, n, k) == Picks(t + i, 0, n, k) + 1;
  }

  lemma PicksAtMostOne(t: nat, m: nat, n: nat, k: nat)
    requires n > 0 && m <= n
    ensures Picks(t, m, n, k) <= 1
    ensures m == n && k < n ==> Picks(t, m, n, k) == 1
  {
    hide Turn, Picks;
    if i: nat :| i < m && Turn(t, i, n) == k {
      PicksOnce(t, i, m, n, k);
    } else {
      PicksNone(t, m, n, k);
      if m == n && k < n {
        var i := EveryTurn(t, k, n);
      }
    }
  }

  lemma EveryTurn(t: nat, k: nat, n: nat) returns (i: nat)
    requires k < n
    ensures i < n && Turn(t, i, n) == k
  {
    i := EveryRemainder(t, k, n);
  }

  /** Any m consecutive tickets give each of n keys the floor or the ceiling of m / n. */
  lemma {:induction false} Fairness(t: nat, m: nat, n: nat, k: nat)
    requires k < n
    ensures m / n <= Picks(t, m, n, k) <= (m + n - 1) / n
    decreases m
  {
    hide Picks;
    if m < n {
      PicksAtMostOne(t, m, n, k);
      Remainder(m, 0, m, n);
      if m == 0 {
        Remainder(n - 1, 0, n - 1, n);
        PicksNone(t, 0, n, k);
      } else {
        Remainder(m + n - 1, 1, m - 1, n);
      }
    } else {
      PicksSplit(t, n, m - n, n, k);
      PicksAtMostOne(t, n, n, k);
      Fairness(t + n, m - n, n, k);
      TurnMore(m - n, n);
      TurnMore(m - 1, n);
    }
  }

  lemma TurnMore(x: nat, n: nat)
    requires n > 0
    ensures (x + n) / n == x / n + 1
  {
    assert x + n == (x / n + 1) * n + x % n;
    Remainder(x + n, x / n + 1, x % n, n);
  }

  /* ---- Concurrent callers ---- */

  /** Where a call of `next` is: before its ticket is drawn, looking at the i-th key of its scan, or
      done. */
  datatype Phase =
    | Waiting(excluded: seq<bool>)
    | Scanning(excluded: seq<bool>, start: nat, now: int, i: nat, unhealthy: Option<nat>)
    | Picked(pick: Option<nat>)

  /** The shared ticket counter, the cooldown marks of the keys, and the calls. */
  datatype State = State(rr: nat, marks: seq<int>, calls: seq<Phase>)

  /** One atomic access: a call draws its ticket and reads the clock, or looks at one key; or anybody writes
      the mark of a key. */
  datatype Move = Draw(call: nat, now: int) | Look(call: nat) | Write(key: nat, mark: int)

  predicate Enabled(s: State, m: Move) {
    match m
    case Draw(c, _) => c < |s.calls| && s.calls[c].Waiting? && |s.marks| > 0
    case Look(c) => c < |s.calls| && s.calls[c].Scanning?
    case Write(k, _) => k < |s.marks|
  }

  /** What a call does when it looks at a key, or finds that there is none left to look at. */
  function Looked(p: Phase, marks: seq<int>): Phase
    requires p.Scanning? && |marks| > 0
  {
    if p.i >= |marks| then Picked(p.unhealthy)
    else
      var k := Slot(p.start, p.i, |marks|);
      if Barred(p.excluded, k) then p.(i := p.i + 1)
      else if marks[k] <= p.now then Picked(Some(k))
      else p.(i := p.i + 1, unhealthy := if p.unhealthy.None? then Some(k) else p.unhealthy)
  }

  function Step(s: State, m: Move): State
    requires Enabled(s, m) && |s.marks| > 0
  {
    match m
    case Draw(c, now) =>
      s.(rr := (s.rr + 1) % WRAP, calls := s.calls[c := Scanning(s.calls[c].excluded, s.rr, now, 0, None)])
    case Look(c) => s.(calls := s.calls[c := Looked(s.calls[c], s.marks)])
    case Write(k, mark) => s.(marks := s.marks[k := mark])
  }

  /** The state after these moves, if each was possible. */
  function Run(s: State, moves: seq<Move>): Option<State>
    requires |s.marks| > 0
    ensures Run(s, moves).Some? ==> |Run(s, moves).value.marks| == |s.marks|
  {
    if moves == [] then Some(s) else
      var before, last := Run(s, moves[..|moves| - 1]), moves[|moves| - 1];
      if before.Some? && Enabled(before.value, last) then Some(Step(before.value, last)) else None
  }

  /** How many of these calls have drawn a ticket, and how many have picked this key. */
  function Drawn(calls: seq<Phase>): nat {
    if calls == [] then 0 else
      Drawn(calls[..|calls| - 1]) + if calls[|calls| - 1].Waiting? then 0 else 1
  }

  function Took(calls: seq<Phase>, k: nat): nat {
    if calls == [] then 0 else
      Took(calls[..|calls| - 1], k) + if calls[|calls| - 1] == Picked(Some(k)) then 1 else 0
  }

  /** The key that a call has picked, or will pick if the first key it looks at is well. */
  predicate Heads(p: Phase, n: nat, k: nat)
    requires n > 0
  {
    (p.Scanning? && Slot(p.start, 0, n) == k) || p == Picked(Some(k))
  }

  function Heading(calls: seq<Phase>, n: nat, k: nat): nat
    requires n > 0
  {
    if calls == [] then 0 else
      Heading(calls[..|calls| - 1], n, k) + if Heads(calls[|calls| - 1], n, k) then 1 else 0
  }

  lemma {:induction false} Changed(calls: seq<Phase>, c: nat, p: Phase, n: nat, k: nat)
    requires c < |calls| && n > 0
    ensures Heading(calls[c := p], n, k)
            == Heading(calls, n, k) - (if Heads(calls[c], n, k) then 1 else 0) + (if Heads(p, n, k) then 1 else 0)
    ensures Drawn(calls[c := p])
            == Drawn(calls) - (if calls[c].Waiting? then 0 else 1) + (if p.Waiting? then 0 else 1)
  {
    hide Heads;
    var m := |calls| - 1;
    if c == m {
      assert calls[c := p][..m] == calls[..m];
    } else {
      assert calls[c := p][..m] == calls[..m][c := p];
      Changed(calls[..m], c, p, n, k);
    }
  }

  /** No key is ever marked beyond this time, and no clock reads an earlier one. */
  predicate AlwaysWell(s: State, moves: seq<Move>, floor: int) {
    && (forall k :: 0 <= k < |s.marks| ==> s.marks[k] <= floor)
    && (forall i :: 0 <= i < |moves| ==>
          match moves[i] case Draw(_, now) => floor <= now case Write(_, mark) => mark <= floor case Look(_) => true)
  }

  /** Every scan is at its first key. */
  ghost predicate Prompt(s: State, floor: int) {
    && (forall k :: 0 <= k < |s.marks| ==> s.marks[k] <= floor)
    && (forall c :: 0 <= c < |s.calls| ==>
          match s.calls[c]
          case Waiting(excluded) => excluded == []
          case Scanning(excluded, _, now, i, _) => excluded == [] && i == 0 && floor <= now
          case Picked(_) => true)
  }

  /** Calls that have not begun, and exclude nothing. */
  predicate Fresh(calls: seq<Phase>) { forall c :: 0 <= c < |calls| ==> calls[c] == Waiting([]) }

  lemma {:induction false} FreshCounts(calls: seq<Phase>, n: nat, k: nat)
    requires Fresh(calls) && n > 0
    ensures Drawn(calls) == 0 && Heading(calls, n, k) == 0
  {
    if calls != [] {
      FreshCounts(calls[..|calls| - 1], n, k);
    }
  }

  ghost predicate Even(s: State, first: nat, n: nat, k: nat, floor: int) {
    && n > 0 && |s.marks| == n && Prompt(s, floor)
    && (first + Drawn(s.calls) < WRAP ==> s.rr == first + Drawn(s.calls))
    && (first + Drawn(s.calls) <= WRAP ==> Heading(s.calls, n, k) == Picks(first, Drawn(s.calls), n, k))
  }

  lemma StepEven(s: State, m: Move, first: nat, n: nat, k: nat, floor: int)
    requires Even(s, first, n, k, floor) && Enabled(s, m)
    requires match m case Draw(_, now) => floor <= now case Write(_, mark) => mark <= floor case Look(_) => true
    ensures Even(Step(s, m), first, n, k, floor)
  {
    hide Heading, Drawn;
    match m
    case Draw(c, now) =>
      var t := Drawn(s.calls);
      Changed(s.calls, c, Scanning(s.calls[c].excluded, s.rr, now, 0, None), n, k);
      if first + t + 1 <= WRAP {
        Remainder(first + t, 0, first + t, WRAP);
        assert Slot(s.rr, 0, n) == Turn(first, t, n);
        if first + t + 1 < WRAP {
          Remainder(first + t + 1, 0, first + t + 1, WRAP);
        }
      }
    case Look(c) =>
      Changed(s.calls, c, Looked(s.calls[c], s.marks), n, k);
    case Write(_, _) =>
  }

  lemma {:induction false} RunEven(s: State, moves: seq<Move>, n: nat, k: nat, floor: int)
    requires |s.marks| == n > 0 && s.rr < WRAP && Fresh(s.calls) && AlwaysWell(s, moves, floor)
    requires Run(s, moves).Some?
    ensures Even(Run(s, moves).value, s.rr, n, k, floor) && |Run(s, moves).value.calls| == |s.calls|
  {
    hide Even;
    if moves == [] {
      EvenStart(s, n, k, floor);
    } else {
      var m := |moves| - 1;
      RunEven(s, moves[..m], n, k, floor);
      StepEven(Run(s, moves[..m]).value, moves[m], s.rr, n, k, floor);
    }
  }

  lemma EvenStart(s: State, n: nat, k: nat, floor: int)
    requires |s.marks| == n > 0 && s.rr < WRAP && Fresh(s.calls) && forall j :: 0 <= j < n ==> s.marks[j] <= floor
    ensures Even(s, s.rr, n, k, floor)
  {
    FreshCounts(s.calls, n, k);
  }

  /** A state in which no scan is under way. */
  predicate Quiet(calls: seq<Phase>) { forall c :: 0 <= c < |calls| ==> !calls[c].Scanning? }

  lemma {:induction false} QuietTook(calls: seq<Phase>, n: nat, k: nat)
    requires n > 0 && Quiet(calls)
    ensures Took(calls, k) == Heading(calls, n, k)
  {
    if calls != [] {
      QuietTook(calls[..|calls| - 1], n, k);
    }
  }

  /** However concurrent calls of `next` interleave, while no key is cooling down and none is excluded: when
      no scan is under way and the counter has not wrapped, each key has been returned to the floor or the
      ceiling of (number of calls that drew a ticket) / n of them. */
  lemma ConcurrentFairness(s: State, moves: seq<Move>, n: nat, k: nat, floor: int)
    requires k < n == |s.marks| && s.rr < WRAP && Fresh(s.calls) && AlwaysWell(s, moves, floor)
    requires Run(s, moves).Some? && Quiet(Run(s, moves).value.calls)
    requires s.rr + Drawn(Run(s, moves).value.calls) <= WRAP
    ensures var calls := Run(s, moves).value.calls;
      Drawn(calls) / n <= Took(calls, k) <= (Drawn(calls) + n - 1) / n
  {
    hide Heading, Drawn, Took, Picks, Run, AlwaysWell, Fresh;
    RunEven(s, moves, n, k, floor);
    var calls := Run(s, moves).value.calls;
    QuietTook(calls, n, k);
    Fairness(s.rr, Drawn(calls), n, k);
  }
}
