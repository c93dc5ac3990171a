/** server.go: calling the upstream with one key and, if it is refused, with the next.
    keys.go: choosing the first key for a request. */
module Failover {
  import opened Text
  import opened Cooldown
  import opened KeyPool

  /* ---- Choosing the first key ---- */

  class ClientKey {
    /** The pool key this client is bound to, if any. */
    const upstream: UpstreamKey?
    var requests: nat

    constructor (upstream: UpstreamKey?)
      ensures this.upstream == upstream && requests == 0
    {
      this.upstream, requests := upstream, 0;
    }
  }

  datatype Resolution =
    | Resolved(upstream: UpstreamKey, client: ClientKey?, byo: bool)
    | MissingKey
    | InvalidKey
    | NoUpstreamKey

  predicate LooksLikeUpstreamKey(s: string) { |s| > 5 && s[..5] == "user_" }

  predicate InPool(keys: seq<UpstreamKey>, k: UpstreamKey) { 0 <= k.index < |keys| && keys[k.index] == k }

  /** The last key of the pool with this value. */
  function Lookup(keys: seq<UpstreamKey>, value: string): (k: UpstreamKey?)
    ensures k != null ==> k in keys && k.value == value
    ensures k == null ==> forall other :: other in keys ==> other.value != value
  {
    if keys == [] then null
    else if keys[|keys| - 1].value == value then keys[|keys| - 1]
    else Lookup(keys[..|keys| - 1], value)
  }

  class Authenticator {
    const enabled: bool
    const allowBYO: bool
    const byValue: map<string, ClientKey>
    /** The keys that clients have brought themselves. */
    var byoKeys: map<string, UpstreamKey>

    constructor (byValue: map<string, ClientKey>, allowBYO: bool)
      ensures enabled == (|byValue| > 0) && this.byValue == byValue && this.allowBYO == allowBYO
      ensures byoKeys == map[]
    {
      enabled, this.byValue, this.allowBYO, byoKeys := |byValue| > 0, byValue, allowBYO, map[];
    }

    ghost predicate Valid(keys: seq<UpstreamKey>)
      reads this
    {
      && (forall v :: v in byoKeys ==> byoKeys[v].value == v && byoKeys[v].index < 0)
      && (forall v :: v in byValue && byValue[v].upstream != null ==> InPool(keys, byValue[v].upstream))
    }

    /** `byoKey`: a key is created once and then remembered. */
    method ByoKey(value: string) returns (k: UpstreamKey)
      modifies this`byoKeys
      ensures value in old(byoKeys) ==> k == old(byoKeys)[value] && byoKeys == old(byoKeys)
      ensures value !in old(byoKeys) ==>
        fresh(k) && k.value == value && k.index < 0 && byoKeys == old(byoKeys)[value := k]
    {
      if value in byoKeys {
        return byoKeys[value];
      }
      k := new UpstreamKey(value, -1);
      byoKeys := byoKeys[value := k];
    }

    /** The key a client brought: the pool's own if it has that value, else the remembered one. */
    method Brought(pool: Pool, presented: string) returns (r: Resolution)
      requires pool.Valid() && Valid(pool.keys)
      modifies this`byoKeys
      ensures Valid(pool.keys)
      ensures r.Resolved? && r.byo && r.client == null && r.upstream.value == presented
      ensures r.upstream.index < 0 || InPool(pool.keys, r.upstream)
      ensures Lookup(pool.keys, presented) != null ==>
        r.upstream == Lookup(pool.keys, presented) && byoKeys == old(byoKeys)
      ensures Lookup(pool.keys, presented) == null ==> presented in byoKeys && byoKeys[presented] == r.upstream
      ensures Lookup(pool.keys, presented) == null && presented !in old(byoKeys) ==> fresh(r.upstream)
      ensures r.upstream.index < 0 ==> Lookup(pool.keys, presented) == null
      ensures forall v :: v in old(byoKeys) ==> v in byoKeys && byoKeys[v] == old(byoKeys)[v]
    {
      var known := Lookup(pool.keys, presented);
      if known != null {
        assert InPool(pool.keys, known);
        return Resolved(known, null, true);
      }
      var own := ByoKey(presented);
      return Resolved(own, null, true);
    }
  }

  /** Who may pass without a bound key, and how. */
  predicate Brings(a: Authenticator?, presented: string) {
    LooksLikeUpstreamKey(presented)
    && (a == null || !a.enabled || (presented !in a.byValue && a.allowBYO))
  }

  /** resolve, for the key a request presents ("" if it presents none). */
  method Resolve(a: Authenticator, presented: string, pool: Pool, now: int, word: nat) returns (r: Resolution)
    requires pool.Valid() && a.Valid(pool.keys) && word < WRAP
    modifies pool`rr, a`byoKeys, a.byValue.Values
    ensures pool.Valid() && a.Valid(pool.keys)
    // A key is one of the pool's, or the client brought it.
    ensures r.Resolved? ==> r.upstream.index < 0 || InPool(pool.keys, r.upstream)
    ensures r.Resolved? && r.upstream.index < 0 ==> r.byo
    // Exactly who is turned away, and why.
    ensures r == MissingKey <==> presented == "" && (a.enabled || |pool.keys| == 0)
    ensures r == InvalidKey <==>
      presented != "" && a.enabled && presented !in a.byValue && !(a.allowBYO && LooksLikeUpstreamKey(presented))
    ensures r == NoUpstreamKey <==>
      && |pool.keys| == 0 && presented != ""
      && if a.enabled then presented in a.byValue && a.byValue[presented].upstream == null
         else !LooksLikeUpstreamKey(presented)
    // A client that brings a key gets its own key; it does not use up a ticket.
    ensures r.Resolved? ==> (r.byo <==> Brings(a, presented))
    ensures r.Resolved? && r.byo ==> r.upstream.value == presented && r.client == null && pool.rr == old(pool.rr)
    ensures forall v :: v in old(a.byoKeys) ==> v in a.byoKeys && a.byoKeys[v] == old(a.byoKeys)[v]
    ensures r.Resolved? && r.upstream.index < 0 ==> presented in a.byoKeys && a.byoKeys[presented] == r.upstream
    ensures r.Resolved? && r.upstream.index < 0 && presented !in old(a.byoKeys) ==> fresh(r.upstream)
    // A bound client gets the key it is bound to.
    ensures r.Resolved? && r.client != null ==>
      && a.enabled && presented in a.byValue && r.client == a.byValue[presented]
      && (r.client.upstream != null ==> r.upstream == r.client.upstream && pool.rr == old(pool.rr))
    ensures r.Resolved? && !r.byo && a.enabled ==> r.client != null
  {
    var pick: UpstreamKey?;
    var start: nat;
    if a.enabled {
      if presented == "" {
        return MissingKey;
      }
      if presented in a.byValue {
        var client := a.byValue[presented];
        client.requests := client.requests + 1;
        if client.upstream != null {
          return Resolved(client.upstream, client, false);
        }
        pick, start := pool.Next([], now, word);
        if pick != null {
          return Resolved(pick, client, false);
        }
        return NoUpstreamKey;
      }
      if a.allowBYO && LooksLikeUpstreamKey(presented) {
        r := a.Brought(pool, presented);
        return r;
      }
      return InvalidKey;
    }
    if LooksLikeUpstreamKey(presented) {
      r := a.Brought(pool, presented);
      return r;
    }
    pick, start := pool.Next([], now, word);
    if pick != null {
      return Resolved(pick, null, false);
    }
    return if presented == "" then MissingKey else NoUpstreamKey;
  }

  /* ---- Calling the upstream ---- */

  /** What one upstream call comes to. */
  datatype Response = TransportError | Status(code: int)

  datatype Outcome = Broken | Answered(code: int) | NoKey

  predicate Retryable(code: int) { code in {401, 402, 403, 429, 500, 502, 503, 504} }

  /** A refusal that another key may be spared: of those for a bad request only those that concern the key, and
      of the upstream's own failures those that may pass. */
  lemma RetryableIs(code: int)
    ensures code < 500 ==> (Retryable(code) <==> code == 401 || code == 402 || code == 403 || code == 429)
    ensures code >= 500 ==> (Retryable(code) <==> code == 500 || 502 <= code <= 504)
  {
  }

  predicate Refused(r: Response) { r.Status? && r.code / 100 != 2 && Retryable(r.code) }

  /** What surrounds a request: the reply to its c-th call, the ticket its d-th scan draws (other
      requests draw in between), the time, and whether other requests leave the marks alone. */
  datatype World = World(responses: nat -> Response, tickets: nat -> nat, clock: nat -> int, quiet: bool)

  ghost predicate Covered(world: World, n: nat) { n > 0 && forall d :: Covers(world.tickets(d), n) }

  ghost predicate AllRefused(world: World, calls: nat) { forall c: nat :: c < calls ==> Refused(world.responses(c)) }

  /** Whether the request must stay with the key it was given. */
  predicate Pinned(poolSize: nat, byo: bool, client: ClientKey?) {
    poolSize <= 1 || byo || (client != null && client.upstream != null)
  }

  /** Other requests may cool or heal any key of the pool at any time. */
  method Interfere(keys: seq<UpstreamKey>)
    modifies keys
  {
    for i := 0 to |keys| {
      var mark: int := *;
      keys[i].unhealthyUntil := mark;
    }
  }

  function Min(a: int, b: int): int { if a < b then a else b }

  function Max(a: int, b: int): int { if a < b then b else a }

  /** The mark of a called key, directly before and directly after its reply was dealt with. */
  datatype Marked = Marked(before: int, after: int)

  /** What a reply does to the mark of its key. A refused key that is moved past stays out for the cooldown,
      five times as long if it was turned away for what it is, but never for less than before; a success
      clears the mark; any other reply ends the request and leaves the mark. */
  predicate Follows(m: Marked, reply: Response, cooldown: int, now: int, movedPast: bool) {
    if movedPast then
      && reply.Status?
      && m.after == if cooldown <= 0 then m.before
                    else Max(m.before, now + (if reply.code in {401, 402, 403} then 5 * cooldown else cooldown))
    else m.after == if reply.Status? && 200 <= reply.code < 300 then 0 else m.before
  }

  ghost predicate AllFollow(log: seq<Marked>, world: World, cooldown: int, movedPast: nat) {
    forall i: nat :: i < |log| ==> Follows(log[i], world.responses(i), cooldown, world.clock(i), i < movedPast)
  }

  /** Each key has the mark that its reply left it with, and a key that was not called has its first one. */
  ghost predicate Settled(all: seq<UpstreamKey>, start: seq<int>, calls: seq<UpstreamKey>, log: seq<Marked>)
    requires |start| == |all| && |log| == |calls|
    reads all
  {
    forall j :: 0 <= j < |all| ==>
      && (all[j] !in calls ==> all[j].unhealthyUntil == start[j])
      && forall i :: 0 <= i < |calls| && calls[i] == all[j] ==> log[i] == Marked(start[j], all[j].unhealthyUntil)
  }

  ghost function StartMarks(all: seq<UpstreamKey>): (start: seq<int>)
    reads all
    ensures |start| == |all| && forall j :: 0 <= j < |all| ==> start[j] == all[j].unhealthyUntil
  {
    if all == [] then [] else StartMarks(all[..|all| - 1]) + [all[|all| - 1].unhealthyUntil]
  }

  /** A key that a request cooled is not healthy before the deadline that its reply called for. */
  lemma CooledStaysOut(all: seq<UpstreamKey>, start: seq<int>, calls: seq<UpstreamKey>, log: seq<Marked>, world: World,
                       cooldown: int, movedPast: nat, i: nat, time: int)
    requires |start| == |all| && |log| == |calls| && Settled(all, start, calls, log)
    requires AllFollow(log, world, cooldown, movedPast) && i < movedPast <= |calls| && calls[i] in all && cooldown > 0
    requires var reply := world.responses(i);
      reply.Status? ==> time < world.clock(i) + if reply.code in {401, 402, 403} then 5 * cooldown else cooldown
    ensures !calls[i].Healthy(time)
  {
    var j :| 0 <= j < |all| && all[j] == calls[i];
    assert Follows(log[i], world.responses(i), cooldown, world.clock(i), true);
    assert log[i] == Marked(start[j], all[j].unhealthyUntil);
  }

  lemma NothingFollows(world: World, cooldown: int)
    ensures AllFollow([], world, cooldown, 0)
  {
  }

  lemma SettledNone(all: seq<UpstreamKey>, start: seq<int>)
    requires |start| == |all| && forall j :: 0 <= j < |all| ==> start[j] == all[j].unhealthyUntil
    ensures Settled(all, start, [], [])
  {
  }

  lemma FollowSnoc(log: seq<Marked>, m: Marked, world: World, cooldown: int, movedPast: nat)
    requires AllFollow(log, world, cooldown, |log|) && movedPast >= |log|
    requires Follows(m, world.responses(|log|), cooldown, world.clock(|log|), movedPast > |log|)
    ensures AllFollow(log + [m], world, cooldown, movedPast)
  {
    hide Follows;
  }

  ghost predicate Distinct(calls: seq<UpstreamKey>) {
    forall i, j :: 0 <= i < j < |calls| ==> calls[i] != calls[j]
  }

  ghost predicate Called(calls: seq<UpstreamKey>, k: int) { exists i :: 0 <= i < |calls| && calls[i].index == k }

  /** The exclusion flags are set for exactly the keys called so far. */
  ghost predicate Tracks(keys: seq<UpstreamKey>, calls: seq<UpstreamKey>, excluded: seq<bool>) {
    && |excluded| == |keys|
    && Distinct(calls)
    && (forall i :: 0 <= i < |calls| ==> InPool(keys, calls[i]))
    && (forall k :: 0 <= k < |keys| ==> (excluded[k] <==> Called(calls, k)))
  }

  lemma TracksSnoc(keys: seq<UpstreamKey>, calls: seq<UpstreamKey>, excluded: seq<bool>, key: UpstreamKey)
    requires Tracks(keys, calls, excluded) && InPool(keys, key) && !excluded[key.index]
    ensures Tracks(keys, calls + [key], excluded[key.index := true])
  {
    var all, flags := calls + [key], excluded[key.index := true];
    assert all[|calls|].index == key.index;
    assert !Called(calls, key.index);
    forall k | 0 <= k < |keys| ensures flags[k] <==> Called(all, k) {
      if Called(calls, k) {
        var i :| 0 <= i < |calls| && calls[i].index == k;
        assert all[i].index == k;
      }
    }
  }

  lemma {:induction false} Below(s: set<int>, n: nat)
    requires forall k :: k in s ==> 0 <= k < n
    ensures |s| <= n
    ensures |s| == n <==> forall k :: 0 <= k < n ==> k in s
  {
    if n == 0 {
      assert forall k :: k !in s;
      assert s == {};
    } else {
      var t := s - {n - 1};
      Below(t, n - 1);
      assert s == if n - 1 in s then t + {n - 1} else t;
      assert forall k :: 0 <= k < n - 1 ==> (k in t <==> k in s);
    }
  }

  lemma {:induction false} Indices(keys: seq<UpstreamKey>, calls: seq<UpstreamKey>) returns (s: set<int>)
    requires Distinct(calls) && forall i :: 0 <= i < |calls| ==> InPool(keys, calls[i])
    ensures |s| == |calls|
    ensures forall k :: k in s <==> Called(calls, k)
  {
    if calls == [] {
      s := {};
    } else {
      var n := |calls| - 1;
      var t := Indices(keys, calls[..n]);
      s := t + {calls[n].index};
      assert !Called(calls[..n], calls[n].index);
      forall k ensures k in s <==> Called(calls, k) {
        if Called(calls[..n], k) {
          var i :| 0 <= i < n && calls[..n][i].index == k;
          assert calls[i].index == k;
        }
      }
    }
  }

  /** As many keys are excluded as calls were made. */
  lemma TracksCount(keys: seq<UpstreamKey>, calls: seq<UpstreamKey>, excluded: seq<bool>)
    requires Tracks(keys, calls, excluded)
    ensures |calls| <= |keys|
    ensures |calls| == |keys| <==> forall k :: 0 <= k < |keys| ==> excluded[k]
  {
    var s := Indices(keys, calls);
    hide Distinct;
    forall k | k in s ensures 0 <= k < |keys| {
      assert Called(calls, k);
    }
    Below(s, |keys|);
    if forall k :: 0 <= k < |keys| ==> excluded[k] {
      assert forall k :: 0 <= k < |keys| ==> k in s;
    }
    if |calls| == |keys| {
      assert forall k :: 0 <= k < |keys| ==> k in s;
    }
  }

  /** The scan for the next key: it finds one that was not called, and with full coverage it fails to
      only when all were called. */
  method Another(pool: Pool, ghost upstream: UpstreamKey, ghost calls: seq<UpstreamKey>, excluded: seq<bool>,
                 ticket: nat, now: int, world: World, ghost cooldown: int, ghost log: seq<Marked>,
                 ghost all: seq<UpstreamKey>, ghost start: seq<int>)
    returns (key: UpstreamKey?)
    requires pool.Valid() && |pool.keys| > 1
    requires Made(pool.keys, upstream, world, cooldown, calls, excluded, log, all, start)
    modifies pool.keys
    ensures Made(pool.keys, upstream, world, cooldown, calls, excluded, log, all, start)
    ensures key != null ==> key.index < |excluded|
    ensures key != null ==> InPool(pool.keys, key) && !excluded[key.index] && |calls| < |pool.keys|
    ensures key == null && Covers(ticket, |pool.keys|) ==> |calls| == |pool.keys|
  {
    hide Tracks, NoneOf, FirstOf, Covers, Settled, AllRefused, Distinct;
    Flags(pool.keys, calls, excluded);
    TracksCount(pool.keys, calls, excluded);
    if !world.quiet {
      Interfere(pool.keys);
    }
    key := pool.Scan(ticket, excluded, now);
    if key == null && Covers(ticket, |pool.keys|) {
      CoveredNone(ticket, |pool.keys|, pool.Well(excluded, now));
      CoveredNone(ticket, |pool.keys|, pool.Left(excluded));
      forall k | 0 <= k < |pool.keys| ensures excluded[k] {
        assert k !in pool.Left(excluded);
      }
    }
  }

  lemma Flags(keys: seq<UpstreamKey>, calls: seq<UpstreamKey>, excluded: seq<bool>)
    requires Tracks(keys, calls, excluded)
    ensures |excluded| == |keys|
  {
  }

  lemma TracksNone(keys: seq<UpstreamKey>, excluded: seq<bool>)
    requires |excluded| == |keys| && forall k :: 0 <= k < |keys| ==> !excluded[k]
    ensures Tracks(keys, [], excluded)
  {
  }

  lemma OneCall(key: UpstreamKey)
    ensures Distinct([key])
  {
  }

  lemma AllRefusedSnoc(world: World, calls: nat)
    requires AllRefused(world, calls) && Refused(world.responses(calls))
    ensures AllRefused(world, calls + 1)
  {
  }

  lemma NoneExcluded(keys: seq<UpstreamKey>, calls: seq<UpstreamKey>, excluded: seq<bool>)
    requires Tracks(keys, calls, excluded)
    ensures calls == [] ==> forall k :: 0 <= k < |excluded| ==> !excluded[k]
  {
  }

  lemma NotCalled(keys: seq<UpstreamKey>, calls: seq<UpstreamKey>, excluded: seq<bool>, key: UpstreamKey)
    requires Tracks(keys, calls, excluded)
    ensures calls == [] || (InPool(keys, key) && !excluded[key.index]) ==> key !in calls
  {
    if InPool(keys, key) && !excluded[key.index] && key in calls {
      var i :| 0 <= i < |calls| && calls[i] == key;
      assert Called(calls, key.index);
    }
  }

  /** What one reply does: it may end the request, and it changes nothing but the mark of its key. */
  method Reply(key: UpstreamKey, response: Response, last: bool, keyCooldown: int, now: int,
               ghost all: seq<UpstreamKey>, ghost start: seq<int>, ghost calls: seq<UpstreamKey>,
               ghost log: seq<Marked>)
    returns (end: Option<Outcome>, ghost mark: Marked)
    requires |start| == |all| && |log| == |calls| && key !in calls
    modifies key
    ensures mark == Marked(old(key.unhealthyUntil), key.unhealthyUntil)
    ensures Follows(mark, response, keyCooldown, now, end.None?)
    ensures end.None? <==> Refused(response) && !last
    ensures end.Some? ==> end.value == if response.TransportError? then Broken else Answered(response.code)
    ensures old(Settled(all, start, calls, log)) ==> Settled(all, start, calls + [key], log + [mark])
  {
    mark := Marked(key.unhealthyUntil, key.unhealthyUntil);
    if response.TransportError? {
      return Some(Broken), mark;
    }
    if response.code / 100 == 2 {
      key.MarkHealthy();
      mark := mark.(after := key.unhealthyUntil);
      return Some(Answered(response.code)), mark;
    }
    if !Retryable(response.code) || last {
      return Some(Answered(response.code)), mark;
    }
    key.Cool(response.code, keyCooldown, now);
    mark := mark.(after := key.unhealthyUntil);
    return None, mark;
  }

  /** What holds of the calls made so far, the first ones of which were moved past. */
  ghost predicate Kept(keys: seq<UpstreamKey>, upstream: UpstreamKey, world: World, cooldown: int,
                       calls: seq<UpstreamKey>, log: seq<Marked>, movedPast: nat, all: seq<UpstreamKey>,
                       start: seq<int>)
    reads all
  {
    && |log| == |calls| && |start| == |all|
    && Distinct(calls) && (forall i :: 0 < i < |calls| ==> InPool(keys, calls[i]))
    && (calls != [] ==> calls[0] == upstream)
    && (upstream.index >= 0 ==> |calls| <= |keys|)
    && AllFollow(log, world, cooldown, movedPast)
    && (world.quiet ==> Settled(all, start, calls, log))
  }

  /** The calls made so far, all of them refused and moved past. */
  ghost predicate Made(keys: seq<UpstreamKey>, upstream: UpstreamKey, world: World, cooldown: int,
                       calls: seq<UpstreamKey>, excluded: seq<bool>, log: seq<Marked>, all: seq<UpstreamKey>,
                       start: seq<int>)
    reads all
  {
    && Kept(keys, upstream, world, cooldown, calls, log, |calls|, all, start)
    && Tracks(keys, calls, excluded)
    && AllRefused(world, |calls|)
  }

  lemma NothingMade(keys: seq<UpstreamKey>, upstream: UpstreamKey, world: World, cooldown: int, excluded: seq<bool>,
                    all: seq<UpstreamKey>, start: seq<int>)
    requires |excluded| == |keys| && forall k :: 0 <= k < |keys| ==> !excluded[k]
    requires |start| == |all| && forall j :: 0 <= j < |all| ==> start[j] == all[j].unhealthyUntil
    ensures Made(keys, upstream, world, cooldown, [], excluded, [], all, start)
  {
    TracksNone(keys, excluded);
  }

  lemma KeptIs(keys: seq<UpstreamKey>, upstream: UpstreamKey, world: World, cooldown: int,
               calls: seq<UpstreamKey>, log: seq<Marked>, movedPast: nat, all: seq<UpstreamKey>, start: seq<int>)
    requires Kept(keys, upstream, world, cooldown, calls, log, movedPast, all, start)
    ensures |log| == |calls| && |start| == |all|
    ensures Distinct(calls) && (forall i :: 0 < i < |calls| ==> InPool(keys, calls[i]))
    ensures (calls != [] ==> calls[0] == upstream) && (upstream.index >= 0 ==> |calls| <= |keys|)
    ensures AllFollow(log, world, cooldown, movedPast) && (world.quiet ==> Settled(all, start, calls, log))
  {
  }

  lemma MadeIs(keys: seq<UpstreamKey>, upstream: UpstreamKey, world: World, cooldown: int, calls: seq<UpstreamKey>,
               excluded: seq<bool>, log: seq<Marked>, all: seq<UpstreamKey>, start: seq<int>)
    requires Made(keys, upstream, world, cooldown, calls, excluded, log, all, start)
    ensures |log| == |calls| && |start| == |all| && Tracks(keys, calls, excluded) && AllRefused(world, |calls|)
    ensures Kept(keys, upstream, world, cooldown, calls, log, |calls|, all, start)
    ensures |calls| <= |keys|
  {
    hide Tracks, AllRefused;
    TracksCount(keys, calls, excluded);
  }

  /** One more call. */
  method Attempt(pool: Pool, ghost upstream: UpstreamKey, key: UpstreamKey, last: bool, keyCooldown: int, world: World,
                 calls: seq<UpstreamKey>, excluded0: seq<bool>, ghost log: seq<Marked>, ghost all: seq<UpstreamKey>,
                 ghost start: seq<int>)
    returns (end: Option<Outcome>, excluded: seq<bool>, ghost mark: Marked)
    requires Made(pool.keys, upstream, world, keyCooldown, calls, excluded0, log, all, start)
    requires if calls == [] then key == upstream
             else InPool(pool.keys, key) && key.index < |excluded0| && !excluded0[key.index]
    requires upstream.index < 0 || InPool(pool.keys, upstream)
    modifies key
    ensures end.None? <==> Refused(world.responses(|calls|)) && !last
    ensures end.Some? ==>
      && end.value == (if world.responses(|calls|).TransportError? then Broken
                       else Answered(world.responses(|calls|).code))
      && Kept(pool.keys, upstream, world, keyCooldown, calls + [key], log + [mark], |calls|, all, start)
    ensures end.None? && key.index >= 0 ==>
      Made(pool.keys, upstream, world, keyCooldown, calls + [key], excluded, log + [mark], all, start)
  {
    hide Tracks, Distinct, AllRefused, InPool, AllFollow, Follows, Settled;
    var attempt := |calls|;
    excluded := excluded0;
    Flags(pool.keys, calls, excluded);
    InPoolIndex(pool.keys, key);
    NotCalled(pool.keys, calls, excluded, key);
    NoneExcluded(pool.keys, calls, excluded);
    if 0 <= key.index < |excluded| {
      TracksSnoc(pool.keys, calls, excluded, key);
      excluded := excluded[key.index := true];
      TracksDistinct(pool.keys, calls + [key], excluded);
      TracksCount(pool.keys, calls + [key], excluded);
    } else {
      OneCall(key);
      assert calls + [key] == [key];
    }
    end, mark := Reply(key, world.responses(attempt), last, keyCooldown, world.clock(attempt), all, start, calls, log);
    FollowSnoc(log, mark, world, keyCooldown, if end.None? then attempt + 1 else attempt);
    if end.None? {
      AllRefusedSnoc(world, attempt);
    }
  }

  /** generateWithFailover. `calls` lists the keys the upstream was called with, in order, `cooled` the keys
      put into cooldown, and `log` what each reply did to the mark of its key. */
  method Generate(pool: Pool, keyFailover: nat, keyCooldown: int, upstream: UpstreamKey, byo: bool, client: ClientKey?,
                  world: World)
    returns (outcome: Outcome, calls: seq<UpstreamKey>, cooled: seq<UpstreamKey>, ghost log: seq<Marked>)
    requires pool.Valid()
    requires upstream.index < 0 || InPool(pool.keys, upstream)
    // A key from outside the pool is brought by the client.
    requires upstream.index < 0 ==> byo
    modifies pool.keys, upstream
    ensures 1 <= |calls| <= 1 + keyFailover && calls[0] == upstream
    // No key is called twice, and all but the first come from the pool.
    ensures Distinct(calls) && forall i :: 0 < i < |calls| ==> InPool(pool.keys, calls[i])
    // A request that is pinned to its key makes exactly one call.
    ensures Pinned(|pool.keys|, byo, client) ==> calls == [upstream] && cooled == [] && outcome != NoKey
    // Every call but the last was refused in a way that another key may cure.
    ensures AllRefused(world, |calls| - 1)
    // It cools exactly the keys it moved past.
    ensures outcome != NoKey ==> cooled == calls[..|calls| - 1]
    ensures outcome == NoKey ==> cooled == calls
    // The marks follow the replies.
    ensures |log| == |calls| && AllFollow(log, world, keyCooldown, |cooled|)
    // If other requests leave the marks alone, those are the marks in the end, and no other key's changes.
    ensures world.quiet ==>
      Settled(pool.keys + [upstream], old(StartMarks(pool.keys + [upstream])), calls, log)
    // How it ends; in particular a transport error ends it.
    ensures outcome == Broken ==> world.responses(|calls| - 1) == TransportError
    ensures outcome.Answered? ==> world.responses(|calls| - 1) == Status(outcome.code)
    ensures outcome == NoKey ==> Refused(world.responses(|calls| - 1)) && |calls| < 1 + keyFailover
    ensures outcome == NoKey && Covered(world, |pool.keys|) ==> |calls| == |pool.keys|
    // It runs out of keys exactly if it may try more keys than there are and all of them are refused.
    ensures upstream.index >= 0 ==> |calls| <= |pool.keys|
    ensures Covered(world, |pool.keys|) ==>
      (outcome == NoKey <==>
       !Pinned(|pool.keys|, byo, client) && |pool.keys| < 1 + keyFailover && AllRefused(world, |pool.keys|))
    // It gives up on a refusal only when it has no attempt or no key left.
    ensures !Pinned(|pool.keys|, byo, client) && outcome.Answered? && Refused(world.responses(|calls| - 1)) ==>
      |calls| == 1 + keyFailover
    // It tries as many keys as it may exactly if all of them before the last are refused.
    ensures !Pinned(|pool.keys|, byo, client) && Covered(world, |pool.keys|) ==>
      (|calls| == Min(1 + keyFailover, |pool.keys|) <==> AllRefused(world, Min(1 + keyFailover, |pool.keys|) - 1))
  {
    hide Covers, Tracks, Distinct, AllRefused, InPool, AllFollow, Follows, Settled, Kept, Made, StartMarks;
    hide Called, Retryable, Pool.Valid;
    var n := |pool.keys|;
    var attempts := 1 + keyFailover;
    if n <= 1 || byo || (client != null && client.upstream != null) {
      attempts := 1;
    }
    var excluded := seq(n, _ => false);
    var key: UpstreamKey? := upstream;
    calls, cooled, log := [], [], [];
    ghost var all := pool.keys + [upstream];
    ghost var start := StartMarks(all);
    NothingMade(pool.keys, upstream, world, keyCooldown, excluded, all, start);
    var attempt := 0;
    while attempt < attempts
      invariant attempts == (if Pinned(n, byo, client) then 1 else 1 + keyFailover)
      invariant |calls| == |log| == attempt < attempts + 1 && cooled == calls
      invariant key == (if attempt == 0 then upstream else null)
      invariant attempt > 0 ==> attempt < attempts && !Pinned(n, byo, client)
      invariant Made(pool.keys, upstream, world, keyCooldown, calls, excluded, log, all, start)
    {
      MadeIs(pool.keys, upstream, world, keyCooldown, calls, excluded, log, all, start);
      if key == null {
        key := Another(pool, upstream, calls, excluded, world.tickets(attempt), world.clock(attempt), world,
                       keyCooldown, log, all, start);
        MadeIs(pool.keys, upstream, world, keyCooldown, calls, excluded, log, all, start);
        if key == null {
          RefusedPrefix(world, attempt, attempt - 1);
          RefusedPrefix(world, attempt, Min(attempt, n));
          RefusedAmong(world, attempt - 1, attempt);
          KeptIs(pool.keys, upstream, world, keyCooldown, calls, log, attempt, all, start);
          return NoKey, calls, cooled, log;
        }
      }
      InPoolIndex(pool.keys, key);
      var end: Option<Outcome>;
      ghost var mark: Marked;
      end, excluded, mark := Attempt(pool, upstream, key, attempt == attempts - 1, keyCooldown, world, calls, excluded,
                                     log, all, start);
      calls, log := calls + [key], log + [mark];
      RefusedAmong(world, attempt, n);
      RefusedAmong(world, attempt, if n == 0 then 0 else Min(1 + keyFailover, n) - 1);
      if end.Some? {
        KeptIs(pool.keys, upstream, world, keyCooldown, calls, log, attempt, all, start);
        return end.value, calls, cooled, log;
      }
      cooled := cooled + [key];
      key := null;
      attempt := attempt + 1;
    }
    assert false;
  }

  /** The pool of two keys, both refused: they are cooled, the last one too, and no key is left. */
  method PoolExhausted(now: int) returns (pool: Pool, outcome: Outcome, cooled: seq<UpstreamKey>)
    ensures fresh(pool) && |pool.keys| == 2 && outcome == NoKey
    ensures |cooled| == 2 && pool.keys[0] in cooled && pool.keys[1] in cooled
  {
    var k0 := new UpstreamKey("user_a", 0);
    var k1 := new UpstreamKey("user_b", 1);
    pool := new Pool([k0, k1], false);
    var world := World(_ => Status(429), _ => 0, _ => now, true);
    InStepCovers(0, 2);
    var calls;
    ghost var log;
    outcome, calls, cooled, log := Generate(pool, 5, 60, k0, false, null, world);
    assert InPool(pool.keys, calls[1]);
  }

  /** A 429, then a success: the first key stays out for the whole cooldown, the second one is clear. */
  method MovedPast(now: int) returns (pool: Pool, outcome: Outcome)
    requires now >= 0
    ensures fresh(pool) && |pool.keys| == 2 && outcome == Answered(200)
    ensures pool.keys[0].unhealthyUntil == now + 60 && pool.keys[1].unhealthyUntil == 0
    ensures forall time :: pool.keys[0].Healthy(time) <==> now + 60 <= time
  {
    var k0 := new UpstreamKey("user_a", 0);
    var k1 := new UpstreamKey("user_b", 1);
    pool := new Pool([k0, k1], false);
    var world := World(c => Status(if c == 0 then 429 else 200), _ => 0, _ => now, true);
    InStepCovers(0, 2);
    var calls, cooled;
    ghost var log;
    ghost var all, start := pool.keys + [k0], StartMarks(pool.keys + [k0]);
    outcome, calls, cooled, log := Generate(pool, 1, 60, k0, false, null, world);
    assert AllRefused(world, 1);
    assert |calls| == 2;
    assert InPool(pool.keys, calls[1]) && calls[0] != calls[1];
    assert Settled(all, start, calls, log);
    assert all[0] == k0 && all[1] == k1;
    assert Follows(log[0], world.responses(0), 60, now, true) && Follows(log[1], world.responses(1), 60, now, false);
  }

  lemma NothingRefused(world: World)
    ensures AllRefused(world, 0)
  {
  }

  lemma RefusedAmong(world: World, c: nat, calls: nat)
    ensures AllRefused(world, calls) && c < calls ==> Refused(world.responses(c))
  {
  }

  lemma RefusedPrefix(world: World, calls: nat, fewer: nat)
    requires AllRefused(world, calls) && fewer <= calls
    ensures AllRefused(world, fewer)
  {
  }

  lemma TracksDistinct(keys: seq<UpstreamKey>, calls: seq<UpstreamKey>, excluded: seq<bool>)
    requires Tracks(keys, calls, excluded)
    ensures Distinct(calls)
  {
  }

  lemma InPoolIndex(keys: seq<UpstreamKey>, key: UpstreamKey)
    ensures InPool(keys, key) ==> 0 <= key.index < |keys| && key in keys
    ensures key.index < 0 ==> !InPool(keys, key)
  {
  }

  /** A request from its credentials to its last upstream call: one that brings a key, or whose client
      is bound to one, is served by a single call with exactly that key. */
  method Serve(a: Authenticator, presented: string, pool: Pool, keyFailover: nat, keyCooldown: int, word: nat,
               world: World)
    returns (r: Resolution, outcome: Outcome, calls: seq<UpstreamKey>, cooled: seq<UpstreamKey>,
             ghost log: seq<Marked>)
    requires pool.Valid() && a.Valid(pool.keys) && word < WRAP
    modifies pool, pool.keys, a, a.byValue.Values, a.byoKeys.Values
    ensures !r.Resolved? <==> calls == []
    ensures Brings(a, presented) && presented !in a.byValue ==>
      |calls| == 1 && calls[0].value == presented && cooled == []
    ensures a.enabled && presented in a.byValue && presented != "" && a.byValue[presented].upstream != null ==>
      calls == [a.byValue[presented].upstream] && cooled == []
    ensures a.enabled && presented !in a.byValue && !Brings(a, presented) ==> calls == []
  {
    outcome, calls, cooled, log := NoKey, [], [], [];
    r := Resolve(a, presented, pool, world.clock(0), word);
    if r.Resolved? {
      outcome, calls, cooled, log := Generate(pool, keyFailover, keyCooldown, r.upstream, r.byo, r.client, world);
    }
  }
}
