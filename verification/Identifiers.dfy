/** Identifiers made up from the supply of random strings. What is said of them holds for every supply that
    never repeats itself. */
module Identifiers {
  import opened Upstream

  ghost predicate Injective(hex: Hex) {
    forall i: nat, j: nat :: hex(i) == hex(j) ==> i == j
  }

  predicate Distinct(ids: seq<string>) {
    forall i, j :: 0 <= i < j < |ids| ==> ids[i] != ids[j]
  }

  /** Made of one of the first n random strings. */
  ghost predicate MadeUp(id: string, prefix: string, hex: Hex, n: nat) {
    exists k: nat :: k < n && id == prefix + hex(k)
  }

  lemma NotYet(id: string, prefix: string, hex: Hex, n: nat)
    requires Injective(hex) && MadeUp(id, prefix, hex, n)
    ensures id != prefix + hex(n)
  {
    var k: nat :| k < n && id == prefix + hex(k);
    assert (prefix + hex(k))[|prefix|..] == hex(k) && (prefix + hex(n))[|prefix|..] == hex(n);
  }

  lemma MadeUpLater(id: string, prefix: string, hex: Hex, n: nat, m: nat)
    requires MadeUp(id, prefix, hex, n) && n <= m
    ensures MadeUp(id, prefix, hex, m)
  {
  }

  lemma MadeUpNow(prefix: string, hex: Hex, n: nat, m: nat)
    requires n < m
    ensures MadeUp(prefix + hex(n), prefix, hex, m)
  {
  }

  /** The calls as a client is told of them: each keeps its name and arguments, and the identifier that the
      upstream gave it. One without gets an identifier of its own, different from all others made up. */
  ghost predicate Told(said: seq<Call>, calls: seq<Call>, prefix: string, hex: Hex) {
    && |said| == |calls|
    && (forall i :: 0 <= i < |calls| ==>
      && said[i].name == calls[i].name && said[i].args == calls[i].args
      && (calls[i].id != "" ==> said[i].id == calls[i].id)
      && (calls[i].id == "" ==> prefix <= said[i].id))
    && (Injective(hex) ==>
      forall i, j :: 0 <= i < j < |calls| && calls[i].id == "" && calls[j].id == "" ==> said[i].id != said[j].id)
  }

  /** The same, with the number of random strings drawn. */
  ghost predicate Drawn(said: seq<Call>, calls: seq<Call>, prefix: string, hex: Hex, n: nat) {
    && Told(said, calls, prefix, hex)
    && forall i :: 0 <= i < |calls| && calls[i].id == "" ==> MadeUp(said[i].id, prefix, hex, n)
  }

  lemma NothingDrawn(prefix: string, hex: Hex)
    ensures Drawn([], [], prefix, hex, 0)
  {
  }

  lemma DrawnLater(said: seq<Call>, calls: seq<Call>, prefix: string, hex: Hex, n: nat, m: nat)
    requires Drawn(said, calls, prefix, hex, n) && n <= m
    ensures Drawn(said, calls, prefix, hex, m)
  {
    forall i | 0 <= i < |calls| && calls[i].id == "" ensures MadeUp(said[i].id, prefix, hex, m) {
      MadeUpLater(said[i].id, prefix, hex, n, m);
    }
  }

  /** One more call, which takes the next random string if it has no identifier. */
  lemma DrawnSnoc(said: seq<Call>, calls: seq<Call>, prefix: string, hex: Hex, n: nat, c: Call, m: nat)
    requires Drawn(said, calls, prefix, hex, n) && n <= m && (c.id == "" ==> n < m)
    ensures Drawn(said + [c.(id := if c.id == "" then prefix + hex(n) else c.id)], calls + [c], prefix, hex, m)
  {
    hide MadeUp, Injective;
    var given := c.(id := if c.id == "" then prefix + hex(n) else c.id);
    var more, all := said + [given], calls + [c];
    forall i | 0 <= i < |all| && all[i].id == "" ensures MadeUp(more[i].id, prefix, hex, m) {
      if i < |calls| {
        MadeUpLater(said[i].id, prefix, hex, n, m);
      } else {
        MadeUpNow(prefix, hex, n, m);
      }
    }
    forall i | Injective(hex) && 0 <= i < |calls| && calls[i].id == "" && c.id == ""
      ensures more[i].id != given.id
    {
      NotYet(said[i].id, prefix, hex, n);
    }
  }

  /** If every call has an identifier, the client is told of the upstream's very calls. */
  lemma ToldAll(said: seq<Call>, calls: seq<Call>, prefix: string, hex: Hex)
    requires Told(said, calls, prefix, hex)
    requires forall i :: 0 <= i < |calls| ==> calls[i].id != ""
    ensures said == calls
  {
  }
}
