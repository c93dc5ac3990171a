/** httpx.go: the writer that holds frames back until the response starts. */
module Sse {
  class SseWriter<F> {
    var pending: seq<F>
    var started: bool
    var failed: bool
    /** The frames handed to the client's connection, in order. */
    ghost var wire: seq<F>

    constructor ()
      ensures pending == [] && !started && !failed && wire == []
    {
      pending, started, failed, wire := [], false, false, [];
    }

    method Start() returns (ok: bool)
      modifies this
      ensures old(started) || old(failed) ==>
        ok && wire == old(wire) && pending == old(pending) && started == old(started) && failed == old(failed)
      ensures !old(started) && !old(failed) ==> started && ok == !failed
      ensures !old(started) && !old(failed) && ok ==> wire == old(wire) + old(pending) && pending == []
      ensures !old(started) && !old(failed) && !ok ==> wire == old(wire) && old(pending) != []
    {
      if started || failed {
        return true;
      }
      started := true;
      if |pending| > 0 {
        var broken: bool := *;
        if broken {
          failed := true;
          return false;
        }
        wire := wire + pending;
        pending := [];
      }
      return true;
    }

    method Write(frame: F) returns (ok: bool)
      modifies this
      ensures started == old(started)
      ensures old(failed) ==> !ok && failed && wire == old(wire) && pending == old(pending)
      ensures !old(failed) && !started ==> ok && !failed && wire == old(wire) && pending == old(pending) + [frame]
      ensures !old(failed) && started ==> pending == old(pending) && ok == !failed
      ensures !old(failed) && started ==> wire == if ok then old(wire) + [frame] else old(wire)
    {
      if failed {
        return false;
      }
      if !started {
        pending := pending + [frame];
        return true;
      }
      var broken: bool := *;
      if broken {
        failed := true;
        return false;
      }
      wire := wire + [frame];
      return true;
    }
  }
}
