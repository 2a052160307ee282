/** The rest of the world, as far as only the outcome of a call matters; and this process's clock. */
module Remote {
  /** Calls to other parts of the system, and database reads: their outcomes in order, how many failed, and
      the addresses at which clients were asked for. */
  class Net {
    ghost var calls: seq<bool>
    ghost var faults: nat
    ghost var dialed: seq<string>

    constructor ()
      ensures calls == [] && faults == 0 && dialed == []
    {
      calls, faults, dialed := [], 0, [];
    }

    method Call() returns (ok: bool)
      modifies this`calls, this`faults
      ensures calls == old(calls) + [ok] && faults == old(faults) + if ok then 0 else 1
    {
      ok := *;
      calls := calls + [ok];
      faults := faults + if ok then 0 else 1;
    }

    /** A client for the server at the address. */
    method Dial(address: string) returns (ok: bool)
      modifies this
      ensures calls == old(calls) + [ok] && faults == old(faults) + if ok then 0 else 1
      ensures dialed == old(dialed) + [address]
    {
      ok := Call();
      dialed := dialed + [address];
    }

    /** How many polls fit before a deadline. */
    method Polls() returns (n: nat) {
      n := *;
    }

    /** A deadline passed. */
    method TimeOut()
      modifies this`calls, this`faults
      ensures calls == old(calls) + [false] && faults == old(faults) + 1
    {
      calls, faults := calls + [false], faults + 1;
    }
  }

  class Clock {
    var now: int

    constructor (start: int)
      ensures now == start
    {
      now := start;
    }

    /** Readings never go back. */
    method Now() returns (reading: int)
      modifies this
      ensures reading == now >= old(now)
    {
      var later: int := *;
      now := if later > now then later else now;
      reading := now;
    }
  }
}
