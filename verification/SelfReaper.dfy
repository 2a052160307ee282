/**
 container-manager's self-reaper: a loop that probes the local agent count on every tick and asks GCE
 to delete its own VM when the zero-agents window has lasted long enough.
 */
module SelfReaper {
  import opened Wrappers
  import opened ZeroAgents

  const SECOND := 1_000_000_000
  const DEFAULT_INTERVAL := 60 * SECOND
  const DEFAULT_TIMEOUT := 600 * SECOND

  /** One firing of the loop's ticker: what the probe and the clock answer on it, and whether GCE
      would accept a deletion asked for on it. */
  datatype Firing = Firing(tick: Tick, accepted: bool)

  datatype TickResult = ProbeError | DeleteError | Done | NotDone

  datatype Identity = Identity(project: Option<string>, zone: Option<string>, name: Option<string>)

  /** An instance, as a deletion names it. */
  datatype Target = Target(project: string, zone: string, name: string)

  /** GCE, with the deletions asked for. */
  class InstanceDeleter {
    ghost var requests: seq<Target>

    constructor ()
      ensures requests == []
    {
      requests := [];
    }

    method DeleteInstance(target: Target, accepted: bool) returns (ok: bool)
      modifies this
      ensures requests == old(requests) + [target] && ok == accepted
    {
      requests := requests + [target];
      ok := accepted;
    }
  }

  /** So many requests for one instance. */
  function Repeated(target: Target, n: nat): seq<Target> {
    seq(n, _ => target)
  }

  datatype RunResult = ProjectUnknown | ZoneUnknown | NameUnknown | Cancelled | Dispatched(at: nat)

  function Ticks(firings: seq<Firing>): (ticks: seq<Tick>)
    ensures |ticks| == |firings|
    ensures forall i | 0 <= i < |firings| :: ticks[i] == firings[i].tick
  {
    seq(|firings|, i requires 0 <= i < |firings| => firings[i].tick)
  }

  /** The firings among the first n on which the automaton asks for the deletion. */
  function DueFirings(start: Option<int>, firings: seq<Firing>, timeout: int, n: nat): seq<nat>
    requires n <= |firings|
  {
    if n == 0 then []
    else DueFirings(start, firings, timeout, n - 1) +
         (if DueAt(start, Ticks(firings), n - 1, timeout) then [n - 1] else [])
  }

  ghost predicate Dispatches(start: Option<int>, firings: seq<Firing>, timeout: int, k: nat)
    requires k < |firings|
  {
    DueAt(start, Ticks(firings), k, timeout) && firings[k].accepted
  }

  class Reaper {
    const deleter: InstanceDeleter
    const interval: int
    const timeout: int
    var zeroSince: Option<int>

    constructor (deleter: InstanceDeleter, interval: int, timeout: int)
      ensures this.deleter == deleter
      ensures this.interval > 0 && this.timeout > 0 && zeroSince == None
      ensures interval > 0 ==> this.interval == interval
      ensures interval <= 0 ==> this.interval == DEFAULT_INTERVAL
      ensures timeout > 0 ==> this.timeout == timeout
      ensures timeout <= 0 ==> this.timeout == DEFAULT_TIMEOUT
    {
      this.deleter := deleter;
      this.interval := if interval <= 0 then DEFAULT_INTERVAL else interval;
      this.timeout := if timeout <= 0 then DEFAULT_TIMEOUT else timeout;
      zeroSince := None;
    }

    /** One iteration; `asked` says whether DeleteInstance was called. */
    method Tick(self: Target, firing: Firing) returns (result: TickResult, asked: bool)
      modifies this, deleter
      ensures deleter.requests == old(deleter.requests) + if asked then [self] else []
      ensures zeroSince == Advance(old(zeroSince), firing.tick)
      ensures asked <==> Due(old(zeroSince), firing.tick, timeout)
      ensures result == if firing.tick.probe.Failed? then ProbeError
                        else if !asked then NotDone
                        else if firing.accepted then Done else DeleteError
    {
      asked := false;
      if firing.tick.probe.Failed? {
        return ProbeError, asked;
      }
      var now := firing.tick.now;
      var elapsed := 0;
      if zeroSince.Some? {
        elapsed := now - zeroSince.value;
      }
      if firing.tick.probe.agents > 0 {
        zeroSince := None;
        return NotDone, asked;
      }
      if zeroSince.None? {
        zeroSince := Some(now);
        return NotDone, asked;
      }
      if elapsed < timeout {
        return NotDone, asked;
      }
      asked := true;
      var accepted := deleter.DeleteInstance(self, firing.accepted);
      result := if accepted then Done else DeleteError;
    }

    /** The loop, over the firings that arrive before the context is cancelled.  `asked` lists the
        firings on which a deletion was asked for, each time of the reaper's own instance. */
    method Run(identity: Identity, firings: seq<Firing>) returns (result: RunResult, asked: seq<nat>)
      modifies this, deleter
      ensures result == ProjectUnknown <==> identity.project.None?
      ensures result == ZoneUnknown <==> identity.project.Some? && identity.zone.None?
      ensures result == NameUnknown <==> identity.project.Some? && identity.zone.Some? && identity.name.None?
      ensures result.ProjectUnknown? || result.ZoneUnknown? || result.NameUnknown? ==>
                asked == [] && zeroSince == old(zeroSince) && deleter.requests == old(deleter.requests)
      ensures result.Cancelled? ==>
                && (forall k | 0 <= k < |firings| :: !Dispatches(old(zeroSince), firings, timeout, k))
                && asked == DueFirings(old(zeroSince), firings, timeout, |firings|)
                && zeroSince == Since(old(zeroSince), Ticks(firings))
      ensures result.Dispatched? ==>
                && result.at < |firings| && Dispatches(old(zeroSince), firings, timeout, result.at)
                && (forall k | 0 <= k < result.at :: !Dispatches(old(zeroSince), firings, timeout, k))
                && asked == DueFirings(old(zeroSince), firings, timeout, result.at + 1)
      ensures result.Cancelled? || result.Dispatched? ==>
                && identity.project.Some? && identity.zone.Some? && identity.name.Some?
                && var self := Target(identity.project.value, identity.zone.value, identity.name.value);
                   deleter.requests == old(deleter.requests) + Repeated(self, |asked|)
    {
      asked := [];
      if identity.project.None? {
        return ProjectUnknown, asked;
      }
      if identity.zone.None? {
        return ZoneUnknown, asked;
      }
      if identity.name.None? {
        return NameUnknown, asked;
      }
      var self := Target(identity.project.value, identity.zone.value, identity.name.value);
      ghost var start := zeroSince;
      ghost var ticks := Ticks(firings);
      for i := 0 to |firings|
        invariant zeroSince == Since(start, ticks[..i])
        invariant forall k | 0 <= k < i :: !Dispatches(start, firings, timeout, k)
        invariant asked == DueFirings(start, firings, timeout, i)
        invariant deleter.requests == old(deleter.requests) + Repeated(self, |asked|)
      {
        assert ticks[..i + 1][..i] == ticks[..i];
        var outcome, didAsk := Tick(self, firings[i]);
        if didAsk {
          asked := asked + [i];
        }
        if outcome.Done? {
          return Dispatched(i), asked;
        }
      }
      assert ticks[..|firings|] == ticks;
      return Cancelled, asked;
    }
  }

  lemma {:induction false} DueFiringsComplete(start: Option<int>, firings: seq<Firing>, timeout: int, n: nat, k: nat)
    requires n <= |firings|
    ensures k in DueFirings(start, firings, timeout, n) <==> k < n && DueAt(start, Ticks(firings), k, timeout)
  {
    if n > 0 {
      DueFiringsComplete(start, firings, timeout, n - 1, k);
    }
  }

  /** Every deletion the loop asks for is justified by the trace of probes alone, and none is missed. */
  lemma AskedExactlyWhenEmptyLongEnough(firings: seq<Firing>, timeout: int, n: nat, k: nat)
    requires k < n <= |firings|
    ensures k in DueFirings(None, firings, timeout, n) <==>
              SawZero(firings[k].tick) &&
              exists j | 0 <= j < k ::
                Opens(Ticks(firings), j, k) && firings[k].tick.now - firings[j].tick.now >= timeout
  {
    DueFiringsComplete(None, firings, timeout, n, k);
    DueExactly(Ticks(firings), k, timeout);
    var ticks := Ticks(firings);
    if DueAt(None, ticks, k, timeout) {
      var j :| 0 <= j < k && Opens(ticks, j, k) && ticks[k].now - ticks[j].now >= timeout;
      assert ticks[j] == firings[j].tick;
    }
  }
}
