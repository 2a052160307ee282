/**
 MaxContainers as a limit on sessions.  The counter keeps to it whenever slow paths do not overlap; the
 sessions do so only while the counter covers them.
 */
module SessionLimit {
  import opened Tables
  import opened Allocator
  import opened Counters
  import opened MaxContainers
  import opened Paths

  /** Without a lost count, on any interleaving: at most MaxContainers rows on a VM with one slow path at a
      time, one more for each further overlapping one, and one that the sweep has counted off already. */
  lemma SessionsBounded(cfg: Config, s: State, steps: seq<Step>, creators: nat, v: VmId)
    requires Sane(cfg) && Inv(s) && NeverUnder(s) && Capacity(cfg, s, creators) && IsRun(cfg, s, steps)
    requires Overlap(cfg, s, steps, creators) && forall step | step in steps :: !LosesCount(step)
    requires v in After(cfg, s, steps).t.vms
    ensures var u := After(cfg, s, steps); |EndpointsOn(u.t, v)| <= cfg.max - 1 + creators + Pending(u, v)
  {
    var u := After(cfg, s, steps);
    RunKeepsNeverUnder(cfg, s, steps);
    RunKeepsCapacity(cfg, s, steps, creators);
    assert Balance(u, v) >= 0;
    assert InsertedOn(u, v) <= InFlight(u, v);
    SubsetSize(InsertedOn(u, v), InFlight(u, v));
  }

  /** Runs that start at rest, with counters that cover their rows and are within the limit. */
  ghost predicate Rested(cfg: Config, s: State) {
    Starts(cfg, s) && NeverUnder(s) && s.cleaner == Resting
  }

  ghost predicate SessionsWithin(cfg: Config, u: State) {
    forall v | v in u.t.vms :: |EndpointsOn(u.t, v)| <= cfg.max + Pending(u, v)
  }

  /** On runs with at most so many overlapping slow paths and so many failed writes. */
  ghost predicate SessionsKept(cfg: Config, creators: nat, failures: nat) {
    forall s, steps ::
      && Rested(cfg, s) && IsRun(cfg, s, steps) && Overlap(cfg, s, steps, creators)
      && After(cfg, s, steps).failed <= s.failed + failures
      ==> SessionsWithin(cfg, After(cfg, s, steps))
  }

  lemma OneWithoutFailure(cfg: Config, s: State, steps: seq<Step>)
    requires Sane(cfg) && Rested(cfg, s) && IsRun(cfg, s, steps) && Overlap(cfg, s, steps, 1)
    requires After(cfg, s, steps).failed == s.failed
    ensures SessionsWithin(cfg, After(cfg, s, steps))
  {
    NothingLost(cfg, s, steps);
    forall v | v in s.t.vms ensures s.t.vms[v].active + |InFlight(s, v)| <= cfg.max - 1 + 1 {
      assert InFlight(s, v) == {};
    }
    forall v | v in After(cfg, s, steps).t.vms
      ensures |EndpointsOn(After(cfg, s, steps).t, v)| <= cfg.max + Pending(After(cfg, s, steps), v)
    {
      SessionsBounded(cfg, s, steps, 1, v);
    }
  }

  /** With no slow path there is no new row. */
  lemma {:induction false} NoSlowPathNoRow(cfg: Config, s: State, steps: seq<Step>, v: VmId)
    requires IsRun(cfg, s, steps) && Overlap(cfg, s, steps, 0)
    ensures EndpointsOn(After(cfg, s, steps).t, v) <= EndpointsOn(s.t, v)
  {
    if steps != [] {
      var front, last := steps[..|steps| - 1], steps[|steps| - 1];
      NoSlowPathNoRow(cfg, s, front, v);
      var m := After(cfg, s, front);
      assert m.creators == map[];
      EpsChange(cfg, m, last);
      assert EndpointsOn(Apply(cfg, m, last).t, v) <= EndpointsOn(m.t, v);
    }
  }

  lemma NoSlowPath(cfg: Config, s: State, steps: seq<Step>)
    requires Sane(cfg) && Rested(cfg, s) && IsRun(cfg, s, steps) && Overlap(cfg, s, steps, 0)
    ensures SessionsWithin(cfg, After(cfg, s, steps))
  {
    var u := After(cfg, s, steps);
    forall v | v in u.t.vms ensures |EndpointsOn(u.t, v)| <= cfg.max + Pending(u, v) {
      NoSlowPathNoRow(cfg, s, steps, v);
      SubsetSize(EndpointsOn(u.t, v), EndpointsOn(s.t, v));
      if v in s.t.vms {
        assert InsertedOn(s, v) == {} && Balance(s, v) >= 0;
      } else {
        assert EndpointsOn(s.t, v) == {};
      }
    }
  }

  /** One increment that fails, and the VM takes a session too many, one slow path at a time. */
  lemma UncountedOverfills(cfg: Config) returns (s0: State, steps: seq<Step>, s: State)
    requires Sane(cfg) && cfg.end - cfg.start + 1 > cfg.max
    ensures Starts(cfg, s0) && s0.t.vms.Keys == {0} && |EndpointsOn(s0.t, 0)| == s0.t.vms[0].active && s0.cleaner == Resting
    ensures Reaches(cfg, s0, steps, s, 1) && s.failed == s0.failed + 1 && s.cleaner == Resting
    ensures 0 in s.t.vms && s.t.vms[0].active == cfg.max && |EndpointsOn(s.t, 0)| == cfg.max + 1
  {
    var n := cfg.max - 1;
    var a, b := Conversation(n), Conversation(n + 1);
    assert |a| != |b|;
    s0 := FilledStarts(cfg, n);
    RowsOnVm(s0, cfg.start, n);
    steps, s := PlacesUncounted(cfg, s0, a, b, n);
    steps, s := PlacesCounted(cfg, s0, steps, s, b, a, n + 1);
    RowsOnVm(s, cfg.start, n + 2);
  }

  lemma PlacesUncounted(cfg: Config, s0: State, a: ConvId, b: ConvId, k: nat) returns (steps: seq<Step>, n: State)
    requires 1 <= cfg.start && cfg.start + k <= cfg.end && a != b && s0.creators == map[] && Fullest(s0.t, 0, cfg.max)
    requires FirstPorts(s0, cfg.start, k) && NewTo(s0.t, a) && NewTo(s0.t, b)
    ensures Reaches(cfg, s0, steps, n, 1) && FirstPorts(n, cfg.start, k + 1) && NewTo(n.t, b)
    ensures n.creators == map[] && n.t.vms == s0.t.vms && n.failed == s0.failed + 1 && n.cleaner == s0.cleaner
  {
    steps, n := PickPath(cfg, s0, [], s0, 1, a, 0);
    steps, n := PlaceNext(cfg, s0, steps, n, 1, a, b, k);
    CreatorsAfter(n.creators, a, Creating);
    steps, n := Onward(cfg, s0, steps, n, 1, IncrementFails(a));
    assert n.creators == map[];
  }

  lemma PlacesCounted(cfg: Config, s0: State, before: seq<Step>, s: State, a: ConvId, b: ConvId, k: nat)
    returns (steps: seq<Step>, n: State)
    requires Reaches(cfg, s0, before, s, 1) && 1 <= cfg.start && cfg.start + k <= cfg.end
    requires s.creators == map[] && Fullest(s.t, 0, cfg.max) && FirstPorts(s, cfg.start, k) && NewTo(s.t, a)
    ensures Reaches(cfg, s0, steps, n, 1) && FirstPorts(n, cfg.start, k + 1) && Quiet(s, n)
    ensures 0 in n.t.vms && n.t.vms[0].active == s.t.vms[0].active + 1
  {
    steps, n := PickPath(cfg, s0, before, s, 1, a, 0);
    steps, n := PlaceNext(cfg, s0, steps, n, 1, a, b, k);
    steps, n := CountPath(cfg, s0, steps, n, 1, a);
  }

  lemma FullRested(cfg: Config, s: State)
    requires Starts(cfg, s) && s.t.vms.Keys == {0} && |EndpointsOn(s.t, 0)| == s.t.vms[0].active && s.cleaner == Resting
    ensures Rested(cfg, s)
  {
    assert InsertedOn(s, 0) == {};
  }

  /** With more ports than MaxContainers, the sessions of a VM keep to it on every run exactly when no two
      slow paths overlap and no write fails, or there is no slow path at all. */
  lemma SessionsKeptExactly(cfg: Config, creators: nat, failures: nat)
    requires Sane(cfg) && cfg.end - cfg.start + 1 > cfg.max
    ensures SessionsKept(cfg, creators, failures) <==> creators == 0 || (creators == 1 && failures == 0)
  {
    if creators == 0 || (creators == 1 && failures == 0) {
      forall s, steps |
        && Rested(cfg, s) && IsRun(cfg, s, steps) && Overlap(cfg, s, steps, creators)
        && After(cfg, s, steps).failed <= s.failed + failures
        ensures SessionsWithin(cfg, After(cfg, s, steps))
      {
        if creators == 0 {
          NoSlowPath(cfg, s, steps);
        } else {
          NothingLost(cfg, s, steps);
          OneWithoutFailure(cfg, s, steps);
        }
      }
    } else if creators >= 2 {
      TwoOverfill(cfg, creators, failures);
    } else {
      FailureOverfills(cfg, failures);
    }
  }

  lemma Overfilled(cfg: Config, s0: State, steps: seq<Step>, s: State, creators: nat, failures: nat)
    requires Rested(cfg, s0) && Leads(cfg, s0, steps, s) && Overlap(cfg, s0, steps, creators)
    requires s.failed <= s0.failed + failures && s.cleaner == Resting
    requires 0 in s.t.vms && |EndpointsOn(s.t, 0)| == cfg.max + 1
    ensures !SessionsKept(cfg, creators, failures)
  {
    assert Pending(s, 0) == 0 && !SessionsWithin(cfg, s);
  }

  lemma TwoOverfill(cfg: Config, creators: nat, failures: nat)
    requires Sane(cfg) && cfg.end - cfg.start + 1 > cfg.max && creators >= 2
    ensures !SessionsKept(cfg, creators, failures)
  {
    var s0, steps, s := TwoCreatorsExceedTheLimit(cfg);
    OverlapWidens(cfg, s0, steps, 2, creators);
    FullRested(cfg, s0);
    Overfilled(cfg, s0, steps, s, creators, failures);
  }

  lemma FailureOverfills(cfg: Config, failures: nat)
    requires Sane(cfg) && cfg.end - cfg.start + 1 > cfg.max && failures >= 1
    ensures !SessionsKept(cfg, 1, failures)
  {
    var s0, steps, s := UncountedOverfills(cfg);
    FullRested(cfg, s0);
    Overfilled(cfg, s0, steps, s, 1, failures);
  }
}
