/**
 The host ports handed out.
 */
module Ports {
  import opened Tables
  import opened Allocator
  import opened Counters
  import opened MaxContainers
  import opened Paths

  /** The port a creator is about to choose, bounded by the containers the VM may hold; and the "no free
      port" answer, excluded by a range that is large enough. */
  lemma PortBound(cfg: Config, s: State, c: ConvId, creators: nat)
    requires Sane(cfg) && Inv(s) && NeverUnder(s) && Capacity(cfg, s, creators)
    requires c in s.creators && s.creators[c].Ready? && s.creators[c].vm in s.t.vms
    ensures var v := s.creators[c].vm;
            var p := SmallestFree(s.t, v, cfg.start, cfg.end);
            && (p != 0 ==> cfg.start <= p <= cfg.end && p <= cfg.start + cfg.max + creators - 2 + Pending(s, v))
            && (cfg.end - cfg.start + 1 >= cfg.max + creators - 1 + Pending(s, v) ==> p != 0)
  {
    var v := s.creators[c].vm;
    PortPigeonhole(s.t, v, cfg.start, cfg.end);
    assert Balance(s, v) >= 0;
    assert InsertedOn(s, v) <= InFlight(s, v) - {c};
    SubsetSize(InsertedOn(s, v), InFlight(s, v) - {c});
    assert c in InFlight(s, v);
  }

  ghost predicate PortsWithin(cfg: Config, s: State, bound: int) {
    && (forall e | e in s.t.eps :: cfg.start <= s.t.eps[e].port <= bound)
    && (forall c | c in s.creators && (s.creators[c].HasPort? || s.creators[c].AgentUp?) &&
          s.creators[c].vm in s.t.vms :: cfg.start <= s.creators[c].port <= bound)
  }

  lemma StepKeepsPorts(cfg: Config, s: State, step: Step, creators: nat, pending: nat)
    requires Sane(cfg) && Inv(s) && NeverUnder(s) && Capacity(cfg, s, creators) && Enabled(cfg, s, step)
    requires step.ChoosePort? ==> Pending(s, s.creators[step.c].vm) <= pending
    requires PortsWithin(cfg, s, cfg.start + cfg.max + creators - 2 + pending)
    ensures PortsWithin(cfg, Apply(cfg, s, step), cfg.start + cfg.max + creators - 2 + pending)
  {
    if step.ChoosePort? {
      if s.creators[step.c].vm in s.t.vms {
        PortBound(cfg, s, step.c, creators);
      }
    } else {
      OtherStepKeepsPorts(cfg, s, step, cfg.start + cfg.max + creators - 2 + pending);
    }
  }

  /** A creator that holds a port held it before, unless it has just chosen it. */
  lemma PortHeldBefore(cfg: Config, s: State, step: Step, c: ConvId)
    requires Enabled(cfg, s, step) && !step.ChoosePort? && c in Apply(cfg, s, step).creators
    ensures var pc := Apply(cfg, s, step).creators[c];
            (pc.HasPort? || pc.AgentUp?) ==>
              && c in s.creators && (s.creators[c].HasPort? || s.creators[c].AgentUp?)
              && s.creators[c].vm == pc.vm && s.creators[c].port == pc.port
  {
  }

  lemma RowHeldBefore(cfg: Config, s: State, step: Step, e: EpId)
    requires Enabled(cfg, s, step) && e in Apply(cfg, s, step).t.eps
    ensures var port := Apply(cfg, s, step).t.eps[e].port;
            (e in s.t.eps && s.t.eps[e].port == port) ||
            (step.Insert? && e == step.newEp && s.creators[step.c].AgentUp? && s.creators[step.c].port == port)
  {
    EpsChange(cfg, s, step);
  }

  lemma OtherStepKeepsPorts(cfg: Config, s: State, step: Step, bound: int)
    requires Inv(s) && Enabled(cfg, s, step) && PortsWithin(cfg, s, bound) && !step.ChoosePort?
    ensures PortsWithin(cfg, Apply(cfg, s, step), bound)
  {
    var n := Apply(cfg, s, step);
    forall e | e in n.t.eps ensures cfg.start <= n.t.eps[e].port <= bound {
      RowHeldBefore(cfg, s, step, e);
    }
    forall c | c in n.creators && (n.creators[c].HasPort? || n.creators[c].AgentUp?) && n.creators[c].vm in n.t.vms
      ensures cfg.start <= n.creators[c].port <= bound
    {
      PortHeldBefore(cfg, s, step, c);
      VmNeverReturns(cfg, s, step, n.creators[c].vm);
    }
  }

  /** Whenever a port is chosen, the sweep has counted off at most `pending` rows of that VM, either 0 or 1,
      that it has not deleted yet. */
  ghost predicate ChoosesWithin(cfg: Config, s: State, steps: seq<Step>, pending: nat)
    requires IsRun(cfg, s, steps)
    decreases |steps|
  {
    steps == [] ||
    var front, last := steps[..|steps| - 1], steps[|steps| - 1];
    && ChoosesWithin(cfg, s, front, pending)
    && (last.ChoosePort? ==>
          var m := After(cfg, s, front);
          last.c in m.creators && m.creators[last.c].Ready? && Pending(m, m.creators[last.c].vm) <= pending)
  }

  /** Ports stay near the bottom of the range: with one creator at a time, and no port chosen between a
      sweep's count-off on that VM and its row delete, within MaxContainers of the start; each further
      overlapping creator adds one, and a choice in that gap adds one. */
  lemma {:induction false} RunKeepsPorts(cfg: Config, s: State, steps: seq<Step>, creators: nat, pending: nat)
    requires Sane(cfg) && Inv(s) && NeverUnder(s) && Capacity(cfg, s, creators) && IsRun(cfg, s, steps)
    requires Overlap(cfg, s, steps, creators) && ChoosesWithin(cfg, s, steps, pending)
    requires forall step | step in steps :: !LosesCount(step)
    requires PortsWithin(cfg, s, cfg.start + cfg.max + creators - 2 + pending)
    ensures PortsWithin(cfg, After(cfg, s, steps), cfg.start + cfg.max + creators - 2 + pending)
    ensures forall d, e | d in After(cfg, s, steps).t.eps && e in After(cfg, s, steps).t.eps && d != e ::
              After(cfg, s, steps).t.eps[d].vm == After(cfg, s, steps).t.eps[e].vm ==>
              After(cfg, s, steps).t.eps[d].port != After(cfg, s, steps).t.eps[e].port
  {
    RunKeepsInv(cfg, s, steps);
    if steps != [] {
      var front := steps[..|steps| - 1];
      RunKeepsPorts(cfg, s, front, creators, pending);
      RunKeepsInv(cfg, s, front);
      RunKeepsNeverUnder(cfg, s, front);
      RunKeepsCapacity(cfg, s, front, creators);
      StepKeepsPorts(cfg, After(cfg, s, front), steps[|steps| - 1], creators, pending);
    }
  }

  const SINGLE := Config(1, 1, 9, 5, SHIPPED_STATUSES)

  /** Without that condition the bound fails: a is counted off and its row still there when b, the only
      creator, chooses. */
  lemma ChoiceInTheGap(a: ConvId, b: ConvId) returns (steps: seq<Step>, s: State)
    requires a != b
    ensures var s0 := OneSession(a, b);
            && Sane(SINGLE) && Inv(s0) && NeverUnder(s0) && Capacity(SINGLE, s0, 1) && Reaches(SINGLE, s0, steps, s, 1)
            && PortsWithin(SINGLE, s0, SINGLE.start + SINGLE.max - 1)
    ensures forall step | step in steps :: !LosesCount(step)
    ensures !PortsWithin(SINGLE, s, SINGLE.start + SINGLE.max - 1)
  {
    var s0 := OneSession(a, b);
    OneSessionFits(a, b);
    steps, s := CountOffPath(SINGLE, s0, [], s0, 1, 0, 10);
    RoomInTheGap(a, b);
    steps, s := ChoosesSecond(s0, steps, s, a, b);
    NothingLost(SINGLE, s0, steps);
    assert s.creators[b].port == 2;
  }

  lemma RoomInTheGap(a: ConvId, b: ConvId)
    ensures var t := DecrementActive(OneSession(a, b).t, 0, 10);
            t.eps == map[0 := Endpoint(a, 0, "agent", 1, EpRunning, 0)] && Fullest(t, 0, SINGLE.max)
  {
  }

  lemma ChoosesSecond(s0: State, before: seq<Step>, s: State, a: ConvId, b: ConvId)
    returns (steps: seq<Step>, n: State)
    requires Reaches(SINGLE, s0, before, s, 1) && s.creators == map[] && Fullest(s.t, 0, SINGLE.max)
    requires s.t.eps == map[0 := Endpoint(a, 0, "agent", 1, EpRunning, 0)]
    ensures Reaches(SINGLE, s0, steps, n, 1) && n == Goto(s, b, HasPort(0, 0, 2))
  {
    SecondPortIsFree(s.t, a, SINGLE.end);
    steps, n := PickPath(SINGLE, s0, before, s, 1, b, 0);
    steps, n := Moved(SINGLE, s0, steps, n, 1, ChoosePort(b), b, HasPort(0, 0, 2));
    assert n.creators == s.creators[b := HasPort(0, 0, 2)];
  }

  lemma OneSessionFits(a: ConvId, b: ConvId)
    ensures var s0 := OneSession(a, b);
            && Inv(s0) && NeverUnder(s0) && Capacity(SINGLE, s0, 1)
            && PortsWithin(SINGLE, s0, SINGLE.start + SINGLE.max - 1)
  {
    var s0 := OneSession(a, b);
    assert EndpointsOn(s0.t, 0) == {0} && InsertedOn(s0, 0) == {} && InFlight(s0, 0) == {};
  }
}
