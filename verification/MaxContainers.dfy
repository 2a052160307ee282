/**
 MaxContainers against overlapping slow paths.
 */
module MaxContainers {
  import opened Wrappers
  import opened Tables
  import opened Allocator
  import opened Paths

  /** The creators between reading a VM as available (or creating it) and counting their container on it. */
  function InFlight(s: State, v: VmId): set<ConvId> {
    set c | c in s.creators && Target(s.creators[c]) == Some(v)
  }

  /** With at most `creators` overlapping slow paths. */
  ghost predicate Capacity(cfg: Config, s: State, creators: nat) {
    forall v | v in s.t.vms :: s.t.vms[v].active + |InFlight(s, v)| <= cfg.max - 1 + creators
  }

  lemma InFlightBounded(s: State, v: VmId)
    ensures |InFlight(s, v)| <= |s.creators|
    ensures forall c | c in s.creators && Target(s.creators[c]) != Some(v) :: |InFlight(s, v)| < |s.creators|
  {
    SubsetSize(InFlight(s, v), s.creators.Keys);
    forall c | c in s.creators && Target(s.creators[c]) != Some(v) ensures |InFlight(s, v)| < |s.creators| {
      SubsetSize(InFlight(s, v), s.creators.Keys - {c});
    }
  }

  lemma ActiveChange(cfg: Config, s: State, step: Step, v: VmId)
    requires Inv(s) && Enabled(cfg, s, step) && v in Apply(cfg, s, step).t.vms
    ensures Active(Apply(cfg, s, step), v) <= Active(s, v) + (if Counts(s, step, v) then 1 else 0)
    ensures v !in s.t.vms ==> step.CreateVm? && Active(Apply(cfg, s, step), v) == 0
  {
    if v in s.t.vms {
      RowChange(cfg, s, step, v);
    } else {
      NewRow(cfg, s, step, v);
    }
  }

  lemma FlightStays(cfg: Config, s: State, step: Step, v: VmId)
    requires Enabled(cfg, s, step) && (IsCleaning(step) || IsAmbient(step))
    ensures InFlight(Apply(cfg, s, step), v) == InFlight(s, v)
  {
  }

  lemma FlightChange(cfg: Config, s: State, step: Step, v: VmId)
    requires Enabled(cfg, s, step) && !IsCleaning(step) && !IsAmbient(step)
    ensures !(step.Pick? && step.picked == v) && !(step.CreateVm? && step.newVm == v) ==>
              InFlight(Apply(cfg, s, step), v) <= InFlight(s, v)
    ensures Counts(s, step, v) ==>
              InFlight(Apply(cfg, s, step), v) == InFlight(s, v) - {step.c} && step.c in InFlight(s, v)
  {
  }

  lemma StepKeepsCapacityOf(cfg: Config, s: State, step: Step, creators: nat, v: VmId)
    requires Sane(cfg) && Inv(s) && Enabled(cfg, s, step)
    requires v in s.t.vms ==> s.t.vms[v].active + |InFlight(s, v)| <= cfg.max - 1 + creators
    requires v in Apply(cfg, s, step).t.vms && |Apply(cfg, s, step).creators| <= creators
    ensures Active(Apply(cfg, s, step), v) + |InFlight(Apply(cfg, s, step), v)| <= cfg.max - 1 + creators
  {
    var n := Apply(cfg, s, step);
    ActiveChange(cfg, s, step, v);
    if IsCleaning(step) || IsAmbient(step) {
      FlightStays(cfg, s, step, v);
    } else {
      FlightChange(cfg, s, step, v);
    }
    if v !in s.t.vms || (step.Pick? && step.picked == v) {
      InFlightBounded(n, v);
    } else {
      SubsetSize(InFlight(n, v), InFlight(s, v));
    }
  }

  lemma StepKeepsCapacity(cfg: Config, s: State, step: Step, creators: nat)
    requires Sane(cfg) && Inv(s) && Enabled(cfg, s, step) && Capacity(cfg, s, creators)
    requires |Apply(cfg, s, step).creators| <= creators
    ensures Capacity(cfg, Apply(cfg, s, step), creators)
  {
    var n := Apply(cfg, s, step);
    forall v | v in n.t.vms ensures n.t.vms[v].active + |InFlight(n, v)| <= cfg.max - 1 + creators {
      StepKeepsCapacityOf(cfg, s, step, creators, v);
    }
  }

  /** Whatever the interleaving and whichever calls fail. */
  lemma {:induction false} RunKeepsCapacity(cfg: Config, s: State, steps: seq<Step>, creators: nat)
    requires Sane(cfg) && Inv(s) && IsRun(cfg, s, steps) && Overlap(cfg, s, steps, creators)
    requires Capacity(cfg, s, creators)
    ensures Capacity(cfg, After(cfg, s, steps), creators)
  {
    if steps != [] {
      var front := steps[..|steps| - 1];
      RunKeepsCapacity(cfg, s, front, creators);
      RunKeepsInv(cfg, s, front);
      StepKeepsCapacity(cfg, After(cfg, s, front), steps[|steps| - 1], creators);
    }
  }

  // ----- Exactly when the capacity limit is kept -----

  /** Runs that start with no creator under way, with every VM within its limit. */
  ghost predicate Starts(cfg: Config, s: State) {
    Inv(s) && s.creators == map[] && WithinMax(cfg, s)
  }

  ghost predicate LimitKept(cfg: Config, creators: nat) {
    forall s, steps ::
      Starts(cfg, s) && IsRun(cfg, s, steps) && Overlap(cfg, s, steps, creators) ==> WithinMax(cfg, After(cfg, s, steps))
  }

  /** MaxContainers is a limit on every run exactly when slow paths never overlap, or the port range is
      empty and no session can be made at all. */
  lemma LimitKeptExactly(cfg: Config, creators: nat)
    requires Sane(cfg)
    ensures LimitKept(cfg, creators) <==> creators <= 1 || cfg.start > cfg.end
  {
    if creators <= 1 {
      forall s, steps | Starts(cfg, s) && IsRun(cfg, s, steps) && Overlap(cfg, s, steps, creators)
        ensures WithinMax(cfg, After(cfg, s, steps))
      {
        OneAtATime(cfg, s, steps, creators);
      }
    } else if cfg.start > cfg.end {
      forall s, steps | Starts(cfg, s) && IsRun(cfg, s, steps) ensures WithinMax(cfg, After(cfg, s, steps)) {
        NothingPlaced(cfg, s, steps);
      }
    } else {
      var s0 := OneVm(cfg.max - 1, {"a", "b"});
      var steps, s := PastTheLimit(cfg, "a", "b");
      OverlapWidens(cfg, s0, steps, 2, creators);
      assert Starts(cfg, s0) && !WithinMax(cfg, s);
    }
  }

  lemma OneAtATime(cfg: Config, s: State, steps: seq<Step>, creators: nat)
    requires Sane(cfg) && Starts(cfg, s) && IsRun(cfg, s, steps) && Overlap(cfg, s, steps, creators) && creators <= 1
    ensures WithinMax(cfg, After(cfg, s, steps))
  {
    forall v | v in s.t.vms ensures s.t.vms[v].active + |InFlight(s, v)| <= cfg.max - 1 + 1 {
      assert InFlight(s, v) == {};
    }
    OverlapWidens(cfg, s, steps, creators, 1);
    RunKeepsCapacity(cfg, s, steps, 1);
  }

  lemma {:induction false} OverlapWidens(cfg: Config, s: State, steps: seq<Step>, fewer: nat, more: nat)
    requires IsRun(cfg, s, steps) && Overlap(cfg, s, steps, fewer) && fewer <= more
    ensures Overlap(cfg, s, steps, more)
  {
    if steps != [] {
      OverlapWidens(cfg, s, steps[..|steps| - 1], fewer, more);
    }
  }

  /** No creator got as far as a port. */
  predicate Portless(s: State) {
    forall c | c in s.creators :: !s.creators[c].HasPort? && !s.creators[c].AgentUp? && !s.creators[c].Inserted?
  }

  lemma StepPlacesNothing(cfg: Config, s: State, step: Step)
    requires cfg.start > cfg.end && Enabled(cfg, s, step) && Portless(s)
    ensures Portless(Apply(cfg, s, step)) && !step.Increment?
  {
  }

  lemma {:induction false} NothingPlaced(cfg: Config, s: State, steps: seq<Step>)
    requires Sane(cfg) && cfg.start > cfg.end && Inv(s) && IsRun(cfg, s, steps) && WithinMax(cfg, s) && Portless(s)
    ensures WithinMax(cfg, After(cfg, s, steps)) && Portless(After(cfg, s, steps))
  {
    if steps != [] {
      var front, last := steps[..|steps| - 1], steps[|steps| - 1];
      NothingPlaced(cfg, s, front);
      RunKeepsInv(cfg, s, front);
      var m := After(cfg, s, front);
      StepPlacesNothing(cfg, m, last);
      forall v | v in Apply(cfg, m, last).t.vms ensures Apply(cfg, m, last).t.vms[v].active <= cfg.max {
        ActiveChange(cfg, m, last, v);
      }
    }
  }

  /** Two creators read the same VM with one place left, and both count their container on it; one port is
      enough if the first one's conversation is deleted in between. */
  lemma PastTheLimit(cfg: Config, a: ConvId, b: ConvId) returns (steps: seq<Step>, s: State)
    requires Sane(cfg) && cfg.start <= cfg.end && a != b
    ensures Reaches(cfg, OneVm(cfg.max - 1, {a, b}), steps, s, 2)
    ensures 0 in s.t.vms && s.t.vms[0].active == cfg.max + 1
  {
    var s0 := OneVm(cfg.max - 1, {a, b});
    steps, s := BothPick(cfg, s0, a, b);
    steps, s := BothOnOnePort(cfg, s0, steps, s, a, b);
    steps, s := BothCount(cfg, s0, steps, s, a, b);
  }

  lemma BothOnOnePort(cfg: Config, s0: State, before: seq<Step>, s: State, a: ConvId, b: ConvId)
    returns (steps: seq<Step>, n: State)
    requires Reaches(cfg, s0, before, s, 2) && 1 <= cfg.start <= cfg.end && a != b && {a, b} <= s.t.convs
    requires s.creators == Two(a, Ready(0, 0), b, Ready(0, 0)) && 0 in s.t.vms && s.t.eps == map[] && s.usedEps == {}
    ensures Reaches(cfg, s0, steps, n, 2) && n.t.vms == s.t.vms
    ensures n.creators == Two(a, Inserted(0), b, Inserted(0))
  {
    assert !Taken(s.t, 0, cfg.start);
    steps, n := PlacePath(cfg, s0, before, s, 2, a, 0, cfg.start);
    TwoMove(a, Ready(0, 0), b, Ready(0, 0), Inserted(0));
    steps, n := DropOnly(cfg, s0, steps, n, a);
    assert !Taken(n.t, 0, cfg.start);
    TwoMove(a, Inserted(0), b, Ready(0, 0), Inserted(0));
    steps, n := PlacePath(cfg, s0, steps, n, 2, b, 1, cfg.start);
  }

  lemma DropOnly(cfg: Config, s0: State, before: seq<Step>, s: State, a: ConvId)
    returns (steps: seq<Step>, n: State)
    requires Reaches(cfg, s0, before, s, 2) && |s.creators| <= 2 && forall e | e in s.t.eps :: s.t.eps[e].conv == a
    ensures Reaches(cfg, s0, steps, n, 2) && n == s.(t := Tables(s.t.vms, map[], s.t.convs - {a}))
  {
    steps, n := Onward(cfg, s0, before, s, 2, DropConversation(a));
    assert n.t.eps == map[];
  }

  function Two(a: ConvId, first: Pc, b: ConvId, second: Pc): map<ConvId, Pc> {
    map[a := first, b := second]
  }

  lemma TwoMove(a: ConvId, first: Pc, b: ConvId, second: Pc, pc: Pc)
    requires a != b
    ensures Two(a, first, b, second)[a := pc] == Two(a, pc, b, second)
    ensures Two(a, first, b, second)[b := pc] == Two(a, first, b, pc)
    ensures |Two(a, first, b, second)| == 2
  {
    assert Two(a, first, b, second).Keys == {a, b};
  }

  lemma BothPick(cfg: Config, s0: State, a: ConvId, b: ConvId) returns (steps: seq<Step>, s: State)
    requires a != b && s0.creators == map[] && Fullest(s0.t, 0, cfg.max)
    ensures Reaches(cfg, s0, steps, s, 2) && s == s0.(creators := Two(a, Ready(0, 0), b, Ready(0, 0)))
  {
    steps, s := PickPath(cfg, s0, [], s0, 2, a, 0);
    CreatorsAfter(s0.creators, a, Ready(0, 0));
    steps, s := PickPath(cfg, s0, steps, s, 2, b, 0);
    assert s.creators == Two(a, Ready(0, 0), b, Ready(0, 0));
  }

  /** From an answered ping to a row on the port. */
  lemma PlacePath(cfg: Config, s0: State, before: seq<Step>, s: State, overlap: nat, c: ConvId, id: EpId, port: int)
    returns (steps: seq<Step>, n: State)
    requires Reaches(cfg, s0, before, s, overlap) && c in s.creators && s.creators[c] == Ready(0, 0) && id !in s.usedEps
    requires port != 0 && SmallestFree(s.t, 0, cfg.start, cfg.end) == port && CanInsertEndpoint(s.t, c, 0, port)
    ensures Reaches(cfg, s0, steps, n, overlap)
    ensures n == Goto(s, c, Inserted(0)).(
                   t := InsertEndpoint(s.t, id, c, 0, "agent", port, 0), usedEps := s.usedEps + {id})
  {
    steps, n := AgentPath(cfg, s0, before, s, overlap, c, port);
    steps, n := InsertPath(cfg, s0, steps, n, overlap, c, id, 0);
    assert n.creators == s.creators[c := Inserted(0)];
  }

  lemma BothCount(cfg: Config, s0: State, before: seq<Step>, s: State, a: ConvId, b: ConvId)
    returns (steps: seq<Step>, n: State)
    requires Reaches(cfg, s0, before, s, 2) && 0 in s.t.vms
    requires a != b && s.creators == Two(a, Inserted(0), b, Inserted(0))
    ensures Reaches(cfg, s0, steps, n, 2) && 0 in n.t.vms && n.t.eps == s.t.eps && n.usedEps == s.usedEps
    ensures n.t.vms[0].active == s.t.vms[0].active + 2 && Quiet(s, n)
  {
    steps, n := CountPath(cfg, s0, before, s, 2, a);
    steps, n := CountPath(cfg, s0, steps, n, 2, b);
  }

  // ----- And with rows, not only counts -----

  function Conversation(i: nat): ConvId {
    seq(i, _ => 'c')
  }

  function Below(n: nat): (r: set<nat>)
    ensures |r| == n && forall i: nat :: i in r <==> i < n
  {
    if n == 0 then {} else Below(n - 1) + {n - 1}
  }

  /** One running VM with a session on each of the first n ports, all counted; two more conversations. */
  function Filled(start: int, n: nat): State {
    State(Tables(map[0 := Vm("vm", "10.0.0.2", Running, n, None, None)],
                 map i | i in Below(n) :: Endpoint(Conversation(i), 0, "agent", start + i, EpRunning, 0),
                 set i | i in Below(n + 2) :: Conversation(i)),
          map[], Resting, {0}, Below(n), 0)
  }

  lemma FilledSchema(start: int, n: nat)
    ensures SchemaOk(Filled(start, n).t)
  {
    var t := Filled(start, n).t;
    forall d, e | d in t.eps && e in t.eps && d != e ensures t.eps[d].conv != t.eps[e].conv {
      assert |t.eps[d].conv| == d && |t.eps[e].conv| == e;
    }
    forall e | e in t.eps ensures t.eps[e].conv in t.convs {
      assert e in Below(n + 2);
    }
  }

  lemma FilledInv(start: int, n: nat)
    ensures Inv(Filled(start, n))
  {
    FilledSchema(start, n);
    var s := Filled(start, n);
    assert s.t.eps.Keys == s.usedEps && s.t.vms.Keys == s.usedVms;
    assert SweepOk(s);
  }

  /** The rows on the VM are those of the first k ports. */
  ghost predicate FirstPorts(s: State, start: int, k: nat) {
    && s.usedEps == Below(k) && s.t.eps.Keys == Below(k)
    && forall e | e in s.t.eps :: s.t.eps[e].vm == 0 && s.t.eps[e].status == EpRunning && s.t.eps[e].port == start + e
  }

  lemma NextPort(s: State, start: int, end: int, k: nat)
    requires 1 <= start && start + k <= end && FirstPorts(s, start, k)
    ensures SmallestFree(s.t, 0, start, end) == start + k
  {
    forall q | start <= q < start + k ensures Taken(s.t, 0, q) {
      assert s.t.eps[q - start].port == q;
    }
    assert !Taken(s.t, 0, start + k);
    SmallestFreeMeaning(s.t, 0, start, end);
  }

  /** The conversation exists and has no session row. */
  predicate NewTo(t: Tables, c: ConvId) {
    c in t.convs && forall e | e in t.eps :: t.eps[e].conv != c
  }

  /** No write has failed in between, and no sweep moved. */
  predicate Quiet(s: State, n: State) {
    n.failed == s.failed && n.cleaner == s.cleaner
  }

  /** A creator takes the next port. */

  lemma PlaceNext(cfg: Config, s0: State, before: seq<Step>, s: State, overlap: nat, c: ConvId, d: ConvId,
                  k: nat)
    returns (steps: seq<Step>, n: State)
    requires Reaches(cfg, s0, before, s, overlap) && 1 <= cfg.start && cfg.start + k <= cfg.end
    requires FirstPorts(s, cfg.start, k)
    requires c in s.creators && s.creators[c] == Ready(0, 0) && 0 in s.t.vms && NewTo(s.t, c)
    ensures Reaches(cfg, s0, steps, n, overlap) && FirstPorts(n, cfg.start, k + 1)
    ensures n.creators == s.creators[c := Inserted(0)] && n.t.vms == s.t.vms && Quiet(s, n)
    ensures d != c && NewTo(s.t, d) ==> NewTo(n.t, d)
  {
    NextPort(s, cfg.start, cfg.end, k);
    steps, n := PlacePath(cfg, s0, before, s, overlap, c, k, cfg.start + k);
  }

  lemma BothPlace(cfg: Config, s0: State, before: seq<Step>, s: State, a: ConvId, b: ConvId, n: nat)
    returns (steps: seq<Step>, u: State)
    requires 1 <= cfg.start && cfg.start + n + 1 <= cfg.end && Reaches(cfg, s0, before, s, 2)
    requires a != b && s.creators == Two(a, Ready(0, 0), b, Ready(0, 0)) && 0 in s.t.vms
    requires FirstPorts(s, cfg.start, n) && NewTo(s.t, a) && NewTo(s.t, b)
    ensures Reaches(cfg, s0, steps, u, 2) && u.t.vms == s.t.vms && FirstPorts(u, cfg.start, n + 2) && Quiet(s, u)
    ensures u.creators == Two(a, Inserted(0), b, Inserted(0))
  {
    steps, u := PlaceNext(cfg, s0, before, s, 2, a, b, n);
    TwoMove(a, Ready(0, 0), b, Ready(0, 0), Inserted(0));
    steps, u := PlaceSecond(cfg, s0, steps, u, a, b, n + 1);
  }

  lemma PlaceSecond(cfg: Config, s0: State, before: seq<Step>, s: State, a: ConvId, b: ConvId, k: nat)
    returns (steps: seq<Step>, u: State)
    requires 1 <= cfg.start && cfg.start + k <= cfg.end && Reaches(cfg, s0, before, s, 2)
    requires a != b && s.creators == Two(a, Inserted(0), b, Ready(0, 0)) && 0 in s.t.vms
    requires FirstPorts(s, cfg.start, k) && NewTo(s.t, b)
    ensures Reaches(cfg, s0, steps, u, 2) && u.t.vms == s.t.vms && FirstPorts(u, cfg.start, k + 1) && Quiet(s, u)
    ensures u.creators == Two(a, Inserted(0), b, Inserted(0))
  {
    TwoMove(a, Inserted(0), b, Ready(0, 0), Inserted(0));
    steps, u := PlaceNext(cfg, s0, before, s, 2, b, a, k);
  }

  lemma FilledRows(start: int, n: nat)
    ensures FirstPorts(Filled(start, n), start, n)
    ensures NewTo(Filled(start, n).t, Conversation(n)) && NewTo(Filled(start, n).t, Conversation(n + 1))
  {
    var t := Filled(start, n).t;
    assert n in Below(n + 2) && n + 1 in Below(n + 2);
    forall e | e in t.eps ensures t.eps[e].conv != Conversation(n) && t.eps[e].conv != Conversation(n + 1) {
      assert |t.eps[e].conv| == e;
    }
  }

  lemma FilledStarts(cfg: Config, n: nat) returns (s: State)
    requires n < cfg.max
    ensures Starts(cfg, s) && Fullest(s.t, 0, cfg.max) && s.t.vms[0].active == n && FirstPorts(s, cfg.start, n)
    ensures NewTo(s.t, Conversation(n)) && NewTo(s.t, Conversation(n + 1)) && s.t.vms.Keys == {0} && s.cleaner == Resting
  {
    s := Filled(cfg.start, n);
    FilledInv(cfg.start, n);
    FilledRows(cfg.start, n);
  }

  lemma BothPlaced(cfg: Config, s0: State, a: ConvId, b: ConvId, n: nat) returns (steps: seq<Step>, s: State)
    requires Sane(cfg) && cfg.start + n + 1 <= cfg.end && a != b && s0.creators == map[] && Fullest(s0.t, 0, cfg.max)
    requires FirstPorts(s0, cfg.start, n) && NewTo(s0.t, a) && NewTo(s0.t, b)
    ensures Reaches(cfg, s0, steps, s, 2) && FirstPorts(s, cfg.start, n + 2) && Quiet(s0, s)
    ensures 0 in s.t.vms && s.t.vms[0].active == s0.t.vms[0].active + 2
  {
    steps, s := BothPick(cfg, s0, a, b);
    steps, s := BothPlace(cfg, s0, steps, s, a, b, n);
    steps, s := BothCount(cfg, s0, steps, s, a, b);
  }

  /** Whatever MaxContainers is: with more ports than that, the VM comes to host one session too many. */
  lemma TwoCreatorsExceedTheLimit(cfg: Config) returns (s0: State, steps: seq<Step>, s: State)
    requires Sane(cfg) && cfg.end - cfg.start + 1 > cfg.max
    ensures Starts(cfg, s0) && 0 in s0.t.vms && |EndpointsOn(s0.t, 0)| == s0.t.vms[0].active == cfg.max - 1
    ensures s0.t.vms.Keys == {0} && s0.cleaner == Resting && Reaches(cfg, s0, steps, s, 2) && Quiet(s0, s)
    ensures 0 in s.t.vms && |EndpointsOn(s.t, 0)| == s.t.vms[0].active == cfg.max + 1
  {
    var n := cfg.max - 1;
    s0 := FilledStarts(cfg, n);
    RowsOnVm(s0, cfg.start, n);
    assert |Conversation(n)| != |Conversation(n + 1)|;
    steps, s := BothPlaced(cfg, s0, Conversation(n), Conversation(n + 1), n);
    RowsOnVm(s, cfg.start, n + 2);
  }

  lemma RowsOnVm(s: State, start: int, k: nat)
    requires FirstPorts(s, start, k)
    ensures |EndpointsOn(s.t, 0)| == k
  {
    assert EndpointsOn(s.t, 0) == Below(k);
  }
}
