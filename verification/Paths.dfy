/**
 Stretches of one slow path as allocator steps, from which the concrete runs are put together.
 */
module Paths {
  import opened Wrappers
  import opened Tables
  import opened Allocator

  /** The steps lead from s0 to s, with at most `overlap` slow paths at a time. */
  ghost predicate Reaches(cfg: Config, s0: State, steps: seq<Step>, s: State, overlap: nat) {
    Leads(cfg, s0, steps, s) && Overlap(cfg, s0, steps, overlap)
  }

  lemma Onward(cfg: Config, s0: State, before: seq<Step>, s: State, overlap: nat, step: Step)
    returns (steps: seq<Step>, n: State)
    requires Reaches(cfg, s0, before, s, overlap) && Enabled(cfg, s, step)
    requires |Apply(cfg, s, step).creators| <= overlap
    ensures Reaches(cfg, s0, steps, n, overlap) && n == Apply(cfg, s, step)
  {
    steps, n := Take(cfg, s0, before, s, step);
  }

  lemma CreatorsAfter(creators: map<ConvId, Pc>, c: ConvId, pc: Pc)
    ensures |creators[c := pc]| == |creators| + if c in creators then 0 else 1
    ensures |creators - {c}| == |creators| - if c in creators then 1 else 0
  {
    assert creators[c := pc].Keys == creators.Keys + {c};
    assert (creators - {c}).Keys == creators.Keys - {c};
  }

  /** A step that only moves a creator on. */
  lemma Moved(cfg: Config, s0: State, before: seq<Step>, s: State, overlap: nat, step: Step, c: ConvId, pc: Pc)
    returns (steps: seq<Step>, n: State)
    requires Reaches(cfg, s0, before, s, overlap) && c in s.creators
    requires Enabled(cfg, s, step) && Apply(cfg, s, step) == Goto(s, c, pc)
    ensures Reaches(cfg, s0, steps, n, overlap) && n == Goto(s, c, pc)
  {
    CreatorsAfter(s.creators, c, pc);
    steps, n := Onward(cfg, s0, before, s, overlap, step);
  }

  /** From the start of a slow path to a VM that is pinged. */
  lemma CandidatePath(cfg: Config, s0: State, before: seq<Step>, s: State, overlap: nat, c: ConvId, v: VmId)
    returns (steps: seq<Step>, n: State)
    requires Reaches(cfg, s0, before, s, overlap) && c !in s.creators && |s.creators| < overlap
    requires Fullest(s.t, v, cfg.max)
    ensures Reaches(cfg, s0, steps, n, overlap) && n == Goto(s, c, Pinging(v, 0))
  {
    CreatorsAfter(s.creators, c, Picking(0));
    steps, n := Onward(cfg, s0, before, s, overlap, Begin(c));
    steps, n := Moved(cfg, s0, steps, n, overlap, Pick(c, v), c, Pinging(v, 0));
    assert n.creators == s.creators[c := Pinging(v, 0)];
  }

  /** To one that answered. */
  lemma PickPath(cfg: Config, s0: State, before: seq<Step>, s: State, overlap: nat, c: ConvId, v: VmId)
    returns (steps: seq<Step>, n: State)
    requires Reaches(cfg, s0, before, s, overlap) && c !in s.creators && |s.creators| < overlap
    requires Fullest(s.t, v, cfg.max)
    ensures Reaches(cfg, s0, steps, n, overlap) && n == Goto(s, c, Ready(v, 0))
  {
    steps, n := CandidatePath(cfg, s0, before, s, overlap, c, v);
    steps, n := Moved(cfg, s0, steps, n, overlap, PingOk(c), c, Ready(v, 0));
    assert n.creators == s.creators[c := Ready(v, 0)];
  }

  /** To an agent that answers. */
  lemma AgentPath(cfg: Config, s0: State, before: seq<Step>, s: State, overlap: nat, c: ConvId, port: int)
    returns (steps: seq<Step>, n: State)
    requires Reaches(cfg, s0, before, s, overlap) && c in s.creators && s.creators[c].Ready?
    requires port != 0 && SmallestFree(s.t, s.creators[c].vm, cfg.start, cfg.end) == port
    ensures Reaches(cfg, s0, steps, n, overlap)
    ensures n == Goto(s, c, AgentUp(s.creators[c].vm, s.creators[c].tries, port))
  {
    var v, tries := s.creators[c].vm, s.creators[c].tries;
    steps, n := Moved(cfg, s0, before, s, overlap, ChoosePort(c), c, HasPort(v, tries, port));
    steps, n := Moved(cfg, s0, steps, n, overlap, AgentStarts(c), c, AgentUp(v, tries, port));
    assert n.creators == s.creators[c := AgentUp(v, tries, port)];
  }

  /** To its row. */
  lemma InsertPath(cfg: Config, s0: State, before: seq<Step>, s: State, overlap: nat, c: ConvId, id: EpId, now: int)
    returns (steps: seq<Step>, n: State)
    requires Reaches(cfg, s0, before, s, overlap) && c in s.creators && s.creators[c].AgentUp? && id !in s.usedEps
    requires CanInsertEndpoint(s.t, c, s.creators[c].vm, s.creators[c].port)
    ensures Reaches(cfg, s0, steps, n, overlap)
    ensures n == Goto(s, c, Inserted(s.creators[c].vm)).(
                   t := InsertEndpoint(s.t, id, c, s.creators[c].vm, "agent", s.creators[c].port, now),
                   usedEps := s.usedEps + {id})
  {
    CreatorsAfter(s.creators, c, Inserted(s.creators[c].vm));
    steps, n := Onward(cfg, s0, before, s, overlap, Insert(c, id, "agent", now));
  }

  /** To its count. */
  lemma CountPath(cfg: Config, s0: State, before: seq<Step>, s: State, overlap: nat, c: ConvId)
    returns (steps: seq<Step>, n: State)
    requires Reaches(cfg, s0, before, s, overlap) && c in s.creators && s.creators[c].Inserted?
    ensures Reaches(cfg, s0, steps, n, overlap)
    ensures n == Leave(s, c).(t := IncrementActive(s.t, s.creators[c].vm))
  {
    CreatorsAfter(s.creators, c, Creating);
    steps, n := Onward(cfg, s0, before, s, overlap, Increment(c));
  }

  /** One running VM with `active` counted on it, and no row. */
  function OneVm(active: nat, convs: set<ConvId>): State {
    State(Tables(map[0 := Vm("vm", "10.0.0.2", Running, active, None, None)], map[], convs), map[], Resting, {0}, {}, 0)
  }

  const ROOMY := Config(2, 1, 9, 5, SHIPPED_STATUSES)

  /** VM 0 hosts a's session, last used at 0. */
  function OneSession(a: ConvId, b: ConvId): State {
    State(Tables(map[0 := Vm("vm", "10.0.0.2", Running, 1, None, None)],
                 map[0 := Endpoint(a, 0, "agent", 1, EpRunning, 0)],
                 {a, b}),
          map[], Resting, {0}, {0}, 0)
  }

  lemma SecondPortIsFree(t: Tables, a: ConvId, end: int)
    requires end >= 2 && t.eps == map[0 := Endpoint(a, 0, "agent", 1, EpRunning, 0)]
    ensures SmallestFree(t, 0, 1, end) == 2
  {
    assert Taken(t, 0, 1) by {
      assert t.eps[0].port == 1;
    }
    assert !Taken(t, 0, 2);
  }

  /** A sweep lists the only row there is and counts it off. */
  lemma CountOffPath(cfg: Config, s0: State, before: seq<Step>, s: State, overlap: nat, id: EpId, now: int)
    returns (steps: seq<Step>, n: State)
    requires Reaches(cfg, s0, before, s, overlap) && s.cleaner == Resting && s.t.eps.Keys == {id}
    requires IdleEndpoint(s.t.eps[id], now - cfg.idleTimeout)
    ensures Reaches(cfg, s0, steps, n, overlap)
    ensures n == s.(t := DecrementActive(s.t, s.t.eps[id].vm, now), cleaner := Deleting(Listed(id, s.t.eps[id]), []))
  {
    var item := Listed(id, s.t.eps[id]);
    steps, n := Onward(cfg, s0, before, s, overlap, ListIdle([item], now));
    assert [item][1..] == [];
    steps, n := Onward(cfg, s0, steps, n, overlap, Decrement(true, now));
  }
}
