/**
 Whether CleanupOrphans can destroy a VM that hosts a session.  It asks GCE to delete every VM it lists
 as idle, and only then meets the foreign key that would have refused the row.
 */
module SweepSafety {
  import opened Wrappers
  import opened Tables
  import opened Allocator
  import opened Counters
  import opened Paths

  // ----- What may happen on a run -----

  /** Three failures and two overlaps.  A write of the counter or of a row delete may fail; the row of an empty
      VM may stay after its instance was asked for; a VM may be listed as idle while a creator is between its
      insert and its increment on it; a row may be inserted on a VM of the list being reaped. */
  datatype Leeway = Leeway(increment: bool, rowDelete: bool, vmDelete: bool, listing: bool, insert: bool)

  const NONE := Leeway(false, false, false, false, false)

  predicate LeavesVmRow(s: State, step: Step) {
    step.ReapVmFails? && s.cleaner.Reaping? && s.cleaner.vms != [] && CanDeleteVm(s.t, s.cleaner.vms[0])
  }

  predicate ListsUncounted(s: State, step: Step) {
    step.ListIdleVms? && exists v :: v in step.idle && InsertedOn(s, v) != {}
  }

  predicate InsertsOnListed(s: State, step: Step) {
    step.Insert? && s.cleaner.Reaping? && exists v :: v in s.cleaner.vms && By(s, step.c, v)
  }

  /** The step is none of these, or may happen. */
  predicate Allowed(s: State, step: Step, may: Leeway) {
    && (step.IncrementFails? ==> may.increment)
    && (step.DeleteRowFails? ==> may.rowDelete)
    && (LeavesVmRow(s, step) ==> may.vmDelete)
    && (ListsUncounted(s, step) ==> may.listing)
    && (InsertsOnListed(s, step) ==> may.insert)
  }

  ghost predicate Within(cfg: Config, s: State, steps: seq<Step>, may: Leeway)
    requires IsRun(cfg, s, steps)
    decreases |steps|
  {
    steps == [] ||
    (Within(cfg, s, steps[..|steps| - 1], may) && Allowed(After(cfg, s, steps[..|steps| - 1]), steps[|steps| - 1], may))
  }

  /** The VM whose instance GCE is asked to delete just before the step. */
  function Asks(s: State, step: Step): set<VmId> {
    if (step.ReapVm? || step.ReapVmFails?) && s.cleaner.Reaping? && s.cleaner.vms != [] then {s.cleaner.vms[0]} else {}
  }

  ghost function AskedFor(cfg: Config, s: State, steps: seq<Step>): set<VmId>
    requires IsRun(cfg, s, steps)
    decreases |steps|
  {
    if steps == [] then {}
    else AskedFor(cfg, s, steps[..|steps| - 1]) + Asks(After(cfg, s, steps[..|steps| - 1]), steps[|steps| - 1])
  }

  /** The clock reading a step writes or compares with. */
  function Time(step: Step): Option<int> {
    match step
    case Insert(_, _, _, now) => Some(now)
    case ListIdle(_, now) => Some(now)
    case Decrement(_, now) => Some(now)
    case ListIdleVms(_, now) => Some(now)
    case Touch(_, now) => Some(now)
    case _ => None
  }

  /** The clock never goes back, and has not passed `now`. */
  predicate RisesTo(steps: seq<Step>, now: int)
    decreases |steps|
  {
    steps == [] ||
    match Time(steps[|steps| - 1])
    case None => RisesTo(steps[..|steps| - 1], now)
    case Some(at) => at <= now && RisesTo(steps[..|steps| - 1], at)
  }

  lemma {:induction false} RisesLater(steps: seq<Step>, now: int, later: int)
    requires RisesTo(steps, now) && now <= later
    ensures RisesTo(steps, later)
    decreases |steps|
  {
    if steps != [] && Time(steps[|steps| - 1]).None? {
      RisesLater(steps[..|steps| - 1], now, later);
    }
  }

  /** Slow paths may be under way; no sweep is. */
  ghost predicate CleanStart(s: State) {
    Inv(s) && NeverUnder(s) && s.cleaner == Resting
  }

  /** The runs considered: any interleaving, under a rising clock, with only what may happen. */
  ghost predicate Considered(cfg: Config, s: State, steps: seq<Step>, now: int, may: Leeway) {
    CleanStart(s) && IsRun(cfg, s, steps) && Within(cfg, s, steps, may) && RisesTo(steps, now)
  }

  /** No sweep listed the session's row. */
  predicate NeverListed(steps: seq<Step>, e: EpId) {
    forall step | step in steps && step.ListIdle? :: forall item | item in step.listing :: item.id != e
  }

  /** Running, not idle by the clock, and its container was never touched by a sweep. */
  predicate Live(cfg: Config, s: State, steps: seq<Step>, e: EpId, now: int) {
    && e in s.t.eps && s.t.eps[e].status == EpRunning && !IdleEndpoint(s.t.eps[e], now - cfg.idleTimeout)
    && NeverListed(steps, e)
  }

  /** No VM that GCE was asked to delete hosts any session row. */
  ghost predicate SparesHosts(may: Leeway) {
    forall cfg, s, steps, now | Considered(cfg, s, steps, now, may) ::
      forall v | v in AskedFor(cfg, s, steps) :: EndpointsOn(After(cfg, s, steps).t, v) == {}
  }

  /** No VM that GCE was asked to delete hosts a live session. */
  ghost predicate SparesLive(may: Leeway) {
    forall cfg, s, steps, now | Considered(cfg, s, steps, now, may) ::
      forall v, e | v in AskedFor(cfg, s, steps) && e in EndpointsOn(After(cfg, s, steps).t, v) ::
        !Live(cfg, After(cfg, s, steps), steps, e, now)
  }

  // ----- With none of the five -----

  /** The VMs still to be asked for are empty; those asked for are gone. */
  ghost predicate Spared(s: State, asked: set<VmId>) {
    && (s.cleaner.Reaping? ==> forall v | v in s.cleaner.vms :: v in s.usedVms && EndpointsOn(s.t, v) == {})
    && forall v | v in asked :: v in s.usedVms && v !in s.t.vms
  }

  lemma EmptyStaysEmpty(cfg: Config, s: State, step: Step, v: VmId)
    requires Enabled(cfg, s, step) && EndpointsOn(s.t, v) == {}
    requires !(step.Insert? && By(s, step.c, v))
    ensures EndpointsOn(Apply(cfg, s, step).t, v) == {}
  {
    EpsChange(cfg, s, step);
    var n := Apply(cfg, s, step);
    forall e | e in n.t.eps ensures n.t.eps[e].vm != v {
      if e in s.t.eps {
        assert e !in EndpointsOn(s.t, v);
      }
    }
  }

  /** Where a list of VMs to reap comes from. */
  lemma ReapedFrom(cfg: Config, s: State, step: Step, v: VmId)
    requires Enabled(cfg, s, step) && Apply(cfg, s, step).cleaner.Reaping? && v in Apply(cfg, s, step).cleaner.vms
    ensures (step.ListIdleVms? && v in step.idle) || (s.cleaner.Reaping? && v in s.cleaner.vms)
  {
  }

  lemma StillToAsk(cfg: Config, s: State, step: Step, asked: set<VmId>, v: VmId)
    requires Inv(s) && NeverUnder(s) && Enabled(cfg, s, step) && Spared(s, asked) && Allowed(s, step, NONE)
    requires Apply(cfg, s, step).cleaner.Reaping? && v in Apply(cfg, s, step).cleaner.vms
    ensures v in Apply(cfg, s, step).usedVms && EndpointsOn(Apply(cfg, s, step).t, v) == {}
  {
    ReapedFrom(cfg, s, step, v);
    if step.ListIdleVms? {
      assert InsertedOn(s, v) == {};
      IdleVmHasNoRows(cfg, s, v, step.now - cfg.idleTimeout);
    } else {
      EmptyStaysEmpty(cfg, s, step, v);
      VmNeverReturns(cfg, s, step, v);
    }
  }

  lemma AskedIsGone(cfg: Config, s: State, step: Step, asked: set<VmId>, v: VmId)
    requires Enabled(cfg, s, step) && Spared(s, asked) && Allowed(s, step, NONE) && v in asked + Asks(s, step)
    ensures v in Apply(cfg, s, step).usedVms && v !in Apply(cfg, s, step).t.vms
  {
    if v in asked {
      VmNeverReturns(cfg, s, step, v);
    } else {
      assert CanDeleteVm(s.t, v) by {
        forall e | e in s.t.eps ensures s.t.eps[e].vm != v {
          assert e !in EndpointsOn(s.t, v);
        }
      }
      assert step.ReapVm?;
    }
  }

  lemma StepSpares(cfg: Config, s: State, step: Step, asked: set<VmId>)
    requires Inv(s) && NeverUnder(s) && Enabled(cfg, s, step) && Spared(s, asked) && Allowed(s, step, NONE)
    ensures Spared(Apply(cfg, s, step), asked + Asks(s, step))
  {
    var n := Apply(cfg, s, step);
    if n.cleaner.Reaping? {
      forall v | v in n.cleaner.vms ensures v in n.usedVms && EndpointsOn(n.t, v) == {} {
        StillToAsk(cfg, s, step, asked, v);
      }
    }
    forall v | v in asked + Asks(s, step) ensures v in n.usedVms && v !in n.t.vms {
      AskedIsGone(cfg, s, step, asked, v);
    }
  }

  lemma {:induction false} NothingLostWithin(cfg: Config, s: State, steps: seq<Step>)
    requires IsRun(cfg, s, steps) && Within(cfg, s, steps, NONE)
    ensures forall step | step in steps :: !LosesCount(step)
  {
    if steps != [] {
      NothingLostWithin(cfg, s, steps[..|steps| - 1]);
    }
  }

  /** Sweeps and slow paths interleave freely, on the same VMs too. */
  lemma {:induction false} RunSpares(cfg: Config, s: State, steps: seq<Step>)
    requires CleanStart(s) && IsRun(cfg, s, steps) && Within(cfg, s, steps, NONE)
    ensures Spared(After(cfg, s, steps), AskedFor(cfg, s, steps))
  {
    if steps != [] {
      var front := steps[..|steps| - 1];
      RunSpares(cfg, s, front);
      RunKeepsInv(cfg, s, front);
      NothingLostWithin(cfg, s, front);
      RunKeepsNeverUnder(cfg, s, front);
      StepSpares(cfg, After(cfg, s, front), steps[|steps| - 1], AskedFor(cfg, s, front));
    }
  }

  lemma RunReapsEmpty(cfg: Config, s: State, steps: seq<Step>)
    requires CleanStart(s) && IsRun(cfg, s, steps) && Within(cfg, s, steps, NONE)
    ensures forall v | v in AskedFor(cfg, s, steps) :: EndpointsOn(After(cfg, s, steps).t, v) == {}
  {
    RunKeepsInv(cfg, s, steps);
    RunSpares(cfg, s, steps);
  }

  // ----- Each of the five breaks it -----

  /** A run from s0 to s: the clock reads `now`, and GCE was asked for the VMs `asked`. */
  datatype Course = Course(s0: State, steps: seq<Step>, s: State, now: int, asked: set<VmId>)

  function From(s0: State): Course {
    Course(s0, [], s0, 0, {})
  }

  /** No sweep on it listed row 1. */
  ghost predicate Ran(r: Course, may: Leeway) {
    && Leads(ROOMY, r.s0, r.steps, r.s) && Within(ROOMY, r.s0, r.steps, may)
    && AskedFor(ROOMY, r.s0, r.steps) == r.asked && RisesTo(r.steps, r.now) && NeverListed(r.steps, 1)
  }

  lemma Next(r: Course, may: Leeway, step: Step) returns (n: Course)
    requires Ran(r, may) && Enabled(ROOMY, r.s, step) && Allowed(r.s, step, may)
    requires Time(step).Some? ==> r.now <= Time(step).value
    requires step.ListIdle? ==> forall item | item in step.listing :: item.id != 1
    ensures Ran(n, may) && n.s0 == r.s0 && n.s == Apply(ROOMY, r.s, step)
    ensures n.now == (if Time(step).Some? then Time(step).value else r.now) && n.asked == r.asked + Asks(r.s, step)
  {
    var steps, s := Take(ROOMY, r.s0, r.steps, r.s, step);
    assert steps[..|steps| - 1] == r.steps;
    if Time(step).Some? {
      RisesLater(r.steps, r.now, Time(step).value);
    }
    n := Course(r.s0, steps, s, if Time(step).Some? then Time(step).value else r.now, r.asked + Asks(r.s, step));
  }

  /** Steps that are always allowed and for which GCE is not asked. */
  predicate Plain(step: Step) {
    !LosesCount(step) && !step.Insert? && !step.ListIdleVms? && !step.ReapVm? && !step.ReapVmFails?
  }

  lemma Plainly(r: Course, may: Leeway, step: Step) returns (n: Course)
    requires Ran(r, may) && Enabled(ROOMY, r.s, step) && Plain(step)
    requires Time(step).Some? ==> r.now <= Time(step).value
    requires step.ListIdle? ==> forall item | item in step.listing :: item.id != 1
    ensures Ran(n, may) && n.s0 == r.s0 && n.s == Apply(ROOMY, r.s, step)
    ensures n.now == (if Time(step).Some? then Time(step).value else r.now) && n.asked == r.asked
  {
    n := Next(r, may, step);
  }

  /** A step of b's slow path up to the insert. */
  lemma Moves(r: Course, may: Leeway, step: Step, b: ConvId, pc: Pc) returns (n: Course)
    requires Ran(r, may) && Enabled(ROOMY, r.s, step) && OnlyMoves(step) && Plain(step)
    requires Apply(ROOMY, r.s, step) == Goto(r.s, b, pc)
    ensures Ran(n, may) && n == r.(s := Goto(r.s, b, pc), steps := n.steps)
  {
    assert Time(step) == None;
    n := Plainly(r, may, step);
  }

  lemma GotoAgain(s: State, b: ConvId, earlier: Pc, later: Pc)
    ensures Goto(Goto(s, b, earlier), b, later) == Goto(s, b, later)
  {
    assert s.creators[b := earlier][b := later] == s.creators[b := later];
  }

  lemma Picks(r: Course, may: Leeway, b: ConvId) returns (n: Course)
    requires Ran(r, may) && b !in r.s.creators && Fullest(r.s.t, 0, ROOMY.max)
    ensures Ran(n, may) && n == r.(s := Goto(r.s, b, Ready(0, 0)), steps := n.steps)
  {
    n := Moves(r, may, Begin(b), b, Picking(0));
    GotoAgain(r.s, b, Picking(0), Pinging(0, 0));
    n := Moves(n, may, Pick(b, 0), b, Pinging(0, 0));
    GotoAgain(r.s, b, Pinging(0, 0), Ready(0, 0));
    n := Moves(n, may, PingOk(b), b, Ready(0, 0));
  }

  lemma StartsAgent(r: Course, may: Leeway, b: ConvId, port: int) returns (n: Course)
    requires Ran(r, may) && b in r.s.creators && r.s.creators[b] == Ready(0, 0)
    requires SmallestFree(r.s.t, 0, ROOMY.start, ROOMY.end) == port != 0
    ensures Ran(n, may) && n == r.(s := Goto(r.s, b, AgentUp(0, 0, port)), steps := n.steps)
  {
    n := Moves(r, may, ChoosePort(b), b, HasPort(0, 0, port));
    GotoAgain(r.s, b, HasPort(0, 0, port), AgentUp(0, 0, port));
    n := Moves(n, may, AgentStarts(b), b, AgentUp(0, 0, port));
  }

  /** b's row, under id 1. */
  lemma Inserts(r: Course, may: Leeway, b: ConvId, port: int, now: int) returns (n: Course)
    requires Ran(r, may) && b in r.s.creators && r.s.creators[b] == AgentUp(0, 0, port) && r.now <= now
    requires CanInsertEndpoint(r.s.t, b, 0, port) && 1 !in r.s.usedEps
    requires InsertsOnListed(r.s, Insert(b, 1, "agent", now)) ==> may.insert
    ensures Ran(n, may) && n.s0 == r.s0 && n.now == now && n.asked == r.asked
    ensures n.s == Goto(r.s, b, Inserted(0)).(t := InsertEndpoint(r.s.t, 1, b, 0, "agent", port, now),
                                              usedEps := r.s.usedEps + {1})
  {
    n := Next(r, may, Insert(b, 1, "agent", now));
  }

  lemma SweepsNothing(r: Course, may: Leeway, at: int) returns (n: Course)
    requires Ran(r, may) && r.s.cleaner == Resting && r.now <= at && ListsIdle(r.s.t, [], at - ROOMY.idleTimeout)
    ensures Ran(n, may) && n == r.(s := r.s.(cleaner := Sweeping([])), steps := n.steps, now := at)
  {
    n := Plainly(r, may, ListIdle([], at));
  }

  lemma ListingAllowed(s: State, may: Leeway, at: int)
    requires s.cleaner == Sweeping([]) && ListsIdleVms(s.t, [0], at - ROOMY.idleTimeout)
    requires InsertedOn(s, 0) == {} || may.listing
    ensures var step := ListIdleVms([0], at);
            && Enabled(ROOMY, s, step) && Allowed(s, step, may) && Asks(s, step) == {}
            && Apply(ROOMY, s, step) == s.(cleaner := Reaping([0]))
  {
  }

  /** A sweep that finds no idle row lists VM 0 as idle. */
  lemma ListsVm(r: Course, may: Leeway, at: int) returns (n: Course)
    requires Ran(r, may) && r.s.cleaner == Resting && r.now <= at
    requires ListsIdle(r.s.t, [], at - ROOMY.idleTimeout) && ListsIdleVms(r.s.t, [0], at - ROOMY.idleTimeout)
    requires InsertedOn(r.s, 0) == {} || may.listing
    ensures Ran(n, may) && n == r.(s := r.s.(cleaner := Reaping([0])), steps := n.steps, now := at)
  {
    n := SweepsNothing(r, may, at);
    assert InsertedOn(n.s, 0) == InsertedOn(r.s, 0);
    ListingAllowed(n.s, may, at);
    n := Next(n, may, ListIdleVms([0], at));
  }

  /** GCE is asked for VM 0; its row stays. */
  lemma AsksForVm(r: Course, may: Leeway) returns (n: Course)
    requires Ran(r, may) && r.s.cleaner == Reaping([0]) && (CanDeleteVm(r.s.t, 0) ==> may.vmDelete)
    ensures Ran(n, may) && n.s0 == r.s0 && n.now == r.now && n.asked == r.asked + {0}
    ensures n.s == r.s.(cleaner := Resting, failed := r.s.failed + 1)
  {
    n := Next(r, may, ReapVmFails);
  }

  /** Then b's live session is on a VM that GCE was asked to delete. */
  lemma Condemned(r: Course, may: Leeway)
    requires Ran(r, may) && CleanStart(r.s0) && 0 in r.asked && 1 in r.s.t.eps && r.s.t.eps[1].vm == 0
    requires r.s.t.eps[1].status == EpRunning && r.s.t.eps[1].lastActivity >= r.now - ROOMY.idleTimeout
    ensures !SparesLive(may)
  {
    assert Considered(ROOMY, r.s0, r.steps, r.now, may);
    assert 1 in EndpointsOn(r.s.t, 0) && Live(ROOMY, r.s, r.steps, 1, r.now);
  }

  // ----- The overlaps, and the VM whose row stays -----

  /** VM 0 hosts nothing and is idle since 0. */
  function IdleVmOnly(b: ConvId): State {
    State(Tables(map[0 := Vm("vm", "10.0.0.2", Running, 0, Some(0), None)], map[], {b}), map[], Resting, {0}, {}, 0)
  }

  lemma IdleStarts(b: ConvId)
    ensures CleanStart(IdleVmOnly(b)) && Fullest(IdleVmOnly(b).t, 0, ROOMY.max)
    ensures ListsIdle(IdleVmOnly(b).t, [], 5) && ListsIdleVms(IdleVmOnly(b).t, [0], 5)
    ensures SmallestFree(IdleVmOnly(b).t, 0, ROOMY.start, ROOMY.end) == 1
  {
    var s := IdleVmOnly(b);
    assert EndpointsOn(s.t, 0) == {} && InsertedOn(s, 0) == {};
    assert !Taken(s.t, 0, 1);
  }

  /** With b's row, not counted yet. */
  function Placed(b: ConvId): Tables {
    InsertEndpoint(IdleVmOnly(b).t, 1, b, 0, "agent", 1, 10)
  }

  lemma PlacedIsListed(b: ConvId)
    ensures ListsIdle(Placed(b), [], 5) && ListsIdleVms(Placed(b), [0], 5) && !CanDeleteVm(Placed(b), 0)
  {
    assert Placed(b).eps[1].vm == 0;
  }

  lemma PlacedUncounted(b: ConvId, may: Leeway) returns (r: Course)
    ensures Ran(r, may) && r.s0 == IdleVmOnly(b) && r.now == 10 && r.asked == {}
    ensures r.s == Goto(IdleVmOnly(b), b, Inserted(0)).(t := Placed(b), usedEps := {1})
  {
    IdleStarts(b);
    var s0 := IdleVmOnly(b);
    r := Picks(From(s0), may, b);
    GotoAgain(s0, b, Ready(0, 0), AgentUp(0, 0, 1));
    r := StartsAgent(r, may, b, 1);
    GotoAgain(s0, b, AgentUp(0, 0, 1), Inserted(0));
    r := Inserts(r, may, b, 1, 10);
  }

  /** The sweep lists the VM between b's insert and b's increment. */
  lemma ListedTooEarly(b: ConvId, may: Leeway)
    requires may.listing
    ensures !SparesLive(may)
  {
    IdleStarts(b);
    PlacedIsListed(b);
    var r := PlacedUncounted(b, may);
    r := ListsVm(r, may, 10);
    r := AsksForVm(r, may);
    Condemned(r, may);
  }

  /** b picks the VM before the sweep lists it. */
  lemma PickedThenListed(b: ConvId, may: Leeway) returns (r: Course)
    ensures Ran(r, may) && r.s0 == IdleVmOnly(b) && r.now == 10 && r.asked == {}
    ensures r.s == Goto(IdleVmOnly(b), b, AgentUp(0, 0, 1)).(cleaner := Reaping([0]))
  {
    IdleStarts(b);
    var s0 := IdleVmOnly(b);
    r := Picks(From(s0), may, b);
    r := ListsVm(r, may, 10);
    GotoAgain(r.s, b, Ready(0, 0), AgentUp(0, 0, 1));
    r := StartsAgent(r, may, b, 1);
    assert r.s.creators == map[b := AgentUp(0, 0, 1)];
  }

  /** It inserts and counts its row before GCE is asked. */
  lemma InsertedTooLate(b: ConvId, may: Leeway)
    requires may.insert
    ensures !SparesLive(may)
  {
    IdleStarts(b);
    PlacedIsListed(b);
    var r := PickedThenListed(b, may);
    r := Inserts(r, may, b, 1, 10);
    r := Counts(r, may, b);
    r := AsksForVm(r, may);
    Condemned(r, may);
  }

  lemma Counts(r: Course, may: Leeway, b: ConvId) returns (n: Course)
    requires Ran(r, may) && b in r.s.creators && r.s.creators[b] == Inserted(0) && r.s.t == Placed(b)
    ensures Ran(n, may) && n == r.(s := n.s, steps := n.steps) && n.s.cleaner == r.s.cleaner
    ensures n.s.t.eps == Placed(b).eps && !CanDeleteVm(n.s.t, 0)
  {
    n := Plainly(r, may, Increment(b));
    assert n.s.t.eps[1].vm == 0;
  }

  /** GCE is asked for the VM and its row stays, so b can still pick it. */
  lemma PickedAfterwards(b: ConvId, may: Leeway)
    requires may.vmDelete
    ensures !SparesLive(may)
  {
    IdleStarts(b);
    var r := ListsVm(From(IdleVmOnly(b)), may, 10);
    r := AsksForVm(r, may);
    r := Picks(r, may, b);
    r := StartsAgent(r, may, b, 1);
    r := Inserts(r, may, b, 1, 10);
    Condemned(r, may);
  }

  // ----- The lost counts -----

  /** OneSession, and b's session beside it, last used at 16. */
  function TwoSessions(a: ConvId, b: ConvId, active: nat): State {
    State(Tables(map[0 := Vm("vm", "10.0.0.2", Running, active, None, None)],
                 map[0 := Endpoint(a, 0, "agent", 1, EpRunning, 0), 1 := Endpoint(b, 0, "agent", 2, EpRunning, 16)],
                 {a, b}),
          map[], Resting, {0}, {0, 1}, 0)
  }

  lemma BothStart(a: ConvId, b: ConvId)
    requires a != b
    ensures CleanStart(OneSession(a, b)) && CleanStart(TwoSessions(a, b, 2))
  {
    var s, w := OneSession(a, b), TwoSessions(a, b, 2);
    assert EndpointsOn(s.t, 0) == {0} && EndpointsOn(w.t, 0) == {0, 1};
    assert InsertedOn(s, 0) == {} && InsertedOn(w, 0) == {};
  }

  lemma SecondAgent(a: ConvId, b: ConvId, may: Leeway) returns (r: Course)
    requires a != b
    ensures Ran(r, may) && r == From(OneSession(a, b)).(s := Goto(OneSession(a, b), b, AgentUp(0, 0, 2)), steps := r.steps)
  {
    var s0 := OneSession(a, b);
    assert Fullest(s0.t, 0, ROOMY.max);
    r := Picks(From(s0), may, b);
    SecondPortIsFree(r.s.t, a, ROOMY.end);
    GotoAgain(s0, b, Ready(0, 0), AgentUp(0, 0, 2));
    r := StartsAgent(r, may, b, 2);
  }

  /** b's session is placed and not counted. */
  lemma FailedIncrement(a: ConvId, b: ConvId, may: Leeway) returns (r: Course)
    requires a != b && may.increment
    ensures Ran(r, may) && r.s0 == OneSession(a, b) && r.now == 16 && r.asked == {}
    ensures r.s == TwoSessions(a, b, 1).(failed := 1)
  {
    r := SecondAgent(a, b, may);
    r := Inserts(r, may, b, 2, 16);
    r := Next(r, may, IncrementFails(b));
    assert r.s.creators == map[] && r.s.t == TwoSessions(a, b, 1).t;
  }

  /** Row 0 is the only idle one until b's session, last used at 16, falls idle too. */
  lemma OnlyFirstIsIdle(t: Tables, before: int)
    requires t.eps.Keys == {0, 1} && IdleEndpoint(t.eps[0], before) && t.eps[1].lastActivity >= before
    ensures ListsIdle(t, [Listed(0, t.eps[0])], before)
  {
  }

  /** A sweep lists a's row and counts it off. */
  lemma CountedOff(r: Course, may: Leeway, at: int) returns (n: Course)
    requires Ran(r, may) && r.now <= at && r.s.cleaner == Resting && 0 in r.s.t.eps
    requires ListsIdle(r.s.t, [Listed(0, r.s.t.eps[0])], at - ROOMY.idleTimeout)
    ensures Ran(n, may) && n.s0 == r.s0 && n.now == at && n.asked == r.asked
    ensures var item := Listed(0, r.s.t.eps[0]);
            n.s == r.s.(t := DecrementActive(r.s.t, item.ep.vm, at), cleaner := Deleting(item, []))
  {
    var item := Listed(0, r.s.t.eps[0]);
    n := Plainly(r, may, ListIdle([item], at));
    assert [item][1..] == [];
    n := Plainly(n, may, Decrement(true, at));
  }

  /** And cannot delete the row. */
  lemma FailedRowDelete(a: ConvId, b: ConvId, may: Leeway) returns (r: Course)
    requires a != b && may.rowDelete
    ensures Ran(r, may) && r.s0 == TwoSessions(a, b, 2) && r.now == 20 && r.asked == {}
    ensures r.s == TwoSessions(a, b, 1).(failed := 1)
  {
    OnlyFirstIsIdle(TwoSessions(a, b, 2).t, 15);
    assert DecrementActive(TwoSessions(a, b, 2).t, 0, 20) == TwoSessions(a, b, 1).t;
    r := CountedOff(From(TwoSessions(a, b, 2)), may, 20);
    r := Next(r, may, DeleteRowFails);
  }

  /** b's session alone, on a VM that counts as empty since 21. */
  function OnlySecond(a: ConvId, b: ConvId, lastActivity: int): State {
    State(Tables(map[0 := Vm("vm", "10.0.0.2", Running, 0, Some(21), None)],
                 map[1 := Endpoint(b, 0, "agent", 2, EpRunning, lastActivity)],
                 {a, b}),
          map[], Resting, {0}, {0, 1}, 1)
  }

  lemma SecondIsLeft(a: ConvId, b: ConvId)
    requires a != b
    ensures DeleteEndpoint(DecrementActive(TwoSessions(a, b, 1).t, 0, 21), 0) == OnlySecond(a, b, 16).t
    ensures ListsIdle(TwoSessions(a, b, 1).t, [Listed(0, TwoSessions(a, b, 1).t.eps[0])], 16)
  {
    OnlyFirstIsIdle(TwoSessions(a, b, 1).t, 16);
    assert DeleteEndpoint(DecrementActive(TwoSessions(a, b, 1).t, 0, 21), 0).eps == OnlySecond(a, b, 16).t.eps;
  }

  /** The counter is one short: once a sweep at 21 has taken a's session away, the VM counts as empty. */
  lemma SweptAway(a: ConvId, b: ConvId, r: Course, may: Leeway) returns (n: Course)
    requires a != b && Ran(r, may) && r.now <= 21 && r.s == TwoSessions(a, b, 1).(failed := 1)
    ensures Ran(n, may) && n == r.(s := OnlySecond(a, b, 16).(cleaner := Sweeping([])), steps := n.steps, now := 21)
  {
    SecondIsLeft(a, b);
    n := CountedOff(r, may, 21);
    n := Plainly(n, may, DeleteRow);
  }

  lemma ThenRests(a: ConvId, b: ConvId, r: Course, may: Leeway) returns (n: Course)
    requires Ran(r, may) && r.now == 21 && r.s == OnlySecond(a, b, 16).(cleaner := Sweeping([]))
    ensures Ran(n, may) && n == r.(s := OnlySecond(a, b, 16), steps := n.steps)
  {
    assert ListsIdleVms(r.s.t, [], 16);
    n := Next(r, may, ListIdleVms([], 21));
    n := Plainly(n, may, Rest);
  }

  lemma UsedAgain(a: ConvId, b: ConvId, r: Course, may: Leeway) returns (n: Course)
    requires Ran(r, may) && r.now == 21 && r.s == OnlySecond(a, b, 16)
    ensures Ran(n, may) && n == r.(s := OnlySecond(a, b, 26), steps := n.steps, now := 26)
  {
    n := Plainly(r, may, Touch(b, 26));
    assert n.s.t.eps == OnlySecond(a, b, 26).t.eps;
  }

  /** b's session is used at 26; a sweep at 27 has its VM deleted. */
  lemma ThenReaped(a: ConvId, b: ConvId, r: Course, may: Leeway)
    requires Ran(r, may) && r.now == 21 && r.s == OnlySecond(a, b, 16) && CleanStart(r.s0)
    ensures !SparesLive(may)
  {
    var n := UsedAgain(a, b, r, may);
    SecondIsListed(a, b);
    n := ListsVm(n, may, 27);
    n := AsksForVm(n, may);
    Condemned(n, may);
  }

  lemma SecondIsListed(a: ConvId, b: ConvId)
    ensures var s := OnlySecond(a, b, 26);
            ListsIdle(s.t, [], 22) && ListsIdleVms(s.t, [0], 22) && !CanDeleteVm(s.t, 0) && InsertedOn(s, 0) == {}
  {
    assert OnlySecond(a, b, 26).t.eps[1].vm == 0;
  }

  /** One failed increment, or one failed row delete, costs a live session its VM. */
  lemma LostCount(a: ConvId, b: ConvId, may: Leeway)
    requires a != b && (may.increment || may.rowDelete)
    ensures !SparesLive(may)
  {
    BothStart(a, b);
    var r;
    if may.increment {
      r := FailedIncrement(a, b, may);
    } else {
      r := FailedRowDelete(a, b, may);
    }
    r := SweptAway(a, b, r, may);
    r := ThenRests(a, b, r, may);
    ThenReaped(a, b, r, may);
  }

  /** Whatever the interleaving, sweeps have no VM deleted that hosts a session exactly when none of the five
      can happen: then none with any session row, else on some run one with a live session. */
  lemma SparesHostsExactly(may: Leeway)
    ensures SparesHosts(may) <==> may == NONE
    ensures SparesLive(may) <==> may == NONE
  {
    if may == NONE {
      forall cfg, s, steps, now | Considered(cfg, s, steps, now, may)
        ensures forall v | v in AskedFor(cfg, s, steps) :: EndpointsOn(After(cfg, s, steps).t, v) == {}
      {
        RunReapsEmpty(cfg, s, steps);
      }
    } else if may.listing {
      ListedTooEarly("b", may);
    } else if may.insert {
      InsertedTooLate("b", may);
    } else if may.vmDelete {
      PickedAfterwards("b", may);
    } else {
      LostCount("a", "b", may);
    }
  }
}
