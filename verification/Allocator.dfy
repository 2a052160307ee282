/**
 Sessions and VMs under interleaving.  Any number of creators (one per conversation: singleflight), one
 cleaner, conversation deletes, activity updates and VM reconciliation take steps in any order; a step is
 one repository call, or one remote call with its outcome.  Every repository call and every remote call may fail.
 */
module Allocator {
  import opened Wrappers
  import opened Tables

  datatype Config = Config(max: int, start: int, end: int, idleTimeout: int, statuses: set<VmStatus>)

  /** MaxContainers and PortRangeStart as NewDockerGCEProvider leaves them: not zero. */
  predicate Sane(cfg: Config) {
    cfg.max >= 1 && cfg.start >= 1
  }

  const PICK_ATTEMPTS := 5
  const INSERT_ATTEMPTS := 3

  /** Where one call of getOrCreateEndpoint's slow path is. */
  datatype Pc =
    | Picking(attempt: nat)
    | Pinging(vm: VmId, attempt: nat)
    | Creating
    | Booting(vm: VmId)
    | Addressed(vm: VmId)
    | Waiting(vm: VmId)
    | Ready(vm: VmId, tries: nat)
    | HasPort(vm: VmId, tries: nat, port: int)
    | AgentUp(vm: VmId, tries: nat, port: int)
    | Inserted(vm: VmId)

  datatype Cleaner =
    | Resting
    | Sweeping(todo: seq<Listed>)
    | Deleting(item: Listed, todo: seq<Listed>)
    | Reaping(vms: seq<VmId>)

  /** `failed` counts the database writes that returned an error. */
  datatype State = State(
    t: Tables,
    creators: map<ConvId, Pc>,
    cleaner: Cleaner,
    usedVms: set<VmId>,
    usedEps: set<EpId>,
    failed: nat)

  datatype Step =
    | Begin(c: ConvId)
    | Pick(c: ConvId, picked: VmId)
    | PickNone(c: ConvId)
    | PingOk(c: ConvId)
    | Demote(c: ConvId, pinged: bool, ok: bool)
    | CreateVm(c: ConvId, newVm: VmId, name: string, ip: string)
    | CreateVmFails(c: ConvId)
    | WriteIp(c: ConvId, ip: string, ok: bool)
    | WriteRunning(c: ConvId, ok: bool)
    | VmReady(c: ConvId)
    | ChoosePort(c: ConvId)
    | AgentStarts(c: ConvId)
    | Insert(c: ConvId, newEp: EpId, container: string, now: int)
    | InsertFails(c: ConvId)
    | InsertGivesUp(c: ConvId)
    | Increment(c: ConvId)
    | IncrementFails(c: ConvId)
    | GiveUp(c: ConvId)
    | ListIdle(listing: seq<Listed>, now: int)
    | Decrement(ok: bool, now: int)
    | DeleteRow
    | DeleteRowFails
    | ListIdleVms(idle: seq<VmId>, now: int)
    | ReapVm
    | ReapVmFails
    | Rest
    | NewConversation(c: ConvId)
    | DropConversation(c: ConvId)
    | Touch(c: ConvId, now: int)
    | Stamp(vm: VmId, since: Option<int>, ok: bool)
    | Reconcile(vm: VmId, ok: bool)

  function Target(pc: Pc): Option<VmId> {
    if pc.Picking? || pc.Creating? then None else Some(pc.vm)
  }

  function NextPick(attempt: nat): Pc {
    if attempt + 1 < PICK_ATTEMPTS then Picking(attempt + 1) else Creating
  }

  ghost predicate Enabled(cfg: Config, s: State, step: Step) {
    match step
    case Begin(c) => c !in s.creators
    case Pick(c, vm) => c in s.creators && s.creators[c].Picking? && Fullest(s.t, vm, cfg.max)
    case PickNone(c) => c in s.creators && s.creators[c].Picking?
    case PingOk(c) => c in s.creators && s.creators[c].Pinging?
    case Demote(c, _, ok) => c in s.creators && s.creators[c].Pinging? && (ok ==> Unhealthy in cfg.statuses)
    case CreateVm(c, id, _, _) => c in s.creators && s.creators[c].Creating? && id !in s.usedVms
    case CreateVmFails(c) => c in s.creators && s.creators[c].Creating?
    case WriteIp(c, _, _) => c in s.creators && s.creators[c].Booting?
    case WriteRunning(c, _) => c in s.creators && s.creators[c].Addressed?
    case VmReady(c) => c in s.creators && s.creators[c].Waiting?
    case ChoosePort(c) =>
      c in s.creators && s.creators[c].Ready? && SmallestFree(s.t, s.creators[c].vm, cfg.start, cfg.end) != 0
    case AgentStarts(c) => c in s.creators && s.creators[c].HasPort?
    case Insert(c, id, _, _) =>
      c in s.creators && s.creators[c].AgentUp? && id !in s.usedEps &&
      CanInsertEndpoint(s.t, c, s.creators[c].vm, s.creators[c].port)
    case InsertFails(c) => c in s.creators && s.creators[c].AgentUp? && s.creators[c].tries + 1 < INSERT_ATTEMPTS
    case InsertGivesUp(c) => c in s.creators && s.creators[c].AgentUp?
    case Increment(c) => c in s.creators && s.creators[c].Inserted?
    case IncrementFails(c) => c in s.creators && s.creators[c].Inserted?
    case GiveUp(c) =>
      c in s.creators && !s.creators[c].Picking? && !s.creators[c].Pinging? && !s.creators[c].Addressed?
      && !s.creators[c].AgentUp? && !s.creators[c].Inserted?
    case ListIdle(listing, now) => s.cleaner.Resting? && ListsIdle(s.t, listing, now - cfg.idleTimeout)
    case Decrement(_, _) => s.cleaner.Sweeping? && s.cleaner.todo != []
    case DeleteRow => s.cleaner.Deleting?
    case DeleteRowFails => s.cleaner.Deleting?
    case ListIdleVms(idle, now) =>
      s.cleaner == Sweeping([]) && ListsIdleVms(s.t, idle, now - cfg.idleTimeout)
    case ReapVm => s.cleaner.Reaping? && s.cleaner.vms != [] && CanDeleteVm(s.t, s.cleaner.vms[0])
    case ReapVmFails => s.cleaner.Reaping? && s.cleaner.vms != []
    case Rest => s.cleaner == Sweeping([]) || s.cleaner == Reaping([])
    case NewConversation(_) => true
    case DropConversation(_) => true
    case Touch(_, _) => true
    case Stamp(_, _, _) => true
    case Reconcile(vm, ok) => ok ==> CanDeleteVm(s.t, vm) // listed as running at some earlier time
  }

  function Goto(s: State, c: ConvId, pc: Pc): State {
    s.(creators := s.creators[c := pc])
  }

  function Leave(s: State, c: ConvId): State {
    s.(creators := s.creators - {c})
  }

  /** What one write adds to the count of failures. */
  function Failing(ok: bool): nat {
    if ok then 0 else 1
  }

  function Apply(cfg: Config, s: State, step: Step): State
    requires Enabled(cfg, s, step)
  {
    match step
    case Begin(c) => Goto(s, c, Picking(0))
    case Pick(c, vm) => Goto(s, c, Pinging(vm, s.creators[c].attempt))
    case PickNone(c) => Goto(s, c, Creating)
    case PingOk(c) => Goto(s, c, Ready(s.creators[c].vm, 0))
    case Demote(c, pinged, ok) =>
      var next := if ok || !pinged then NextPick(s.creators[c].attempt) else Creating;
      Goto(s, c, next).(
        t := if ok then SetVmStatus(s.t, s.creators[c].vm, Unhealthy) else s.t, failed := s.failed + Failing(ok))
    case CreateVm(c, id, name, ip) =>
      Goto(s, c, Booting(id)).(t := InsertVm(s.t, id, name, ip), usedVms := s.usedVms + {id})
    case CreateVmFails(c) => Leave(s, c).(failed := s.failed + 1)
    case WriteIp(c, ip, ok) =>
      Goto(s, c, Addressed(s.creators[c].vm)).(
        t := if ok then SetVmIp(s.t, s.creators[c].vm, ip) else s.t, failed := s.failed + Failing(ok))
    case WriteRunning(c, ok) =>
      Goto(s, c, Waiting(s.creators[c].vm)).(
        t := if ok then SetVmStatus(s.t, s.creators[c].vm, Running) else s.t, failed := s.failed + Failing(ok))
    case VmReady(c) => Goto(s, c, Ready(s.creators[c].vm, 0))
    case ChoosePort(c) =>
      var pc := s.creators[c];
      Goto(s, c, HasPort(pc.vm, pc.tries, SmallestFree(s.t, pc.vm, cfg.start, cfg.end)))
    case AgentStarts(c) => Goto(s, c, AgentUp(s.creators[c].vm, s.creators[c].tries, s.creators[c].port))
    case Insert(c, id, container, now) =>
      var pc := s.creators[c];
      Goto(s, c, Inserted(pc.vm)).(
        t := InsertEndpoint(s.t, id, c, pc.vm, container, pc.port, now), usedEps := s.usedEps + {id})
    case InsertFails(c) => Goto(s, c, Ready(s.creators[c].vm, s.creators[c].tries + 1)).(failed := s.failed + 1)
    case InsertGivesUp(c) => Leave(s, c).(failed := s.failed + 1)
    case Increment(c) => Leave(s, c).(t := IncrementActive(s.t, s.creators[c].vm))
    case IncrementFails(c) => Leave(s, c).(failed := s.failed + 1)
    case GiveUp(c) => Leave(s, c)
    case ListIdle(listing, _) => s.(cleaner := Sweeping(listing))
    case Decrement(ok, now) =>
      var item := s.cleaner.todo[0];
      s.(t := if ok then DecrementActive(s.t, item.ep.vm, now) else s.t,
         cleaner := Deleting(item, s.cleaner.todo[1..]), failed := s.failed + Failing(ok))
    case DeleteRow =>
      s.(t := DeleteEndpoint(s.t, s.cleaner.item.id), cleaner := Sweeping(s.cleaner.todo))
    case DeleteRowFails => s.(cleaner := Resting, failed := s.failed + 1)
    case ListIdleVms(idle, _) => s.(cleaner := Reaping(idle))
    case ReapVm => s.(t := DeleteVm(s.t, s.cleaner.vms[0]), cleaner := Reaping(s.cleaner.vms[1..]))
    case ReapVmFails => s.(cleaner := Resting, failed := s.failed + 1)
    case Rest => s.(cleaner := Resting)
    case NewConversation(c) => s.(t := InsertConversation(s.t, c))
    case DropConversation(c) => s.(t := DeleteConversation(s.t, c))
    case Touch(c, now) => s.(t := TouchEndpoint(s.t, c, now))
    case Stamp(vm, since, ok) =>
      s.(t := if ok then SetZeroSince(s.t, vm, since) else s.t, failed := s.failed + Failing(ok))
    case Reconcile(vm, ok) => s.(t := if ok then DeleteVm(s.t, vm) else s.t, failed := s.failed + Failing(ok))
  }

  // ----- Reading a state -----

  /** Every VM within MaxContainers, by its counter. */
  predicate WithinMax(cfg: Config, s: State) {
    forall v | v in s.t.vms :: s.t.vms[v].active <= cfg.max
  }

  function Active(s: State, v: VmId): nat {
    if v in s.t.vms then s.t.vms[v].active else 0
  }

  predicate Counts(s: State, step: Step, v: VmId) {
    step.Increment? && step.c in s.creators && s.creators[step.c] == Inserted(v)
  }

  // ----- Runs -----

  ghost predicate IsRun(cfg: Config, s: State, steps: seq<Step>)
    decreases |steps|, 0
  {
    steps == [] ||
    (IsRun(cfg, s, steps[..|steps| - 1]) && Enabled(cfg, After(cfg, s, steps[..|steps| - 1]), steps[|steps| - 1]))
  }

  ghost function After(cfg: Config, s: State, steps: seq<Step>): State
    requires IsRun(cfg, s, steps)
    decreases |steps|, 1
  {
    if steps == [] then s else Apply(cfg, After(cfg, s, steps[..|steps| - 1]), steps[|steps| - 1])
  }

  /** At no point of the run do more than `creators` slow paths overlap. */
  ghost predicate Overlap(cfg: Config, s: State, steps: seq<Step>, creators: nat)
    requires IsRun(cfg, s, steps)
    decreases |steps|
  {
    |After(cfg, s, steps).creators| <= creators &&
    (steps == [] || Overlap(cfg, s, steps[..|steps| - 1], creators))
  }

  /** The steps lead from s0 to s. */
  ghost predicate Leads(cfg: Config, s0: State, steps: seq<Step>, s: State) {
    IsRun(cfg, s0, steps) && After(cfg, s0, steps) == s
  }

  lemma Take(cfg: Config, s0: State, steps: seq<Step>, s: State, step: Step) returns (longer: seq<Step>, next: State)
    requires Leads(cfg, s0, steps, s) && Enabled(cfg, s, step)
    ensures longer == steps + [step]
    ensures Leads(cfg, s0, longer, next) && next == Apply(cfg, s, step)
    ensures forall creators: nat ::
              Overlap(cfg, s0, steps, creators) && |next.creators| <= creators ==> Overlap(cfg, s0, longer, creators)
  {
    longer := steps + [step];
    assert longer[..|steps|] == steps;
    next := Apply(cfg, s, step);
  }

  // ----- The basic invariant -----

  /** What is left of the list a sweep works through. */
  function Todo(cleaner: Cleaner): seq<Listed> {
    if cleaner.Sweeping? || cleaner.Deleting? then cleaner.todo else []
  }

  predicate Fresh(pc: Pc) {
    pc.Booting? || pc.Addressed?
  }

  predicate ItemOk(s: State, item: Listed) {
    item.id in s.usedEps && item.ep.vm in s.usedVms && (item.id in s.t.eps ==> s.t.eps[item.id].vm == item.ep.vm)
  }

  predicate SweepOk(s: State) {
    var todo := Todo(s.cleaner);
    && (forall i | 0 <= i < |todo| :: ItemOk(s, todo[i]))
    && (forall i, j | 0 <= i < j < |todo| :: todo[i].id != todo[j].id)
    && (s.cleaner.Deleting? ==>
          ItemOk(s, s.cleaner.item) && forall i | 0 <= i < |todo| :: todo[i].id != s.cleaner.item.id)
  }

  ghost predicate Inv(s: State) {
    && SchemaOk(s.t)
    && s.t.vms.Keys <= s.usedVms && s.t.eps.Keys <= s.usedEps
    && (forall c | c in s.creators && Target(s.creators[c]).Some? :: Target(s.creators[c]).value in s.usedVms)
    && (forall c | c in s.creators && Fresh(s.creators[c]) ::
          s.creators[c].vm in s.t.vms ==> s.t.vms[s.creators[c].vm].status == Provisioning)
    && (forall c, d | c in s.creators && d in s.creators && c != d && Fresh(s.creators[c]) ::
          Target(s.creators[d]) != Some(s.creators[c].vm))
    && SweepOk(s)
  }

  predicate IsCleaning(step: Step) {
    step.ListIdle? || step.Decrement? || step.DeleteRow? || step.DeleteRowFails? || step.ListIdleVms? ||
    step.ReapVm? || step.ReapVmFails? || step.Rest?
  }

  predicate IsAmbient(step: Step) {
    step.NewConversation? || step.DropConversation? || step.Touch? || step.Stamp? || step.Reconcile?
  }

  /** Creator steps that change no table. */
  predicate OnlyMoves(step: Step) {
    step.Begin? || step.Pick? || step.PickNone? || step.PingOk? || step.VmReady? || step.ChoosePort? ||
    step.AgentStarts? || step.InsertFails? || step.InsertGivesUp? || step.CreateVmFails? || step.IncrementFails? ||
    step.GiveUp?
  }

  lemma GotoKeepsInv(s: State, c: ConvId, pc: Pc, failed: nat)
    requires Inv(s) && !Fresh(pc) && (Target(pc).Some? ==> Target(pc).value in s.usedVms)
    requires forall d | d in s.creators && d != c && Fresh(s.creators[d]) :: Target(pc) != Some(s.creators[d].vm)
    ensures Inv(Goto(s, c, pc).(failed := failed))
  {
  }

  lemma LeaveKeepsInv(s: State, c: ConvId, failed: nat)
    requires Inv(s)
    ensures Inv(Leave(s, c).(failed := failed))
  {
  }

  lemma MoveKeepsInv(cfg: Config, s: State, step: Step)
    requires Inv(s) && Enabled(cfg, s, step) && OnlyMoves(step)
    ensures Inv(Apply(cfg, s, step))
  {
    var n := Apply(cfg, s, step);
    if step.c !in n.creators {
      LeaveKeepsInv(s, step.c, n.failed);
    } else {
      GotoKeepsInv(s, step.c, n.creators[step.c], n.failed);
    }
  }

  lemma InsertKeepsInv(cfg: Config, s: State, step: Step)
    requires Inv(s) && Enabled(cfg, s, step) && step.Insert?
    ensures Inv(Apply(cfg, s, step))
  {
  }

  lemma CreateVmKeepsInv(cfg: Config, s: State, step: Step)
    requires Inv(s) && Enabled(cfg, s, step) && step.CreateVm?
    ensures Inv(Apply(cfg, s, step))
  {
  }

  lemma VmUpdateKeepsInv(cfg: Config, s: State, step: Step)
    requires Inv(s) && Enabled(cfg, s, step) && !OnlyMoves(step) && !IsCleaning(step) && !IsAmbient(step)
    requires !step.Insert? && !step.CreateVm?
    ensures Inv(Apply(cfg, s, step))
  {
  }

  lemma ListKeepsInv(s: State, listing: seq<Listed>, before: int)
    requires Inv(s) && ListsIdle(s.t, listing, before)
    ensures Inv(s.(cleaner := Sweeping(listing)))
  {
  }

  lemma DecrementKeepsInv(s: State, ok: bool, now: int)
    requires Inv(s) && s.cleaner.Sweeping? && s.cleaner.todo != []
    ensures var todo := s.cleaner.todo;
            Inv(s.(t := if ok then DecrementActive(s.t, todo[0].ep.vm, now) else s.t,
                   cleaner := Deleting(todo[0], todo[1..]),
                   failed := s.failed + Failing(ok)))
  {
    var todo := s.cleaner.todo;
    assert Todo(s.cleaner) == todo && ItemOk(s, todo[0]);
    forall i | 0 <= i < |todo[1..]| ensures ItemOk(s, todo[1..][i]) && todo[1..][i].id != todo[0].id {
      assert todo[1..][i] == todo[i + 1];
    }
    forall i, j | 0 <= i < j < |todo[1..]| ensures todo[1..][i].id != todo[1..][j].id {
      assert todo[1..][i] == todo[i + 1] && todo[1..][j] == todo[j + 1];
    }
  }

  lemma DeleteRowKeepsInv(s: State)
    requires Inv(s) && s.cleaner.Deleting?
    ensures Inv(s.(t := DeleteEndpoint(s.t, s.cleaner.item.id), cleaner := Sweeping(s.cleaner.todo)))
  {
    var n := s.(t := DeleteEndpoint(s.t, s.cleaner.item.id), cleaner := Sweeping(s.cleaner.todo));
    var todo := Todo(s.cleaner);
    assert Todo(n.cleaner) == todo;
    assert forall i | 0 <= i < |todo| :: ItemOk(s, todo[i]);
  }

  lemma ReapKeepsInv(cfg: Config, s: State, step: Step)
    requires Inv(s) && Enabled(cfg, s, step) && IsCleaning(step) && !step.ListIdle? && !step.Decrement? &&
             !step.DeleteRow?
    ensures Inv(Apply(cfg, s, step))
  {
    assert Todo(Apply(cfg, s, step).cleaner) == [];
  }

  lemma CleanerKeepsInv(cfg: Config, s: State, step: Step)
    requires Inv(s) && Enabled(cfg, s, step) && IsCleaning(step)
    ensures Inv(Apply(cfg, s, step))
  {
    if step.ListIdle? {
      ListKeepsInv(s, step.listing, step.now - cfg.idleTimeout);
    } else if step.Decrement? {
      DecrementKeepsInv(s, step.ok, step.now);
    } else if step.DeleteRow? {
      DeleteRowKeepsInv(s);
    } else {
      ReapKeepsInv(cfg, s, step);
    }
  }

  lemma DropKeepsInv(s: State, c: ConvId)
    requires Inv(s)
    ensures Inv(s.(t := DeleteConversation(s.t, c)))
  {
  }

  lemma AmbientKeepsInv(cfg: Config, s: State, step: Step)
    requires Inv(s) && Enabled(cfg, s, step) && IsAmbient(step)
    ensures Inv(Apply(cfg, s, step))
  {
    if step.DropConversation? {
      DropKeepsInv(s, step.c);
    } else {
      assert Apply(cfg, s, step).t.eps.Keys == s.t.eps.Keys;
    }
  }

  lemma StepKeepsInv(cfg: Config, s: State, step: Step)
    requires Inv(s) && Enabled(cfg, s, step)
    ensures Inv(Apply(cfg, s, step))
  {
    if IsCleaning(step) {
      CleanerKeepsInv(cfg, s, step);
    } else if IsAmbient(step) {
      AmbientKeepsInv(cfg, s, step);
    } else if OnlyMoves(step) {
      MoveKeepsInv(cfg, s, step);
    } else if step.Insert? {
      InsertKeepsInv(cfg, s, step);
    } else if step.CreateVm? {
      CreateVmKeepsInv(cfg, s, step);
    } else {
      VmUpdateKeepsInv(cfg, s, step);
    }
  }

  lemma {:induction false} RunKeepsInv(cfg: Config, s: State, steps: seq<Step>)
    requires Inv(s) && IsRun(cfg, s, steps)
    ensures Inv(After(cfg, s, steps))
  {
    if steps != [] {
      RunKeepsInv(cfg, s, steps[..|steps| - 1]);
      StepKeepsInv(cfg, After(cfg, s, steps[..|steps| - 1]), steps[|steps| - 1]);
    }
  }

  // ----- What a step does to one VM row -----

  predicate By(s: State, c: ConvId, v: VmId) {
    c in s.creators && Target(s.creators[c]) == Some(v)
  }

  function RowAfter(s: State, step: Step, v: VmId): Vm
    requires v in s.t.vms
  {
    var row := s.t.vms[v];
    match step
    case Demote(c, _, ok) => if ok && By(s, c, v) then row.(status := Unhealthy) else row
    case WriteIp(c, ip, ok) => if ok && By(s, c, v) then row.(ip := ip) else row
    case WriteRunning(c, ok) => if ok && By(s, c, v) then row.(status := Running) else row
    case Increment(c) => if By(s, c, v) then row.(active := row.active + 1, idleSince := None) else row
    case Decrement(ok, now) =>
      if ok && s.cleaner.Sweeping? && s.cleaner.todo != [] && s.cleaner.todo[0].ep.vm == v
      then DecrementActive(s.t, v, now).vms[v] else row
    case Stamp(w, since, ok) => if ok && w == v then row.(zeroSince := since) else row
    case _ => row
  }

  lemma MoveKeepsTables(cfg: Config, s: State, step: Step)
    requires Enabled(cfg, s, step) && OnlyMoves(step)
    ensures Apply(cfg, s, step).t == s.t && Apply(cfg, s, step).usedVms == s.usedVms
  {
  }

  lemma CreatorRowChange(cfg: Config, s: State, step: Step, v: VmId)
    requires Inv(s) && Enabled(cfg, s, step) && !IsCleaning(step) && !IsAmbient(step) && v in s.t.vms
    ensures v in Apply(cfg, s, step).t.vms && Apply(cfg, s, step).t.vms[v] == RowAfter(s, step, v)
  {
    if OnlyMoves(step) {
      MoveKeepsTables(cfg, s, step);
    }
  }

  lemma CleanerRowChange(cfg: Config, s: State, step: Step, v: VmId)
    requires Enabled(cfg, s, step) && IsCleaning(step) && v in s.t.vms && v in Apply(cfg, s, step).t.vms
    ensures Apply(cfg, s, step).t.vms[v] == RowAfter(s, step, v)
  {
  }

  lemma AmbientRowChange(cfg: Config, s: State, step: Step, v: VmId)
    requires Enabled(cfg, s, step) && IsAmbient(step) && v in s.t.vms && v in Apply(cfg, s, step).t.vms
    ensures Apply(cfg, s, step).t.vms[v] == RowAfter(s, step, v)
  {
  }

  /** The row of a VM that stays changes as RowAfter says. */
  lemma RowChange(cfg: Config, s: State, step: Step, v: VmId)
    requires Inv(s) && Enabled(cfg, s, step) && v in s.t.vms && v in Apply(cfg, s, step).t.vms
    ensures Apply(cfg, s, step).t.vms[v] == RowAfter(s, step, v)
  {
    if IsCleaning(step) {
      CleanerRowChange(cfg, s, step, v);
    } else if IsAmbient(step) {
      AmbientRowChange(cfg, s, step, v);
    } else {
      CreatorRowChange(cfg, s, step, v);
    }
  }

  /** Four kinds of step change endpoint rows; only one adds any. */
  lemma EpsChange(cfg: Config, s: State, step: Step)
    requires Enabled(cfg, s, step)
    ensures !step.Insert? && !step.DeleteRow? && !step.DropConversation? && !step.Touch? ==>
              Apply(cfg, s, step).t.eps == s.t.eps
  {
  }

  lemma CleanerAddsNoVm(cfg: Config, s: State, step: Step, v: VmId)
    requires Enabled(cfg, s, step) && IsCleaning(step)
    ensures v in Apply(cfg, s, step).t.vms ==> v in s.t.vms
    ensures Apply(cfg, s, step).usedVms == s.usedVms
  {
  }

  lemma AmbientAddsNoVm(cfg: Config, s: State, step: Step, v: VmId)
    requires Enabled(cfg, s, step) && IsAmbient(step)
    ensures v in Apply(cfg, s, step).t.vms ==> v in s.t.vms
    ensures Apply(cfg, s, step).usedVms == s.usedVms
  {
  }

  lemma CreatorAddsNoVm(cfg: Config, s: State, step: Step, v: VmId)
    requires Enabled(cfg, s, step) && !IsCleaning(step) && !IsAmbient(step) && !OnlyMoves(step) && !step.CreateVm?
    ensures v in Apply(cfg, s, step).t.vms ==> v in s.t.vms
    ensures Apply(cfg, s, step).usedVms == s.usedVms
  {
  }

  /** A row is new only by CreateVMInstance, which leaves the columns at their defaults. */
  lemma NewRow(cfg: Config, s: State, step: Step, v: VmId)
    requires Enabled(cfg, s, step) && v !in s.t.vms && v in Apply(cfg, s, step).t.vms
    ensures step.CreateVm? && step.newVm == v
    ensures Apply(cfg, s, step).t.vms[v] == Vm(step.name, step.ip, Provisioning, 0, None, None)
  {
    if IsCleaning(step) {
      CleanerAddsNoVm(cfg, s, step, v);
    } else if IsAmbient(step) {
      AmbientAddsNoVm(cfg, s, step, v);
    } else if OnlyMoves(step) {
      MoveKeepsTables(cfg, s, step);
    } else if !step.CreateVm? {
      CreatorAddsNoVm(cfg, s, step, v);
    }
  }

  /** A VM id is never used twice, so a VM present at both ends of a step was there all the time. */
  lemma VmNeverReturns(cfg: Config, s: State, step: Step, v: VmId)
    requires Enabled(cfg, s, step) && v in s.usedVms
    ensures v in Apply(cfg, s, step).t.vms ==> v in s.t.vms
    ensures v in Apply(cfg, s, step).usedVms
  {
    if IsCleaning(step) {
      CleanerAddsNoVm(cfg, s, step, v);
    } else if IsAmbient(step) {
      AmbientAddsNoVm(cfg, s, step, v);
    } else if OnlyMoves(step) {
      MoveKeepsTables(cfg, s, step);
    } else if !step.CreateVm? {
      CreatorAddsNoVm(cfg, s, step, v);
    }
  }
}
