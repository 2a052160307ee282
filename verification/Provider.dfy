/**
 The dockergce provider's session path: getOrCreateEndpoint and the methods it calls.  Each method
 returns the allocator steps it took, and is proved to be a run of Allocator that leaves the tables as
 the run says; what it does to the containers is stated beside it.
 */
module Provider {
  import opened Wrappers
  import opened Tables
  import opened Containers
  import opened Remote
  import opened Repository
  import opened Allocator

  /** One attempt of pickHealthyAvailableVM: whether a client could be built, and whether the ping was answered. */
  datatype Probe = Probe(vm: VmId, built: bool, answered: bool)

  datatype Failure =
    | CreateVmFailed | VmNotReady | PortUnknown | NoFreePort | NoClient | RunFailed | AgentNotReady
    | NotRecorded | Cancelled | IncrementFailed

  ghost predicate Shows(db: Database, s: State)
    reads db
  {
    && db.Valid() && s.t == db.View() && s.usedVms == db.usedVms && s.usedEps == db.usedEps
    && s.failed == db.failed
  }

  /** Only a creator's latest place counts. */
  lemma LastMove(creators: map<ConvId, Pc>, c: ConvId, earlier: Pc, later: Pc)
    ensures creators[c := earlier][c := later] == creators[c := later]
    ensures creators[c := earlier] - {c} == creators - {c}
  {
  }

  lemma LeftAgain(creators: map<ConvId, Pc>, c: ConvId, pc: Pc)
    requires c !in creators
    ensures creators[c := pc] - {c} == creators
  {
  }

  /** An error return: the slow path ends and no table changes. */
  lemma Quit(cfg: Config, s0: State, before: seq<Step>, s: State, c: ConvId) returns (steps: seq<Step>, u: State)
    requires Leads(cfg, s0, before, s) && Enabled(cfg, s, GiveUp(c))
    ensures Leads(cfg, s0, steps, u) && u == Leave(s, c)
  {
    steps, u := Take(cfg, s0, before, s, GiveUp(c));
  }

  /** The tables differ in nothing but VMs demoted after a failed probe. */
  ghost predicate Demoted(cfg: Config, t: Tables, u: Tables, probes: seq<Probe>) {
    && u.eps == t.eps && u.convs == t.convs && u.vms.Keys == t.vms.Keys
    && forall v | v in t.vms && u.vms[v] != t.vms[v] ::
         && Unhealthy in cfg.statuses && Available(t, v, cfg.max)
         && u.vms[v] == t.vms[v].(status := Unhealthy)
         && exists i | 0 <= i < |probes| :: probes[i].vm == v && !probes[i].answered
  }

  /** No endpoint row changed and no VM row but in its status; VMs may have been added, empty. */
  ghost predicate Undisturbed(t: Tables, u: Tables) {
    && u.eps == t.eps && u.convs == t.convs && t.vms.Keys <= u.vms.Keys
    && (forall v | v in t.vms :: u.vms[v] == t.vms[v].(status := u.vms[v].status))
    && forall v | v in u.vms && v !in t.vms :: u.vms[v].active == 0
  }

  /** Nothing changed but address and status of one VM row. */
  ghost predicate OnlyBoots(t: Tables, u: Tables, v: VmId) {
    && u.eps == t.eps && u.convs == t.convs && u.vms.Keys == t.vms.Keys
    && (forall w | w in t.vms && w != v :: u.vms[w] == t.vms[w])
    && (v in t.vms ==> u.vms[v] == t.vms[v].(ip := u.vms[v].ip, status := u.vms[v].status))
  }

  /** Every client built in between was for this address. */
  ghost predicate DialedOnly(before: seq<string>, after: seq<string>, address: string) {
    before <= after && forall i | |before| <= i < |after| :: after[i] == address
  }

  ghost predicate LastDialed(dialed: seq<string>, address: string) {
    dialed != [] && dialed[|dialed| - 1] == address
  }

  /** The VM a session is to be placed on: the fullest with room, or a new one if none has room. */
  ghost predicate RightVm(t: Tables, v: VmId, maxContainers: int) {
    if exists w :: w in t.vms && Available(t, w, maxContainers) then Fullest(t, v, maxContainers) else v !in t.vms
  }

  predicate NoneAvailable(t: Tables, maxContainers: int) {
    forall v | v in t.vms :: !Available(t, v, maxContainers)
  }

  /** The probes made so far, none answered: each VM was available when the call began; a later attempt is
      made on a VM that was pinged in vain only if the earlier one was marked, so pinged VMs never repeat. */
  ghost predicate Tried(cfg: Config, t: Tables, u: Tables, probes: seq<Probe>) {
    && Demoted(cfg, t, u, probes)
    && (forall i | 0 <= i < |probes| :: Available(t, probes[i].vm, cfg.max) && !probes[i].answered)
    && (forall i, j | 0 <= i < j < |probes| && probes[i].built ::
          Unhealthy in cfg.statuses && probes[i].vm != probes[j].vm)
  }

  /** And every VM pinged in vain is out of the candidates. */
  ghost predicate Excluded(cfg: Config, u: Tables, probes: seq<Probe>) {
    forall i | 0 <= i < |probes| && probes[i].built ::
      Unhealthy in cfg.statuses && !Available(u, probes[i].vm, cfg.max)
  }

  /** The state of the pick after `attempt` probes, none answered. */
  ghost predicate Exhausted(cfg: Config, s: State, u: State, c: ConvId, probes: seq<Probe>, attempt: nat) {
    && u.creators == s.creators[c := if attempt < PICK_ATTEMPTS then Picking(attempt) else Creating]
    && |probes| == attempt && Tried(cfg, s.t, u.t, probes) && Excluded(cfg, u.t, probes)
  }

  lemma TriedOneMore(cfg: Config, t: Tables, u: Tables, probes: seq<Probe>, probe: Probe, marked: bool)
    requires Tried(cfg, t, u, probes) && Excluded(cfg, u, probes)
    requires Available(u, probe.vm, cfg.max) && !probe.answered
    requires marked ==> Unhealthy in cfg.statuses
    ensures var n := if marked then SetVmStatus(u, probe.vm, Unhealthy) else u;
            && Tried(cfg, t, n, probes + [probe])
            && (marked || !probe.built ==> Excluded(cfg, n, probes + [probe]))
  {
    var more := probes + [probe];
    assert more[|probes|] == probe;
    assert forall i | 0 <= i < |probes| :: more[i] == probes[i];
  }

  /** The VM picked was running, with room, the fullest such VM at that read, and answered its ping; it was
      available, and not pinged, before. */
  ghost predicate Picked(cfg: Config, t: Tables, u: Tables, probes: seq<Probe>, vm: VmId) {
    && Fullest(u, vm, cfg.max) && Available(t, vm, cfg.max)
    && probes != [] && probes[|probes| - 1] == Probe(vm, true, true)
    && Tried(cfg, t, u, probes[..|probes| - 1])
    && forall i | 0 <= i < |probes| - 1 && probes[i].built :: probes[i].vm != vm
  }

  lemma PickedLast(cfg: Config, t: Tables, u: Tables, probes: seq<Probe>, vm: VmId)
    requires Tried(cfg, t, u, probes) && Excluded(cfg, u, probes) && Fullest(u, vm, cfg.max)
    ensures Picked(cfg, t, u, probes + [Probe(vm, true, true)], vm)
  {
    assert (probes + [Probe(vm, true, true)])[..|probes|] == probes;
  }

  /** Under the shipped constraint a pick changes no row, and its first ping is its last. */
  lemma ShippedPickPingsOnce(cfg: Config, t: Tables, u: Tables, probes: seq<Probe>)
    requires Unhealthy !in cfg.statuses && Tried(cfg, t, u, probes)
    ensures u == t
    ensures forall i | 0 <= i < |probes| && probes[i].built :: i == |probes| - 1
  {
    assert u.vms == t.vms;
    forall i | 0 <= i < |probes| && probes[i].built ensures i == |probes| - 1 {
      var last := probes[|probes| - 1];
    }
  }

  /** At most the container under `key`, which was not there before, is new. */
  ghost predicate OnlyAdds(before: map<Key, Container>, after: map<Key, Container>,
                           key: Key) {
    && key !in before && key in after
    && after - {key} == before
  }

  /** The container under `key` is gone, or was not removed; no other container changed. */
  ghost predicate Discarded(before: map<Key, Container>, after: map<Key, Container>, key: Key, leaked: bool) {
    if leaked then after.Keys == before.Keys && after - {key} == before - {key} else after == before - {key}
  }

  /** The log grew by n entries, all equal to x. */
  ghost predicate GrewBy<T>(before: seq<T>, after: seq<T>, n: nat, x: T) {
    before <= after && |after| == |before| + n && forall i | |before| <= i < |after| :: after[i] == x
  }

  /** Every attempt so far started its container and failed to insert its row. */
  ghost predicate AllRetried(runs0: seq<RunOutcome>, runs: seq<RunOutcome>, inserts0: seq<bool>, inserts: seq<bool>,
                             attempts: nat)
  {
    GrewBy(runs0, runs, attempts, Started) && GrewBy(inserts0, inserts, attempts, false)
  }

  /** Every attempt but the last did, and the last one asked for at most one more container. */
  ghost predicate Retried(runs0: seq<RunOutcome>, runs: seq<RunOutcome>, inserts0: seq<bool>, inserts: seq<bool>,
                          attempts: nat)
  {
    && attempts >= 1 && |inserts| >= |inserts0| + attempts - 1
    && |runs0| + attempts - 1 <= |runs| <= |runs0| + attempts
    && AllRetried(runs0, runs[..|runs0| + attempts - 1], inserts0, inserts[..|inserts0| + attempts - 1], attempts - 1)
  }

  lemma OneMoreRetried(runs0: seq<RunOutcome>, runs: seq<RunOutcome>, inserts0: seq<bool>, inserts: seq<bool>,
                       attempts: nat)
    requires AllRetried(runs0, runs, inserts0, inserts, attempts)
    ensures AllRetried(runs0, runs + [Started], inserts0, inserts + [false], attempts + 1)
  {
  }

  lemma LastAttempt(runs0: seq<RunOutcome>, runs: seq<RunOutcome>, more: seq<RunOutcome>,
                    inserts0: seq<bool>, inserts: seq<bool>, longer: seq<bool>, attempts: nat)
    requires AllRetried(runs0, runs, inserts0, inserts, attempts) && inserts <= longer
    requires more == runs || exists run :: more == runs + [run]
    ensures Retried(runs0, more, inserts0, longer, attempts + 1)
    ensures |more| > |runs| <==> |more| == |runs0| + attempts + 1
  {
    assert more[..|runs|] == runs && longer[..|inserts|] == inserts;
  }

  /** An attempt without a success: at most the container under `key` is new, and only if it leaked. */
  ghost predicate LeftBehind(before: map<Key, Container>, after: map<Key, Container>, key: Key, leaked: bool) {
    if leaked then OnlyAdds(before, after, key) else after == before
  }

  lemma LeftBehindOnce(first: map<Key, Container>, middle: map<Key, Container>, last: map<Key, Container>,
                       key: Key, leaked: bool, left: bool)
    requires LeftBehind(first, middle, key, leaked) && LeftBehind(middle, last, key, left)
    ensures LeftBehind(first, last, key, leaked || left) && !(leaked && left)
  {
  }

  /** Exactly one row is new: this conversation's, running, on VM v. */
  ghost predicate Recorded(t: Tables, u: Tables, e: EpId, c: ConvId, v: VmId, name: string) {
    && e !in t.eps && e in u.eps && u.convs == t.convs
    && u.eps == t.eps[e := u.eps[e]]
    && u.eps[e].conv == c && u.eps[e].vm == v && u.eps[e].container == name && u.eps[e].status == EpRunning
    && CanInsertEndpoint(t, c, v, u.eps[e].port)
  }

  /** The container is counted once, on v, and no other VM row changes. */
  ghost predicate CountedOn(t: Tables, u: Tables, v: VmId) {
    v in t.vms && u.vms == t.vms[v := t.vms[v].(active := t.vms[v].active + 1, idleSince := None)]
  }

  /** Exactly one container is new: the one under `key`, started, on that host port. */
  ghost predicate Hosts(before: map<Key, Container>, after: map<Key, Container>,
                        key: Key, port: int) {
    key !in before && after == before[key := Container(port, true)]
  }

  /** How far the counter of a VM is above its endpoint rows. */
  function Surplus(t: Tables, v: VmId): int
    requires v in t.vms
  {
    t.vms[v].active - |EndpointsOn(t, v)|
  }

  ghost predicate SameSurplus(t: Tables, u: Tables) {
    forall v | v in u.vms :: Surplus(u, v) == if v in t.vms then Surplus(t, v) else 0
  }

  lemma UndisturbedSurplus(t: Tables, m: Tables)
    requires SchemaOk(t) && Undisturbed(t, m)
    ensures SameSurplus(t, m)
  {
    forall v | v in m.vms ensures Surplus(m, v) == if v in t.vms then Surplus(t, v) else 0 {
      assert EndpointsOn(m, v) == EndpointsOn(t, v);
      if v !in t.vms {
        assert EndpointsOn(t, v) == {};
      }
    }
  }

  lemma PlacedSurplus(m: Tables, u: Tables, e: EpId, c: ConvId, v: VmId, name: string)
    requires Recorded(m, u, e, c, v, name) && CountedOn(m, u, v)
    ensures SameSurplus(m, u)
  {
    forall w | w in u.vms ensures w in m.vms && Surplus(u, w) == Surplus(m, w) {
      if w == v {
        assert EndpointsOn(u, w) == EndpointsOn(m, w) + {e};
      } else {
        assert EndpointsOn(u, w) == EndpointsOn(m, w);
      }
    }
  }

  datatype Placement = Placed(ep: EpId) | Again | Failed(error: Failure)

  datatype Attempt = NoCandidate | Answered | Unanswered | Abandoned

  class GceProvider {
    const cfg: Config
    const prefix: string
    const db: Database
    const fleet: Fleet
    const net: Net
    const gce: Gce
    const clock: Clock

    constructor (cfg: Config, prefix: string, db: Database, fleet: Fleet, net: Net, gce: Gce, clock: Clock)
      requires cfg.statuses == db.statuses
      ensures this.cfg == cfg && this.prefix == prefix && this.db == db && this.fleet == fleet
      ensures this.net == net && this.gce == gce && this.clock == clock
    {
      this.cfg, this.prefix, this.db, this.fleet := cfg, prefix, db, fleet;
      this.net, this.gce, this.clock := net, gce, clock;
    }

    function ContainerName(c: ConvId): string {
      prefix + "-" + c
    }

    /** Everything that has gone wrong so far: writes, container calls, instance deletes, reads, other calls. */
    ghost function Faults(): nat
      reads db`failed, fleet`failed, net`faults, gce`refused
    {
      db.failed + fleet.failed + net.faults + gce.refused
    }

    /** Failures are only added to. */
    twostate predicate Forward()
      reads db`failed, fleet`failed, net`faults, gce`refused
    {
      && db.failed >= old(db.failed) && fleet.failed >= old(fleet.failed)
      && net.faults >= old(net.faults) && gce.refused >= old(gce.refused)
    }

    /** One attempt on one VM: build a client, ping, and mark the VM unhealthy if either fails. */
    method ProbeVm(c: ConvId, v: VmId, ghost s0: State, ghost before: seq<Step>, ghost s: State)
      returns (result: Attempt, probe: Probe, ghost marked: bool, ghost steps: seq<Step>, ghost u: State)
      requires Shows(db, s) && Leads(cfg, s0, before, s) && cfg.statuses == db.statuses
      requires c in s.creators && s.creators[c].Pinging? && s.creators[c].vm == v && v in s.t.vms
      modifies db`vms, db`failed, net
      ensures Shows(db, u) && Leads(cfg, s0, steps, u)
      ensures net.faults == old(net.faults) + if probe.answered then 0 else 1
      ensures net.dialed == old(net.dialed) + [s.t.vms[v].ip]
      ensures net.calls == old(net.calls) + if probe.built then [true, probe.answered] else [false]
      ensures db.failed == old(db.failed) + if probe.answered || marked then 0 else 1
      ensures !result.NoCandidate? && probe.vm == v && (probe.answered <==> result.Answered?) && (probe.answered ==> probe.built)
      ensures marked ==> Unhealthy in cfg.statuses && !probe.answered
      ensures u.t == if marked then SetVmStatus(s.t, v, Unhealthy) else s.t
      ensures result.Abandoned? <==> probe.built && !probe.answered && !marked
      ensures u.creators == s.creators[c := if result.Answered? then Ready(v, 0)
                                            else if result.Abandoned? then Creating
                                            else NextPick(s.creators[c].attempt)]
    {
      var built := net.Dial(db.vms[v].ip);
      var ready := false;
      if built {
        ready := net.Call();
      }
      probe, marked := Probe(v, built, ready), false;
      if ready {
        steps, u := Take(cfg, s0, before, s, PingOk(c));
        return Answered, probe, marked, steps, u;
      }
      var ok := db.UpdateVMInstanceStatus(v, Unhealthy);
      marked := ok;
      steps, u := Take(cfg, s0, before, s, Demote(c, built, ok));
      result := if built && !ok then Abandoned else Unanswered;
    }

    method TryFullest(c: ConvId, ghost s0: State, ghost before: seq<Step>, ghost s: State)
      returns (result: Attempt, probe: Probe, ghost marked: bool, ghost steps: seq<Step>, ghost u: State)
      requires Shows(db, s) && Leads(cfg, s0, before, s) && cfg.statuses == db.statuses
      requires c in s.creators && s.creators[c].Picking?
      modifies db`vms, db`failed, net
      ensures Shows(db, u) && Leads(cfg, s0, steps, u) && Forward()
      ensures result.NoCandidate? ==>
                && u == Goto(s, c, Creating)
                && (net.faults > old(net.faults) || NoneAvailable(s.t, cfg.max))
      ensures !result.NoCandidate? ==>
                && net.faults == old(net.faults) + (if probe.answered then 0 else 1)
                && Fullest(s.t, probe.vm, cfg.max)
                && (probe.answered <==> result.Answered?) && (probe.answered ==> probe.built)
                && (result.Abandoned? ==> db.failed > old(db.failed))
                && (marked ==> Unhealthy in cfg.statuses && !probe.answered)
                && u.t == (if marked then SetVmStatus(s.t, probe.vm, Unhealthy) else s.t)
                && (result.Abandoned? <==> probe.built && !probe.answered && !marked)
                && u.creators == s.creators[c := if result.Answered? then Ready(probe.vm, 0)
                                                 else if result.Abandoned? then Creating
                                                 else NextPick(s.creators[c].attempt)]
    {
      var reached := net.Call();
      var best := db.GetAvailableVMInstance(cfg.max, reached);
      if !best.Row? {
        result, probe, marked := NoCandidate, Probe(0, false, false), false;
        steps, u := Take(cfg, s0, before, s, PickNone(c));
        return;
      }
      steps, u := Take(cfg, s0, before, s, Pick(c, best.row));
      result, probe, marked, steps, u := ProbeVm(c, best.row, s0, steps, u);
      assert u.creators == s.creators[c := u.creators[c]];
    }

    /** One round of the pick, on top of the probes made so far. */
    method PickOnce(c: ConvId, sofar: seq<Probe>, attempt: nat, ghost s0: State, ghost s: State,
                    ghost before: seq<Step>, ghost m: State)
      returns (result: Attempt, vm: VmId, probes: seq<Probe>, ghost steps: seq<Step>, ghost u: State)
      requires Shows(db, m) && Leads(cfg, s0, before, m) && cfg.statuses == db.statuses
      requires c in s.creators && attempt < PICK_ATTEMPTS && Exhausted(cfg, s, m, c, sofar, attempt)
      modifies db`vms, db`failed, net
      ensures Shows(db, u) && Leads(cfg, s0, steps, u) && |probes| <= attempt + 1 && Forward()
      ensures result.Answered? ==>
                Picked(cfg, s.t, u.t, probes, vm) && u.creators == s.creators[c := Ready(vm, 0)] && u.t == m.t
      ensures result.Unanswered? ==> Exhausted(cfg, s, u, c, probes, attempt + 1) && net.faults == old(net.faults) + 1
      ensures result.NoCandidate? || result.Abandoned? ==>
                && Tried(cfg, s.t, u.t, probes) && u.creators == s.creators[c := Creating]
      ensures result.NoCandidate? ==>
                u.t == m.t && |probes| == attempt && (net.faults > old(net.faults) || NoneAvailable(u.t, cfg.max))
      ensures result.Abandoned? ==> probes != [] && probes[|probes| - 1].built && db.failed > old(db.failed)
    {
      var probe;
      ghost var marked;
      result, probe, marked, steps, u := TryFullest(c, s0, before, m);
      LastMove(s.creators, c, Picking(attempt), u.creators[c]);
      probes, vm := sofar, probe.vm;
      if result.NoCandidate? {
        return;
      }
      probes := sofar + [probe];
      if result.Answered? {
        PickedLast(cfg, s.t, u.t, sofar, probe.vm);
      } else {
        TriedOneMore(cfg, s.t, m.t, sofar, probe, marked);
      }
    }

    /** Unless something fails, a VM is picked exactly when one has room.  It is given up only after five probes, when
        no VM with room is left, when a read fails, or when a VM that was pinged in vain could not be marked. */
    method PickHealthyAvailableVM(c: ConvId, ghost s0: State, ghost before: seq<Step>, ghost s: State)
      returns (vm: Option<VmId>, probes: seq<Probe>, ghost steps: seq<Step>, ghost u: State)
      requires Shows(db, s) && Leads(cfg, s0, before, s) && cfg.statuses == db.statuses
      requires c in s.creators && s.creators[c] == Picking(0)
      modifies db`vms, db`failed, net
      ensures Shows(db, u) && Leads(cfg, s0, steps, u) && |probes| <= PICK_ATTEMPTS && Forward()
      ensures vm.Some? ==> Picked(cfg, s.t, u.t, probes, vm.value) && u.creators == s.creators[c := Ready(vm.value, 0)]
      ensures vm.Some? && Faults() == old(Faults()) ==> u.t == s.t
      ensures vm.None? ==> Tried(cfg, s.t, u.t, probes) && u.creators == s.creators[c := Creating]
      ensures vm.None? ==> Faults() > old(Faults()) || NoneAvailable(s.t, cfg.max)
      ensures vm.None? ==>
                || |probes| == 5 || NoneAvailable(u.t, cfg.max) || net.faults > old(net.faults) + |probes|
                || (probes != [] && probes[|probes| - 1].built && db.failed > old(db.failed))
    {
      probes, steps, u := [], before, s;
      for attempt := 0 to PICK_ATTEMPTS
        invariant Shows(db, u) && Leads(cfg, s0, steps, u) && Exhausted(cfg, s, u, c, probes, attempt)
        invariant net.faults == old(net.faults) + attempt && (attempt == 0 ==> u == s && Faults() == old(Faults()))
        invariant Forward()
      {
        var result, picked;
        result, picked, probes, steps, u := PickOnce(c, probes, attempt, s0, s, steps, u);
        if !result.Unanswered? {
          return if result.Answered? then Some(picked) else None, probes, steps, u;
        }
      }
      vm := None;
    }

    /** One new row, as GCE reports the new instance. */
    method CreateGceVm(c: ConvId, ghost s0: State, ghost before: seq<Step>, ghost s: State)
      returns (vm: Option<VmId>, name: string, ghost steps: seq<Step>, ghost u: State)
      requires Shows(db, s) && Leads(cfg, s0, before, s)
      requires c in s.creators && s.creators[c] == Creating
      modifies db, gce
      ensures Shows(db, u) && Leads(cfg, s0, steps, u) && Forward()
      ensures gce.asked == old(gce.asked) && gce.reports == old(gce.reports)
      ensures vm.Some? ==>
                && vm.value !in s.usedVms && u.creators == s.creators[c := Booting(vm.value)]
                && gce.created != [] && var inst := gce.created[|gce.created| - 1];
                && name == inst.name && u.t == InsertVm(s.t, vm.value, inst.name, inst.ip)
      ensures vm.None? ==> u.t == s.t && u.creators == s.creators - {c} && Faults() > old(Faults())
    {
      var inst := gce.CreateInstance();
      if inst.None? {
        steps, u := Quit(cfg, s0, before, s, c);
        return None, "", steps, u;
      }
      name := inst.value.name;
      vm := db.CreateVMInstance(name, inst.value.ip);
      if vm.None? {
        steps, u := Take(cfg, s0, before, s, CreateVmFails(c));
        return None, name, steps, u;
      }
      steps, u := Take(cfg, s0, before, s, CreateVm(c, vm.value, name, inst.value.ip));
    }

    /** Polls GCE until it reports the instance running, with an address. */
    method AwaitRunning(name: string) returns (ip: Option<string>)
      modifies gce, net
      ensures gce.asked == old(gce.asked) && gce.refused == old(gce.refused) && gce.created == old(gce.created)
      ensures ip.Some? ==> net.faults == old(net.faults) && ReportedUp(name, ip.value)
      ensures ip.None? ==> net.faults > old(net.faults)
      ensures net.dialed == old(net.dialed)
    {
      var polls := net.Polls();
      while polls > 0
        invariant gce.asked == old(gce.asked) && gce.refused == old(gce.refused) && gce.created == old(gce.created)
        invariant net.faults == old(net.faults) && net.dialed == old(net.dialed)
      {
        var inst := gce.GetInstance(name);
        if inst.Some? && inst.value.running && inst.value.ip != "" {
          return Some(inst.value.ip);
        }
        polls := polls - 1;
      }
      net.TimeOut();
      ip := None;
    }

    /** GCE's latest report is that the instance runs under this address. */
    ghost predicate ReportedUp(name: string, ip: string)
      reads gce`reports
    {
      && ip != "" && gce.reports != []
      && var report := gce.reports[|gce.reports| - 1];
         report.0 == name && report.1.running && report.1.ip == ip
    }

    /** Waits for the instance, writes its address and status, ignoring errors, and waits for its
        container-manager; if no write fails the row holds the address that GCE reported. */
    method WaitForVMReady(c: ConvId, vm: VmId, name: string, ghost s0: State, ghost before: seq<Step>, ghost s: State)
      returns (ip: Option<string>, ghost steps: seq<Step>, ghost u: State)
      requires Shows(db, s) && Leads(cfg, s0, before, s)
      requires c in s.creators && s.creators[c] == Booting(vm)
      modifies db`vms, db`failed, gce, net
      ensures Shows(db, u) && Leads(cfg, s0, steps, u) && OnlyBoots(s.t, u.t, vm)
      ensures gce.asked == old(gce.asked) && gce.created == old(gce.created)
      ensures Forward()
      ensures ip.Some? ==>
                && u.creators == s.creators[c := Ready(vm, 0)] && ReportedUp(name, ip.value)
                && net.dialed == old(net.dialed) + [ip.value]
      ensures ip.None? ==> u.creators == s.creators - {c} && Faults() > old(Faults())
      ensures ip.Some? && db.failed == old(db.failed) && vm in s.t.vms ==>
                u.t.vms[vm] == s.t.vms[vm].(ip := ip.value, status := Running)
    {
      ip := AwaitRunning(name);
      if ip.None? {
        steps, u := Quit(cfg, s0, before, s, c);
        return;
      }
      ghost var failed := db.failed;
      steps, u := WriteAddress(c, vm, ip.value, s0, before, s);
      ghost var m, midway := u, db.failed;
      var ok;
      ok, steps, u := AwaitManager(c, vm, ip.value, s0, steps, u);
      Boots(s.t, m.t, u.t, vm, ip.value, midway == failed, db.failed == midway);
      LastMove(s.creators, c, Addressed(vm), Ready(vm, 0));
      if !ok {
        ip := None;
      }
    }

    lemma Boots(t: Tables, m: Tables, u: Tables, v: VmId, ip: string, addressed: bool, marked: bool)
      requires m == (if addressed then SetVmIp(t, v, ip) else t)
      requires u == (if marked then SetVmStatus(m, v, Running) else m)
      ensures OnlyBoots(t, u, v)
      ensures addressed && marked && v in t.vms ==> u.vms[v] == t.vms[v].(ip := ip, status := Running)
    {
    }

    method WriteAddress(c: ConvId, vm: VmId, ip: string, ghost s0: State, ghost before: seq<Step>, ghost s: State)
      returns (ghost steps: seq<Step>, ghost u: State)
      requires Shows(db, s) && Leads(cfg, s0, before, s)
      requires c in s.creators && s.creators[c] == Booting(vm)
      modifies db`vms, db`failed
      ensures Shows(db, u) && Leads(cfg, s0, steps, u) && db.failed >= old(db.failed)
      ensures u.t == if db.failed == old(db.failed) then SetVmIp(s.t, vm, ip) else s.t
      ensures u.creators == s.creators[c := Addressed(vm)]
    {
      var wrote := db.UpdateVMInstanceIP(vm, ip);
      steps, u := Take(cfg, s0, before, s, WriteIp(c, ip, wrote));
    }

    method WriteReady(c: ConvId, vm: VmId, ghost s0: State, ghost before: seq<Step>, ghost s: State)
      returns (ghost steps: seq<Step>, ghost u: State)
      requires Shows(db, s) && Leads(cfg, s0, before, s)
      requires c in s.creators && s.creators[c] == Addressed(vm)
      modifies db`vms, db`failed
      ensures Shows(db, u) && Leads(cfg, s0, steps, u) && db.failed >= old(db.failed)
      ensures u.t == if db.failed == old(db.failed) then SetVmStatus(s.t, vm, Running) else s.t
      ensures u.creators == s.creators[c := Waiting(vm)]
    {
      var wrote := db.UpdateVMInstanceStatus(vm, Running);
      steps, u := Take(cfg, s0, before, s, WriteRunning(c, wrote));
    }

    /** The second half of waitForVMReady: the status write, then the wait for container-manager. */
    method AwaitManager(c: ConvId, vm: VmId, ip: string, ghost s0: State, ghost before: seq<Step>, ghost s: State)
      returns (ok: bool, ghost steps: seq<Step>, ghost u: State)
      requires Shows(db, s) && Leads(cfg, s0, before, s)
      requires c in s.creators && s.creators[c] == Addressed(vm)
      modifies db`vms, db`failed, net
      ensures Shows(db, u) && Leads(cfg, s0, steps, u)
      ensures u.t == if db.failed == old(db.failed) then SetVmStatus(s.t, vm, Running) else s.t
      ensures db.failed >= old(db.failed) && net.faults >= old(net.faults) && net.dialed == old(net.dialed) + [ip]
      ensures ok ==> u.creators == s.creators[c := Ready(vm, 0)]
      ensures !ok ==> u.creators == s.creators - {c} && net.faults > old(net.faults)
    {
      steps, u := WriteReady(c, vm, s0, before, s);
      ok := net.Dial(ip);
      if ok {
        ok := net.Call();
      }
      LastMove(s.creators, c, Waiting(vm), Ready(vm, 0));
      if ok {
        steps, u := Take(cfg, s0, steps, u, VmReady(c));
      } else {
        steps, u := Quit(cfg, s0, steps, u, c);
      }
    }

    /** One attempt of the retry loop, up to a container that answers: smallest free port, client, container,
        readiness.  `leaked` reports a container left behind: that takes one that did not start, or was not
        removed.  The clauses on `calls` and `runs` say how far the attempt got. */
    method StartAgent(c: ConvId, v: VmId, address: string, ghost s0: State, ghost before: seq<Step>, ghost s: State)
      returns (port: Result<int, Failure>, leaked: bool, ghost steps: seq<Step>, ghost u: State)
      requires Shows(db, s) && Leads(cfg, s0, before, s)
      requires c in s.creators && s.creators[c].Ready? && s.creators[c].vm == v
      modifies fleet, net
      ensures Shows(db, u) && Leads(cfg, s0, steps, u) && u.t == s.t && Forward()
      ensures port.Ok? ==>
                && u.creators == s.creators[c := AgentUp(v, s.creators[c].tries, port.value)]
                && port.value == SmallestFree(s.t, v, cfg.start, cfg.end) != 0
                && !leaked && Hosts(old(fleet.containers), fleet.containers, (v, ContainerName(c)), port.value)
                && net.calls == old(net.calls) + [true, true, true] && fleet.runs == old(fleet.runs) + [Started]
                && net.dialed == old(net.dialed) + [address]
      ensures net.dialed == old(net.dialed) || net.dialed == old(net.dialed) + [address]
      ensures port.Err? ==>
                && u.creators == s.creators - {c} && |net.calls| <= |old(net.calls)| + 3
                && port.error in {PortUnknown, NoFreePort, NoClient, RunFailed, AgentNotReady}
      ensures port == Err(NoFreePort) ==> SmallestFree(s.t, v, cfg.start, cfg.end) == 0
      ensures port.Err? && port.error != NoFreePort ==> Faults() > old(Faults())
      ensures fleet.runs == old(fleet.runs) || exists outcome :: fleet.runs == old(fleet.runs) + [outcome]
      ensures port == Err(RunFailed) <==>
                |fleet.runs| > |old(fleet.runs)| && !fleet.runs[|old(fleet.runs)|].Started?
      ensures fleet.stranded == old(fleet.stranded) + if leaked then 1 else 0
      ensures port.Err? && !leaked ==> fleet.containers == old(fleet.containers)
      ensures leaked ==> port.Err? && OnlyAdds(old(fleet.containers), fleet.containers, (v, ContainerName(c)))
    {
      leaked := false;
      var reached := net.Call();
      var found := db.GetSmallestAvailablePortOnVM(v, cfg.start, cfg.end, reached);
      if !found.Row? || found.row == 0 {
        steps, u := Quit(cfg, s0, before, s, c);
        return Err(if !found.Row? then PortUnknown else NoFreePort), leaked, steps, u;
      }
      var client := net.Dial(address);
      if !client {
        steps, u := Quit(cfg, s0, before, s, c);
        return Err(NoClient), leaked, steps, u;
      }
      steps, u := Take(cfg, s0, before, s, ChoosePort(c));
      ghost var chosen := u.creators[c];
      port, leaked, steps, u := RunAndWait(c, v, found.row, s0, steps, u);
      LastMove(s.creators, c, chosen, AgentUp(v, s.creators[c].tries, found.row));
    }

    method RunAndWait(c: ConvId, v: VmId, hostPort: int, ghost s0: State, ghost before: seq<Step>, ghost s: State)
      returns (port: Result<int, Failure>, leaked: bool, ghost steps: seq<Step>, ghost u: State)
      requires Shows(db, s) && Leads(cfg, s0, before, s)
      requires c in s.creators && s.creators[c].HasPort? && s.creators[c].vm == v && s.creators[c].port == hostPort
      modifies fleet, net
      ensures Shows(db, u) && Leads(cfg, s0, steps, u) && u.t == s.t && Forward()
      ensures port.Ok? ==>
                && port.value == hostPort && !leaked
                && u.creators == s.creators[c := AgentUp(v, s.creators[c].tries, hostPort)]
                && Hosts(old(fleet.containers), fleet.containers, (v, ContainerName(c)), hostPort)
                && net.calls == old(net.calls) + [true]
      ensures net.dialed == old(net.dialed)
      ensures port.Err? ==>
                && u.creators == s.creators - {c} && port.error in {RunFailed, AgentNotReady}
                && |net.calls| <= |old(net.calls)| + 1 && Faults() > old(Faults())
      ensures exists outcome ::
                fleet.runs == old(fleet.runs) + [outcome] && (port == Err(RunFailed) <==> !outcome.Started?)
      ensures fleet.stranded == old(fleet.stranded) + if leaked then 1 else 0
      ensures port.Err? && !leaked ==> fleet.containers == old(fleet.containers)
      ensures leaked ==> port.Err? && OnlyAdds(old(fleet.containers), fleet.containers, (v, ContainerName(c)))
    {
      var outcome := fleet.RunAgent(v, ContainerName(c), hostPort);
      if !outcome.Started? {
        steps, u := Quit(cfg, s0, before, s, c);
        return Err(RunFailed), outcome.NotStarted?, steps, u;
      }
      ghost var started := fleet.containers;
      var answers;
      answers, leaked, steps, u := AwaitAgent(c, v, s0, before, s);
      if leaked {
        assert fleet.containers.Keys == started.Keys;
      }
      return if answers then Ok(hostPort) else Err(AgentNotReady), leaked, steps, u;
    }

    /** Wait for the agent to answer; if it does not, discard its container. */
    method AwaitAgent(c: ConvId, v: VmId, ghost s0: State, ghost before: seq<Step>, ghost s: State)
      returns (answers: bool, leaked: bool, ghost steps: seq<Step>, ghost u: State)
      requires Leads(cfg, s0, before, s) && c in s.creators && s.creators[c].HasPort? && s.creators[c].vm == v
      modifies fleet, net
      ensures Leads(cfg, s0, steps, u) && net.calls == old(net.calls) + [answers] && fleet.runs == old(fleet.runs)
      ensures net.dialed == old(net.dialed)
      ensures u == s.(creators := if answers then s.creators[c := AgentUp(v, s.creators[c].tries, s.creators[c].port)]
                                  else s.creators - {c})
      ensures answers ==> fleet.containers == old(fleet.containers) && !leaked && Faults() == old(Faults())
      ensures Forward()
      ensures !answers ==> Discarded(old(fleet.containers), fleet.containers, (v, ContainerName(c)), leaked)
      ensures !answers ==> Faults() > old(Faults())
      ensures fleet.stranded == old(fleet.stranded) + if leaked then 1 else 0
    {
      answers := net.Call();
      leaked := false;
      if answers {
        steps, u := Take(cfg, s0, before, s, AgentStarts(c));
      } else {
        var removed := Discard(v, ContainerName(c));
        leaked := !removed;
        steps, u := Quit(cfg, s0, before, s, c);
      }
    }

    /** Stop, then remove, whether or not the stop succeeded; both errors are ignored by the callers. */
    method Discard(v: VmId, name: string) returns (removed: bool)
      modifies fleet
      ensures fleet.stops == old(fleet.stops) + [(v, name)] && fleet.removes == old(fleet.removes) + [(v, name)]
      ensures fleet.failed >= old(fleet.failed) + (if removed then 0 else 1) && fleet.runs == old(fleet.runs)
      ensures fleet.stranded == old(fleet.stranded) + if removed then 0 else 1
      ensures Discarded(old(fleet.containers), fleet.containers, (v, name), !removed)
    {
      var stopped := fleet.StopContainer(v, name);
      removed := fleet.RemoveContainer(v, name);
      if removed {
        assert fleet.containers.Keys == old(fleet.containers).Keys - {(v, name)};
      }
    }

    /** One whole attempt of the retry loop.  There is another one exactly when the container started and
        answered, the insert failed, attempts are left, and the wait was not cut short: the port query, the
        client, the agent's answer and the wait are the four calls.  A container that is refused or does not
        start ends the loop. */
    method TryPlace(c: ConvId, v: VmId, address: string, attempt: nat, ghost s0: State, ghost before: seq<Step>,
                    ghost s: State)
      returns (outcome: Placement, leaked: bool, ghost steps: seq<Step>, ghost u: State)
      requires Shows(db, s) && Leads(cfg, s0, before, s)
      requires c in s.creators && s.creators[c] == Ready(v, attempt) && attempt < INSERT_ATTEMPTS
      modifies db, fleet, net
      ensures Shows(db, u) && Leads(cfg, s0, steps, u) && Forward()
      ensures outcome.Again? <==>
                && attempt + 1 < INSERT_ATTEMPTS
                && fleet.runs == old(fleet.runs) + [Started] && db.inserts == old(db.inserts) + [false]
                && net.calls == old(net.calls) + [true, true, true, true]
      ensures old(db.inserts) <= db.inserts
      ensures net.dialed == old(net.dialed) || net.dialed == old(net.dialed) + [address]
      ensures outcome.Placed? ==> net.dialed == old(net.dialed) + [address]
      ensures fleet.runs == old(fleet.runs) || exists run :: fleet.runs == old(fleet.runs) + [run]
      ensures outcome == Failed(NotRecorded) ==> attempt + 1 == INSERT_ATTEMPTS
      ensures outcome == Failed(RunFailed) <==>
                |fleet.runs| > |old(fleet.runs)| && !fleet.runs[|old(fleet.runs)|].Started?
      ensures outcome.Placed? ==>
                && u.creators == s.creators[c := Inserted(v)] && u.t.vms == s.t.vms && !leaked
                && Recorded(s.t, u.t, outcome.ep, c, v, ContainerName(c))
                && Hosts(old(fleet.containers), fleet.containers, (v, ContainerName(c)), u.t.eps[outcome.ep].port)
      ensures outcome.Again? ==>
                u.t == s.t && u.creators == s.creators[c := Ready(v, attempt + 1)] && Faults() > old(Faults())
      ensures outcome.Failed? ==> u.t == s.t && u.creators == s.creators - {c} && outcome.error != IncrementFailed
      ensures outcome.Failed? ==> Faults() > old(Faults()) || NoPortLeft(s.t, v, outcome.error)
      ensures fleet.stranded == old(fleet.stranded) + if leaked then 1 else 0
      ensures !outcome.Placed? ==> LeftBehind(old(fleet.containers), fleet.containers, (v, ContainerName(c)), leaked)
    {
      var port;
      port, leaked, steps, u := StartAgent(c, v, address, s0, before, s);
      if port.Err? {
        return Failed(port.error), leaked, steps, u;
      }
      assert net.calls + [true] == old(net.calls) + [true, true, true, true];
      outcome, leaked, steps, u := Record(c, v, attempt, port.value, s0, steps, u);
      LastMove(s.creators, c, AgentUp(v, attempt, port.value), Inserted(v));
      LastMove(s.creators, c, AgentUp(v, attempt, port.value), Ready(v, attempt + 1));
      assert db.inserts[|old(db.inserts)|] == outcome.Placed?;
    }

    ghost predicate NoPortLeft(t: Tables, v: VmId, error: Failure) {
      error == NoFreePort && SmallestFree(t, v, cfg.start, cfg.end) == 0
    }

    /** Record the endpoint; if that fails, discard the container again. */
    method Record(c: ConvId, v: VmId, attempt: nat, port: int, ghost s0: State, ghost before: seq<Step>, ghost s: State)
      returns (outcome: Placement, leaked: bool, ghost steps: seq<Step>, ghost u: State)
      requires Shows(db, s) && Leads(cfg, s0, before, s)
      requires c in s.creators && s.creators[c] == AgentUp(v, attempt, port) && attempt < INSERT_ATTEMPTS
      modifies db, fleet, net
      ensures Shows(db, u) && Leads(cfg, s0, steps, u) && Forward() && fleet.runs == old(fleet.runs)
      ensures db.inserts == old(db.inserts) + [outcome.Placed?] && net.dialed == old(net.dialed)
      ensures outcome.Again? <==>
                attempt + 1 < INSERT_ATTEMPTS && !outcome.Placed? && net.calls == old(net.calls) + [true]
      ensures outcome.Placed? ==>
                && u.creators == s.creators[c := Inserted(v)] && u.t.vms == s.t.vms && !leaked
                && Recorded(s.t, u.t, outcome.ep, c, v, ContainerName(c)) && u.t.eps[outcome.ep].port == port
                && fleet.containers == old(fleet.containers)
      ensures !outcome.Placed? ==> u.t == s.t && Faults() > old(Faults())
      ensures outcome.Again? ==> u.creators == s.creators[c := Ready(v, attempt + 1)]
      ensures outcome == Failed(NotRecorded) ==> attempt + 1 == INSERT_ATTEMPTS
      ensures outcome.Failed? ==> u.creators == s.creators - {c} && outcome.error in {NotRecorded, Cancelled}
      ensures fleet.stranded == old(fleet.stranded) + if leaked then 1 else 0
      ensures !outcome.Placed? ==> Discarded(old(fleet.containers), fleet.containers, (v, ContainerName(c)), leaked)
    {
      var ep := db.CreateSessionEndpoint(c, v, ContainerName(c), port);
      if ep.Some? {
        steps, u := Take(cfg, s0, before, s, Insert(c, ep.value, ContainerName(c), db.now));
        return Placed(ep.value), false, steps, u;
      }
      var removed := Discard(v, ContainerName(c));
      outcome, steps, u := AfterFailedInsert(c, v, attempt, s0, before, s);
      assert |net.calls| > |old(net.calls)| ==> net.calls[|old(net.calls)|] == outcome.Again?;
      return outcome, !removed, steps, u;
    }

    method AfterFailedInsert(c: ConvId, v: VmId, attempt: nat, ghost s0: State, ghost before: seq<Step>, ghost s: State)
      returns (outcome: Placement, ghost steps: seq<Step>, ghost u: State)
      requires Leads(cfg, s0, before, s)
      requires c in s.creators && s.creators[c].AgentUp? && s.creators[c].vm == v && s.creators[c].tries == attempt
      requires attempt < INSERT_ATTEMPTS
      modifies net
      ensures Leads(cfg, s0, steps, u) && u == s.(creators := u.creators, failed := s.failed + 1) && !outcome.Placed?
      ensures net.faults >= old(net.faults) && net.dialed == old(net.dialed)
      ensures net.calls == old(net.calls) + if attempt + 1 < INSERT_ATTEMPTS then [outcome.Again?] else []
      ensures outcome.Again? ==> u.creators == s.creators[c := Ready(v, attempt + 1)] && attempt + 1 < INSERT_ATTEMPTS
      ensures outcome.Failed? ==> u.creators == s.creators - {c} && outcome.error in {NotRecorded, Cancelled}
      ensures outcome == Failed(NotRecorded) <==> attempt + 1 == INSERT_ATTEMPTS
    {
      if attempt == INSERT_ATTEMPTS - 1 {
        steps, u := Take(cfg, s0, before, s, InsertGivesUp(c));
        return Failed(NotRecorded), steps, u;
      }
      steps, u := Take(cfg, s0, before, s, InsertFails(c));
      var onTime := net.Call();
      if !onTime {
        steps, u := Quit(cfg, s0, steps, u, c);
        assert u.creators == s.creators - {c};
        return Failed(Cancelled), steps, u;
      }
      return Again, steps, u;
    }

    /** The retry loop: an error exit leaves no row, and leaves a container behind exactly when one did not
        start or was not removed; a success leaves exactly one of each, on equal ports; it fails only if
        something failed, or the VM has no free port; and every attempt but the last started its container
        and failed to insert its row. */
    method RetryPlace(c: ConvId, v: VmId, address: string, ghost s0: State, ghost before: seq<Step>, ghost s: State)
      returns (result: Result<EpId, Failure>, leaked: bool, attempts: nat, ghost steps: seq<Step>, ghost u: State)
      requires Shows(db, s) && Leads(cfg, s0, before, s) && c in s.creators && s.creators[c] == Ready(v, 0)
      modifies db, fleet, net
      ensures Shows(db, u) && Leads(cfg, s0, steps, u) && attempts >= 1 && Forward()
      ensures result.Ok? ==>
                && u.creators == s.creators[c := Inserted(v)] && u.t.vms == s.t.vms && !leaked
                && Recorded(s.t, u.t, result.value, c, v, ContainerName(c))
                && Hosts(old(fleet.containers), fleet.containers, (v, ContainerName(c)), u.t.eps[result.value].port)
      ensures result.Err? ==> u.t == s.t && u.creators == s.creators - {c} && result.error != IncrementFailed
      ensures result.Err? ==> Faults() > old(Faults()) || NoPortLeft(s.t, v, result.error)
      ensures fleet.stranded == old(fleet.stranded) + if leaked then 1 else 0
      ensures result.Err? ==> LeftBehind(old(fleet.containers), fleet.containers, (v, ContainerName(c)), leaked)
      ensures Retried(old(fleet.runs), fleet.runs, old(db.inserts), db.inserts, attempts)
      ensures DialedOnly(old(net.dialed), net.dialed, address) && (result.Ok? ==> LastDialed(net.dialed, address))
      ensures attempts <= 3 && (result == Err(NotRecorded) ==> attempts == 3)
      ensures result == Err(RunFailed) <==>
                |fleet.runs| == |old(fleet.runs)| + attempts && !fleet.runs[|fleet.runs| - 1].Started?
    {
      steps, u, attempts, leaked := before, s, 0, false;
      ghost var world, runs, inserts, dialed := fleet.containers, fleet.runs, db.inserts, net.dialed;
      while true
        invariant Shows(db, u) && Leads(cfg, s0, steps, u) && Forward()
        invariant attempts < INSERT_ATTEMPTS && u.t == s.t && u.creators == s.creators[c := Ready(v, attempts)]
        invariant LeftBehind(world, fleet.containers, (v, ContainerName(c)), leaked)
        invariant fleet.stranded == old(fleet.stranded) + if leaked then 1 else 0
        invariant AllRetried(runs, fleet.runs, inserts, db.inserts, attempts) && DialedOnly(dialed, net.dialed, address)
        decreases INSERT_ATTEMPTS - attempts
      {
        var outcome;
        outcome, leaked, steps, u := NextAttempt(c, v, address, attempts, leaked, world, runs, inserts, s0, steps, u);
        LastMove(s.creators, c, Ready(v, attempts), Ready(v, attempts + 1));
        LastMove(s.creators, c, Ready(v, attempts), Inserted(v));
        attempts := attempts + 1;
        match outcome {
          case Placed(ep) => return Ok(ep), leaked, attempts, steps, u;
          case Failed(error) => return Err(error), leaked, attempts, steps, u;
          case Again =>
        }
      }
    }

    /** An attempt on top of `attempts` failed ones, which began with `world`, `runs` and `inserts`. */
    method NextAttempt(c: ConvId, v: VmId, address: string, attempts: nat, left: bool,
                       ghost world: map<Key, Container>, ghost runs: seq<RunOutcome>, ghost inserts: seq<bool>,
                       ghost s0: State, ghost before: seq<Step>, ghost s: State)
      returns (outcome: Placement, leaked: bool, ghost steps: seq<Step>, ghost u: State)
      requires Shows(db, s) && Leads(cfg, s0, before, s)
      requires c in s.creators && s.creators[c] == Ready(v, attempts) && attempts < INSERT_ATTEMPTS
      requires LeftBehind(world, fleet.containers, (v, ContainerName(c)), left)
      requires AllRetried(runs, fleet.runs, inserts, db.inserts, attempts)
      modifies db, fleet, net
      ensures Shows(db, u) && Leads(cfg, s0, steps, u) && Forward()
      ensures outcome.Again? ==>
                && u.t == s.t && u.creators == s.creators[c := Ready(v, attempts + 1)]
                && attempts + 1 < INSERT_ATTEMPTS && AllRetried(runs, fleet.runs, inserts, db.inserts, attempts + 1)
      ensures !outcome.Again? ==> Retried(runs, fleet.runs, inserts, db.inserts, attempts + 1)
      ensures DialedOnly(old(net.dialed), net.dialed, address)
      ensures outcome.Placed? ==> LastDialed(net.dialed, address)
      ensures outcome == Failed(NotRecorded) ==> attempts + 1 == INSERT_ATTEMPTS
      ensures outcome == Failed(RunFailed) <==>
                |fleet.runs| == |runs| + attempts + 1 && !fleet.runs[|fleet.runs| - 1].Started?
      ensures outcome.Placed? ==>
                && u.creators == s.creators[c := Inserted(v)] && u.t.vms == s.t.vms && !leaked && !left
                && Recorded(s.t, u.t, outcome.ep, c, v, ContainerName(c))
                && Hosts(world, fleet.containers, (v, ContainerName(c)), u.t.eps[outcome.ep].port)
      ensures outcome.Failed? ==> u.t == s.t && u.creators == s.creators - {c} && outcome.error != IncrementFailed
      ensures outcome.Failed? ==> Faults() > old(Faults()) || NoPortLeft(s.t, v, outcome.error)
      ensures !outcome.Placed? ==> LeftBehind(world, fleet.containers, (v, ContainerName(c)), leaked)
      ensures fleet.stranded == old(fleet.stranded) + (if leaked then 1 else 0) - if left then 1 else 0
    {
      outcome, leaked, steps, u := TryPlace(c, v, address, attempts, s0, before, s);
      if outcome.Placed? {
        assert world == old(fleet.containers);
      } else {
        LeftBehindOnce(world, old(fleet.containers), fleet.containers, (v, ContainerName(c)), left, leaked);
        leaked := left || leaked;
      }
      if outcome.Again? {
        OneMoreRetried(runs, old(fleet.runs), inserts, old(db.inserts), attempts);
      } else {
        LastAttempt(runs, old(fleet.runs), fleet.runs, inserts, old(db.inserts), db.inserts, attempts);
      }
    }

    /** The slow path after a VM was found. */
    method PlaceAndCount(c: ConvId, v: VmId, address: string, ghost s0: State, ghost before: seq<Step>, ghost s: State)
      returns (result: Result<EpId, Failure>, leaked: bool, ghost steps: seq<Step>, ghost u: State)
      requires Shows(db, s) && Leads(cfg, s0, before, s) && c in s.creators && s.creators[c] == Ready(v, 0)
      modifies db, fleet, net
      ensures Shows(db, u) && Leads(cfg, s0, steps, u) && u.creators == s.creators - {c} && Forward()
      ensures result.Ok? ==>
                && CountedOn(s.t, u.t, v) && !leaked && Recorded(s.t, u.t, result.value, c, v, ContainerName(c))
                && Hosts(old(fleet.containers), fleet.containers, (v, ContainerName(c)), u.t.eps[result.value].port)
      ensures result.Err? ==> Faults() > old(Faults()) || NoPortLeft(s.t, v, result.error)
      ensures result.Err? && result.error != IncrementFailed ==>
                u.t == s.t && (fleet.containers == old(fleet.containers) <==> !leaked)
      ensures result == Err(IncrementFailed) ==>
                && u.t.vms == s.t.vms && !leaked
                && exists e :: Recorded(s.t, u.t, e, c, v, ContainerName(c)) &&
                               Hosts(old(fleet.containers), fleet.containers, (v, ContainerName(c)), u.t.eps[e].port)
      ensures leaked ==>
                OnlyAdds(old(fleet.containers), fleet.containers, (v, ContainerName(c)))
      ensures DialedOnly(old(net.dialed), net.dialed, address) && (result.Ok? ==> LastDialed(net.dialed, address))
      ensures fleet.stranded == old(fleet.stranded) + if leaked then 1 else 0
    {
      var attempts;
      result, leaked, attempts, steps, u := RetryPlace(c, v, address, s0, before, s);
      if result.Err? {
        return;
      }
      ghost var placed := u.t;
      var counted;
      counted, steps, u := CountIn(c, v, s0, steps, u);
      if !counted {
        assert Recorded(s.t, placed, result.value, c, v, ContainerName(c));
        result := Err(IncrementFailed);
      }
    }

    method CountIn(c: ConvId, v: VmId, ghost s0: State, ghost before: seq<Step>, ghost s: State)
      returns (counted: bool, ghost steps: seq<Step>, ghost u: State)
      requires Shows(db, s) && Leads(cfg, s0, before, s) && c in s.creators && s.creators[c] == Inserted(v)
      modifies db`vms, db`failed
      ensures Shows(db, u) && Leads(cfg, s0, steps, u) && u.creators == s.creators - {c}
      ensures u.t == (if counted then IncrementActive(s.t, v) else s.t)
      ensures db.failed == old(db.failed) + if counted then 0 else 1
    {
      counted := db.IncrementVMActiveContainers(v);
      if counted {
        steps, u := Take(cfg, s0, before, s, Increment(c));
      } else {
        steps, u := Take(cfg, s0, before, s, IncrementFails(c));
      }
    }

    /** A new VM, empty; if no write fails its row is as GCE reported the instance, running. */
    method NewVm(c: ConvId, ghost s0: State, ghost before: seq<Step>, ghost s: State)
      returns (vm: Result<VmId, Failure>, address: string, ghost steps: seq<Step>, ghost u: State)
      requires Shows(db, s) && Leads(cfg, s0, before, s) && c in s.creators && s.creators[c] == Creating
      modifies db, net, gce
      ensures Shows(db, u) && Leads(cfg, s0, steps, u) && Undisturbed(s.t, u.t) && Forward()
      ensures vm.Ok? ==>
                && u.creators == s.creators[c := Ready(vm.value, 0)]
                && vm.value !in s.t.vms && u.t.vms.Keys == s.t.vms.Keys + {vm.value} && u.t.vms[vm.value].active == 0
                && (db.failed == old(db.failed) ==> BootedAs(u.t, vm.value, address))
      ensures vm.Err? ==>
                u.creators == s.creators - {c} && vm.error in {CreateVmFailed, VmNotReady} && Faults() > old(Faults())
    {
      var created, name;
      created, name, steps, u := CreateGceVm(c, s0, before, s);
      if created.None? {
        return Err(CreateVmFailed), "", steps, u;
      }
      ghost var m := u;
      var ip;
      ip, steps, u := WaitForVMReady(c, created.value, name, s0, steps, u);
      BootsNew(s.t, m.t, u.t, created.value, name);
      LastMove(s.creators, c, Booting(created.value), Ready(created.value, 0));
      if ip.None? {
        return Err(VmNotReady), "", steps, u;
      }
      return Ok(created.value), ip.value, steps, u;
    }

    lemma BootsNew(t: Tables, m: Tables, u: Tables, v: VmId, name: string)
      requires v !in t.vms && (exists ip :: m == InsertVm(t, v, name, ip)) && OnlyBoots(m, u, v)
      ensures Undisturbed(t, u) && u.vms.Keys == t.vms.Keys + {v}
      ensures u.vms[v] == Vm(name, u.vms[v].ip, u.vms[v].status, 0, None, None)
    {
    }

    /** A new row as GCE last reported the instance: running, under this address, which is not empty. */
    ghost predicate BootedAs(t: Tables, v: VmId, address: string)
      reads gce`reports
    {
      && v in t.vms && t.vms[v] == Vm(t.vms[v].name, address, Running, 0, None, None)
      && ReportedUp(t.vms[v].name, address)
    }

    lemma FoundNew(t: Tables, m: Tables, u: Tables)
      requires m.eps == t.eps && m.convs == t.convs && m.vms.Keys == t.vms.Keys && Undisturbed(m, u)
      requires forall v | v in t.vms :: m.vms[v] == t.vms[v].(status := m.vms[v].status)
      ensures Undisturbed(t, u)
    {
    }

    /** Picks a VM, or creates one and waits for it; without a fault it picks exactly when one has room, the
        fullest such one.  The address is that of its row, unless it is new and a write failed. */
    method FindVm(c: ConvId, ghost s0: State, ghost before: seq<Step>, ghost s: State)
      returns (vm: Result<VmId, Failure>, address: string, ghost steps: seq<Step>, ghost u: State)
      requires Shows(db, s) && Leads(cfg, s0, before, s) && cfg.statuses == db.statuses
      requires c in s.creators && s.creators[c] == Picking(0) && Sane(cfg)
      modifies db, net, gce
      ensures Shows(db, u) && Leads(cfg, s0, steps, u) && Undisturbed(s.t, u.t) && Forward()
      ensures vm.Ok? ==>
                && u.creators == s.creators[c := Ready(vm.value, 0)]
                && vm.value in u.t.vms && u.t.vms[vm.value].active < cfg.max
                && (vm.value in s.t.vms ==> u.t.vms[vm.value].ip == address)
                && (vm.value !in s.t.vms && db.failed == old(db.failed) ==> BootedAs(u.t, vm.value, address))
                && (Faults() == old(Faults()) ==> RightVm(s.t, vm.value, cfg.max))
      ensures vm.Err? ==>
                u.creators == s.creators - {c} && vm.error in {CreateVmFailed, VmNotReady} && Faults() > old(Faults())
    {
      var picked, probes;
      picked, probes, steps, u := PickHealthyAvailableVM(c, s0, before, s);
      if picked.Some? {
        return Ok(picked.value), db.vms[picked.value].ip, steps, u;
      }
      ghost var m := u.t;
      vm, address, steps, u := NewVm(c, s0, steps, u);
      FoundNew(s.t, m, u.t);
      if vm.Ok? {
        LastMove(s.creators, c, Creating, Ready(vm.value, 0));
      } else {
        LastMove(s.creators, c, Creating, Creating);
      }
    }

    /** A VM with room, but without a free port. */
    ghost predicate PortsExhausted(t: Tables, error: Failure) {
      exists v :: v in t.vms && t.vms[v].active < cfg.max && NoPortLeft(t, v, error)
    }

    /** What the slow path leaves, with m the tables when a VM had been found: on success exactly one more
        row, count and container; on an error other than a failed increment no change but a container that
        could not be started or removed; on a failed increment the row, uncounted. */
    ghost predicate Effect(before: map<Key, Container>, m: Tables, u: Tables, c: ConvId,
                           result: Result<EpId, Failure>, leaked: bool)
      reads fleet
    {
      && (result.Ok? ==>
            && result.value in u.eps && var row := u.eps[result.value];
            && Hosts(before, fleet.containers, (row.vm, ContainerName(c)), row.port)
            && CountedOn(m, u, row.vm) && Recorded(m, u, result.value, c, row.vm, ContainerName(c))
            && m.vms[row.vm].active < cfg.max)
      && (result.Err? && result.error != IncrementFailed ==>
            u == m && (fleet.containers == before <==> !leaked))
      && (result == Err(IncrementFailed) ==>
            u.vms == m.vms && exists e, v :: Recorded(m, u, e, c, v, ContainerName(c)))
      && (leaked ==> result.Err? && exists v :: OnlyAdds(before, fleet.containers, (v, ContainerName(c))))
    }

    /** The slow path up to a VM. */
    method Locate(c: ConvId, ghost s: State)
      returns (vm: Result<VmId, Failure>, address: string, ghost steps: seq<Step>, ghost u: State)
      requires Shows(db, s) && cfg.statuses == db.statuses && c !in s.creators && Sane(cfg)
      modifies db, net, gce
      ensures Shows(db, u) && Leads(cfg, s, steps, u) && Undisturbed(s.t, u.t) && Forward()
      ensures vm.Ok? ==>
                && u.creators == s.creators[c := Ready(vm.value, 0)]
                && vm.value in u.t.vms && u.t.vms[vm.value].active < cfg.max
                && (vm.value in s.t.vms ==> u.t.vms[vm.value].ip == address)
                && (vm.value !in s.t.vms && db.failed == old(db.failed) ==> BootedAs(u.t, vm.value, address))
                && (Faults() == old(Faults()) ==> RightVm(s.t, vm.value, cfg.max))
      ensures vm.Err? ==>
                u.creators == s.creators && vm.error in {CreateVmFailed, VmNotReady} && Faults() > old(Faults())
    {
      steps, u := Take(cfg, s, [], s, Begin(c));
      vm, address, steps, u := FindVm(c, s, steps, u);
      if vm.Ok? {
        LastMove(s.creators, c, Picking(0), Ready(vm.value, 0));
      } else {
        LeftAgain(s.creators, c, Picking(0));
      }
    }

    /** And from there on, for a VM with room. */
    method PlaceFound(c: ConvId, v: VmId, address: string, ghost s0: State, ghost before: seq<Step>, ghost s: State)
      returns (result: Result<EpId, Failure>, leaked: bool, ghost steps: seq<Step>, ghost u: State)
      requires Shows(db, s) && Leads(cfg, s0, before, s) && c in s.creators && s.creators[c] == Ready(v, 0)
      requires v in s.t.vms && s.t.vms[v].active < cfg.max
      modifies db, fleet, net
      ensures Shows(db, u) && Leads(cfg, s0, steps, u) && u.creators == s.creators - {c} && Forward()
      ensures Effect(old(fleet.containers), s.t, u.t, c, result, leaked)
      ensures result.Ok? ==>
                u.t.eps[result.value].vm == v && CountedOn(s.t, u.t, v) && LastDialed(net.dialed, address)
      ensures result.Err? ==> Faults() > old(Faults()) || PortsExhausted(s.t, result.error)
      ensures fleet.stranded == old(fleet.stranded) + if leaked then 1 else 0
    {
      result, leaked, steps, u := PlaceAndCount(c, v, address, s0, before, s);
    }

    lemma StillFound(t: Tables, m: Tables, u: Tables, v: VmId, address: string, clean: bool, written: bool)
      requires CountedOn(m, u, v) && LastDialed(net.dialed, address) && (clean ==> RightVm(t, v, cfg.max))
      requires (v in t.vms ==> m.vms[v].ip == address) && (v !in t.vms && written ==> BootedAs(m, v, address))
      ensures Found(t, u, v, clean, written)
    {
    }

    /** The slow path: find a VM, place the container, record and count it. */
    method SlowPath(c: ConvId, ghost s: State)
      returns (result: Result<EpId, Failure>, leaked: bool, ghost steps: seq<Step>, ghost m: Tables, ghost u: State)
      requires Shows(db, s) && cfg.statuses == db.statuses && c !in s.creators && Sane(cfg)
      modifies db, fleet, net, gce
      ensures Shows(db, u) && Leads(cfg, s, steps, u) && u.creators == s.creators && Undisturbed(s.t, m)
      ensures Effect(old(fleet.containers), m, u.t, c, result, leaked)
      ensures result.Err? ==> Faults() > old(Faults()) || PortsExhausted(m, result.error)
      ensures fleet.stranded == old(fleet.stranded) + if leaked then 1 else 0
      ensures Forward()
      ensures result.Ok? ==>
                Found(s.t, u.t, u.t.eps[result.value].vm, Faults() == old(Faults()), db.failed == old(db.failed))
    {
      leaked := false;
      var vm, address;
      vm, address, steps, u := Locate(c, s);
      m := u.t;
      if vm.Err? {
        result := Err(vm.error);
        return;
      }
      LeftAgain(s.creators, c, Ready(vm.value, 0));
      result, leaked, steps, u := PlaceFound(c, vm.value, address, s, steps, u);
      if result.Ok? {
        StillFound(s.t, m, u.t, vm.value, address, Faults() == old(Faults()), db.failed == old(db.failed));
      }
    }

    /** The VM of a new session: the right one, if nothing failed; its container-manager was reached under the
        address in its row, unless the VM is new and a write failed; and if none did, a new VM's row holds the
        address GCE reported, which is not empty. */
    ghost predicate Found(t: Tables, u: Tables, v: VmId, clean: bool, written: bool)
      reads net`dialed, gce`reports
    {
      && (clean ==> RightVm(t, v, cfg.max))
      && v in u.vms && (v in t.vms || written ==> LastDialed(net.dialed, u.vms[v].ip))
      && (v !in t.vms && written ==> u.vms[v].status == Running && ReportedUp(u.vms[v].name, u.vms[v].ip))
    }

    /** The function that singleflight runs once per conversation: look again, then take the slow path. */
    method Once(c: ConvId, ghost s: State)
      returns (result: Result<EpId, Failure>, reused: bool, leaked: bool, ghost steps: seq<Step>,
               ghost m: Tables, ghost u: State)
      requires Shows(db, s) && cfg.statuses == db.statuses && c !in s.creators && Sane(cfg)
      modifies db, fleet, net, gce
      ensures Shows(db, u) && Leads(cfg, s, steps, u) && u.creators == s.creators && Undisturbed(s.t, m)
      ensures reused ==>
                && result.Ok? && u == s && fleet.containers == old(fleet.containers) && HasSession(u.t, c, result.value)
                && fleet.runs == old(fleet.runs) && db.inserts == old(db.inserts) && net.dialed == old(net.dialed)
      ensures !reused ==> Effect(old(fleet.containers), m, u.t, c, result, leaked)
      ensures result.Err? ==> Faults() > old(Faults()) || PortsExhausted(m, result.error)
      ensures fleet.stranded == old(fleet.stranded) + if leaked then 1 else 0
      ensures Forward()
      ensures !reused && result.Ok? ==>
                Found(s.t, u.t, u.t.eps[result.value].vm, Faults() == old(Faults()), db.failed == old(db.failed))
      ensures SchemaOk(s.t) && Open(s.t, c) && net.faults == old(net.faults) ==> reused
    {
      var reached := net.Call();
      var found := db.GetSessionEndpointByConversationID(c, reached);
      if found.Row? && SchemaOk(s.t) && Open(s.t, c) {
        SoleRow(s.t, c, found.row);
      }
      if found.Row? && db.eps[found.row].status == EpRunning {
        return Ok(found.row), true, false, [], s.t, s;
      }
      reused := false;
      result, leaked, steps, m, u := SlowPath(c, s);
    }

    /** The conversation's row is there, running. */
    ghost predicate HasSession(t: Tables, c: ConvId, e: EpId) {
      e in t.eps && t.eps[e].conv == c && t.eps[e].status == EpRunning
    }

    ghost predicate Open(t: Tables, c: ConvId) {
      exists e :: HasSession(t, c, e)
    }

    lemma SoleRow(t: Tables, c: ConvId, e: EpId)
      requires SchemaOk(t) && Open(t, c) && e in t.eps && t.eps[e].conv == c
      ensures t.eps[e].status == EpRunning
    {
    }

    /** getOrCreateEndpoint, entered by the one caller singleflight lets through for this conversation: a run
        of the allocator.  If no read or remote call fails, a running row is reused and nothing else is done.
        Else a success makes exactly one row, on the VM that Found describes; it fails only if some call failed, or the
        VM chosen has no free port.  A call on its own keeps every VM within its limit, and every counter as far
        from its rows as it was, unless the increment fails.  With counters not under their rows and a range of
        at least MaxContainers ports, it succeeds unless a call fails. */
    method GetOrCreateEndpoint(c: ConvId, ghost s: State)
      returns (result: Result<EpId, Failure>, reused: bool, leaked: bool, ghost steps: seq<Step>,
               ghost m: Tables, ghost u: State)
      requires Shows(db, s) && Inv(s) && cfg.statuses == db.statuses && c !in s.creators && Sane(cfg)
      modifies db, fleet, net, gce
      ensures Shows(db, u) && Leads(cfg, s, steps, u) && u.creators == s.creators && Inv(u) && Undisturbed(s.t, m)
      ensures result.Ok? ==> HasSession(u.t, c, result.value)
      ensures reused ==>
                && result.Ok? && u == s && fleet.containers == old(fleet.containers) && fleet.runs == old(fleet.runs)
                && db.inserts == old(db.inserts) && net.dialed == old(net.dialed)
      ensures Open(s.t, c) && net.faults == old(net.faults) ==> reused
      ensures !reused ==> Effect(old(fleet.containers), m, u.t, c, result, leaked)
      ensures !reused && result.Ok? ==>
                Found(s.t, u.t, u.t.eps[result.value].vm, Faults() == old(Faults()), db.failed == old(db.failed))
      ensures result.Err? ==> Faults() > old(Faults()) || PortsExhausted(m, result.error)
      ensures fleet.stranded == old(fleet.stranded) + if leaked then 1 else 0
      ensures WithinMax(cfg, s) ==> WithinMax(cfg, u)
      ensures result != Err(IncrementFailed) ==> SameSurplus(s.t, u.t)
      ensures Roomy(s.t) && result.Err? ==> Faults() > old(Faults())
    {
      var reached := net.Call();
      var found := db.GetSessionEndpointByConversationID(c, reached);
      if found.Row? && SchemaOk(s.t) && Open(s.t, c) {
        SoleRow(s.t, c, found.row);
      }
      if found.Row? && db.eps[found.row].status == EpRunning {
        return Ok(found.row), true, false, [], s.t, s;
      }
      result, reused, leaked, steps, m, u := Once(c, s);
      RunKeepsInv(cfg, s, steps);
      if !reused {
        EffectKeeps(old(fleet.containers), s, m, u, c, result, leaked);
      }
      if Roomy(s.t) && result.Err? {
        PortsSuffice(s.t, m, result.error);
      }
    }

    /** No counter is under its rows, and the range has a port for every container a VM may hold. */
    ghost predicate Roomy(t: Tables) {
      (forall v | v in t.vms :: Surplus(t, v) >= 0) && cfg.end - cfg.start + 1 >= cfg.max
    }

    lemma PortsSuffice(t: Tables, m: Tables, error: Failure)
      requires Sane(cfg) && SchemaOk(t) && Undisturbed(t, m) && Roomy(t)
      ensures !PortsExhausted(m, error)
    {
      UndisturbedSurplus(t, m);
      forall v | v in m.vms && m.vms[v].active < cfg.max ensures SmallestFree(m, v, cfg.start, cfg.end) != 0 {
        PortPigeonhole(m, v, cfg.start, cfg.end);
        assert Surplus(m, v) >= 0;
      }
    }

    lemma EffectKeeps(before: map<Key, Container>, s: State, m: Tables, u: State, c: ConvId,
                      result: Result<EpId, Failure>, leaked: bool)
      requires Inv(s) && Undisturbed(s.t, m) && Effect(before, m, u.t, c, result, leaked)
      ensures WithinMax(cfg, s) && Sane(cfg) ==> WithinMax(cfg, u)
      ensures result != Err(IncrementFailed) ==> SameSurplus(s.t, u.t)
    {
      UndisturbedSurplus(s.t, m);
      if result.Ok? {
        PlacedSurplus(m, u.t, result.value, c, u.t.eps[result.value].vm, ContainerName(c));
      }
    }
  }
}
