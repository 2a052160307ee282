/**
 The vm_instances and session_endpoints tables, and the effect of each SQL statement of the repository
 on them.  Row ids are numbers; a conversation is named by its id.
 */
module Tables {
  import opened Wrappers

  type VmId = nat
  type EpId = nat
  type ConvId = string

  datatype VmStatus = Provisioning | Running | Terminated | Unhealthy

  /** The CHECK constraint that migration 005 puts on vm_instances.status; no later migration widens it. */
  const SHIPPED_STATUSES: set<VmStatus> := {Provisioning, Running, Terminated}

  datatype EpStatus = EpProvisioning | EpRunning | EpTerminated

  datatype Vm = Vm(
    name: string,
    ip: string,
    status: VmStatus,
    active: nat,
    idleSince: Option<int>,
    zeroSince: Option<int>)

  datatype Endpoint = Endpoint(
    conv: ConvId,
    vm: VmId,
    container: string,
    port: int,
    status: EpStatus,
    lastActivity: int)

  datatype Tables = Tables(vms: map<VmId, Vm>, eps: map<EpId, Endpoint>, convs: set<ConvId>)

  /** Keys: UNIQUE (conversation_id), UNIQUE (vm_instance_id, port), and the two foreign keys. */
  ghost predicate SchemaOk(t: Tables) {
    && (forall e | e in t.eps :: t.eps[e].vm in t.vms && t.eps[e].conv in t.convs)
    && (forall d, e | d in t.eps && e in t.eps && d != e ::
          t.eps[d].conv != t.eps[e].conv && (t.eps[d].vm == t.eps[e].vm ==> t.eps[d].port != t.eps[e].port))
  }

  // ----- vm_instances -----

  function InsertVm(t: Tables, id: VmId, name: string, ip: string): Tables {
    t.(vms := t.vms[id := Vm(name, ip, Provisioning, 0, None, None)])
  }

  /** UPDATE ... WHERE id = $1: a row that is gone is left gone. */
  function UpdateVm(t: Tables, id: VmId, vm: Vm): Tables {
    if id in t.vms then t.(vms := t.vms[id := vm]) else t
  }

  function SetVmStatus(t: Tables, id: VmId, status: VmStatus): Tables {
    if id in t.vms then UpdateVm(t, id, t.vms[id].(status := status)) else t
  }

  function SetVmIp(t: Tables, id: VmId, ip: string): Tables {
    if id in t.vms then UpdateVm(t, id, t.vms[id].(ip := ip)) else t
  }

  function IncrementActive(t: Tables, id: VmId): Tables {
    if id in t.vms then UpdateVm(t, id, t.vms[id].(active := t.vms[id].active + 1, idleSince := None)) else t
  }

  function DecrementActive(t: Tables, id: VmId, now: int): Tables {
    if id !in t.vms then t
    else
      var vm := t.vms[id];
      UpdateVm(t, id, vm.(active := if vm.active > 1 then vm.active - 1 else 0,
                          idleSince := if vm.active <= 1 then Some(now) else vm.idleSince))
  }

  function SetZeroSince(t: Tables, id: VmId, since: Option<int>): Tables {
    if id in t.vms then UpdateVm(t, id, t.vms[id].(zeroSince := since)) else t
  }

  /** The foreign key of session_endpoints has no ON DELETE action, so it blocks this delete. */
  predicate CanDeleteVm(t: Tables, id: VmId) {
    forall e | e in t.eps :: t.eps[e].vm != id
  }

  function DeleteVm(t: Tables, id: VmId): Tables {
    t.(vms := t.vms - {id})
  }

  predicate Available(t: Tables, id: VmId, maxContainers: int) {
    id in t.vms && t.vms[id].status == Running && t.vms[id].active < maxContainers
  }

  /** A row GetAvailableVMInstance may return: the fullest available one, ties broken either way. */
  predicate Fullest(t: Tables, id: VmId, maxContainers: int) {
    Available(t, id, maxContainers) &&
    forall v | v in t.vms && Available(t, v, maxContainers) :: t.vms[v].active <= t.vms[id].active
  }

  predicate IdleVm(t: Tables, id: VmId, before: int) {
    && id in t.vms && t.vms[id].status == Running && t.vms[id].active == 0
    && t.vms[id].idleSince.Some? && t.vms[id].idleSince.value < before
  }

  // ----- session_endpoints -----

  predicate CanInsertEndpoint(t: Tables, conv: ConvId, vm: VmId, port: int) {
    && vm in t.vms && conv in t.convs
    && forall e | e in t.eps :: t.eps[e].conv != conv && !(t.eps[e].vm == vm && t.eps[e].port == port)
  }

  function InsertEndpoint(t: Tables, id: EpId, conv: ConvId, vm: VmId, container: string, port: int, now: int): Tables {
    t.(eps := t.eps[id := Endpoint(conv, vm, container, port, EpRunning, now)])
  }

  function DeleteEndpoint(t: Tables, id: EpId): Tables {
    t.(eps := t.eps - {id})
  }

  function TouchEndpoint(t: Tables, conv: ConvId, now: int): Tables {
    t.(eps := map e | e in t.eps ::
           if t.eps[e].conv == conv then t.eps[e].(lastActivity := now) else t.eps[e])
  }

  predicate IdleEndpoint(ep: Endpoint, before: int) {
    ep.status == EpRunning && ep.lastActivity < before
  }

  /** Rows as a listing query returned them: read once, possibly changed or gone when they are handled. */
  datatype Listed = Listed(id: EpId, ep: Endpoint)

  datatype ListedVm = ListedVm(id: VmId, vm: Vm)

  /** Rows that are idle, each once. */
  predicate SomeIdle(t: Tables, listing: seq<Listed>, before: int) {
    && (forall i | 0 <= i < |listing| ::
          listing[i].id in t.eps && t.eps[listing[i].id] == listing[i].ep && IdleEndpoint(listing[i].ep, before))
    && (forall i, j | 0 <= i < j < |listing| :: listing[i].id != listing[j].id)
  }

  /** Every idle row, once. */
  predicate ListsIdle(t: Tables, listing: seq<Listed>, before: int) {
    SomeIdle(t, listing, before) && forall e | e in t.eps && IdleEndpoint(t.eps[e], before) :: Listed(e, t.eps[e]) in listing
  }

  /** Every idle VM, once. */
  ghost predicate ListsIdleVms(t: Tables, listing: seq<VmId>, before: int) {
    && (forall v :: v in listing <==> IdleVm(t, v, before))
    && forall i, j | 0 <= i < j < |listing| :: listing[i] != listing[j]
  }

  predicate ListsRunning(t: Tables, listing: seq<ListedVm>) {
    && (forall i | 0 <= i < |listing| ::
          listing[i].id in t.vms && t.vms[listing[i].id] == listing[i].vm && listing[i].vm.status == Running)
    && (forall i, j | 0 <= i < j < |listing| :: listing[i].id != listing[j].id)
  }

  // ----- conversations -----

  function InsertConversation(t: Tables, conv: ConvId): Tables {
    t.(convs := t.convs + {conv})
  }

  /** ON DELETE CASCADE takes the endpoint row along, and no counter. */
  function DeleteConversation(t: Tables, conv: ConvId): Tables {
    t.(convs := t.convs - {conv}, eps := map e | e in t.eps && t.eps[e].conv != conv :: t.eps[e])
  }

  // ----- Ports -----

  predicate Taken(t: Tables, vm: VmId, port: int) {
    exists e :: e in t.eps && t.eps[e].vm == vm && t.eps[e].status == EpRunning && t.eps[e].port == port
  }

  /** The smallest port of [start, end] that no running endpoint on the VM holds, or 0. */
  function SmallestFree(t: Tables, vm: VmId, start: int, end: int): int
    decreases end - start
  {
    if start > end then 0 else if Taken(t, vm, start) then SmallestFree(t, vm, start + 1, end) else start
  }

  function EndpointsOn(t: Tables, vm: VmId): set<EpId> {
    set e | e in t.eps && t.eps[e].vm == vm
  }

  function HoldersBetween(t: Tables, vm: VmId, lo: int, hi: int): set<EpId> {
    set e | e in t.eps && t.eps[e].vm == vm && lo <= t.eps[e].port < hi
  }

  lemma {:induction false} SmallestFreeMeaning(t: Tables, vm: VmId, start: int, end: int)
    requires start > 0
    ensures var p := SmallestFree(t, vm, start, end);
            && (p == 0 <==> forall q | start <= q <= end :: Taken(t, vm, q))
            && (p != 0 ==> start <= p <= end && !Taken(t, vm, p) && forall q | start <= q < p :: Taken(t, vm, q))
    decreases end - start
  {
    if start <= end {
      SmallestFreeMeaning(t, vm, start + 1, end);
    }
  }

  /** Distinct taken ports need distinct endpoints. */
  lemma {:induction false} TakenPortsNeedEndpoints(t: Tables, vm: VmId, lo: int, hi: int)
    requires lo <= hi && forall q | lo <= q < hi :: Taken(t, vm, q)
    ensures hi - lo <= |HoldersBetween(t, vm, lo, hi)|
    decreases hi - lo
  {
    if lo < hi {
      TakenPortsNeedEndpoints(t, vm, lo, hi - 1);
      assert Taken(t, vm, hi - 1);
      var e :| e in t.eps && t.eps[e].vm == vm && t.eps[e].status == EpRunning && t.eps[e].port == hi - 1;
      var fewer, more := HoldersBetween(t, vm, lo, hi - 1), HoldersBetween(t, vm, lo, hi);
      assert fewer + {e} <= more;
      SubsetSize(fewer + {e}, more);
    }
  }

  lemma {:induction false} SubsetSize<T>(a: set<T>, b: set<T>)
    requires a <= b
    ensures |a| <= |b|
    decreases a
  {
    if a != {} {
      var x :| x in a;
      SubsetSize(a - {x}, b - {x});
    }
  }

  /** Pigeonhole: with n endpoints on the VM, the port found is one of the first n + 1 of the range, and
      one is found whenever the range has more than n ports. */
  lemma PortPigeonhole(t: Tables, vm: VmId, start: int, end: int)
    requires start > 0
    ensures var p := SmallestFree(t, vm, start, end);
            && (p != 0 ==> start <= p <= end && p <= start + |EndpointsOn(t, vm)| && !Taken(t, vm, p))
            && (end - start + 1 > |EndpointsOn(t, vm)| ==> p != 0)
  {
    SmallestFreeMeaning(t, vm, start, end);
    var p := SmallestFree(t, vm, start, end);
    var hi := if p != 0 then p else if start <= end then end + 1 else start;
    TakenPortsNeedEndpoints(t, vm, start, hi);
    SubsetSize(HoldersBetween(t, vm, start, hi), EndpointsOn(t, vm));
  }
}
