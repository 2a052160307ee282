/**
 The repository object over the two tables.  A write has exactly the effect of its SQL statement, or, when
 it returns an error, none, and the error is counted.  A read answers if the database is reached.  Generated
 ids are never used twice.
 */
module Repository {
  import opened Wrappers
  import opened Tables

  datatype Read<+T> = Row(row: T) | NoRow | ReadFailed

  class Database {
    const statuses: set<VmStatus>
    var vms: map<VmId, Vm>
    var eps: map<EpId, Endpoint>
    var convs: set<ConvId>
    var nextVm: nat
    var nextEp: nat

    /** The database's clock. */
    var now: int

    /** Every id ever generated, and the number of writes that returned an error. */
    ghost var usedVms: set<VmId>
    ghost var usedEps: set<EpId>
    ghost var failed: nat

    /** The outcomes of the endpoint inserts, in order. */
    ghost var inserts: seq<bool>

    constructor (statuses: set<VmStatus>)
      ensures Valid() && this.statuses == statuses && View() == Tables(map[], map[], {})
      ensures usedVms == {} && usedEps == {} && failed == 0 && inserts == []
    {
      this.statuses := statuses;
      vms, eps, convs, nextVm, nextEp, now := map[], map[], {}, 0, 0, 0;
      usedVms, usedEps, failed, inserts := {}, {}, 0, [];
    }

    ghost predicate Valid()
      reads this
    {
      && vms.Keys <= usedVms && (forall v | v in usedVms :: v < nextVm)
      && eps.Keys <= usedEps && (forall e | e in usedEps :: e < nextEp)
    }

    function View(): Tables
      reads this
    {
      Tables(vms, eps, convs)
    }

    /** NOW() in a statement: it never goes back. */
    method Now() returns (reading: int)
      modifies this`now
      ensures reading == now >= old(now)
    {
      var later: int := *;
      now := if later > now then later else now;
      reading := now;
    }

    // ----- vm_instances -----

    method CreateVMInstance(name: string, ip: string) returns (id: Option<VmId>)
      requires Valid()
      modifies this`vms, this`nextVm, this`usedVms, this`failed
      ensures Valid() && failed == old(failed) + if id.Some? then 0 else 1
      ensures id.None? ==> View() == old(View()) && usedVms == old(usedVms)
      ensures id.Some? ==>
                && id.value !in old(usedVms) && usedVms == old(usedVms) + {id.value}
                && View() == InsertVm(old(View()), id.value, name, ip)
    {
      var ok := *;
      if !ok {
        failed := failed + 1;
        return None;
      }
      id := Some(nextVm);
      vms := vms[nextVm := Vm(name, ip, Provisioning, 0, None, None)];
      usedVms := usedVms + {nextVm};
      nextVm := nextVm + 1;
    }

    /** The CHECK constraint refuses a status outside `statuses`, if there is a row to update. */
    method UpdateVMInstanceStatus(id: VmId, status: VmStatus) returns (ok: bool)
      modifies this`vms, this`failed
      ensures failed == old(failed) + if ok then 0 else 1
      ensures View() == if ok then SetVmStatus(old(View()), id, status) else old(View())
      ensures ok && id in vms ==> status in statuses
    {
      ok := *;
      if ok && id in vms {
        if status in statuses {
          vms := vms[id := vms[id].(status := status)];
        } else {
          ok := false;
        }
      }
      failed := failed + if ok then 0 else 1;
    }

    method UpdateVMInstanceIP(id: VmId, ip: string) returns (ok: bool)
      modifies this`vms, this`failed
      ensures failed == old(failed) + if ok then 0 else 1
      ensures View() == if ok then SetVmIp(old(View()), id, ip) else old(View())
    {
      ok := *;
      if ok && id in vms {
        vms := vms[id := vms[id].(ip := ip)];
      }
      failed := failed + if ok then 0 else 1;
    }

    method IncrementVMActiveContainers(id: VmId) returns (ok: bool)
      modifies this`vms, this`failed
      ensures failed == old(failed) + if ok then 0 else 1
      ensures View() == if ok then IncrementActive(old(View()), id) else old(View())
    {
      ok := *;
      if ok && id in vms {
        vms := vms[id := vms[id].(active := vms[id].active + 1, idleSince := None)];
      }
      failed := failed + if ok then 0 else 1;
    }

    method DecrementVMActiveContainers(id: VmId) returns (ok: bool)
      modifies this`vms, this`failed, this`now
      ensures now >= old(now) && failed == old(failed) + if ok then 0 else 1
      ensures View() == if ok then DecrementActive(old(View()), id, now) else old(View())
    {
      ok := *;
      var at := Now();
      if ok && id in vms {
        var vm := vms[id];
        var less := vm.active - 1;
        vms := vms[id := vm.(active := if less > 0 then less else 0,
                             idleSince := if less <= 0 then Some(at) else vm.idleSince)];
      }
      failed := failed + if ok then 0 else 1;
    }

    method GetVMInstance(id: VmId, reached: bool) returns (vm: Read<Vm>)
      ensures vm.ReadFailed? <==> !reached
      ensures vm.Row? ==> id in vms && vm.row == vms[id]
      ensures vm.NoRow? ==> id !in vms
    {
      vm := if !reached then ReadFailed else if id in vms then Row(vms[id]) else NoRow;
    }

    /** ORDER BY active_containers DESC LIMIT 1 over the running VMs with room. */
    method GetAvailableVMInstance(maxContainers: int, reached: bool) returns (best: Read<VmId>)
      ensures best.ReadFailed? <==> !reached
      ensures best.Row? ==> Fullest(View(), best.row, maxContainers)
      ensures best.NoRow? ==> forall v | v in vms :: !Available(View(), v, maxContainers)
    {
      if !reached {
        return ReadFailed;
      }
      best := NoRow;
      var left := vms.Keys;
      while left != {}
        invariant left <= vms.Keys
        invariant best.NoRow? || best.Row?
        invariant best.NoRow? ==> forall v | v in vms && v !in left :: !Available(View(), v, maxContainers)
        invariant best.Row? ==> Available(View(), best.row, maxContainers) &&
                                forall v | v in vms && v !in left && Available(View(), v, maxContainers) ::
                                  vms[v].active <= vms[best.row].active
        decreases left
      {
        var v :| v in left;
        left := left - {v};
        if vms[v].status == Running && vms[v].active < maxContainers {
          if best.NoRow? || vms[v].active > vms[best.row].active {
            best := Row(v);
          }
        }
      }
    }

    /** A listing holds every matching row once; the order is left open. */
    method ListIdleVMInstances(idleTimeout: int, reached: bool) returns (ids: Read<seq<VmId>>)
      modifies this`now
      ensures now >= old(now) && (ids.ReadFailed? <==> !reached)
      ensures !ids.NoRow?
      ensures ids.Row? ==> ListsIdleVms(View(), ids.row, now - idleTimeout)
    {
      if !reached {
        return ReadFailed;
      }
      var at := Now();
      var before := at - idleTimeout;
      var found: seq<VmId> := [];
      var left := vms.Keys;
      while left != {}
        invariant left <= vms.Keys
        invariant forall v :: v in found <==> v !in left && IdleVm(View(), v, before)
        invariant forall i, j | 0 <= i < j < |found| :: found[i] != found[j]
        decreases left
      {
        var v :| v in left;
        left := left - {v};
        if vms[v].status == Running && vms[v].active == 0 && vms[v].idleSince.Some? && vms[v].idleSince.value < before {
          found := found + [v];
        }
      }
      return Row(found);
    }

    method ListRunningVMInstances(reached: bool) returns (rows: Read<seq<ListedVm>>)
      ensures rows.ReadFailed? <==> !reached
      ensures !rows.NoRow?
      ensures rows.Row? ==>
                && ListsRunning(View(), rows.row)
                && forall v | v in vms && vms[v].status == Running :: ListedVm(v, vms[v]) in rows.row
    {
      if !reached {
        return ReadFailed;
      }
      var found: seq<ListedVm> := [];
      var left := vms.Keys;
      while left != {}
        invariant left <= vms.Keys
        invariant ListsRunning(View(), found) && forall i | 0 <= i < |found| :: found[i].id !in left
        invariant forall v | v in vms && v !in left && vms[v].status == Running :: ListedVm(v, vms[v]) in found
        decreases left
      {
        var v :| v in left;
        left := left - {v};
        if vms[v].status == Running {
          found := found + [ListedVm(v, vms[v])];
        }
      }
      return Row(found);
    }

    method SetVMZeroAgentsSince(id: VmId, since: Option<int>) returns (ok: bool)
      modifies this`vms, this`failed
      ensures failed == old(failed) + if ok then 0 else 1
      ensures View() == if ok then SetZeroSince(old(View()), id, since) else old(View())
    {
      ok := *;
      if ok && id in vms {
        vms := vms[id := vms[id].(zeroSince := since)];
      }
      failed := failed + if ok then 0 else 1;
    }

    /** Refused while an endpoint row refers to the VM. */
    method DeleteVMInstance(id: VmId) returns (ok: bool)
      modifies this`vms, this`failed
      ensures failed == old(failed) + if ok then 0 else 1
      ensures View() == if ok then DeleteVm(old(View()), id) else old(View())
      ensures ok ==> CanDeleteVm(View(), id)
    {
      var referenced := exists e | e in eps :: eps[e].vm == id;
      ok := *;
      ok := ok && !referenced;
      if ok {
        vms := vms - {id};
      }
      failed := failed + if ok then 0 else 1;
    }

    // ----- session_endpoints -----

    method CreateSessionEndpoint(conv: ConvId, vm: VmId, container: string, port: int)
      returns (id: Option<EpId>)
      requires Valid()
      modifies this`eps, this`nextEp, this`usedEps, this`failed, this`inserts, this`now
      ensures now >= old(now) && inserts == old(inserts) + [id.Some?]
      ensures Valid() && failed == old(failed) + if id.Some? then 0 else 1
      ensures id.None? ==> View() == old(View()) && usedEps == old(usedEps)
      ensures id.Some? ==>
                && id.value !in old(usedEps) && usedEps == old(usedEps) + {id.value}
                && CanInsertEndpoint(old(View()), conv, vm, port)
                && View() == InsertEndpoint(old(View()), id.value, conv, vm, container, port, now)
    {
      var violates := vm !in vms || conv !in convs ||
                      exists e | e in eps :: eps[e].conv == conv || (eps[e].vm == vm && eps[e].port == port);
      var ok := *;
      var at := Now();
      inserts := inserts + [ok && !violates];
      if !ok || violates {
        failed := failed + 1;
        return None;
      }
      id := Some(nextEp);
      eps := eps[nextEp := Endpoint(conv, vm, container, port, EpRunning, at)];
      usedEps := usedEps + {nextEp};
      nextEp := nextEp + 1;
    }

    method GetSessionEndpointByConversationID(conv: ConvId, reached: bool) returns (found: Read<EpId>)
      ensures found.ReadFailed? <==> !reached
      ensures found.Row? ==> found.row in eps && eps[found.row].conv == conv
      ensures found.NoRow? ==> forall e | e in eps :: eps[e].conv != conv
    {
      if !reached {
        return ReadFailed;
      }
      if e :| e in eps && eps[e].conv == conv {
        return Row(e);
      }
      return NoRow;
    }

    method ListIdleSessionEndpoints(idleTimeout: int, reached: bool) returns (rows: Read<seq<Listed>>)
      modifies this`now
      ensures now >= old(now) && (rows.ReadFailed? <==> !reached)
      ensures !rows.NoRow?
      ensures rows.Row? ==> ListsIdle(View(), rows.row, now - idleTimeout)
    {
      if !reached {
        return ReadFailed;
      }
      var at := Now();
      var before := at - idleTimeout;
      var found: seq<Listed> := [];
      var left := eps.Keys;
      while left != {}
        invariant left <= eps.Keys
        invariant SomeIdle(View(), found, before) && forall i | 0 <= i < |found| :: found[i].id !in left
        invariant forall e | e in eps && e !in left && IdleEndpoint(eps[e], before) :: Listed(e, eps[e]) in found
        decreases left
      {
        var e :| e in left;
        left := left - {e};
        if eps[e].status == EpRunning && eps[e].lastActivity < before {
          found := found + [Listed(e, eps[e])];
        }
      }
      return Row(found);
    }

    method DeleteSessionEndpoint(id: EpId) returns (ok: bool)
      modifies this`eps, this`failed
      ensures failed == old(failed) + if ok then 0 else 1
      ensures View() == if ok then DeleteEndpoint(old(View()), id) else old(View())
    {
      ok := *;
      if ok {
        eps := eps - {id};
      }
      failed := failed + if ok then 0 else 1;
    }

    /** The first port of generate_series(start, end) not held by a running endpoint of the VM; 0 if none. */
    method GetSmallestAvailablePortOnVM(vm: VmId, start: int, end: int, reached: bool) returns (port: Read<int>)
      ensures port.ReadFailed? <==> !reached
      ensures !port.NoRow?
      ensures port.Row? ==> port.row == SmallestFree(View(), vm, start, end)
    {
      if !reached {
        return ReadFailed;
      }
      var p := start;
      while p <= end
        invariant SmallestFree(View(), vm, start, end) == SmallestFree(View(), vm, p, end)
        decreases end - p
      {
        if !exists e | e in eps :: eps[e].vm == vm && eps[e].status == EpRunning && eps[e].port == p {
          assert !Taken(View(), vm, p);
          return Row(p);
        }
        assert Taken(View(), vm, p);
        p := p + 1;
      }
      return Row(0);
    }
  }
}
