/** The containers on all VMs, behind each VM's container-manager, and the instances behind GCE. */
module Containers {
  import opened Wrappers
  import opened Tables

  datatype Container = Container(port: int, started: bool)

  datatype RunOutcome = Started | NotCreated | NotStarted

  type Key = (VmId, string)

  /** Whether a started container on the VM publishes the host port. */
  predicate Bound(containers: map<Key, Container>, vm: VmId, port: int) {
    exists key | key in containers :: key.0 == vm && containers[key].started && containers[key].port == port
  }

  /** The names of the containers that run on the VM. */
  function StartedOn(containers: map<Key, Container>, vm: VmId): set<string> {
    set key | key in containers && key.0 == vm && containers[key].started :: key.1
  }

  /** Creating needs a free name; starting needs a free host port; a container that was created and could
      not be started stays behind. */
  class Fleet {
    var containers: map<Key, Container>

    /** Calls that returned an error; those among them that left a container behind, by not starting or not
        removing it; and the calls made, by kind. */
    ghost var failed: nat
    ghost var stranded: nat
    ghost var runs: seq<RunOutcome>
    ghost var stops: seq<Key>
    ghost var removes: seq<Key>

    constructor ()
      ensures containers == map[] && failed == 0 && stranded == 0 && runs == [] && stops == [] && removes == []
    {
      containers, failed, stranded, runs, stops, removes := map[], 0, 0, [], [], [];
    }

    method RunAgent(vm: VmId, name: string, port: int) returns (outcome: RunOutcome)
      modifies this
      ensures failed == old(failed) + if outcome.Started? then 0 else 1
      ensures stranded == old(stranded) + if outcome.NotStarted? then 1 else 0
      ensures runs == old(runs) + [outcome] && stops == old(stops) && removes == old(removes)
      ensures outcome.NotCreated? ==> containers == old(containers)
      ensures (vm, name) in old(containers) ==> outcome.NotCreated?
      ensures outcome.NotStarted? ==> containers == old(containers)[(vm, name) := Container(port, false)]
      ensures outcome.Started? ==> containers == old(containers)[(vm, name) := Container(port, true)]
      ensures Bound(old(containers), vm, port) ==> !outcome.Started?
    {
      var created, started := *, *;
      if !created || (vm, name) in containers {
        outcome := NotCreated;
      } else {
        outcome := if started && !Bound(containers, vm, port) then Started else NotStarted;
        containers := containers[(vm, name) := Container(port, outcome.Started?)];
      }
      failed := failed + if outcome.Started? then 0 else 1;
      stranded := stranded + if outcome.NotStarted? then 1 else 0;
      runs := runs + [outcome];
    }

    method StopContainer(vm: VmId, name: string) returns (ok: bool)
      modifies this
      ensures failed == old(failed) + (if ok then 0 else 1) && stops == old(stops) + [(vm, name)]
      ensures stranded == old(stranded) && runs == old(runs) && removes == old(removes)
      ensures containers == if ok && (vm, name) in old(containers)
                            then old(containers)[(vm, name) := old(containers)[(vm, name)].(started := false)]
                            else old(containers)
    {
      ok := *;
      if ok && (vm, name) in containers {
        containers := containers[(vm, name) := containers[(vm, name)].(started := false)];
      }
      stops := stops + [(vm, name)];
      failed := failed + if ok then 0 else 1;
    }

    /** The running ones, or no answer. */
    method ListAgents(vm: VmId) returns (agents: Option<set<string>>)
      modifies this`failed
      ensures failed == old(failed) + if agents.Some? then 0 else 1
      ensures agents.Some? ==> agents.value == StartedOn(containers, vm)
    {
      var ok := *;
      agents := if ok then Some(StartedOn(containers, vm)) else None;
      failed := failed + if ok then 0 else 1;
    }

    /** Forced, so a running container goes too. */
    method RemoveContainer(vm: VmId, name: string) returns (ok: bool)
      modifies this
      ensures failed == old(failed) + (if ok then 0 else 1) && stranded == old(stranded) + if ok then 0 else 1
      ensures removes == old(removes) + [(vm, name)] && runs == old(runs) && stops == old(stops)
      ensures containers == if ok then old(containers) - {(vm, name)} else old(containers)
    {
      ok := *;
      if ok {
        containers := containers - {(vm, name)};
      }
      removes := removes + [(vm, name)];
      failed := failed + if ok then 0 else 1;
      stranded := stranded + if ok then 0 else 1;
    }
  }

  datatype Instance = Instance(name: string, ip: string, running: bool)

  /** What GCE was asked and answered: instances created, their states as reported, deletions, and how many
      creations and deletions it refused. */
  class Gce {
    ghost var created: seq<Instance>
    ghost var reports: seq<(string, Instance)>
    ghost var asked: seq<VmId>
    ghost var refused: nat

    constructor ()
      ensures created == [] && reports == [] && asked == [] && refused == 0
    {
      created, reports, asked, refused := [], [], [], 0;
    }

    method CreateInstance() returns (inst: Option<Instance>)
      modifies this`created, this`refused
      ensures created == old(created) + if inst.Some? then [inst.value] else []
      ensures refused == old(refused) + if inst.Some? then 0 else 1
    {
      inst := *;
      created := created + if inst.Some? then [inst.value] else [];
      refused := refused + if inst.Some? then 0 else 1;
    }

    /** The state of the instance as it is then, unless the call fails. */
    method GetInstance(name: string) returns (inst: Option<Instance>)
      modifies this`reports
      ensures reports == old(reports) + if inst.Some? then [(name, inst.value)] else []
    {
      inst := *;
      reports := reports + if inst.Some? then [(name, inst.value)] else [];
    }

    method DeleteInstance(vm: VmId) returns (ok: bool)
      modifies this`asked, this`refused
      ensures asked == old(asked) + [vm] && refused == old(refused) + if ok then 0 else 1
    {
      ok := *;
      asked := asked + [vm];
      refused := refused + if ok then 0 else 1;
    }
  }
}
