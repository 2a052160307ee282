/**
 The container counter of a VM against the endpoint rows on it.
 */
module Counters {
  import opened Tables
  import opened Allocator
  import opened Paths

  // ----- The balance of a VM's container counter -----

  function InsertedOn(s: State, v: VmId): set<ConvId> {
    set c | c in s.creators && s.creators[c] == Inserted(v)
  }

  /** Listed rows on v that are already gone but still to be counted off by the sweep. */
  function Owed(t: Tables, todo: seq<Listed>, v: VmId): nat {
    if todo == [] then 0
    else (if todo[0].ep.vm == v && todo[0].id !in t.eps then 1 else 0) + Owed(t, todo[1..], v)
  }

  /** The sweep has counted off a row on v and not yet deleted it. */
  function Pending(s: State, v: VmId): nat {
    if s.cleaner.Deleting? && s.cleaner.item.ep.vm == v && s.cleaner.item.id in s.t.eps then 1 else 0
  }

  /** active_containers, corrected for operations in progress, minus the endpoint rows on the VM. */
  function Balance(s: State, v: VmId): int {
    Active(s, v) + |InsertedOn(s, v)| + Pending(s, v) - |EndpointsOn(s.t, v)| - Owed(s.t, Todo(s.cleaner), v)
  }

  ghost predicate ListedIn(todo: seq<Listed>, id: EpId) {
    exists i | 0 <= i < |todo| :: todo[i].id == id
  }

  /** The sweep in progress has listed the row and not yet deleted it. */
  ghost predicate InSweep(cleaner: Cleaner, id: EpId) {
    ListedIn(Todo(cleaner), id) || (cleaner.Deleting? && cleaner.item.id == id)
  }

  /** What a step does to the balance of v.  Only five kinds of step change it. */
  ghost function Drift(s: State, step: Step, v: VmId): int {
    match step
    case DropConversation(c) =>
      if exists e :: e in s.t.eps && s.t.eps[e].conv == c && s.t.eps[e].vm == v && !InSweep(s.cleaner, e)
      then 1 else 0
    case Decrement(ok, _) =>
      if s.cleaner.Sweeping? && s.cleaner.todo != [] && s.cleaner.todo[0].ep.vm == v && (!ok || Active(s, v) == 0)
      then 1 else 0
    case IncrementFails(c) => if c in s.creators && s.creators[c] == Inserted(v) then -1 else 0
    case DeleteRowFails => Owed(s.t, Todo(s.cleaner), v) - Pending(s, v)
    case _ => 0
  }

  lemma {:induction false} OwedSame(t: Tables, u: Tables, todo: seq<Listed>, v: VmId)
    requires forall i | 0 <= i < |todo| && todo[i].ep.vm == v :: todo[i].id in t.eps <==> todo[i].id in u.eps
    ensures Owed(t, todo, v) == Owed(u, todo, v)
  {
    if todo != [] {
      OwedSame(t, u, todo[1..], v);
    }
  }

  lemma {:induction false} OwedNone(t: Tables, todo: seq<Listed>, v: VmId)
    requires forall i | 0 <= i < |todo| && todo[i].ep.vm == v :: todo[i].id in t.eps
    ensures Owed(t, todo, v) == 0
  {
    if todo != [] {
      OwedNone(t, todo[1..], v);
    }
  }

  /** One row disappears from under the sweep. */
  lemma {:induction false} OwedRises(t: Tables, u: Tables, todo: seq<Listed>, v: VmId, id: EpId)
    requires id in t.eps && u.eps.Keys == t.eps.Keys - {id}
    requires forall i, j | 0 <= i < j < |todo| :: todo[i].id != todo[j].id
    requires forall i | 0 <= i < |todo| && todo[i].id == id :: todo[i].ep.vm == v
    ensures Owed(u, todo, v) == Owed(t, todo, v) + if ListedIn(todo, id) then 1 else 0
  {
    if todo != [] {
      var rest := todo[1..];
      if todo[0].id == id {
        OwedSame(t, u, rest, v);
        assert ListedIn(todo, id);
      } else {
        OwedRises(t, u, rest, v, id);
        if ListedIn(rest, id) {
          var i :| 0 <= i < |rest| && rest[i].id == id;
          assert todo[i + 1].id == id;
        }
        if ListedIn(todo, id) {
          var i :| 0 <= i < |todo| && todo[i].id == id;
          assert rest[i - 1].id == id;
        }
      }
    }
  }

  predicate InsertsOn(s: State, step: Step, v: VmId) {
    step.Insert? && step.c in s.creators && s.creators[step.c].AgentUp? && s.creators[step.c].vm == v
  }

  predicate WasInserted(s: State, step: Step, v: VmId)
    requires !IsCleaning(step) && !step.Stamp? && !step.Reconcile?
  {
    step.c in s.creators && s.creators[step.c] == Inserted(v)
  }

  lemma InsertedChange(cfg: Config, s: State, step: Step, v: VmId)
    requires Enabled(cfg, s, step) && !IsCleaning(step) && !IsAmbient(step)
    ensures |InsertedOn(Apply(cfg, s, step), v)| ==
            |InsertedOn(s, v)| + (if InsertsOn(s, step, v) then 1 else 0) - (if WasInserted(s, step, v) then 1 else 0)
    ensures WasInserted(s, step, v) ==> step.Increment? || step.IncrementFails?
  {
    if InsertsOn(s, step, v) {
      assert InsertedOn(Apply(cfg, s, step), v) == InsertedOn(s, v) + {step.c};
    } else {
      NotInserting(cfg, s, step, v);
    }
  }

  lemma NotInserting(cfg: Config, s: State, step: Step, v: VmId)
    requires Enabled(cfg, s, step) && !IsCleaning(step) && !IsAmbient(step) && !InsertsOn(s, step, v)
    ensures InsertedOn(Apply(cfg, s, step), v) == InsertedOn(s, v) - {step.c}
  {
  }

  lemma OneMoreRow(t: Tables, u: Tables, id: EpId, ep: Endpoint, v: VmId)
    requires id !in t.eps && u.eps == t.eps[id := ep]
    ensures |EndpointsOn(u, v)| == |EndpointsOn(t, v)| + if ep.vm == v then 1 else 0
  {
    assert EndpointsOn(u, v) == EndpointsOn(t, v) + if ep.vm == v then {id} else {};
  }

  lemma RowsChange(cfg: Config, s: State, step: Step, v: VmId)
    requires Inv(s) && Enabled(cfg, s, step) && !IsCleaning(step) && !IsAmbient(step)
    ensures var n := Apply(cfg, s, step);
            && |EndpointsOn(n.t, v)| == |EndpointsOn(s.t, v)| + (if InsertsOn(s, step, v) then 1 else 0)
            && n.cleaner == s.cleaner
            && forall id | id in s.usedEps :: id in n.t.eps <==> id in s.t.eps
  {
    var n := Apply(cfg, s, step);
    if step.Insert? {
      OneMoreRow(s.t, n.t, step.newEp, n.t.eps[step.newEp], v);
    } else {
      EpsChange(cfg, s, step);
      assert EndpointsOn(n.t, v) == EndpointsOn(s.t, v);
    }
  }

  lemma CounterChange(cfg: Config, s: State, step: Step, v: VmId)
    requires Inv(s) && Enabled(cfg, s, step) && !IsCleaning(step) && !IsAmbient(step) && v in s.t.vms
    ensures Active(Apply(cfg, s, step), v) == Active(s, v) + (if Counts(s, step, v) then 1 else 0)
  {
    CreatorRowChange(cfg, s, step, v);
  }

  lemma CreatorBalance(cfg: Config, s: State, step: Step, v: VmId)
    requires Inv(s) && Enabled(cfg, s, step) && !IsCleaning(step) && !IsAmbient(step)
    requires v in s.t.vms
    ensures Balance(Apply(cfg, s, step), v) == Balance(s, v) + Drift(s, step, v)
  {
    RowsChange(cfg, s, step, v);
    CounterChange(cfg, s, step, v);
    InsertedChange(cfg, s, step, v);
    SameRowsSameOwed(s, Apply(cfg, s, step), v);
  }

  lemma SameRowsSameOwed(s: State, n: State, v: VmId)
    requires Inv(s) && n.cleaner == s.cleaner
    requires forall id | id in s.usedEps :: id in n.t.eps <==> id in s.t.eps
    ensures Owed(n.t, Todo(n.cleaner), v) == Owed(s.t, Todo(s.cleaner), v) && Pending(n, v) == Pending(s, v)
  {
    OwedSame(s.t, n.t, Todo(s.cleaner), v);
  }

  /** A VM that a step adds starts balanced. */
  lemma NewVmBalanced(cfg: Config, s: State, step: Step, v: VmId)
    requires Inv(s) && Enabled(cfg, s, step) && v !in s.t.vms && v in Apply(cfg, s, step).t.vms
    ensures Balance(Apply(cfg, s, step), v) == 0
  {
    NewRow(cfg, s, step, v);
    CreatedBalanced(s, Apply(cfg, s, step), step.c, v);
  }

  lemma CreatedBalanced(s: State, n: State, c: ConvId, v: VmId)
    requires Inv(s) && v !in s.usedVms && v in n.t.vms && n.t.vms[v].active == 0
    requires n.creators == s.creators[c := Booting(v)] && n.t.eps == s.t.eps && n.cleaner == s.cleaner
    ensures Balance(n, v) == 0
  {
    assert EndpointsOn(n.t, v) == {};
    assert InsertedOn(n, v) == {};
    OwedNone(n.t, Todo(n.cleaner), v);
  }

  lemma CleanerBalance(cfg: Config, s: State, step: Step, v: VmId)
    requires Inv(s) && Enabled(cfg, s, step) && IsCleaning(step)
    requires v in s.t.vms && v in Apply(cfg, s, step).t.vms
    ensures Balance(Apply(cfg, s, step), v) == Balance(s, v) + Drift(s, step, v)
  {
    var n := Apply(cfg, s, step);
    assert InsertedOn(n, v) == InsertedOn(s, v);
    if step.DeleteRow? {
      DeleteRowBalance(s, n, v);
    } else if step.Decrement? {
      DecrementBalance(cfg, s, step, v);
    } else {
      assert EndpointsOn(n.t, v) == EndpointsOn(s.t, v);
      if step.ListIdle? {
        OwedNone(n.t, step.listing, v);
      }
    }
  }

  lemma DecrementBalance(cfg: Config, s: State, step: Step, v: VmId)
    requires Inv(s) && Enabled(cfg, s, step) && step.Decrement? && v in s.t.vms
    ensures Balance(Apply(cfg, s, step), v) == Balance(s, v) + Drift(s, step, v)
  {
    var n := Apply(cfg, s, step);
    assert InsertedOn(n, v) == InsertedOn(s, v);
    assert EndpointsOn(n.t, v) == EndpointsOn(s.t, v);
    OwedSame(s.t, n.t, s.cleaner.todo[1..], v);
  }

  lemma OneRowLess(t: Tables, id: EpId, v: VmId)
    ensures |EndpointsOn(DeleteEndpoint(t, id), v)| ==
            |EndpointsOn(t, v)| - if id in t.eps && t.eps[id].vm == v then 1 else 0
  {
    assert EndpointsOn(DeleteEndpoint(t, id), v) == EndpointsOn(t, v) - {id};
  }

  lemma DeleteRowBalance(s: State, n: State, v: VmId)
    requires Inv(s) && s.cleaner.Deleting? && v in s.t.vms
    requires n.t == DeleteEndpoint(s.t, s.cleaner.item.id) && n.cleaner == Sweeping(s.cleaner.todo) &&
             n.creators == s.creators
    ensures Balance(n, v) == Balance(s, v)
  {
    var item, todo := s.cleaner.item, s.cleaner.todo;
    assert InsertedOn(n, v) == InsertedOn(s, v);
    assert Todo(s.cleaner) == todo && forall i | 0 <= i < |todo| :: todo[i].id != item.id;
    OwedSame(s.t, n.t, todo, v);
    OneRowLess(s.t, item.id, v);
  }

  lemma AmbientBalance(cfg: Config, s: State, step: Step, v: VmId)
    requires Inv(s) && Enabled(cfg, s, step) && IsAmbient(step)
    requires v in s.t.vms && v in Apply(cfg, s, step).t.vms
    ensures Balance(Apply(cfg, s, step), v) == Balance(s, v) + Drift(s, step, v)
  {
    if step.DropConversation? {
      DropBalance(s, step.c, v);
    } else {
      AmbientRowChange(cfg, s, step, v);
      QuietBalance(s, Apply(cfg, s, step), v);
    }
  }

  lemma QuietBalance(s: State, n: State, v: VmId)
    requires Inv(s) && v in s.t.vms && v in n.t.vms && n.t.vms[v].active == s.t.vms[v].active
    requires n.creators == s.creators && n.cleaner == s.cleaner
    requires n.t.eps.Keys == s.t.eps.Keys && forall e | e in s.t.eps :: n.t.eps[e].vm == s.t.eps[e].vm
    ensures Balance(n, v) == Balance(s, v)
  {
    assert InsertedOn(n, v) == InsertedOn(s, v);
    assert EndpointsOn(n.t, v) == EndpointsOn(s.t, v);
    OwedSame(s.t, n.t, Todo(s.cleaner), v);
  }

  lemma DropBalance(s: State, c: ConvId, v: VmId)
    requires Inv(s) && v in s.t.vms
    ensures Balance(s.(t := DeleteConversation(s.t, c)), v) == Balance(s, v) + Drift(s, DropConversation(c), v)
  {
    var n := s.(t := DeleteConversation(s.t, c));
    if e :| e in s.t.eps && s.t.eps[e].conv == c && s.t.eps[e].vm == v {
      assert n.t.eps.Keys == s.t.eps.Keys - {e};
      DropRowBalance(s, n, v, e);
    } else {
      assert InsertedOn(n, v) == InsertedOn(s, v);
      assert EndpointsOn(n.t, v) == EndpointsOn(s.t, v);
      OwedSame(s.t, n.t, Todo(s.cleaner), v);
    }
  }

  lemma DropRowBalance(s: State, n: State, v: VmId, e: EpId)
    requires Inv(s) && v in s.t.vms && e in s.t.eps && s.t.eps[e].vm == v
    requires n.t.eps.Keys == s.t.eps.Keys - {e} && n == s.(t := DeleteConversation(s.t, s.t.eps[e].conv))
    ensures Balance(n, v) == Balance(s, v) + if InSweep(s.cleaner, e) then 0 else 1
  {
    var todo := Todo(s.cleaner);
    assert InsertedOn(n, v) == InsertedOn(s, v);
    assert EndpointsOn(n.t, v) == EndpointsOn(s.t, v) - {e};
    OwedRises(s.t, n.t, todo, v, e);
  }

  /** Conservation: a step changes the balance of a VM by exactly its drift. */
  lemma StepBalance(cfg: Config, s: State, step: Step, v: VmId)
    requires Inv(s) && Enabled(cfg, s, step)
    requires v in s.t.vms && v in Apply(cfg, s, step).t.vms
    ensures Balance(Apply(cfg, s, step), v) == Balance(s, v) + Drift(s, step, v)
  {
    if IsCleaning(step) {
      CleanerBalance(cfg, s, step, v);
    } else if IsAmbient(step) {
      AmbientBalance(cfg, s, step, v);
    } else {
      CreatorBalance(cfg, s, step, v);
    }
  }

  ghost function TotalDrift(cfg: Config, s: State, steps: seq<Step>, v: VmId): int
    requires IsRun(cfg, s, steps)
    decreases |steps|
  {
    if steps == [] then 0
    else
      var front := steps[..|steps| - 1];
      TotalDrift(cfg, s, front, v) + Drift(After(cfg, s, front), steps[|steps| - 1], v)
  }

  /** Over any run at all, with any calls failing, the balance of a VM changes by the sum of the drifts. */
  lemma {:induction false} BalanceLaw(cfg: Config, s: State, steps: seq<Step>, v: VmId)
    requires Inv(s) && IsRun(cfg, s, steps) && v in s.t.vms
    ensures v in After(cfg, s, steps).usedVms
    ensures v in After(cfg, s, steps).t.vms ==>
              Balance(After(cfg, s, steps), v) == Balance(s, v) + TotalDrift(cfg, s, steps, v)
  {
    if steps != [] {
      var front, last := steps[..|steps| - 1], steps[|steps| - 1];
      BalanceLaw(cfg, s, front, v);
      RunKeepsInv(cfg, s, front);
      VmNeverReturns(cfg, After(cfg, s, front), last, v);
      if v in After(cfg, s, steps).t.vms {
        StepBalance(cfg, After(cfg, s, front), last, v);
      }
    }
  }

  // ----- What the balance is good for -----

  ghost predicate NeverUnder(s: State) {
    forall v | v in s.t.vms :: Balance(s, v) >= 0
  }

  /** The two failures that make a counter fall below the rows it should count. */
  predicate LosesCount(step: Step) {
    step.IncrementFails? || step.DeleteRowFails?
  }

  lemma StepFailures(cfg: Config, s: State, step: Step)
    requires Enabled(cfg, s, step)
    ensures Apply(cfg, s, step).failed >= s.failed + if LosesCount(step) then 1 else 0
  {
  }

  /** Where no write has failed none of these has. */
  lemma {:induction false} NothingLost(cfg: Config, s: State, steps: seq<Step>)
    requires IsRun(cfg, s, steps)
    ensures After(cfg, s, steps).failed >= s.failed
    ensures After(cfg, s, steps).failed == s.failed ==> forall step | step in steps :: !LosesCount(step)
  {
    if steps != [] {
      var front, last := steps[..|steps| - 1], steps[|steps| - 1];
      NothingLost(cfg, s, front);
      StepFailures(cfg, After(cfg, s, front), last);
      assert steps == front + [last];
    }
  }

  lemma StepKeepsNeverUnder(cfg: Config, s: State, step: Step)
    requires Inv(s) && NeverUnder(s) && Enabled(cfg, s, step) && !LosesCount(step)
    ensures NeverUnder(Apply(cfg, s, step))
  {
    var n := Apply(cfg, s, step);
    forall v | v in n.t.vms ensures Balance(n, v) >= 0 {
      if v in s.t.vms {
        StepBalance(cfg, s, step, v);
        assert Drift(s, step, v) >= 0;
      } else {
        NewVmBalanced(cfg, s, step, v);
      }
    }
  }

  /** Counter safety: while no increment and no row delete fails, every VM's counter, corrected for the
      operations in progress, covers its endpoint rows. */
  lemma {:induction false} RunKeepsNeverUnder(cfg: Config, s: State, steps: seq<Step>)
    requires Inv(s) && NeverUnder(s) && IsRun(cfg, s, steps)
    requires forall step | step in steps :: !LosesCount(step)
    ensures NeverUnder(After(cfg, s, steps))
  {
    if steps != [] {
      var front := steps[..|steps| - 1];
      RunKeepsNeverUnder(cfg, s, front);
      RunKeepsInv(cfg, s, front);
      StepKeepsNeverUnder(cfg, After(cfg, s, front), steps[|steps| - 1]);
    }
  }

  /** When the sweep asks for idle VMs, a VM it gets has no endpoint row but those whose increment is
      still to come; with no such creator the delete is not blocked by the foreign key. */
  lemma IdleVmHasNoRows(cfg: Config, s: State, v: VmId, before: int)
    requires Inv(s) && NeverUnder(s) && s.cleaner == Sweeping([]) && IdleVm(s.t, v, before)
    ensures |EndpointsOn(s.t, v)| <= |InsertedOn(s, v)|
    ensures InsertedOn(s, v) == {} ==> EndpointsOn(s.t, v) == {} && CanDeleteVm(s.t, v)
  {
    assert Balance(s, v) >= 0;
    if InsertedOn(s, v) == {} {
      assert EndpointsOn(s.t, v) == {};
      forall e | e in s.t.eps ensures s.t.eps[e].vm != v {
        assert e !in EndpointsOn(s.t, v);
      }
    }
  }

  /** Every creator on v between its insert and its increment has its row, and it is not row `id`. */
  ghost predicate OwnRows(s: State, v: VmId, id: EpId) {
    forall c | c in InsertedOn(s, v) :: exists e :: e in EndpointsOn(s.t, v) && s.t.eps[e].conv == c && e != id
  }

  /** Nothing fails that the counter depends on, no conversation is deleted, and the sweep counts off no
      row that has yet to be counted. */
  ghost predicate Careful(cfg: Config, s: State, steps: seq<Step>)
    requires IsRun(cfg, s, steps)
    decreases |steps|
  {
    steps == [] ||
    var front, last := steps[..|steps| - 1], steps[|steps| - 1];
    && Careful(cfg, s, front)
    && !LosesCount(last) && !last.DropConversation?
    && (last.Decrement? ==> last.ok && CountsOffCounted(After(cfg, s, front)))
  }

  ghost predicate CountsOffCounted(s: State) {
    s.cleaner.Sweeping? && s.cleaner.todo != [] ==> OwnRows(s, s.cleaner.todo[0].ep.vm, s.cleaner.todo[0].id)
  }

  /** On careful runs the counter is exact. */
  lemma {:induction false} CarefulRunsStayExact(cfg: Config, s: State, steps: seq<Step>)
    requires Inv(s) && IsRun(cfg, s, steps) && Careful(cfg, s, steps)
    requires forall v | v in s.t.vms :: Balance(s, v) == 0
    ensures forall v | v in After(cfg, s, steps).t.vms :: Balance(After(cfg, s, steps), v) == 0
  {
    if steps != [] {
      var front, last := steps[..|steps| - 1], steps[|steps| - 1];
      CarefulRunsStayExact(cfg, s, front);
      RunKeepsInv(cfg, s, front);
      var m := After(cfg, s, front);
      forall v | v in Apply(cfg, m, last).t.vms ensures Balance(Apply(cfg, m, last), v) == 0 {
        if v in m.t.vms {
          StepBalance(cfg, m, last, v);
          if last.Decrement? && m.cleaner.todo[0].ep.vm == v {
            DecrementNotSaturated(m, v);
          }
        } else {
          NewVmBalanced(cfg, m, last, v);
        }
      }
    }
  }

  lemma DecrementNotSaturated(s: State, v: VmId)
    requires Inv(s) && Balance(s, v) == 0 && CountsOffCounted(s)
    requires s.cleaner.Sweeping? && s.cleaner.todo != [] && s.cleaner.todo[0].ep.vm == v
    ensures Active(s, v) > 0
  {
    var item := s.cleaner.todo[0];
    InsertedHaveRows(s, v, item.id, InsertedOn(s, v));
    var others := EndpointsOn(s.t, v) - {item.id};
    SubsetSize(RowsOf(s, v, item.id, InsertedOn(s, v)), others);
    if item.id in s.t.eps {
      assert EndpointsOn(s.t, v) == others + {item.id};
    } else {
      assert EndpointsOn(s.t, v) == others;
    }
  }

  /** The rows, other than row `id`, of some of the conversations. */
  function RowsOf(s: State, v: VmId, id: EpId, convs: set<ConvId>): set<EpId> {
    set e | e in EndpointsOn(s.t, v) && e != id && s.t.eps[e].conv in convs
  }

  lemma {:induction false} InsertedHaveRows(s: State, v: VmId, id: EpId, convs: set<ConvId>)
    requires OwnRows(s, v, id) && convs <= InsertedOn(s, v)
    ensures |convs| <= |RowsOf(s, v, id, convs)|
    decreases convs
  {
    if convs != {} {
      var c :| c in convs;
      InsertedHaveRows(s, v, id, convs - {c});
      var e :| e in EndpointsOn(s.t, v) && s.t.eps[e].conv == c && e != id;
      var fewer := RowsOf(s, v, id, convs - {c});
      assert fewer + {e} <= RowsOf(s, v, id, convs);
      SubsetSize(fewer + {e}, RowsOf(s, v, id, convs));
    }
  }

  // ----- Where every uncounted insert has its row -----

  /** Row e is the one this creator inserted, and the sweep is not deleting it. */
  predicate RowOf(s: State, c: ConvId, e: EpId) {
    && c in s.creators && s.creators[c].Inserted?
    && e in s.t.eps && s.t.eps[e].vm == s.creators[c].vm && s.t.eps[e].conv == c
    && !(s.cleaner.Deleting? && s.cleaner.item.id == e)
  }

  /** Every creator between its insert and its increment has such a row. */
  ghost predicate HaveRows(s: State) {
    forall c | c in s.creators && s.creators[c].Inserted? :: exists e :: RowOf(s, c, e)
  }

  /** The row the sweep is about to count off is not the row of such a creator. */
  predicate TodoIsCounted(s: State) {
    s.cleaner.Sweeping? && s.cleaner.todo != [] && s.cleaner.todo[0].id in s.t.eps ==>
      var c := s.t.eps[s.cleaner.todo[0].id].conv; c in s.creators ==> !s.creators[c].Inserted?
  }

  ghost predicate SweepsCounted(cfg: Config, s: State, steps: seq<Step>)
    requires IsRun(cfg, s, steps)
    decreases |steps|
  {
    steps == [] ||
    var front, last := steps[..|steps| - 1], steps[|steps| - 1];
    && SweepsCounted(cfg, s, front)
    && !LosesCount(last) && !last.DropConversation?
    && (last.Decrement? ==> last.ok && TodoIsCounted(After(cfg, s, front)))
  }

  lemma CreatorKeepsRow(cfg: Config, s: State, step: Step, c: ConvId, e: EpId)
    requires Inv(s) && Enabled(cfg, s, step) && !IsCleaning(step) && !IsAmbient(step)
    requires RowOf(s, c, e) && c in Apply(cfg, s, step).creators
    ensures RowOf(Apply(cfg, s, step), c, e)
  {
    EpsChange(cfg, s, step);
  }

  lemma CleanerKeepsRow(cfg: Config, s: State, step: Step, c: ConvId, e: EpId)
    requires Enabled(cfg, s, step) && IsCleaning(step) && (step.Decrement? ==> TodoIsCounted(s)) && RowOf(s, c, e)
    ensures RowOf(Apply(cfg, s, step), c, e)
  {
  }

  lemma AmbientKeepsRow(cfg: Config, s: State, step: Step, c: ConvId, e: EpId)
    requires Enabled(cfg, s, step) && IsAmbient(step) && !step.DropConversation? && RowOf(s, c, e)
    ensures RowOf(Apply(cfg, s, step), c, e)
  {
  }

  /** Only an insert makes an uncounted creator, and its row with it. */
  lemma UncountedBefore(cfg: Config, s: State, step: Step, c: ConvId)
    requires Inv(s) && Enabled(cfg, s, step)
    requires c in Apply(cfg, s, step).creators && Apply(cfg, s, step).creators[c].Inserted?
    ensures (step.Insert? && step.c == c && RowOf(Apply(cfg, s, step), c, step.newEp)) ||
            (c in s.creators && s.creators[c].Inserted?)
  {
  }

  lemma StepKeepsRows(cfg: Config, s: State, step: Step)
    requires Inv(s) && HaveRows(s) && Enabled(cfg, s, step)
    requires !step.DropConversation? && (step.Decrement? ==> TodoIsCounted(s))
    ensures HaveRows(Apply(cfg, s, step))
  {
    var n := Apply(cfg, s, step);
    forall c | c in n.creators && n.creators[c].Inserted? ensures exists e :: RowOf(n, c, e) {
      UncountedBefore(cfg, s, step, c);
      if c in s.creators && s.creators[c].Inserted? {
        var e :| RowOf(s, c, e);
        if IsCleaning(step) {
          CleanerKeepsRow(cfg, s, step, c, e);
        } else if IsAmbient(step) {
          AmbientKeepsRow(cfg, s, step, c, e);
        } else {
          CreatorKeepsRow(cfg, s, step, c, e);
        }
      }
    }
  }

  /** From a state in which they have their rows, it is enough that the sweep counts off no uncounted one. */
  lemma {:induction false} SweepsCountedIsCareful(cfg: Config, s: State, steps: seq<Step>)
    requires Inv(s) && IsRun(cfg, s, steps) && HaveRows(s) && SweepsCounted(cfg, s, steps)
    ensures Careful(cfg, s, steps) && HaveRows(After(cfg, s, steps))
  {
    if steps != [] {
      var front, last := steps[..|steps| - 1], steps[|steps| - 1];
      SweepsCountedIsCareful(cfg, s, front);
      RunKeepsInv(cfg, s, front);
      var m := After(cfg, s, front);
      StepKeepsRows(cfg, m, last);
      if last.Decrement? {
        TodoOwnRows(m);
      }
    }
  }

  lemma TodoOwnRows(s: State)
    requires Inv(s) && HaveRows(s) && TodoIsCounted(s)
    ensures CountsOffCounted(s)
  {
    if s.cleaner.Sweeping? && s.cleaner.todo != [] {
      var v, id := s.cleaner.todo[0].ep.vm, s.cleaner.todo[0].id;
      forall c | c in InsertedOn(s, v)
        ensures exists e :: e in EndpointsOn(s.t, v) && s.t.eps[e].conv == c && e != id
      {
        var e :| RowOf(s, c, e);
        assert e in EndpointsOn(s.t, v);
      }
    }
  }

  /** Else exactness is lost: c's row falls idle before it is counted, and the sweep counts it off at zero. */
  lemma UncountedSwept(c: ConvId) returns (steps: seq<Step>, s: State)
    ensures var s0 := OneVm(0, {c});
            && Inv(s0) && HaveRows(s0) && (forall v | v in s0.t.vms :: Balance(s0, v) == 0)
            && Leads(ROOMY, s0, steps, s) && forall step | step in steps :: !LosesCount(step)
    ensures 0 in s.t.vms && Balance(s, 0) == 1
  {
    var s0 := OneVm(0, {c});
    assert EndpointsOn(s0.t, 0) == {} && InsertedOn(s0, 0) == {};
    steps, s := InsertedOnce(c);
    steps, s := CountOffPath(ROOMY, s0, steps, s, 1, 0, 10);
    NothingLost(ROOMY, s0, steps);
    CountedOffAtZero(s, c);
  }

  lemma CountedOffAtZero(s: State, c: ConvId)
    requires s.creators == map[c := Inserted(0)] && s.t.eps.Keys == {0} && s.t.eps[0].vm == 0
    requires s.cleaner.Deleting? && s.cleaner.item == Listed(0, s.t.eps[0]) && s.cleaner.todo == []
    requires 0 in s.t.vms && s.t.vms[0].active == 0
    ensures Balance(s, 0) == 1
  {
    assert EndpointsOn(s.t, 0) == {0} && InsertedOn(s, 0) == {c};
  }

  lemma InsertedOnce(c: ConvId) returns (steps: seq<Step>, s: State)
    ensures Reaches(ROOMY, OneVm(0, {c}), steps, s, 1)
    ensures s == OneVm(0, {c}).(t := InsertEndpoint(OneVm(0, {c}).t, 0, c, 0, "agent", 1, 0),
                                creators := map[c := Inserted(0)],
                                usedEps := {0})
  {
    var s0 := OneVm(0, {c});
    assert Fullest(s0.t, 0, ROOMY.max);
    steps, s := PickPath(ROOMY, s0, [], s0, 1, c, 0);
    assert !Taken(s.t, 0, 1);
    steps, s := AgentPath(ROOMY, s0, steps, s, 1, c, 1);
    steps, s := InsertPath(ROOMY, s0, steps, s, 1, c, 0, 0);
    assert s.creators == map[c := Inserted(0)];
  }
}
