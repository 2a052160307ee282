/**
 CleanupOrphans: one pass that removes idle sessions and then VMs that count as empty.  Like the session
 path it returns the allocator steps it took; whether passes that interleave with slow paths can hit a live
 session is settled in SweepSafety.dfy.
 */
module Cleanup {
  import opened Wrappers
  import opened Tables
  import opened Allocator
  import opened Counters
  import opened Containers
  import opened Provider

  /** How many of the rows swept were on v. */
  function CountOn(done: seq<Listed>, v: VmId): nat {
    if done == [] then 0
    else CountOn(done[..|done| - 1], v) + if done[|done| - 1].ep.vm == v then 1 else 0
  }

  function Less(active: nat, count: nat): nat {
    if active > count then active - count else 0
  }

  /** Exactly the rows swept are gone. */
  ghost predicate SweptRows(t: Tables, u: Tables, done: seq<Listed>) {
    && u.convs == t.convs
    && (forall e :: e in u.eps <==> e in t.eps && forall i | 0 <= i < |done| :: done[i].id != e)
    && (forall e | e in u.eps :: u.eps[e] == t.eps[e])
  }

  /** A VM row after n rows on it were swept: counter and idle time aside it is unchanged, and altogether if
      there were none; if the counter fell to zero, or the idle time changed, it was stamped, not before `from`;
      if every count-off was written, the counter fell by n, and not below zero. */
  predicate CountedOff(was: Vm, now: Vm, n: nat, counted: bool, from: int) {
    && now.(active := 0, idleSince := None) == was.(active := 0, idleSince := None)
    && (n == 0 ==> now == was)
    && (now.active == 0 < was.active || now.idleSince != was.idleSince ==>
          now.active == 0 && now.idleSince.Some? && now.idleSince.value >= from)
    && (counted ==> now.active == Less(was.active, n))
  }

  ghost predicate SweptCounts(t: Tables, u: Tables, done: seq<Listed>, counted: bool, from: int) {
    && u.vms.Keys == t.vms.Keys
    && forall v | v in t.vms :: CountedOff(t.vms[v], u.vms[v], CountOn(done, v), counted, from)
  }

  ghost predicate Swept(t: Tables, u: Tables, done: seq<Listed>, counted: bool, from: int) {
    SweptRows(t, u, done) && SweptCounts(t, u, done, counted, from)
  }

  lemma OneMoreRowSwept(t: Tables, m: Tables, u: Tables, done: seq<Listed>, item: Listed)
    requires SweptRows(t, m, done) && u.eps == m.eps - {item.id} && u.convs == m.convs
    ensures SweptRows(t, u, done + [item])
  {
    var more := done + [item];
    assert more[|done|] == item && forall i | 0 <= i < |done| :: more[i] == done[i];
  }

  lemma OneMoreCounted(t: Tables, m: Tables, u: Tables, done: seq<Listed>, counted: bool, from: int, item: Listed,
                       ok: bool, now: int)
    requires SweptCounts(t, m, done, counted, from) && from <= now
    requires u.vms == (if ok then DecrementActive(m, item.ep.vm, now) else m).vms
    ensures SweptCounts(t, u, done + [item], counted && ok, from)
  {
    var more := done + [item];
    assert more[..|more| - 1] == done && more[|done|] == item;
    forall v | v in t.vms ensures CountedOff(t.vms[v], u.vms[v], CountOn(more, v), counted && ok, from) {
      assert CountedOff(t.vms[v], m.vms[v], CountOn(done, v), counted, from);
    }
  }

  lemma SweptOneMore(t: Tables, m: Tables, done: seq<Listed>, counted: bool, from: int, item: Listed, ok: bool, now: int)
    requires Swept(t, m, done, counted, from) && from <= now
    ensures var u := DeleteEndpoint(if ok then DecrementActive(m, item.ep.vm, now) else m, item.id);
            Swept(t, u, done + [item], counted && ok, from)
  {
    var u := DeleteEndpoint(if ok then DecrementActive(m, item.ep.vm, now) else m, item.id);
    OneMoreRowSwept(t, m, u, done, item);
    OneMoreCounted(t, m, u, done, counted, from, item, ok, now);
  }

  /** Whatever happened, no row but those listed was touched. */
  ghost predicate OnlyListedGo(t: Tables, u: Tables, listing: seq<Listed>) {
    && u.eps.Keys <= t.eps.Keys
    && forall e | e in t.eps && forall i | 0 <= i < |listing| :: listing[i].id != e :: e in u.eps && u.eps[e] == t.eps[e]
  }

  /** No container appeared, and those that changed or went belong to the rows swept. */
  ghost predicate OnlyDiscards(before: map<Key, Container>, after: map<Key, Container>,
                               done: seq<Listed>) {
    && after.Keys <= before.Keys
    && forall key | key in before && (key !in after || after[key] != before[key]) ::
         exists i :: 0 <= i < |done| && key == (done[i].ep.vm, done[i].ep.container)
  }

  lemma DiscardsOneMore(before: map<Key, Container>, mid: map<Key, Container>,
                        after: map<Key, Container>, done: seq<Listed>, item: Listed)
    requires OnlyDiscards(before, mid, done) && after.Keys <= mid.Keys
    requires forall key | key in mid && key != (item.ep.vm, item.ep.container) :: key in after && after[key] == mid[key]
    ensures OnlyDiscards(before, after, done + [item])
  {
    var more := done + [item];
    forall key | key in before && (key !in after || after[key] != before[key])
      ensures exists i :: 0 <= i < |more| && key == (more[i].ep.vm, more[i].ep.container)
    {
      if key == (item.ep.vm, item.ep.container) {
        assert more[|done|] == item;
      } else {
        var i :| 0 <= i < |done| && key == (done[i].ep.vm, done[i].ep.container);
        assert more[i] == done[i];
      }
    }
  }

  /** Only cleaning steps, none of which costs the counter a row; if `counted`, no count-off failed. */
  ghost predicate StepsOk(steps: seq<Step>, counted: bool) {
    forall step | step in steps :: IsCleaning(step) && !LosesCount(step) && (counted && step.Decrement? ==> step.ok)
  }

  ghost predicate Exact(s: State) {
    forall v | v in s.t.vms :: Balance(s, v) == 0
  }

  lemma {:induction false} CleaningIsCareful(cfg: Config, s: State, steps: seq<Step>)
    requires IsRun(cfg, s, steps) && s.creators == map[] && StepsOk(steps, true)
    ensures Careful(cfg, s, steps) && After(cfg, s, steps).creators == map[]
  {
    if steps != [] {
      CleaningIsCareful(cfg, s, steps[..|steps| - 1]);
      assert steps[|steps| - 1] in steps;
    }
  }

  /** The VM has a row, with the address its container-manager is reached at. */
  predicate Addressable(t: Tables, v: VmId) {
    v in t.vms && t.vms[v].ip != ""
  }

  /** The containers of the rows swept are gone, on VMs that can be reached. */
  ghost predicate ContainersGone(t: Tables, containers: map<Key, Container>, done: seq<Listed>) {
    forall i | 0 <= i < |done| :: Addressable(t, done[i].ep.vm) ==> (done[i].ep.vm, done[i].ep.container) !in containers
  }

  /** What a sweep has done to the containers; if `clean`, nothing failed. */
  ghost predicate Emptied(before: map<Key, Container>, after: map<Key, Container>, t: Tables,
                          done: seq<Listed>, clean: bool) {
    OnlyDiscards(before, after, done) && (clean ==> ContainersGone(t, after, done))
  }

  lemma EmptiedOneMore(before: map<Key, Container>, mid: map<Key, Container>,
                       after: map<Key, Container>, t: Tables, done: seq<Listed>, item: Listed, clean: bool, still: bool)
    requires Emptied(before, mid, t, done, clean) && after.Keys <= mid.Keys && (still ==> clean)
    requires forall key | key in mid && key != (item.ep.vm, item.ep.container) :: key in after && after[key] == mid[key]
    requires still && Addressable(t, item.ep.vm) ==> (item.ep.vm, item.ep.container) !in after
    ensures Emptied(before, after, t, done + [item], still)
  {
    DiscardsOneMore(before, mid, after, done, item);
    var more := done + [item];
    assert more[|done|] == item && forall i | 0 <= i < |done| :: more[i] == done[i];
  }

  /** Reads and calls that failed, and containers not removed: all that can keep a container of a swept row. */
  ghost function Missed(p: GceProvider): nat
    reads p.net`faults, p.fleet`stranded
  {
    p.net.faults + p.fleet.stranded
  }

  lemma DiscardedElsewhere(before: map<Key, Container>, after: map<Key, Container>, key: Key, leaked: bool)
    requires Discarded(before, after, key, leaked)
    ensures after.Keys <= before.Keys
    ensures forall other | other in before && other != key :: other in after && after[other] == before[other]
  {
    forall other | other in before && other != key ensures other in after && after[other] == before[other] {
      assert other in before - {key} && (before - {key})[other] == before[other];
      assert other in after - {key} && (after - {key})[other] == after[other];
    }
  }

  /** The container of a listed row: found through its VM's address, stopped and removed, errors ignored. */
  method DiscardContainer(p: GceProvider, item: Listed)
    modifies p.fleet, p.net
    ensures p.Faults() >= old(p.Faults())
    ensures Missed(p) >= old(Missed(p))
    ensures Missed(p) == old(Missed(p)) && Addressable(p.db.View(), item.ep.vm) ==>
              (item.ep.vm, item.ep.container) !in p.fleet.containers
    ensures p.net.faults == old(p.net.faults) && Addressable(p.db.View(), item.ep.vm) ==>
              && p.fleet.removes == old(p.fleet.removes) + [(item.ep.vm, item.ep.container)]
              && p.net.dialed == old(p.net.dialed) + [p.db.vms[item.ep.vm].ip]
    ensures p.fleet.containers.Keys <= old(p.fleet.containers).Keys
    ensures forall key | key in old(p.fleet.containers) && key != (item.ep.vm, item.ep.container) ::
              key in p.fleet.containers && p.fleet.containers[key] == old(p.fleet.containers)[key]
  {
    var reached := p.net.Call();
    var vm := p.db.GetVMInstance(item.ep.vm, reached);
    if vm.Row? && vm.row.ip != "" {
      var client := p.net.Dial(vm.row.ip);
      if client {
        ghost var world := p.fleet.containers;
        var removed := p.Discard(item.ep.vm, item.ep.container);
        DiscardedElsewhere(world, p.fleet.containers, (item.ep.vm, item.ep.container), !removed);
      }
    }
  }

  /** One idle session. */
  method SweepOne(p: GceProvider, item: Listed, ghost s0: State, ghost before: seq<Step>, ghost s: State)
    returns (ok: bool, counted: bool, ghost now: int, ghost steps: seq<Step>, ghost u: State)
    requires Shows(p.db, s) && Leads(p.cfg, s0, before, s)
    requires s.cleaner.Sweeping? && s.cleaner.todo != [] && s.cleaner.todo[0] == item
    modifies p.db`vms, p.db`eps, p.db`failed, p.db`now, p.fleet, p.net
    ensures old(p.db.now) <= now <= p.db.now
    ensures Shows(p.db, u) && Leads(p.cfg, s0, steps, u) && p.Faults() >= old(p.Faults()) + u.failed - s.failed
    ensures var m := if counted then DecrementActive(s.t, item.ep.vm, now) else s.t;
            && u == s.(t := if ok then DeleteEndpoint(m, item.id) else m,
                       cleaner := if ok then Sweeping(s.cleaner.todo[1..]) else Resting,
                       failed := s.failed + Failing(counted) + Failing(ok))
            && steps == before + [Decrement(counted, now), if ok then DeleteRow else DeleteRowFails]
    ensures Missed(p) >= old(Missed(p))
    ensures Missed(p) == old(Missed(p)) && Addressable(s.t, item.ep.vm) ==>
              (item.ep.vm, item.ep.container) !in p.fleet.containers
    ensures p.net.faults == old(p.net.faults) && Addressable(s.t, item.ep.vm) ==>
              p.fleet.removes == old(p.fleet.removes) + [(item.ep.vm, item.ep.container)]
    ensures p.fleet.containers.Keys <= old(p.fleet.containers).Keys
    ensures forall key | key in old(p.fleet.containers) && key != (item.ep.vm, item.ep.container) ::
              key in p.fleet.containers && p.fleet.containers[key] == old(p.fleet.containers)[key]
  {
    DiscardContainer(p, item);
    ok, counted, now, steps, u := CountOff(p, item, s0, before, s);
  }

  method CountOff(p: GceProvider, item: Listed, ghost s0: State, ghost before: seq<Step>, ghost s: State)
    returns (ok: bool, counted: bool, ghost now: int, ghost steps: seq<Step>, ghost u: State)
    requires Shows(p.db, s) && Leads(p.cfg, s0, before, s)
    requires s.cleaner.Sweeping? && s.cleaner.todo != [] && s.cleaner.todo[0] == item
    modifies p.db`vms, p.db`eps, p.db`failed, p.db`now
    ensures old(p.db.now) <= now <= p.db.now
    ensures Shows(p.db, u) && Leads(p.cfg, s0, steps, u)
    ensures var m := if counted then DecrementActive(s.t, item.ep.vm, now) else s.t;
            && u == s.(t := if ok then DeleteEndpoint(m, item.id) else m,
                       cleaner := if ok then Sweeping(s.cleaner.todo[1..]) else Resting,
                       failed := s.failed + Failing(counted) + Failing(ok))
            && steps == before + [Decrement(counted, now), if ok then DeleteRow else DeleteRowFails]
  {
    counted := p.db.DecrementVMActiveContainers(item.ep.vm);
    now := p.db.now;
    steps, u := Take(p.cfg, s0, before, s, Decrement(counted, now));
    ok, steps, u := DeleteSwept(p, item, s0, steps, u);
  }

  method DeleteSwept(p: GceProvider, item: Listed, ghost s0: State, ghost before: seq<Step>, ghost s: State)
    returns (ok: bool, ghost steps: seq<Step>, ghost u: State)
    requires Shows(p.db, s) && Leads(p.cfg, s0, before, s) && s.cleaner.Deleting? && s.cleaner.item == item
    modifies p.db`eps, p.db`failed
    ensures Shows(p.db, u) && Leads(p.cfg, s0, steps, u)
    ensures u == s.(t := if ok then DeleteEndpoint(s.t, item.id) else s.t,
                    cleaner := if ok then Sweeping(s.cleaner.todo) else Resting,
                    failed := s.failed + Failing(ok))
    ensures steps == before + [if ok then DeleteRow else DeleteRowFails]
  {
    ok := p.db.DeleteSessionEndpoint(item.id);
    steps, u := Take(p.cfg, s0, before, s, if ok then DeleteRow else DeleteRowFails);
  }

  datatype Sweep = ListFailed | RowLeft | AllSwept

  /** Every idle row and no other is gone. */
  ghost predicate NoIdleLeft(t: Tables, u: Tables, before: int) {
    && (forall e :: e in u.eps <==> e in t.eps && !IdleEndpoint(t.eps[e], before))
    && (forall e | e in u.eps :: u.eps[e] == t.eps[e])
  }

  lemma SweptAll(t: Tables, u: Tables, listing: seq<Listed>, counted: bool, from: int, before: int)
    requires Swept(t, u, listing, counted, from) && ListsIdle(t, listing, before)
    ensures NoIdleLeft(t, u, before)
  {
    forall e ensures e in u.eps <==> e in t.eps && !IdleEndpoint(t.eps[e], before) {
      if e in t.eps && IdleEndpoint(t.eps[e], before) {
        var i :| 0 <= i < |listing| && listing[i] == Listed(e, t.eps[e]);
        assert listing[i].id == e;
      }
    }
  }

  /** The first i listed rows are swept. */
  ghost predicate Progress(s: State, u: State, listing: seq<Listed>, i: nat, counted: bool, from: int)
    requires i <= |listing|
  {
    u.creators == s.creators && u.cleaner == Sweeping(listing[i..]) && Swept(s.t, u.t, listing[..i], counted, from)
  }

  lemma StillOnlyListed(t: Tables, m: Tables, u: Tables, listing: seq<Listed>, i: nat, counted: bool, from: int)
    requires i < |listing| && Swept(t, m, listing[..i], counted, from)
    requires u.eps == m.eps || u.eps == m.eps - {listing[i].id}
    ensures OnlyListedGo(t, u, listing)
  {
    forall e | e in t.eps && forall k | 0 <= k < |listing| :: listing[k].id != e ensures e in u.eps && u.eps[e] == t.eps[e] {
      assert forall k | 0 <= k < i :: listing[..i][k] == listing[k];
    }
  }

  method SweepNext(p: GceProvider, listing: seq<Listed>, i: nat, allCounted: bool, ghost from: int, ghost s0: State,
                   ghost before: seq<Step>, ghost s: State)
    returns (ok: bool, counted: bool, ghost steps: seq<Step>, ghost u: State)
    requires Shows(p.db, s) && Leads(p.cfg, s0, before, s) && StepsOk(before, allCounted)
    requires i < |listing| && Progress(s0, s, listing, i, allCounted, from) && from <= p.db.now
    modifies p.db`vms, p.db`eps, p.db`failed, p.db`now, p.fleet, p.net
    ensures Shows(p.db, u) && Leads(p.cfg, s0, steps, u) && u.failed >= s.failed && from <= old(p.db.now) <= p.db.now
    ensures OnlyListedGo(s0.t, u.t, listing)
    ensures p.Faults() >= old(p.Faults()) + u.failed - s.failed
    ensures ok ==> Progress(s0, u, listing, i + 1, counted, from) && StepsOk(steps, counted)
    ensures !ok ==> u.creators == s.creators && u.cleaner == Resting && u.t.vms.Keys == s.t.vms.Keys
    ensures !ok || (allCounted && !counted) ==> u.failed > s.failed
    ensures Missed(p) >= old(Missed(p))
    ensures Missed(p) == old(Missed(p)) && Addressable(s0.t, listing[i].ep.vm) ==>
              (listing[i].ep.vm, listing[i].ep.container) !in p.fleet.containers
    ensures p.fleet.containers.Keys <= old(p.fleet.containers).Keys
    ensures forall key | key in old(p.fleet.containers) && key != (listing[i].ep.vm, listing[i].ep.container) ::
              key in p.fleet.containers && p.fleet.containers[key] == old(p.fleet.containers)[key]
  {
    var once;
    ghost var now;
    assert Addressable(s0.t, listing[i].ep.vm) ==> Addressable(s.t, listing[i].ep.vm);
    ok, once, now, steps, u := SweepOne(p, listing[i], s0, before, s);
    counted := allCounted && once;
    if ok {
      assert listing[..i + 1] == listing[..i] + [listing[i]];
      SweptOneMore(s0.t, s.t, listing[..i], allCounted, from, listing[i], once, now);
    }
    StillOnlyListed(s0.t, s.t, u.t, listing, i, allCounted, from);
  }

  /** The same, on top of what the earlier ones did to the containers, which began as `world`. */
  method SweepOnward(p: GceProvider, listing: seq<Listed>, i: nat, allCounted: bool, ghost from: int,
                     ghost world: map<Key, Container>, ghost missed: nat, ghost s0: State, ghost before: seq<Step>,
                     ghost s: State)
    returns (ok: bool, counted: bool, ghost steps: seq<Step>, ghost u: State)
    requires Shows(p.db, s) && Leads(p.cfg, s0, before, s) && StepsOk(before, allCounted)
    requires i < |listing| && Progress(s0, s, listing, i, allCounted, from) && from <= p.db.now
    requires Emptied(world, p.fleet.containers, s0.t, listing[..i], Missed(p) == missed) && Missed(p) >= missed
    modifies p.db`vms, p.db`eps, p.db`failed, p.db`now, p.fleet, p.net
    ensures Shows(p.db, u) && Leads(p.cfg, s0, steps, u) && u.failed >= s.failed && from <= old(p.db.now) <= p.db.now
    ensures p.Faults() >= old(p.Faults()) + u.failed - s.failed
    ensures ok ==> Progress(s0, u, listing, i + 1, counted, from) && StepsOk(steps, counted)
    ensures !ok ==>
              u.creators == s.creators && u.cleaner == Resting && u.t.vms.Keys == s.t.vms.Keys && OnlyListedGo(s0.t, u.t, listing)
    ensures !ok || (allCounted && !counted) ==> u.failed > s.failed
    ensures Emptied(world, p.fleet.containers, s0.t, listing[..i + 1], Missed(p) == missed) && Missed(p) >= missed
  {
    ghost var mid, clean := p.fleet.containers, Missed(p) == missed;
    ok, counted, steps, u := SweepNext(p, listing, i, allCounted, from, s0, before, s);
    assert listing[..i + 1] == listing[..i] + [listing[i]];
    EmptiedOneMore(world, mid, p.fleet.containers, s0.t, listing[..i], listing[i], clean, Missed(p) == missed);
  }

  method SweepListed(p: GceProvider, listing: seq<Listed>, ghost from: int, ghost s0: State, ghost before: seq<Step>,
                     ghost s: State)
    returns (ok: bool, counted: bool, ghost steps: seq<Step>, ghost u: State)
    requires Shows(p.db, s) && Leads(p.cfg, s0, before, s) && StepsOk(before, true)
    requires Progress(s0, s, listing, 0, true, from) && from <= p.db.now
    modifies p.db`vms, p.db`eps, p.db`failed, p.db`now, p.fleet, p.net
    ensures Shows(p.db, u) && Leads(p.cfg, s0, steps, u) && u.failed >= s.failed && old(p.db.now) <= p.db.now
    ensures OnlyListedGo(s0.t, u.t, listing)
    ensures p.Faults() >= old(p.Faults()) + u.failed - s.failed
    ensures ok ==> Progress(s0, u, listing, |listing|, counted, from) && StepsOk(steps, counted)
    ensures !ok ==> u.creators == s0.creators && u.cleaner == Resting && u.t.vms.Keys == s0.t.vms.Keys
    ensures !ok || !counted ==> u.failed > s.failed
    ensures Emptied(old(p.fleet.containers), p.fleet.containers, s0.t, listing, ok && Missed(p) == old(Missed(p)))
    ensures Missed(p) >= old(Missed(p))
  {
    ok, counted, steps, u := true, true, before, s;
    ghost var world, faults, missed := p.fleet.containers, p.Faults(), Missed(p);
    for i := 0 to |listing|
      invariant Shows(p.db, u) && Leads(p.cfg, s0, steps, u) && u.failed >= s.failed &&
                p.Faults() >= faults + u.failed - s.failed
      invariant ok && from <= old(p.db.now) <= p.db.now
      invariant Progress(s0, u, listing, i, counted, from) && StepsOk(steps, counted) && (!counted ==> u.failed > s.failed)
      invariant Emptied(world, p.fleet.containers, s0.t, listing[..i], Missed(p) == missed) && Missed(p) >= missed
    {
      ok, counted, steps, u := SweepOnward(p, listing, i, counted, from, world, missed, s0, steps, u);
      if !ok {
        DiscardsWiden(world, p.fleet.containers, listing, i + 1);
        return;
      }
    }
    SweptOnlyListed(s0.t, u.t, listing, counted, from);
  }

  lemma SweptOnlyListed(t: Tables, u: Tables, listing: seq<Listed>, counted: bool, from: int)
    requires Swept(t, u, listing[..|listing|], counted, from)
    ensures OnlyListedGo(t, u, listing) && listing[..|listing|] == listing
  {
    assert listing[..|listing|] == listing;
  }

  lemma ListingDone(s: State, u: State, listing: seq<Listed>, counted: bool, from: int, before: int)
    requires Progress(s, u, listing, |listing|, counted, from) && ListsIdle(s.t, listing, before)
    ensures u.cleaner == Sweeping([]) && Swept(s.t, u.t, listing, counted, from) && NoIdleLeft(s.t, u.t, before)
  {
    assert listing[..|listing|] == listing && listing[|listing|..] == [];
    SweptAll(s.t, u.t, listing, counted, from, before);
  }

  /** A listing, just taken. */
  lemma OpenSweep(cfg: Config, s: State, listing: seq<Listed>, now: int) returns (steps: seq<Step>, u: State)
    requires s.cleaner == Resting && ListsIdle(s.t, listing, now - cfg.idleTimeout)
    ensures Leads(cfg, s, steps, u) && StepsOk(steps, true) && u == s.(cleaner := Sweeping(listing))
    ensures Progress(s, u, listing, 0, true, now)
  {
    steps, u := Take(cfg, s, [], s, ListIdle(listing, now));
    assert listing[0..] == listing;
  }

  /** A session used within IdleTimeout of the listing keeps its row, and its container unless the row of an idle
      session names the same one. */
  ghost predicate RecentKept(t: Tables, eps: map<EpId, Endpoint>, before: map<Key, Container>, after: map<Key, Container>, cutoff: int) {
    forall e | e in t.eps && t.eps[e].lastActivity >= cutoff ::
      && e in eps && eps[e] == t.eps[e]
      && (SoleContainer(t, e) ==> SameAt(before, after, (t.eps[e].vm, t.eps[e].container)))
  }

  ghost predicate SoleContainer(t: Tables, e: EpId)
    requires e in t.eps
  {
    forall d | d in t.eps && d != e :: t.eps[d].vm != t.eps[e].vm || t.eps[d].container != t.eps[e].container
  }

  ghost predicate SameAt(before: map<Key, Container>, after: map<Key, Container>, key: Key) {
    (key in after <==> key in before) && (key in before ==> after[key] == before[key])
  }

  lemma RecentAreKept(half: Sweep, t: Tables, u: Tables, before: map<Key, Container>, after: map<Key, Container>,
                      listing: seq<Listed>, cutoff: int)
    requires if half.ListFailed? then listing == [] else ListsIdle(t, listing, cutoff)
    requires OnlyListedGo(t, u, listing) && OnlyDiscards(before, after, listing)
    ensures RecentKept(t, u.eps, before, after, cutoff)
  {
    forall e | e in t.eps && t.eps[e].lastActivity >= cutoff
      ensures e in u.eps && u.eps[e] == t.eps[e]
      ensures SoleContainer(t, e) ==> SameAt(before, after, (t.eps[e].vm, t.eps[e].container))
    {
      assert forall i | 0 <= i < |listing| :: listing[i].id != e;
    }
  }

  /** The first half of the pass: it lists, at time `at`, what was idle for IdleTimeout then. */
  method SweepEndpoints(p: GceProvider, ghost s: State)
    returns (result: Sweep, listing: seq<Listed>, counted: bool, ghost at: int, ghost steps: seq<Step>,
             ghost u: State)
    requires Shows(p.db, s) && s.cleaner == Resting
    modifies p.db`vms, p.db`eps, p.db`failed, p.db`now, p.fleet, p.net
    ensures Shows(p.db, u) && Leads(p.cfg, s, steps, u) && u.creators == s.creators
    ensures old(p.db.now) <= at <= p.db.now && p.Faults() >= old(p.Faults()) + u.failed - s.failed
    ensures result.ListFailed? ==> u == s && listing == [] && p.Faults() > old(p.Faults())
    ensures !result.ListFailed? ==> ListsIdle(s.t, listing, at - p.cfg.idleTimeout)
    ensures OnlyListedGo(s.t, u.t, listing)
    ensures OnlyDiscards(old(p.fleet.containers), p.fleet.containers, listing) && Missed(p) >= old(Missed(p))
    ensures result.AllSwept? && Missed(p) == old(Missed(p)) ==> ContainersGone(s.t, p.fleet.containers, listing)
    ensures RecentKept(s.t, u.t.eps, old(p.fleet.containers), p.fleet.containers, at - p.cfg.idleTimeout)
    ensures result.AllSwept? ==>
              && u.cleaner == Sweeping([]) && Swept(s.t, u.t, listing, counted, at)
              && NoIdleLeft(s.t, u.t, at - p.cfg.idleTimeout) && StepsOk(steps, counted)
    ensures result.RowLeft? ==> u.cleaner == Resting && u.t.vms.Keys == s.t.vms.Keys
    ensures u.failed >= s.failed && (result.RowLeft? || !counted ==> u.failed > s.failed)
  {
    listing, counted, steps, u := [], true, [], s;
    ghost var world := p.fleet.containers;
    var reached := p.net.Call();
    var read := p.db.ListIdleSessionEndpoints(p.cfg.idleTimeout, reached);
    at := p.db.now;
    if read.Row? {
      listing := read.row;
      steps, u := OpenSweep(p.cfg, s, listing, at);
      var ok;
      ok, counted, steps, u := SweepListed(p, listing, at, s, steps, u);
      result := if ok then AllSwept else RowLeft;
    } else {
      result := ListFailed;
    }
    RecentAreKept(result, s.t, u.t, world, p.fleet.containers, listing, at - p.cfg.idleTimeout);
    if result.AllSwept? {
      ListingDone(s, u, listing, counted, at, at - p.cfg.idleTimeout);
    }
  }

  lemma DiscardsWiden(before: map<Key, Container>, after: map<Key, Container>,
                      done: seq<Listed>, n: nat)
    requires n <= |done| && OnlyDiscards(before, after, done[..n])
    ensures OnlyDiscards(before, after, done)
  {
    forall key | key in before && (key !in after || after[key] != before[key])
      ensures exists i :: 0 <= i < |done| && key == (done[i].ep.vm, done[i].ep.container)
    {
      var i :| 0 <= i < n && key == (done[..n][i].ep.vm, done[..n][i].ep.container);
      assert done[i] == done[..n][i];
    }
  }

  // ----- The second half -----

  lemma StepsOkMore(steps: seq<Step>, counted: bool, step: Step)
    requires StepsOk(steps, counted) && IsCleaning(step) && !LosesCount(step) && !step.Decrement?
    ensures StepsOk(steps + [step], counted)
  {
  }

  /** No endpoint row changed, and nothing about VMs but that the rows of some of `asked` are gone. */
  ghost predicate OnlyReaps(t: Tables, u: Tables, asked: seq<VmId>) {
    && u.eps == t.eps && u.convs == t.convs && u.vms.Keys <= t.vms.Keys
    && (forall v | v in u.vms :: u.vms[v] == t.vms[v])
    && (forall v | v in t.vms && v !in u.vms :: v in asked && CanDeleteVm(t, v))
  }

  /** GCE is asked to delete the instance, whatever it answers; then the row goes, if no endpoint row refers to it. */
  method ReapOne(p: GceProvider, v: VmId, ghost s0: State, ghost before: seq<Step>, ghost s: State)
    returns (ok: bool, ghost steps: seq<Step>, ghost u: State)
    requires Shows(p.db, s) && Leads(p.cfg, s0, before, s)
    requires s.cleaner.Reaping? && s.cleaner.vms != [] && s.cleaner.vms[0] == v
    modifies p.db`vms, p.db`failed, p.gce
    ensures Shows(p.db, u) && Leads(p.cfg, s0, steps, u)
    ensures p.gce.asked == old(p.gce.asked) + [v] && p.gce.refused >= old(p.gce.refused)
    ensures ok ==> CanDeleteVm(s.t, v)
    ensures u == s.(t := if ok then DeleteVm(s.t, v) else s.t, cleaner := if ok then Reaping(s.cleaner.vms[1..]) else Resting,
                    failed := s.failed + Failing(ok))
    ensures steps == before + [if ok then ReapVm else ReapVmFails]
  {
    var accepted := p.gce.DeleteInstance(v);
    ok := p.db.DeleteVMInstance(v);
    steps, u := Take(p.cfg, s0, before, s, if ok then ReapVm else ReapVmFails);
  }

  method ReapListed(p: GceProvider, idle: seq<VmId>, counted: bool, ghost s0: State, ghost before: seq<Step>,
                    ghost s: State)
    returns (ok: bool, asked: seq<VmId>, ghost steps: seq<Step>, ghost u: State)
    requires Shows(p.db, s) && Leads(p.cfg, s0, before, s) && StepsOk(before, counted) && s.cleaner == Reaping(idle)
    modifies p.db`vms, p.db`failed, p.gce
    ensures Shows(p.db, u) && Leads(p.cfg, s0, steps, u) && StepsOk(steps, counted)
    ensures p.gce.asked == old(p.gce.asked) + asked && p.gce.refused >= old(p.gce.refused)
    ensures u.creators == s.creators && asked <= idle && OnlyReaps(s.t, u.t, asked)
    ensures u.cleaner == if ok then Reaping([]) else Resting
    ensures ok ==> asked == idle && forall v | v in idle :: v !in u.t.vms
    ensures u.failed == s.failed + Failing(ok)
  {
    ok, asked, steps, u := true, [], before, s;
    ghost var earlier := p.gce.asked;
    for i := 0 to |idle|
      invariant Shows(p.db, u) && Leads(p.cfg, s0, steps, u) && StepsOk(steps, counted)
      invariant ok && u.creators == s.creators && u.cleaner == Reaping(idle[i..]) && asked == idle[..i] &&
                u.failed == s.failed
      invariant OnlyReaps(s.t, u.t, asked) && forall v | v in asked :: v !in u.t.vms
      invariant p.gce.asked == earlier + asked && p.gce.refused >= old(p.gce.refused)
    {
      ghost var sofar := steps;
      asked := asked + [idle[i]];
      ok, steps, u := ReapOne(p, idle[i], s0, steps, u);
      StepsOkMore(sofar, counted, if ok then ReapVm else ReapVmFails);
      if !ok {
        return;
      }
    }
  }

  method ReapThenRest(p: GceProvider, idle: seq<VmId>, counted: bool, ghost s0: State, ghost before: seq<Step>,
                      ghost s: State)
    returns (ok: bool, asked: seq<VmId>, ghost steps: seq<Step>, ghost u: State)
    requires Shows(p.db, s) && Leads(p.cfg, s0, before, s) && StepsOk(before, counted) && s.cleaner == Reaping(idle)
    modifies p.db`vms, p.db`failed, p.gce
    ensures Shows(p.db, u) && Leads(p.cfg, s0, steps, u) && StepsOk(steps, counted)
    ensures p.gce.asked == old(p.gce.asked) + asked && p.gce.refused >= old(p.gce.refused)
    ensures u.creators == s.creators && u.cleaner == Resting && asked <= idle && OnlyReaps(s.t, u.t, asked)
    ensures ok ==> asked == idle && forall v | v in idle :: v !in u.t.vms
    ensures u.failed == s.failed + Failing(ok)
  {
    ok, asked, steps, u := ReapListed(p, idle, counted, s0, before, s);
    if ok {
      StepsOkMore(steps, counted, Rest);
      steps, u := Take(p.cfg, s0, steps, u, Rest);
    }
  }

  method ReapIdleVms(p: GceProvider, counted: bool, ghost s0: State, ghost before: seq<Step>, ghost s: State)
    returns (listed: bool, ok: bool, asked: seq<VmId>, ghost at: int, ghost steps: seq<Step>, ghost u: State)
    requires Shows(p.db, s) && Leads(p.cfg, s0, before, s) && StepsOk(before, counted) && s.cleaner == Sweeping([])
    modifies p.db`vms, p.db`failed, p.db`now, p.gce, p.net
    ensures Shows(p.db, u) && Leads(p.cfg, s0, steps, u) && StepsOk(steps, counted)
    ensures p.gce.asked == old(p.gce.asked) + asked && p.net.faults >= old(p.net.faults)
    ensures p.Faults() >= old(p.Faults()) && (!ok ==> p.Faults() > old(p.Faults())) && old(p.db.now) <= at <= p.db.now
    ensures u.creators == s.creators && u.cleaner == Resting && OnlyReaps(s.t, u.t, asked) && (ok ==> listed)
    ensures forall v | v in asked :: IdleVm(s.t, v, at - p.cfg.idleTimeout)
    ensures ok ==> forall v :: v in asked <==> IdleVm(s.t, v, at - p.cfg.idleTimeout)
    ensures ok ==> forall v | v in u.t.vms :: !IdleVm(u.t, v, at - p.cfg.idleTimeout)
  {
    var reached := p.net.Call();
    var read := p.db.ListIdleVMInstances(p.cfg.idleTimeout, reached);
    at := p.db.now;
    if !read.Row? {
      StepsOkMore(before, counted, Rest);
      steps, u := Take(p.cfg, s0, before, s, Rest);
      return false, false, [], at, steps, u;
    }
    listed := true;
    StepsOkMore(before, counted, ListIdleVms(read.row, at));
    steps, u := Take(p.cfg, s0, before, s, ListIdleVms(read.row, at));
    ok, asked, steps, u := ReapThenRest(p, read.row, counted, s0, steps, u);
  }

  // ----- The pass -----

  /** What a pass of cleaning steps keeps when no slow path is under way. */
  lemma PassKeeps(cfg: Config, s: State, steps: seq<Step>, u: State, counted: bool)
    requires Inv(s) && Leads(cfg, s, steps, u) && StepsOk(steps, counted)
    ensures Inv(u)
    ensures NeverUnder(s) ==> NeverUnder(u)
    ensures counted && s.creators == map[] && Exact(s) ==> Exact(u)
  {
    RunKeepsInv(cfg, s, steps);
    if NeverUnder(s) {
      RunKeepsNeverUnder(cfg, s, steps);
    }
    if counted && s.creators == map[] && Exact(s) {
      CleaningIsCareful(cfg, s, steps);
      CarefulRunsStayExact(cfg, s, steps);
    }
  }

  datatype Outcome = Unlisted | Interrupted | VmsUnlisted | VmLeft | Cleaned

  /** The rows of both tables after a pass that swept all it listed. */
  ghost predicate RowsAfter(s: State, u: State, listing: seq<Listed>, counted: bool, before: int) {
    && NoIdleLeft(s.t, u.t, before) && u.t.vms.Keys <= s.t.vms.Keys
    && (counted ==> forall v | v in u.t.vms :: u.t.vms[v].active == Less(s.t.vms[v].active, CountOn(listing, v)))
  }

  /** What the second half, which found the tables as in m, asked for. */
  ghost predicate VmsAsked(s: State, m: State, u: State, asked: seq<VmId>, cutoff: int, cleaned: bool) {
    && (NeverUnder(s) ==> forall v | v in asked && InsertedOn(s, v) == {} :: EndpointsOn(m.t, v) == {})
    && (forall v | v in asked :: IdleVm(m.t, v, cutoff))
    && (cleaned ==> (forall v :: v in asked <==> IdleVm(m.t, v, cutoff)) && forall v | v in u.t.vms :: !IdleVm(u.t, v, cutoff))
  }

  method FinishPass(p: GceProvider, counted: bool, ghost s: State, ghost toHere: seq<Step>, ghost m: State)
    returns (result: Outcome, asked: seq<VmId>, ghost later: int, ghost steps: seq<Step>, ghost u: State)
    requires Shows(p.db, m) && Inv(s) && Leads(p.cfg, s, toHere, m) && StepsOk(toHere, counted) &&
             m.cleaner == Sweeping([]) && m.creators == s.creators
    modifies p.db`vms, p.db`failed, p.db`now, p.gce, p.net
    ensures Shows(p.db, u) && Leads(p.cfg, s, steps, u) && StepsOk(steps, counted) && !result.Unlisted? &&
            !result.Interrupted?
    ensures p.gce.asked == old(p.gce.asked) + asked && p.Faults() >= old(p.Faults())
    ensures p.net.faults >= old(p.net.faults) && old(p.db.now) <= later <= p.db.now
    ensures !result.Cleaned? ==> p.Faults() > old(p.Faults())
    ensures u.creators == m.creators && u.cleaner == Resting && OnlyReaps(m.t, u.t, asked)
    ensures VmsAsked(s, m, u, asked, later - p.cfg.idleTimeout, result.Cleaned?)
  {
    PassKeeps(p.cfg, s, toHere, m, counted);
    var listed, ok;
    listed, ok, asked, later, steps, u := ReapIdleVms(p, counted, s, toHere, m);
    if NeverUnder(s) {
      AskedAreEmpty(p.cfg, m, asked, later - p.cfg.idleTimeout);
      assert forall v :: InsertedOn(m, v) == InsertedOn(s, v);
    }
    result := if ok then Cleaned else if listed then VmLeft else VmsUnlisted;
  }

  /** A VM asked for was idle for IdleTimeout when the pass began its listings, unless the listings lie more than
      IdleTimeout apart. */
  lemma AskedWereIdle(t: Tables, m: Tables, listing: seq<Listed>, counted: bool, at: int, later: int, idleTimeout: int,
                      v: VmId)
    requires Swept(t, m, listing, counted, at) && IdleVm(m, v, later - idleTimeout)
    ensures IdleVm(t, v, later - idleTimeout) || later - at > idleTimeout
  {
    assert CountedOff(t.vms[v], m.vms[v], CountOn(listing, v), counted, at);
    assert m.vms[v].(active := 0, idleSince := None).status == t.vms[v].status;
  }

  /** Where no counter is under its rows no VM asked for hosts a session, unless a creator is between its insert
      and its increment on it. */
  ghost predicate AskedHostNone(s: State, u: State, asked: seq<VmId>) {
    NeverUnder(s) ==> forall v | v in asked && InsertedOn(s, v) == {} :: EndpointsOn(u.t, v) == {}
  }

  /** A VM asked for was idle before the pass, if the pass lists VMs within IdleTimeout of its start.  If it ends
      well, every VM idle at `later` that no row was swept from is asked for, and no VM is idle then any more. */
  ghost predicate AskedFairly(s: State, u: State, listing: seq<Listed>, asked: seq<VmId>, at: int, later: int,
                              idleTimeout: int, cleaned: bool) {
    && (forall v | v in asked :: IdleVm(s.t, v, later - idleTimeout) || later - at > idleTimeout)
    && (cleaned ==>
          && (forall v | v in u.t.vms :: !IdleVm(u.t, v, later - idleTimeout))
          && forall v | v in s.t.vms && CountOn(listing, v) == 0 :: v in asked <==> IdleVm(s.t, v, later - idleTimeout))
  }

  /** What a pass does that swept all it listed: exactly the rows idle at `at` are gone, each counted off unless
      the write failed, and exact counters stay exact. */
  ghost predicate SweptPass(cfg: Config, s: State, u: State, listing: seq<Listed>, counted: bool, asked: seq<VmId>,
                            at: int, later: int, cleaned: bool) {
    && RowsAfter(s, u, listing, counted, at - cfg.idleTimeout)
    && (counted && s.creators == map[] && Exact(s) ==> Exact(u))
    && AskedHostNone(s, u, asked) && AskedFairly(s, u, listing, asked, at, later, cfg.idleTimeout, cleaned)
  }

  /** CleanupOrphans: a run of the allocator.  It lists sessions at time `at` and VMs at time `later`, each idle
      for IdleTimeout then; a session used since keeps row and container.  What a pass does that sweeps all it
      listed, says SweptPass.  If nothing fails it ends well and counts everything off; and unless a read, a call
      or the removal itself fails, no container of a swept row is left on a VM it can address. */
  method CleanupOrphans(p: GceProvider, ghost s: State)
    returns (result: Outcome, listing: seq<Listed>, counted: bool, asked: seq<VmId>,
             ghost at: int, ghost later: int, ghost steps: seq<Step>, ghost u: State)
    requires Shows(p.db, s) && Inv(s) && s.cleaner == Resting
    modifies p.db`vms, p.db`eps, p.db`failed, p.db`now, p.fleet, p.net, p.gce
    ensures Shows(p.db, u) && Leads(p.cfg, s, steps, u) && Inv(u) && u.creators == s.creators && u.cleaner == Resting
    ensures OnlyDiscards(old(p.fleet.containers), p.fleet.containers, listing) && p.gce.asked == old(p.gce.asked) + asked
    ensures p.Faults() >= old(p.Faults()) && old(p.db.now) <= at <= later <= p.db.now
    ensures p.Faults() == old(p.Faults()) ==> result.Cleaned? && counted
    ensures result.Unlisted? ==> u == s && listing == []
    ensures !result.Unlisted? ==> ListsIdle(s.t, listing, at - p.cfg.idleTimeout)
    ensures RecentKept(s.t, u.t.eps, old(p.fleet.containers), p.fleet.containers, at - p.cfg.idleTimeout)
    ensures result.Unlisted? || result.Interrupted? ==> asked == [] && u.t.vms.Keys == s.t.vms.Keys
    ensures !result.Unlisted? && !result.Interrupted? ==>
              && SweptPass(p.cfg, s, u, listing, counted, asked, at, later, result.Cleaned?)
              && (Missed(p) == old(Missed(p)) ==> ContainersGone(s.t, p.fleet.containers, listing))
  {
    asked := [];
    var half;
    half, listing, counted, at, steps, u := SweepEndpoints(p, s);
    later := at;
    if !half.AllSwept? {
      RunKeepsInv(p.cfg, s, steps);
      return if half.ListFailed? then Unlisted else Interrupted, listing, counted, asked, at, later, steps, u;
    }
    result, asked, later, steps, u := FinishSwept(p, listing, counted, at, s, steps, u);
  }

  /** The second half, after a first one that swept all it listed. */
  method FinishSwept(p: GceProvider, listing: seq<Listed>, counted: bool, ghost at: int, ghost s: State,
                     ghost toHere: seq<Step>, ghost m: State)
    returns (result: Outcome, asked: seq<VmId>, ghost later: int, ghost steps: seq<Step>, ghost u: State)
    requires Shows(p.db, m) && Inv(s) && Leads(p.cfg, s, toHere, m) && StepsOk(toHere, counted)
    requires m.cleaner == Sweeping([]) && m.creators == s.creators
    requires Swept(s.t, m.t, listing, counted, at) && NoIdleLeft(s.t, m.t, at - p.cfg.idleTimeout)
    modifies p.db`vms, p.db`failed, p.db`now, p.gce, p.net
    ensures Shows(p.db, u) && Leads(p.cfg, s, steps, u) && Inv(u) && u.creators == s.creators && u.cleaner == Resting
    ensures !result.Unlisted? && !result.Interrupted? && u.t.eps == m.t.eps
    ensures p.gce.asked == old(p.gce.asked) + asked && p.Faults() >= old(p.Faults())
    ensures p.net.faults >= old(p.net.faults) && old(p.db.now) <= later <= p.db.now
    ensures !result.Cleaned? ==> p.Faults() > old(p.Faults())
    ensures SweptPass(p.cfg, s, u, listing, counted, asked, at, later, result.Cleaned?)
  {
    result, asked, later, steps, u := FinishPass(p, counted, s, toHere, m);
    PassKeeps(p.cfg, s, steps, u, counted);
    SweptThenReaped(p.cfg, s, m, u, listing, counted, asked, at, later, result.Cleaned?);
  }

  lemma AskedAreFair(s: State, m: State, u: State, listing: seq<Listed>, counted: bool, asked: seq<VmId>, at: int,
                     later: int, idleTimeout: int, cleaned: bool)
    requires Swept(s.t, m.t, listing, counted, at) && VmsAsked(s, m, u, asked, later - idleTimeout, cleaned)
    ensures AskedFairly(s, u, listing, asked, at, later, idleTimeout, cleaned)
  {
    forall v | v in asked ensures IdleVm(s.t, v, later - idleTimeout) || later - at > idleTimeout {
      AskedWereIdle(s.t, m.t, listing, counted, at, later, idleTimeout, v);
    }
    forall v | v in s.t.vms && CountOn(listing, v) == 0
      ensures IdleVm(m.t, v, later - idleTimeout) <==> IdleVm(s.t, v, later - idleTimeout)
    {
      assert CountedOff(s.t.vms[v], m.t.vms[v], CountOn(listing, v), counted, at);
    }
  }

  lemma SweptThenReaped(cfg: Config, s: State, m: State, u: State, listing: seq<Listed>, counted: bool,
                        asked: seq<VmId>, at: int, later: int, cleaned: bool)
    requires counted && s.creators == map[] && Exact(s) ==> Exact(u)
    requires Swept(s.t, m.t, listing, counted, at) && NoIdleLeft(s.t, m.t, at - cfg.idleTimeout)
    requires OnlyReaps(m.t, u.t, asked) && VmsAsked(s, m, u, asked, later - cfg.idleTimeout, cleaned)
    ensures SweptPass(cfg, s, u, listing, counted, asked, at, later, cleaned)
  {
    RowsSettled(s, m, u, listing, counted, asked, at, at - cfg.idleTimeout);
    AskedHostNothing(s, m, u, asked, later - cfg.idleTimeout, cleaned);
    AskedAreFair(s, m, u, listing, counted, asked, at, later, cfg.idleTimeout, cleaned);
  }

  lemma RowsSettled(s: State, m: State, u: State, listing: seq<Listed>, counted: bool, asked: seq<VmId>,
                    at: int, before: int)
    requires Swept(s.t, m.t, listing, counted, at) && NoIdleLeft(s.t, m.t, before) && OnlyReaps(m.t, u.t, asked)
    ensures RowsAfter(s, u, listing, counted, before)
  {
    forall v | v in u.t.vms && counted ensures u.t.vms[v].active == Less(s.t.vms[v].active, CountOn(listing, v)) {
      assert CountedOff(s.t.vms[v], m.t.vms[v], CountOn(listing, v), counted, at);
    }
  }

  lemma AskedHostNothing(s: State, m: State, u: State, asked: seq<VmId>, cutoff: int, cleaned: bool)
    requires OnlyReaps(m.t, u.t, asked) && VmsAsked(s, m, u, asked, cutoff, cleaned)
    ensures AskedHostNone(s, u, asked)
  {
    forall v | v in asked ensures EndpointsOn(u.t, v) == EndpointsOn(m.t, v) {
    }
  }

  lemma AskedAreEmpty(cfg: Config, m: State, asked: seq<VmId>, cutoff: int)
    requires Inv(m) && NeverUnder(m) && m.cleaner == Sweeping([])
    requires forall v | v in asked :: IdleVm(m.t, v, cutoff)
    ensures forall v | v in asked && InsertedOn(m, v) == {} :: EndpointsOn(m.t, v) == {}
  {
    forall v | v in asked && InsertedOn(m, v) == {} ensures EndpointsOn(m.t, v) == {} {
      IdleVmHasNoRows(cfg, m, v, cutoff);
    }
  }
}
