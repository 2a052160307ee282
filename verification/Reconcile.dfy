/**
 ReconcileVMs: the zero-agents rule kept in the database.  The window of a VM lives in its row, is read
 with the listing and written back one VM at a time, and a write that fails is only logged.
 */
module Reconcile {
  import opened Wrappers
  import opened Tables
  import opened Containers
  import opened Allocator
  import opened Provider
  import ZA = ZeroAgents

  /** What a pass observed of a VM, and whether the row could be written if that was needed. */
  datatype Entry = Entry(tick: ZA.Tick, wrote: bool)

  function Store(since: Option<int>, entry: Entry): Option<int> {
    if entry.wrote then ZA.Advance(since, entry.tick) else since
  }

  function Stored(start: Option<int>, entries: seq<Entry>): Option<int> {
    if entries == [] then start else Store(Stored(start, entries[..|entries| - 1]), entries[|entries| - 1])
  }

  /** The window needed a write, and the write was lost. */
  predicate Lost(since: Option<int>, entry: Entry) {
    !entry.wrote && ZA.Advance(since, entry.tick) != since
  }

  // ----- What the stored window means -----

  /** The observations, with those whose write was lost taken for failed probes. */
  function Effective(start: Option<int>, entries: seq<Entry>): (ticks: seq<ZA.Tick>)
    ensures |ticks| == |entries|
  {
    if entries == [] then []
    else
      var front, last := entries[..|entries| - 1], entries[|entries| - 1];
      Effective(start, front) +
      [if Lost(Stored(start, front), last) then ZA.Tick(ZA.Failed, last.tick.now) else last.tick]
  }

  function Observed(entries: seq<Entry>): (ticks: seq<ZA.Tick>)
    ensures |ticks| == |entries|
  {
    seq(|entries|, i requires 0 <= i < |entries| => entries[i].tick)
  }

  lemma {:induction false} EffectiveAt(start: Option<int>, entries: seq<Entry>, k: nat)
    requires k < |entries|
    ensures Effective(start, entries)[..k] == Effective(start, entries[..k])
    ensures Effective(start, entries)[k] ==
            if Lost(Stored(start, entries[..k]), entries[k]) then ZA.Tick(ZA.Failed, entries[k].tick.now) else entries[k].tick
    decreases |entries|
  {
    var front := entries[..|entries| - 1];
    if k < |front| {
      EffectiveAt(start, front, k);
      assert front[..k] == entries[..k];
      assert Effective(start, entries)[..k] == Effective(start, front)[..k];
    } else {
      assert Effective(start, entries)[..k] == Effective(start, front);
    }
  }

  /** Refinement, whatever writes are lost: the stored window is the automaton's on the effective ticks. */
  lemma {:induction false} StoredIsSince(start: Option<int>, entries: seq<Entry>)
    ensures Stored(start, entries) == ZA.Since(start, Effective(start, entries))
  {
    if entries != [] {
      var front := entries[..|entries| - 1];
      StoredIsSince(start, front);
      EffectiveAt(start, entries, |entries| - 1);
    }
  }

  /** And a deletion is asked for exactly when the automaton asks for it on the effective ticks. */
  lemma AskedIsDue(start: Option<int>, entries: seq<Entry>, k: nat, timeout: int)
    requires k < |entries|
    ensures ZA.Due(Stored(start, entries[..k]), entries[k].tick, timeout) <==>
            ZA.DueAt(start, Effective(start, entries), k, timeout)
  {
    EffectiveAt(start, entries, k);
    StoredIsSince(start, entries[..k]);
  }

  ghost predicate Reliable(start: Option<int>, entries: seq<Entry>) {
    forall k | 0 <= k < |entries| :: !Lost(Stored(start, entries[..k]), entries[k])
  }

  /** With reliable writes the effective ticks are the observations themselves. */
  lemma {:induction false} ReliableMeansObserved(start: Option<int>, entries: seq<Entry>)
    requires Reliable(start, entries)
    ensures Effective(start, entries) == Observed(entries)
    ensures Stored(start, entries) == ZA.Since(start, Observed(entries))
  {
    forall k | 0 <= k < |entries| ensures Effective(start, entries)[k] == Observed(entries)[k] {
      EffectiveAt(start, entries, k);
    }
    StoredIsSince(start, entries);
  }

  /** A deletion asked for at pass k was preceded, by at least the timeout, by a zero observation at pass j;
      no agent was seen in between exactly when no clearing write was lost in between. */
  lemma DeletionJustifiedExactly(entries: seq<Entry>, k: nat, timeout: int) returns (j: nat)
    requires k < |entries| && ZA.Due(Stored(None, entries[..k]), entries[k].tick, timeout)
    ensures j < k && ZA.SawZero(entries[j].tick) && ZA.SawZero(entries[k].tick)
    ensures entries[k].tick.now - entries[j].tick.now >= timeout
    ensures ZA.NoAgentsBetween(Observed(entries), j, k) <==>
            forall m | j < m < k :: !(ZA.SawAgents(entries[m].tick) && !entries[m].wrote)
  {
    AskedIsDue(None, entries, k, timeout);
    var ticks := Effective(None, entries);
    ZA.DueExactly(ticks, k, timeout);
    j :| 0 <= j < k && ZA.Opens(ticks, j, k) && ticks[k].now - ticks[j].now >= timeout;
    EffectiveAt(None, entries, j);
    EffectiveAt(None, entries, k);
    forall m | j < m < k ensures ZA.SawAgents(entries[m].tick) ==> !entries[m].wrote {
      EffectiveAt(None, entries, m);
      assert !ZA.SawAgents(ticks[m]);
    }
    var seen := Observed(entries);
    assert forall m | 0 <= m < |entries| :: seen[m] == entries[m].tick;
  }

  /** A lost clear deletes a VM that had an agent in the meantime. */
  lemma LostClearDeletes()
    ensures var zero, busy := ZA.Counted(0), ZA.Counted(1);
            var entries := [Entry(ZA.Tick(zero, 0), true), Entry(ZA.Tick(busy, 300), false), Entry(ZA.Tick(zero, 600), true)];
            && ZA.Due(Stored(None, entries[..2]), entries[2].tick, 600)
            && !ZA.DueAt(None, Observed(entries), 2, 600)
  {
    var zero, busy := ZA.Counted(0), ZA.Counted(1);
    var entries := [Entry(ZA.Tick(zero, 0), true), Entry(ZA.Tick(busy, 300), false), Entry(ZA.Tick(zero, 600), true)];
    assert entries[..2][..1] == [entries[0]];
    assert Stored(None, [entries[0]][..0]) == None;
    var seen := Observed(entries);
    assert seen[..2] == [entries[0].tick, entries[1].tick];
  }

  ghost predicate ClockRises(entries: seq<Entry>) {
    forall i, j | 0 <= i < j < |entries| :: entries[i].tick.now <= entries[j].tick.now
  }

  /** With no clear lost, lost writes only postpone: the stored window is never older than the true one. */
  lemma {:induction false} LostSetPostpones(entries: seq<Entry>)
    requires ClockRises(entries)
    requires forall m | 0 <= m < |entries| :: ZA.SawAgents(entries[m].tick) ==> entries[m].wrote
    ensures var stored, exact := Stored(None, entries), ZA.Since(None, Observed(entries));
            && (stored.Some? ==> exact.Some? && exact.value <= stored.value)
            && (exact.Some? ==> entries != [] && exact.value <= entries[|entries| - 1].tick.now)
  {
    if entries != [] {
      var front := entries[..|entries| - 1];
      LostSetPostpones(front);
      assert Observed(entries)[..|entries| - 1] == Observed(front);
    }
  }

  // ----- The pass -----

  /** What the pass did about a VM: left it, or asked GCE to delete it, and if GCE agreed deleted the row. */
  datatype Action = Left | Refused | RowGone | RowStays

  /** The row of v after it was handled. */
  ghost predicate Handled(t: Tables, u: Tables, v: VmId, since: Option<int>, entry: Entry, action: Action, timeout: int) {
    && (action.Left? <==> !ZA.Due(since, entry.tick, timeout))
    && u == (if action.RowGone? then DeleteVm(t, v)
             else if entry.wrote && ZA.Advance(since, entry.tick) != since then SetZeroSince(t, v, Store(since, entry))
             else t)
    && (action.RowGone? ==> CanDeleteVm(t, v))
  }

  /** A probe that was answered counted the containers that run on the VM, at a time in between. */
  predicate TellsTruth(containers: map<Key, Container>, v: VmId, start: int, end: int, tick: ZA.Tick) {
    && (tick.probe.Counted? ==> tick.probe.agents == |StartedOn(containers, v)|)
    && start <= tick.now <= end
  }

  /** Client, probe and clock.  A VM without an address is skipped; otherwise a missing answer is a fault. */
  method Observe(p: GceProvider, v: VmId, vm: Vm) returns (tick: ZA.Tick)
    modifies p.net, p.fleet`failed, p.clock
    ensures vm.ip == "" ==> tick.probe.Failed?
    ensures p.Faults() >= old(p.Faults())
    ensures tick.probe.Failed? ==> vm.ip == "" || p.Faults() > old(p.Faults())
    ensures tick.probe.Counted? ==> p.net.dialed == old(p.net.dialed) + [vm.ip]
    ensures p.clock.now >= old(p.clock.now) && TellsTruth(p.fleet.containers, v, old(p.clock.now), p.clock.now, tick)
  {
    tick := ZA.Tick(ZA.Failed, p.clock.now);
    if vm.ip == "" {
      return;
    }
    var client := p.net.Dial(vm.ip);
    if !client {
      return;
    }
    var agents := p.fleet.ListAgents(v);
    if agents.Some? {
      var now := p.clock.Now();
      tick := ZA.Tick(ZA.Counted(|agents.value|), now);
    }
  }

  /** One VM of the listing. */
  method ReconcileOne(p: GceProvider, listed: ListedVm, timeout: int, ghost s0: State, ghost before: seq<Step>,
                      ghost s: State)
    returns (entry: Entry, action: Action, ghost steps: seq<Step>, ghost u: State)
    requires Shows(p.db, s) && Leads(p.cfg, s0, before, s)
    modifies p.db`vms, p.db`failed, p.gce, p.net, p.fleet`failed, p.clock
    ensures Shows(p.db, u) && Leads(p.cfg, s0, steps, u) && u == s.(t := u.t, failed := u.failed)
    ensures Handled(s.t, u.t, listed.id, listed.vm.zeroSince, entry, action, timeout)
    ensures p.gce.asked == old(p.gce.asked) + if action.Left? then [] else [listed.id]
    ensures listed.vm.ip == "" ==> entry.tick.probe.Failed?
    ensures p.clock.now >= old(p.clock.now)
    ensures TellsTruth(p.fleet.containers, listed.id, old(p.clock.now), p.clock.now, entry.tick)
    ensures p.Faults() >= old(p.Faults()) && (Amiss(listed.vm, entry, action) ==> p.Faults() > old(p.Faults()))
  {
    var tick := Observe(p, listed.id, listed.vm);
    entry, action, steps, u := Entry(tick, true), Left, before, s;
    if tick.probe.Failed? {
      return;
    }
    if tick.probe.agents > 0 {
      if listed.vm.zeroSince.Some? {
        entry, steps, u := Write(p, listed.id, None, tick, s0, before, s);
      }
      return;
    }
    if listed.vm.zeroSince.None? {
      entry, steps, u := Write(p, listed.id, Some(tick.now), tick, s0, before, s);
      return;
    }
    if tick.now - listed.vm.zeroSince.value < timeout {
      return;
    }
    action, steps, u := Reap(p, listed.id, s0, before, s);
  }

  /** A probe that was not answered, a write that was lost, or a deletion that did not go through. */
  predicate Amiss(vm: Vm, entry: Entry, action: Action) {
    (vm.ip != "" && entry.tick.probe.Failed?) || !entry.wrote || action.Refused? || action.RowStays?
  }

  method Write(p: GceProvider, v: VmId, since: Option<int>, tick: ZA.Tick, ghost s0: State,
               ghost before: seq<Step>, ghost s: State)
    returns (entry: Entry, ghost steps: seq<Step>, ghost u: State)
    requires Shows(p.db, s) && Leads(p.cfg, s0, before, s)
    modifies p.db`vms, p.db`failed
    ensures Shows(p.db, u) && Leads(p.cfg, s0, steps, u) && entry.tick == tick
    ensures u == s.(t := if entry.wrote then SetZeroSince(s.t, v, since) else s.t, failed := s.failed + Failing(entry.wrote))
  {
    var ok := p.db.SetVMZeroAgentsSince(v, since);
    entry := Entry(tick, ok);
    steps, u := Take(p.cfg, s0, before, s, Stamp(v, since, ok));
  }

  method Reap(p: GceProvider, v: VmId, ghost s0: State, ghost before: seq<Step>, ghost s: State)
    returns (action: Action, ghost steps: seq<Step>, ghost u: State)
    requires Shows(p.db, s) && Leads(p.cfg, s0, before, s)
    modifies p.db`vms, p.db`failed, p.gce
    ensures Shows(p.db, u) && Leads(p.cfg, s0, steps, u) && !action.Left?
    ensures p.gce.asked == old(p.gce.asked) + [v]
    ensures u == s.(t := if action.RowGone? then DeleteVm(s.t, v) else s.t, failed := u.failed)
    ensures action.RowGone? ==> CanDeleteVm(s.t, v)
    ensures p.Faults() == old(p.Faults()) + if action.RowGone? then 0 else 1
  {
    steps, u := before, s;
    var accepted := p.gce.DeleteInstance(v);
    if !accepted {
      return Refused, steps, u;
    }
    var ok := p.db.DeleteVMInstance(v);
    steps, u := Take(p.cfg, s0, before, s, Step.Reconcile(v, ok));
    action := if ok then RowGone else RowStays;
  }

  function EntryOf(seen: map<VmId, Entry>, v: VmId): Entry {
    if v in seen then seen[v] else Entry(ZA.Tick(ZA.Failed, 0), true)
  }

  /** One pass, per VM row: a row that stays holds the window moved on by what was observed of the VM; GCE is
      asked exactly for the VMs that are due; only rows of such VMs go.  A VM the pass did not reach, or that
      does not answer, counts as a failed probe. */
  ghost predicate Passed(t: Tables, u: Tables, seen: map<VmId, Entry>, asked: seq<VmId>, timeout: int) {
    && u.eps == t.eps && u.convs == t.convs && u.vms.Keys <= t.vms.Keys
    && (forall v | v in u.vms :: u.vms[v] == t.vms[v].(zeroSince := Store(t.vms[v].zeroSince, EntryOf(seen, v))))
    && (forall v | v in t.vms && v !in u.vms :: v in asked && CanDeleteVm(t, v))
    && (forall v :: v in asked <==> v in t.vms && ZA.Due(t.vms[v].zeroSince, EntryOf(seen, v).tick, timeout))
  }

  lemma PassedOneMore(t: Tables, m: Tables, u: Tables, seen: map<VmId, Entry>, asked: seq<VmId>, listed: ListedVm,
                      entry: Entry, action: Action, timeout: int)
    requires Passed(t, m, seen, asked, timeout) && listed.id !in seen && listed.id in t.vms &&
             t.vms[listed.id] == listed.vm
    requires Handled(m, u, listed.id, listed.vm.zeroSince, entry, action, timeout)
    ensures Passed(t, u, seen[listed.id := entry], if action.Left? then asked else asked + [listed.id], timeout)
  {
    var v := listed.id;
    assert v in m.vms && m.vms[v] == t.vms[v] && v !in asked by {
      assert EntryOf(seen, v) == Entry(ZA.Tick(ZA.Failed, 0), true);
    }
    var more := seen[v := entry];
    forall w | w in u.vms ensures w in t.vms && u.vms[w] == t.vms[w].(zeroSince := Store(t.vms[w].zeroSince, EntryOf(more, w))) {
      assert w != v ==> EntryOf(more, w) == EntryOf(seen, w) && u.vms[w] == m.vms[w];
    }
    var all := if action.Left? then asked else asked + [v];
    forall w ensures w in all <==> w in t.vms && ZA.Due(t.vms[w].zeroSince, EntryOf(more, w).tick, timeout) {
      assert w != v ==> EntryOf(more, w) == EntryOf(seen, w) && (w in all <==> w in asked);
    }
    forall w | w in t.vms && w !in u.vms ensures w in all && CanDeleteVm(t, w) {
      assert w != v ==> w !in m.vms;
    }
  }

  function Ids(rows: seq<ListedVm>): set<VmId> {
    set i | 0 <= i < |rows| :: rows[i].id
  }

  lemma IdsOneMore(rows: seq<ListedVm>, i: nat)
    requires i < |rows| && forall j, k | 0 <= j < k < |rows| :: rows[j].id != rows[k].id
    ensures rows[i].id !in Ids(rows[..i]) && Ids(rows[..i + 1]) == Ids(rows[..i]) + {rows[i].id}
  {
    assert forall j | 0 <= j < i :: rows[..i + 1][j] == rows[..i][j];
    assert rows[..i + 1][i] == rows[i];
    forall v | v in Ids(rows[..i]) ensures v in Ids(rows[..i + 1]) {
      var j :| 0 <= j < i && rows[..i][j].id == v;
      assert rows[..i + 1][j].id == v;
    }
  }

  lemma RunningIds(t: Tables, rows: seq<ListedVm>)
    requires ListsRunning(t, rows) && forall v | v in t.vms && t.vms[v].status == Running :: ListedVm(v, t.vms[v]) in rows
    ensures Ids(rows) == set v | v in t.vms && t.vms[v].status == Running
  {
    forall v | v in t.vms && t.vms[v].status == Running ensures v in Ids(rows) {
      var i :| 0 <= i < |rows| && rows[i] == ListedVm(v, t.vms[v]);
      assert rows[i].id == v;
    }
  }

  /** Every running VM with an address was observed, and every needed write took effect. */
  ghost predicate AllObserved(t: Tables, seen: map<VmId, Entry>) {
    forall v | v in seen :: seen[v].wrote && (v in t.vms && t.vms[v].ip != "" ==> seen[v].tick.probe.Counted?)
  }

  /** The first i VMs of the listing are handled; if `clean`, nothing failed on the way. */
  ghost predicate Progress(t: Tables, u: Tables, rows: seq<ListedVm>, i: nat, seen: map<VmId, Entry>, asked: seq<VmId>,
                           clean: bool, timeout: int)
    requires i <= |rows|
  {
    && Passed(t, u, seen, asked, timeout) && seen.Keys == Ids(rows[..i])
    && (clean ==> AllObserved(t, seen) && forall v | v in asked :: v !in u.vms)
  }

  lemma ProgressOneMore(t: Tables, m: Tables, u: Tables, rows: seq<ListedVm>, i: nat, seen: map<VmId, Entry>,
                        asked: seq<VmId>,
                        clean: bool, timeout: int, entry: Entry, action: Action, still: bool)
    requires ListsRunning(t, rows) && i < |rows| && Progress(t, m, rows, i, seen, asked, clean, timeout)
    requires Handled(m, u, rows[i].id, rows[i].vm.zeroSince, entry, action, timeout)
    requires still ==> clean && !Amiss(rows[i].vm, entry, action)
    ensures Progress(t, u, rows, i + 1, seen[rows[i].id := entry], if action.Left? then asked else asked + [rows[i].id], still, timeout)
  {
    IdsOneMore(rows, i);
    PassedOneMore(t, m, u, seen, asked, rows[i], entry, action, timeout);
  }

  lemma NothingHandled(t: Tables, rows: seq<ListedVm>, timeout: int)
    ensures Progress(t, t, rows, 0, map[], [], true, timeout)
  {
    assert Ids(rows[..0]) == {};
  }

  ghost predicate AllTell(containers: map<Key, Container>, start: int, end: int, seen: map<VmId, Entry>) {
    forall v | v in seen :: TellsTruth(containers, v, start, end, seen[v].tick)
  }

  lemma OneMoreTells(containers: map<Key, Container>, start: int, middle: int, end: int, seen: map<VmId, Entry>, v: VmId,
                     entry: Entry)
    requires AllTell(containers, start, middle, seen) && start <= middle <= end
    requires TellsTruth(containers, v, middle, end, entry.tick)
    ensures AllTell(containers, start, end, seen[v := entry])
  {
  }

  /** The next VM, in a pass that began with `earlier` asked for and `faults` calls failed. */
  method ReconcileNext(p: GceProvider, rows: seq<ListedVm>, i: nat, timeout: int, before: map<VmId, Entry>,
                       sofar: seq<VmId>,
                       ghost earlier: seq<VmId>, ghost faults: nat, ghost start: int, ghost s: State,
                       ghost taken: seq<Step>, ghost m: State)
    returns (ok: bool, seen: map<VmId, Entry>, asked: seq<VmId>, ghost steps: seq<Step>, ghost u: State)
    requires Shows(p.db, m) && Leads(p.cfg, s, taken, m) && m == s.(t := m.t, failed := m.failed)
    requires ListsRunning(s.t, rows) && i < |rows| && Progress(s.t, m.t, rows, i, before, sofar, p.Faults() == faults, timeout)
    requires p.gce.asked == earlier + sofar && p.Faults() >= faults
    requires start <= p.clock.now && AllTell(p.fleet.containers, start, p.clock.now, before)
    modifies p.db`vms, p.db`failed, p.gce, p.net, p.fleet`failed, p.clock
    ensures Shows(p.db, u) && Leads(p.cfg, s, steps, u) && u == s.(t := u.t, failed := u.failed)
    ensures p.Faults() >= faults && (!ok ==> p.Faults() > faults)
    ensures Progress(s.t, u.t, rows, i + 1, seen, asked, p.Faults() == faults, timeout)
    ensures sofar <= asked && p.gce.asked == earlier + asked
    ensures start <= p.clock.now && AllTell(p.fleet.containers, start, p.clock.now, seen)
  {
    var entry, action;
    ghost var clean, reading := p.Faults() == faults, p.clock.now;
    entry, action, steps, u := ReconcileOne(p, rows[i], timeout, s, taken, m);
    ProgressOneMore(s.t, m.t, u.t, rows, i, before, sofar, clean, timeout, entry, action, p.Faults() == faults);
    OneMoreTells(p.fleet.containers, start, reading, p.clock.now, before, rows[i].id, entry);
    seen := before[rows[i].id := entry];
    asked := if action.Left? then sofar else sofar + [rows[i].id];
    ok := !action.RowStays?;
  }

  /** The loop; it ends early after a row that could not be deleted. */
  method ReconcileListed(p: GceProvider, rows: seq<ListedVm>, timeout: int, ghost s: State)
    returns (handled: nat, seen: map<VmId, Entry>, asked: seq<VmId>, ok: bool, ghost steps: seq<Step>, ghost u: State)
    requires Shows(p.db, s) && ListsRunning(s.t, rows)
    modifies p.db`vms, p.db`failed, p.gce, p.net, p.fleet`failed, p.clock
    ensures Shows(p.db, u) && Leads(p.cfg, s, steps, u) && u == s.(t := u.t, failed := u.failed)
    ensures p.gce.asked == old(p.gce.asked) + asked && p.Faults() >= old(p.Faults())
    ensures handled <= |rows| && Progress(s.t, u.t, rows, handled, seen, asked, p.Faults() == old(p.Faults()), timeout)
    ensures if ok then handled == |rows| else p.Faults() > old(p.Faults())
    ensures old(p.clock.now) <= p.clock.now && AllTell(p.fleet.containers, old(p.clock.now), p.clock.now, seen)
  {
    handled, ok, seen, asked, steps, u := 0, true, map[], [], [], s;
    ghost var earlier, faults, start := p.gce.asked, p.Faults(), p.clock.now;
    NothingHandled(s.t, rows, timeout);
    while ok && handled < |rows|
      invariant Shows(p.db, u) && Leads(p.cfg, s, steps, u) && u == s.(t := u.t, failed := u.failed)
      invariant handled <= |rows| && Progress(s.t, u.t, rows, handled, seen, asked, p.Faults() == faults, timeout)
      invariant p.gce.asked == earlier + asked && p.Faults() >= faults && (!ok ==> p.Faults() > faults)
      invariant start <= p.clock.now && AllTell(p.fleet.containers, start, p.clock.now, seen)
      decreases |rows| - handled
    {
      ok, seen, asked, steps, u :=
        ReconcileNext(p, rows, handled, timeout, seen, asked, earlier, faults, start, s, steps, u);
      handled := handled + 1;
    }
  }

  lemma PrefixIds(rows: seq<ListedVm>, n: nat)
    requires n <= |rows|
    ensures Ids(rows[..n]) <= Ids(rows) && (n == |rows| ==> Ids(rows[..n]) == Ids(rows))
  {
    forall v | v in Ids(rows[..n]) ensures v in Ids(rows) {
      var i :| 0 <= i < n && rows[..n][i].id == v;
      assert rows[i].id == v;
    }
    assert n == |rows| ==> rows[..n] == rows;
  }

  /** What a pass between two clock readings does about the windows, given the containers that run.  A VM that
      runs one is never asked for, and nor is one whose window is younger than the timeout; a window opens only
      on an empty VM, at a time in between, and closes only on one that is not empty. */
  ghost predicate Justified(t: Tables, u: Tables, containers: map<Key, Container>, asked: seq<VmId>, start: int, end: int,
                            timeout: int) {
    && (forall v | v in asked ::
          && v in t.vms && StartedOn(containers, v) == {}
          && t.vms[v].zeroSince.Some? && end - t.vms[v].zeroSince.value >= timeout)
    && (forall v | v in u.vms && v in t.vms && u.vms[v].zeroSince != t.vms[v].zeroSince ::
          if u.vms[v].zeroSince.None? then StartedOn(containers, v) != {}
          else t.vms[v].zeroSince.None? && StartedOn(containers, v) == {} && start <= u.vms[v].zeroSince.value <= end)
  }

  /** And a pass without a fault does so for every running VM with an address: the windows of those that run a
      container are closed, those of empty ones open, and an empty VM whose window is old enough is gone. */
  ghost predicate Thorough(t: Tables, u: Tables, containers: map<Key, Container>, asked: seq<VmId>, start: int,
                           timeout: int) {
    forall v | v in t.vms && t.vms[v].status == Running && t.vms[v].ip != "" ::
      if StartedOn(containers, v) != {} then v in u.vms && u.vms[v].zeroSince == None
      else
        && (v in u.vms ==> u.vms[v].zeroSince.Some?)
        && (t.vms[v].zeroSince.Some? && start - t.vms[v].zeroSince.value >= timeout ==> v in asked && v !in u.vms)
  }

  lemma PassIsJustified(t: Tables, u: Tables, containers: map<Key, Container>, seen: map<VmId, Entry>, asked: seq<VmId>,
                        start: int, end: int, timeout: int)
    requires Passed(t, u, seen, asked, timeout) && AllTell(containers, start, end, seen)
    ensures Justified(t, u, containers, asked, start, end, timeout)
  {
    forall v | v in asked
      ensures v in t.vms && StartedOn(containers, v) == {}
      ensures t.vms[v].zeroSince.Some? && end - t.vms[v].zeroSince.value >= timeout
    {
      assert v in seen && TellsTruth(containers, v, start, end, seen[v].tick);
    }
    forall v | v in u.vms && u.vms[v].zeroSince != t.vms[v].zeroSince
      ensures v in seen && TellsTruth(containers, v, start, end, seen[v].tick)
    {
      assert u.vms[v] == t.vms[v].(zeroSince := Store(t.vms[v].zeroSince, EntryOf(seen, v)));
    }
  }

  lemma CleanPassIsThorough(t: Tables, u: Tables, containers: map<Key, Container>, seen: map<VmId, Entry>,
                            asked: seq<VmId>, start: int, end: int, timeout: int)
    requires Passed(t, u, seen, asked, timeout) && AllTell(containers, start, end, seen) && AllObserved(t, seen)
    requires seen.Keys == (set v | v in t.vms && t.vms[v].status == Running) && forall v | v in asked :: v !in u.vms
    ensures Thorough(t, u, containers, asked, start, timeout)
  {
    forall v | v in t.vms && t.vms[v].status == Running && t.vms[v].ip != ""
      ensures if StartedOn(containers, v) != {} then v in u.vms && u.vms[v].zeroSince == None
              else
                && (v in u.vms ==> u.vms[v].zeroSince.Some?)
                && (t.vms[v].zeroSince.Some? && start - t.vms[v].zeroSince.value >= timeout ==> v in asked && v !in u.vms)
    {
      assert v in seen && TellsTruth(containers, v, start, end, seen[v].tick);
    }
  }

  /** ReconcileVMs.  It ends early, with an error, when the listing fails or a row could not be deleted
      after its instance was.  If nothing fails every running VM with an address is observed, and the rows of
      all VMs asked for are gone.  Justified and Thorough say what that means for VMs that run containers and
      for empty ones. */
  method ReconcileVMs(p: GceProvider, timeout: int, ghost s: State)
    returns (ok: bool, seen: map<VmId, Entry>, asked: seq<VmId>, ghost steps: seq<Step>, ghost u: State)
    requires Shows(p.db, s) && Inv(s)
    modifies p.db`vms, p.db`failed, p.gce, p.net, p.fleet`failed, p.clock
    ensures Shows(p.db, u) && Leads(p.cfg, s, steps, u) && Inv(u) && u == s.(t := u.t, failed := u.failed)
    ensures Passed(s.t, u.t, seen, asked, timeout) && p.gce.asked == old(p.gce.asked) + asked
    ensures Justified(s.t, u.t, p.fleet.containers, asked, old(p.clock.now), p.clock.now, timeout)
    ensures p.Faults() == old(p.Faults()) ==> Thorough(s.t, u.t, p.fleet.containers, asked, old(p.clock.now), timeout)
    ensures seen.Keys <= set v | v in s.t.vms && s.t.vms[v].status == Running
    ensures ok ==> seen.Keys == set v | v in s.t.vms && s.t.vms[v].status == Running
    ensures p.Faults() >= old(p.Faults())
    ensures p.Faults() == old(p.Faults()) ==> ok && AllObserved(s.t, seen) && forall v | v in asked :: v !in u.t.vms
  {
    ok, seen, asked, steps, u := false, map[], [], [], s;
    var reached := p.net.Call();
    var read := p.db.ListRunningVMInstances(reached);
    if read.Row? {
      RunningIds(s.t, read.row);
      var handled;
      handled, seen, asked, ok, steps, u := ReconcileListed(p, read.row, timeout, s);
      PrefixIds(read.row, handled);
    }
    RunKeepsInv(p.cfg, s, steps);
    PassIsJustified(s.t, u.t, p.fleet.containers, seen, asked, old(p.clock.now), p.clock.now, timeout);
    if p.Faults() == old(p.Faults()) {
      CleanPassIsThorough(s.t, u.t, p.fleet.containers, seen, asked, old(p.clock.now), p.clock.now, timeout);
    }
  }

  // ----- Pass after pass -----

  datatype Pass = Pass(before: Tables, after: Tables, seen: map<VmId, Entry>, asked: seq<VmId>)

  /** Successive passes, with row v there all along and its window touched by nothing else in between. */
  ghost predicate Series(passes: seq<Pass>, v: VmId, timeout: int) {
    && (forall i | 0 <= i < |passes| ::
          v in passes[i].before.vms && Passed(passes[i].before, passes[i].after, passes[i].seen, passes[i].asked, timeout))
    && (forall i, j | 0 <= i < j < |passes| && j == i + 1 ::
          v in passes[i].after.vms && passes[j].before.vms[v].zeroSince == passes[i].after.vms[v].zeroSince)
  }

  /** No step but ReconcileVMs' own write touches the window of a VM. */
  lemma {:induction false} OnlyStampsMoveTheWindow(cfg: Config, s: State, steps: seq<Step>, v: VmId)
    requires Inv(s) && IsRun(cfg, s, steps) && v in s.t.vms
    requires forall step | step in steps :: step.Stamp? ==> step.vm != v
    ensures v in After(cfg, s, steps).usedVms
    ensures v in After(cfg, s, steps).t.vms ==> After(cfg, s, steps).t.vms[v].zeroSince == s.t.vms[v].zeroSince
  {
    if steps != [] {
      var front := steps[..|steps| - 1];
      OnlyStampsMoveTheWindow(cfg, s, front, v);
      RunKeepsInv(cfg, s, front);
      VmNeverReturns(cfg, After(cfg, s, front), steps[|steps| - 1], v);
      if v in After(cfg, s, steps).t.vms {
        OtherStepsKeepTheWindow(cfg, After(cfg, s, front), steps[|steps| - 1], v);
      }
    }
  }

  lemma OtherStepsKeepTheWindow(cfg: Config, s: State, step: Step, v: VmId)
    requires Inv(s) && Enabled(cfg, s, step) && (step.Stamp? ==> step.vm != v)
    requires v in s.t.vms && v in Apply(cfg, s, step).t.vms
    ensures Apply(cfg, s, step).t.vms[v].zeroSince == s.t.vms[v].zeroSince
  {
    RowChange(cfg, s, step, v);
  }

  function EntriesOf(passes: seq<Pass>, v: VmId): (entries: seq<Entry>)
    ensures |entries| == |passes|
    ensures forall i | 0 <= i < |passes| :: entries[i] == EntryOf(passes[i].seen, v)
  {
    seq(|passes|, i requires 0 <= i < |passes| => EntryOf(passes[i].seen, v))
  }

  lemma {:induction false} WindowBefore(passes: seq<Pass>, v: VmId, timeout: int, k: nat)
    requires k < |passes| && Series(passes, v, timeout)
    ensures passes[k].before.vms[v].zeroSince == Stored(passes[0].before.vms[v].zeroSince, EntriesOf(passes, v)[..k])
  {
    var entries := EntriesOf(passes, v);
    if k > 0 {
      WindowBefore(passes, v, timeout, k - 1);
      assert entries[..k][..k - 1] == entries[..k - 1];
      var last, next := passes[k - 1], passes[k];
      assert v in last.after.vms && next.before.vms[v].zeroSince == last.after.vms[v].zeroSince;
    }
  }

  /** ReconcileVMs refines the automaton, per VM, pass after pass, whatever fails: GCE is asked to delete the
      VM at pass k exactly when the automaton asks for it on the effective ticks.  From a row as CreateVMInstance
      leaves it, and with no clear lost, no pass since the zero observation that opened the window saw an agent. */
  lemma {:induction false} PassesRefineTheAutomaton(passes: seq<Pass>, v: VmId, timeout: int, k: nat)
    requires k < |passes| && Series(passes, v, timeout)
    ensures var start, entries := passes[0].before.vms[v].zeroSince, EntriesOf(passes, v);
            && (v in passes[k].asked <==> ZA.DueAt(start, Effective(start, entries), k, timeout))
            && (start == None && v in passes[k].asked &&
                (forall m | 0 <= m < k :: ZA.SawAgents(entries[m].tick) ==> entries[m].wrote) ==>
                  exists j | 0 <= j < k ::
                    && ZA.SawZero(entries[j].tick) && ZA.SawZero(entries[k].tick)
                    && entries[k].tick.now - entries[j].tick.now >= timeout
                    && ZA.NoAgentsBetween(Observed(entries), j, k))
  {
    var start, entries := passes[0].before.vms[v].zeroSince, EntriesOf(passes, v);
    WindowBefore(passes, v, timeout, k);
    AskedIsDue(start, entries, k, timeout);
    if start == None && v in passes[k].asked {
      var j := DeletionJustifiedExactly(entries, k, timeout);
    }
  }

  /** A VM that never answers again, because it deleted itself, say, or its container-manager is down, is never
      asked for, and its row never goes or changes: the pass does not reconcile the table with GCE. */
  lemma {:induction false} SilentVmKeepsItsRow(passes: seq<Pass>, v: VmId, timeout: int, from: nat, k: nat)
    requires Series(passes, v, timeout) && from <= k < |passes|
    requires forall m | from <= m <= k :: EntryOf(passes[m].seen, v).tick.probe.Failed?
    ensures v !in passes[k].asked && v in passes[k].after.vms
    ensures passes[k].after.vms[v] == passes[k].before.vms[v]
    ensures passes[k].after.vms[v].zeroSince == passes[from].before.vms[v].zeroSince
  {
    assert EntryOf(passes[k].seen, v).tick.probe.Failed?;
    if from < k {
      SilentVmKeepsItsRow(passes, v, timeout, from, k - 1);
      var last, next := passes[k - 1], passes[k];
      assert next.before.vms[v].zeroSince == last.after.vms[v].zeroSince;
    }
  }
}
