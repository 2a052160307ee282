/**
 When a VM counts as idle, told from the sessions counted in and counted off on it.
 */
module IdleStamp {
  import opened Wrappers
  import opened Tables
  import opened Allocator

  datatype Change = CountedIn | CountedOff(at: int)

  /** What a step counts in or off on v. */
  function ChangeOn(s: State, step: Step, v: VmId): seq<Change> {
    if v !in s.t.vms then []
    else if step.Increment? && step.c in s.creators && s.creators[step.c] == Inserted(v) then [CountedIn]
    else if step.Decrement? && step.ok && s.cleaner.Sweeping? && s.cleaner.todo != [] && s.cleaner.todo[0].ep.vm == v
    then [CountedOff(step.now)]
    else []
  }

  ghost function Changes(cfg: Config, s: State, steps: seq<Step>, v: VmId): seq<Change>
    requires IsRun(cfg, s, steps)
    decreases |steps|
  {
    if steps == [] then []
    else
      var front := steps[..|steps| - 1];
      Changes(cfg, s, front, v) + ChangeOn(After(cfg, s, front), steps[|steps| - 1], v)
  }

  /** The sessions counted in and not yet off; never below zero. */
  function Counted(changes: seq<Change>): nat {
    if changes == [] then 0
    else
      var n := Counted(changes[..|changes| - 1]);
      if changes[|changes| - 1].CountedIn? then n + 1 else if n > 0 then n - 1 else 0
  }

  /** The row is empty since the last session was counted off, and since never if none ever was. */
  ghost predicate Stamped(row: Vm, changes: seq<Change>) {
    && row.active == Counted(changes)
    && if changes != [] && Counted(changes) == 0
       then changes[|changes| - 1].CountedOff? && row.idleSince == Some(changes[|changes| - 1].at)
       else row.idleSince == None
  }

  lemma OneMoreChange(row: Vm, changes: seq<Change>, s: State, step: Step, v: VmId)
    requires v in s.t.vms && s.t.vms[v] == row && Stamped(row, changes) && (step.Increment? ==> step.c in s.creators)
    requires step.Increment? && By(s, step.c, v) ==> s.creators[step.c] == Inserted(v)
    ensures Stamped(RowAfter(s, step, v), changes + ChangeOn(s, step, v))
  {
    var added := ChangeOn(s, step, v);
    if added == [] {
      assert changes + added == changes;
    } else {
      assert (changes + added)[..|changes + added| - 1] == changes;
    }
  }

  ghost predicate RowStamped(s: State, v: VmId, changes: seq<Change>) {
    && (v in s.t.vms ==> Stamped(s.t.vms[v], changes))
    && (v !in s.usedVms ==> changes == [])
  }

  lemma StepStamps(cfg: Config, s: State, step: Step, v: VmId, changes: seq<Change>)
    requires Inv(s) && Enabled(cfg, s, step) && RowStamped(s, v, changes)
    ensures RowStamped(Apply(cfg, s, step), v, changes + ChangeOn(s, step, v))
  {
    var n := Apply(cfg, s, step);
    if v in s.usedVms {
      VmNeverReturns(cfg, s, step, v);
    }
    if v in n.t.vms {
      if v in s.t.vms {
        RowChange(cfg, s, step, v);
        OneMoreChange(s.t.vms[v], changes, s, step, v);
      } else {
        NewRow(cfg, s, step, v);
        assert changes + [] == [];
      }
    } else if v !in s.t.vms {
      assert changes + [] == changes;
    }
  }

  /** A VM's counter and its idle_since, from its insert on, over every run. */
  lemma {:induction false} RunStamps(cfg: Config, s: State, steps: seq<Step>, v: VmId)
    requires Inv(s) && IsRun(cfg, s, steps) && v !in s.usedVms
    ensures RowStamped(After(cfg, s, steps), v, Changes(cfg, s, steps, v))
  {
    if steps != [] {
      var front := steps[..|steps| - 1];
      RunStamps(cfg, s, front, v);
      RunKeepsInv(cfg, s, front);
      StepStamps(cfg, After(cfg, s, front), steps[|steps| - 1], v, Changes(cfg, s, front, v));
    }
  }

  /** A VM is listed as idle exactly when it is running, every session counted in has been counted off again, there
      was one, and the last was counted off before the given time. */
  lemma IdleExactly(cfg: Config, s: State, steps: seq<Step>, v: VmId, before: int)
    requires Inv(s) && IsRun(cfg, s, steps) && v !in s.usedVms && v in After(cfg, s, steps).t.vms
    ensures var t, changes := After(cfg, s, steps).t, Changes(cfg, s, steps, v);
            IdleVm(t, v, before) <==>
              && t.vms[v].status == Running && changes != [] && Counted(changes) == 0
              && changes[|changes| - 1].CountedOff? && changes[|changes| - 1].at < before
  {
    RunStamps(cfg, s, steps, v);
  }

  /** A running VM whose last session is counted off is asked for by the first pass that lists idle VMs when
      IdleTimeout has passed since, and by none before, as long as nothing else is counted on it. */
  lemma EmptiedVmIsListed(cfg: Config, s: State, steps: seq<Step>, v: VmId, at: int, idle: seq<VmId>, now: int)
    requires Inv(s) && IsRun(cfg, s, steps) && v !in s.usedVms
    requires var changes := Changes(cfg, s, steps, v);
             changes != [] && Counted(changes) == 0 && changes[|changes| - 1] == CountedOff(at)
    requires v in After(cfg, s, steps).t.vms && After(cfg, s, steps).t.vms[v].status == Running
    requires Enabled(cfg, After(cfg, s, steps), ListIdleVms(idle, now))
    ensures v in idle <==> now - at > cfg.idleTimeout
  {
    IdleExactly(cfg, s, steps, v, now - cfg.idleTimeout);
  }

  // ----- Sessions -----

  /** What a step does to an endpoint's row: only last_activity ever changes. */
  lemma EndpointChange(cfg: Config, s: State, step: Step, e: EpId)
    requires Enabled(cfg, s, step) && e in Apply(cfg, s, step).t.eps
    ensures var row := Apply(cfg, s, step).t.eps[e];
            if e in s.t.eps && !(step.Insert? && step.newEp == e)
            then row == if step.Touch? && step.c == s.t.eps[e].conv then s.t.eps[e].(lastActivity := step.now) else s.t.eps[e]
            else step.Insert? && step.newEp == e && step.c in s.creators && s.creators[step.c].AgentUp? &&
                 row == Endpoint(step.c, s.creators[step.c].vm, step.container, s.creators[step.c].port, EpRunning, step.now)
  {
    if !step.Insert? && !step.DeleteRow? && !step.DropConversation? && !step.Touch? {
      EpsChange(cfg, s, step);
    }
  }

  /** When a step uses a session: it is placed, or there is activity in its conversation. */
  function UseOf(s: State, step: Step, e: EpId): seq<int> {
    if step.Insert? && step.newEp == e then [step.now]
    else if step.Touch? && e in s.t.eps && s.t.eps[e].conv == step.c then [step.now]
    else []
  }

  ghost function Uses(cfg: Config, s: State, steps: seq<Step>, e: EpId): seq<int>
    requires IsRun(cfg, s, steps)
    decreases |steps|
  {
    if steps == [] then []
    else
      var front := steps[..|steps| - 1];
      Uses(cfg, s, front, e) + UseOf(After(cfg, s, front), steps[|steps| - 1], e)
  }

  /** A session's row shows when it was last used. */
  lemma {:induction false} LastActivityExactly(cfg: Config, s: State, steps: seq<Step>, e: EpId)
    requires Inv(s) && IsRun(cfg, s, steps) && e !in s.usedEps && e in After(cfg, s, steps).t.eps
    ensures var uses, row := Uses(cfg, s, steps, e), After(cfg, s, steps).t.eps[e];
            uses != [] && row.lastActivity == uses[|uses| - 1] && row.status == EpRunning
  {
    assert steps != [];
    var front, last := steps[..|steps| - 1], steps[|steps| - 1];
    EndpointChange(cfg, After(cfg, s, front), last, e);
    if UseOf(After(cfg, s, front), last, e) == [] {
      LastActivityExactly(cfg, s, front, e);
    } else if !last.Insert? {
      LastActivityExactly(cfg, s, front, e);
    }
  }

  /** A sweep lists a session exactly when IdleTimeout has passed since it was last used. */
  lemma SessionIsListedExactly(cfg: Config, s: State, steps: seq<Step>, e: EpId, listing: seq<Listed>, now: int)
    requires Inv(s) && IsRun(cfg, s, steps) && e !in s.usedEps && e in After(cfg, s, steps).t.eps
    requires Enabled(cfg, After(cfg, s, steps), ListIdle(listing, now))
    ensures var uses := Uses(cfg, s, steps, e);
            uses != [] &&
            (Listed(e, After(cfg, s, steps).t.eps[e]) in listing <==> now - uses[|uses| - 1] > cfg.idleTimeout)
  {
    LastActivityExactly(cfg, s, steps, e);
  }
}
