/**
 The life of a vm_instances row, and the demotion that the shipped schema refuses.
 */
module VmStatus {
  import opened Tables
  import opened Allocator
  import opened Paths

  function Rank(status: VmStatus): nat {
    match status
    case Provisioning => 0
    case Running => 1
    case Unhealthy => 2
    case Terminated => 0
  }

  lemma StepRaisesStatus(cfg: Config, s: State, step: Step, v: VmId)
    requires Inv(s) && Enabled(cfg, s, step) && v in s.t.vms && v in Apply(cfg, s, step).t.vms
    ensures Rank(s.t.vms[v].status) <= Rank(Apply(cfg, s, step).t.vms[v].status)
    ensures Apply(cfg, s, step).t.vms[v].status != s.t.vms[v].status ==>
              Apply(cfg, s, step).t.vms[v].status in {Running, Unhealthy} * cfg.statuses + {Running}
  {
    RowChange(cfg, s, step, v);
  }

  /** A VM's status only rises, in every interleaving; so a VM found unhealthy is never again picked,
      listed as idle, or reconciled. */
  lemma {:induction false} StatusOnlyRises(cfg: Config, s: State, steps: seq<Step>, v: VmId)
    requires Inv(s) && IsRun(cfg, s, steps) && v in s.t.vms
    ensures v in After(cfg, s, steps).usedVms
    ensures v in After(cfg, s, steps).t.vms ==>
              && Rank(s.t.vms[v].status) <= Rank(After(cfg, s, steps).t.vms[v].status)
              && (s.t.vms[v].status == Unhealthy ==>
                    && After(cfg, s, steps).t.vms[v].status == Unhealthy
                    && (forall listing: seq<ListedVm> ::
                          ListsRunning(After(cfg, s, steps).t, listing) ==> forall i | 0 <= i < |listing| :: listing[i].id != v)
                    && (forall c :: !Enabled(cfg, After(cfg, s, steps), Pick(c, v)))
                    && (forall before :: !IdleVm(After(cfg, s, steps).t, v, before)))
  {
    if steps != [] {
      var front, last := steps[..|steps| - 1], steps[|steps| - 1];
      StatusOnlyRises(cfg, s, front, v);
      RunKeepsInv(cfg, s, front);
      VmNeverReturns(cfg, After(cfg, s, front), last, v);
      if v in After(cfg, s, steps).t.vms {
        StepRaisesStatus(cfg, After(cfg, s, front), last, v);
      }
    }
  }

  ghost predicate NoneUnhealthy(s: State) {
    forall v | v in s.t.vms :: s.t.vms[v].status != Unhealthy
  }

  /** Some run marks a VM unhealthy, beginning where none is. */
  ghost predicate Demotes(cfg: Config) {
    exists s, steps :: Inv(s) && NoneUnhealthy(s) && IsRun(cfg, s, steps) && !NoneUnhealthy(After(cfg, s, steps))
  }

  /** Marking a VM unhealthy is possible exactly when the CHECK constraint admits the status. */
  lemma DemotionWorksExactly(cfg: Config)
    requires Sane(cfg)
    ensures Demotes(cfg) <==> Unhealthy in cfg.statuses
  {
    if Unhealthy in cfg.statuses {
      var s0 := OneVm(0, {"a"});
      assert Fullest(s0.t, 0, cfg.max);
      var steps, s := CandidatePath(cfg, s0, [], s0, 1, "a", 0);
      var more, n := Take(cfg, s0, steps, s, Demote("a", true, true));
      assert n.t.vms[0].status == Unhealthy;
    } else {
      forall s, steps | Inv(s) && NoneUnhealthy(s) && IsRun(cfg, s, steps) ensures NoneUnhealthy(After(cfg, s, steps)) {
        NeverDemotes(cfg, s, steps);
      }
    }
  }

  lemma {:induction false} NeverDemotes(cfg: Config, s: State, steps: seq<Step>)
    requires Unhealthy !in cfg.statuses && Inv(s) && IsRun(cfg, s, steps) && NoneUnhealthy(s)
    ensures NoneUnhealthy(After(cfg, s, steps))
  {
    if steps != [] {
      var front, last := steps[..|steps| - 1], steps[|steps| - 1];
      NeverDemotes(cfg, s, front);
      RunKeepsInv(cfg, s, front);
      var m := After(cfg, s, front);
      forall v | v in Apply(cfg, m, last).t.vms ensures Apply(cfg, m, last).t.vms[v].status != Unhealthy {
        if v in m.t.vms {
          StepRaisesStatus(cfg, m, last, v);
        } else {
          NewRow(cfg, m, last, v);
        }
      }
    }
  }

  /** Under the constraint that is shipped no run does, so every ping of a dead VM is made again. */
  lemma ShippedSchemaNeverDemotes(cfg: Config)
    requires Sane(cfg) && cfg.statuses == SHIPPED_STATUSES
    ensures !Demotes(cfg)
  {
    DemotionWorksExactly(cfg);
  }
}
