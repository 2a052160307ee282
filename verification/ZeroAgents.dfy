/**
 The zero-agents window: the rule by which an empty VM is deleted.  The rule is implemented twice,
 in memory by container-manager's self-reaper and in the database by ReconcileVMs; both are proved
 against the automaton of this module (see SelfReaper.dfy and Reconcile.dfy).
 */
module ZeroAgents {
  import opened Wrappers

  datatype Probe = Failed | Counted(agents: int)

  datatype Tick = Tick(probe: Probe, now: int)

  predicate SawZero(tick: Tick) {
    tick.probe.Counted? && tick.probe.agents <= 0
  }

  predicate SawAgents(tick: Tick) {
    tick.probe.Counted? && tick.probe.agents > 0
  }

  /** What one tick does to the remembered start of the zero window. */
  function Advance(since: Option<int>, tick: Tick): Option<int> {
    if SawAgents(tick) then None
    else if SawZero(tick) && since.None? then Some(tick.now)
    else since
  }

  /** Whether a tick that finds the window open since `since` asks for the deletion. */
  predicate Due(since: Option<int>, tick: Tick, timeout: int) {
    SawZero(tick) && since.Some? && tick.now - since.value >= timeout
  }

  function Since(start: Option<int>, ticks: seq<Tick>): Option<int> {
    if ticks == [] then start else Advance(Since(start, ticks[..|ticks| - 1]), ticks[|ticks| - 1])
  }

  predicate DueAt(start: Option<int>, ticks: seq<Tick>, k: nat, timeout: int)
    requires k < |ticks|
  {
    Due(Since(start, ticks[..k]), ticks[k], timeout)
  }

  // ----- What the automaton means, without mentioning its state -----

  /** No agent was seen strictly between ticks i and k. */
  ghost predicate NoAgentsBetween(ticks: seq<Tick>, i: int, k: int)
    requires 0 <= i && k <= |ticks|
  {
    forall m | i < m < k :: !SawAgents(ticks[m])
  }

  /** Tick j is the first zero observation of a window that is still open when tick k arrives. */
  ghost predicate Opens(ticks: seq<Tick>, j: int, k: int)
    requires 0 <= j < k <= |ticks|
  {
    && SawZero(ticks[j])
    && NoAgentsBetween(ticks, j, k)
    && forall i | 0 <= i < j && SawZero(ticks[i]) :: !NoAgentsBetween(ticks, i, j)
  }

  lemma {:induction false} SinceIsOpening(ticks: seq<Tick>, k: nat) returns (j: int)
    requires k <= |ticks|
    ensures Since(None, ticks[..k]).Some? ==>
              0 <= j < k && Opens(ticks, j, k) && Since(None, ticks[..k]) == Some(ticks[j].now)
    ensures Since(None, ticks[..k]).None? ==>
              forall i | 0 <= i < k && SawZero(ticks[i]) :: !NoAgentsBetween(ticks, i, k)
  {
    if k == 0 {
      return 0;
    }
    assert ticks[..k][..k - 1] == ticks[..k - 1];
    j := SinceIsOpening(ticks, k - 1);
    var before := Since(None, ticks[..k - 1]);
    if SawAgents(ticks[k - 1]) {
      forall i | 0 <= i < k && SawZero(ticks[i]) ensures !NoAgentsBetween(ticks, i, k) {
        assert i < k - 1 < k;
      }
    } else if before.None? {
      if SawZero(ticks[k - 1]) {
        j := k - 1;
      } else {
        forall i | 0 <= i < k && SawZero(ticks[i]) ensures !NoAgentsBetween(ticks, i, k) {
          assert !NoAgentsBetween(ticks, i, k - 1);
        }
      }
    }
  }

  lemma OpeningIsUnique(ticks: seq<Tick>, i: int, j: int, k: int)
    requires 0 <= i < k <= |ticks| && 0 <= j < k
    requires Opens(ticks, i, k) && Opens(ticks, j, k)
    ensures i == j
  {
    if i < j {
      assert NoAgentsBetween(ticks, i, j);
    } else if j < i {
      assert NoAgentsBetween(ticks, j, i);
    }
  }

  /** A deletion is asked for at tick k exactly when tick k sees zero agents and the window that is
      open there was opened, by a zero observation, at least `timeout` earlier. */
  lemma DueExactly(ticks: seq<Tick>, k: nat, timeout: int)
    requires k < |ticks|
    ensures DueAt(None, ticks, k, timeout) <==>
              SawZero(ticks[k]) &&
              exists j | 0 <= j < k :: Opens(ticks, j, k) && ticks[k].now - ticks[j].now >= timeout
  {
    var w := SinceIsOpening(ticks, k);
    if j :| 0 <= j < k && Opens(ticks, j, k) && ticks[k].now - ticks[j].now >= timeout {
      assert NoAgentsBetween(ticks, j, k);
      OpeningIsUnique(ticks, j, w, k);
    }
  }

  // ----- Failed probes -----

  function Heard(ticks: seq<Tick>): seq<Tick> {
    if ticks == [] then []
    else
      var rest := Heard(ticks[..|ticks| - 1]);
      if ticks[|ticks| - 1].probe.Failed? then rest else rest + [ticks[|ticks| - 1]]
  }

  /** Failed probes leave no mark: dropping them all changes neither the window nor any deletion.
      In particular they do not stop the clock. */
  lemma {:induction false} FailuresInvisible(start: Option<int>, ticks: seq<Tick>)
    ensures Since(start, ticks) == Since(start, Heard(ticks))
  {
    if ticks != [] {
      var front, last := ticks[..|ticks| - 1], ticks[|ticks| - 1];
      FailuresInvisible(start, front);
      if !last.probe.Failed? {
        assert Heard(ticks)[..|Heard(ticks)| - 1] == Heard(front);
      }
    }
  }

  ghost predicate ClockRises(ticks: seq<Tick>) {
    forall i, j | 0 <= i < j < |ticks| :: ticks[i].now < ticks[j].now
  }

  /** Time between consecutive ticks from j to k that both observed zero agents. */
  function ObservedZeroTime(ticks: seq<Tick>, j: nat, k: nat): int
    requires j <= k < |ticks|
    decreases k
  {
    if j == k then 0
    else ObservedZeroTime(ticks, j, k - 1) +
         (if SawZero(ticks[k - 1]) && SawZero(ticks[k]) then ticks[k].now - ticks[k - 1].now else 0)
  }

  lemma {:induction false} ObservedAgainstElapsed(ticks: seq<Tick>, j: nat, k: nat)
    requires j <= k < |ticks| && ClockRises(ticks)
    ensures ObservedZeroTime(ticks, j, k) <= ticks[k].now - ticks[j].now
    ensures ObservedZeroTime(ticks, j, k) == ticks[k].now - ticks[j].now <==>
              j == k || forall m | j <= m <= k :: SawZero(ticks[m])
    decreases k
  {
    if j < k {
      ObservedAgainstElapsed(ticks, j, k - 1);
      if forall m | j <= m <= k :: SawZero(ticks[m]) {
        assert SawZero(ticks[k - 1]) && SawZero(ticks[k]);
      }
    }
  }

  /** The reaper's documentation says a failing probe "can never accumulate time toward the deletion
      threshold".  Read as "a deletion needs `timeout` of observed emptiness", that holds for every
      timeout exactly when no probe failed while the window was open. */
  lemma FailureTimeCountsUnlessNoneFailed(ticks: seq<Tick>, j: nat, k: nat)
    requires j < k < |ticks| && ClockRises(ticks)
    requires Opens(ticks, j, k) && SawZero(ticks[k])
    ensures (forall timeout: int :: DueAt(None, ticks, k, timeout) ==> ObservedZeroTime(ticks, j, k) >= timeout)
       <==> (forall m | j < m < k :: !ticks[m].probe.Failed?)
  {
    var elapsed := ticks[k].now - ticks[j].now;
    ObservedAgainstElapsed(ticks, j, k);
    var w := SinceIsOpening(ticks, k);
    OpeningIsUnique(ticks, j, w, k);
    assert DueAt(None, ticks, k, elapsed);
    if forall m | j < m < k :: !ticks[m].probe.Failed? {
      forall m | j <= m <= k ensures SawZero(ticks[m]) {
        assert NoAgentsBetween(ticks, j, k);
      }
    }
  }

  /** Ten minutes with one zero reading at each end and nothing but failures between is a deletion. */
  lemma FailureTimeCountsExample()
    ensures var ticks := [Tick(Counted(0), 0), Tick(Failed, 300), Tick(Counted(0), 600)];
            DueAt(None, ticks, 2, 600) && ObservedZeroTime(ticks, 0, 2) == 0
  {
    var ticks := [Tick(Counted(0), 0), Tick(Failed, 300), Tick(Counted(0), 600)];
    assert ticks[..2] == [Tick(Counted(0), 0), Tick(Failed, 300)];
    assert ticks[..2][..1] == [Tick(Counted(0), 0)];
    assert Since(None, [Tick(Counted(0), 0)][..0]) == None;
    assert ObservedZeroTime(ticks, 0, 1) == 0;
  }

  // ----- Progress -----

  function CeilDiv(a: int, b: int): int
    requires b > 0
  {
    (a + b - 1) / b
  }

  lemma {:induction false} WindowStaysOpen(start: Option<int>, ticks: seq<Tick>, s: nat, k: nat)
    requires s < k <= |ticks| && Since(start, ticks[..s]).None?
    requires forall m | s <= m < k :: SawZero(ticks[m])
    ensures Since(start, ticks[..k]) == Some(ticks[s].now)
  {
    assert ticks[..k][..k - 1] == ticks[..k - 1];
    if k > s + 1 {
      WindowStaysOpen(start, ticks, s, k - 1);
    }
  }

  lemma {:induction false} TicksSpread(ticks: seq<Tick>, interval: int, s: nat, k: nat)
    requires s <= k < |ticks|
    requires forall m | s <= m < k :: ticks[m + 1].now - ticks[m].now >= interval
    ensures ticks[k].now - ticks[s].now >= (k - s) * interval
    decreases k
  {
    if s < k {
      TicksSpread(ticks, interval, s, k - 1);
      assert (k - s) * interval == (k - 1 - s) * interval + interval;
    }
  }

  /** If the window is closed before tick s and every probe from s on succeeds with zero agents on
      ticks at least `interval` apart, then every tick from s + ceil(timeout / interval) on asks for
      the deletion. */
  lemma DeletionComesDue(start: Option<int>, ticks: seq<Tick>, interval: int, timeout: int, s: nat, k: nat)
    requires interval > 0 && timeout > 0
    requires s + CeilDiv(timeout, interval) <= k < |ticks|
    requires Since(start, ticks[..s]).None?
    requires forall m | s <= m <= k :: SawZero(ticks[m])
    requires forall m | s <= m < k :: ticks[m + 1].now - ticks[m].now >= interval
    ensures s < k && DueAt(start, ticks, k, timeout)
  {
    CeilDivCovers(timeout, interval, k - s);
    WindowStaysOpen(start, ticks, s, k);
    TicksSpread(ticks, interval, s, k);
  }

  lemma CeilDivCovers(a: int, b: int, n: int)
    requires a > 0 && b > 0 && n >= CeilDiv(a, b)
    ensures n >= 1 && n * b >= a
  {
    var q := CeilDiv(a, b);
    assert q * b + (a + b - 1) % b == a + b - 1;
    assert q >= 1;
    assert n * b >= q * b by {
      assert (n - q) * b >= 0;
    }
  }
}
