/**
 The local session manager over values.  The mutex is held for the whole of GetOrCreate and of Stop, so each
 is one step; what the container engine and the clock answer on it is part of the step.  Containers may die,
 and may be removed by others, at any time.
 */
module Sessions {
  type ConvId = string
  type BoxId = nat
  type TimerId = nat

  datatype Box = Box(name: string, running: bool)

  datatype Session = Session(box: BoxId, timer: TimerId, lastUsed: int)

  datatype Timer = Timer(conv: ConvId, due: int)

  /** `fired` holds the timer callbacks that wait for the mutex; `up` the containers this manager created,
      started and found ready, with the conversation each was made for; `removed` those it removed. */
  datatype State = State(
    sessions: map<ConvId, Session>,
    boxes: map<BoxId, Box>,
    timers: map<TimerId, Timer>,
    fired: multiset<ConvId>,
    usedBoxes: set<BoxId>,
    usedTimers: set<TimerId>,
    up: map<BoxId, ConvId>,
    removed: set<BoxId>,
    clock: int)

  /** What the engine and the agent answer to one GetOrCreate; `box` and `timer` are new ids. */
  datatype Answers = Answers(
    inspected: bool, created: bool, started: bool, ready: bool, initialised: bool, stopped: bool, removed: bool,
    box: BoxId, timer: TimerId)

  datatype Outcome = Hit | Made | CreateFailed | StartFailed | NotReady | NotInitialised

  datatype StopOutcome = Absent | StopFailed | RemoveFailed | Stopped

  const NAME_PREFIX := "cctunnel-session-"

  function NameOf(c: ConvId): string {
    NAME_PREFIX + if |c| > 8 then c[..8] else c
  }

  predicate NameInUse(boxes: map<BoxId, Box>, name: string) {
    exists x :: x in boxes && boxes[x].name == name
  }

  /** The cached container answers an inspection as running. */
  predicate Alive(s: State, c: ConvId, ans: Answers) {
    c in s.sessions && ans.inspected && s.sessions[c].box in s.boxes && s.boxes[s.sessions[c].box].running
  }

  /** The outcome of GetOrCreate(c): what the code does, in its order. */
  function GetOutcome(s: State, c: ConvId, ans: Answers): Outcome {
    if Alive(s, c, ans) then Hit
    else if !ans.created || NameInUse(s.boxes, NameOf(c)) then CreateFailed
    else if !ans.started then StartFailed
    else if !ans.ready then NotReady
    else if !ans.initialised then NotInitialised
    else Made
  }

  function One(failed: bool): nat {
    if failed then 1 else 0
  }

  /** The calls of GetOrCreate(c) that returned an error although they need not have. */
  function GetFaults(s: State, c: ConvId, ans: Answers): nat {
    One(c in s.sessions && s.sessions[c].box in s.boxes && !ans.inspected) +
    match GetOutcome(s, c, ans)
    case CreateFailed => One(!NameInUse(s.boxes, NameOf(c)))
    case StartFailed => 1
    case NotReady => 1 + One(!ans.stopped) + One(!ans.removed)
    case NotInitialised => 1 + One(!ans.stopped) + One(!ans.removed)
    case _ => 0
  }

  function WithoutBox(s: State, x: BoxId): State {
    s.(boxes := s.boxes - {x}, removed := s.removed + {x})
  }

  function StopBox(s: State, x: BoxId): State {
    if x in s.boxes then s.(boxes := s.boxes[x := s.boxes[x].(running := false)]) else s
  }

  function WithBox(s: State, c: ConvId, box: BoxId, running: bool): State {
    s.(boxes := s.boxes[box := Box(NameOf(c), running)], usedBoxes := s.usedBoxes + {box})
  }

  /** A container that did not come up is stopped and removed; both errors are ignored. */
  function Discard(s: State, box: BoxId, stopped: bool, removed: bool): State {
    var m := if stopped then StopBox(s, box) else s;
    if removed then WithoutBox(m, box) else m
  }

  function GetState(s: State, c: ConvId, ans: Answers, idle: int): State {
    var dropped := s.(sessions := s.sessions - {c});
    match GetOutcome(s, c, ans)
    case Hit =>
      s.(sessions := s.sessions[c := s.sessions[c].(lastUsed := s.clock)],
         timers := s.timers[s.sessions[c].timer := Timer(c, s.clock + idle)])
    case CreateFailed => dropped
    case StartFailed => WithBox(dropped, c, ans.box, false)
    case NotReady => Discard(WithBox(dropped, c, ans.box, true), ans.box, ans.stopped, ans.removed)
    case NotInitialised => Discard(WithBox(dropped, c, ans.box, true), ans.box, ans.stopped, ans.removed)
    case Made =>
      WithBox(dropped, c, ans.box, true).(
        sessions := s.sessions[c := Session(ans.box, ans.timer, s.clock)],
        timers := s.timers[ans.timer := Timer(c, s.clock + idle)],
        usedTimers := s.usedTimers + {ans.timer},
        up := s.up[ans.box := c])
  }

  function StopResult(s: State, c: ConvId, stopped: bool, removed: bool): StopOutcome {
    if c !in s.sessions then Absent
    else if !stopped then StopFailed
    else if !removed then RemoveFailed
    else Stopped
  }

  function StopState(s: State, c: ConvId, stopped: bool, removed: bool): State {
    if c !in s.sessions then s
    else
      var session := s.sessions[c];
      var m := s.(timers := s.timers - {session.timer});
      match StopResult(s, c, stopped, removed)
      case StopFailed => m
      case RemoveFailed => StopBox(m, session.box)
      case _ => WithoutBox(StopBox(m, session.box), session.box).(sessions := s.sessions - {c})
  }

  datatype Step =
    | Get(c: ConvId, ans: Answers)
    | Stop(c: ConvId, stopped: bool, removed: bool)
    | Fire(timer: TimerId)
    | Callback(c: ConvId, stopped: bool, removed: bool)
    | Dies(box: BoxId)
    | Vanishes(box: BoxId)
    | Pass(to: int)

  predicate Enabled(s: State, step: Step) {
    match step
    case Get(_, ans) => ans.box !in s.usedBoxes && ans.timer !in s.usedTimers
    case Stop(_, _, _) => true
    case Fire(t) => t in s.timers && s.timers[t].due <= s.clock
    case Callback(c, _, _) => c in s.fired
    case Dies(x) => x in s.boxes
    case Vanishes(x) => x in s.boxes
    case Pass(to) => s.clock <= to
  }

  function Apply(s: State, step: Step, idle: int): State
    requires Enabled(s, step)
  {
    match step
    case Get(c, ans) => GetState(s, c, ans, idle)
    case Stop(c, stopped, removed) => StopState(s, c, stopped, removed)
    case Fire(t) => s.(timers := s.timers - {t}, fired := s.fired + multiset{s.timers[t].conv})
    case Callback(c, stopped, removed) => StopState(s, c, stopped, removed).(fired := s.fired - multiset{c})
    case Dies(x) => StopBox(s, x)
    case Vanishes(x) => s.(boxes := s.boxes - {x})
    case Pass(to) => s.(clock := to)
  }

  ghost predicate IsRun(s: State, steps: seq<Step>, idle: int)
    decreases |steps|, 0
  {
    steps == [] ||
    (IsRun(s, steps[..|steps| - 1], idle) && Enabled(After(s, steps[..|steps| - 1], idle), steps[|steps| - 1]))
  }

  ghost function After(s: State, steps: seq<Step>, idle: int): State
    requires IsRun(s, steps, idle)
    decreases |steps|, 1
  {
    if steps == [] then s else Apply(After(s, steps[..|steps| - 1], idle), steps[|steps| - 1], idle)
  }

  // ----- Cache agreement -----

  /** Every cached session refers to a container this manager created for it, started, found ready and has not
      removed; its name is the conversation's; distinct conversations have distinct containers and timers. */
  ghost predicate Inv(s: State) {
    && s.boxes.Keys <= s.usedBoxes && s.up.Keys <= s.usedBoxes && s.removed <= s.usedBoxes && s.timers.Keys <= s.usedTimers
    && (forall x, y | x in s.boxes && y in s.boxes && s.boxes[x].name == s.boxes[y].name :: x == y)
    && (forall c | c in s.sessions ::
          && s.sessions[c].box in s.up && s.up[s.sessions[c].box] == c && s.sessions[c].box !in s.removed
          && (s.sessions[c].box in s.boxes ==> s.boxes[s.sessions[c].box].name == NameOf(c))
          && s.sessions[c].timer in s.usedTimers)
    && (forall c, d | c in s.sessions && d in s.sessions && c != d ::
          s.sessions[c].box != s.sessions[d].box && s.sessions[c].timer != s.sessions[d].timer)
    && (forall c | c in s.sessions && s.sessions[c].timer in s.timers :: s.timers[s.sessions[c].timer].conv == c)
  }

  /** A call that ends in an error: the entry is gone, and at most one container is new. */
  ghost predicate Failure(s: State, n: State, c: ConvId, ans: Answers) {
    && n == s.(sessions := s.sessions - {c}, boxes := n.boxes, usedBoxes := n.usedBoxes, removed := n.removed)
    && s.usedBoxes <= n.usedBoxes <= s.usedBoxes + {ans.box} && n.removed <= s.removed + {ans.box}
    && (ans.box in n.boxes || ans.box in n.removed ==> ans.box in n.usedBoxes)
    && (forall x | x in s.boxes :: x in n.boxes && n.boxes[x] == s.boxes[x])
    && (forall x | x in n.boxes && x !in s.boxes :: x == ans.box && n.boxes[x].name == NameOf(c) && !NameInUse(s.boxes, NameOf(c)))
  }

  lemma FailureShape(s: State, c: ConvId, ans: Answers, idle: int)
    requires Inv(s) && Enabled(s, Get(c, ans)) && !GetOutcome(s, c, ans).Hit? && !GetOutcome(s, c, ans).Made?
    ensures Failure(s, GetState(s, c, ans, idle), c, ans)
  {
  }

  lemma FailureKeepsInv(s: State, n: State, c: ConvId, ans: Answers)
    requires Inv(s) && Failure(s, n, c, ans) && ans.box !in s.usedBoxes
    ensures Inv(n)
  {
    forall x, y | x in n.boxes && y in n.boxes && n.boxes[x].name == n.boxes[y].name ensures x == y {
      assert x !in s.boxes || y !in s.boxes ==> !NameInUse(s.boxes, NameOf(c));
    }
  }

  lemma HitKeepsInv(s: State, c: ConvId, ans: Answers, idle: int)
    requires Inv(s) && GetOutcome(s, c, ans).Hit?
    ensures Inv(GetState(s, c, ans, idle))
  {
  }

  lemma MadeKeepsInv(s: State, c: ConvId, ans: Answers, idle: int)
    requires Inv(s) && Enabled(s, Get(c, ans)) && GetOutcome(s, c, ans).Made?
    ensures Inv(GetState(s, c, ans, idle))
  {
    assert forall x | x in s.boxes :: s.boxes[x].name != NameOf(c);
  }

  lemma GetKeepsInv(s: State, c: ConvId, ans: Answers, idle: int)
    requires Inv(s) && Enabled(s, Get(c, ans))
    ensures Inv(GetState(s, c, ans, idle))
  {
    match GetOutcome(s, c, ans)
    case Hit => HitKeepsInv(s, c, ans, idle);
    case Made => MadeKeepsInv(s, c, ans, idle);
    case _ =>
      FailureShape(s, c, ans, idle);
      FailureKeepsInv(s, GetState(s, c, ans, idle), c, ans);
  }

  lemma StopKeepsInv(s: State, c: ConvId, stopped: bool, removed: bool)
    requires Inv(s)
    ensures Inv(StopState(s, c, stopped, removed))
  {
  }

  lemma StepKeepsInv(s: State, step: Step, idle: int)
    requires Inv(s) && Enabled(s, step)
    ensures Inv(Apply(s, step, idle))
  {
    match step
    case Get(c, ans) => GetKeepsInv(s, c, ans, idle);
    case Stop(c, stopped, removed) => StopKeepsInv(s, c, stopped, removed);
    case Callback(c, stopped, removed) => StopKeepsInv(s, c, stopped, removed);
    case _ =>
  }

  /** Over every run. */
  lemma {:induction false} RunKeepsInv(s: State, steps: seq<Step>, idle: int)
    requires Inv(s) && IsRun(s, steps, idle)
    ensures Inv(After(s, steps, idle))
  {
    if steps != [] {
      RunKeepsInv(s, steps[..|steps| - 1], idle);
      StepKeepsInv(After(s, steps[..|steps| - 1], idle), steps[|steps| - 1], idle);
    }
  }

  /** An error leaves no entry for the conversation, and no other entry or timer changes. */
  lemma ErrorLeavesNoEntry(s: State, c: ConvId, ans: Answers, idle: int)
    requires Inv(s) && Enabled(s, Get(c, ans)) && !GetOutcome(s, c, ans).Hit? && !GetOutcome(s, c, ans).Made?
    ensures GetState(s, c, ans, idle).sessions == s.sessions - {c} && GetState(s, c, ans, idle).timers == s.timers
  {
  }

  // ----- Recreating a session -----

  /** A container holds the conversation's name and no session refers to it. */
  predicate Orphan(s: State, c: ConvId, x: BoxId) {
    && x in s.boxes && s.boxes[x].name == NameOf(c)
    && c !in s.sessions && forall d | d in s.sessions :: s.sessions[d].box != x
  }

  /** "Container is dead -- remove stale entry and recreate": from a cached session that is not reused, a new
      one can be made exactly when no container holds the name any more.  The code itself never removes the
      dead one, so while that is still in the engine the conversation cannot be served. */
  lemma RecreationWorksExactly(s: State, c: ConvId, idle: int)
    requires Inv(s) && c in s.sessions
    ensures (exists ans :: Enabled(s, Get(c, ans)) && GetOutcome(s, c, ans).Made?) <==> !NameInUse(s.boxes, NameOf(c))
    ensures forall ans :: Enabled(s, Get(c, ans)) && !Alive(s, c, ans) && s.sessions[c].box in s.boxes ==>
              GetOutcome(s, c, ans).CreateFailed? && Orphan(GetState(s, c, ans, idle), c, s.sessions[c].box)
  {
    if !NameInUse(s.boxes, NameOf(c)) {
      var box := Above(s.usedBoxes);
      var timer := Above(s.usedTimers);
      var ans := Answers(true, true, true, true, true, true, true, box, timer);
      assert Enabled(s, Get(c, ans)) && GetOutcome(s, c, ans).Made?;
    }
    forall ans | Enabled(s, Get(c, ans)) && !Alive(s, c, ans) && s.sessions[c].box in s.boxes
      ensures GetOutcome(s, c, ans).CreateFailed? && Orphan(GetState(s, c, ans, idle), c, s.sessions[c].box)
    {
      assert NameInUse(s.boxes, NameOf(c));
    }
  }

  lemma Above(used: set<nat>) returns (bound: nat)
    ensures forall x | x in used :: x < bound
    decreases used
  {
    if used == {} {
      return 0;
    }
    var x :| x in used;
    var below := Above(used - {x});
    bound := if below <= x then x + 1 else below;
    forall y | y in used ensures y < bound {
      assert y == x || y in used - {x};
    }
  }

  /** A failed GetOrCreate blocks the conversation unless the container it made was removed again: always when
      the container was created and not started. */
  lemma FailureOrphansExactly(s: State, c: ConvId, ans: Answers, idle: int)
    requires Inv(s) && Enabled(s, Get(c, ans)) && GetOutcome(s, c, ans) in {StartFailed, NotReady, NotInitialised}
    ensures var n := GetState(s, c, ans, idle);
            && (Orphan(n, c, ans.box) <==> GetOutcome(s, c, ans).StartFailed? || !ans.removed)
            && (!Orphan(n, c, ans.box) ==> n.boxes == s.boxes)
  {
  }

  lemma GetKeepsOrphan(s: State, d: ConvId, ans: Answers, idle: int, c: ConvId, x: BoxId)
    requires Inv(s) && Enabled(s, Get(d, ans)) && Orphan(s, c, x)
    ensures Orphan(GetState(s, d, ans, idle), c, x)
  {
    if !GetOutcome(s, d, ans).Hit? && !GetOutcome(s, d, ans).Made? {
      FailureShape(s, d, ans, idle);
    }
  }

  lemma StepKeepsOrphan(s: State, step: Step, idle: int, c: ConvId, x: BoxId)
    requires Inv(s) && Enabled(s, step) && Orphan(s, c, x) && step != Vanishes(x)
    ensures Orphan(Apply(s, step, idle), c, x)
  {
    if step.Get? {
      GetKeepsOrphan(s, step.c, step.ans, idle, c, x);
    }
  }

  /** An orphan stays, and every GetOrCreate for its conversation fails, until someone else removes it: no
      operation of the manager, no timer and no crash of the container does. */
  lemma {:induction false} OrphanBlocksForever(s: State, steps: seq<Step>, idle: int, c: ConvId, x: BoxId)
    requires Inv(s) && IsRun(s, steps, idle) && Orphan(s, c, x) && Vanishes(x) !in steps
    ensures Orphan(After(s, steps, idle), c, x)
    ensures forall ans :: GetOutcome(After(s, steps, idle), c, ans) == CreateFailed
  {
    if steps != [] {
      var front := steps[..|steps| - 1];
      OrphanBlocksForever(s, front, idle, c, x);
      RunKeepsInv(s, front, idle);
      StepKeepsOrphan(After(s, front, idle), steps[|steps| - 1], idle, c, x);
    }
    assert NameInUse(After(s, steps, idle).boxes, NameOf(c));
  }

  // ----- Idle stops -----

  /** A waiting timer callback would stop the conversation's session only after IdleTimeout without use. */
  predicate IdleStopsTimely(s: State, idle: int) {
    forall c | c in s.fired && c in s.sessions :: s.clock - s.sessions[c].lastUsed >= idle
  }

  /** An armed timer of a conversation with a session is that session's, and due when it will have been idle. */
  predicate TimersCurrent(s: State, idle: int) {
    forall t | t in s.timers && s.timers[t].conv in s.sessions ::
      s.sessions[s.timers[t].conv].timer == t && s.timers[t].due == s.sessions[s.timers[t].conv].lastUsed + idle
  }

  /** A session is made while the timer of an earlier one, dropped as dead, is still armed. */
  predicate Replaces(s: State, step: Step) {
    step.Get? && GetOutcome(s, step.c, step.ans).Made? && exists t :: t in s.timers && s.timers[t].conv == step.c
  }

  /** A session is made or used while a timer callback for its conversation waits for the mutex. */
  predicate Races(s: State, step: Step) {
    step.Get? && GetOutcome(s, step.c, step.ans) in {Hit, Made} && step.c in s.fired
  }

  ghost predicate Allowed(s: State, steps: seq<Step>, idle: int, replacing: bool, racing: bool)
    requires IsRun(s, steps, idle)
    decreases |steps|
  {
    steps == [] ||
    var front, last := steps[..|steps| - 1], steps[|steps| - 1];
    && Allowed(s, front, idle, replacing, racing)
    && (Replaces(After(s, front, idle), last) ==> replacing)
    && (Races(After(s, front, idle), last) ==> racing)
  }

  ghost predicate Starts(s: State) {
    Inv(s) && s.sessions == map[] && s.timers == map[] && s.fired == multiset{}
  }

  ghost predicate StopsOnlyIdle(replacing: bool, racing: bool) {
    forall s, steps, idle | Starts(s) && IsRun(s, steps, idle) && Allowed(s, steps, idle, replacing, racing) ::
      IdleStopsTimely(After(s, steps, idle), idle)
  }

  lemma GetKeepsTimely(s: State, c: ConvId, ans: Answers, idle: int)
    requires Inv(s) && Enabled(s, Get(c, ans)) && TimersCurrent(s, idle) && IdleStopsTimely(s, idle)
    requires !Replaces(s, Get(c, ans)) && !Races(s, Get(c, ans))
    ensures TimersCurrent(GetState(s, c, ans, idle), idle) && IdleStopsTimely(GetState(s, c, ans, idle), idle)
  {
    if !GetOutcome(s, c, ans).Hit? && !GetOutcome(s, c, ans).Made? {
      FailureShape(s, c, ans, idle);
    }
  }

  lemma StopKeepsTimely(s: State, c: ConvId, stopped: bool, removed: bool, idle: int)
    requires Inv(s) && TimersCurrent(s, idle) && IdleStopsTimely(s, idle)
    ensures var n := StopState(s, c, stopped, removed);
            TimersCurrent(n, idle) && IdleStopsTimely(n, idle) && n.fired == s.fired
  {
  }

  lemma StepKeepsTimely(s: State, step: Step, idle: int)
    requires Inv(s) && Enabled(s, step) && TimersCurrent(s, idle) && IdleStopsTimely(s, idle)
    requires !Replaces(s, step) && !Races(s, step)
    ensures TimersCurrent(Apply(s, step, idle), idle) && IdleStopsTimely(Apply(s, step, idle), idle)
  {
    if step.Get? {
      GetKeepsTimely(s, step.c, step.ans, idle);
    } else if step.Stop? || step.Callback? {
      StopKeepsTimely(s, step.c, step.stopped, step.removed, idle);
    }
  }

  lemma {:induction false} RunKeepsTimely(s: State, steps: seq<Step>, idle: int)
    requires Starts(s) && IsRun(s, steps, idle) && Allowed(s, steps, idle, false, false)
    ensures TimersCurrent(After(s, steps, idle), idle) && IdleStopsTimely(After(s, steps, idle), idle)
  {
    if steps != [] {
      var front := steps[..|steps| - 1];
      RunKeepsTimely(s, front, idle);
      RunKeepsInv(s, front, idle);
      StepKeepsTimely(After(s, front, idle), steps[|steps| - 1], idle);
    }
  }

  const EMPTY := State(map[], map[], map[], multiset{}, {}, {}, map[], {}, 0)

  function Good(id: nat): Answers {
    Answers(true, true, true, true, true, true, true, id, id)
  }

  lemma Next(steps: seq<Step>, s: State, step: Step, replacing: bool, racing: bool) returns (longer: seq<Step>, n: State)
    requires IsRun(EMPTY, steps, 10) && After(EMPTY, steps, 10) == s && Allowed(EMPTY, steps, 10, replacing, racing)
    requires Enabled(s, step) && (Replaces(s, step) ==> replacing) && (Races(s, step) ==> racing)
    ensures IsRun(EMPTY, longer, 10) && After(EMPTY, longer, 10) == n && Allowed(EMPTY, longer, 10, replacing, racing)
    ensures n == Apply(s, step, 10)
  {
    longer, n := steps + [step], Apply(s, step, 10);
    assert longer[..|longer| - 1] == steps;
  }

  /** A container is removed from outside; its session is replaced a second before the old timer fires. */
  lemma ReplacedSessionStoppedEarly(c: ConvId) returns (steps: seq<Step>)
    ensures IsRun(EMPTY, steps, 10) && Allowed(EMPTY, steps, 10, true, false)
    ensures !IdleStopsTimely(After(EMPTY, steps, 10), 10)
  {
    var s;
    steps, s := Next([], EMPTY, Get(c, Good(0)), true, false);
    steps, s := Next(steps, s, Vanishes(0), true, false);
    steps, s := Next(steps, s, Pass(9), true, false);
    steps, s := Next(steps, s, Get(c, Good(1)), true, false);
    steps, s := Next(steps, s, Pass(10), true, false);
    steps, s := Next(steps, s, Fire(0), true, false);
    assert c in s.fired && s.sessions[c].lastUsed == 9;
  }

  /** A session is used while its timer's callback waits for the mutex. */
  lemma UsedSessionStopped(c: ConvId) returns (steps: seq<Step>)
    ensures IsRun(EMPTY, steps, 10) && Allowed(EMPTY, steps, 10, false, true)
    ensures !IdleStopsTimely(After(EMPTY, steps, 10), 10)
  {
    var s;
    steps, s := Next([], EMPTY, Get(c, Good(0)), false, true);
    steps, s := Next(steps, s, Pass(10), false, true);
    steps, s := Next(steps, s, Fire(0), false, true);
    steps, s := Next(steps, s, Get(c, Good(1)), false, true);
    assert c in s.fired && s.sessions[c].lastUsed == 10;
  }

  lemma {:induction false} AllowedWidens(s: State, steps: seq<Step>, idle: int, replacing: bool, racing: bool)
    requires IsRun(s, steps, idle)
    requires Allowed(s, steps, idle, replacing, false) || Allowed(s, steps, idle, false, racing)
    ensures Allowed(s, steps, idle, replacing, racing)
  {
    if steps != [] {
      AllowedWidens(s, steps[..|steps| - 1], idle, replacing, racing);
    }
  }

  /** "Stopped only after IdleTimeout" holds on every run exactly when no session is made while an earlier
      one's timer is armed, and none is made or used while a callback for it waits. */
  lemma {:induction false} StopsOnlyIdleExactly(replacing: bool, racing: bool)
    ensures StopsOnlyIdle(replacing, racing) <==> !replacing && !racing
  {
    if replacing {
      var steps := ReplacedSessionStoppedEarly("c");
      AllowedWidens(EMPTY, steps, 10, true, racing);
      assert Starts(EMPTY);
    } else if racing {
      var steps := UsedSessionStopped("c");
      assert Starts(EMPTY);
    } else {
      forall s, steps, idle | Starts(s) && IsRun(s, steps, idle) && Allowed(s, steps, idle, false, false)
        ensures IdleStopsTimely(After(s, steps, idle), idle)
      {
        RunKeepsTimely(s, steps, idle);
      }
    }
  }
}
