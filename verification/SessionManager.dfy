/**
 The local session manager over its fields, and the container engine it drives.
 */
module SessionManager {
  import opened Wrappers
  import opened Remote
  import opened Sessions
  import opened SessionLease

  /** An engine that rejects a name in use.  Every call may fail; a call that fails changes nothing, and is
      counted unless it had to fail. */
  class DockerRunner {
    var boxes: map<BoxId, Box>
    var next: BoxId
    ghost var used: set<BoxId>
    ghost var faults: nat

    constructor (boxes: map<BoxId, Box>, next: BoxId)
      requires forall x | x in boxes :: x < next
      ensures Valid() && this.boxes == boxes && used == boxes.Keys && faults == 0
    {
      this.boxes, this.next, used, faults := boxes, next, boxes.Keys, 0;
    }

    ghost predicate Valid()
      reads this
    {
      boxes.Keys <= used && forall x | x in used :: x < next
    }

    method ContainerCreate(name: string) returns (id: Option<BoxId>)
      requires Valid()
      modifies this
      ensures Valid()
      ensures NameInUse(old(boxes), name) ==> id.None?
      ensures faults == old(faults) + One(id.None? && !NameInUse(old(boxes), name))
      ensures id.None? ==> boxes == old(boxes) && used == old(used)
      ensures id.Some? ==>
                id.value !in old(used) && used == old(used) + {id.value} && boxes == old(boxes)[id.value := Box(name, false)]
    {
      var accepted := *;
      var taken := exists x | x in boxes :: boxes[x].name == name;
      faults := faults + One(!accepted && !taken);
      if !accepted || taken {
        return None;
      }
      id := Some(next);
      boxes := boxes[next := Box(name, false)];
      used := used + {next};
      next := next + 1;
    }

    method ContainerStart(id: BoxId) returns (ok: bool)
      modifies this`boxes, this`faults
      ensures faults == old(faults) + One(!ok)
      ensures boxes == if ok && id in old(boxes) then old(boxes)[id := old(boxes)[id].(running := true)] else old(boxes)
    {
      ok := *;
      if ok && id in boxes {
        boxes := boxes[id := boxes[id].(running := true)];
      }
      faults := faults + One(!ok);
    }

    method ContainerStop(id: BoxId) returns (ok: bool)
      modifies this`boxes, this`faults
      ensures faults == old(faults) + One(!ok)
      ensures boxes == if ok && id in old(boxes) then old(boxes)[id := old(boxes)[id].(running := false)] else old(boxes)
    {
      ok := *;
      if ok && id in boxes {
        boxes := boxes[id := boxes[id].(running := false)];
      }
      faults := faults + One(!ok);
    }

    /** Forced, so a running container goes too. */
    method ContainerRemove(id: BoxId) returns (ok: bool)
      modifies this`boxes, this`faults
      ensures faults == old(faults) + One(!ok)
      ensures boxes == if ok then old(boxes) - {id} else old(boxes)
    {
      ok := *;
      if ok {
        boxes := boxes - {id};
      }
      faults := faults + One(!ok);
    }

    method ContainerInspect(id: BoxId) returns (info: Option<Box>)
      modifies this`faults
      ensures info.Some? ==> id in boxes && info.value == boxes[id]
      ensures faults == old(faults) + One(info.None? && id in boxes)
    {
      var ok := *;
      info := if ok && id in boxes then Some(boxes[id]) else None;
      faults := faults + One(info.None? && id in boxes);
    }

    /** All containers whose name contains the text. */
    method ContainerList(text: string) returns (ids: Option<set<BoxId>>)
      modifies this`faults
      ensures ids.Some? ==> forall x :: x in ids.value <==> x in boxes && Contains(boxes[x].name, text)
      ensures faults == old(faults) + One(ids.None?)
    {
      var ok := *;
      faults := faults + One(!ok);
      if !ok {
        return None;
      }
      ids := Some(set x | x in boxes && Contains(boxes[x].name, text));
    }
  }

  predicate NamesUnique(boxes: map<BoxId, Box>) {
    forall x, y | x in boxes && y in boxes && boxes[x].name == boxes[y].name :: x == y
  }

  predicate Contains(name: string, text: string) {
    exists i | 0 <= i <= |name| :: text <= name[i..]
  }

  ghost predicate Leads(s0: State, steps: seq<Step>, s: State, idle: int) {
    IsRun(s0, steps, idle) && After(s0, steps, idle) == s
  }

  lemma Take(s0: State, steps: seq<Step>, s: State, step: Step, idle: int) returns (longer: seq<Step>, next: State)
    requires Leads(s0, steps, s, idle) && Enabled(s, step)
    ensures Leads(s0, longer, next, idle) && next == Apply(s, step, idle)
  {
    longer, next := steps + [step], Apply(s, step, idle);
    assert longer[..|steps|] == steps;
  }

  lemma FiredIsFree(s: State, fired: multiset<ConvId>)
    requires Inv(s)
    ensures Inv(s.(fired := fired))
  {
  }

  lemma MadeShape(s: State, c: ConvId, ans: Answers, idle: int)
    requires GetOutcome(s, c, ans).Made?
    ensures var m := WithBox(s.(sessions := s.sessions - {c}), c, ans.box, true);
            GetState(s, c, ans, idle) == m.(
              sessions := m.sessions[c := Session(ans.box, ans.timer, s.clock)],
              timers := m.timers[ans.timer := Timer(c, s.clock + idle)],
              usedTimers := m.usedTimers + {ans.timer},
              up := m.up[ans.box := c])
  {
    assert (s.sessions - {c})[c := Session(ans.box, ans.timer, s.clock)] == s.sessions[c := Session(ans.box, ans.timer, s.clock)];
  }

  lemma HitShape(s: State, c: ConvId, ans: Answers, idle: int)
    requires Alive(s, c, ans)
    ensures GetOutcome(s, c, ans) == Hit && GetFaults(s, c, ans) == 0
    ensures GetState(s, c, ans, idle) == s.(sessions := s.sessions[c := s.sessions[c].(lastUsed := s.clock)],
                                            timers := s.timers[s.sessions[c].timer := Timer(c, s.clock + idle)])
  {
  }

  /** The clients asked for: the new container's, for its status; and again, to hand over credentials if there are any. */
  function Contacted(c: ConvId, credentials: string, outcome: Outcome): seq<string> {
    match outcome
    case NotReady => [NameOf(c)]
    case NotInitialised => [NameOf(c), NameOf(c)]
    case Made => if credentials == "" then [NameOf(c)] else [NameOf(c), NameOf(c)]
    case _ => []
  }

  lemma GetHandsOut(s: State, c: ConvId, ans: Answers, idle: int)
    requires Inv(s) && Enabled(s, Get(c, ans))
    ensures var n, outcome := GetState(s, c, ans, idle), GetOutcome(s, c, ans);
            && Inv(n) && (outcome.Hit? || outcome.Made? ==> Serves(n, c, idle))
            && (GetFaults(s, c, ans) == 0 ==> outcome.Hit? || outcome.Made? || NameInUse(s.boxes, NameOf(c)))
  {
    GetKeepsInv(s, c, ans, idle);
    GetServes(s, c, ans, idle);
  }

  /** The outcome, the new state, and the failures after the inspection are those of GetOrCreate. */
  ghost predicate Answered(s: State, c: ConvId, ans: Answers, idle: int, outcome: Outcome, t: State, faults: int) {
    && outcome == GetOutcome(s, c, ans) && t == GetState(s, c, ans, idle)
    && GetFaults(s, c, ans) == One(c in s.sessions && s.sessions[c].box in s.boxes && !ans.inspected) + faults
  }

  lemma Launched(s: State, c: ConvId, ans: Answers, outcome: Outcome, idle: int)
    requires outcome == GetOutcome(s, c, ans) && outcome in {Made, NotReady, NotInitialised}
    ensures Answered(s, c, ans, idle, outcome, GetState(s, c, ans, idle),
                     if outcome.Made? then 0 else 1 + One(!ans.stopped) + One(!ans.removed))
  {
  }

  /** The container could not be created, or not be started. */
  lemma NotLaunched(s: State, t: State, c: ConvId, before: Answers, ans: Answers, outcome: Outcome, idle: int)
    requires !Alive(s, c, before) && !before.created && !before.started
    requires outcome.CreateFailed? || (outcome.StartFailed? && !NameInUse(s.boxes, NameOf(c)))
    requires ans == before.(created := outcome.StartFailed?, box := ans.box)
    requires var dropped := s.(sessions := s.sessions - {c});
             t == if outcome.CreateFailed? then dropped else WithBox(dropped, c, ans.box, false)
    ensures Answered(s, c, ans, idle, outcome, t, if outcome.CreateFailed? then One(!NameInUse(s.boxes, NameOf(c))) else 1)
  {
  }

  /** The clients asked for, and whether one did not answer. */
  ghost predicate Contacts(dialed: seq<string>, before: seq<string>, faults: int, c: ConvId, credentials: string, outcome: Outcome) {
    dialed == before + Contacted(c, credentials, outcome) && faults == One(outcome.NotReady? || outcome.NotInitialised?)
  }

  /** A change under one key leaves the others as they are. */
  lemma OtherEntries(sessions: map<ConvId, Session>, c: ConvId, session: Session)
    ensures sessions[c := session] - {c} == sessions - {c}
  {
  }

  class SessionManager {
    const runner: DockerRunner
    const agents: Net
    const idle: int
    var sessions: map<ConvId, Session>
    var timers: map<TimerId, Timer>
    var fired: multiset<ConvId>
    var nextTimer: TimerId
    var clock: int
    ghost var usedTimers: set<TimerId>
    ghost var up: map<BoxId, ConvId>
    ghost var removed: set<BoxId>

    constructor (runner: DockerRunner, agents: Net, idle: int)
      requires runner.Valid() && NamesUnique(runner.boxes)
      ensures Valid() && this.runner == runner && this.agents == agents && Starts(View())
      ensures this.idle == if idle == 0 then 900_000_000_000 else idle
    {
      this.runner, this.agents := runner, agents;
      this.idle := if idle == 0 then 900_000_000_000 else idle;
      sessions, timers, fired, nextTimer, clock := map[], map[], multiset{}, 0, 0;
      usedTimers, up, removed := {}, map[], {};
    }

    ghost function View(): State
      reads this, runner
    {
      State(sessions, runner.boxes, timers, fired, runner.used, usedTimers, up, removed, clock)
    }

    ghost predicate Ready()
      reads this, runner
    {
      runner.Valid() && forall t | t in usedTimers :: t < nextTimer
    }

    ghost predicate Valid()
      reads this, runner
    {
      Ready() && Inv(View())
    }

    /** The calls that have failed although they need not have. */
    ghost function Faults(): nat
      reads runner`faults, agents`faults
    {
      runner.faults + agents.faults
    }

    /** GetOrCreate, with the mutex held throughout: exactly one step, in which as many calls failed as the
        answers say.  If none did, there is a session unless a container holds the name. */
    method GetOrCreate(c: ConvId, credentials: string) returns (outcome: Outcome, ghost ans: Answers)
      requires Valid()
      modifies this, runner, agents
      ensures Valid() && Enabled(old(View()), Get(c, ans))
      ensures outcome == GetOutcome(old(View()), c, ans)
      ensures View() == GetState(old(View()), c, ans, idle)
      ensures Faults() == old(Faults()) + GetFaults(old(View()), c, ans)
      ensures Faults() == old(Faults()) ==> outcome.Hit? || outcome.Made? || NameInUse(old(runner.boxes), NameOf(c))
      ensures outcome.Hit? || outcome.Made? <==> c in sessions
      ensures outcome.Hit? || outcome.Made? ==> Serves(View(), c, idle)
      ensures Contacts(agents.dialed, old(agents.dialed), agents.faults - old(agents.faults), c, credentials, outcome)
      ensures sessions - {c} == old(sessions) - {c}
    {
      ghost var s := View();
      ans := Answers(false, false, false, false, false, false, false, runner.next, nextTimer);
      var hit;
      hit, ans := TryReuse(c, s, ans);
      if hit {
        outcome := Hit;
        HitShape(s, c, ans, idle);
      } else {
        outcome, ans := Create(c, credentials, s, ans);
      }
      GetHandsOut(s, c, ans, idle);
    }

    /** Reuse the cached container if it answers as running; drop its entry if not. */
    method TryReuse(c: ConvId, ghost s: State, ghost before: Answers) returns (hit: bool, ghost ans: Answers)
      requires Ready() && View() == s && !before.inspected
      modifies this`sessions, this`timers, runner`faults
      ensures Ready() && (hit <==> Alive(s, c, ans)) && ans == before.(inspected := ans.inspected)
      ensures hit ==> View() == s.(sessions := s.sessions[c := s.sessions[c].(lastUsed := s.clock)],
                                   timers := s.timers[s.sessions[c].timer := Timer(c, s.clock + idle)])
      ensures !hit ==> View() == s.(sessions := s.sessions - {c})
      ensures runner.faults == old(runner.faults) + One(c in s.sessions && s.sessions[c].box in s.boxes && !ans.inspected)
      ensures hit <==> c in sessions
      ensures sessions - {c} == old(sessions) - {c}
    {
      hit, ans := false, before;
      if c in sessions {
        hit, ans := Probe(c, s, before);
        if hit {
          Rearm(c, s);
        } else {
          Drop(c, s);
        }
      } else {
        assert sessions - {c} == sessions;
      }
    }

    /** Whether the cached container answers as running. */
    method Probe(c: ConvId, ghost s: State, ghost before: Answers) returns (running: bool, ghost ans: Answers)
      requires Ready() && View() == s && c in sessions
      modifies runner`faults
      ensures Ready() && View() == s && (running <==> Alive(s, c, ans)) && ans == before.(inspected := ans.inspected)
      ensures runner.faults == old(runner.faults) + One(s.sessions[c].box in s.boxes && !ans.inspected)
    {
      var info := runner.ContainerInspect(sessions[c].box);
      ans := before.(inspected := info.Some?);
      running := info.Some? && info.value.running;
    }

    method Rearm(c: ConvId, ghost s: State)
      requires Ready() && View() == s && c in sessions
      modifies this`sessions, this`timers
      ensures Ready() && View() == s.(sessions := s.sessions[c := s.sessions[c].(lastUsed := s.clock)],
                                      timers := s.timers[s.sessions[c].timer := Timer(c, s.clock + idle)])
      ensures c in sessions && sessions - {c} == old(sessions) - {c}
    {
      OtherEntries(sessions, c, sessions[c].(lastUsed := clock));
      timers := timers[sessions[c].timer := Timer(c, clock + idle)];
      sessions := sessions[c := sessions[c].(lastUsed := clock)];
    }

    method Drop(c: ConvId, ghost s: State)
      requires Ready() && View() == s
      modifies this`sessions
      ensures Ready() && View() == s.(sessions := s.sessions - {c})
      ensures c !in sessions && sessions - {c} == old(sessions) - {c}
    {
      sessions := sessions - {c};
    }

    /** Create and start. */
    method Launch(c: ConvId, ghost m: State, ghost before: Answers) returns (box: Option<BoxId>, started: bool,
                  ghost ans: Answers)
      requires Ready() && View() == m && before.box == runner.next
      modifies runner
      ensures Ready() && (NameInUse(m.boxes, NameOf(c)) ==> box.None?)
      ensures box.None? ==> ans == before && View() == m
      ensures box.Some? ==>
                && box.value !in m.usedBoxes && ans == before.(created := true, started := started, box := box.value)
                && View() == WithBox(m, c, box.value, started)
      ensures runner.faults == old(runner.faults) +
                if box.None? then One(!NameInUse(m.boxes, NameOf(c))) else One(!started)
    {
      ans, started := before, false;
      box := runner.ContainerCreate(NameOf(c));
      if box.Some? {
        started := runner.ContainerStart(box.value);
        ans := before.(created := true, started := started, box := box.value);
      }
    }

    /** The rest of GetOrCreate. */
    method Create(c: ConvId, credentials: string, ghost s: State,
                  ghost before: Answers) returns (outcome: Outcome, ghost ans: Answers)
      requires Ready() && View() == s.(sessions := s.sessions - {c}) && s.boxes.Keys <= s.usedBoxes
      requires !Alive(s, c, before) && !before.created && !before.started && before.box == runner.next &&
               before.timer == nextTimer
      modifies this, runner, agents
      ensures Ready() && Enabled(s, Get(c, ans)) && ans.inspected == before.inspected
      ensures Answered(s, c, ans, idle, outcome, View(), Faults() - old(Faults()))
      ensures !outcome.Hit? && (outcome.Made? <==> c in sessions)
      ensures Contacts(agents.dialed, old(agents.dialed), agents.faults - old(agents.faults), c, credentials, outcome)
      ensures sessions - {c} == old(sessions) - {c}
    {
      var box, started;
      box, started, ans := Launch(c, s.(sessions := s.sessions - {c}), before);
      if box.Some? && started {
        outcome, ans := Finish(c, box.value, credentials, s, ans);
        Launched(s, c, ans, outcome, idle);
      } else {
        outcome := if box.None? then CreateFailed else StartFailed;
        NotLaunched(s, View(), c, before, ans, outcome, idle);
      }
    }

    /** Wait for the agent and hand it the credentials, if there are any. */
    method Finish(c: ConvId, box: BoxId, credentials: string, ghost s: State, ghost before: Answers)
      returns (outcome: Outcome, ghost ans: Answers)
      requires Ready() && View() == WithBox(s.(sessions := s.sessions - {c}), c, box, true)
      requires before.box == box && before.timer == nextTimer && before.created && before.started
      requires !Alive(s, c, before) && !NameInUse(s.boxes, NameOf(c))
      modifies this, runner`boxes, runner`faults, agents
      ensures Ready() && ans.box == before.box && ans.timer == before.timer && ans.inspected == before.inspected
      ensures outcome == GetOutcome(s, c, ans) && View() == GetState(s, c, ans, idle)
      ensures Faults() == old(Faults()) + if outcome.Made? then 0 else 1 + One(!ans.stopped) + One(!ans.removed)
      ensures outcome in {Made, NotReady, NotInitialised} && (outcome.Made? <==> c in sessions)
      ensures Contacts(agents.dialed, old(agents.dialed), agents.faults - old(agents.faults), c, credentials, outcome)
      ensures sessions - {c} == old(sessions) - {c}
    {
      outcome := AwaitAgent(c, credentials);
      ans := before.(ready := !outcome.NotReady?, initialised := outcome.Made?);
      assert GetOutcome(s, c, ans) == outcome;
      if outcome.Made? {
        CacheMade(c, box, s, ans);
      } else {
        ans := GiveUp(c, box, s, ans);
      }
    }

    method AwaitAgent(c: ConvId, credentials: string) returns (outcome: Outcome)
      modifies agents
      ensures outcome in {Made, NotReady, NotInitialised}
      ensures agents.faults == old(agents.faults) + if outcome.Made? then 0 else 1
      ensures outcome.NotInitialised? ==> credentials != ""
      ensures Contacts(agents.dialed, old(agents.dialed), agents.faults - old(agents.faults), c, credentials, outcome)
    {
      var ready := agents.Dial(NameOf(c));
      if !ready {
        return NotReady;
      }
      if |credentials| > 0 {
        var initialised := agents.Dial(NameOf(c));
        if !initialised {
          return NotInitialised;
        }
      }
      return Made;
    }

    method GiveUp(c: ConvId, box: BoxId, ghost s: State, ghost before: Answers) returns (ghost ans: Answers)
      requires Ready() && View() == WithBox(s.(sessions := s.sessions - {c}), c, box, true) && before.box == box
      requires GetOutcome(s, c, before) in {NotReady, NotInitialised}
      modifies runner`boxes, runner`faults, this`removed
      ensures Ready() && View() == GetState(s, c, ans, idle) && GetOutcome(s, c, ans) == GetOutcome(s, c, before)
      ensures runner.faults == old(runner.faults) + One(!ans.stopped) + One(!ans.removed)
      ensures ans == before.(stopped := ans.stopped, removed := ans.removed)
    {
      var stopped, gone := Discard(box);
      ans := before.(stopped := stopped, removed := gone);
    }

    method CacheMade(c: ConvId, box: BoxId, ghost s: State, ghost ans: Answers)
      requires Ready() && View() == WithBox(s.(sessions := s.sessions - {c}), c, box, true)
      requires ans.box == box && ans.timer == nextTimer && GetOutcome(s, c, ans).Made?
      modifies this
      ensures Ready() && View() == GetState(s, c, ans, idle) && c in sessions && sessions - {c} == old(sessions) - {c}
    {
      Cache(c, box);
      MadeShape(s, c, ans, idle);
    }

    method Cache(c: ConvId, box: BoxId)
      requires Ready() && c !in sessions
      modifies this
      ensures Ready() && nextTimer == old(nextTimer) + 1
      ensures View() == old(View()).(
                sessions := old(sessions)[c := Session(box, old(nextTimer), clock)],
                timers := old(timers)[old(nextTimer) := Timer(c, clock + idle)],
                usedTimers := old(usedTimers) + {old(nextTimer)},
                up := old(up)[box := c])
    {
      sessions := sessions[c := Session(box, nextTimer, clock)];
      timers := timers[nextTimer := Timer(c, clock + idle)];
      usedTimers := usedTimers + {nextTimer};
      up := up[box := c];
      nextTimer := nextTimer + 1;
    }

    method Discard(box: BoxId) returns (stopped: bool, gone: bool)
      requires runner.Valid()
      modifies runner`boxes, runner`faults, this`removed
      ensures runner.Valid()
      ensures runner.faults == old(runner.faults) + One(!stopped) + One(!gone)
      ensures View() == Sessions.Discard(old(View()), box, stopped, gone)
    {
      stopped := runner.ContainerStop(box);
      gone := runner.ContainerRemove(box);
      if gone {
        removed := removed + {box};
      }
    }

    /** Stop: exactly one step; it does not fail unless one of its calls does. */
    method Stop(c: ConvId) returns (outcome: StopOutcome, ghost stopped: bool, ghost gone: bool)
      requires Valid()
      modifies this, runner
      ensures Valid()
      ensures outcome == StopResult(old(View()), c, stopped, gone)
      ensures View() == StopState(old(View()), c, stopped, gone)
      ensures runner.faults == old(runner.faults) + One(outcome.StopFailed? || outcome.RemoveFailed?)
      ensures outcome.Absent? || outcome.Stopped? <==> c !in sessions
      ensures sessions == if c in sessions then old(sessions) else old(sessions) - {c}
    {
      ghost var s := View();
      outcome, stopped, gone := Absent, false, false;
      if c in sessions {
        outcome, stopped, gone := StopCached(c);
      }
      StopKeepsInv(s, c, stopped, gone);
    }

    method StopCached(c: ConvId) returns (outcome: StopOutcome, ghost stopped: bool, ghost gone: bool)
      requires Ready() && c in sessions
      modifies this, runner
      ensures Ready() && outcome == StopResult(old(View()), c, stopped, gone)
      ensures View() == StopState(old(View()), c, stopped, gone)
      ensures runner.faults == old(runner.faults) + One(!outcome.Stopped?)
      ensures !outcome.Absent? && (outcome.Stopped? <==> c !in sessions)
      ensures sessions == if c in sessions then old(sessions) else old(sessions) - {c}
    {
      var session := sessions[c];
      timers := timers - {session.timer};
      var halted := runner.ContainerStop(session.box);
      if !halted {
        return StopFailed, false, false;
      }
      var deleted := runner.ContainerRemove(session.box);
      if !deleted {
        return RemoveFailed, true, false;
      }
      removed := removed + {session.box};
      sessions := sessions - {c};
      return Stopped, true, true;
    }

    /** The runtime fires a timer that is due; its callback then waits for the mutex. */
    method Fire(t: TimerId)
      requires Valid() && t in timers && timers[t].due <= clock
      modifies this`timers, this`fired
      ensures Valid() && View() == Apply(old(View()), Step.Fire(t), idle)
    {
      StepKeepsInv(View(), Step.Fire(t), idle);
      fired := fired + multiset{timers[t].conv};
      timers := timers - {t};
    }

    method Unqueue(c: ConvId)
      requires Valid()
      modifies this`fired
      ensures Valid() && View() == old(View()).(fired := old(fired) - multiset{c})
    {
      FiredIsFree(View(), fired - multiset{c});
      fired := fired - multiset{c};
    }

    /** The idle callback: whatever session the conversation has by now is stopped. */
    method Callback(c: ConvId) returns (outcome: StopOutcome, ghost stopped: bool, ghost gone: bool)
      requires Valid() && c in fired
      modifies this, runner
      ensures Valid() && outcome == StopResult(old(View()), c, stopped, gone)
      ensures View() == Apply(old(View()), Step.Callback(c, stopped, gone), idle)
      ensures runner.faults == old(runner.faults) ==> c !in sessions
    {
      outcome, stopped, gone := Stop(c);
      Unqueue(c);
    }

    method StopNext(c: ConvId, ghost s0: State, ghost before: seq<Step>) returns (ok: bool, ghost steps: seq<Step>)
      requires Valid() && Leads(s0, before, View(), idle)
      modifies this, runner
      ensures Valid() && Leads(s0, steps, View(), idle)
      ensures ok <==> c !in sessions
      ensures sessions == if ok then old(sessions) - {c} else old(sessions)
      ensures runner.faults == old(runner.faults) + One(!ok)
    {
      ghost var s := View();
      var outcome;
      ghost var stopped, gone;
      outcome, stopped, gone := Stop(c);
      steps, s := Take(s0, before, s, Step.Stop(c, stopped, gone), idle);
      ok := outcome.Absent? || outcome.Stopped?;
    }

    /** StopAll, with nothing else in between: every session it could not stop stays cached, and there is none
        unless a call failed. */
    method StopAll() returns (ok: bool, ghost steps: seq<Step>)
      requires Valid()
      modifies this, runner
      ensures Valid() && Leads(old(View()), steps, View(), idle)
      ensures forall c | c in sessions :: c in old(sessions) && sessions[c] == old(sessions)[c]
      ensures ok <==> sessions == map[]
      ensures ok <==> runner.faults == old(runner.faults)
    {
      ghost var s0, was := View(), sessions;
      steps, ok := [], true;
      var left := sessions.Keys;
      while left != {}
        invariant Valid() && left <= sessions.Keys && Leads(s0, steps, View(), idle)
        invariant forall c | c in sessions :: c in was && sessions[c] == was[c]
        invariant ok <==> sessions.Keys == left
        invariant if ok then runner.faults == old(runner.faults) else runner.faults > old(runner.faults)
        decreases left
      {
        var c :| c in left;
        left := left - {c};
        var stopped;
        stopped, steps := StopNext(c, s0, steps);
        ok := ok && stopped;
      }
    }

    /** CleanupOrphans, called at start-up: removes containers that do not run, and only those bearing the
        prefix in their name; all of them unless a call failed. */
    method CleanupOrphans() returns (ok: bool)
      requires Valid() && sessions == map[]
      modifies this`removed, runner`boxes, runner`faults
      ensures Valid() && runner.boxes.Keys <= old(runner.boxes).Keys && (!ok ==> runner.boxes == old(runner.boxes))
      ensures forall x | x in runner.boxes :: runner.boxes[x] == old(runner.boxes)[x]
      ensures forall x | x in old(runner.boxes) && x !in runner.boxes ::
                !old(runner.boxes)[x].running && Contains(old(runner.boxes)[x].name, NAME_PREFIX)
      ensures runner.faults >= old(runner.faults)
      ensures runner.faults == old(runner.faults) ==>
                ok && forall x | x in runner.boxes :: runner.boxes[x].running || !Contains(runner.boxes[x].name, NAME_PREFIX)
    {
      ghost var s := View();
      var found := runner.ContainerList(NAME_PREFIX);
      if found.None? {
        return false;
      }
      RemoveStopped(found.value);
      FewerBoxes(s, View());
      ok := true;
    }

    method RemoveStopped(ids: set<BoxId>)
      requires Ready() && ids <= runner.boxes.Keys
      modifies this`removed, runner`boxes, runner`faults
      ensures Ready() && View() == old(View()).(boxes := runner.boxes, removed := removed)
      ensures removed <= old(removed) + ids && runner.boxes.Keys <= old(runner.boxes).Keys
      ensures forall x | x in runner.boxes :: runner.boxes[x] == old(runner.boxes)[x]
      ensures forall x | x in old(runner.boxes) && x !in runner.boxes :: x in ids && !old(runner.boxes)[x].running
      ensures runner.faults >= old(runner.faults)
      ensures runner.faults == old(runner.faults) ==> forall x | x in runner.boxes && x in ids :: runner.boxes[x].running
    {
      ghost var world := runner.boxes;
      var left := ids;
      while left != {}
        invariant Ready() && left <= ids && left <= runner.boxes.Keys <= world.Keys && removed <= old(removed) + ids
        invariant forall x | x in runner.boxes :: runner.boxes[x] == world[x]
        invariant forall x | x in world && x !in runner.boxes :: x in ids && !world[x].running
        invariant runner.faults >= old(runner.faults)
        invariant runner.faults == old(runner.faults) ==>
                    forall x | x in runner.boxes && x in ids && x !in left :: world[x].running
        decreases left
      {
        var x :| x in left;
        left := left - {x};
        if !runner.boxes[x].running {
          var gone := runner.ContainerRemove(x);
          if gone {
            removed := removed + {x};
          }
        }
      }
    }
  }

  lemma FewerBoxes(s: State, n: State)
    requires Inv(s) && s.sessions == map[] && n == s.(boxes := n.boxes, removed := n.removed)
    requires n.removed <= s.removed + s.boxes.Keys && n.boxes.Keys <= s.boxes.Keys
    requires forall x | x in n.boxes :: n.boxes[x] == s.boxes[x]
    ensures Inv(n)
  {
  }
}
