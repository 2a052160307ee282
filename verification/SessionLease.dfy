/**
 What the session manager's callers rely on: which conversations can be served beside each other, what a session
 that was handed out is, how long it lasts, and when it is never stopped.
 */
module SessionLease {
  import opened Sessions

  // ----- Names -----

  /** The same first eight characters; shorter ids count in full. */
  predicate ShareName(c: ConvId, d: ConvId) {
    if |c| < 8 || |d| < 8 then c == d else forall i | 0 <= i < 8 :: c[i] == d[i]
  }

  lemma NamesAgreeExactly(c: ConvId, d: ConvId)
    ensures NameOf(c) == NameOf(d) <==> ShareName(c, d)
  {
    var m, n := NameOf(c), NameOf(d);
    var k := |NAME_PREFIX|;
    assert m[k..] == if |c| > 8 then c[..8] else c;
    assert n[k..] == if |d| > 8 then d[..8] else d;
    if m == n && |c| >= 8 && |d| >= 8 {
      forall i | 0 <= i < 8 ensures c[i] == d[i] {
        assert m[k..][i] == n[k..][i];
      }
    }
  }

  /** Every container in the engine is named after a conversation that was asked for. */
  ghost predicate NamedAfter(s: State, steps: seq<Step>) {
    forall x | x in s.boxes :: exists step :: step in steps && step.Get? && s.boxes[x].name == NameOf(step.c)
  }

  lemma NewNames(s: State, step: Step, idle: int, x: BoxId)
    requires Inv(s) && Enabled(s, step) && x in Apply(s, step, idle).boxes
    ensures if x in s.boxes then Apply(s, step, idle).boxes[x].name == s.boxes[x].name
            else step.Get? && Apply(s, step, idle).boxes[x].name == NameOf(step.c)
  {
    if step.Get? {
      NewName(s, step.c, step.ans, idle, x);
    } else if step.Stop? || step.Callback? {
      StopNames(s, step.c, step.stopped, step.removed, x);
    }
  }

  lemma NewName(s: State, c: ConvId, ans: Answers, idle: int, x: BoxId)
    requires Inv(s) && Enabled(s, Get(c, ans)) && x in GetState(s, c, ans, idle).boxes
    ensures GetState(s, c, ans, idle).boxes[x].name == if x in s.boxes then s.boxes[x].name else NameOf(c)
  {
  }

  lemma StopNames(s: State, c: ConvId, stopped: bool, removed: bool, x: BoxId)
    requires x in StopState(s, c, stopped, removed).boxes
    ensures x in s.boxes && StopState(s, c, stopped, removed).boxes[x].name == s.boxes[x].name
  {
  }

  lemma StepKeepsNamed(s: State, steps: seq<Step>, step: Step, n: State)
    requires NamedAfter(s, steps)
    requires forall x | x in n.boxes ::
               if x in s.boxes then n.boxes[x].name == s.boxes[x].name else step.Get? && n.boxes[x].name == NameOf(step.c)
    ensures NamedAfter(n, steps + [step])
  {
    var longer := steps + [step];
    forall x | x in n.boxes ensures exists step' :: step' in longer && step'.Get? && n.boxes[x].name == NameOf(step'.c) {
      if x in s.boxes {
        var earlier :| earlier in steps && earlier.Get? && s.boxes[x].name == NameOf(earlier.c);
        assert earlier in longer;
      } else {
        assert step in longer;
      }
    }
  }

  lemma {:induction false} RunKeepsNamed(s: State, steps: seq<Step>, idle: int)
    requires Inv(s) && s.boxes == map[] && IsRun(s, steps, idle)
    ensures NamedAfter(After(s, steps, idle), steps)
  {
    if steps != [] {
      var front, last := steps[..|steps| - 1], steps[|steps| - 1];
      RunKeepsNamed(s, front, idle);
      RunKeepsInv(s, front, idle);
      var m, n := After(s, front, idle), After(s, steps, idle);
      forall x | x in n.boxes
        ensures if x in m.boxes then n.boxes[x].name == m.boxes[x].name else last.Get? && n.boxes[x].name == NameOf(last.c)
      {
        NewNames(m, last, idle, x);
      }
      StepKeepsNamed(m, front, last, n);
      assert front + [last] == steps;
    }
  }

  /** A session that was handed out: its container bears the conversation's name and runs, it was used just now,
      and its idle timer starts anew. */
  predicate Serves(s: State, c: ConvId, idle: int) {
    && c in s.sessions && s.sessions[c].box in s.boxes && s.boxes[s.sessions[c].box] == Box(NameOf(c), true)
    && s.sessions[c].lastUsed == s.clock
    && s.sessions[c].timer in s.timers && s.timers[s.sessions[c].timer] == Timer(c, s.clock + idle)
  }

  /** What another conversation has. */
  predicate SameFor(s: State, n: State, d: ConvId) {
    && (d in s.sessions <==> d in n.sessions)
    && (d in s.sessions ==>
          var session := s.sessions[d];
          && n.sessions[d] == session
          && (session.timer in s.timers ==> session.timer in n.timers && n.timers[session.timer] == s.timers[session.timer])
          && (session.box in s.boxes ==> session.box in n.boxes && n.boxes[session.box] == s.boxes[session.box]))
  }

  /** GetOrCreate hands out a session that serves, or leaves none; other conversations keep theirs as they are. */
  lemma GetServes(s: State, c: ConvId, ans: Answers, idle: int)
    requires Inv(s) && Enabled(s, Get(c, ans))
    ensures var n, outcome := GetState(s, c, ans, idle), GetOutcome(s, c, ans);
            && (if outcome in {Hit, Made} then Serves(n, c, idle) else c !in n.sessions)
            && (outcome.Hit? ==> n.sessions[c].box == s.sessions[c].box)
            && forall d | d != c :: SameFor(s, n, d)
  {
    if GetOutcome(s, c, ans).Hit? {
      assert s.boxes[s.sessions[c].box] == Box(NameOf(c), true);
    } else if !GetOutcome(s, c, ans).Made? {
      FailureShape(s, c, ans, idle);
    }
  }

  /** A container whose agent did not come up is removed, or at least stopped, unless the engine fails to. */
  lemma FailureCleansUp(s: State, c: ConvId, ans: Answers, idle: int)
    requires Inv(s) && Enabled(s, Get(c, ans)) && GetOutcome(s, c, ans) in {NotReady, NotInitialised}
    ensures var boxes := GetState(s, c, ans, idle).boxes;
            if ans.removed then boxes == s.boxes else boxes == s.boxes[ans.box := Box(NameOf(c), !ans.stopped)]
  {
  }

  /** A stop that succeeds leaves neither session nor container nor timer; one that fails leaves the session. */
  lemma StopEnds(s: State, c: ConvId, stopped: bool, removed: bool)
    requires Inv(s) && c in s.sessions
    ensures var n, session := StopState(s, c, stopped, removed), s.sessions[c];
            && (stopped && session.box in n.boxes ==> !n.boxes[session.box].running)
            && (if stopped && removed then n.sessions == s.sessions - {c} && session.box !in n.boxes else n.sessions == s.sessions)
            && session.timer !in n.timers
            && forall d | d != c :: SameFor(s, n, d)
  {
  }

  /** In an engine that was empty at first, a conversation that shares its name with none asked for before is
      served if no call fails. */
  lemma NewConversationIsServed(s: State, steps: seq<Step>, idle: int, c: ConvId, ans: Answers)
    requires Inv(s) && s.sessions == map[] && s.boxes == map[] && IsRun(s, steps, idle)
    requires forall step | step in steps && step.Get? :: !ShareName(step.c, c)
    requires Enabled(After(s, steps, idle), Get(c, ans)) && GetFaults(After(s, steps, idle), c, ans) == 0
    ensures Serves(GetState(After(s, steps, idle), c, ans, idle), c, idle)
    ensures forall d | d != c :: SameFor(After(s, steps, idle), GetState(After(s, steps, idle), c, ans, idle), d)
  {
    RunKeepsNamed(s, steps, idle);
    RunKeepsInv(s, steps, idle);
    var t := After(s, steps, idle);
    forall step | step in steps && step.Get? ensures NameOf(step.c) != NameOf(c) {
      NamesAgreeExactly(step.c, c);
    }
    assert !NameInUse(t.boxes, NameOf(c));
    GetServes(t, c, ans, idle);
  }

  /** While the container of another conversation is in the engine, one that shares its name cannot be served. */
  lemma SharedNameBlocks(s: State, c: ConvId, d: ConvId, ans: Answers)
    requires Inv(s) && c != d && ShareName(c, d) && d in s.sessions && s.sessions[d].box in s.boxes
    ensures GetOutcome(s, c, ans) == CreateFailed
  {
    NamesAgreeExactly(c, d);
    assert NameInUse(s.boxes, NameOf(c));
  }

  // ----- Time of last use -----

  /** When sessions were handed out for c. */
  ghost function Uses(s: State, steps: seq<Step>, idle: int, c: ConvId): seq<int>
    requires IsRun(s, steps, idle)
    decreases |steps|
  {
    if steps == [] then []
    else
      var front, last := steps[..|steps| - 1], steps[|steps| - 1];
      var m := After(s, front, idle);
      Uses(s, front, idle, c) + if last.Get? && last.c == c && GetOutcome(m, c, last.ans) in {Hit, Made} then [m.clock] else []
  }

  lemma StepUse(s: State, step: Step, idle: int, c: ConvId)
    requires Inv(s) && Enabled(s, step) && c in Apply(s, step, idle).sessions
    ensures if step.Get? && step.c == c && GetOutcome(s, c, step.ans) in {Hit, Made}
            then Apply(s, step, idle).sessions[c].lastUsed == s.clock
            else c in s.sessions && Apply(s, step, idle).sessions[c] == s.sessions[c]
  {
    if step.Get? {
      GetServes(s, step.c, step.ans, idle);
      assert step.c != c ==> SameFor(s, Apply(s, step, idle), c);
    }
  }

  /** A session was last used when it was last handed out. */
  lemma {:induction false} LastUsedExactly(s: State, steps: seq<Step>, idle: int, c: ConvId)
    requires Inv(s) && s.sessions == map[] && IsRun(s, steps, idle) && c in After(s, steps, idle).sessions
    ensures var uses := Uses(s, steps, idle, c);
            uses != [] && After(s, steps, idle).sessions[c].lastUsed == uses[|uses| - 1]
  {
    assert steps != [];
    var front, last := steps[..|steps| - 1], steps[|steps| - 1];
    RunKeepsInv(s, front, idle);
    StepUse(After(s, front, idle), last, idle, c);
    if !(last.Get? && last.c == c && GetOutcome(After(s, front, idle), c, last.ans) in {Hit, Made}) {
      LastUsedExactly(s, front, idle, c);
    }
  }

  // ----- Which sessions are stopped at all -----

  /** The session's own timer is armed for when it will have been idle, or a callback for it waits. */
  predicate Watched(s: State, c: ConvId, idle: int) {
    c in s.sessions ==>
      var session := s.sessions[c];
      (session.timer in s.timers && s.timers[session.timer] == Timer(c, session.lastUsed + idle)) || c in s.fired
  }

  /** A stop of the conversation, by a caller or by a callback, that leaves its session. */
  predicate StopFails(s: State, step: Step, c: ConvId) {
    && (step.Stop? || step.Callback?) && step.c == c
    && StopResult(s, c, step.stopped, step.removed) in {StopFailed, RemoveFailed}
  }

  ghost predicate NoStopFails(s: State, steps: seq<Step>, idle: int, c: ConvId)
    requires IsRun(s, steps, idle)
    decreases |steps|
  {
    steps == [] ||
    var front := steps[..|steps| - 1];
    NoStopFails(s, front, idle, c) && !StopFails(After(s, front, idle), steps[|steps| - 1], c)
  }

  lemma GetKeepsWatched(s: State, d: ConvId, ans: Answers, idle: int, c: ConvId)
    requires Inv(s) && Enabled(s, Get(d, ans)) && Watched(s, c, idle)
    ensures Watched(GetState(s, d, ans, idle), c, idle)
  {
    GetServes(s, d, ans, idle);
    var n := GetState(s, d, ans, idle);
    assert n.fired == s.fired;
    assert d != c ==> SameFor(s, n, c);
  }

  lemma StopKeepsWatched(s: State, d: ConvId, stopped: bool, removed: bool, idle: int, c: ConvId)
    requires Inv(s) && Watched(s, c, idle)
    ensures var n := StopState(s, d, stopped, removed);
            if d != c then Watched(n, c, idle) && n.fired == s.fired else stopped && removed ==> c !in n.sessions
  {
  }

  lemma StepKeepsWatched(s: State, step: Step, idle: int, c: ConvId)
    requires Inv(s) && Enabled(s, step) && Watched(s, c, idle) && !StopFails(s, step, c)
    ensures Watched(Apply(s, step, idle), c, idle)
  {
    if step.Get? {
      GetKeepsWatched(s, step.c, step.ans, idle, c);
    } else if step.Stop? || step.Callback? {
      StopKeepsWatched(s, step.c, step.stopped, step.removed, idle, c);
    }
  }

  /** As long as no stop of a conversation fails, its session will be stopped: at its time, or by a callback. */
  lemma {:induction false} RunKeepsWatched(s: State, steps: seq<Step>, idle: int, c: ConvId)
    requires Inv(s) && s.sessions == map[] && IsRun(s, steps, idle) && NoStopFails(s, steps, idle, c)
    ensures Watched(After(s, steps, idle), c, idle)
  {
    if steps != [] {
      var front := steps[..|steps| - 1];
      RunKeepsWatched(s, front, idle, c);
      RunKeepsInv(s, front, idle);
      StepKeepsWatched(After(s, front, idle), steps[|steps| - 1], idle, c);
    }
  }

  /** A session without an armed timer and without a waiting callback. */
  predicate Forgotten(s: State, c: ConvId) {
    c in s.sessions && c !in s.fired && forall t | t in s.timers :: s.timers[t].conv != c
  }

  /** A stop that fails leaves the session with its timer disarmed. */
  lemma FailedStopForgets(s: State, c: ConvId, stopped: bool, removed: bool)
    requires Inv(s) && c in s.sessions && c !in s.fired
    requires forall t | t in s.timers && s.timers[t].conv == c :: t == s.sessions[c].timer
    ensures Forgotten(StopState(s, c, stopped, removed), c) <==> !(stopped && removed)
  {
  }

  lemma GetKeepsForgotten(s: State, d: ConvId, ans: Answers, idle: int, c: ConvId)
    requires Inv(s) && Enabled(s, Get(d, ans)) && Forgotten(s, c) && d != c
    ensures Forgotten(GetState(s, d, ans, idle), c) && GetState(s, d, ans, idle).sessions[c] == s.sessions[c]
  {
    if !GetOutcome(s, d, ans).Hit? && !GetOutcome(s, d, ans).Made? {
      FailureShape(s, d, ans, idle);
    }
  }

  lemma StopKeepsForgotten(s: State, d: ConvId, stopped: bool, removed: bool, c: ConvId)
    requires Inv(s) && Forgotten(s, c) && d != c
    ensures var n := StopState(s, d, stopped, removed);
            Forgotten(n, c) && n.sessions[c] == s.sessions[c] && n.fired == s.fired
  {
  }

  lemma StepKeepsForgotten(s: State, step: Step, idle: int, c: ConvId)
    requires Inv(s) && Enabled(s, step) && Forgotten(s, c) && (step.Get? || step.Stop? ==> step.c != c)
    ensures Forgotten(Apply(s, step, idle), c) && Apply(s, step, idle).sessions[c] == s.sessions[c]
  {
    if step.Get? {
      GetKeepsForgotten(s, step.c, step.ans, idle, c);
    } else if step.Stop? || step.Callback? {
      StopKeepsForgotten(s, step.c, step.stopped, step.removed, c);
    }
  }

  /** A forgotten session stays, however long it is idle, until a caller asks for it or stops it. */
  lemma {:induction false} ForgottenStays(s: State, steps: seq<Step>, idle: int, c: ConvId)
    requires Inv(s) && IsRun(s, steps, idle) && Forgotten(s, c)
    requires forall step | step in steps && (step.Get? || step.Stop?) :: step.c != c
    ensures Forgotten(After(s, steps, idle), c) && After(s, steps, idle).sessions[c] == s.sessions[c]
  {
    if steps != [] {
      var front := steps[..|steps| - 1];
      ForgottenStays(s, front, idle, c);
      RunKeepsInv(s, front, idle);
      StepKeepsForgotten(After(s, front, idle), steps[|steps| - 1], idle, c);
    }
  }
}
