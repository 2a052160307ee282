/**
 The login fields of AuthManager (cc-remote-agent).  StartLogin checks the pending flag, launches a process
 without holding the mutex, and then publishes it in the fields; each login's reader goroutine clears the
 fields when its own output ends.
 */
module Login {
  import opened Wrappers

  type Id = nat

  /** Past the check; published and running; output ended, fields not yet cleared. */
  datatype Phase = Checked | Live | Exiting

  datatype State = State(logins: map<Id, Phase>, next: Id, pending: bool, owner: Option<Id>, cancelled: set<Id>)

  datatype Step = Check | LaunchFails(id: Id) | Publish(id: Id) | Cancel | EndOfOutput(id: Id) | Clear(id: Id)

  const IDLE := State(map[], 0, false, None, {})

  predicate Enabled(s: State, step: Step) {
    match step
    case Check => !s.pending
    case LaunchFails(id) => id in s.logins && s.logins[id].Checked?
    case Publish(id) => id in s.logins && s.logins[id].Checked?
    case Cancel => true
    case EndOfOutput(id) => id in s.logins && s.logins[id].Live?
    case Clear(id) => id in s.logins && s.logins[id].Exiting?
  }

  function Apply(s: State, step: Step): State
    requires Enabled(s, step)
  {
    match step
    case Check => s.(logins := s.logins[s.next := Checked], next := s.next + 1)
    case LaunchFails(id) => s.(logins := s.logins - {id})
    case Publish(id) => s.(logins := s.logins[id := Live], pending := true, owner := Some(id))
    case Cancel =>
      s.(pending := false, owner := None, cancelled := s.cancelled + if s.owner.Some? then {s.owner.value} else {})
    case EndOfOutput(id) => s.(logins := s.logins[id := Exiting])
    case Clear(id) => s.(logins := s.logins - {id}, pending := false, owner := None)
  }

  ghost predicate IsRun(steps: seq<Step>)
    decreases |steps|, 0
  {
    steps == [] ||
    (IsRun(steps[..|steps| - 1]) && Enabled(After(steps[..|steps| - 1]), steps[|steps| - 1]))
  }

  ghost function After(steps: seq<Step>): State
    requires IsRun(steps)
    decreases |steps|, 1
  {
    if steps == [] then IDLE else Apply(After(steps[..|steps| - 1]), steps[|steps| - 1])
  }

  ghost predicate Within(steps: seq<Step>, limit: nat)
    requires IsRun(steps)
    decreases |steps|
  {
    |After(steps).logins| <= limit && (steps == [] || Within(steps[..|steps| - 1], limit))
  }

  /** A login that runs and was not cancelled is the one SubmitInput writes to. */
  predicate InputReaches(s: State) {
    forall id | id in s.logins && s.logins[id].Live? && id !in s.cancelled :: s.pending && s.owner == Some(id)
  }

  ghost predicate AlwaysReaches(limit: nat) {
    forall steps | IsRun(steps) && Within(steps, limit) :: InputReaches(After(steps))
  }

  lemma Only(s: State, id: Id)
    requires |s.logins| <= 1 && id in s.logins
    ensures s.logins.Keys == {id}
  {
    assert |s.logins.Keys - {id}| == |s.logins.Keys| - 1;
  }

  lemma StepReaches(s: State, step: Step)
    requires InputReaches(s) && |s.logins| <= 1 && Enabled(s, step) && |Apply(s, step).logins| <= 1
    ensures InputReaches(Apply(s, step))
  {
    var n := Apply(s, step);
    forall id | id in n.logins && n.logins[id].Live? && id !in n.cancelled ensures n.pending && n.owner == Some(id) {
      Only(n, id);
      if step.Publish? {
        assert step.id in n.logins.Keys;
      } else if step.Clear? {
        assert id in s.logins.Keys && step.id in s.logins.Keys;
        Only(s, id);
      } else {
        assert id in s.logins && s.logins[id].Live?;
      }
    }
  }

  lemma {:induction false} OneLoginReaches(steps: seq<Step>, limit: nat)
    requires IsRun(steps) && Within(steps, limit) && limit <= 1
    ensures InputReaches(After(steps))
  {
    if steps != [] {
      OneLoginReaches(steps[..|steps| - 1], limit);
      StepReaches(After(steps[..|steps| - 1]), steps[|steps| - 1]);
    }
  }

  lemma Next(steps: seq<Step>, s: State, step: Step) returns (longer: seq<Step>, n: State)
    requires IsRun(steps) && After(steps) == s && Within(steps, 2)
    requires Enabled(s, step) && |Apply(s, step).logins| <= 2
    ensures IsRun(longer) && After(longer) == n && Within(longer, 2) && n == Apply(s, step)
  {
    longer, n := steps + [step], Apply(s, step);
    assert longer[..|longer| - 1] == steps;
  }

  lemma CancelThenStart() returns (steps: seq<Step>, s: State)
    ensures IsRun(steps) && Within(steps, 2) && After(steps) == s
    ensures s == State(map[0 := Live, 1 := Live], 2, true, Some(1), {0})
  {
    steps, s := Next([], IDLE, Check);
    steps, s := Next(steps, s, Publish(0));
    steps, s := Next(steps, s, Cancel);
    assert s == State(map[0 := Live], 1, false, None, {0});
    steps, s := Next(steps, s, Check);
    steps, s := Next(steps, s, Publish(1));
  }

  /** A login is cancelled, the next one started, and only then does the first one's goroutine end: it
      clears the fields of the second, which goes on running without input. */
  lemma LateClear() returns (steps: seq<Step>)
    ensures IsRun(steps) && Within(steps, 2) && !InputReaches(After(steps))
  {
    var s;
    steps, s := CancelThenStart();
    steps, s := Next(steps, s, EndOfOutput(0));
    assert s.logins - {0} == map[1 := Live];
    steps, s := Next(steps, s, Clear(0));
    assert 1 in s.logins && s.logins[1].Live? && 1 !in s.cancelled;
  }

  lemma {:induction false} WithinWidens(steps: seq<Step>, fewer: nat, more: nat)
    requires IsRun(steps) && Within(steps, fewer) && fewer <= more
    ensures Within(steps, more)
  {
    if steps != [] {
      WithinWidens(steps[..|steps| - 1], fewer, more);
    }
  }

  /** On every run input reaches the running login exactly when logins, up to the end of their goroutines, do
      not overlap. */
  lemma InputReachesExactly(limit: nat)
    ensures AlwaysReaches(limit) <==> limit <= 1
  {
    if limit <= 1 {
      forall steps | IsRun(steps) && Within(steps, limit) ensures InputReaches(After(steps)) {
        OneLoginReaches(steps, limit);
      }
    } else {
      var steps := LateClear();
      WithinWidens(steps, 2, limit);
    }
  }

  /** The login published last, if neither a cancel nor the end of any login's goroutine came since. */
  function Published(steps: seq<Step>): Option<Id> {
    if steps == [] then None
    else
      match steps[|steps| - 1]
      case Publish(id) => Some(id)
      case Cancel => None
      case Clear(_) => None
      case _ => Published(steps[..|steps| - 1])
  }

  /** A new login is refused, and input accepted, exactly while that one stands. */
  lemma {:induction false} PendingExactly(steps: seq<Step>)
    requires IsRun(steps)
    ensures After(steps).owner == Published(steps)
    ensures Enabled(After(steps), Check) <==> Published(steps).None?
  {
    if steps != [] {
      PendingExactly(steps[..|steps| - 1]);
    }
  }

  /** The fields, each section under the mutex being one method. */
  class AuthFields {
    var logins: map<Id, Phase>
    var next: Id
    var loginPending: bool
    var ptyFd: Option<Id>
    ghost var cancelled: set<Id>

    constructor ()
      ensures View() == IDLE
    {
      logins, next, loginPending, ptyFd, cancelled := map[], 0, false, None, {};
    }

    ghost function View(): State
      reads this
    {
      State(logins, next, loginPending, ptyFd, cancelled)
    }

    /** The check of StartLogin. */
    method TryStart() returns (id: Option<Id>)
      modifies this
      ensures id.None? <==> old(loginPending)
      ensures View() == if id.Some? then Apply(old(View()), Check) else old(View())
    {
      if loginPending {
        return None;
      }
      id := Some(next);
      logins := logins[next := Checked];
      next := next + 1;
    }

    /** The end of StartLogin, after the process was started or could not be. */
    method Launched(id: Id, started: bool)
      requires id in logins && logins[id].Checked?
      modifies this
      ensures View() == Apply(old(View()), if started then Publish(id) else LaunchFails(id))
    {
      if !started {
        logins := logins - {id};
        return;
      }
      logins := logins[id := Live];
      loginPending := true;
      ptyFd := Some(id);
    }

    method CancelLogin()
      modifies this
      ensures View() == Apply(old(View()), Cancel)
    {
      if ptyFd.Some? {
        cancelled := cancelled + {ptyFd.value};
      }
      loginPending := false;
      ptyFd := None;
    }

    /** The deferred part of a login's goroutine. */
    method ReaderEnds(id: Id)
      requires id in logins && logins[id].Exiting?
      modifies this
      ensures View() == Apply(old(View()), Clear(id))
    {
      logins := logins - {id};
      loginPending := false;
      ptyFd := None;
    }

    /** Where the input goes, or the error. */
    method SubmitInput() returns (target: Option<Id>)
      ensures target == if loginPending then ptyFd else None
      ensures InputReaches(View()) ==>
                forall id | id in logins && logins[id].Live? && id !in cancelled :: target == Some(id)
    {
      target := if loginPending then ptyFd else None;
    }
  }
}
