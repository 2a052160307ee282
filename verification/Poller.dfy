/**
 The frontend's conversation poller.  An interval timer issues a poll on every firing until the stop flag is
 seen; a response delivers its messages, and then, if it shows the conversation completed, the completion.
 Responses may arrive in any order.
 */
module Poller {
  import Persist

  type PollId = nat

  /** What one response shows: the conversation's status, then the assistant row, read in this order. */
  datatype Detail = Detail(conversation: Persist.ConversationStatus, data: Persist.Data, status: Persist.MessageStatus)

  datatype Call = OnMessages(detail: Detail) | OnCompleted

  datatype State = State(stopped: bool, cleared: bool, outstanding: set<PollId>, next: PollId, calls: seq<Call>)

  datatype Step = Tick | Arrive(id: PollId, detail: Detail) | Lose(id: PollId)

  const STARTED := State(false, false, {}, 0, [])

  predicate Enabled(s: State, step: Step) {
    match step
    case Tick => !s.cleared
    case Arrive(id, _) => id in s.outstanding
    case Lose(id) => id in s.outstanding
  }

  function CallsFor(detail: Detail): seq<Call> {
    [OnMessages(detail)] + if detail.conversation.ConversationCompleted? then [OnCompleted] else []
  }

  function Apply(s: State, step: Step): State
    requires Enabled(s, step)
  {
    match step
    case Tick => if s.stopped then s.(cleared := true) else s.(outstanding := s.outstanding + {s.next}, next := s.next + 1)
    case Arrive(id, detail) =>
      s.(outstanding := s.outstanding - {id}, calls := s.calls + CallsFor(detail),
         stopped := s.stopped || detail.conversation.ConversationCompleted?)
    case Lose(id) => s.(outstanding := s.outstanding - {id})
  }

  ghost predicate IsRun(s: State, steps: seq<Step>)
    decreases |steps|, 0
  {
    steps == [] ||
    (IsRun(s, steps[..|steps| - 1]) && Enabled(After(s, steps[..|steps| - 1]), steps[|steps| - 1]))
  }

  ghost function After(s: State, steps: seq<Step>): State
    requires IsRun(s, steps)
    decreases |steps|, 1
  {
    if steps == [] then s else Apply(After(s, steps[..|steps| - 1]), steps[|steps| - 1])
  }

  // ----- The completion comes with its messages -----

  /** Every completion directly follows the delivery of the response that showed it, and the flag is set
      exactly when one was delivered. */
  ghost predicate Inv(s: State) {
    && (s.stopped <==> OnCompleted in s.calls)
    && (s.cleared ==> s.stopped)
    && (forall k | 0 <= k < |s.calls| && s.calls[k].OnCompleted? ::
          0 < k && s.calls[k - 1].OnMessages? && s.calls[k - 1].detail.conversation.ConversationCompleted?)
    && (forall id | id in s.outstanding :: id < s.next)
  }

  lemma StepKeepsInv(s: State, step: Step)
    requires Inv(s) && Enabled(s, step)
    ensures Inv(Apply(s, step)) && s.calls <= Apply(s, step).calls
  {
    var n := Apply(s, step);
    if step.Arrive? {
      var before, added := |s.calls|, CallsFor(step.detail);
      assert forall k | before <= k < |n.calls| :: n.calls[k] == added[k - before];
      assert OnCompleted in added <==> step.detail.conversation.ConversationCompleted?;
    }
  }

  lemma {:induction false} RunKeepsInv(steps: seq<Step>)
    requires IsRun(STARTED, steps)
    ensures Inv(After(STARTED, steps))
  {
    if steps != [] {
      RunKeepsInv(steps[..|steps| - 1]);
      StepKeepsInv(After(STARTED, steps[..|steps| - 1]), steps[|steps| - 1]);
    }
  }

  // ----- What is delivered, and what is asked for -----

  /** The responses that arrived, in the order of their arrival. */
  function Arrived(steps: seq<Step>): seq<Detail> {
    if steps == [] then []
    else
      var last := steps[|steps| - 1];
      Arrived(steps[..|steps| - 1]) + if last.Arrive? then [last.detail] else []
  }

  function Details(calls: seq<Call>): seq<Detail> {
    if calls == [] then []
    else
      var last := calls[|calls| - 1];
      Details(calls[..|calls| - 1]) + if last.OnMessages? then [last.detail] else []
  }

  lemma DeliveredOne(calls: seq<Call>, detail: Detail)
    ensures Details(calls + CallsFor(detail)) == Details(calls) + [detail]
  {
    var one := calls + [OnMessages(detail)];
    assert one[..|one| - 1] == calls;
    if detail.conversation.ConversationCompleted? {
      var two := calls + CallsFor(detail);
      assert two[..|two| - 1] == one;
    } else {
      assert calls + CallsFor(detail) == one;
    }
  }

  /** A response that shows the conversation completed is followed by the completion. */
  predicate Announced(calls: seq<Call>) {
    forall k | 0 <= k < |calls| && calls[k].OnMessages? && calls[k].detail.conversation.ConversationCompleted? ::
      k + 1 < |calls| && calls[k + 1].OnCompleted?
  }

  /** Every response that arrives is delivered, and nothing else is, in the order of arrival: completed or not,
      and also after the completion. */
  lemma {:induction false} DeliversExactly(steps: seq<Step>)
    requires IsRun(STARTED, steps)
    ensures Details(After(STARTED, steps).calls) == Arrived(steps)
    ensures Announced(After(STARTED, steps).calls)
  {
    if steps != [] {
      var front, last := steps[..|steps| - 1], steps[|steps| - 1];
      DeliversExactly(front);
      if last.Arrive? {
        DeliveredOne(After(STARTED, front).calls, last.detail);
      }
    }
  }

  predicate Settles(step: Step, id: PollId) {
    (step.Arrive? || step.Lose?) && step.id == id
  }

  ghost predicate Settled(steps: seq<Step>, id: PollId) {
    exists step :: step in steps && Settles(step, id)
  }

  predicate Completed(details: seq<Detail>) {
    exists d :: d in details && d.conversation.ConversationCompleted?
  }

  /** The firings of the timer before a response showed the conversation completed. */
  function Polls(steps: seq<Step>): nat {
    if steps == [] then 0
    else
      var front := steps[..|steps| - 1];
      Polls(front) +
      if steps[|steps| - 1].Tick? && !Completed(Arrived(front)) then 1 else 0
  }

  /** The timer has fired after the completion. */
  predicate FiredAfterwards(steps: seq<Step>) {
    steps != [] &&
    var front := steps[..|steps| - 1];
    FiredAfterwards(front) || (steps[|steps| - 1].Tick? && Completed(Arrived(front)))
  }

  /** One poll for each firing before the completion, and none after it, when the first firing ends the timer; each
      poll is open until it is settled, once. */
  lemma {:induction false} AsksExactly(steps: seq<Step>)
    requires IsRun(STARTED, steps)
    ensures After(STARTED, steps).next == Polls(steps)
    ensures forall id: PollId :: id in After(STARTED, steps).outstanding <==> id < Polls(steps) && !Settled(steps, id)
    ensures After(STARTED, steps).stopped <==> Completed(Arrived(steps))
    ensures After(STARTED, steps).cleared <==> FiredAfterwards(steps)
    ensures forall step | step in steps && !step.Tick? :: step.id < Polls(steps)
  {
    if steps != [] {
      var front, last := steps[..|steps| - 1], steps[|steps| - 1];
      AsksExactly(front);
      RunKeepsInv(front);
      assert front + [last] == steps;
      assert forall step :: step in steps <==> step in front || step == last;
      forall id: PollId ensures Settled(steps, id) <==> Settled(front, id) || Settles(last, id) {
        if Settles(last, id) {
          assert last in steps;
        }
      }
      assert forall d :: d in Arrived(steps) <==> d in Arrived(front) || (last.Arrive? && d == last.detail);
    }
  }

  // ----- Exactly when the completion is the last thing delivered -----

  ghost predicate InFlight(steps: seq<Step>, limit: nat)
    requires IsRun(STARTED, steps)
    decreases |steps|
  {
    |After(STARTED, steps).outstanding| <= limit && (steps == [] || InFlight(steps[..|steps| - 1], limit))
  }

  predicate CompletionIsLast(calls: seq<Call>) {
    forall k | 0 <= k < |calls| && calls[k].OnCompleted? :: k == |calls| - 1
  }

  ghost predicate NothingAfterCompletion(limit: nat) {
    forall steps | IsRun(STARTED, steps) && InFlight(steps, limit) :: CompletionIsLast(After(STARTED, steps).calls)
  }

  lemma {:induction false} OneAtATime(steps: seq<Step>, limit: nat)
    requires IsRun(STARTED, steps) && InFlight(steps, limit) && limit <= 1
    ensures var s := After(STARTED, steps);
            CompletionIsLast(s.calls) && (s.stopped ==> s.outstanding == {})
  {
    if steps != [] {
      var front, last := steps[..|steps| - 1], steps[|steps| - 1];
      OneAtATime(front, limit);
      RunKeepsInv(front);
      var s := After(STARTED, front);
      if last.Arrive? {
        assert s.outstanding == {last.id} by {
          assert s.outstanding - {last.id} + {last.id} == s.outstanding;
          assert |s.outstanding - {last.id}| == |s.outstanding| - 1;
        }
      }
    }
  }

  function Showing(conversation: Persist.ConversationStatus): Detail {
    Detail(conversation, map[], Persist.Streaming)
  }

  lemma Next(steps: seq<Step>, s: State, step: Step) returns (longer: seq<Step>, n: State)
    requires IsRun(STARTED, steps) && After(STARTED, steps) == s && InFlight(steps, 2)
    requires Enabled(s, step) && |Apply(s, step).outstanding| <= 2
    ensures IsRun(STARTED, longer) && After(STARTED, longer) == n && InFlight(longer, 2) && n == Apply(s, step)
  {
    longer, n := steps + [step], Apply(s, step);
    assert longer[..|longer| - 1] == steps;
  }

  /** A slow response overtaken by the next poll's delivers older messages after the completion. */
  lemma OvertakenResponse() returns (steps: seq<Step>)
    ensures IsRun(STARTED, steps) && InFlight(steps, 2) && !CompletionIsLast(After(STARTED, steps).calls)
  {
    var running, completed := Showing(Persist.ConversationRunning), Showing(Persist.ConversationCompleted);
    var s;
    steps, s := Next([], STARTED, Tick);
    steps, s := Next(steps, s, Tick);
    assert s.outstanding == {0, 1};
    steps, s := Next(steps, s, Arrive(1, completed));
    assert s.outstanding == {0} && s.calls == [OnMessages(completed), OnCompleted];
    steps, s := Next(steps, s, Arrive(0, running));
    assert s.calls[1].OnCompleted?;
  }

  lemma {:induction false} InFlightWidens(steps: seq<Step>, fewer: nat, more: nat)
    requires IsRun(STARTED, steps) && InFlight(steps, fewer) && fewer <= more
    ensures InFlight(steps, more)
  {
    if steps != [] {
      InFlightWidens(steps[..|steps| - 1], fewer, more);
    }
  }

  /** On every run the completion is the last callback, and so comes once, exactly when polls do not overlap. */
  lemma CompletionIsLastExactly(limit: nat)
    ensures NothingAfterCompletion(limit) <==> limit <= 1
  {
    if limit <= 1 {
      forall steps | IsRun(STARTED, steps) && InFlight(steps, limit) ensures CompletionIsLast(After(STARTED, steps).calls) {
        OneAtATime(steps, limit);
      }
    } else {
      var steps := OvertakenResponse();
      InFlightWidens(steps, 2, limit);
    }
  }

  // ----- End to end -----

  /** What GetConversation answers when it reads the conversation after the first i steps of the turn and
      the messages after the first j. */
  ghost function DetailAt(c: Persist.ConversationStatus, turn: seq<Persist.Step>, i: nat, j: nat): Detail
    requires i <= j <= |turn| && Persist.IsRun(Persist.Start(c), turn[..i]) && Persist.IsRun(Persist.Start(c), turn[..j])
  {
    var s, t := Persist.After(Persist.Start(c), turn[..i]), Persist.After(Persist.Start(c), turn[..j]);
    Detail(s.conversation, t.data, t.status)
  }

  ghost predicate ReadAt(c: Persist.ConversationStatus, turn: seq<Persist.Step>, detail: Detail, i: nat, j: nat) {
    && i <= j <= |turn| && Persist.IsRun(Persist.Start(c), turn[..i]) && Persist.IsRun(Persist.Start(c), turn[..j])
    && Persist.WriteRunning(true) in turn[..i] && detail == DetailAt(c, turn, i, j)
  }

  /** Each delivered response was read, conversation first, after the "running" write of the turn. */
  ghost predicate ReadFrom(c: Persist.ConversationStatus, turn: seq<Persist.Step>, calls: seq<Call>) {
    forall k | 0 <= k < |calls| && calls[k].OnMessages? :: exists i, j :: ReadAt(c, turn, calls[k].detail, i, j)
  }

  lemma CompletedReadIsFinal(c: Persist.ConversationStatus, turn: seq<Persist.Step>, detail: Detail, i: nat, j: nat)
    requires Persist.IsRun(Persist.Start(c), turn) && Persist.Panic !in turn
    requires ReadAt(c, turn, detail, i, j) && detail.conversation.ConversationCompleted?
    ensures var row := Persist.After(Persist.Start(c), turn);
            detail.data == row.data && detail.status == row.status && Persist.Frozen(row)
  {
    assert Persist.Panic !in turn[..i];
    Persist.NoEarlyCompletion(c, turn, i, j);
  }

  /** From the worker's writes to the screen: over every panic-free run of a turn and every run of the poller
      over it, whenever the poller reports completion, the messages it delivered just before show the turn's
      row as it stays for good. */
  lemma CompletionShowsFinalRow(c: Persist.ConversationStatus, turn: seq<Persist.Step>, steps: seq<Step>, k: nat)
    requires Persist.IsRun(Persist.Start(c), turn) && Persist.Panic !in turn
    requires IsRun(STARTED, steps) && ReadFrom(c, turn, After(STARTED, steps).calls)
    requires k < |After(STARTED, steps).calls| && After(STARTED, steps).calls[k].OnCompleted?
    ensures var calls, row := After(STARTED, steps).calls, Persist.After(Persist.Start(c), turn);
            && k > 0 && calls[k - 1].OnMessages?
            && calls[k - 1].detail.data == row.data && calls[k - 1].detail.status == row.status
            && Persist.Frozen(row)
  {
    RunKeepsInv(steps);
    var calls := After(STARTED, steps).calls;
    assert calls[k - 1].OnMessages?;
    var i, j :| ReadAt(c, turn, calls[k - 1].detail, i, j);
    CompletedReadIsFinal(c, turn, calls[k - 1].detail, i, j);
  }

  // ----- The hook -----

  /** One effect of the hook, while the conversation runs. */
  class Poller {
    var stopped: bool
    var cleared: bool
    var outstanding: set<PollId>
    var next: PollId
    var calls: seq<Call>

    constructor ()
      ensures View() == STARTED
    {
      stopped, cleared, outstanding, next, calls := false, false, {}, 0, [];
    }

    function View(): State
      reads this
    {
      State(stopped, cleared, outstanding, next, calls)
    }

    /** The interval's callback. */
    method Fire()
      requires !cleared
      modifies this
      ensures View() == Apply(old(View()), Tick)
    {
      if stopped {
        cleared := true;
        return;
      }
      outstanding := outstanding + {next};
      next := next + 1;
    }

    /** The continuation of a poll: a failed one is ignored. */
    method Settle(id: PollId, response: seq<Detail>)
      requires id in outstanding && |response| <= 1
      modifies this
      ensures View() == Apply(old(View()), if response == [] then Lose(id) else Arrive(id, response[0]))
    {
      outstanding := outstanding - {id};
      if response == [] {
        return;
      }
      calls := calls + [OnMessages(response[0])];
      if response[0].conversation.ConversationCompleted? {
        stopped := true;
        calls := calls + [OnCompleted];
      }
    }
  }
}
