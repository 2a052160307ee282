/**
 The fan-out of PTY output to subscribers (cc-remote-agent).  Sends happen under the subscribers lock, one
 channel at a time; receives do not take the lock; a cancelled subscriber is deleted under the lock and its
 channel is closed afterwards.
 */
module FanOut {
  type Id = nat
  type Chunk = string

  const BUFFER := 64

  /** A channel, with its history: what was offered to it, which of that found room, what was received. */
  datatype Chan = Chan(queue: seq<Chunk>, closed: bool, from: nat, offered: seq<Chunk>, fitted: seq<bool>, received: seq<Chunk>)

  datatype Lock = Free | Sending(chunk: Chunk, todo: set<Id>)

  /** `closing` holds the subscribers deleted whose channel is yet to be closed, `log` the chunks whose
      broadcast has ended. */
  datatype State = State(chans: map<Id, Chan>, subscribers: set<Id>, closing: set<Id>, lock: Lock, log: seq<Chunk>)

  datatype Step =
    | Join(id: Id)
    | StartBroadcast(chunk: Chunk)
    | Offer(id: Id)
    | EndBroadcast
    | Delete(id: Id)
    | Close(id: Id)
    | Recv(id: Id)

  predicate Enabled(s: State, step: Step) {
    match step
    case Join(id) => s.lock.Free? && id !in s.chans
    case StartBroadcast(_) => s.lock.Free?
    case Offer(id) => s.lock.Sending? && id in s.lock.todo && id in s.chans
    case EndBroadcast => s.lock.Sending? && s.lock.todo == {}
    case Delete(id) => s.lock.Free? && id in s.subscribers
    case Close(id) => id in s.closing && id in s.chans
    case Recv(id) => id in s.chans && s.chans[id].queue != []
  }

  /** The non-blocking send: a full queue drops the chunk. */
  function Offered(chan: Chan, chunk: Chunk): Chan {
    var fits := |chan.queue| < BUFFER;
    chan.(queue := if fits then chan.queue + [chunk] else chan.queue,
          offered := chan.offered + [chunk],
          fitted := chan.fitted + [fits])
  }

  function Apply(s: State, step: Step): State
    requires Enabled(s, step)
  {
    match step
    case Join(id) =>
      s.(chans := s.chans[id := Chan([], false, |s.log|, [], [], [])], subscribers := s.subscribers + {id})
    case StartBroadcast(chunk) => s.(lock := Sending(chunk, s.subscribers))
    case Offer(id) =>
      s.(chans := s.chans[id := Offered(s.chans[id], s.lock.chunk)], lock := Sending(s.lock.chunk, s.lock.todo - {id}))
    case EndBroadcast => s.(lock := Free, log := s.log + [s.lock.chunk])
    case Delete(id) => s.(subscribers := s.subscribers - {id}, closing := s.closing + {id})
    case Close(id) => s.(chans := s.chans[id := s.chans[id].(closed := true)], closing := s.closing - {id})
    case Recv(id) =>
      var chan := s.chans[id];
      s.(chans := s.chans[id := chan.(queue := chan.queue[1..], received := chan.received + [chan.queue[0]])])
  }

  const NOBODY := State(map[], {}, {}, Free, [])

  ghost predicate IsRun(s: State, steps: seq<Step>)
    decreases |steps|, 0
  {
    steps == [] ||
    (IsRun(s, steps[..|steps| - 1]) && Enabled(After(s, steps[..|steps| - 1]), steps[|steps| - 1]))
  }

  ghost function After(s: State, steps: seq<Step>): State
    requires IsRun(s, steps)
    decreases |steps|, 1
  {
    if steps == [] then s else Apply(After(s, steps[..|steps| - 1]), steps[|steps| - 1])
  }

  // ----- What a channel holds -----

  /** The offered chunks that found room, in order. */
  function Fitting(offered: seq<Chunk>, fitted: seq<bool>): seq<Chunk>
    requires |offered| == |fitted|
  {
    if offered == [] then []
    else
      var n := |offered| - 1;
      Fitting(offered[..n], fitted[..n]) + if fitted[n] then [offered[n]] else []
  }

  /** Nothing is missing exactly when every chunk found room. */
  lemma {:induction false} AllFitExactly(offered: seq<Chunk>, fitted: seq<bool>)
    requires |offered| == |fitted|
    ensures |Fitting(offered, fitted)| <= |offered|
    ensures Fitting(offered, fitted) == offered <==> forall i | 0 <= i < |fitted| :: fitted[i]
  {
    if offered != [] {
      var n := |offered| - 1;
      AllFitExactly(offered[..n], fitted[..n]);
      assert offered == offered[..n] + [offered[n]];
      if Fitting(offered, fitted) == offered {
        assert |Fitting(offered, fitted)| == n + 1;
        assert fitted[n];
        assert Fitting(offered, fitted)[..n] == Fitting(offered[..n], fitted[..n]);
        forall i | 0 <= i < |fitted| ensures fitted[i] {
          assert i < n ==> fitted[..n][i];
        }
      }
    }
  }

  /** Received, then still queued, are exactly the offered chunks that found room; nothing is reordered,
      repeated or made up. */
  ghost predicate ChanOk(chan: Chan) {
    && |chan.queue| <= BUFFER && |chan.offered| == |chan.fitted|
    && chan.received + chan.queue == Fitting(chan.offered, chan.fitted)
  }

  predicate BeingSent(s: State, id: Id) {
    s.lock.Sending? && id in s.subscribers && id !in s.lock.todo
  }

  /** A channel was offered every chunk broadcast since it subscribed, up to now or until it was deleted. */
  ghost predicate OfferedAll(s: State, id: Id)
    requires id in s.chans
  {
    var chan := s.chans[id];
    && chan.from <= |s.log|
    && (id in s.subscribers ==> chan.offered == s.log[chan.from..] + if BeingSent(s, id) then [s.lock.chunk] else [])
    && (id !in s.subscribers ==> chan.offered <= s.log[chan.from..])
  }

  /** Who still has an open channel. */
  ghost predicate OpenOk(s: State) {
    && s.subscribers <= s.chans.Keys && (s.lock.Sending? ==> s.lock.todo <= s.subscribers)
    && s.closing <= s.chans.Keys && s.closing !! s.subscribers
    && forall id | id in s.subscribers || id in s.closing :: !s.chans[id].closed
  }

  ghost predicate Inv(s: State) {
    OpenOk(s) && forall id | id in s.chans :: ChanOk(s.chans[id]) && OfferedAll(s, id)
  }

  lemma StepKeepsOpen(s: State, step: Step)
    requires OpenOk(s) && Enabled(s, step)
    ensures OpenOk(Apply(s, step))
  {
  }

  lemma OfferKeepsChan(chan: Chan, chunk: Chunk)
    requires ChanOk(chan)
    ensures ChanOk(Offered(chan, chunk))
  {
    var next := Offered(chan, chunk);
    var n := |chan.offered|;
    assert next.offered[..n] == chan.offered && next.fitted[..n] == chan.fitted;
  }

  lemma EndKeepsChan(s: State, id: Id)
    requires Inv(s) && Enabled(s, EndBroadcast) && id in s.chans
    ensures OfferedAll(Apply(s, EndBroadcast), id)
  {
    var n, from := Apply(s, EndBroadcast), s.chans[id].from;
    assert n.log[from..] == s.log[from..] + [s.lock.chunk];
  }

  lemma ReceiveKeepsChan(chan: Chan)
    requires ChanOk(chan) && chan.queue != []
    ensures ChanOk(chan.(queue := chan.queue[1..], received := chan.received + [chan.queue[0]]))
  {
    assert (chan.received + [chan.queue[0]]) + chan.queue[1..] == chan.received + chan.queue;
  }

  lemma StepKeepsChan(s: State, step: Step, id: Id)
    requires Inv(s) && Enabled(s, step) && id in Apply(s, step).chans
    ensures ChanOk(Apply(s, step).chans[id]) && OfferedAll(Apply(s, step), id)
  {
    if step.EndBroadcast? {
      EndKeepsChan(s, id);
    } else if step.Offer? && id == step.id {
      OfferKeepsChan(s.chans[id], s.lock.chunk);
    } else if step.Recv? && id == step.id {
      ReceiveKeepsChan(s.chans[id]);
    } else if step.Join? && id == step.id {
    } else {
      assert ChanOk(s.chans[id]) && OfferedAll(s, id);
    }
  }

  lemma StepKeepsInv(s: State, step: Step)
    requires Inv(s) && Enabled(s, step)
    ensures Inv(Apply(s, step))
  {
    var n := Apply(s, step);
    StepKeepsOpen(s, step);
    forall id | id in n.chans ensures ChanOk(n.chans[id]) && OfferedAll(n, id) {
      StepKeepsChan(s, step, id);
    }
  }

  lemma {:induction false} RunKeepsInv(s: State, steps: seq<Step>)
    requires Inv(s) && IsRun(s, steps)
    ensures Inv(After(s, steps))
  {
    if steps != [] {
      RunKeepsInv(s, steps[..|steps| - 1]);
      StepKeepsInv(After(s, steps[..|steps| - 1]), steps[|steps| - 1]);
    }
  }

  /** Over every interleaving: no chunk is offered to a closed channel and no channel is closed twice, no
      queue holds more than 64 chunks, and a subscriber has seen or still has queued, in order, exactly the
      chunks broadcast since it subscribed that found room; that is all of them exactly when its queue was
      never full at a broadcast. */
  lemma {:induction false} EveryInterleaving(steps: seq<Step>, id: Id)
    requires IsRun(NOBODY, steps) && id in After(NOBODY, steps).chans
    ensures var s := After(NOBODY, steps);
            var chan := s.chans[id];
            && (Enabled(s, Offer(id)) ==> !chan.closed) && (Enabled(s, Close(id)) ==> !chan.closed)
            && (id in s.subscribers ==> !chan.closed)
            && |chan.queue| <= BUFFER
            && |chan.offered| == |chan.fitted|
            && chan.received + chan.queue == Fitting(chan.offered, chan.fitted)
            && (chan.received + chan.queue == chan.offered <==> forall i | 0 <= i < |chan.fitted| :: chan.fitted[i])
            && chan.from <= |s.log|
            && (s.lock.Free? && id in s.subscribers ==> chan.offered == s.log[chan.from..])
            && (id !in s.subscribers ==> chan.offered <= s.log[chan.from..])
  {
    RunKeepsInv(NOBODY, steps);
    var chan := After(NOBODY, steps).chans[id];
    AllFitExactly(chan.offered, chan.fitted);
  }

  ghost predicate ClosedAs(s: State, id: Id, deleted: bool, closed: bool) {
    && (id in s.chans ==> (s.chans[id].closed <==> closed))
    && (closed ==> deleted && id in s.chans && id !in s.subscribers)
    && (id in s.closing ==> deleted && !closed)
  }

  lemma StepCloses(s: State, step: Step, id: Id, deleted: bool, closed: bool)
    requires OpenOk(s) && Enabled(s, step) && ClosedAs(s, id, deleted, closed)
    ensures ClosedAs(Apply(s, step), id, deleted || step == Delete(id), closed || step == Close(id))
  {
  }

  /** A channel is closed exactly when its subscriber has closed it, which it does after it was deleted. */
  lemma {:induction false} ClosedExactly(steps: seq<Step>, id: Id)
    requires IsRun(NOBODY, steps)
    ensures ClosedAs(After(NOBODY, steps), id, Delete(id) in steps, Close(id) in steps)
  {
    if steps != [] {
      var front, last := steps[..|steps| - 1], steps[|steps| - 1];
      ClosedExactly(front, id);
      RunKeepsInv(NOBODY, front);
      StepCloses(After(NOBODY, front), last, id, Delete(id) in front, Close(id) in front);
      assert front + [last] == steps;
    }
  }

  // ----- Which chunks find room -----

  /** Whenever a chunk is offered to the channel, fewer than 64 of those offered before are yet to be received. */
  ghost predicate KeepsUp(steps: seq<Step>, id: Id)
    requires IsRun(NOBODY, steps)
    decreases |steps|
  {
    steps == [] ||
    var front, last := steps[..|steps| - 1], steps[|steps| - 1];
    && KeepsUp(front, id)
    && (last == Offer(id) ==>
          var chan := After(NOBODY, front).chans[id];
          |chan.offered| - |chan.received| < 64)
  }

  lemma {:induction false} FittingIsNoLonger(offered: seq<Chunk>, fitted: seq<bool>)
    requires |offered| == |fitted|
    ensures |Fitting(offered, fitted)| <= |offered|
  {
    if offered != [] {
      FittingIsNoLonger(offered[..|offered| - 1], fitted[..|offered| - 1]);
    }
  }

  lemma Loses(chan: Chan, chunk: Chunk)
    requires ChanOk(chan)
    ensures var next := Offered(chan, chunk);
            var missing, missed := |chan.offered| - |chan.received + chan.queue|, |next.offered| - |next.received + next.queue|;
            missing >= 0 && (missed == 0 <==> missing == 0 && |chan.offered| - |chan.received| < 64) && missed >= missing
  {
    FittingIsNoLonger(chan.offered, chan.fitted);
  }

  lemma {:induction false} NothingMissingExactly(steps: seq<Step>, id: Id)
    requires IsRun(NOBODY, steps) && id in After(NOBODY, steps).chans
    ensures var chan := After(NOBODY, steps).chans[id];
            |chan.offered| == |chan.received + chan.queue| <==> KeepsUp(steps, id)
  {
    if steps != [] {
      var front, last := steps[..|steps| - 1], steps[|steps| - 1];
      RunKeepsInv(NOBODY, front);
      var s := After(NOBODY, front);
      if id in s.chans {
        NothingMissingExactly(front, id);
        if last == Offer(id) {
          Loses(s.chans[id], s.lock.chunk);
        }
      } else {
        NotYetJoined(front, id);
      }
    }
  }

  lemma {:induction false} NotYetJoined(steps: seq<Step>, id: Id)
    requires IsRun(NOBODY, steps) && id !in After(NOBODY, steps).chans
    ensures KeepsUp(steps, id)
  {
    if steps != [] {
      NotYetJoined(steps[..|steps| - 1], id);
    }
  }

  /** A subscriber gets, or still has queued, every chunk it was offered exactly when it keeps up. */
  lemma LosslessExactly(steps: seq<Step>, id: Id)
    requires IsRun(NOBODY, steps) && id in After(NOBODY, steps).chans
    ensures var chan := After(NOBODY, steps).chans[id];
            chan.received + chan.queue == chan.offered <==> KeepsUp(steps, id)
  {
    NothingMissingExactly(steps, id);
    RunKeepsInv(NOBODY, steps);
    var chan := After(NOBODY, steps).chans[id];
    AllFitExactly(chan.offered, chan.fitted);
    if |Fitting(chan.offered, chan.fitted)| == |chan.offered| {
      NoneDropped(chan.offered, chan.fitted);
    }
  }

  lemma {:induction false} NoneDropped(offered: seq<Chunk>, fitted: seq<bool>)
    requires |offered| == |fitted| == |Fitting(offered, fitted)|
    ensures Fitting(offered, fitted) == offered
  {
    if offered != [] {
      var n := |offered| - 1;
      FittingIsNoLonger(offered[..n], fitted[..n]);
      NoneDropped(offered[..n], fitted[..n]);
      assert offered == offered[..n] + [offered[n]];
    }
  }

  // ----- The manager -----

  ghost predicate Leads(s0: State, steps: seq<Step>, s: State) {
    IsRun(s0, steps) && After(s0, steps) == s
  }

  lemma Take(s0: State, steps: seq<Step>, s: State, step: Step) returns (longer: seq<Step>, next: State)
    requires Leads(s0, steps, s) && Enabled(s, step)
    ensures Leads(s0, longer, next) && next == Apply(s, step)
  {
    longer, next := steps + [step], Apply(s, step);
    assert longer[..|steps|] == steps;
  }

  /** AuthManager's subscribers and their channels, between lock sections. */
  class AuthManager {
    var subscribers: set<Id>
    var chans: map<Id, Chan>
    var log: seq<Chunk>
    var next: Id

    constructor ()
      ensures Valid() && View() == NOBODY
    {
      subscribers, chans, log, next := {}, map[], [], 0;
    }

    function View(): State
      reads this
    {
      State(chans, subscribers, {}, Free, log)
    }

    ghost predicate Valid()
      reads this
    {
      Inv(View()) && forall id | id in chans :: id < next
    }

    method Subscribe() returns (id: Id, ghost steps: seq<Step>)
      requires Valid()
      modifies this
      ensures Valid() && Leads(old(View()), steps, View())
      ensures id !in old(chans) && subscribers == old(subscribers) + {id} && log == old(log)
      ensures chans == old(chans)[id := Chan([], false, |log|, [], [], [])]
    {
      ghost var s := View();
      id := next;
      next := next + 1;
      chans := chans[id := Chan([], false, |log|, [], [], [])];
      subscribers := subscribers + {id};
      StepKeepsInv(s, Join(id));
      ghost var n;
      steps, n := Take(s, [], s, Join(id));
    }

    /** The select with a default case. */
    method TrySend(id: Id, chunk: Chunk)
      requires id in chans
      modifies this`chans
      ensures chans == old(chans)[id := Offered(old(chans)[id], chunk)]
    {
      var chan := chans[id];
      if |chan.queue| < BUFFER {
        chans := chans[id := chan.(queue := chan.queue + [chunk], offered := chan.offered + [chunk], fitted := chan.fitted + [true])];
      } else {
        chans := chans[id := chan.(offered := chan.offered + [chunk], fitted := chan.fitted + [false])];
      }
    }

    /** The loop over the subscribers, in no particular order. */
    method SendToAll(chunk: Chunk, ghost s: State, ghost before: seq<Step>) returns (ghost steps: seq<Step>)
      requires s == View() && subscribers <= chans.Keys
      requires Leads(s, before, State(chans, subscribers, {}, Sending(chunk, subscribers), log))
      modifies this`chans
      ensures Leads(s, steps, State(chans, subscribers, {}, Sending(chunk, {}), log))
      ensures chans.Keys == old(chans).Keys
      ensures forall id | id in chans ::
                chans[id] == if id in subscribers then Offered(old(chans)[id], chunk) else old(chans)[id]
    {
      steps := before;
      var left := subscribers;
      while left != {}
        invariant left <= subscribers && chans.Keys == s.chans.Keys
        invariant forall id | id in chans ::
                    chans[id] == if id in subscribers && id !in left then Offered(s.chans[id], chunk) else s.chans[id]
        invariant Leads(s, steps, State(chans, subscribers, {}, Sending(chunk, left), log))
        decreases left
      {
        var id :| id in left;
        ghost var u;
        steps, u := Take(s, steps, State(chans, subscribers, {}, Sending(chunk, left), log), Offer(id));
        left := left - {id};
        TrySend(id, chunk);
      }
    }

    /** One chunk read from the PTY: every subscriber's channel is offered it, the others are left alone. */
    method Broadcast(chunk: Chunk) returns (ghost steps: seq<Step>)
      requires Valid()
      modifies this
      ensures Valid() && Leads(old(View()), steps, View())
      ensures subscribers == old(subscribers) && log == old(log) + [chunk] && chans.Keys == old(chans).Keys
      ensures forall id | id in chans ::
                chans[id] == if id in subscribers then Offered(old(chans)[id], chunk) else old(chans)[id]
    {
      ghost var s := View();
      ghost var u;
      steps, u := Take(s, [], s, StartBroadcast(chunk));
      steps := SendToAll(chunk, s, steps);
      steps, u := Take(s, steps, State(chans, subscribers, {}, Sending(chunk, {}), log), EndBroadcast);
      log := log + [chunk];
      RunKeepsInv(s, steps);
    }

    /** What follows the cancellation of a subscriber's context: delete under the lock, then close. */
    method Unsubscribe(id: Id) returns (ghost steps: seq<Step>)
      requires Valid() && id in subscribers
      modifies this
      ensures Valid() && Leads(old(View()), steps, View())
      ensures subscribers == old(subscribers) - {id} && log == old(log)
      ensures chans == old(chans)[id := old(chans)[id].(closed := true)]
    {
      ghost var s := View();
      ghost var u;
      steps, u := Take(s, [], s, Delete(id));
      subscribers := subscribers - {id};
      steps, u := Take(s, steps, u, Close(id));
      chans := chans[id := chans[id].(closed := true)];
      RunKeepsInv(s, steps);
    }

    /** A receive by the subscriber; nothing comes out of an empty queue. */
    method Receive(id: Id) returns (chunk: seq<Chunk>, ghost steps: seq<Step>)
      requires Valid() && id in chans
      modifies this
      ensures Valid() && Leads(old(View()), steps, View())
      ensures subscribers == old(subscribers) && log == old(log)
      ensures chunk == (if old(chans)[id].queue == [] then [] else [old(chans)[id].queue[0]])
      ensures id in chans && chunk + chans[id].queue == old(chans)[id].queue &&
              chans[id].received == old(chans)[id].received + chunk
      ensures forall other | other in old(chans) && other != id :: other in chans && chans[other] == old(chans)[other]
    {
      steps := [];
      if chans[id].queue == [] {
        return [], steps;
      }
      ghost var s := View();
      ghost var u;
      chunk := [chans[id].queue[0]];
      steps, u := Take(s, [], s, Recv(id));
      chans := chans[id := chans[id].(queue := chans[id].queue[1..], received := chans[id].received + chunk)];
      RunKeepsInv(s, steps);
    }
  }
}
