/**
 The code that drives the protocol of Persist: the repository calls on the two rows, the ticker's body,
 executeAndPersist's main line, and SendMessage.  Every method that takes protocol steps returns them,
 and is proved to be a run of the protocol that leaves the rows as the protocol says.
 */
module MessageService {
  import opened Wrappers
  import opened Aggregator
  import opened Persist
  import opened History
  import opened StreamAggregator

  /** Each row also counts the writes to it that returned an error. */
  class ConversationRow {
    var status: ConversationStatus
    ghost var failed: nat

    constructor (status: ConversationStatus)
      ensures this.status == status && failed == 0
    {
      this.status, failed := status, 0;
    }
  }

  class MessageRow {
    var data: Data
    var status: MessageStatus
    ghost var failed: nat

    constructor (data: Data, status: MessageStatus)
      ensures this.data == data && this.status == status && failed == 0
    {
      this.data, this.status, failed := data, status, 0;
    }
  }

  // ----- Repository calls; any of them may fail, and then changes nothing -----

  method UpdateConversationStatus(conv: ConversationRow, status: ConversationStatus) returns (ok: bool)
    modifies conv
    ensures conv.status == if ok then status else old(conv.status)
    ensures conv.failed == old(conv.failed) + if ok then 0 else 1
  {
    ok := *;
    if ok {
      conv.status := status;
    }
    conv.failed := conv.failed + if ok then 0 else 1;
  }

  method UpdateMessageStatus(row: MessageRow, status: MessageStatus) returns (ok: bool)
    modifies row`status, row`failed
    ensures row.status == if ok then status else old(row.status)
    ensures row.failed == old(row.failed) + if ok then 0 else 1
  {
    ok := *;
    if ok {
      row.status := status;
    }
    row.failed := row.failed + if ok then 0 else 1;
  }

  method MarshalBlocks(blocks: seq<BlockMap>) returns (json: Json)
    ensures json == BlocksJson(BlocksView(blocks))
  {
    if |blocks| == 0 {
      assert BlocksView(blocks) == [];
      return JNull;
    }
    var marshalled := [];
    for i := 0 to |blocks|
      invariant marshalled == BlocksView(blocks)[..i]
    {
      marshalled := marshalled + [blocks[i].entries];
    }
    assert |BlocksView(blocks)| > 0;
    return JBlocks(marshalled);
  }

  method UpdateMessageContentBlocks(row: MessageRow, blocks: seq<BlockMap>) returns (ok: bool)
    modifies row`data, row`failed
    ensures row.failed == old(row.failed) + if ok then 0 else 1
    ensures row.data == if ok then old(row.data)[ContentBlocks := BlocksJson(old(BlocksView(blocks)))] else old(row.data)
  {
    ok := *;
    if ok {
      var json := MarshalBlocks(blocks);
      row.data := row.data[ContentBlocks := json];
    }
    row.failed := row.failed + if ok then 0 else 1;
  }

  /** `message_data || extra`: keys of the right operand win. */
  method MergeMessageData(row: MessageRow, extra: Data) returns (ok: bool)
    modifies row`data, row`failed
    ensures row.data == if ok then old(row.data) + extra else old(row.data)
    ensures row.failed == old(row.failed) + if ok then 0 else 1
  {
    ok := *;
    if ok {
      row.data := row.data + extra;
    }
    row.failed := row.failed + if ok then 0 else 1;
  }

  // ----- The worker and the ticker -----

  ghost predicate Aggregates(agg: Aggregate, a: Agg)
    reads agg, agg.toolCalls, agg.contentBlocks, if agg.Valid() then Cells(agg.Calls()) else {}
  {
    agg.Valid() && agg.State() == a
  }

  /** The heap shows what the protocol state says. */
  ghost predicate Shows(s: State, conv: ConversationRow, row: MessageRow, agg: Aggregate)
    reads conv, row, agg, agg.toolCalls, agg.contentBlocks, if agg.Valid() then Cells(agg.Calls()) else {}
  {
    && s.conversation == conv.status && s.data == row.data && s.status == row.status
    && Aggregates(agg, s.agg)
  }

  /** The steps lead from s0 to s. */
  ghost predicate Leads(s0: State, steps: seq<Step>, s: State) {
    IsRun(s0, steps) && After(s0, steps) == s
  }

  /** The longer run takes so many more snapshots, delivers no further event, returns no outcome, and adds no panic. */
  ghost predicate Extends(longer: seq<Step>, steps: seq<Step>, snapshots: nat) {
    && SnapshotsIn(longer) == SnapshotsIn(steps) + snapshots
    && EventsIn(longer) == EventsIn(steps) && Outcomes(longer) == Outcomes(steps) && (Panic in longer <==> Panic in steps)
  }

  lemma Take(s0: State, steps: seq<Step>, s: State, step: Step) returns (longer: seq<Step>, next: State)
    requires Leads(s0, steps, s) && Enabled(s, step)
    ensures longer == steps + [step]
    ensures Leads(s0, longer, next) && next == Apply(s, step)
    ensures EventsIn(longer) == EventsIn(steps) + if step.Handle? then [step.event] else []
    ensures Outcomes(longer) == Outcomes(steps) + if step.Return? then [step.outcome] else []
    ensures FailedIn(longer) == FailedIn(steps) + if Fails(step) then 1 else 0
    ensures SnapshotsIn(longer) == SnapshotsIn(steps) + if step.TakeSnapshot? then 1 else 0
    ensures !step.Handle? && !step.Return? && !step.Panic? ==> Extends(longer, steps, if step.TakeSnapshot? then 1 else 0)
  {
    longer := steps + [step];
    assert longer[..|steps|] == steps;
    next := RunOne(s0, steps, step);
  }

  /** What the ticker goroutine holds between two of its calls. */
  datatype Tick =
    | Idle
    | Taken(blocks: seq<BlockMap>, calls: array<ToolCallData>)
    | HalfStored(calls: array<ToolCallData>)

  function Phase(tick: Tick): nat {
    match tick
    case Idle => 0
    case Taken(_, _) => 1
    case HalfStored(_) => 2
  }

  ghost function HeldArrays(tick: Tick): set<array<ToolCallData>> {
    if tick.Idle? then {} else {tick.calls}
  }

  ghost function HeldBlocks(tick: Tick): seq<BlockMap> {
    if tick.Taken? then tick.blocks else []
  }

  ghost function HeldCalls(tick: Tick): seq<ToolCallData>
    reads HeldArrays(tick)
  {
    if tick.Idle? then [] else tick.calls[..]
  }

  /** The ticker's copies show what the protocol state says, and the aggregator does not write into them. */
  ghost predicate Holds(ticker: Ticker, tick: Tick, agg: Aggregate)
    reads agg`toolCalls, HeldArrays(tick), HeldBlocks(tick), Cells(HeldCalls(tick))
  {
    && agg.toolCalls !in HeldArrays(tick)
    && match tick
       case Idle => ticker.Waiting?
       case Taken(blocks, calls) => ticker == Snapped(BlocksView(blocks), CallsView(calls[..]))
       case HalfStored(calls) => ticker == BlocksTicked(CallsView(calls[..]))
  }

  /** The ticker goroutine's body, one call at a time: snapshot, blocks write, calls write. */
  method AdvanceTicker(conv: ConversationRow, row: MessageRow, agg: Aggregate, tick: Tick,
                       ghost s0: State, ghost before: seq<Step>, ghost s: State)
    returns (next: Tick, ghost steps: seq<Step>, ghost t: State)
    requires Leads(s0, before, s) && Shows(s, conv, row, agg) && Holds(s.ticker, tick, agg) && !s.worker.Starting?
    modifies row`data, row`failed
    ensures Leads(s0, steps, t) && Shows(t, conv, row, agg) && Holds(t.ticker, next, agg) && t.worker == s.worker
    ensures Phase(next) == (if tick.HalfStored? then 0 else Phase(tick) + 1)
    ensures tick.Idle? ==> BlocksView(HeldBlocks(next)) == s.agg.blocks && CallsView(HeldCalls(next)) == s.agg.calls
    ensures tick.Taken? && row.failed == old(row.failed) ==> StoredBlocks(row.data) == old(BlocksView(HeldBlocks(tick)))
    ensures tick.HalfStored? && row.failed == old(row.failed) ==> StoredCalls(row.data) == old(CallsView(HeldCalls(tick)))
    ensures Extends(steps, before, if tick.Idle? then 1 else 0)
    ensures FailedIn(steps) - FailedIn(before) == row.failed - old(row.failed)
  {
    match tick {
      case Idle =>
        next, steps, t := TickSnapshot(agg, s0, before, s);
      case Taken(blocks, calls) =>
        next := HalfStored(calls);
        steps, t := TickContentBlocks(conv, row, agg, blocks, s0, before, s);
      case HalfStored(calls) =>
        next := Idle;
        steps, t := TickToolCalls(conv, row, agg, calls, s0, before, s);
    }
  }

  method TickSnapshot(agg: Aggregate, ghost s0: State, ghost before: seq<Step>, ghost s: State)
    returns (next: Tick, ghost steps: seq<Step>, ghost t: State)
    requires Leads(s0, before, s) && Aggregates(agg, s.agg) && !s.worker.Starting? && s.ticker.Waiting?
    ensures Leads(s0, steps, t) && t == s.(ticker := t.ticker) && Holds(t.ticker, next, agg) && next.Taken?
    ensures BlocksView(HeldBlocks(next)) == s.agg.blocks && CallsView(HeldCalls(next)) == s.agg.calls
    ensures Extends(steps, before, 1) && FailedIn(steps) == FailedIn(before)
  {
    var blocks, calls := agg.Snapshot();
    steps, t := Take(s0, before, s, TakeSnapshot);
    next := Taken(blocks, calls);
  }

  method TickContentBlocks(conv: ConversationRow, row: MessageRow, agg: Aggregate, blocks: seq<BlockMap>,
                           ghost s0: State, ghost before: seq<Step>, ghost s: State)
    returns (ghost steps: seq<Step>, ghost t: State)
    requires Leads(s0, before, s) && Shows(s, conv, row, agg)
    requires s.ticker.Snapped? && s.ticker.blocks == BlocksView(blocks)
    modifies row`data, row`failed
    ensures Leads(s0, steps, t) && Shows(t, conv, row, agg)
    ensures t.ticker == BlocksTicked(s.ticker.calls) && t.worker == s.worker && Extends(steps, before, 0)
    ensures row.failed == old(row.failed) ==> StoredBlocks(row.data) == old(BlocksView(blocks))
    ensures FailedIn(steps) - FailedIn(before) == row.failed - old(row.failed)
  {
    var ok := UpdateMessageContentBlocks(row, blocks);
    steps, t := Take(s0, before, s, TickBlocks(ok));
  }

  method TickToolCalls(conv: ConversationRow, row: MessageRow, agg: Aggregate, calls: array<ToolCallData>,
                       ghost s0: State, ghost before: seq<Step>, ghost s: State)
    returns (ghost steps: seq<Step>, ghost t: State)
    requires Leads(s0, before, s) && Shows(s, conv, row, agg)
    requires s.ticker == BlocksTicked(CallsView(calls[..]))
    modifies row`data, row`failed
    ensures Leads(s0, steps, t) && Shows(t, conv, row, agg)
    ensures t.ticker.Waiting? && t.worker == s.worker && Extends(steps, before, 0)
    ensures row.failed == old(row.failed) ==> StoredCalls(row.data) == old(CallsView(calls[..]))
    ensures FailedIn(steps) - FailedIn(before) == row.failed - old(row.failed)
  {
    var marshalled := MarshalCalls(calls, calls.Length);
    assert calls[..calls.Length] == calls[..];
    var ok := MergeMessageData(row, map[ToolCalls := if |marshalled| == 0 then JNull else JCalls(marshalled)]);
    assert marshalled == s.ticker.calls;
    assert s.data + map[ToolCalls := CallsJson(marshalled)] == s.data[ToolCalls := CallsJson(marshalled)];
    steps, t := Take(s0, before, s, TickCalls(ok));
  }

  /** What happens while the agent runs: an event arrives, or the ticker makes its next call. */
  datatype Action = Deliver(event: Event) | Advance

  function Delivered(script: seq<Action>): seq<Event> {
    if script == [] then []
    else
      var last := script[|script| - 1];
      Delivered(script[..|script| - 1]) + if last.Deliver? then [last.event] else []
  }

  function Advances(script: seq<Action>): nat {
    if script == [] then 0 else Advances(script[..|script| - 1]) + if script[|script| - 1].Advance? then 1 else 0
  }

  /** The ticker cycles through its three calls; the first of them is a snapshot. */
  function PhaseAfter(advances: nat): (phase: nat)
    ensures phase < 3
  {
    if advances == 0 || PhaseAfter(advances - 1) == 2 then 0 else PhaseAfter(advances - 1) + 1
  }

  function Snapshots(advances: nat): nat {
    if advances == 0 then 0 else Snapshots(advances - 1) + if PhaseAfter(advances - 1) == 0 then 1 else 0
  }

  lemma {:induction false} EveryThird(advances: nat)
    ensures PhaseAfter(advances) == advances % 3 && Snapshots(advances) == (advances + 2) / 3
  {
    if advances > 0 {
      EveryThird(advances - 1);
    }
  }

  /** The ticker after so many calls, and the run that far. */
  ghost predicate Ticked(s: State, tick: Tick, agg: Aggregate, before: seq<Step>, steps: seq<Step>, from: nat, to: nat)
    reads agg`toolCalls, HeldArrays(tick), HeldBlocks(tick), Cells(HeldCalls(tick))
  {
    && Holds(s.ticker, tick, agg) && Phase(tick) == PhaseAfter(to)
    && SnapshotsIn(steps) - SnapshotsIn(before) == Snapshots(to) - Snapshots(from)
  }

  /** The provider's callback, while the ticker holds its copies. */
  method HandleEvent(conv: ConversationRow, row: MessageRow, agg: Aggregate, tick: Tick, event: Event,
                     ghost s0: State, ghost before: seq<Step>, ghost s: State)
    returns (ghost steps: seq<Step>, ghost t: State)
    requires Leads(s0, before, s) && Shows(s, conv, row, agg) && Holds(s.ticker, tick, agg) && s.worker.Executing?
    modifies agg, agg.toolCalls
    ensures Leads(s0, steps, t) && Shows(t, conv, row, agg) && Holds(t.ticker, tick, agg) && t.worker.Executing?
    ensures agg.toolCalls == old(agg.toolCalls) || fresh(agg.toolCalls)
    ensures EventsIn(steps) == EventsIn(before) + [event] && Outcomes(steps) == Outcomes(before)
    ensures (Panic in steps <==> Panic in before) && SnapshotsIn(steps) == SnapshotsIn(before)
    ensures FailedIn(steps) == FailedIn(before)
  {
    agg.Handle(event);
    steps, t := Take(s0, before, s, Persist.Handle(event));
  }

  lemma NextAction(script: seq<Action>, i: nat)
    requires i < |script|
    ensures Delivered(script[..i + 1]) == Delivered(script[..i]) + if script[i].Deliver? then [script[i].event] else []
    ensures var n := Advances(script[..i]);
            Advances(script[..i + 1]) == (if script[i].Advance? then n + 1 else n) &&
            PhaseAfter(n + 1) == (if PhaseAfter(n) == 2 then 0 else PhaseAfter(n) + 1) &&
            Snapshots(n + 1) == Snapshots(n) + if PhaseAfter(n) == 0 then 1 else 0
  {
    assert script[..i + 1][..i] == script[..i];
  }

  method Act(conv: ConversationRow, row: MessageRow, agg: Aggregate, held: Tick, action: Action,
             ghost s0: State, ghost before: seq<Step>, ghost s: State)
    returns (tick: Tick, ghost steps: seq<Step>, ghost t: State)
    requires Leads(s0, before, s) && Shows(s, conv, row, agg) && Holds(s.ticker, held, agg) && s.worker.Executing?
    modifies row`data, row`failed, agg, agg.toolCalls
    ensures Leads(s0, steps, t) && Shows(t, conv, row, agg) && Holds(t.ticker, tick, agg) && t.worker.Executing?
    ensures agg.toolCalls == old(agg.toolCalls) || fresh(agg.toolCalls)
    ensures EventsIn(steps) == EventsIn(before) + if action.Deliver? then [action.event] else []
    ensures Outcomes(steps) == Outcomes(before) && (Panic in steps <==> Panic in before)
    ensures Phase(tick) == if action.Deliver? then Phase(held) else if held.HalfStored? then 0 else Phase(held) + 1
    ensures SnapshotsIn(steps) == SnapshotsIn(before) + if action.Advance? && held.Idle? then 1 else 0
    ensures FailedIn(steps) - FailedIn(before) == row.failed - old(row.failed)
  {
    tick := held;
    match action {
      case Deliver(event) =>
        steps, t := HandleEvent(conv, row, agg, held, event, s0, before, s);
      case Advance =>
        tick, steps, t := AdvanceTicker(conv, row, agg, held, s0, before, s);
    }
  }

  method Stream(conv: ConversationRow, row: MessageRow, agg: Aggregate, script: seq<Action>,
                ghost s0: State, ghost before: seq<Step>, ghost s: State)
    returns (tick: Tick, ghost steps: seq<Step>, ghost t: State)
    requires Leads(s0, before, s) && Shows(s, conv, row, agg) && s.worker.Executing? && s.ticker.Waiting?
    requires EventsIn(before) == [] && Panic !in before
    modifies row`data, row`failed, agg, agg.toolCalls
    ensures Leads(s0, steps, t) && Shows(t, conv, row, agg) && t.worker.Executing?
    ensures Ticked(t, tick, agg, before, steps, 0, Advances(script))
    ensures EventsIn(steps) == Delivered(script) && Panic !in steps && Outcomes(steps) == Outcomes(before)
    ensures FailedIn(steps) - FailedIn(before) == row.failed - old(row.failed)
  {
    tick, steps, t := Idle, before, s;
    for i := 0 to |script|
      invariant Leads(s0, steps, t) && Shows(t, conv, row, agg) && t.worker.Executing?
      invariant agg.toolCalls == old(agg.toolCalls) || fresh(agg.toolCalls)
      invariant Ticked(t, tick, agg, before, steps, 0, Advances(script[..i]))
      invariant EventsIn(steps) == Delivered(script[..i]) && Panic !in steps && Outcomes(steps) == Outcomes(before)
      invariant FailedIn(steps) - FailedIn(before) == row.failed - old(row.failed)
    {
      NextAction(script, i);
      tick, steps, t := Act(conv, row, agg, tick, script[i], s0, steps, t);
    }
    assert script[..|script|] == script;
  }

  /** The ticker goes on for n calls while the worker does nothing it can see. */
  method RunTicker(conv: ConversationRow, row: MessageRow, agg: Aggregate, held: Tick, n: nat, ghost done: nat,
                   ghost s0: State, ghost before: seq<Step>, ghost s: State)
    returns (tick: Tick, ghost steps: seq<Step>, ghost t: State)
    requires Leads(s0, before, s) && Shows(s, conv, row, agg) && !s.worker.Starting?
    requires Holds(s.ticker, held, agg) && Phase(held) == PhaseAfter(done)
    modifies row`data, row`failed
    ensures Leads(s0, steps, t) && Shows(t, conv, row, agg) && t.worker == s.worker
    ensures Ticked(t, tick, agg, before, steps, done, done + n)
    ensures EventsIn(steps) == EventsIn(before) && Outcomes(steps) == Outcomes(before)
    ensures Panic in steps <==> Panic in before
    ensures FailedIn(steps) - FailedIn(before) == row.failed - old(row.failed)
  {
    tick, steps, t := held, before, s;
    for i := 0 to n
      invariant Leads(s0, steps, t) && Shows(t, conv, row, agg) && t.worker == s.worker
      invariant Ticked(t, tick, agg, before, steps, done, done + i)
      invariant EventsIn(steps) == EventsIn(before) && Outcomes(steps) == Outcomes(before)
      invariant Panic in steps <==> Panic in before
      invariant FailedIn(steps) - FailedIn(before) == row.failed - old(row.failed)
    {
      tick, steps, t := AdvanceTicker(conv, row, agg, tick, s0, steps, t);
    }
  }

  /** The final writes, from the moment the ticker has exited. */
  method SaveTurn(conv: ConversationRow, row: MessageRow, agg: Aggregate, outcome: Outcome,
                  ghost s0: State, ghost before: seq<Step>, ghost s: State)
    returns (ghost steps: seq<Step>, ghost t: State)
    requires Leads(s0, before, s) && Shows(s, conv, row, agg)
    requires s.worker == Joining(outcome) && s.ticker.Exited?
    modifies row
    ensures Leads(s0, steps, t) && Shows(t, conv, row, agg)
    ensures t.worker.Closing? && Extends(steps, before, 0)
    ensures FailedIn(steps) - FailedIn(before) == row.failed - old(row.failed)
  {
    steps, t := Take(s0, before, s, Join);
    match outcome {
      case ExecuteFailed =>
        var ok := UpdateMessageStatus(row, Error);
        steps, t := Take(s0, steps, t, WriteError(ok));
      case Succeeded(newSessionId) =>
        steps, t := SaveSuccess(conv, row, agg, newSessionId, s0, steps, t);
    }
  }

  method SaveSuccess(conv: ConversationRow, row: MessageRow, agg: Aggregate, newSessionId: string,
                     ghost s0: State, ghost before: seq<Step>, ghost s: State)
    returns (ghost steps: seq<Step>, ghost t: State)
    requires Leads(s0, before, s) && Shows(s, conv, row, agg) && s.worker == SavingBlocks(newSessionId)
    modifies row
    ensures Leads(s0, steps, t) && Shows(t, conv, row, agg)
    ensures t.worker.Closing? && Extends(steps, before, 0)
    ensures FailedIn(steps) - FailedIn(before) == row.failed - old(row.failed)
  {
    var finalBlocks, extra, text := agg.Finalize(newSessionId);
    steps, t := SaveData(conv, row, agg, newSessionId, finalBlocks, extra, s0, before, s);
    steps, t := SaveStatus(conv, row, agg, text, s0, steps, t);
  }

  method SaveData(conv: ConversationRow, row: MessageRow, agg: Aggregate, newSessionId: string,
                  finalBlocks: seq<BlockMap>, extra: Data, ghost s0: State, ghost before: seq<Step>, ghost s: State)
    returns (ghost steps: seq<Step>, ghost t: State)
    requires Leads(s0, before, s) && Shows(s, conv, row, agg) && s.worker == SavingBlocks(newSessionId)
    requires BlocksView(finalBlocks) == agg.State().blocks && extra == FinalExtra(agg.State(), newSessionId)
    modifies row`data, row`failed
    ensures Leads(s0, steps, t) && Shows(t, conv, row, agg)
    ensures t.worker.SavingStatus? && Extends(steps, before, 0)
    ensures FailedIn(steps) - FailedIn(before) == row.failed - old(row.failed)
  {
    var ok := UpdateMessageContentBlocks(row, finalBlocks);
    steps, t := Take(s0, before, s, WriteBlocks(ok));
    ok := MergeMessageData(row, extra);
    steps, t := Take(s0, steps, t, WriteExtra(ok));
  }

  method SaveStatus(conv: ConversationRow, row: MessageRow, agg: Aggregate, text: string,
                    ghost s0: State, ghost before: seq<Step>, ghost s: State)
    returns (ghost steps: seq<Step>, ghost t: State)
    requires Leads(s0, before, s) && Shows(s, conv, row, agg) && s.worker.SavingStatus? && text == s.agg.text
    modifies row`status, row`failed
    ensures Leads(s0, steps, t) && Shows(t, conv, row, agg)
    ensures t.worker.Closing? && Extends(steps, before, 0)
    ensures FailedIn(steps) - FailedIn(before) == row.failed - old(row.failed)
  {
    var ok := UpdateMessageStatus(row, Completed);
    steps, t := Take(s0, before, s, WriteStatus(ok));
    steps, t := TitleAndTouch(text, s0, steps, t);
  }

  /** The two writes to the conversation row that leave its status alone. */
  ghost method TitleAndTouch(text: string, s0: State, before: seq<Step>, s: State) returns (steps: seq<Step>, t: State)
    requires Leads(s0, before, s) && s.worker.SavingTitle? && text == s.agg.text
    ensures Leads(s0, steps, t) && t == s.(worker := Closing) && Extends(steps, before, 0) &&
            FailedIn(steps) == FailedIn(before)
  {
    steps, t := before, s;
    if text != "" {
      steps, t := Take(s0, steps, t, WriteTitle);
    }
    steps, t := Take(s0, steps, t, WriteUpdatedAt);
  }

  /** The agent has returned: the ticker makes `late` further calls, finishes what it has begun and exits;
      then the final writes. */
  method EndTurn(conv: ConversationRow, row: MessageRow, agg: Aggregate, held: Tick, outcome: Outcome, late: nat,
                 ghost done: nat, ghost s0: State, ghost before: seq<Step>, ghost s: State)
    returns (ghost steps: seq<Step>, ghost t: State)
    requires Leads(s0, before, s) && Shows(s, conv, row, agg) && s.worker.Executing?
    requires Holds(s.ticker, held, agg) && Phase(held) == PhaseAfter(done) && Panic !in before && Outcomes(before) == []
    modifies row
    ensures Leads(s0, steps, t) && Shows(t, conv, row, agg) && t.worker.Closing?
    ensures EventsIn(steps) == EventsIn(before) && Outcomes(steps) == [outcome] && Panic !in steps
    ensures SnapshotsIn(steps) - SnapshotsIn(before) == Snapshots(done + late) - Snapshots(done)
    ensures FailedIn(steps) - FailedIn(before) == row.failed - old(row.failed)
  {
    steps, t := Take(s0, before, s, Return(outcome));
    steps, t := DrainTicker(conv, row, agg, held, late, done, s0, steps, t);
    steps, t := SaveTurn(conv, row, agg, outcome, s0, steps, t);
  }

  lemma ToIdle(advances: nat)
    ensures var left := if PhaseAfter(advances) == 0 then 0 else 3 - PhaseAfter(advances);
            PhaseAfter(advances + left) == 0 && Snapshots(advances + left) == Snapshots(advances)
  {
  }

  method DrainTicker(conv: ConversationRow, row: MessageRow, agg: Aggregate, held: Tick, late: nat,
                     ghost done: nat, ghost s0: State, ghost before: seq<Step>, ghost s: State)
    returns (ghost steps: seq<Step>, ghost t: State)
    requires Leads(s0, before, s) && Shows(s, conv, row, agg) && s.worker.Joining?
    requires Holds(s.ticker, held, agg) && Phase(held) == PhaseAfter(done) && Panic !in before
    modifies row`data, row`failed
    ensures Leads(s0, steps, t) && Shows(t, conv, row, agg) && t.worker == s.worker && t.ticker.Exited?
    ensures EventsIn(steps) == EventsIn(before) && Outcomes(steps) == Outcomes(before) && Panic !in steps
    ensures SnapshotsIn(steps) - SnapshotsIn(before) == Snapshots(done + late) - Snapshots(done)
    ensures FailedIn(steps) - FailedIn(before) == row.failed - old(row.failed)
  {
    var tick;
    tick, steps, t := RunTicker(conv, row, agg, held, late, done, s0, before, s);
    var left := if tick.Idle? then 0 else 3 - Phase(tick);
    ToIdle(done + late);
    tick, steps, t := RunTicker(conv, row, agg, tick, left, done + late, s0, steps, t);
    steps, t := Take(s0, steps, t, ExitTicker);
  }

  /** How the agent run ends, and how often the ticker still makes a call: before the final writes; or, as
      nothing stops it after a panic, before and after the conversation is marked as completed. */
  datatype Ending = Returned(outcome: Outcome, late: nat) | Panicked(late: nat, after: nat)

  function Lingering(ending: Ending): nat {
    if ending.Returned? then ending.late else ending.late + ending.after
  }

  /** executeAndPersist, with events and the ticker's calls interleaved as `script` says, and the agent ending
      as `ending` says: a finished run of the protocol over exactly the delivered events, with a panic or
      the one outcome, and every third call of the ticker a snapshot, in which as many writes failed as
      returned an error.  If none did and the agent returned, the conversation is completed, and the message
      is completed with exactly the data of a run without ticks, or marked as an error. */
  method ExecuteAndPersist(conv: ConversationRow, row: MessageRow, script: seq<Action>, ending: Ending)
    returns (ghost steps: seq<Step>, ghost t: State)
    requires row.data == map[] && row.status == Streaming
    modifies conv, row
    ensures Leads(Start(old(conv.status)), steps, t) && t.worker.Finished?
    ensures t.conversation == conv.status && t.data == row.data && t.status == row.status
    ensures EventsIn(steps) == Delivered(script) && (Panic in steps <==> ending.Panicked?)
    ensures Outcomes(steps) == if ending.Returned? then [ending.outcome] else []
    ensures SnapshotsIn(steps) == Snapshots(Advances(script) + Lingering(ending))
    ensures FailedIn(steps) == conv.failed - old(conv.failed) + row.failed - old(row.failed)
    ensures conv.failed == old(conv.failed) && row.failed == old(row.failed) && ending.Returned? ==>
              Complete(t, Delivered(script), ending.outcome)
  {
    ghost var s0 := Start(conv.status);
    steps, t := OpenConversation(conv);
    var agg := new Aggregate();
    assert Aggregates(agg, EMPTY);
    steps, t := Execute(conv, row, agg, script, ending, s0, steps, t);
    if FailedIn(steps) == 0 && ending.Returned? {
      CleanTurn(old(conv.status), steps, ending.outcome);
    }
  }

  method OpenConversation(conv: ConversationRow) returns (ghost steps: seq<Step>, ghost t: State)
    modifies conv
    ensures Leads(Start(old(conv.status)), steps, t)
    ensures t == Start(old(conv.status)).(conversation := conv.status, worker := Executing)
    ensures EventsIn(steps) == [] && Outcomes(steps) == [] && Panic !in steps && SnapshotsIn(steps) == 0
    ensures FailedIn(steps) == conv.failed - old(conv.failed)
  {
    ghost var s0 := Start(conv.status);
    var ok := UpdateConversationStatus(conv, ConversationRunning);
    steps, t := Take(s0, [], s0, WriteRunning(ok));
  }

  method Execute(conv: ConversationRow, row: MessageRow, agg: Aggregate, script: seq<Action>, ending: Ending,
                 ghost s0: State, ghost before: seq<Step>, ghost s: State)
    returns (ghost steps: seq<Step>, ghost t: State)
    requires Leads(s0, before, s) && Shows(s, conv, row, agg) && s.worker.Executing? && s.ticker.Waiting?
    requires EventsIn(before) == [] && Panic !in before && Outcomes(before) == []
    modifies conv, row, agg, agg.toolCalls
    ensures Leads(s0, steps, t) && Shows(t, conv, row, agg) && t.worker.Finished?
    ensures EventsIn(steps) == Delivered(script) && (Panic in steps <==> ending.Panicked?)
    ensures Outcomes(steps) == if ending.Returned? then [ending.outcome] else []
    ensures SnapshotsIn(steps) == SnapshotsIn(before) + Snapshots(Advances(script) + Lingering(ending))
    ensures FailedIn(steps) - FailedIn(before) == conv.failed - old(conv.failed) + row.failed - old(row.failed)
  {
    var tick;
    tick, steps, t := Stream(conv, row, agg, script, s0, before, s);
    steps, t := Finish(conv, row, agg, tick, ending, Advances(script), s0, steps, t);
  }

  /** From the end of the agent run on. */
  method Finish(conv: ConversationRow, row: MessageRow, agg: Aggregate, held: Tick, ending: Ending,
                ghost done: nat, ghost s0: State, ghost before: seq<Step>, ghost s: State)
    returns (ghost steps: seq<Step>, ghost t: State)
    requires Leads(s0, before, s) && Shows(s, conv, row, agg) && s.worker.Executing?
    requires Holds(s.ticker, held, agg) && Phase(held) == PhaseAfter(done) && Panic !in before && Outcomes(before) == []
    modifies conv, row
    ensures Leads(s0, steps, t) && Shows(t, conv, row, agg) && t.worker.Finished?
    ensures EventsIn(steps) == EventsIn(before) && (Panic in steps <==> ending.Panicked?)
    ensures Outcomes(steps) == if ending.Returned? then [ending.outcome] else []
    ensures SnapshotsIn(steps) - SnapshotsIn(before) == Snapshots(done + Lingering(ending)) - Snapshots(done)
    ensures FailedIn(steps) - FailedIn(before) == conv.failed - old(conv.failed) + row.failed - old(row.failed)
  {
    match ending {
      case Returned(outcome, late) =>
        steps, t := EndTurn(conv, row, agg, held, outcome, late, done, s0, before, s);
        steps, t := CloseConversation(conv, row, agg, s0, steps, t);
      case Panicked(late, after) =>
        steps, t := Unwind(conv, row, agg, held, late, after, done, s0, before, s);
    }
  }

  /** The deferred write of the conversation's status. */
  method CloseConversation(conv: ConversationRow, row: MessageRow, agg: Aggregate,
                           ghost s0: State, ghost before: seq<Step>, ghost s: State)
    returns (ghost steps: seq<Step>, ghost t: State)
    requires Leads(s0, before, s) && Shows(s, conv, row, agg) && s.worker.Closing?
    modifies conv
    ensures Leads(s0, steps, t) && Shows(t, conv, row, agg) && t.worker.Finished? && t.ticker == s.ticker
    ensures EventsIn(steps) == EventsIn(before) && Outcomes(steps) == Outcomes(before)
    ensures (Panic in steps <==> Panic in before) && SnapshotsIn(steps) == SnapshotsIn(before)
    ensures FailedIn(steps) - FailedIn(before) == conv.failed - old(conv.failed)
  {
    var ok := UpdateConversationStatus(conv, ConversationCompleted);
    steps, t := Take(s0, before, s, WriteCompleted(ok));
  }

  /** A panic while the agent runs: the deferred calls run, and the ticker is never told to stop. */
  method Unwind(conv: ConversationRow, row: MessageRow, agg: Aggregate, held: Tick, late: nat, after: nat,
                ghost done: nat, ghost s0: State, ghost before: seq<Step>, ghost s: State)
    returns (ghost steps: seq<Step>, ghost t: State)
    requires Leads(s0, before, s) && Shows(s, conv, row, agg) && s.worker.Executing?
    requires Holds(s.ticker, held, agg) && Phase(held) == PhaseAfter(done)
    modifies conv, row`data, row`failed
    ensures Leads(s0, steps, t) && Shows(t, conv, row, agg) && t.worker.Finished?
    ensures EventsIn(steps) == EventsIn(before) && Outcomes(steps) == Outcomes(before) && Panic in steps
    ensures SnapshotsIn(steps) - SnapshotsIn(before) == Snapshots(done + late + after) - Snapshots(done)
    ensures FailedIn(steps) - FailedIn(before) == conv.failed - old(conv.failed) + row.failed - old(row.failed)
  {
    steps, t := Take(s0, before, s, Panic);
    var tick;
    tick, steps, t := RunTicker(conv, row, agg, held, late, done, s0, steps, t);
    steps, t := CloseAndTick(conv, row, agg, tick, after, done + late, s0, steps, t);
  }

  method CloseAndTick(conv: ConversationRow, row: MessageRow, agg: Aggregate, held: Tick, after: nat,
                      ghost done: nat, ghost s0: State, ghost before: seq<Step>, ghost s: State)
    returns (ghost steps: seq<Step>, ghost t: State)
    requires Leads(s0, before, s) && Shows(s, conv, row, agg) && s.worker.Closing?
    requires Holds(s.ticker, held, agg) && Phase(held) == PhaseAfter(done)
    modifies conv, row`data, row`failed
    ensures Leads(s0, steps, t) && Shows(t, conv, row, agg) && t.worker.Finished?
    ensures EventsIn(steps) == EventsIn(before) && Outcomes(steps) == Outcomes(before) && (Panic in steps <==> Panic in before)
    ensures SnapshotsIn(steps) - SnapshotsIn(before) == Snapshots(done + after) - Snapshots(done)
    ensures FailedIn(steps) - FailedIn(before) == conv.failed - old(conv.failed) + row.failed - old(row.failed)
  {
    steps, t := CloseConversation(conv, row, agg, s0, before, s);
    var tick;
    tick, steps, t := RunTicker(conv, row, agg, held, after, done, s0, steps, t);
  }

  // ----- SendMessage -----

  datatype Reply =
    | BadRequest
    | Unauthorized
    | NotFound
    | InternalError
    | Accepted(sessionId: string, history: seq<HistoryEntry>, assistantIndex: nat)

  /** The rows of one conversation, oldest first, when the conversation exists; and the calls that returned
      an error although they need not have. */
  class Conversation {
    var present: bool
    var rows: seq<Message>
    ghost var failed: nat

    constructor (isPresent: bool, rows: seq<Message>)
      ensures present == isPresent && this.rows == rows && failed == 0
    {
      present, this.rows, failed := isPresent, rows, 0;
    }

    method GetConversation() returns (found: bool)
      modifies this`failed
      ensures found ==> present
      ensures failed == old(failed) + if present && !found then 1 else 0
    {
      var ok := *;
      found := ok && present;
      failed := failed + if present && !found then 1 else 0;
    }

    method ListMessages() returns (result: Option<seq<Message>>)
      modifies this`failed
      ensures result.Some? ==> result.value == rows
      ensures failed == old(failed) + if result.Some? then 0 else 1
    {
      var ok := *;
      result := if ok then Some(rows) else None;
      failed := failed + if ok then 0 else 1;
    }

    method CreateMessage(role: Role, data: Data, status: MessageStatus) returns (ok: bool)
      modifies this`rows, this`failed
      ensures rows == old(rows) + if ok then [Message(role, data, status)] else []
      ensures failed == old(failed) + if ok then 0 else 1
    {
      ok := *;
      if ok {
        rows := rows + [Message(role, data, status)];
      } else {
        assert rows + [] == rows;
      }
      failed := failed + if ok then 0 else 1;
    }
  }

  /** The request is built from the rows as they were before this turn's own rows were inserted; a failed
      insert of the assistant row leaves the prompt's row behind.  The request is accepted whenever it is well
      formed and authorized, the conversation exists, and no call fails. */
  method SendMessage(c: Conversation, content: string, authorized: bool) returns (reply: Reply)
    modifies c`rows, c`failed
    ensures content == "" <==> reply == BadRequest
    ensures content != "" && !authorized <==> reply == Unauthorized
    ensures reply == NotFound ==> !c.present || c.failed > old(c.failed)
    ensures content != "" && authorized && !c.present ==> reply == NotFound
    ensures reply == InternalError ==> c.failed > old(c.failed)
    ensures reply.BadRequest? || reply.Unauthorized? || reply.NotFound? ==> c.rows == old(c.rows)
    ensures reply.InternalError? ==> c.rows == old(c.rows) || c.rows == old(c.rows) + [PromptRow(content)]
    ensures reply.Accepted? ==>
              && c.rows == old(c.rows) + [PromptRow(content), Message(AssistantRole, map[], Streaming)]
              && reply.assistantIndex == |c.rows| - 1
              && reply.sessionId == LastSessionId(old(c.rows))
              && reply.history == Entries(old(c.rows))
  {
    if content == "" {
      return BadRequest;
    }
    if !authorized {
      return Unauthorized;
    }
    var found := c.GetConversation();
    if !found {
      return NotFound;
    }
    var listed := c.ListMessages();
    if listed.None? {
      return InternalError;
    }
    var ok := c.CreateMessage(UserRole, map[Content := JString(content)], Completed);
    if !ok {
      return InternalError;
    }
    var sessionId := FindResumeSessionId(listed.value);
    var history := BuildConversationHistory(listed.value);
    ok := c.CreateMessage(AssistantRole, map[], Streaming);
    if !ok {
      return InternalError;
    }
    return Accepted(sessionId, history, |c.rows| - 1);
  }
}
