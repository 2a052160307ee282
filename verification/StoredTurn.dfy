/**
 What the message row holds after any steps of a turn, whichever writes failed and whenever the ticker fired,
 told from the steps alone: every value is traced back to the events that had been delivered when it was read
 off the aggregator.
 */
module StoredTurn {
  import opened Wrappers
  import opened Aggregator
  import opened Persist
  import opened StreamMeaning
  import opened History

  /** The events that had been delivered when the last snapshot was taken. */
  function AtSnapshot(steps: seq<Step>): seq<Event> {
    if steps == [] then []
    else if steps[|steps| - 1].TakeSnapshot? then EventsIn(steps[..|steps| - 1])
    else AtSnapshot(steps[..|steps| - 1])
  }

  /** The events behind the blocks that were written last. */
  function BlocksFrom(steps: seq<Step>): Option<seq<Event>> {
    if steps == [] then None
    else
      var front, last := steps[..|steps| - 1], steps[|steps| - 1];
      if last == TickBlocks(true) then Some(AtSnapshot(front))
      else if last == WriteBlocks(true) then Some(EventsIn(front))
      else BlocksFrom(front)
  }

  /** The events behind the tool calls that were written last; the final payload leaves out an empty list. */
  function CallsFrom(steps: seq<Step>): Option<seq<Event>> {
    if steps == [] then None
    else
      var front, last := steps[..|steps| - 1], steps[|steps| - 1];
      if last == TickCalls(true) then Some(AtSnapshot(front))
      else if last == WriteExtra(true) && StartsIn(Notices(EventsIn(front))) != [] then Some(EventsIn(front))
      else CallsFrom(front)
  }

  ghost predicate SnapshotHeld(ticker: Ticker, events: seq<Event>) {
    && (ticker.Snapped? ==> ticker.blocks == ShownIn(events))
    && (ticker.Snapped? || ticker.BlocksTicked? ==> SnapshotCalls(ticker) == AddAll(EMPTY, events).calls)
  }

  ghost predicate BlocksHeld(data: Data, from: Option<seq<Event>>) {
    if from.None? then ContentBlocks !in data
    else
      var blocks := ShownIn(from.value);
      ContentBlocks in data && data[ContentBlocks] == if blocks == [] then JNull else JBlocks(blocks)
  }

  ghost predicate CallsHeld(data: Data, from: Option<seq<Event>>) {
    if from.None? then ToolCalls !in data
    else
      var calls := AddAll(EMPTY, from.value).calls;
      ToolCalls in data && data[ToolCalls] == if calls == [] then JNull else JCalls(calls)
  }

  ghost predicate SameRest(data: Data, extra: Data) {
    forall key | key != ContentBlocks && key != ToolCalls ::
      (key in data <==> key in extra) && (key in data ==> data[key] == extra[key])
  }

  /** Apart from blocks and tool calls the row holds the final payload of all the events, or nothing. */
  ghost predicate RestHeld(data: Data, steps: seq<Step>) {
    if WriteExtra(true) in steps then
      && |Outcomes(steps)| == 1 && Outcomes(steps)[0].Succeeded?
      && var extra := FinalExtra(AddAll(EMPTY, EventsIn(steps)), Outcomes(steps)[0].sessionId);
         SameRest(data, extra)
    else data.Keys <= {ContentBlocks, ToolCalls}
  }

  ghost predicate RowHeld(data: Data, steps: seq<Step>) {
    BlocksHeld(data, BlocksFrom(steps)) && CallsHeld(data, CallsFrom(steps)) && RestHeld(data, steps)
  }

  /** What a step does to the row's data and to the ticker's snapshot. */
  ghost predicate Effect(s: State, step: Step, t: State) {
    && (step == TickBlocks(true) ==> s.ticker.Snapped? && t.data == s.data[ContentBlocks := BlocksJson(s.ticker.blocks)])
    && (step == WriteBlocks(true) ==> t.data == s.data[ContentBlocks := BlocksJson(s.agg.blocks)])
    && (step == TickCalls(true) ==> s.ticker.BlocksTicked? && t.data == s.data[ToolCalls := CallsJson(s.ticker.calls)])
    && (step == WriteExtra(true) ==> s.worker.SavingExtra? && t.data == s.data + FinalExtra(s.agg, s.worker.sessionId))
    && (step !in {TickBlocks(true), WriteBlocks(true), TickCalls(true), WriteExtra(true)} ==> t.data == s.data)
    && (step.TakeSnapshot? ==> t.ticker == Snapped(s.agg.blocks, s.agg.calls))
    && (step.TickBlocks? ==> s.ticker.Snapped? && t.ticker == BlocksTicked(s.ticker.calls))
    && (!step.TakeSnapshot? && !step.TickBlocks? ==> t.ticker == s.ticker || t.ticker.Waiting? || t.ticker.Exited?)
    && (step.Handle? || step.Return? ==> Early(s.worker) && !s.worker.SavingExtra?)
  }

  lemma StepEffect(s: State, step: Step)
    requires Enabled(s, step)
    ensures Effect(s, step, Apply(s, step))
  {
  }

  lemma StepKeepsSnapshot(s: State, steps: seq<Step>, step: Step, t: State)
    requires Effect(s, step, t) && s.agg == AddAll(EMPTY, EventsIn(steps)) && SnapshotHeld(s.ticker, AtSnapshot(steps))
    ensures SnapshotHeld(t.ticker, AtSnapshot(steps + [step]))
  {
    assert (steps + [step])[..|steps|] == steps;
    BlocksMeaning(EventsIn(steps));
  }

  lemma StepKeepsBlocks(s: State, steps: seq<Step>, step: Step, t: State)
    requires Effect(s, step, t) && s.agg.blocks == ShownIn(EventsIn(steps))
    requires SnapshotHeld(s.ticker, AtSnapshot(steps)) && BlocksHeld(s.data, BlocksFrom(steps))
    ensures BlocksHeld(t.data, BlocksFrom(steps + [step]))
  {
    assert (steps + [step])[..|steps|] == steps;
  }

  lemma SomeCall(events: seq<Event>)
    ensures StartsIn(Notices(events)) != [] <==> AddAll(EMPTY, events).calls != []
  {
    CallsMeaning(events);
  }

  lemma StepKeepsCalls(s: State, steps: seq<Step>, step: Step, t: State)
    requires Effect(s, step, t) && s.agg == AddAll(EMPTY, EventsIn(steps))
    requires SnapshotHeld(s.ticker, AtSnapshot(steps)) && CallsHeld(s.data, CallsFrom(steps))
    ensures CallsHeld(t.data, CallsFrom(steps + [step]))
  {
    assert (steps + [step])[..|steps|] == steps;
    SomeCall(EventsIn(steps));
  }

  lemma StepKeepsRest(s: State, steps: seq<Step>, step: Step, t: State)
    requires Effect(s, step, t) && s.agg == AddAll(EMPTY, EventsIn(steps)) && Ordered(s) && Located(s, steps)
    requires RestHeld(s.data, steps)
    ensures RestHeld(t.data, steps + [step])
  {
    var next := steps + [step];
    assert next[..|next| - 1] == steps;
    assert !step.Return? ==> Outcomes(next) == Outcomes(steps);
    assert !step.Handle? ==> EventsIn(next) == EventsIn(steps);
  }

  /** The row after any steps of any run. */
  lemma {:induction false} RowExactly(c: ConversationStatus, steps: seq<Step>)
    requires IsRun(Start(c), steps)
    ensures SnapshotHeld(After(Start(c), steps).ticker, AtSnapshot(steps))
    ensures RowHeld(After(Start(c), steps).data, steps)
  {
    if steps != [] {
      var front, last := steps[..|steps| - 1], steps[|steps| - 1];
      RowExactly(c, front);
      RunKeepsOrder(c, front);
      RunKeepsRecord(c, front);
      var s := After(Start(c), front);
      StepEffect(s, last);
      StepKeepsSnapshot(s, front, last, Apply(s, last));
      BlocksMeaning(EventsIn(front));
      StepKeepsBlocks(s, front, last, Apply(s, last));
      StepKeepsCalls(s, front, last, Apply(s, last));
      StepKeepsRest(s, front, last, Apply(s, last));
      assert front + [last] == steps;
    }
  }

  // ----- What one tick is good for -----

  /** The ticker took a snapshot at i and none since. */
  ghost predicate SnapshotAt(steps: seq<Step>, i: nat, j: nat) {
    i < j <= |steps| && steps[i].TakeSnapshot? && forall k | i < k < j :: !steps[k].TakeSnapshot?
  }

  lemma {:induction false} SnapshotReads(steps: seq<Step>, i: nat, j: nat)
    requires SnapshotAt(steps, i, j)
    ensures AtSnapshot(steps[..j]) == EventsIn(steps[..i])
    decreases j
  {
    assert steps[..j][..j - 1] == steps[..j - 1];
    if i < j - 1 {
      SnapshotReads(steps, i, j - 1);
    }
  }

  lemma LastTick(steps: seq<Step>, i: nat, j: nat)
    requires SnapshotAt(steps, i, j) && j < |steps|
    ensures steps[j] == TickBlocks(true) ==> BlocksFrom(steps[..j + 1]) == Some(EventsIn(steps[..i]))
    ensures steps[j] == TickCalls(true) ==> CallsFrom(steps[..j + 1]) == Some(EventsIn(steps[..i]))
  {
    assert steps[..j + 1][..j] == steps[..j];
    SnapshotReads(steps, i, j);
  }

  lemma BlocksAre(c: ConversationStatus, steps: seq<Step>)
    requires IsRun(Start(c), steps)
    ensures StoredBlocks(After(Start(c), steps).data) ==
            if BlocksFrom(steps).Some? then ShownIn(BlocksFrom(steps).value) else []
  {
    RowExactly(c, steps);
  }

  lemma CallsAre(c: ConversationStatus, steps: seq<Step>)
    requires IsRun(Start(c), steps)
    ensures StoredCalls(After(Start(c), steps).data) ==
            if CallsFrom(steps).Some? then AddAll(EMPTY, CallsFrom(steps).value).calls else []
  {
    RowExactly(c, steps);
  }

  /** A snapshot taken after the first i steps whose blocks or calls were written at j: the row then holds what
      just the events delivered by i add up to. */
  lemma TickStores(c: ConversationStatus, steps: seq<Step>, i: nat, j: nat)
    requires SnapshotAt(steps, i, j) && j < |steps| && IsRun(Start(c), steps[..j + 1])
    ensures var data := After(Start(c), steps[..j + 1]).data;
            && (steps[j] == TickBlocks(true) ==> StoredBlocks(data) == ShownIn(EventsIn(steps[..i])))
            && (steps[j] == TickCalls(true) ==> StoredCalls(data) == AddAll(EMPTY, EventsIn(steps[..i])).calls)
  {
    LastTick(steps, i, j);
    BlocksAre(c, steps[..j + 1]);
    CallsAre(c, steps[..j + 1]);
  }

  /** And pollers see at least as much ever after. */
  lemma TickIsSeen(c: ConversationStatus, steps: seq<Step>, i: nat, j: nat)
    requires IsRun(Start(c), steps) && SnapshotAt(steps, i, j) && j < |steps|
    ensures var data := After(Start(c), steps).data;
            && (steps[j] == TickBlocks(true) ==> ShownIn(EventsIn(steps[..i])) <= StoredBlocks(data))
            && (steps[j] == TickCalls(true) ==> CallsGrow(AddAll(EMPTY, EventsIn(steps[..i])).calls, StoredCalls(data)))
  {
    StoredGrowsTo(c, steps, j + 1);
    TickStores(c, steps, i, j);
  }

  /** The fallback history of any turn is exactly the text that had been streamed when the blocks written last
      were read. */
  lemma EntryIsTextWritten(t: Turn)
    requires IsTurn(t)
    ensures EntryText(TurnRow(t)) ==
            if BlocksFrom(t.steps).Some? then StreamedText(BlocksFrom(t.steps).value) else ""
  {
    BlocksAre(t.before, t.steps);
    if BlocksFrom(t.steps).Some? {
      BlocksMeaning(BlocksFrom(t.steps).value);
      BlocksCarryStreamedText(BlocksFrom(t.steps).value);
    }
  }

  /** Once the final merge succeeded, the row's other values are those of the stream. */
  lemma StoredPayload(c: ConversationStatus, steps: seq<Step>)
    requires IsRun(Start(c), steps) && WriteExtra(true) in steps
    ensures exists sessionId, extra ::
              && Outcomes(steps) == [Succeeded(sessionId)]
              && PayloadOf(EventsIn(steps), sessionId, extra, AddAll(EMPTY, EventsIn(steps)))
              && SameRest(After(Start(c), steps).data, extra)
  {
    RowExactly(c, steps);
    var sessionId := Outcomes(steps)[0].sessionId;
    PayloadMeaning(EventsIn(steps), sessionId);
    assert Outcomes(steps) == [Succeeded(sessionId)];
    assert SameRest(After(Start(c), steps).data, FinalExtra(AddAll(EMPTY, EventsIn(steps)), sessionId));
  }
}
