/**
 The protocol that persists one assistant turn.  Three parties share one message row and one
 conversation row: the worker that runs the agent and writes the final state, the ticker that merges
 snapshots while the agent streams, and pollers that read both rows.  A step is one repository call or
 one action on the shared aggregator; the parties interleave freely.
 */
module Persist {
  import opened Wrappers
  import opened Aggregator

  datatype Json =
    | JNull
    | JString(text: string)
    | JStrings(texts: seq<string>)
    | JReal(number: real)
    | JInt(count: int)
    | JBlocks(blocks: seq<Block>)
    | JCalls(calls: seq<Call>)
    | JHooks(hooks: seq<Hook>)

  /** The keys the server writes into a row's message_data. */
  datatype Key =
    | SessionId | Content | ContentBlocks | ToolCalls
    | ThinkingText | Model | CostUSD | DurationMs | HookEvents

  type Data = map<Key, Json>

  /** A nil slice is marshalled as null; the aggregator's slices are nil exactly when empty. */
  function BlocksJson(blocks: seq<Block>): Json {
    if blocks == [] then JNull else JBlocks(blocks)
  }

  function CallsJson(calls: seq<Call>): Json {
    if calls == [] then JNull else JCalls(calls)
  }

  /** What Finalize puts under one key of the merge payload, if anything. */
  function FinalValue(a: Agg, sessionId: string, key: Key): Option<Json> {
    match key
    case SessionId => Some(JString(sessionId))
    case Content => if a.text != "" then Some(JString(a.text)) else None
    case ThinkingText =>
      if a.thinkingBlocks != [] then Some(JStrings(a.thinkingBlocks))
      else if a.thinking != "" then Some(JStrings([a.thinking]))
      else None
    case Model => if a.model != "" then Some(JString(a.model)) else None
    case CostUSD => if a.costUSD > 0.0 then Some(JReal(a.costUSD)) else None
    case DurationMs => if a.durationMs > 0 then Some(JInt(a.durationMs)) else None
    case HookEvents => if a.hooks != [] then Some(JHooks(a.hooks)) else None
    case ToolCalls => if a.calls != [] then Some(JCalls(a.calls)) else None
    case ContentBlocks => None
  }

  const KEYS: set<Key> := {SessionId, Content, ContentBlocks, ToolCalls, ThinkingText, Model, CostUSD, DurationMs, HookEvents}

  function FinalExtra(a: Agg, sessionId: string): (extra: Data)
    ensures forall key :: key in extra <==> FinalValue(a, sessionId, key).Some?
    ensures forall key | key in extra :: extra[key] == FinalValue(a, sessionId, key).value
  {
    AllKeys();
    map key | key in KEYS && FinalValue(a, sessionId, key).Some? :: FinalValue(a, sessionId, key).value
  }

  lemma AllKeys()
    ensures forall key: Key :: key in KEYS
  {
    forall key: Key ensures key in KEYS {
      match key
      case SessionId =>
      case _ =>
    }
  }

  /** The row's data after a run in which the ticker never fired. */
  function QuietData(events: seq<Event>, sessionId: string): Data {
    FinalData(AddAll(EMPTY, events), sessionId)
  }

  function FinalData(a: Agg, sessionId: string): Data {
    FinalExtra(a, sessionId)[ContentBlocks := BlocksJson(a.blocks)]
  }

  datatype ConversationStatus = ConversationIdle | ConversationRunning | ConversationCompleted

  datatype MessageStatus = Streaming | Completed | Error

  datatype Outcome = Succeeded(sessionId: string) | ExecuteFailed

  datatype Worker =
    | Starting
    | Executing
    | Joining(outcome: Outcome)
    | SavingError
    | SavingBlocks(sessionId: string)
    | SavingExtra(sessionId: string)
    | SavingStatus
    | SavingTitle
    | SavingUpdatedAt
    | Closing
    | Finished

  datatype Ticker =
    | Waiting
    | Snapped(blocks: seq<Block>, calls: seq<Call>)
    | BlocksTicked(calls: seq<Call>)
    | Exited

  datatype State = State(
    conversation: ConversationStatus,
    data: Data,
    status: MessageStatus,
    agg: Agg,
    worker: Worker,
    ticker: Ticker)

  datatype Step =
    | WriteRunning(ok: bool)
    | Handle(event: Event)
    | Return(outcome: Outcome)
    | Panic
    | TakeSnapshot
    | TickBlocks(ok: bool)
    | TickCalls(ok: bool)
    | ExitTicker
    | Join
    | WriteError(ok: bool)
    | WriteBlocks(ok: bool)
    | WriteExtra(ok: bool)
    | WriteStatus(ok: bool)
    | WriteTitle
    | WriteUpdatedAt
    | WriteCompleted(ok: bool)

  /** The row CreateStreamingMessage inserts; the conversation may carry any status of an earlier turn. */
  function Start(conversation: ConversationStatus): State {
    State(conversation, map[], Streaming, EMPTY, Starting, Waiting)
  }

  predicate Enabled(s: State, step: Step) {
    match step
    case WriteRunning(_) => s.worker.Starting?
    case Handle(_) => s.worker.Executing?
    case Return(_) => s.worker.Executing?
    case Panic => !s.worker.Starting? && !s.worker.Closing? && !s.worker.Finished?
    case TakeSnapshot => !s.worker.Starting? && s.ticker.Waiting?
    case TickBlocks(_) => s.ticker.Snapped?
    case TickCalls(_) => s.ticker.BlocksTicked?
    case ExitTicker => s.worker.Joining? && s.ticker.Waiting?
    case Join => s.worker.Joining? && s.ticker.Exited?
    case WriteError(_) => s.worker.SavingError?
    case WriteBlocks(_) => s.worker.SavingBlocks?
    case WriteExtra(_) => s.worker.SavingExtra?
    case WriteStatus(_) => s.worker.SavingStatus?
    case WriteTitle => s.worker.SavingTitle? && s.agg.text != ""
    case WriteUpdatedAt => s.worker.SavingUpdatedAt? || (s.worker.SavingTitle? && s.agg.text == "")
    case WriteCompleted(_) => s.worker.Closing?
  }

  function Apply(s: State, step: Step): State
    requires Enabled(s, step)
  {
    match step
    case WriteRunning(ok) =>
      s.(conversation := if ok then ConversationRunning else s.conversation, worker := Executing)
    case Handle(event) => s.(agg := Add(s.agg, event))
    case Return(outcome) => s.(worker := Joining(outcome))
    case Panic => s.(worker := Closing)
    case TakeSnapshot => s.(ticker := Snapped(s.agg.blocks, s.agg.calls))
    case TickBlocks(ok) =>
      s.(data := if ok then s.data[ContentBlocks := BlocksJson(s.ticker.blocks)] else s.data,
         ticker := BlocksTicked(s.ticker.calls))
    case TickCalls(ok) =>
      s.(data := if ok then s.data[ToolCalls := CallsJson(s.ticker.calls)] else s.data, ticker := Waiting)
    case ExitTicker => s.(ticker := Exited)
    case Join =>
      s.(worker := match s.worker.outcome
                   case Succeeded(sessionId) => SavingBlocks(sessionId)
                   case ExecuteFailed => SavingError)
    case WriteError(ok) => s.(status := if ok then Error else s.status, worker := Closing)
    case WriteBlocks(ok) =>
      s.(data := if ok then s.data[ContentBlocks := BlocksJson(s.agg.blocks)] else s.data,
         worker := SavingExtra(s.worker.sessionId))
    case WriteExtra(ok) =>
      s.(data := if ok then s.data + FinalExtra(s.agg, s.worker.sessionId) else s.data, worker := SavingStatus)
    case WriteStatus(ok) => s.(status := if ok then Completed else s.status, worker := SavingTitle)
    case WriteTitle => s.(worker := SavingUpdatedAt)
    case WriteUpdatedAt => s.(worker := Closing)
    case WriteCompleted(ok) =>
      s.(conversation := if ok then ConversationCompleted else s.conversation, worker := Finished)
  }

  /** The steps can be taken in this order from s. */
  ghost predicate IsRun(s: State, steps: seq<Step>)
    decreases |steps|, 0
  {
    steps == [] ||
    (IsRun(s, steps[..|steps| - 1]) && Enabled(After(s, steps[..|steps| - 1]), steps[|steps| - 1]))
  }

  ghost function After(s: State, steps: seq<Step>): State
    requires IsRun(s, steps)
    decreases |steps|, 1
  {
    if steps == [] then s else Apply(After(s, steps[..|steps| - 1]), steps[|steps| - 1])
  }

  lemma {:induction false} RunPrefix(s: State, steps: seq<Step>, k: nat)
    requires IsRun(s, steps) && k <= |steps|
    ensures IsRun(s, steps[..k])
    ensures k < |steps| ==>
              Enabled(After(s, steps[..k]), steps[k]) &&
              IsRun(s, steps[..k + 1]) && After(s, steps[..k + 1]) == Apply(After(s, steps[..k]), steps[k])
  {
    if k == |steps| {
      assert steps[..k] == steps;
    } else {
      var front := steps[..|steps| - 1];
      RunPrefix(s, front, k);
      assert front[..k] == steps[..k];
      if k == |steps| - 1 {
        assert steps[..k + 1] == steps;
      } else {
        assert front[..k + 1] == steps[..k + 1];
      }
    }
  }

  function EventsIn(steps: seq<Step>): seq<Event> {
    if steps == [] then []
    else
      var last := steps[|steps| - 1];
      EventsIn(steps[..|steps| - 1]) + if last.Handle? then [last.event] else []
  }

  function Outcomes(steps: seq<Step>): seq<Outcome> {
    if steps == [] then []
    else
      var last := steps[|steps| - 1];
      Outcomes(steps[..|steps| - 1]) + if last.Return? then [last.outcome] else []
  }

  function SnapshotsIn(steps: seq<Step>): nat {
    if steps == [] then 0
    else SnapshotsIn(steps[..|steps| - 1]) + if steps[|steps| - 1].TakeSnapshot? then 1 else 0
  }

  /** The write of the step returned an error. */
  predicate Fails(step: Step) {
    match step
    case WriteRunning(ok) => !ok
    case TickBlocks(ok) => !ok
    case TickCalls(ok) => !ok
    case WriteError(ok) => !ok
    case WriteBlocks(ok) => !ok
    case WriteExtra(ok) => !ok
    case WriteStatus(ok) => !ok
    case WriteCompleted(ok) => !ok
    case _ => false
  }

  function FailedIn(steps: seq<Step>): nat {
    if steps == [] then 0
    else FailedIn(steps[..|steps| - 1]) + if Fails(steps[|steps| - 1]) then 1 else 0
  }

  lemma {:induction false} NoneFailed(steps: seq<Step>)
    requires FailedIn(steps) == 0
    ensures forall step | step in steps :: !Fails(step)
  {
    if steps != [] {
      NoneFailed(steps[..|steps| - 1]);
    }
  }

  // ----- What the row holds -----

  function StoredBlocks(data: Data): seq<Block> {
    if ContentBlocks in data && data[ContentBlocks].JBlocks? then data[ContentBlocks].blocks else []
  }

  function StoredCalls(data: Data): seq<Call> {
    if ToolCalls in data && data[ToolCalls].JCalls? then data[ToolCalls].calls else []
  }

  function StoredContent(data: Data): string {
    if Content in data && data[Content].JString? then data[Content].text else ""
  }

  function SnapshotCalls(ticker: Ticker): seq<Call> {
    match ticker
    case Snapped(_, calls) => calls
    case BlocksTicked(calls) => calls
    case _ => []
  }

  /** The worker has not merged the final payload. */
  predicate Early(worker: Worker) {
    worker.Starting? || worker.Executing? || worker.Joining? || worker.SavingError? ||
    worker.SavingBlocks? || worker.SavingExtra?
  }

  /** The worker passed the point where it waits for the ticker. */
  predicate PastJoin(worker: Worker) {
    worker.SavingError? || worker.SavingBlocks? || worker.SavingExtra? || worker.SavingStatus? ||
    worker.SavingTitle? || worker.SavingUpdatedAt?
  }

  /** Row below snapshot below aggregator, and nothing but the ticker's two keys before the final merge. */
  ghost predicate Ordered(s: State) {
    && StoredBlocks(s.data) <= s.agg.blocks
    && CallsGrow(StoredCalls(s.data), s.agg.calls)
    && (s.ticker.Snapped? ==> StoredBlocks(s.data) <= s.ticker.blocks <= s.agg.blocks)
    && CallsGrow(SnapshotCalls(s.ticker), s.agg.calls)
    && (s.ticker.Snapped? || s.ticker.BlocksTicked? ==> CallsGrow(StoredCalls(s.data), s.ticker.calls))
    && (ToolCalls in s.data ==> s.data[ToolCalls] == CallsJson(StoredCalls(s.data)))
    && (Early(s.worker) ==> s.data.Keys <= {ContentBlocks, ToolCalls})
    && (PastJoin(s.worker) ==> s.ticker.Exited?)
  }

  lemma CallsGrowTransitive(a: seq<Call>, b: seq<Call>, c: seq<Call>)
    requires CallsGrow(a, b) && CallsGrow(b, c)
    ensures CallsGrow(a, c)
  {
    forall i | 0 <= i < |a| ensures CallGrows(a[i], c[i]) {
      assert CallGrows(a[i], b[i]) && CallGrows(b[i], c[i]);
    }
  }

  lemma MergeKeepsOrder(s: State, extra: Data)
    requires Ordered(s) && s.ticker.Exited?
    requires ContentBlocks !in extra
    requires ToolCalls in extra <==> s.agg.calls != []
    requires ToolCalls in extra ==> extra[ToolCalls] == JCalls(s.agg.calls)
    ensures Ordered(s.(data := s.data + extra, worker := SavingStatus))
    ensures StoredBlocks(s.data) == StoredBlocks(s.data + extra)
    ensures CallsGrow(StoredCalls(s.data), StoredCalls(s.data + extra))
  {
  }

  lemma StepKeepsOrder(s: State, step: Step)
    requires Ordered(s) && Enabled(s, step)
    ensures Ordered(Apply(s, step))
    ensures StoredBlocks(s.data) <= StoredBlocks(Apply(s, step).data)
    ensures CallsGrow(StoredCalls(s.data), StoredCalls(Apply(s, step).data))
  {
    match step
    case Handle(event) =>
      AddGrows(s.agg, event);
      CallsGrowTransitive(StoredCalls(s.data), s.agg.calls, Add(s.agg, event).calls);
      CallsGrowTransitive(SnapshotCalls(s.ticker), s.agg.calls, Add(s.agg, event).calls);
    case WriteExtra(ok) =>
      MergeKeepsOrder(s, FinalExtra(s.agg, s.worker.sessionId));
    case _ => OtherStepKeepsOrder(s, step);
  }

  lemma OtherStepKeepsOrder(s: State, step: Step)
    requires Ordered(s) && Enabled(s, step) && !step.Handle? && !step.WriteExtra?
    ensures Ordered(Apply(s, step))
    ensures StoredBlocks(s.data) <= StoredBlocks(Apply(s, step).data)
    ensures CallsGrow(StoredCalls(s.data), StoredCalls(Apply(s, step).data))
  {
  }

  lemma {:induction false} RunKeepsOrder(c: ConversationStatus, steps: seq<Step>)
    requires IsRun(Start(c), steps)
    ensures Ordered(After(Start(c), steps))
    ensures After(Start(c), steps).agg == AddAll(EMPTY, EventsIn(steps))
  {
    if steps != [] {
      var front, last := steps[..|steps| - 1], steps[|steps| - 1];
      RunKeepsOrder(c, front);
      StepKeepsOrder(After(Start(c), front), last);
      if last.Handle? {
        assert EventsIn(steps)[..|EventsIn(steps)| - 1] == EventsIn(front);
      } else {
        assert EventsIn(steps) == EventsIn(front);
      }
    }
  }

  lemma {:induction false} StoredGrowsTo(c: ConversationStatus, steps: seq<Step>, i: nat)
    requires IsRun(Start(c), steps) && i <= |steps|
    ensures IsRun(Start(c), steps[..i])
    ensures StoredBlocks(After(Start(c), steps[..i]).data) <= StoredBlocks(After(Start(c), steps).data)
    ensures CallsGrow(StoredCalls(After(Start(c), steps[..i]).data), StoredCalls(After(Start(c), steps).data))
  {
    if i == |steps| {
      assert steps[..i] == steps;
    } else {
      var front := steps[..|steps| - 1];
      StoredGrowsTo(c, front, i);
      assert front[..i] == steps[..i];
      RunKeepsOrder(c, front);
      var s := After(Start(c), front);
      StepKeepsOrder(s, steps[|steps| - 1]);
      CallsGrowTransitive(StoredCalls(After(Start(c), steps[..i]).data), StoredCalls(s.data),
                          StoredCalls(After(Start(c), steps).data));
    }
  }

  /** Pollers never see text or tool calls disappear: what is stored at an earlier point of any run, with
      any writes failing and even after a panic, is a prefix of what is stored later, and of the stream. */
  lemma {:induction false} StoredOnlyGrows(c: ConversationStatus, steps: seq<Step>, i: nat, j: nat)
    requires IsRun(Start(c), steps) && i <= j <= |steps|
    ensures IsRun(Start(c), steps[..i]) && IsRun(Start(c), steps[..j])
    ensures StoredBlocks(After(Start(c), steps[..i]).data) <= StoredBlocks(After(Start(c), steps[..j]).data)
              <= AddAll(EMPTY, EventsIn(steps[..j])).blocks
    ensures CallsGrow(StoredCalls(After(Start(c), steps[..i]).data), StoredCalls(After(Start(c), steps[..j]).data))
  {
    RunPrefix(Start(c), steps, j);
    assert steps[..j][..i] == steps[..i];
    StoredGrowsTo(c, steps[..j], i);
    RunKeepsOrder(c, steps[..j]);
  }

  // ----- Schedule independence -----

  /** How the row depends on the schedule: not at all, except for a null left by the ticker. */
  function TickerTrace(ticked: bool, a: Agg): Data {
    if ticked && a.calls == [] then map[ToolCalls := JNull] else map[]
  }

  /** Where the worker is, told from the steps alone. */
  ghost predicate Located(s: State, steps: seq<Step>) {
    && |Outcomes(steps)| <= 1
    && (s.worker.Starting? || s.worker.Executing? ==> Outcomes(steps) == [])
    && (s.worker.Joining? ==> Outcomes(steps) == [s.worker.outcome])
    && (s.worker.SavingError? ==> Outcomes(steps) == [ExecuteFailed])
    && (s.worker.SavingBlocks? || s.worker.SavingExtra? ==> Outcomes(steps) == [Succeeded(s.worker.sessionId)])
    && (Early(s.worker) ==> WriteExtra(true) !in steps)
    && (Early(s.worker) && !s.worker.SavingExtra? ==> WriteBlocks(true) !in steps)
    && (WriteBlocks(true) in steps || WriteExtra(true) in steps ==>
          s.ticker.Exited? && |Outcomes(steps)| == 1 && Outcomes(steps)[0].Succeeded?)
  }

  /** What the row holds, told from the steps and the aggregator. */
  ghost predicate Recorded(s: State, steps: seq<Step>)
    requires Located(s, steps)
  {
    && (Early(s.worker) ==> (ToolCalls in s.data <==> TickCalls(true) in steps))
    && (WriteBlocks(true) in steps ==>
          ContentBlocks in s.data && s.data[ContentBlocks] == BlocksJson(s.agg.blocks))
    && (WriteExtra(true) in steps && WriteBlocks(true) in steps ==>
          s.data == FinalData(s.agg, Outcomes(steps)[0].sessionId) + TickerTrace(TickCalls(true) in steps, s.agg))
    && (SessionId in s.data <==> WriteExtra(true) in steps)
    && (SessionId in s.data ==> s.data[SessionId] == JString(Outcomes(steps)[0].sessionId))
  }

  lemma FinalMerge(s: State, sessionId: string)
    requires Ordered(s) && s.worker.SavingExtra?
    requires ContentBlocks in s.data && s.data[ContentBlocks] == BlocksJson(s.agg.blocks)
    ensures s.data + FinalExtra(s.agg, sessionId) == FinalData(s.agg, sessionId) + TickerTrace(ToolCalls in s.data, s.agg)
  {
    if s.agg.calls == [] && ToolCalls in s.data {
      assert StoredCalls(s.data) == [];
    }
  }

  lemma StepKeepsLocation(s: State, steps: seq<Step>, step: Step)
    requires Ordered(s) && Enabled(s, step) && Located(s, steps)
    ensures Located(Apply(s, step), steps + [step])
  {
    var next := steps + [step];
    assert next[..|next| - 1] == steps;
    assert !step.Return? ==> Outcomes(next) == Outcomes(steps);
  }

  lemma StepKeepsRecord(s: State, steps: seq<Step>, step: Step)
    requires Ordered(s) && Enabled(s, step) && Located(s, steps) && Recorded(s, steps)
    requires Located(Apply(s, step), steps + [step])
    ensures Recorded(Apply(s, step), steps + [step])
  {
    var next := steps + [step];
    assert next[..|next| - 1] == steps;
    assert !step.Return? ==> Outcomes(next) == Outcomes(steps);
    if step.WriteExtra? && WriteBlocks(true) in steps {
      FinalMerge(s, s.worker.sessionId);
    }
  }

  lemma {:induction false} RunKeepsRecord(c: ConversationStatus, steps: seq<Step>)
    requires IsRun(Start(c), steps)
    ensures Located(After(Start(c), steps), steps) && Recorded(After(Start(c), steps), steps)
  {
    if steps != [] {
      var front, last := steps[..|steps| - 1], steps[|steps| - 1];
      RunKeepsRecord(c, front);
      RunKeepsOrder(c, front);
      StepKeepsLocation(After(Start(c), front), front, last);
      StepKeepsRecord(After(Start(c), front), front, last);
      assert front + [last] == steps;
    }
  }

  /** Whatever the ticker did, whichever of its writes failed, once both final writes have succeeded the
      row holds exactly what a run without ticks stores, except that `tool_calls` is null instead of
      absent when the agent made no tool call and some tick wrote its (empty) snapshot. */
  lemma {:induction false} ScheduleIndependence(c: ConversationStatus, steps: seq<Step>)
    requires IsRun(Start(c), steps)
    requires WriteBlocks(true) in steps && WriteExtra(true) in steps
    ensures exists sessionId ::
              Outcomes(steps) == [Succeeded(sessionId)] &&
              After(Start(c), steps).data ==
                QuietData(EventsIn(steps), sessionId)
                + TickerTrace(TickCalls(true) in steps, AddAll(EMPTY, EventsIn(steps)))
  {
    RunKeepsRecord(c, steps);
    RunKeepsOrder(c, steps);
    assert Outcomes(steps) == [Succeeded(Outcomes(steps)[0].sessionId)];
  }

  /** After any run the row carries a session id exactly when the final merge succeeded, and then it is
      the one the agent returned; so a failed run leaves none, whatever the ticker wrote. */
  lemma StoredSessionId(c: ConversationStatus, steps: seq<Step>)
    requires IsRun(Start(c), steps)
    ensures var data := After(Start(c), steps).data;
            && (SessionId in data <==> WriteExtra(true) in steps)
            && (SessionId in data ==>
                  exists sessionId :: Outcomes(steps) == [Succeeded(sessionId)] && data[SessionId] == JString(sessionId))
  {
    RunKeepsRecord(c, steps);
    if WriteExtra(true) in steps {
      assert Outcomes(steps) == [Succeeded(Outcomes(steps)[0].sessionId)];
    }
  }

  ghost predicate Merged(s: State, steps: seq<Step>) {
    var merged := WriteExtra(true) in steps || WriteExtra(false) in steps;
    && (s.worker.SavingStatus? || s.worker.SavingTitle? || s.worker.SavingUpdatedAt? ==>
          merged && |Outcomes(steps)| == 1 && Outcomes(steps)[0].Succeeded?)
    && (s.worker.Closing? || s.worker.Finished? ==>
          Panic in steps || (|Outcomes(steps)| == 1 && (Outcomes(steps)[0].Succeeded? <==> merged)))
    && (Early(s.worker) ==> !merged)
  }

  lemma StepKeepsMerged(s: State, steps: seq<Step>, step: Step)
    requires Located(s, steps) && Merged(s, steps) && Enabled(s, step)
    ensures Merged(Apply(s, step), steps + [step])
  {
    var next := steps + [step];
    assert next[..|next| - 1] == steps;
    assert !step.Return? ==> Outcomes(next) == Outcomes(steps);
  }

  /** A run that ended without a panic attempted the final merge exactly when the agent succeeded. */
  lemma {:induction false} RunKeepsMerged(c: ConversationStatus, steps: seq<Step>)
    requires IsRun(Start(c), steps)
    ensures Merged(After(Start(c), steps), steps)
  {
    if steps != [] {
      var front, last := steps[..|steps| - 1], steps[|steps| - 1];
      RunKeepsMerged(c, front);
      RunKeepsRecord(c, front);
      StepKeepsMerged(After(Start(c), front), front, last);
      assert front + [last] == steps;
    }
  }

  lemma FinalMergeExactly(c: ConversationStatus, steps: seq<Step>)
    requires IsRun(Start(c), steps) && After(Start(c), steps).worker.Finished?
    requires Panic !in steps && WriteExtra(false) !in steps
    ensures |Outcomes(steps)| == 1
    ensures WriteExtra(true) in steps <==> Outcomes(steps)[0].Succeeded?
  {
    RunKeepsMerged(c, steps);
  }

  /** The text rebuilt from the stored blocks, the stored `content`, and the text streamed by the agent
      are one and the same string. */
  lemma StoredTextRoundTrip(c: ConversationStatus, steps: seq<Step>)
    requires IsRun(Start(c), steps)
    requires WriteBlocks(true) in steps && WriteExtra(true) in steps
    ensures var data := After(Start(c), steps).data;
            TextOfAll(StoredBlocks(data)) == StoredContent(data) == StreamedText(EventsIn(steps))
  {
    RunKeepsRecord(c, steps);
    RunKeepsOrder(c, steps);
    BlocksCarryStreamedText(EventsIn(steps));
    var s := After(Start(c), steps);
    FinalDataText(s.agg, Outcomes(steps)[0].sessionId, TickCalls(true) in steps);
  }

  lemma FinalDataText(a: Agg, sessionId: string, ticked: bool)
    ensures var data := FinalData(a, sessionId) + TickerTrace(ticked, a);
            StoredBlocks(data) == a.blocks && StoredContent(data) == a.text
  {
    var data := FinalData(a, sessionId) + TickerTrace(ticked, a);
    assert Content in data <==> a.text != "";
    assert data[ContentBlocks] == BlocksJson(a.blocks);
  }

  // ----- A turn in which nothing fails -----

  predicate Tried(steps: seq<Step>, succeeded: Step, failed: Step) {
    succeeded in steps || failed in steps
  }

  ghost predicate Attempted(s: State, steps: seq<Step>) {
    var blocks := Tried(steps, WriteBlocks(true), WriteBlocks(false));
    var extra := Tried(steps, WriteExtra(true), WriteExtra(false));
    var status := Tried(steps, WriteStatus(true), WriteStatus(false));
    var error := Tried(steps, WriteError(true), WriteError(false));
    && (s.worker.SavingExtra? || s.worker.SavingStatus? || s.worker.SavingTitle? || s.worker.SavingUpdatedAt? ==> blocks)
    && (s.worker.SavingStatus? || s.worker.SavingTitle? || s.worker.SavingUpdatedAt? ==> extra)
    && (s.worker.SavingTitle? || s.worker.SavingUpdatedAt? ==> status)
    && (s.worker.Closing? || s.worker.Finished? ==> Panic in steps || error || (blocks && extra && status))
    && (s.worker.Finished? ==> Tried(steps, WriteCompleted(true), WriteCompleted(false)))
    && (error ==> Outcomes(steps) == [ExecuteFailed])
    && (blocks ==> |Outcomes(steps)| == 1 && Outcomes(steps)[0].Succeeded?)
  }

  lemma StepKeepsAttempted(s: State, steps: seq<Step>, step: Step)
    requires Located(s, steps) && Attempted(s, steps) && Enabled(s, step)
    ensures Attempted(Apply(s, step), steps + [step])
  {
    var next := steps + [step];
    assert next[..|next| - 1] == steps;
    assert !step.Return? ==> Outcomes(next) == Outcomes(steps);
  }

  lemma {:induction false} RunKeepsAttempted(c: ConversationStatus, steps: seq<Step>)
    requires IsRun(Start(c), steps)
    ensures Attempted(After(Start(c), steps), steps)
  {
    if steps != [] {
      var front, last := steps[..|steps| - 1], steps[|steps| - 1];
      RunKeepsAttempted(c, front);
      RunKeepsRecord(c, front);
      StepKeepsAttempted(After(Start(c), front), front, last);
      assert front + [last] == steps;
    }
  }

  /** What a finished turn leaves when no write failed and nothing panicked. */
  ghost predicate Complete(s: State, events: seq<Event>, outcome: Outcome) {
    && s.conversation == ConversationCompleted
    && match outcome
       case Succeeded(sessionId) =>
         && s.status == Completed
         && exists ticked: bool :: s.data == QuietData(events, sessionId) + TickerTrace(ticked, AddAll(EMPTY, events))
       case ExecuteFailed => s.status == Error && SessionId !in s.data
  }

  lemma CleanTurn(c: ConversationStatus, steps: seq<Step>, outcome: Outcome)
    requires IsRun(Start(c), steps) && After(Start(c), steps).worker.Finished? && Panic !in steps
    requires FailedIn(steps) == 0 && Outcomes(steps) == [outcome]
    ensures Complete(After(Start(c), steps), EventsIn(steps), outcome)
  {
    NoneFailed(steps);
    RunKeepsAttempted(c, steps);
    RunKeepsSequence(c, steps);
    StoredSessionId(c, steps);
    if outcome.Succeeded? {
      ScheduleIndependence(c, steps);
    }
  }

  // ----- What a poller can conclude -----

  ghost predicate Sequenced(s: State, steps: seq<Step>, c: ConversationStatus) {
    && s.conversation == (if WriteCompleted(true) in steps then ConversationCompleted
                          else if WriteRunning(true) in steps then ConversationRunning else c)
    && (WriteCompleted(true) in steps ==> s.worker.Finished?)
    && (s.worker.Starting? ==> WriteRunning(true) !in steps)
    && s.status == (if WriteStatus(true) in steps then Completed
                    else if WriteError(true) in steps then Error else Streaming)
    && (WriteError(true) in steps ==> (s.worker.Closing? || s.worker.Finished?) && WriteStatus(true) !in steps)
    && (WriteStatus(true) in steps ==> !Early(s.worker) && !s.worker.SavingStatus?)
    && (s.ticker.Exited? <==> ExitTicker in steps)
    && (s.worker.Starting? ==> s.ticker.Waiting?)
    && (PastJoin(s.worker) ==> s.ticker.Exited?)
    && ((s.worker.Closing? || s.worker.Finished?) && Panic !in steps ==> s.ticker.Exited?)
  }

  lemma StepKeepsSequence(s: State, steps: seq<Step>, c: ConversationStatus, step: Step)
    requires Sequenced(s, steps, c) && Enabled(s, step)
    ensures Sequenced(Apply(s, step), steps + [step], c)
  {
  }

  lemma {:induction false} RunKeepsSequence(c: ConversationStatus, steps: seq<Step>)
    requires IsRun(Start(c), steps)
    ensures Sequenced(After(Start(c), steps), steps, c)
  {
    if steps != [] {
      var front, last := steps[..|steps| - 1], steps[|steps| - 1];
      RunKeepsSequence(c, front);
      StepKeepsSequence(After(Start(c), front), front, c, last);
      assert front + [last] == steps;
    }
  }

  /** Nothing can change either row any more. */
  ghost predicate Frozen(s: State) {
    forall step :: !Enabled(s, step)
  }

  /** A poll reads the conversation after steps[..i] and the message row after steps[..j], i <= j.  If it
      comes after the "running" write took effect and reports "completed", then, provided the ticker was
      joined (which only a panic can prevent), what it shows of the message is final: no write can follow,
      and the status tells how the run ended. */
  lemma NoEarlyCompletion(c: ConversationStatus, steps: seq<Step>, i: nat, j: nat)
    requires IsRun(Start(c), steps) && i <= j <= |steps|
    requires IsRun(Start(c), steps[..i]) && IsRun(Start(c), steps[..j])
    requires WriteRunning(true) in steps[..i]
    requires After(Start(c), steps[..i]).conversation == ConversationCompleted
    ensures Panic !in steps[..i] ==> ExitTicker in steps[..i]
    ensures Frozen(After(Start(c), steps[..i])) <==> ExitTicker in steps[..i]
    ensures ExitTicker in steps[..i] ==>
              && j == |steps| && steps[..i] == steps
              && After(Start(c), steps[..j]) == After(Start(c), steps)
              && (WriteStatus(true) in steps ==> After(Start(c), steps).status == Completed)
              && (WriteError(true) in steps ==> After(Start(c), steps).status == Error)
  {
    RunKeepsSequence(c, steps[..i]);
    var s := After(Start(c), steps[..i]);
    assert s.worker.Finished?;
    if s.ticker.Exited? {
      RunPrefix(Start(c), steps, i);
      assert Frozen(s);
      assert i == |steps|;
    } else {
      assert s.ticker.Waiting? ==> Enabled(s, TakeSnapshot);
      assert s.ticker.Snapped? ==> Enabled(s, TickBlocks(true));
      assert s.ticker.BlocksTicked? ==> Enabled(s, TickCalls(true));
    }
  }

  /** The other polls: "completed" is shown while the worker is still busy exactly when it is left over
      from an earlier turn and the "running" write has not taken effect. */
  lemma StaleCompletionExactly(c: ConversationStatus, steps: seq<Step>)
    requires IsRun(Start(c), steps) && !After(Start(c), steps).worker.Finished?
    ensures After(Start(c), steps).conversation == ConversationCompleted
       <==> c == ConversationCompleted && WriteRunning(true) !in steps
  {
    RunKeepsSequence(c, steps);
  }

  /** The panic case is real: the ticker goes on writing after the conversation was marked completed. */
  lemma PanicLeavesRowChanging()
    ensures var early := [WriteRunning(true), Panic, WriteCompleted(true)];
            var late := early + [TakeSnapshot, TickBlocks(true)];
            && IsRun(Start(ConversationIdle), early) && IsRun(Start(ConversationIdle), late)
            && After(Start(ConversationIdle), early).conversation == ConversationCompleted
            && After(Start(ConversationIdle), early).data != After(Start(ConversationIdle), late).data
  {
    var s0 := Start(ConversationIdle);
    var s1 := RunOne(s0, [], WriteRunning(true));
    var s2 := RunOne(s0, [WriteRunning(true)], Panic);
    var s3 := RunOne(s0, [WriteRunning(true), Panic], WriteCompleted(true));
    var early := [WriteRunning(true), Panic, WriteCompleted(true)];
    var s4 := RunOne(s0, early, TakeSnapshot);
    var s5 := RunOne(s0, early + [TakeSnapshot], TickBlocks(true));
    assert early + [TakeSnapshot] + [TickBlocks(true)] == early + [TakeSnapshot, TickBlocks(true)];
    assert ContentBlocks in s5.data && ContentBlocks !in s3.data;
  }

  lemma RunOne(s: State, steps: seq<Step>, step: Step) returns (next: State)
    requires IsRun(s, steps) && Enabled(After(s, steps), step)
    ensures IsRun(s, steps + [step])
    ensures next == After(s, steps + [step]) == Apply(After(s, steps), step)
  {
    assert (steps + [step])[..|steps|] == steps;
    next := Apply(After(s, steps), step);
  }
}
