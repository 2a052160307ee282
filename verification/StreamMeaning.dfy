/**
 What the aggregate of a stream is, told from the events alone: which content blocks it holds, which tool
 calls with which results, and the values of the final payload.
 */
module StreamMeaning {
  import opened Wrappers
  import opened Aggregator
  import opened Persist

  // ----- Content blocks -----

  function MessageBlocks(event: Event): seq<InBlock> {
    if event.Assistant? && event.message.Some? then event.message.value else []
  }

  /** What the frontend is shown of a block: an empty one, or one of another kind, not at all. */
  function Shown(block: InBlock): seq<Block> {
    match block
    case Thinking(t) => if t == "" then [] else [map["type" := "thinking", "content" := t]]
    case Text(t) => if t == "" then [] else [map["type" := "text", "content" := t]]
    case ToolUse(id) => if id == "" then [] else [map["type" := "tool_use", "tool_use_id" := id]]
    case ToolResult(_, _) => []
    case OtherBlock => []
  }

  function ShownAll(blocks: seq<InBlock>): seq<Block> {
    if blocks == [] then [] else ShownAll(blocks[..|blocks| - 1]) + Shown(blocks[|blocks| - 1])
  }

  function ThinkingIn(blocks: seq<InBlock>): string {
    if blocks == [] then ""
    else
      var last := blocks[|blocks| - 1];
      ThinkingIn(blocks[..|blocks| - 1]) + if last.Thinking? then last.thinking else ""
  }

  /** What the frontend is shown of a stream: the blocks of its assistant messages, in order. */
  function ShownIn(events: seq<Event>): seq<Block> {
    if events == [] then []
    else ShownIn(events[..|events| - 1]) + ShownAll(MessageBlocks(events[|events| - 1]))
  }

  /** The thinking of the assistant messages, concatenated. */
  function ThoughtIn(events: seq<Event>): string {
    if events == [] then ""
    else ThoughtIn(events[..|events| - 1]) + ThinkingIn(MessageBlocks(events[|events| - 1]))
  }

  lemma {:induction false} MessageAdds(a: Agg, message: seq<InBlock>)
    ensures AddAssistantBlocks(a, message).blocks == a.blocks + ShownAll(message)
    ensures AddAssistantBlocks(a, message).thinking == a.thinking + ThinkingIn(message)
  {
    if message == [] {
      assert a.thinking + "" == a.thinking;
    } else {
      var front, last := message[..|message| - 1], message[|message| - 1];
      MessageAdds(a, front);
      BlockAdds(AddAssistantBlocks(a, front), last);
      var t := if last.Thinking? then last.thinking else "";
      assert a.thinking + (ThinkingIn(front) + t) == a.thinking + ThinkingIn(front) + t;
    }
  }

  lemma BlockAdds(a: Agg, block: InBlock)
    ensures AddAssistantBlock(a, block).blocks == a.blocks + Shown(block)
    ensures AddAssistantBlock(a, block).thinking == a.thinking + if block.Thinking? then block.thinking else ""
  {
    assert a.thinking + "" == a.thinking && a.blocks + [] == a.blocks;
  }

  lemma {:induction false} UserMessageAdds(a: Agg, message: seq<InBlock>)
    ensures AddUserBlocks(a, message) == a.(calls := AddUserBlocks(a, message).calls)
  {
    if message != [] {
      UserMessageAdds(a, message[..|message| - 1]);
    }
  }

  lemma {:induction false} MessageKeeps(a: Agg, message: seq<InBlock>)
    ensures var b := AddAssistantBlocks(a, message);
            b == a.(blocks := b.blocks, calls := b.calls, text := b.text, thinking := b.thinking)
  {
    if message != [] {
      MessageKeeps(a, message[..|message| - 1]);
    }
  }

  /** One block for every non-empty thinking, text or tool-use block of the assistant messages, in order; and
      their thinking, concatenated. */
  lemma {:induction false} BlocksMeaning(events: seq<Event>)
    ensures AddAll(EMPTY, events).blocks == ShownIn(events)
    ensures AddAll(EMPTY, events).thinking == ThoughtIn(events)
  {
    if events != [] {
      BlocksMeaning(events[..|events| - 1]);
      EventShows(AddAll(EMPTY, events[..|events| - 1]), events[|events| - 1]);
    }
  }

  lemma EventShows(a: Agg, event: Event)
    ensures Add(a, event).blocks == a.blocks + ShownAll(MessageBlocks(event))
    ensures Add(a, event).thinking == a.thinking + ThinkingIn(MessageBlocks(event))
  {
    assert a.blocks + [] == a.blocks && a.thinking + "" == a.thinking;
    if event.Assistant? && event.message.Some? {
      MessageAdds(a, event.message.value);
    } else if event.User? && event.message.Some? {
      UserMessageAdds(a, event.message.value);
    }
  }

  // ----- Tool calls -----

  /** What a stream says about tools, in order: starts, and results with the length they are cut to. */
  datatype Notice = ToolStart(id: string, name: string) | ToolEnd(id: string, content: ToolContent, limit: nat)

  function ResultsIn(message: seq<InBlock>, limit: nat): seq<Notice> {
    if message == [] then []
    else
      var last := message[|message| - 1];
      ResultsIn(message[..|message| - 1], limit) +
      if last.ToolResult? then [ToolEnd(last.toolUseId, last.content, limit)] else []
  }

  function NoticesOf(event: Event): seq<Notice> {
    match event
    case Assistant(Some(message)) => ResultsIn(message, 1000)
    case User(Some(message)) => ResultsIn(message, 2000)
    case Stream(BlockStart(_, kind, id, name)) => if kind == "tool_use" && name != "" then [ToolStart(id, name)] else []
    case _ => []
  }

  function Notices(events: seq<Event>): seq<Notice> {
    if events == [] then [] else Notices(events[..|events| - 1]) + NoticesOf(events[|events| - 1])
  }

  /** Where the tools start. */
  function StartsIn(log: seq<Notice>): (starts: seq<nat>)
    ensures forall k | 0 <= k < |starts| :: starts[k] < |log| && log[starts[k]].ToolStart?
  {
    if log == [] then []
    else StartsIn(log[..|log| - 1]) + if log[|log| - 1].ToolStart? then [|log| - 1] else []
  }

  /** A result's text: a plain string, or the first item if that is a text. */
  predicate Reads(content: ToolContent, text: string) {
    && (content.Plain? ==> text == content.text)
    && (content.Items? && |content.items| > 0 && content.items[0].TextItem? ==> text == content.items[0].text)
    && (content.Items? && (|content.items| == 0 || !content.items[0].TextItem?) ==> text == "")
    && (content.OtherContent? ==> text == "")
  }

  /** The text as it is, or its first `limit` characters and a mark that it was cut. */
  predicate CutTo(text: string, limit: nat, shown: string) {
    if |text| <= limit then shown == text
    else |shown| == limit + 14 && shown[..limit] == text[..limit] && shown[limit..] == "...[truncated]"
  }

  ghost predicate Displays(notice: Notice, shown: string) {
    notice.ToolEnd? && exists text :: Reads(notice.content, text) && CutTo(text, notice.limit, shown)
  }

  predicate EndsTool(log: seq<Notice>, i: int, id: string) {
    0 <= i < |log| && log[i].ToolEnd? && log[i].id == id
  }

  /** The result is the last one delivered for the id after position p; none if there was none. */
  ghost predicate LastResult(log: seq<Notice>, p: nat, id: string, result: Option<string>) {
    if result.None? then forall i | p < i < |log| :: !EndsTool(log, i, id)
    else exists i :: p < i && EndsTool(log, i, id) && Displays(log[i], result.value) &&
                     forall j | i < j < |log| :: !EndsTool(log, j, id)
  }

  /** The k-th call is the k-th tool started; it carries its last result if it is the first call with its id,
      and none if it is not. */
  ghost predicate CallMeans(log: seq<Notice>, calls: seq<Call>, k: nat)
    requires k < |calls| == |StartsIn(log)|
  {
    var p := StartsIn(log)[k];
    && calls[k].toolUseId == log[p].id && calls[k].toolName == log[p].name
    && if k == FirstWith(calls, k) then LastResult(log, p, calls[k].toolUseId, calls[k].result) else calls[k].result.None?
  }

  /** The position of the first call with the id of the k-th. */
  function FirstWith(calls: seq<Call>, k: nat): (i: nat)
    requires k < |calls|
    ensures i <= k && calls[i].toolUseId == calls[k].toolUseId
    ensures forall j | 0 <= j < i :: calls[j].toolUseId != calls[k].toolUseId
  {
    FirstCall(calls, calls[k].toolUseId)
  }

  ghost predicate CallsMean(log: seq<Notice>, calls: seq<Call>) {
    |calls| == |StartsIn(log)| && forall k | 0 <= k < |calls| :: CallMeans(log, calls, k)
  }

  lemma StartAdds(log: seq<Notice>, calls: seq<Call>, id: string, name: string)
    requires CallsMean(log, calls)
    ensures CallsMean(log + [ToolStart(id, name)], calls + [Call(id, name, "", None)])
  {
    var more, longer := log + [ToolStart(id, name)], calls + [Call(id, name, "", None)];
    assert more[..|more| - 1] == log;
    forall k | 0 <= k < |longer| ensures CallMeans(more, longer, k) {
      if k < |calls| {
        assert CallMeans(log, calls, k);
        SameIds(calls, longer, k);
        if k == FirstWith(calls, k) {
          ResultStays(log, ToolStart(id, name), StartsIn(log)[k], calls[k].toolUseId, calls[k].result);
        }
      }
    }
  }

  /** A notice that is not about the id. */
  lemma ResultStays(log: seq<Notice>, notice: Notice, p: nat, id: string, result: Option<string>)
    requires LastResult(log, p, id, result) && p < |log| && !(notice.ToolEnd? && notice.id == id)
    ensures LastResult(log + [notice], p, id, result)
  {
    var more := log + [notice];
    assert forall i :: EndsTool(more, i, id) <==> EndsTool(log, i, id);
    if result.Some? {
      var i :| p < i && EndsTool(log, i, id) && Displays(log[i], result.value) && forall j | i < j < |log| :: !EndsTool(log, j, id);
      assert more[i] == log[i] && EndsTool(more, i, id);
    }
  }

  lemma TruncateIsCut(text: string, limit: nat)
    ensures CutTo(text, limit, Truncate(text, limit))
  {
  }

  lemma EndAdds(log: seq<Notice>, a: Agg, id: string, content: ToolContent, limit: nat)
    requires CallsMean(log, a.calls)
    ensures CallsMean(log + [ToolEnd(id, content, limit)], Attach(a, id, content, limit).calls)
  {
    var notice := ToolEnd(id, content, limit);
    var more, calls, after := log + [notice], a.calls, Attach(a, id, content, limit).calls;
    assert more[..|more| - 1] == log;
    var f := FirstCall(calls, id);
    forall k | 0 <= k < |after| ensures CallMeans(more, after, k) {
      assert CallMeans(log, calls, k) && after[k].toolUseId == calls[k].toolUseId;
      SameIds(calls, after, k);
      var p := StartsIn(log)[k];
      if k == f {
        TruncateIsCut(ContentText(content), limit);
        assert Reads(content, ContentText(content)) && Displays(more[|log|], after[k].result.value);
        assert p < |log| && EndsTool(more, |log|, id);
      } else if k == FirstWith(calls, k) {
        ResultStays(log, notice, p, calls[k].toolUseId, calls[k].result);
      }
    }
  }

  lemma SameIds(calls: seq<Call>, after: seq<Call>, k: nat)
    requires k < |calls| <= |after| && forall i | 0 <= i < |calls| :: after[i].toolUseId == calls[i].toolUseId
    ensures FirstWith(after, k) == FirstWith(calls, k)
  {
  }

  lemma {:induction false} AssistantMessageNotices(log: seq<Notice>, a: Agg, message: seq<InBlock>)
    requires CallsMean(log, a.calls)
    ensures CallsMean(log + ResultsIn(message, 1000), AddAssistantBlocks(a, message).calls)
  {
    if message == [] {
      assert log + [] == log;
    } else {
      var front, last := message[..|message| - 1], message[|message| - 1];
      AssistantMessageNotices(log, a, front);
      var m := log + ResultsIn(front, 1000);
      if last.ToolResult? {
        EndAdds(m, AddAssistantBlocks(a, front), last.toolUseId, last.content, 1000);
        assert log + ResultsIn(message, 1000) == m + [ToolEnd(last.toolUseId, last.content, 1000)];
      } else {
        assert log + ResultsIn(message, 1000) == m;
      }
    }
  }

  lemma {:induction false} UserMessageNotices(log: seq<Notice>, a: Agg, message: seq<InBlock>)
    requires CallsMean(log, a.calls)
    ensures CallsMean(log + ResultsIn(message, 2000), AddUserBlocks(a, message).calls)
  {
    if message == [] {
      assert log + [] == log;
    } else {
      var front, last := message[..|message| - 1], message[|message| - 1];
      UserMessageNotices(log, a, front);
      var m := log + ResultsIn(front, 2000);
      if last.ToolResult? {
        EndAdds(m, AddUserBlocks(a, front), last.toolUseId, last.content, 2000);
        assert log + ResultsIn(message, 2000) == m + [ToolEnd(last.toolUseId, last.content, 2000)];
      } else {
        assert log + ResultsIn(message, 2000) == m;
      }
    }
  }

  /** Inputs aside, calls that agree mean the same. */
  lemma InputsDoNotMatter(log: seq<Notice>, calls: seq<Call>, after: seq<Call>)
    requires CallsMean(log, calls) && |after| == |calls|
    requires forall i | 0 <= i < |calls| :: after[i] == calls[i].(inputJson := after[i].inputJson)
    ensures CallsMean(log, after)
  {
    forall k | 0 <= k < |after| ensures CallMeans(log, after, k) {
      assert CallMeans(log, calls, k);
      SameIds(calls, after, k);
    }
  }

  lemma EventNotices(log: seq<Notice>, a: Agg, event: Event)
    requires CallsMean(log, a.calls)
    ensures CallsMean(log + NoticesOf(event), Add(a, event).calls)
  {
    assert log + [] == log;
    match event
    case Assistant(Some(message)) => AssistantMessageNotices(log, a, message);
    case User(Some(message)) => UserMessageNotices(log, a, message);
    case Stream(inner) =>
      if StartsTool(event) {
        StartAdds(log, a.calls, inner.id, inner.name);
      } else {
        InputsDoNotMatter(log, a.calls, Add(a, event).calls);
      }
    case _ =>
  }

  /** The tool calls of a stream: one for every tool started, in order, with its id and name; and its result is
      the last one delivered for the id since, cut to 1000 characters from an assistant message and to 2000
      from a user message. */
  lemma {:induction false} CallsMeaning(events: seq<Event>)
    ensures CallsMean(Notices(events), AddAll(EMPTY, events).calls)
  {
    if events != [] {
      CallsMeaning(events[..|events| - 1]);
      EventNotices(Notices(events[..|events| - 1]), AddAll(EMPTY, events[..|events| - 1]), events[|events| - 1]);
    }
  }

  // ----- The other values of the final payload -----

  predicate NamesModel(event: Event) {
    event.System? && event.subtype == "init" && event.model != ""
  }

  function ThinkingDelta(event: Event): string {
    if event.Stream? && event.inner.BlockDelta? && event.inner.deltaKind == "thinking_delta"
    then event.inner.deltaThinking else ""
  }

  function ThinkingDeltas(events: seq<Event>): string {
    if events == [] then "" else ThinkingDeltas(events[..|events| - 1]) + ThinkingDelta(events[|events| - 1])
  }

  function HookOf(event: Event): seq<Hook> {
    if event.System? && event.subtype in {"hook_started", "hook_response", "notification", "status"}
    then [Hook(event.subtype, event.hook.id, event.hook.name, event.hook.event)] else []
  }

  function HooksIn(events: seq<Event>): seq<Hook> {
    if events == [] then [] else HooksIn(events[..|events| - 1]) + HookOf(events[|events| - 1])
  }

  /** The model named last; the cost and duration of the last result. */
  ghost predicate LastOnes(events: seq<Event>, a: Agg) {
    && (if a.model == "" then forall i | 0 <= i < |events| :: !NamesModel(events[i])
        else exists i :: 0 <= i < |events| && NamesModel(events[i]) && events[i].model == a.model &&
                         forall j | i < j < |events| :: !NamesModel(events[j]))
    && ((forall i | 0 <= i < |events| :: !events[i].Result?) ==> a.costUSD == 0.0 && a.durationMs == 0)
    && forall i | 0 <= i < |events| && events[i].Result? && (forall j | i < j < |events| :: !events[j].Result?) ::
         a.costUSD == events[i].costUSD && a.durationMs == events[i].durationMs
  }

  lemma OneMoreLast(front: seq<Event>, last: Event, a: Agg)
    requires LastOnes(front, a)
    ensures LastOnes(front + [last], Add(a, last))
  {
    var events, b := front + [last], Add(a, last);
    OtherValues(a, last);
    assert forall i | 0 <= i < |front| :: events[i] == front[i];
    assert events[|front|] == last;
    if b.model != "" && !NamesModel(last) {
      var i :| 0 <= i < |front| && NamesModel(front[i]) && front[i].model == a.model &&
               forall j | i < j < |front| :: !NamesModel(front[j]);
      assert NamesModel(events[i]);
    }
  }

  /** What one event does to the values that only few events touch. */
  lemma OtherValues(a: Agg, event: Event)
    ensures var b := Add(a, event);
            && b.model == (if NamesModel(event) then event.model else a.model)
            && b.costUSD == (if event.Result? then event.costUSD else a.costUSD)
            && b.durationMs == (if event.Result? then event.durationMs else a.durationMs)
            && b.hooks == a.hooks + HookOf(event)
            && b.thinkingBlocks == AddThinkingDelta(a.thinkingBlocks, ThinkingDelta(event))
  {
    assert a.hooks + [] == a.hooks;
    match event
    case Assistant(Some(message)) => MessageKeeps(a, message);
    case User(Some(message)) => UserMessageAdds(a, message);
    case _ =>
  }

  lemma {:induction false} LastOnesMeaning(events: seq<Event>)
    ensures LastOnes(events, AddAll(EMPTY, events))
  {
    if events != [] {
      var front, last := events[..|events| - 1], events[|events| - 1];
      LastOnesMeaning(front);
      OneMoreLast(front, last, AddAll(EMPTY, front));
      assert front + [last] == events;
    }
  }

  /** All hook events, in order; and the thinking deltas, concatenated into one block. */
  lemma {:induction false} DeltasMeaning(events: seq<Event>)
    ensures var a, deltas := AddAll(EMPTY, events), ThinkingDeltas(events);
            a.hooks == HooksIn(events) && a.thinkingBlocks == if deltas == "" then [] else [deltas]
  {
    if events != [] {
      var front, last := events[..|events| - 1], events[|events| - 1];
      DeltasMeaning(front);
      OtherValues(AddAll(EMPTY, front), last);
      OneMoreDelta(ThinkingDeltas(front), ThinkingDelta(last));
    }
  }

  lemma OneMoreDelta(deltas: string, delta: string)
    ensures AddThinkingDelta(if deltas == "" then [] else [deltas], delta) ==
            if deltas + delta == "" then [] else [deltas + delta]
  {
    assert deltas + "" == deltas && "" + delta == delta;
  }

  /** What a key of the payload holds, if it is there. */
  ghost predicate Holds(data: Data, key: Key, present: bool, value: Json) {
    (key in data <==> present) && (present ==> data[key] == value)
  }

  /** The final payload of a stream: the session id; the streamed text; the streamed thinking, as deltas if there
      were any, else as the assistant messages have it; model, cost and duration as told last, where positive;
      the hook events; the tool calls.  Nothing empty is in it. */
  ghost predicate PayloadOf(events: seq<Event>, sessionId: string, data: Data, a: Agg) {
    var text, deltas, thinking := StreamedText(events), ThinkingDeltas(events), ThoughtIn(events);
    && Holds(data, SessionId, true, JString(sessionId))
    && Holds(data, Content, text != "", JString(text))
    && Holds(data, ThinkingText, deltas != "" || thinking != "", JStrings([if deltas != "" then deltas else thinking]))
    && LastOnes(events, a)
    && Holds(data, Model, a.model != "", JString(a.model))
    && Holds(data, CostUSD, a.costUSD > 0.0, JReal(a.costUSD))
    && Holds(data, DurationMs, a.durationMs > 0, JInt(a.durationMs))
    && Holds(data, HookEvents, HooksIn(events) != [], JHooks(HooksIn(events)))
    && CallsMean(Notices(events), a.calls)
    && Holds(data, ToolCalls, a.calls != [], JCalls(a.calls))
    && ContentBlocks !in data
  }

  lemma PayloadMeaning(events: seq<Event>, sessionId: string)
    ensures PayloadOf(events, sessionId, FinalExtra(AddAll(EMPTY, events), sessionId), AddAll(EMPTY, events))
  {
    BlocksCarryStreamedText(events);
    BlocksMeaning(events);
    LastOnesMeaning(events);
    DeltasMeaning(events);
    CallsMeaning(events);
    PayloadKeys(AddAll(EMPTY, events), sessionId);
  }

  lemma PayloadKeys(a: Agg, sessionId: string)
    requires |a.thinkingBlocks| <= 1
    ensures var data := FinalExtra(a, sessionId);
            && Holds(data, SessionId, true, JString(sessionId))
            && Holds(data, Content, a.text != "", JString(a.text))
            && Holds(data, ThinkingText, a.thinkingBlocks != [] || a.thinking != "",
                     JStrings([if a.thinkingBlocks != [] then a.thinkingBlocks[0] else a.thinking]))
            && Holds(data, Model, a.model != "", JString(a.model))
            && Holds(data, CostUSD, a.costUSD > 0.0, JReal(a.costUSD))
            && Holds(data, DurationMs, a.durationMs > 0, JInt(a.durationMs))
            && Holds(data, HookEvents, a.hooks != [], JHooks(a.hooks))
            && Holds(data, ToolCalls, a.calls != [], JCalls(a.calls))
            && ContentBlocks !in data
  {
    assert |a.thinkingBlocks| == 1 ==> a.thinkingBlocks == [a.thinkingBlocks[0]];
  }
}
