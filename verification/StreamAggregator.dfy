/**
 The streamAggregator object: fields appended to and updated in place while the agent streams, read by
 Snapshot from the ticker and by Finalize at the end.  Content blocks are mutable maps, tool calls are
 elements of one backing array that is appended to and written in place, and tool results are shared
 pointers, as in the Go code; every method is proved against the functions of Aggregator.
 */
module StreamAggregator {
  import opened Wrappers
  import opened Aggregator
  import opened Persist

  class BlockMap {
    var entries: Block

    constructor (entries: Block)
      ensures this.entries == entries
    {
      this.entries := entries;
    }
  }

  class ResultCell {
    var text: string

    constructor (text: string)
      ensures this.text == text
    {
      this.text := text;
    }
  }

  datatype ToolCallData = ToolCallData(toolUseId: string, toolName: string, inputJson: string, result: ResultCell?)

  ghost function Cells(calls: seq<ToolCallData>): set<ResultCell> {
    set c | c in calls && c.result != null :: c.result
  }

  ghost function CallView(call: ToolCallData): Call
    reads call.result
  {
    Call(call.toolUseId, call.toolName, call.inputJson,
         if call.result == null then None else Some(call.result.text))
  }

  /** What a JSON encoder would see behind the pointers. */
  ghost function CallsView(calls: seq<ToolCallData>): (view: seq<Call>)
    reads Cells(calls)
    ensures |view| == |calls|
    ensures forall i | 0 <= i < |calls| :: view[i] == CallView(calls[i])
  {
    seq(|calls|, i requires 0 <= i < |calls| reads Cells(calls) => CallView(calls[i]))
  }

  ghost function BlocksView(blocks: seq<BlockMap>): (view: seq<Block>)
    reads blocks
    ensures |view| == |blocks|
    ensures forall i | 0 <= i < |blocks| :: view[i] == blocks[i].entries
  {
    seq(|blocks|, i requires 0 <= i < |blocks| reads blocks => blocks[i].entries)
  }

  method CloneBlocks(blocks: seq<BlockMap>) returns (clone: seq<BlockMap>)
    ensures BlocksView(clone) == BlocksView(blocks)
    ensures forall b | b in clone :: fresh(b)
  {
    clone := [];
    for i := 0 to |blocks|
      invariant |clone| == i
      invariant forall b | b in clone :: fresh(b)
      invariant forall k | 0 <= k < i :: clone[k].entries == blocks[k].entries
    {
      var m := new BlockMap(blocks[i].entries);
      clone := clone + [m];
    }
  }

  /** A new array with equal elements: a shallow copy, so the result cells stay shared. */
  method CloneToolCalls(calls: array<ToolCallData>, count: nat) returns (clone: array<ToolCallData>)
    requires count <= calls.Length
    ensures fresh(clone) && clone[..] == calls[..count]
  {
    clone := new ToolCallData[count];
    for i := 0 to count
      invariant clone[..i] == calls[..i]
    {
      clone[i] := calls[i];
    }
  }

  /** The new backing array of an append that does not fit. */
  method Larger(calls: array<ToolCallData>) returns (larger: array<ToolCallData>)
    ensures fresh(larger) && larger.Length > calls.Length && larger[..calls.Length] == calls[..]
  {
    larger := new ToolCallData[2 * calls.Length + 1];
    for i := 0 to calls.Length
      invariant larger[..i] == calls[..i]
    {
      larger[i] := calls[i];
    }
  }

  method ResultText(content: ToolContent, maxLen: nat) returns (text: string)
    ensures text == Truncate(ContentText(content), maxLen)
  {
    text := "";
    match content {
      case Plain(t) => text := t;
      case Items(items) =>
        if |items| > 0 {
          match items[0] {
            case TextItem(t) => text := t;
            case OtherItem =>
          }
        }
      case OtherContent =>
    }
    if |text| > maxLen {
      text := text[..maxLen] + TRUNCATED;
    }
  }

  method FindCall(calls: array<ToolCallData>, count: nat, toolUseId: string) returns (i: nat)
    requires count <= calls.Length
    ensures i == FirstCall(CallsView(calls[..count]), toolUseId)
  {
    i := 0;
    while i < count && calls[i].toolUseId != toolUseId
      invariant 0 <= i <= count
      invariant forall j | 0 <= j < i :: calls[j].toolUseId != toolUseId
    {
      i := i + 1;
    }
    ghost var view := CallsView(calls[..count]);
    ghost var first := FirstCall(view, toolUseId);
    assert first < count ==> view[first].toolUseId == calls[first].toolUseId;
    assert i < count ==> view[i].toolUseId == toolUseId;
  }

  class Aggregate {
    var contentBlocks: seq<BlockMap>
    var toolCalls: array<ToolCallData>
    var callCount: nat
    var assistantContent: string
    var thinkingContent: string
    var thinkingBlocks: seq<string>
    var modelName: string
    var costUSD: real
    var durationMs: int
    var hookEvents: seq<Hook>

    /** The slice of tool calls is a part of its backing array. */
    ghost predicate Valid()
      reads this
    {
      callCount <= toolCalls.Length
    }

    ghost function Calls(): seq<ToolCallData>
      requires Valid()
      reads this, toolCalls
    {
      toolCalls[..callCount]
    }

    ghost function State(): Agg
      requires Valid()
      reads this, toolCalls, contentBlocks, Cells(Calls())
    {
      Agg(BlocksView(contentBlocks), CallsView(Calls()), assistantContent, thinkingContent,
          thinkingBlocks, modelName, costUSD, durationMs, hookEvents)
    }

    constructor ()
      ensures Valid() && State() == EMPTY && fresh(toolCalls)
      ensures contentBlocks == [] && callCount == 0
    {
      contentBlocks, toolCalls, callCount := [], new ToolCallData[0], 0;
      assistantContent, thinkingContent, thinkingBlocks := "", "", [];
      modelName, costUSD, durationMs, hookEvents := "", 0.0, 0, [];
    }

    method AppendBlock(entries: Block)
      requires Valid()
      modifies this`contentBlocks
      ensures Valid() && State() == old(State()).(blocks := old(State()).blocks + [entries])
    {
      var m := new BlockMap(entries);
      contentBlocks := contentBlocks + [m];
      assert BlocksView(contentBlocks) == old(BlocksView(contentBlocks)) + [entries];
    }

    /** append: into the backing array where it has room, else into a larger copy of it. */
    method AppendCall(call: ToolCallData)
      requires Valid()
      modifies this`toolCalls, this`callCount, toolCalls
      ensures Valid() && Calls() == old(Calls()) + [call] && (toolCalls == old(toolCalls) || fresh(toolCalls))
    {
      if callCount == toolCalls.Length {
        toolCalls := Larger(toolCalls);
      }
      toolCalls[callCount] := call;
      callCount := callCount + 1;
    }

    /** A write to the element in place. */
    method SetCall(i: nat, call: ToolCallData)
      requires Valid() && i < callCount
      modifies toolCalls
      ensures Valid() && Calls() == old(Calls())[i := call]
    {
      toolCalls[i] := call;
    }

    /** A new cell; the call's old one, if any, is left as it is. */
    method SetResult(i: nat, text: string, ghost view: seq<Call>)
      requires Valid() && i < callCount && view == CallsView(Calls())
      modifies toolCalls
      ensures Valid() && CallsView(Calls()) == view[i := view[i].(result := Some(text))]
    {
      var result := new ResultCell(text);
      assert CallView(Calls()[i]) == view[i];
      SetCall(i, toolCalls[i].(result := result));
    }

    method AttachToolResult(toolUseId: string, content: ToolContent, maxLen: nat)
      requires Valid()
      modifies toolCalls
      ensures Valid() && State() == Attach(old(State()), toolUseId, content, maxLen)
    {
      ghost var a := State();
      var text := ResultText(content, maxLen);
      var i := FindCall(toolCalls, callCount, toolUseId);
      if i < callCount {
        SetResult(i, text, a.calls);
        assert State() == a.(calls := CallsView(Calls()));
      }
    }

    method StartCall(id: string, name: string)
      requires Valid()
      modifies this`toolCalls, this`callCount, toolCalls
      ensures Valid() && (toolCalls == old(toolCalls) || fresh(toolCalls))
      ensures State() == old(State()).(calls := old(State()).calls + [Call(id, name, "", None)])
    {
      ghost var view := CallsView(Calls());
      AppendCall(ToolCallData(id, name, "", null));
      assert CallsView(Calls()) == view + [Call(id, name, "", None)];
    }

    method ExtendInput(json: string)
      requires Valid() && json != ""
      modifies toolCalls
      ensures Valid() && State() == old(State()).(calls := AddInputDelta(old(State()).calls, json))
    {
      if callCount > 0 {
        ghost var view := CallsView(Calls());
        var last := toolCalls[callCount - 1];
        assert CallView(last) == view[callCount - 1];
        SetCall(callCount - 1, last.(inputJson := last.inputJson + json));
        assert CallsView(Calls()) == AddInputDelta(view, json);
      }
    }

    method HandleStreamEvent(inner: Inner)
      requires Valid()
      modifies this, toolCalls
      ensures Valid() && State() == AddInner(old(State()), inner) && (toolCalls == old(toolCalls) || fresh(toolCalls))
    {
      match inner {
        case BlockStart(_, kind, id, name) =>
          if kind == "tool_use" && name != "" {
            StartCall(id, name);
          }
        case BlockDelta(_, kind, thinking, json) =>
          if kind == "thinking_delta" {
            if thinking != "" {
              if |thinkingBlocks| == 0 {
                thinkingBlocks := thinkingBlocks + [""];
              }
              var last := |thinkingBlocks| - 1;
              thinkingBlocks := thinkingBlocks[last := thinkingBlocks[last] + thinking];
              assert "" + thinking == thinking;
            }
          } else if kind == "input_json_delta" {
            if json != "" {
              ExtendInput(json);
            }
          }
        case OtherInner =>
        case Malformed =>
      }
    }

    method HandleAssistantBlock(block: InBlock)
      requires Valid()
      modifies this, toolCalls
      ensures Valid() && State() == AddAssistantBlock(old(State()), block) && toolCalls == old(toolCalls)
    {
      match block {
        case Thinking(t) =>
          if t != "" {
            AppendBlock(map["type" := "thinking", "content" := t]);
            thinkingContent := thinkingContent + t;
          }
        case Text(t) =>
          if t != "" {
            AppendBlock(map["type" := "text", "content" := t]);
            assistantContent := assistantContent + t;
          }
        case ToolUse(id) =>
          if id != "" {
            AppendBlock(map["type" := "tool_use", "tool_use_id" := id]);
          }
        case ToolResult(id, content) => AttachToolResult(id, content, 1000);
        case OtherBlock =>
      }
    }

    method HandleSystem(subtype: string, model: string, hook: Hook)
      requires Valid()
      modifies this`modelName, this`hookEvents
      ensures Valid() && State() == Add(old(State()), System(subtype, model, hook))
    {
      if subtype == "init" {
        if model != "" {
          modelName := model;
        }
      } else if subtype == "hook_started" || subtype == "hook_response"
                || subtype == "notification" || subtype == "status" {
        hookEvents := hookEvents + [hook.(subtype := subtype)];
      }
    }

    /** The frame says more than it seems: of the objects that exist before the call, only the aggregator and
        the backing array of its tool calls are written, no block map and no result cell. */
    method Handle(event: Event)
      requires Valid()
      modifies this, toolCalls
      ensures Valid() && State() == Add(old(State()), event) && (toolCalls == old(toolCalls) || fresh(toolCalls))
    {
      match event {
        case Assistant(message) =>
          if message.None? {
            return;
          }
          for i := 0 to |message.value|
            invariant Valid() && toolCalls == old(toolCalls)
            invariant State() == AddAssistantBlocks(old(State()), message.value[..i])
          {
            assert message.value[..i + 1][..i] == message.value[..i];
            HandleAssistantBlock(message.value[i]);
          }
          assert message.value[..|message.value|] == message.value;
        case User(message) =>
          if message.None? {
            return;
          }
          for i := 0 to |message.value|
            invariant Valid() && toolCalls == old(toolCalls)
            invariant State() == AddUserBlocks(old(State()), message.value[..i])
          {
            assert message.value[..i + 1][..i] == message.value[..i];
            if message.value[i].ToolResult? {
              AttachToolResult(message.value[i].toolUseId, message.value[i].content, 2000);
            }
          }
          assert message.value[..|message.value|] == message.value;
        case System(subtype, model, hook) => HandleSystem(subtype, model, hook);
        case Stream(inner) => HandleStreamEvent(inner);
        case Result(cost, duration) => costUSD, durationMs := cost, duration;
        case OtherEvent =>
      }
    }

    /** New block maps and a new array; the result cells are the aggregator's own. */
    method Snapshot() returns (blocks: seq<BlockMap>, calls: array<ToolCallData>)
      requires Valid()
      ensures BlocksView(blocks) == State().blocks && CallsView(calls[..]) == State().calls
      ensures fresh(calls) && forall b | b in blocks :: fresh(b)
      ensures Cells(calls[..]) == Cells(Calls())
    {
      blocks := CloneBlocks(contentBlocks);
      calls := CloneToolCalls(toolCalls, callCount);
    }

    method Finalize(newSessionId: string) returns (finalBlocks: seq<BlockMap>, extra: Data, text: string)
      requires Valid()
      ensures BlocksView(finalBlocks) == State().blocks && forall b | b in finalBlocks :: fresh(b)
      ensures extra == FinalExtra(State(), newSessionId)
      ensures text == State().text
    {
      ghost var a := State();
      var calls := MarshalCalls(toolCalls, callCount);
      var summary :=
        Agg([], calls, assistantContent, thinkingContent, thinkingBlocks, modelName, costUSD, durationMs, hookEvents);
      assert summary == a.(blocks := []);
      extra := MergePayload(summary, newSessionId);
      PayloadIgnoresBlocks(a, [], newSessionId);
      finalBlocks := CloneBlocks(contentBlocks);
      assert CallsView(Calls()) == a.calls && BlocksView(contentBlocks) == a.blocks;
      assert State() == a;
      text := assistantContent;
    }
  }

  lemma PayloadIgnoresBlocks(a: Agg, blocks: seq<Block>, sessionId: string)
    ensures FinalExtra(a.(blocks := blocks), sessionId) == FinalExtra(a, sessionId)
  {
    var b := a.(blocks := blocks);
    forall key ensures FinalValue(b, sessionId, key) == FinalValue(a, sessionId, key) {
      match key
      case SessionId =>
      case _ =>
    }
    assert FinalExtra(b, sessionId).Keys == FinalExtra(a, sessionId).Keys;
  }

  /** Finalize's sequence of conditional puts. */
  method MergePayload(a: Agg, newSessionId: string) returns (extra: Data)
    ensures extra == FinalExtra(a, newSessionId)
  {
    extra := map[SessionId := JString(newSessionId)];
    if a.text != "" {
      extra := extra[Content := JString(a.text)];
    }
    if |a.thinkingBlocks| > 0 {
      extra := extra[ThinkingText := JStrings(a.thinkingBlocks)];
    } else if a.thinking != "" {
      extra := extra[ThinkingText := JStrings([a.thinking])];
    }
    if a.model != "" {
      extra := extra[Model := JString(a.model)];
    }
    if a.costUSD > 0.0 {
      extra := extra[CostUSD := JReal(a.costUSD)];
    }
    if a.durationMs > 0 {
      extra := extra[DurationMs := JInt(a.durationMs)];
    }
    if |a.hooks| > 0 {
      extra := extra[HookEvents := JHooks(a.hooks)];
    }
    if |a.calls| > 0 {
      extra := extra[ToolCalls := JCalls(a.calls)];
    }
    forall key: Key ensures Agrees(a, newSessionId, extra, key) {
      match key
      case SessionId =>
      case Content =>
      case ContentBlocks =>
      case ToolCalls =>
      case ThinkingText =>
      case Model =>
      case CostUSD =>
      case DurationMs =>
      case HookEvents =>
    }
    AgreesEverywhere(a, newSessionId, extra);
  }

  ghost predicate Agrees(a: Agg, sessionId: string, extra: Data, key: Key) {
    (if key in extra then Some(extra[key]) else None) == FinalValue(a, sessionId, key)
  }

  lemma AgreesEverywhere(a: Agg, sessionId: string, extra: Data)
    requires forall key :: Agrees(a, sessionId, extra, key)
    ensures extra == FinalExtra(a, sessionId)
  {
    var final := FinalExtra(a, sessionId);
    forall key: Key ensures key in extra <==> key in final {
      assert Agrees(a, sessionId, extra, key);
    }
    forall key | key in extra ensures extra[key] == final[key] {
      assert Agrees(a, sessionId, extra, key);
    }
  }

  /** Follows the result pointers, as the JSON encoder does. */
  method MarshalCalls(calls: array<ToolCallData>, count: nat) returns (marshalled: seq<Call>)
    requires count <= calls.Length
    ensures marshalled == CallsView(calls[..count])
  {
    marshalled := [];
    for i := 0 to count
      invariant marshalled == CallsView(calls[..count])[..i]
    {
      var c := calls[i];
      var result := None;
      if c.result != null {
        result := Some(c.result.text);
      }
      marshalled := marshalled + [Call(c.toolUseId, c.toolName, c.inputJson, result)];
    }
  }

  method HandleAll(a: Aggregate, events: seq<Event>)
    requires a.Valid()
    modifies a, a.toolCalls
    ensures a.Valid() && a.State() == AddAll(old(a.State()), events)
  {
    ghost var before := a.State();
    for i := 0 to |events|
      invariant a.Valid() && a.State() == AddAll(before, events[..i])
      invariant a.toolCalls == old(a.toolCalls) || fresh(a.toolCalls)
    {
      assert events[..i + 1][..i] == events[..i];
      a.Handle(events[i]);
    }
    assert events[..|events|] == events;
  }

  /** Snapshot isolation: handling any further events changes nothing a snapshot shows, although the
      aggregator goes on writing its tool calls in place and shares their result cells with the snapshot;
      and what it holds then extends the snapshot. */
  method HandleAfterSnapshot(a: Aggregate, events: seq<Event>)
    returns (blocks: seq<BlockMap>, calls: array<ToolCallData>)
    requires a.Valid()
    modifies a, a.toolCalls
    ensures a.Valid() && a.State() == AddAll(old(a.State()), events)
    ensures BlocksView(blocks) == old(a.State()).blocks && CallsView(calls[..]) == old(a.State()).calls
    ensures BlocksView(blocks) <= a.State().blocks && CallsGrow(CallsView(calls[..]), a.State().calls)
  {
    blocks, calls := a.Snapshot();
    HandleAll(a, events);
    AddAllGrows(old(a.State()), events);
  }

  lemma {:induction false} AddAllGrows(a: Agg, events: seq<Event>)
    ensures Grows(a, AddAll(a, events))
  {
    if events != [] {
      var front := events[..|events| - 1];
      AddAllGrows(a, front);
      AddGrows(AddAll(a, front), events[|events| - 1]);
      GrowsTransitive(a, AddAll(a, front), AddAll(a, events));
    }
  }
}
