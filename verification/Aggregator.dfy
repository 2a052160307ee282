/**
 What one stream of agent events adds up to.  This module gives the meaning of streamAggregator as
 functions over event sequences, and proves what the message protocol needs of that meaning.  A Go
 string is a string here, one character a byte.
 */
module Aggregator {
  import opened Wrappers

  datatype Item = TextItem(text: string) | OtherItem

  /** The `any`-typed content of a tool_result block. */
  datatype ToolContent = Plain(text: string) | Items(items: seq<Item>) | OtherContent

  datatype InBlock =
    | Thinking(thinking: string)
    | Text(text: string)
    | ToolUse(id: string)
    | ToolResult(toolUseId: string, content: ToolContent)
    | OtherBlock

  datatype Hook = Hook(subtype: string, id: string, name: string, event: string)

  /** The partial-message events; a field the JSON leaves out is the empty string. */
  datatype Inner =
    | BlockStart(index: int, kind: string, id: string, name: string)
    | BlockDelta(index: int, deltaKind: string, deltaThinking: string, partialJson: string)
    | OtherInner
    | Malformed

  datatype Event =
    | Assistant(message: Option<seq<InBlock>>)
    | User(message: Option<seq<InBlock>>)
    | System(subtype: string, model: string, hook: Hook)
    | Stream(inner: Inner)
    | Result(costUSD: real, durationMs: int)
    | OtherEvent

  /** A persisted content block: a small string map. */
  type Block = map<string, string>

  datatype Call = Call(toolUseId: string, toolName: string, inputJson: string, result: Option<string>)

  datatype Agg = Agg(
    blocks: seq<Block>,
    calls: seq<Call>,
    text: string,
    thinking: string,
    thinkingBlocks: seq<string>,
    model: string,
    costUSD: real,
    durationMs: int,
    hooks: seq<Hook>)

  const EMPTY := Agg([], [], "", "", [], "", 0.0, 0, [])

  const TRUNCATED := "...[truncated]"

  function ThinkingBlock(text: string): Block {
    map["type" := "thinking", "content" := text]
  }

  function TextBlock(text: string): Block {
    map["type" := "text", "content" := text]
  }

  function ToolUseBlock(id: string): Block {
    map["type" := "tool_use", "tool_use_id" := id]
  }

  function ContentText(content: ToolContent): string {
    match content
    case Plain(text) => text
    case Items(items) => if |items| > 0 && items[0].TextItem? then items[0].text else ""
    case OtherContent => ""
  }

  function Truncate(text: string, maxLen: nat): string {
    if |text| > maxLen then text[..maxLen] + TRUNCATED else text
  }

  /** Position of the first call with this id, or the number of calls. */
  function FirstCall(calls: seq<Call>, id: string): (i: nat)
    ensures i <= |calls|
    ensures i < |calls| ==> calls[i].toolUseId == id
    ensures forall j | 0 <= j < i :: calls[j].toolUseId != id
  {
    if calls == [] then 0
    else if calls[0].toolUseId == id then 0
    else 1 + FirstCall(calls[1..], id)
  }

  function Attach(a: Agg, id: string, content: ToolContent, maxLen: nat): Agg {
    var i := FirstCall(a.calls, id);
    if i == |a.calls| then a
    else a.(calls := a.calls[i := a.calls[i].(result := Some(Truncate(ContentText(content), maxLen)))])
  }

  function AddAssistantBlock(a: Agg, block: InBlock): Agg {
    match block
    case Thinking(t) =>
      if t == "" then a else a.(blocks := a.blocks + [ThinkingBlock(t)], thinking := a.thinking + t)
    case Text(t) =>
      if t == "" then a else a.(blocks := a.blocks + [TextBlock(t)], text := a.text + t)
    case ToolUse(id) =>
      if id == "" then a else a.(blocks := a.blocks + [ToolUseBlock(id)])
    case ToolResult(id, content) => Attach(a, id, content, 1000)
    case OtherBlock => a
  }

  function AddAssistantBlocks(a: Agg, message: seq<InBlock>): Agg {
    if message == [] then a
    else AddAssistantBlock(AddAssistantBlocks(a, message[..|message| - 1]), message[|message| - 1])
  }

  function AddUserBlock(a: Agg, block: InBlock): Agg {
    if block.ToolResult? then Attach(a, block.toolUseId, block.content, 2000) else a
  }

  function AddUserBlocks(a: Agg, message: seq<InBlock>): Agg {
    if message == [] then a
    else AddUserBlock(AddUserBlocks(a, message[..|message| - 1]), message[|message| - 1])
  }

  predicate HookSubtype(subtype: string) {
    subtype == "hook_started" || subtype == "hook_response" || subtype == "notification" || subtype == "status"
  }

  function AddThinkingDelta(blocks: seq<string>, delta: string): seq<string> {
    if delta == "" then blocks
    else if blocks == [] then [delta]
    else blocks[|blocks| - 1 := blocks[|blocks| - 1] + delta]
  }

  function AddInputDelta(calls: seq<Call>, delta: string): seq<Call> {
    if delta == "" || calls == [] then calls
    else calls[|calls| - 1 := calls[|calls| - 1].(inputJson := calls[|calls| - 1].inputJson + delta)]
  }

  function AddInner(a: Agg, inner: Inner): Agg {
    match inner
    case BlockStart(_, kind, id, name) =>
      if kind == "tool_use" && name != "" then a.(calls := a.calls + [Call(id, name, "", None)]) else a
    case BlockDelta(_, kind, thinking, json) =>
      if kind == "thinking_delta" then a.(thinkingBlocks := AddThinkingDelta(a.thinkingBlocks, thinking))
      else if kind == "input_json_delta" then a.(calls := AddInputDelta(a.calls, json))
      else a
    case OtherInner => a
    case Malformed => a
  }

  function Add(a: Agg, event: Event): Agg {
    match event
    case Assistant(None) => a
    case Assistant(Some(message)) => AddAssistantBlocks(a, message)
    case User(None) => a
    case User(Some(message)) => AddUserBlocks(a, message)
    case System(subtype, model, hook) =>
      if subtype == "init" then (if model != "" then a.(model := model) else a)
      else if HookSubtype(subtype) then a.(hooks := a.hooks + [hook.(subtype := subtype)])
      else a
    case Stream(inner) => AddInner(a, inner)
    case Result(cost, duration) => a.(costUSD := cost, durationMs := duration)
    case OtherEvent => a
  }

  function AddAll(a: Agg, events: seq<Event>): Agg {
    if events == [] then a else Add(AddAll(a, events[..|events| - 1]), events[|events| - 1])
  }

  // ----- Growth: everything persisted from a later state extends what an earlier one persisted -----

  predicate CallGrows(c: Call, d: Call) {
    && c.toolUseId == d.toolUseId
    && c.toolName == d.toolName
    && c.inputJson <= d.inputJson
    && (c.result.Some? ==> d.result.Some?)
  }

  predicate CallsGrow(cs: seq<Call>, ds: seq<Call>) {
    |cs| <= |ds| && forall i | 0 <= i < |cs| :: CallGrows(cs[i], ds[i])
  }

  predicate Grows(a: Agg, b: Agg) {
    a.blocks <= b.blocks && CallsGrow(a.calls, b.calls) && a.text <= b.text
  }

  lemma GrowsTransitive(a: Agg, b: Agg, c: Agg)
    requires Grows(a, b) && Grows(b, c)
    ensures Grows(a, c)
  {
    forall i | 0 <= i < |a.calls| ensures CallGrows(a.calls[i], c.calls[i]) {
      assert CallGrows(a.calls[i], b.calls[i]) && CallGrows(b.calls[i], c.calls[i]);
    }
  }

  lemma {:induction false} AssistantBlocksGrow(a: Agg, message: seq<InBlock>)
    ensures Grows(a, AddAssistantBlocks(a, message))
  {
    if message != [] {
      var front := message[..|message| - 1];
      AssistantBlocksGrow(a, front);
      var b := AddAssistantBlocks(a, front);
      GrowsTransitive(a, b, AddAssistantBlock(b, message[|message| - 1]));
    }
  }

  lemma {:induction false} UserBlocksGrow(a: Agg, message: seq<InBlock>)
    ensures Grows(a, AddUserBlocks(a, message))
  {
    if message != [] {
      var front := message[..|message| - 1];
      UserBlocksGrow(a, front);
      var b := AddUserBlocks(a, front);
      GrowsTransitive(a, b, AddUserBlock(b, message[|message| - 1]));
    }
  }

  lemma AddGrows(a: Agg, event: Event)
    ensures Grows(a, Add(a, event))
  {
    match event
    case Assistant(Some(message)) => AssistantBlocksGrow(a, message);
    case User(Some(message)) => UserBlocksGrow(a, message);
    case _ =>
  }

  /** A longer prefix of one stream aggregates to an extension of what a shorter prefix does. */
  lemma {:induction false} PrefixGrows(events: seq<Event>, i: nat, j: nat)
    requires i <= j <= |events|
    ensures Grows(AddAll(EMPTY, events[..i]), AddAll(EMPTY, events[..j]))
    decreases j
  {
    if i < j {
      assert events[..j][..j - 1] == events[..j - 1];
      PrefixGrows(events, i, j - 1);
      AddGrows(AddAll(EMPTY, events[..j - 1]), events[j - 1]);
      GrowsTransitive(AddAll(EMPTY, events[..i]), AddAll(EMPTY, events[..j - 1]), AddAll(EMPTY, events[..j]));
    }
  }

  // ----- Text: the stored blocks carry the streamed text, in order -----

  function TextOf(block: Block): string {
    if "type" in block && block["type"] == "text" && "content" in block then block["content"] else ""
  }

  function TextOfAll(blocks: seq<Block>): string {
    if blocks == [] then "" else TextOfAll(blocks[..|blocks| - 1]) + TextOf(blocks[|blocks| - 1])
  }

  function StreamedInMessage(message: seq<InBlock>): string {
    if message == [] then ""
    else
      var last := message[|message| - 1];
      StreamedInMessage(message[..|message| - 1]) + if last.Text? then last.text else ""
  }

  function StreamedIn(event: Event): string {
    if event.Assistant? && event.message.Some? then StreamedInMessage(event.message.value) else ""
  }

  /** The text blocks of the assistant messages, concatenated in the order they were streamed. */
  function StreamedText(events: seq<Event>): string {
    if events == [] then "" else StreamedText(events[..|events| - 1]) + StreamedIn(events[|events| - 1])
  }

  lemma AppendText(blocks: seq<Block>, block: Block)
    ensures TextOfAll(blocks + [block]) == TextOfAll(blocks) + TextOf(block)
  {
    assert (blocks + [block])[..|blocks|] == blocks;
  }

  lemma BlockTexts(text: string)
    ensures TextOf(TextBlock(text)) == text && TextOf(ThinkingBlock(text)) == "" && TextOf(ToolUseBlock(text)) == ""
  {
  }

  lemma AssistantBlockText(a: Agg, block: InBlock)
    requires a.text == TextOfAll(a.blocks)
    ensures var b := AddAssistantBlock(a, block);
            b.text == TextOfAll(b.blocks) == a.text + if block.Text? then block.text else ""
  {
    var added := match block
      case Thinking(t) => ThinkingBlock(t)
      case Text(t) => TextBlock(t)
      case ToolUse(id) => ToolUseBlock(id)
      case _ => map[];
    var t := match block case Thinking(t) => t case Text(t) => t case ToolUse(id) => id case _ => "";
    BlockTexts(t);
    AppendText(a.blocks, added);
    assert a.text + "" == a.text;
  }

  lemma {:induction false} AssistantBlocksText(a: Agg, message: seq<InBlock>)
    requires a.text == TextOfAll(a.blocks)
    ensures var b := AddAssistantBlocks(a, message);
            b.text == TextOfAll(b.blocks) == a.text + StreamedInMessage(message)
  {
    if message == [] {
      assert a.text + "" == a.text;
    } else {
      var front, last := message[..|message| - 1], message[|message| - 1];
      AssistantBlocksText(a, front);
      AssistantBlockText(AddAssistantBlocks(a, front), last);
      assert a.text + (StreamedInMessage(front) + if last.Text? then last.text else "")
          == a.text + StreamedInMessage(front) + if last.Text? then last.text else "";
    }
  }

  lemma {:induction false} UserBlocksText(a: Agg, message: seq<InBlock>)
    ensures AddUserBlocks(a, message).text == a.text && AddUserBlocks(a, message).blocks == a.blocks
  {
    if message != [] {
      UserBlocksText(a, message[..|message| - 1]);
    }
  }

  lemma AddText(a: Agg, event: Event)
    requires a.text == TextOfAll(a.blocks)
    ensures var b := Add(a, event);
            b.text == TextOfAll(b.blocks) == a.text + StreamedIn(event)
  {
    assert a.text + "" == a.text;
    if event.Assistant? && event.message.Some? {
      AssistantBlocksText(a, event.message.value);
    } else if event.User? && event.message.Some? {
      UserBlocksText(a, event.message.value);
    }
  }

  lemma {:induction false} BlocksCarryStreamedText(events: seq<Event>)
    ensures var a := AddAll(EMPTY, events);
            a.text == TextOfAll(a.blocks) == StreamedText(events)
  {
    if events != [] {
      BlocksCarryStreamedText(events[..|events| - 1]);
      AddText(AddAll(EMPTY, events[..|events| - 1]), events[|events| - 1]);
    }
  }

  // ----- Tool inputs: appending to the last call against routing by block index -----

  predicate StartsTool(event: Event) {
    event.Stream? && event.inner.BlockStart? && event.inner.kind == "tool_use" && event.inner.name != ""
  }

  predicate StartsAt(event: Event, index: int) {
    event.Stream? && event.inner.BlockStart? && event.inner.index == index
  }

  predicate IsInputDelta(event: Event) {
    && event.Stream? && event.inner.BlockDelta?
    && event.inner.deltaKind == "input_json_delta" && event.inner.partialJson != ""
  }

  /** The reference: inputs of the tool calls so far, and which call each block index stands for. */
  datatype Routed = Routed(inputs: seq<string>, open: map<int, nat>)

  function Route(r: Routed, event: Event): Routed {
    if StartsTool(event) then Routed(r.inputs + [""], r.open[event.inner.index := |r.inputs|])
    else if event.Stream? && event.inner.BlockStart? then r.(open := r.open - {event.inner.index})
    else if IsInputDelta(event) && event.inner.index in r.open && r.open[event.inner.index] < |r.inputs| then
      var i := r.open[event.inner.index];
      r.(inputs := r.inputs[i := r.inputs[i] + event.inner.partialJson])
    else r
  }

  function RouteAll(events: seq<Event>): Routed {
    if events == [] then Routed([], map[]) else Route(RouteAll(events[..|events| - 1]), events[|events| - 1])
  }

  function Inputs(a: Agg): seq<string> {
    seq(|a.calls|, i requires 0 <= i < |a.calls| => a.calls[i].inputJson)
  }

  /** The delta at position k belongs to the tool block started last, or to none when no tool block
      has been started: what a producer that does not interleave tool blocks guarantees. */
  ghost predicate FollowsItsTool(events: seq<Event>, k: nat)
    requires k < |events| && IsInputDelta(events[k])
  {
    || (forall m | 0 <= m < k :: !StartsTool(events[m]))
    || (exists m | 0 <= m < k :: LastToolAt(events, m, k, events[k].inner.index))
  }

  ghost predicate LastToolAt(events: seq<Event>, m: int, k: int, index: int)
    requires 0 <= m < k <= |events|
  {
    && StartsTool(events[m]) && events[m].inner.index == index
    && forall n | m < n < k :: !StartsTool(events[n]) && !StartsAt(events[n], index)
  }

  lemma {:induction false} BlocksKeepInputs(a: Agg, message: seq<InBlock>)
    ensures Inputs(AddAssistantBlocks(a, message)) == Inputs(a)
    ensures Inputs(AddUserBlocks(a, message)) == Inputs(a)
  {
    if message != [] {
      BlocksKeepInputs(a, message[..|message| - 1]);
    }
  }

  /** One event changes the aggregated inputs only if it starts a tool or is a tool-input delta. */
  lemma AddInputs(a: Agg, event: Event)
    ensures Inputs(Add(a, event)) ==
            if StartsTool(event) then Inputs(a) + [""]
            else if IsInputDelta(event) && Inputs(a) != [] then
              Inputs(a)[|Inputs(a)| - 1 := Inputs(a)[|Inputs(a)| - 1] + event.inner.partialJson]
            else Inputs(a)
  {
    match event
    case Assistant(Some(message)) => BlocksKeepInputs(a, message);
    case User(Some(message)) => BlocksKeepInputs(a, message);
    case _ =>
  }

  /** What the reference's bookkeeping knows after the first k events. */
  lemma {:induction false} OpenMeaning(events: seq<Event>, k: nat, index: int)
    requires k <= |events|
    ensures var r := RouteAll(events[..k]);
            && (r.inputs == [] <==> forall m | 0 <= m < k :: !StartsTool(events[m]))
            && (forall i | i in r.open :: r.open[i] < |r.inputs|)
            && (index in r.open && r.open[index] == |r.inputs| - 1 <==>
                 exists m | 0 <= m < k :: LastToolAt(events, m, k, index))
  {
    if k > 0 {
      OpenMeaning(events, k - 1, index);
      assert events[..k][..k - 1] == events[..k - 1];
      var r0, r := RouteAll(events[..k - 1]), RouteAll(events[..k]);
      var last := events[k - 1];
      assert r == Route(r0, last);
      if StartsTool(last) {
        if last.inner.index == index {
          assert LastToolAt(events, k - 1, k, index);
        }
      } else {
        forall m | 0 <= m < k
          ensures LastToolAt(events, m, k, index) <==>
                  m < k - 1 && LastToolAt(events, m, k - 1, index) && !StartsAt(last, index)
        {
          if m < k - 1 && LastToolAt(events, m, k, index) {
            assert !StartsAt(events[k - 1], index);
          }
        }
        if index in r.open && r.open[index] == |r.inputs| - 1 {
          var m :| 0 <= m < k - 1 && LastToolAt(events, m, k - 1, index);
          assert LastToolAt(events, m, k, index);
        }
      }
    }
  }

  ghost predicate AgreesUpTo(events: seq<Event>, n: nat)
    requires n <= |events|
  {
    forall k | 0 <= k <= n :: Inputs(AddAll(EMPTY, events[..k])) == RouteAll(events[..k]).inputs
  }

  lemma StepAgrees(events: seq<Event>, k: nat)
    requires k < |events|
    requires Inputs(AddAll(EMPTY, events[..k])) == RouteAll(events[..k]).inputs
    ensures Inputs(AddAll(EMPTY, events[..k + 1])) == RouteAll(events[..k + 1]).inputs
       <==> (IsInputDelta(events[k]) ==> FollowsItsTool(events, k))
  {
    assert events[..k + 1][..k] == events[..k];
    var a, r, e := AddAll(EMPTY, events[..k]), RouteAll(events[..k]), events[k];
    AddInputs(a, e);
    if IsInputDelta(e) {
      OpenMeaning(events, k, e.inner.index);
      if r.inputs != [] && !(e.inner.index in r.open && r.open[e.inner.index] == |r.inputs| - 1) {
        var last := |r.inputs| - 1;
        assert Inputs(Add(a, e))[last] == r.inputs[last] + e.inner.partialJson;
        assert |Inputs(Add(a, e))[last]| > |Route(r, e).inputs[last]|;
      }
    }
  }

  /** Appending each delta to the last tool call agrees, at every point of the stream, with routing it
      by its block index exactly when each delta follows its own tool block. */
  lemma {:induction false} LastCallRoutingExactly(events: seq<Event>, n: nat)
    requires n <= |events|
    ensures AgreesUpTo(events, n) <==>
              forall k | 0 <= k < n :: IsInputDelta(events[k]) ==> FollowsItsTool(events, k)
  {
    if n == 0 {
      assert events[..0] == [];
    } else {
      LastCallRoutingExactly(events, n - 1);
      assert AgreesUpTo(events, n) <==>
               AgreesUpTo(events, n - 1) && Inputs(AddAll(EMPTY, events[..n])) == RouteAll(events[..n]).inputs;
      if AgreesUpTo(events, n - 1) {
        StepAgrees(events, n - 1);
      }
    }
  }
}
