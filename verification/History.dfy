/**
 What the next turn sees of the earlier ones: the session id to resume, and the fallback history, both
 recomputed from the stored rows.
 */
module History {
  import opened Aggregator
  import opened Persist

  datatype Role = UserRole | AssistantRole | SystemRole

  datatype Message = Message(role: Role, data: Data, status: MessageStatus)

  datatype HistoryEntry = HistoryEntry(role: Role, content: string)

  function RowSessionId(m: Message): string {
    if m.role.AssistantRole? && SessionId in m.data && m.data[SessionId].JString? then m.data[SessionId].text else ""
  }

  /** The most recent non-empty session id of an assistant row, or the empty string. */
  function LastSessionId(history: seq<Message>): string {
    if history == [] then ""
    else if RowSessionId(history[|history| - 1]) != "" then RowSessionId(history[|history| - 1])
    else LastSessionId(history[..|history| - 1])
  }

  predicate LeavesId(m: Message, sessionId: string) {
    m.role.AssistantRole? && SessionId in m.data && m.data[SessionId] == JString(sessionId) && sessionId != ""
  }

  /** Whatever the rows are: the id of the last assistant row that has one, or the empty string if none has. */
  lemma {:induction false} LastSessionIdMeaning(history: seq<Message>)
    ensures var id := LastSessionId(history);
            if id == "" then forall m, any | m in history :: !LeavesId(m, any)
            else exists i :: 0 <= i < |history| && LeavesId(history[i], id) &&
                             forall j, any | i < j < |history| :: !LeavesId(history[j], any)
  {
    if history != [] && RowSessionId(history[|history| - 1]) == "" {
      var front := history[..|history| - 1];
      LastSessionIdMeaning(front);
      var id := LastSessionId(history);
      if id != "" {
        var i :| 0 <= i < |front| && LeavesId(front[i], id) && forall j, any | i < j < |front| :: !LeavesId(front[j], any);
        assert LeavesId(history[i], id);
      }
    } else if history != [] {
      assert LeavesId(history[|history| - 1], LastSessionId(history));
    }
  }

  function EntryText(m: Message): string {
    match m.role
    case UserRole => StoredContent(m.data)
    case AssistantRole => TextOfAll(StoredBlocks(m.data))
    case SystemRole => ""
  }

  function Entries(history: seq<Message>): seq<HistoryEntry> {
    seq(|history|, i requires 0 <= i < |history| => HistoryEntry(history[i].role, EntryText(history[i])))
  }

  method FindResumeSessionId(history: seq<Message>) returns (sessionId: string)
    ensures sessionId == LastSessionId(history)
  {
    var i := |history| - 1;
    assert history[..i + 1] == history;
    while i >= 0
      invariant -1 <= i < |history|
      invariant LastSessionId(history) == LastSessionId(history[..i + 1])
    {
      var m := history[i];
      assert history[..i + 1][..i] == history[..i];
      if m.role.AssistantRole? {
        if SessionId in m.data && m.data[SessionId].JString? && m.data[SessionId].text != "" {
          return m.data[SessionId].text;
        }
      }
      i := i - 1;
    }
    return "";
  }

  method BuildConversationHistory(history: seq<Message>) returns (out: seq<HistoryEntry>)
    ensures out == Entries(history)
  {
    out := [];
    for i := 0 to |history|
      invariant out == Entries(history)[..i]
    {
      var m := history[i];
      var content := "";
      match m.role {
        case UserRole =>
          if Content in m.data && m.data[Content].JString? {
            content := m.data[Content].text;
          }
        case AssistantRole =>
          if ContentBlocks in m.data && m.data[ContentBlocks].JBlocks? {
            var blocks := m.data[ContentBlocks].blocks;
            for k := 0 to |blocks|
              invariant content == TextOfAll(blocks[..k])
            {
              assert blocks[..k + 1][..k] == blocks[..k];
              var block := blocks[k];
              if !("type" in block && block["type"] == "text") {
                assert content + "" == content;
                continue;
              }
              if "content" in block {
                content := content + block["content"];
              } else {
                assert content + "" == content;
              }
            }
            assert blocks[..|blocks|] == blocks;
          }
        case SystemRole =>
      }
      out := out + [HistoryEntry(m.role, content)];
    }
  }

  // ----- Whole conversations -----

  /** One turn: a prompt, the conversation status it found, and a run of the persistence protocol. */
  datatype Turn = Turn(prompt: string, before: ConversationStatus, steps: seq<Step>)

  ghost predicate IsTurn(t: Turn) {
    IsRun(Start(t.before), t.steps)
  }

  ghost function TurnRow(t: Turn): Message
    requires IsTurn(t)
  {
    var s := After(Start(t.before), t.steps);
    Message(AssistantRole, s.data, s.status)
  }

  function PromptRow(prompt: string): Message {
    Message(UserRole, map[Content := JString(prompt)], Completed)
  }

  /** The rows after non-overlapping turns. */
  ghost function RowsAfter(turns: seq<Turn>): seq<Message>
    requires forall t | t in turns :: IsTurn(t)
  {
    if turns == [] then []
    else
      var last := turns[|turns| - 1];
      RowsAfter(turns[..|turns| - 1]) + [PromptRow(last.prompt), TurnRow(last)]
  }

  /** The session id a turn leaves behind: the one the agent returned, if the final merge succeeded. */
  function TurnSessionId(t: Turn): string {
    if WriteExtra(true) in t.steps && Outcomes(t.steps) != [] && Outcomes(t.steps)[0].Succeeded?
    then Outcomes(t.steps)[0].sessionId else ""
  }

  lemma TurnRowSessionId(t: Turn)
    requires IsTurn(t)
    ensures RowSessionId(TurnRow(t)) == TurnSessionId(t)
  {
    StoredSessionId(t.before, t.steps);
  }

  /** The next request resumes with the id left by the last turn that left a non-empty one, and with
      none when no turn did. */
  lemma {:induction false} ResumeIdOverConversation(turns: seq<Turn>, k: nat)
    requires forall t | t in turns :: IsTurn(t)
    requires k <= |turns| && forall m | k <= m < |turns| :: TurnSessionId(turns[m]) == ""
    ensures k == 0 ==> LastSessionId(RowsAfter(turns)) == ""
    ensures k > 0 && TurnSessionId(turns[k - 1]) != "" ==>
              LastSessionId(RowsAfter(turns)) == TurnSessionId(turns[k - 1])
  {
    if turns != [] {
      var front, last := turns[..|turns| - 1], turns[|turns| - 1];
      var rows := RowsAfter(turns);
      TurnRowSessionId(last);
      assert rows[..|rows| - 1][..|rows| - 2] == RowsAfter(front);
      assert RowSessionId(rows[|rows| - 2]) == "";
      if k < |turns| {
        ResumeIdOverConversation(front, k);
      }
    }
  }

  lemma {:induction false} TextOfPrefix(a: seq<Block>, b: seq<Block>)
    requires a <= b
    ensures TextOfAll(a) <= TextOfAll(b)
  {
    if a != b {
      TextOfPrefix(a, b[..|b| - 1]);
    }
  }

  /** The fallback history of a turn is a prefix of the text its agent streamed, however the run ended;
      it is all of it, and equal to the stored `content`, once the final writes have succeeded. */
  lemma TurnTextRoundTrip(t: Turn)
    requires IsTurn(t)
    ensures EntryText(TurnRow(t)) <= StreamedText(EventsIn(t.steps))
    ensures WriteBlocks(true) in t.steps && WriteExtra(true) in t.steps ==>
              EntryText(TurnRow(t)) == StoredContent(TurnRow(t).data) == StreamedText(EventsIn(t.steps))
  {
    RunKeepsOrder(t.before, t.steps);
    BlocksCarryStreamedText(EventsIn(t.steps));
    TextOfPrefix(StoredBlocks(TurnRow(t).data), AddAll(EMPTY, EventsIn(t.steps)).blocks);
    if WriteBlocks(true) in t.steps && WriteExtra(true) in t.steps {
      StoredTextRoundTrip(t.before, t.steps);
    }
  }

  lemma {:induction false} RowsAt(turns: seq<Turn>, k: nat)
    requires forall t | t in turns :: IsTurn(t)
    requires k < |turns|
    ensures |RowsAfter(turns)| == 2 * |turns|
    ensures RowsAfter(turns)[2 * k] == PromptRow(turns[k].prompt)
    ensures RowsAfter(turns)[2 * k + 1] == TurnRow(turns[k])
  {
    if |turns| > 1 {
      RowsAt(turns[..|turns| - 1], if k < |turns| - 1 then k else 0);
    }
  }

  /** The whole fallback history: prompts and streamed texts in turn. */
  lemma HistoryOverConversation(turns: seq<Turn>, k: nat)
    requires forall t | t in turns :: IsTurn(t)
    requires k < |turns| && WriteBlocks(true) in turns[k].steps && WriteExtra(true) in turns[k].steps
    ensures |RowsAfter(turns)| == 2 * |turns|
    ensures Entries(RowsAfter(turns))[2 * k] == HistoryEntry(UserRole, turns[k].prompt)
    ensures Entries(RowsAfter(turns))[2 * k + 1] == HistoryEntry(AssistantRole, StreamedText(EventsIn(turns[k].steps)))
  {
    RowsAt(turns, k);
    TurnTextRoundTrip(turns[k]);
  }

  /** When no write fails and nothing panics, the turns that leave their session id behind are exactly
      those whose agent run succeeded. */
  lemma SuccessfulTurnsLeaveTheirId(t: Turn)
    requires IsTurn(t) && After(Start(t.before), t.steps).worker.Finished?
    requires Panic !in t.steps && WriteExtra(false) !in t.steps
    ensures exists outcome ::
              Outcomes(t.steps) == [outcome] &&
              TurnSessionId(t) == match outcome case Succeeded(sessionId) => sessionId case ExecuteFailed => ""
  {
    FinalMergeExactly(t.before, t.steps);
    assert Outcomes(t.steps) == [Outcomes(t.steps)[0]];
  }
}
