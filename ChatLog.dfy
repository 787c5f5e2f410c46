/**
 * The chat-log view of `main.py` (`ChatLogIntegration`): the saved history
 * becomes one line per user or assistant entry, with the configured names
 * put in place of the role words; system entries are not shown.
 */
module ChatLog {
  import opened Wrappers
  import opened Text
  import opened Chat

  /** The line one log entry contributes; system entries contribute none. */
  function EntryLine(m: Message): (r: string)
    ensures r == "" <==> m.role == Role.System
  {
    match m.role
    case User => "User: " + m.content + " \U{1F604}\n"
    case Assistant => "Assistant: " + m.content + " \U{1F31F}\n"
    case System => ""
  }

  function EntryLines(entries: seq<Message>): (r: seq<string>)
    ensures |r| == |entries|
    ensures forall k :: 0 <= k < |entries| ==> r[k] == EntryLine(entries[k])
  {
    seq(|entries|, k requires 0 <= k < |entries| => EntryLine(entries[k]))
  }

  /** `formatted_chatlog` after the loop: the entries' lines, in order. */
  function ChatLogText(entries: seq<Message>): string {
    Concat(EntryLines(entries))
  }

  /** The two `replace` calls that put the configured names in. */
  function Personalise(text: string, username: string, assistantname: string): string {
    Replace(Replace(text, "User", username + " "), "Assistant", assistantname + " ")
  }

  /**
   * `ChatLogIntegration` up to the text it passes to the GUI's
   * `AnswerModifier`; an unreadable log reads as empty.
   */
  method ChatLogIntegration(log: Option<seq<Message>>, username: string, assistantname: string) returns (text: string)
    ensures text == Personalise(ChatLogText(log.GetOr([])), username, assistantname)
  {
    var entries := log.GetOr([]);
    var formatted := "";
    for i := 0 to |entries|
      invariant formatted == ChatLogText(entries[..i])
    {
      assert entries[..i + 1] == entries[..i] + [entries[i]];
      ChatLogLast(entries[..i], entries[i]);
      if entries[i].role == User {
        formatted := formatted + ("User: " + entries[i].content + " \U{1F604}\n");
      } else if entries[i].role == Assistant {
        formatted := formatted + ("Assistant: " + entries[i].content + " \U{1F31F}\n");
      }
    }
    assert entries[..|entries|] == entries;
    formatted := Replace(formatted, "User", username + " ");
    text := Replace(formatted, "Assistant", assistantname + " ");
  }

  /** A further entry adds its line at the end. */
  lemma ChatLogLast(entries: seq<Message>, m: Message)
    ensures ChatLogText(entries + [m]) == ChatLogText(entries) + EntryLine(m)
  {
    var lines := EntryLines(entries + [m]);
    assert lines[..|entries|] == EntryLines(entries);
  }

  /** The log text of two histories in a row is their texts in a row. */
  lemma ChatLogAppend(a: seq<Message>, b: seq<Message>)
    ensures ChatLogText(a + b) == ChatLogText(a) + ChatLogText(b)
  {
    assert EntryLines(a + b) == EntryLines(a) + EntryLines(b);
    ConcatAppend(EntryLines(a), EntryLines(b));
  }

  /** The log text is empty exactly when the log holds no user or assistant entry. */
  lemma ChatLogEmpty(entries: seq<Message>)
    ensures ChatLogText(entries) == "" <==> forall k :: 0 <= k < |entries| ==> entries[k].role == Role.System
  {
    ConcatEmpty(EntryLines(entries));
  }
}
