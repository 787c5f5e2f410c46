/**
 * The general-purpose chat back end (`Backend/Chatbot.py`): one `ChatBot`
 * turn appends the query to the shared history, sends the persona, the
 * clock text and the history to the completion service, cleans the
 * streamed answer, appends it, saves the log and returns the answer with
 * blank lines removed. Any exception on the way gives a fixed apology.
 *
 * The clock text (`RealtimeInformation`) is a parameter, the completion
 * service's behaviour is the `Completion` argument, and whether the log
 * file could be written is the `saveOk` argument.
 */
module Chatbot {
  import opened Wrappers
  import opened Text
  import opened Chat

  /** What `ChatBot` returns when anything in its `try` block raised. */
  const ErrorReply := "An error occurred. Please try again."

  /** The end-of-sequence marker the model sometimes leaks into its text. */
  const EndMarker := "</s>"

  /** `answer.replace("</s>", "").strip()`. */
  function FinishAnswer(raw: string): (r: string)
    ensures IsStripped(r)
    ensures |r| <= |raw|
    ensures r == [] <==> AllSpace(Replace(raw, EndMarker, ""))
    ensures !Contains(raw, EndMarker) ==> r == Strip(raw)
  {
    Strip(Replace(raw, EndMarker, ""))
  }

  /** Cleaning twice is cleaning once, when the text holds no `'<'` to form a marker. */
  lemma FinishAnswerIdempotent(raw: string)
    requires '<' !in raw
    ensures FinishAnswer(FinishAnswer(raw)) == FinishAnswer(raw)
  {
    var r := FinishAnswer(raw);
    NoMarkerWithout(raw);
    assert Replace(raw, EndMarker, "") == raw;
    StripKeepsOut(raw, '<');
    NoMarkerWithout(r);
  }

  /** A text without `'<'` holds no end marker. */
  lemma NoMarkerWithout(s: string)
    requires '<' !in s
    ensures !Contains(s, EndMarker)
  {
    if Contains(s, EndMarker) {
      ContainsFirstChar(s, EndMarker);
    }
  }

  /** The request `ChatBot` sends: the persona, the clock text, then the whole history. */
  function Request(persona: string, info: string, history: seq<Message>): (r: seq<Message>)
    ensures |r| == |history| + 2
    ensures r[0].role == Role.System && r[0].content == persona
    ensures r[1].role == Role.System && r[1].content == info
    ensures r[2..] == history
  {
    [Message(Role.System, persona), Message(Role.System, info)] + history
  }

  /**
   * The chat history, as the module-level `messages` list of `Backend/Chatbot.py`,
   * together with the persona sent in front of it.
   */
  class ChatBot {
    var messages: seq<Message>
    const persona: string

    /**
     * Loading the chat log: its entries when the file exists, the empty
     * history when it does not (the source then writes `[]` to the file).
     */
    constructor(persona: string, log: Option<seq<Message>>)
      ensures this.persona == persona
      ensures messages == log.GetOr([])
    {
      this.persona := persona;
      messages := log.GetOr([]);
    }

    /**
     * One `ChatBot(query)` call. `request` is the message list handed to the
     * completion service; `saved` is the history written to the log file, if
     * it was written.
     */
    method Ask(query: string, info: string, completion: Completion, saveOk: bool)
      returns (reply: string, request: seq<Message>, saved: Option<seq<Message>>)
      modifies this
      ensures request == Request(persona, info, old(messages) + [Message(User, query)])
      ensures completion.Failed? ==>
        messages == old(messages) + [Message(User, query)] && reply == ErrorReply && saved == None
      ensures completion.Streamed? ==>
        var answer := FinishAnswer(Flatten(completion.chunks));
        messages == old(messages) + [Message(User, query), Message(Assistant, answer)]
        && (saveOk ==> reply == AnswerModifier(answer) && saved == Some(messages))
        && (!saveOk ==> reply == ErrorReply && saved == None)
    {
      messages := messages + [Message(User, query)];
      request := Request(persona, info, messages);
      match completion
      case Failed(_) =>
        reply, saved := ErrorReply, None;
      case Streamed(chunks) =>
        var raw := CollectAnswer(chunks);
        var answer := FinishAnswer(raw);
        messages := messages + [Message(Assistant, answer)];
        assert messages == old(messages) + [Message(User, query), Message(Assistant, answer)];
        if saveOk {
          reply, saved := AnswerModifier(answer), Some(messages);
        } else {
          reply, saved := ErrorReply, None;
        }
    }
  }

  /** A successful reply has no blank line and no line with surrounding whitespace. */
  lemma SuccessReplyClean(chunks: seq<Option<string>>)
    ensures var reply := AnswerModifier(FinishAnswer(Flatten(chunks)));
      reply != "" ==> forall line :: line in Split(reply, '\n') ==> line != "" && IsStripped(line)
  {
    AnswerModifierClean(FinishAnswer(Flatten(chunks)));
  }

  /**
   * A streamed answer is unaffected by chunks without text: appending such a
   * chunk leaves the history entry of the turn as it was.
   */
  lemma EmptyChunkIgnored(chunks: seq<Option<string>>, empty: Option<string>)
    requires empty == None || empty == Some("")
    ensures FinishAnswer(Flatten(chunks + [empty])) == FinishAnswer(Flatten(chunks))
  {
    FlattenAppend(chunks, [empty]);
    assert Flatten([empty]) == Flatten([]) + Delta(empty);
    assert Flatten(chunks) + Flatten([empty]) == Flatten(chunks);
  }
}
