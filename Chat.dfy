/**
 * What the two chat back ends share: the `{role, content}` history entries,
 * the streamed completion they read an answer from, and `AnswerModifier`,
 * which both `Backend/Chatbot.py` and `Backend/RealtimeSearchEngine.py`
 * define with the same meaning (keep the stripped, non-blank lines).
 */
module Chat {
  import opened Wrappers
  import opened Text

  datatype Role = System | User | Assistant

  /** One `{"role": ..., "content": ...}` entry of a chat history. */
  datatype Message = Message(role: Role, content: string)

  /**
   * The outcome of a streamed completion request: the chunks' `delta.content`
   * values (`None` where a chunk carries no text), or the text of the exception
   * the client raised.
   */
  datatype Completion = Streamed(chunks: seq<Option<string>>) | Failed(error: string)

  /** A chunk's text, with a missing `delta.content` read as `""`. */
  function Delta(chunk: Option<string>): string {
    chunk.GetOr("")
  }

  /** `"".join(chunk or "" for chunk in chunks)`. */
  function Flatten(chunks: seq<Option<string>>): string
    decreases |chunks|
  {
    if chunks == [] then "" else Flatten(chunks[..|chunks| - 1]) + Delta(chunks[|chunks| - 1])
  }

  lemma {:induction false} FlattenAppend(a: seq<Option<string>>, b: seq<Option<string>>)
    ensures Flatten(a + b) == Flatten(a) + Flatten(b)
    decreases |b|
  {
    if b == [] {
      assert a + b == a;
    } else {
      var b' := b[..|b| - 1];
      assert (a + b)[..|a + b| - 1] == a + b';
      FlattenAppend(a, b');
    }
  }

  /**
   * The loop of `Backend/Chatbot.py` that adds a chunk's text to the answer
   * only when the text is non-empty: skipping the empty chunks builds the same
   * string as joining every chunk.
   */
  method CollectAnswer(chunks: seq<Option<string>>) returns (answer: string)
    ensures answer == Flatten(chunks)
  {
    answer := "";
    for i := 0 to |chunks|
      invariant answer == Flatten(chunks[..i])
    {
      assert chunks[..i + 1][..i] == chunks[..i];
      if chunks[i].Some? && chunks[i].value != "" {
        answer := answer + chunks[i].value;
      }
    }
    assert chunks[..|chunks|] == chunks;
  }

  /** The stripped forms of the non-blank `lines`, in their order. */
  function KeptLines(lines: seq<string>): (r: seq<string>)
    ensures |r| <= |lines|
    ensures forall k :: 0 <= k < |r| ==> r[k] != "" && IsStripped(r[k])
  {
    if lines == [] then []
    else (if Strip(lines[0]) == "" then [] else [Strip(lines[0])]) + KeptLines(lines[1..])
  }

  /** Keeping lines commutes with concatenating them: the order is preserved. */
  lemma {:induction false} KeptLinesAppend(a: seq<string>, b: seq<string>)
    ensures KeptLines(a + b) == KeptLines(a) + KeptLines(b)
  {
    if a == [] {
      assert a + b == b;
    } else {
      assert (a + b)[1..] == a[1..] + b;
      KeptLinesAppend(a[1..], b);
    }
  }

  /** A line is kept exactly when it is not blank, and then in its stripped form. */
  lemma KeptLinesSingle(line: string)
    ensures KeptLines([line]) == if AllSpace(line) then [] else [Strip(line)]
  {
    assert [line][1..] == [];
  }

  lemma {:induction false} KeptLinesFixed(lines: seq<string>)
    requires forall k :: 0 <= k < |lines| ==> lines[k] != "" && IsStripped(lines[k])
    ensures KeptLines(lines) == lines
  {
    if lines != [] {
      KeptLinesFixed(lines[1..]);
    }
  }

  lemma {:induction false} KeptLinesKeepOut(lines: seq<string>, c: char)
    requires forall k :: 0 <= k < |lines| ==> c !in lines[k]
    ensures forall k :: 0 <= k < |KeptLines(lines)| ==> c !in KeptLines(lines)[k]
  {
    if lines != [] {
      StripKeepsOut(lines[0], c);
      KeptLinesKeepOut(lines[1..], c);
    }
  }

  /** `AnswerModifier`: the non-blank lines of `answer`, each stripped, joined by newlines. */
  function AnswerModifier(answer: string): string
  {
    Join("\n", KeptLines(Split(answer, '\n')))
  }

  /**
   * The lines of the result are exactly the kept lines of the input: none is
   * empty, none has surrounding whitespace, and they come in input order.
   */
  lemma AnswerModifierLines(answer: string)
    ensures var kept := KeptLines(Split(answer, '\n'));
            (kept == [] <==> AnswerModifier(answer) == "")
            && (kept != [] ==> Split(AnswerModifier(answer), '\n') == kept)
  {
    var lines := Split(answer, '\n');
    var kept := KeptLines(lines);
    if kept != [] {
      KeptLinesKeepOut(lines, '\n');
      SplitJoinLines(kept);
      JoinFirst("\n", kept);
    }
  }

  /** Splitting newline-joined lines that hold no newline gives the lines back. */
  lemma SplitJoinLines(lines: seq<string>)
    requires lines != []
    requires forall k :: 0 <= k < |lines| ==> '\n' !in lines[k]
    ensures Split(Join("\n", lines), '\n') == lines
  {
    SplitJoin(lines, '\n');
  }

  lemma AnswerModifierClean(answer: string)
    ensures AnswerModifier(answer) != "" ==>
      forall line :: line in Split(AnswerModifier(answer), '\n') ==> line != "" && IsStripped(line)
  {
    AnswerModifierLines(answer);
  }

  lemma AnswerModifierIdempotent(answer: string)
    ensures AnswerModifier(AnswerModifier(answer)) == AnswerModifier(answer)
  {
    var out := AnswerModifier(answer);
    var kept := KeptLines(Split(answer, '\n'));
    AnswerModifierLines(answer);
    if kept == [] {
      assert Split(out, '\n') == [""];
      KeptLinesSingle("");
    } else {
      KeptLinesFixed(kept);
    }
  }
}
