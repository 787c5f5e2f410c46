/**
 * The web-search back end (`Backend/RealtimeSearchEngine.py`): `GoogleSearch`
 * formats the first five search results into a summary for display and a
 * plain "title: snippet" text for the model; a `RealtimeSearchEngine` turn
 * appends the prompt to the history, puts four system entries in front of
 * it, asks the completion service, appends the answer (or the error text)
 * and returns the answer with blank lines removed.
 *
 * The search service's answer is the `SearchResponse` argument, the clock
 * text (`SystemInformation`) is a parameter and the completion service's
 * behaviour is the `Completion` argument.
 */
module RealtimeSearchEngine {
  import opened Wrappers
  import opened Text
  import opened Chat

  /** One element of the response's `items` list; a key may be missing. */
  datatype SearchItem = SearchItem(title: Option<string>, snippet: Option<string>, link: Option<string>)

  /**
   * What the search request produced: the `items` list (empty when the key is
   * missing), or the text of the `RequestException` it raised.
   */
  datatype SearchResponse = Items(items: seq<SearchItem>) | RequestError(error: string)

  /** `GoogleSearch` returns a bare string when there are no results, a pair otherwise. */
  datatype SearchReturn = Single(text: string) | Pair(summary: string, extracted: string)

  /** At most this many results are formatted. */
  const MaxResults := 5

  const NoResults := "\U{26A0}\U{FE0F} No relevant search results found."
  const FetchError := "\U{26A0}\U{FE0F} Error fetching search results: "
  const AiError := "\U{26A0}\U{FE0F} AI system error: "

  function Title(item: SearchItem): string { item.title.GetOr("No Title") }
  function Snippet(item: SearchItem): string { item.snippet.GetOr("No Description Available.") }
  function Link(item: SearchItem): string { item.link.GetOr("#") }

  /** The results that are formatted: the first `MaxResults` of them. */
  function Used(items: seq<SearchItem>): (r: seq<SearchItem>)
    ensures |r| == if |items| <= MaxResults then |items| else MaxResults
    ensures r == items[..|r|]
  {
    if |items| <= MaxResults then items else items[..MaxResults]
  }

  function Header(query: string): string {
    "\U{1F50E} **Search results for:** `" + query + "`\n\n"
  }

  /** The display block of one result: bold title, snippet, and a link line, then a blank line. */
  function Block(item: SearchItem): string {
    "\U{1F539} **" + Title(item) + "**\n\U{1F4C4} " + Snippet(item) + "\n\U{1F517} [Read more](" + Link(item) + ")\n\n"
  }

  /** The line of one result in the text handed to the model. */
  function Line(item: SearchItem): string {
    Title(item) + ": " + Snippet(item)
  }

  /** The display blocks of `items`, in order. */
  function Blocks(items: seq<SearchItem>): string
    decreases |items|
  {
    if items == [] then "" else Blocks(items[..|items| - 1]) + Block(items[|items| - 1])
  }

  function Lines(items: seq<SearchItem>): (r: seq<string>)
    ensures |r| == |items|
    ensures forall k :: 0 <= k < |items| ==> r[k] == Line(items[k])
  {
    seq(|items|, k requires 0 <= k < |items| => Line(items[k]))
  }

  /** `search_summary.strip()` after the loop. */
  function Summary(query: string, items: seq<SearchItem>): string {
    Strip(Header(query) + Blocks(Used(items)))
  }

  /** `"\n".join(extracted_texts)` after the loop. */
  function Extracted(items: seq<SearchItem>): string {
    Join("\n", Lines(Used(items)))
  }

  /** What `GoogleSearch` returns for a response. */
  function SearchOutcome(query: string, response: SearchResponse): (r: SearchReturn)
    ensures response.RequestError? ==> r == Pair(FetchError + response.error, "")
    ensures response.Items? && response.items == [] ==> r == Single(NoResults)
    ensures response.Items? && response.items != [] ==> r.Pair?
  {
    match response
    case RequestError(e) => Pair(FetchError + e, "")
    case Items(items) =>
      if items == [] then Single(NoResults) else Pair(Summary(query, items), Extracted(items))
  }

  /** The formatting loop of `GoogleSearch`. */
  method GoogleSearch(query: string, response: SearchResponse) returns (r: SearchReturn)
    ensures r == SearchOutcome(query, response)
  {
    match response
    case RequestError(e) =>
      r := Pair(FetchError + e, "");
    case Items(items) =>
      if items == [] {
        r := Single(NoResults);
        return;
      }
      var summary, texts := FormatResults(query, Used(items));
      r := Pair(Strip(summary), Join("\n", texts));
  }

  /** The loop body of `GoogleSearch`, over the results that are used. */
  method FormatResults(query: string, used: seq<SearchItem>) returns (summary: string, texts: seq<string>)
    ensures summary == Header(query) + Blocks(used)
    ensures texts == Lines(used)
  {
    summary := Header(query);
    texts := [];
    for i := 0 to |used|
      invariant summary == Header(query) + Blocks(used[..i])
      invariant |texts| == i && forall k :: 0 <= k < i ==> texts[k] == Line(used[k])
    {
      assert used[..i + 1][..i] == used[..i];
      texts := texts + [Line(used[i])];
      summary := summary + Block(used[i]);
    }
    assert used[..|used|] == used;
  }

  /**
   * The text for the model has one line per used result, in order, when no
   * title or snippet holds a line break.
   */
  lemma ExtractedLines(items: seq<SearchItem>)
    requires items != []
    requires forall item :: item in Used(items) ==> '\n' !in Title(item) && '\n' !in Snippet(item)
    ensures Split(Extracted(items), '\n') == Lines(Used(items))
    ensures |Split(Extracted(items), '\n')| <= MaxResults
  {
    var used := Used(items);
    var lines := Lines(used);
    forall k | 0 <= k < |lines|
      ensures '\n' !in lines[k]
    {
      assert used[k] in used;
      assert lines[k] == Title(used[k]) + ": " + Snippet(used[k]);
    }
    SplitJoin(lines, '\n');
  }

  /**
   * Stripping a text that starts with a visible character and ends with
   * `")\n\n"` removes just the two line breaks.
   */
  lemma StripBeforeBlankLine(s: string)
    requires |s| >= 3 && !IsSpace(s[0]) && s[|s| - 3..] == ")\n\n"
    ensures Strip(s) == s[..|s| - 2]
  {
    assert s[|s| - 1] == s[|s| - 3..][2];
    var t := s[..|s| - 1];
    assert t[|t| - 1] == s[|s| - 3..][1];
    var u := s[..|s| - 2];
    assert t[..|t| - 1] == u;
    assert u[|u| - 1] == s[|s| - 3..][0];
    assert Strip(s) == Strip(t) == Strip(u) == u;
  }

  lemma BlockEnding(item: SearchItem)
    ensures var b := Block(item); |b| >= 3 && b[|b| - 3..] == ")\n\n"
  {
    var b := Block(item);
    var x := "\U{1F539} **" + Title(item) + "**\n\U{1F4C4} " + Snippet(item) + "\n\U{1F517} [Read more](" + Link(item);
    assert b == x + ")\n\n";
  }

  /**
   * The summary is the header followed by the result blocks, without the blank
   * line after the last block: stripping removes that and nothing else.
   */
  lemma SummaryShape(query: string, items: seq<SearchItem>)
    requires items != []
    ensures var full := Header(query) + Blocks(Used(items));
      |full| >= 2 && Summary(query, items) == full[..|full| - 2]
  {
    var used := Used(items);
    var b := Block(used[|used| - 1]);
    var full := Header(query) + Blocks(used);
    assert full == (Header(query) + Blocks(used[..|used| - 1])) + b;
    BlockEnding(used[|used| - 1]);
    assert full[|full| - 3..] == b[|b| - 3..];
    assert full[0] == '\U{1F50E}';
    StripBeforeBlankLine(full);
  }

  /** The four system entries put in front of the history, in their fixed order. */
  function Context(persona: string, clock: string, summary: string, extracted: string): (r: seq<Message>)
    ensures |r| == 4 && forall k :: 0 <= k < 4 ==> r[k].role == Role.System
    ensures r[0].content == persona && r[1].content == clock
    ensures r[2].content == summary && r[3].content == "Relevant search data:\n" + extracted
  {
    [Message(Role.System, persona), Message(Role.System, clock),
     Message(Role.System, summary), Message(Role.System, "Relevant search data:\n" + extracted)]
  }

  /** The stored answer: the streamed text stripped, or the error text of the failed call. */
  function AnswerText(completion: Completion): (r: string)
    ensures completion.Streamed? ==> r == Strip(Flatten(completion.chunks))
    ensures completion.Failed? ==> r == AiError + completion.error
  {
    match completion
    case Streamed(chunks) => Strip(Flatten(chunks))
    case Failed(e) => AiError + e
  }

  /**
   * `search_summary, extracted_search_text = GoogleSearch(prompt)`, as Python
   * unpacks it: a pair unpacks into its parts, and a bare string unpacks only
   * when it has exactly two characters; otherwise the assignment raises.
   */
  function Unpack(r: SearchReturn): (p: Option<(string, string)>)
    ensures r.Pair? ==> p == Some((r.summary, r.extracted))
    ensures r.Single? ==> (p.Some? <==> |r.text| == 2)
  {
    match r
    case Pair(s, e) => Some((s, e))
    case Single(t) => if |t| == 2 then Some(([t[0]], [t[1]])) else None
  }

  /** A search without results makes the unpacking raise. */
  lemma NoResultsRaises(query: string)
    ensures Unpack(SearchOutcome(query, Items([]))) == None
  {
    assert |NoResults| == 36;
  }

  /**
   * The evidently intended reading of the no-results case: the message is the
   * summary and there is no search data. Wherever the unpacking succeeds on a
   * real search outcome, this agrees with it.
   */
  function PairOf(r: SearchReturn): (p: (string, string))
    ensures r.Single? ==> p == (r.text, "")
    ensures r.Pair? ==> p == (r.summary, r.extracted)
  {
    match r
    case Pair(s, e) => (s, e)
    case Single(t) => (t, "")
  }

  lemma PairOfAgrees(query: string, response: SearchResponse)
    ensures Unpack(SearchOutcome(query, response)).Some? ==>
      Unpack(SearchOutcome(query, response)).value == PairOf(SearchOutcome(query, response))
  {
    if response == Items([]) {
      NoResultsRaises(query);
    }
  }

  /** The chat history of `Backend/RealtimeSearchEngine.py`, with its persona. */
  class SearchEngine {
    var messages: seq<Message>
    const persona: string

    /** The loaded chat log, or the empty history when it is missing or not valid JSON. */
    constructor(persona: string, log: Option<seq<Message>>)
      ensures this.persona == persona
      ensures messages == log.GetOr([])
    {
      this.persona := persona;
      messages := log.GetOr([]);
    }

    /**
     * `RealtimeSearchEngine(prompt)` as written: `reply == None` stands for the
     * exception the unpacking raises, after the prompt was appended and before
     * any request was made.
     */
    method AnswerAsWritten(prompt: string, clock: string, response: SearchResponse, completion: Completion)
      returns (reply: Option<string>, request: Option<seq<Message>>)
      modifies this
      ensures Unpack(SearchOutcome(prompt, response)).None? ==>
        reply == None && request == None && messages == old(messages) + [Message(User, prompt)]
      ensures Unpack(SearchOutcome(prompt, response)).Some? ==>
        var parts := Unpack(SearchOutcome(prompt, response)).value;
        request == Some(Context(persona, clock, parts.0, parts.1) + old(messages) + [Message(User, prompt)])
        && messages == old(messages) + [Message(User, prompt), Message(Assistant, AnswerText(completion))]
        && reply == Some(AnswerModifier(AnswerText(completion)))
    {
      messages := messages + [Message(User, prompt)];
      var found := GoogleSearch(prompt, response);
      match Unpack(found)
      case None =>
        reply, request := None, None;
      case Some((summary, extracted)) =>
        request := Some(Context(persona, clock, summary, extracted) + messages);
        assert request.value == Context(persona, clock, summary, extracted) + old(messages) + [Message(User, prompt)];
        var answer := AnswerText(completion);
        messages := messages + [Message(Assistant, answer)];
        assert messages == old(messages) + [Message(User, prompt), Message(Assistant, answer)];
        reply := Some(AnswerModifier(answer));
    }

    /**
     * `RealtimeSearchEngine(prompt)` with the no-results case read as intended:
     * every turn appends the prompt and then the answer, even when the
     * completion fails, and returns the cleaned answer.
     */
    method Answer(prompt: string, clock: string, response: SearchResponse, completion: Completion)
      returns (reply: string, request: seq<Message>)
      modifies this
      ensures var (summary, extracted) := PairOf(SearchOutcome(prompt, response));
        request == Context(persona, clock, summary, extracted) + old(messages) + [Message(User, prompt)]
      ensures messages == old(messages) + [Message(User, prompt), Message(Assistant, AnswerText(completion))]
      ensures reply == AnswerModifier(AnswerText(completion))
    {
      messages := messages + [Message(User, prompt)];
      var found := GoogleSearch(prompt, response);
      var (summary, extracted) := PairOf(found);
      request := Context(persona, clock, summary, extracted) + messages;
      var answer := AnswerText(completion);
      messages := messages + [Message(Assistant, answer)];
      assert messages == old(messages) + [Message(User, prompt), Message(Assistant, answer)];
      reply := AnswerModifier(answer);
    }
  }

  /** A failed completion still yields a non-empty reply: the error text. */
  lemma FailedCompletionReply(error: string)
    ensures AnswerModifier(AnswerText(Failed(error))) != ""
  {
    var answer := AnswerText(Failed(error));
    var lines := Split(answer, '\n');
    assert answer[0] == '\U{26A0}';
    assert lines[0][0] == '\U{26A0}';
    assert !AllSpace(lines[0]);
    assert KeptLines(lines)[0] == Strip(lines[0]);
    AnswerModifierLines(answer);
  }
}
