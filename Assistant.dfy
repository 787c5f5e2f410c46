/**
 * The assistant's main program (`main.py`): the routing of one turn's
 * classified intents (`MainExecution`), the listening loop (`FirstThread`)
 * with its sleep, wake and shutdown transitions, the start-up checks, the
 * greeting and the chat-log formatting.
 *
 * The speech recogniser, the classifier `FirstLayerDMM`, the clap detector
 * and the clock are inputs. The GUI's status and microphone files are the
 * `status` and `mic` fields, holding the very strings the program writes.
 * The chat and search back ends are only recorded as a `Route` with the
 * query they are given, except that the search engine's response decides
 * whether the turn raises; `Automation` is the model of
 * `Backend/Automation.py` run with its handlers as a parameter.
 */
module Assistant {
  import opened Wrappers
  import opened Text
  import opened Chat
  import Automation
  import ImageGeneration
  import RealtimeSearchEngine

  /** The intent prefixes that send a turn to `Automation`. */
  const Functions: seq<string> :=
    ["open", "close", "play", "system", "content", "google search", "youtube search", "write", "create presentation"]

  const ImagePhrase := "generate image"
  const PresentationPhrase := "create presentation"

  /** `G`: some intent starts with `"general"`. */
  predicate HasGeneral(decision: seq<string>) {
    exists k :: 0 <= k < |decision| && StartsWith(decision[k], "general")
  }

  /** `R`: some intent starts with `"realtime"`. */
  predicate HasRealtime(decision: seq<string>) {
    exists k :: 0 <= k < |decision| && StartsWith(decision[k], "realtime")
  }

  predicate IsQuery(intent: string) {
    StartsWith(intent, "general") || StartsWith(intent, "realtime")
  }

  /** `" ".join(intent.split()[1:])`: the intent without its first word. */
  function Remainder(intent: string): string {
    var words := Tokens(intent);
    if words == [] then "" else Join(" ", words[1..])
  }

  /** The remainders of the general and realtime intents, in order. */
  function QueryParts(decision: seq<string>): (r: seq<string>)
    ensures |r| <= |decision|
  {
    if decision == [] then []
    else QueryParts(decision[..|decision| - 1]) + QueryPart(decision[|decision| - 1])
  }

  /** What one intent contributes to the merged query. */
  function QueryPart(intent: string): seq<string> {
    if IsQuery(intent) then [Remainder(intent)] else []
  }

  /** `Merged_query`. */
  function MergedQuery(decision: seq<string>): string {
    Join(" and ", QueryParts(decision))
  }

  /** Merging keeps the intents' order: the parts of a concatenation are concatenated. */
  lemma {:induction false} QueryPartsAppend(a: seq<string>, b: seq<string>)
    ensures QueryParts(a + b) == QueryParts(a) + QueryParts(b)
    decreases |b|
  {
    if b == [] {
      assert a + b == a;
    } else {
      var b' := b[..|b| - 1];
      assert (a + b)[..|a + b| - 1] == a + b';
      assert (a + b)[|a + b| - 1] == b[|b| - 1];
      QueryPartsAppend(a, b');
    }
  }

  /** There is something to merge exactly when some intent is a general or realtime one. */
  lemma {:induction false} QueryPartsEmpty(decision: seq<string>)
    ensures QueryParts(decision) == [] <==> !HasGeneral(decision) && !HasRealtime(decision)
  {
    if decision != [] {
      var init, last := decision[..|decision| - 1], decision[|decision| - 1];
      QueryPartsEmpty(init);
      SomeStartsWithStep(decision, init, "general");
      SomeStartsWithStep(decision, init, "realtime");
    }
  }

  /** Some intent of a non-empty list starts with `w` exactly when one before the last or the last does. */
  lemma SomeStartsWithStep(decision: seq<string>, init: seq<string>, w: string)
    requires decision != [] && init == decision[..|decision| - 1]
    ensures (exists k :: 0 <= k < |decision| && StartsWith(decision[k], w)) <==>
      (exists k :: 0 <= k < |init| && StartsWith(init[k], w)) || StartsWith(decision[|decision| - 1], w)
  {
    if exists k :: 0 <= k < |decision| && StartsWith(decision[k], w) {
      var k :| 0 <= k < |decision| && StartsWith(decision[k], w);
      if k < |init| {
        assert init[k] == decision[k];
      }
    }
    if exists k :: 0 <= k < |init| && StartsWith(init[k], w) {
      var k :| 0 <= k < |init| && StartsWith(init[k], w);
      assert decision[k] == init[k];
    }
  }

  /** The first word of a text that starts with a whitespace-free word. */
  lemma {:induction false} WordOf(w: string, rest: string)
    requires NoSpace(w)
    requires rest == [] || IsSpace(rest[0])
    ensures Word(w + rest) == w
  {
    if w != [] {
      assert (w + rest)[1..] == w[1..] + rest;
      WordOf(w[1..], rest);
    } else {
      assert w + rest == rest;
    }
  }

  /** A whitespace-free word is one token. */
  lemma OneWord(word: string)
    requires word != [] && NoSpace(word)
    ensures Tokens(word) == [word]
  {
    WordOf(word, []);
    assert word + [] == word;
    assert word[|word|..] == [];
  }

  /** Leading whitespace does not change the tokens. */
  lemma TokensAfterSpace(c: char, s: string)
    requires IsSpace(c)
    ensures Tokens([c] + s) == Tokens(s)
  {
    assert ([c] + s)[1..] == s;
  }

  /** Two words separated by one space tokenise into those words. */
  lemma TwoWords(head: string, word: string)
    requires head != [] && word != [] && NoSpace(head) && NoSpace(word)
    ensures Tokens(head + " " + word) == [head, word]
  {
    var s := head + " " + word;
    var rest := " " + word;
    assert s == head + rest;
    WordOf(head, rest);
    assert s[|head|..] == rest;
    assert Tokens(s) == [head] + Tokens(rest);
    TokensAfterSpace(' ', word);
    OneWord(word);
  }

  /** The remainder of a two-word intent is its second word. */
  lemma RemainderOf(head: string, word: string)
    requires head != [] && word != [] && NoSpace(head) && NoSpace(word)
    ensures Remainder(head + " " + word) == word
  {
    TwoWords(head, word);
    assert [head, word][1..] == [word];
  }

  /** A general and a realtime intent of one word each merge into `"<a> and <b>"`. */
  lemma MergedPair(a: string, b: string)
    requires a != [] && b != [] && NoSpace(a) && NoSpace(b)
    ensures MergedQuery(["general " + a, "realtime " + b]) == a + " and " + b
  {
    var g := "general " + a;
    var r := "realtime " + b;
    QueryPartOf("general ", a);
    QueryPartOf("realtime ", b);
    QueryPartsOfTwo(g, r);
    assert Join(" and ", [a, b]) == a + " and " + Join(" and ", [b]);
  }

  /** A query intent of one word after its kind and a space contributes that word. */
  lemma QueryPartOf(kind: string, word: string)
    requires kind == "general " || kind == "realtime "
    requires word != [] && NoSpace(word)
    ensures QueryPart(kind + word) == [word]
  {
    var head := kind[..|kind| - 1];
    assert kind == head + " ";
    assert NoSpace(head);
    assert kind + word == head + " " + word;
    assert (kind + word)[..|head|] == head;
    RemainderOf(head, word);
  }

  lemma QueryPartsOfTwo(x: string, y: string)
    ensures QueryParts([x, y]) == QueryPart(x) + QueryPart(y)
  {
    assert [x, y][..1] == [x] && [x][..0] == [];
  }

  lemma ExampleWords()
    ensures NoSpace("weather") && NoSpace("news")
    ensures "general weather" == "general " + "weather" && "realtime news" == "realtime " + "news"
  {
  }

  /** `["general weather", "realtime news"]` merges into `"weather and news"`. */
  lemma MergedQueryExample(general: string, realtime: string)
    requires general == "general weather" && realtime == "realtime news"
    ensures MergedQuery([general, realtime]) == "weather and news"
  {
    ExampleWords();
    MergedPair("weather", "news");
  }

  /** `ImageGenerationQuery`: the last intent mentioning image generation, with the phrase removed. */
  function ImagePrompt(decision: seq<string>): (r: Option<string>)
    ensures r.Some? <==> exists k :: 0 <= k < |decision| && Contains(decision[k], ImagePhrase)
    decreases |decision|
  {
    if decision == [] then None
    else
      var last := decision[|decision| - 1];
      if Contains(last, ImagePhrase) then Some(Replace(last, "generate image ", ""))
      else
        var r := ImagePrompt(decision[..|decision| - 1]);
        assert forall k :: 0 <= k < |decision| - 1 ==> decision[..|decision| - 1][k] == decision[k];
        r
  }

  /** Among the intents that mention image generation, the last one gives the prompt. */
  lemma {:induction false} ImagePromptIsLast(decision: seq<string>, k: nat)
    requires k < |decision| && Contains(decision[k], ImagePhrase)
    requires forall j :: k < j < |decision| ==> !Contains(decision[j], ImagePhrase)
    ensures ImagePrompt(decision) == Some(Replace(decision[k], "generate image ", ""))
    decreases |decision|
  {
    if k < |decision| - 1 {
      var init := decision[..|decision| - 1];
      assert init[k] == decision[k];
      ImagePromptIsLast(init, k);
    }
  }

  /** The fields `MainExecution` fills in for a presentation. */
  datatype Presentation = Presentation(topic: string, presenter: string, date: string, company: string)

  const Company := "Your Company Name Here"
  const NoPresentation := Presentation("", "", "", Company)

  function PresentationParts(intent: string): seq<string> {
    Tokens(Replace(intent, "create presentation ", ""))
  }

  /** An intent that reaches the presentation branch and carries at least three words. */
  predicate SetsDetails(intent: string) {
    !Contains(intent, ImagePhrase) && Contains(intent, PresentationPhrase) && |PresentationParts(intent)| >= 3
  }

  /** `PresentationDetails`: the first three words of the last intent that sets them. */
  function PresentationOf(decision: seq<string>): (r: Presentation)
    ensures r.company == Company
    ensures r == NoPresentation <==> forall k :: 0 <= k < |decision| ==> !SetsDetails(decision[k])
    decreases |decision|
  {
    if decision == [] then NoPresentation
    else
      var last := decision[|decision| - 1];
      if SetsDetails(last) then
        var parts := PresentationParts(last);
        assert parts[0] != "";
        Presentation(parts[0], parts[1], parts[2], Company)
      else
        var r := PresentationOf(decision[..|decision| - 1]);
        assert forall k :: 0 <= k < |decision| - 1 ==> decision[..|decision| - 1][k] == decision[k];
        r
  }

  /** `PresentationExecution`: some intent reached the presentation branch. */
  predicate PresentationRequested(decision: seq<string>) {
    exists k :: 0 <= k < |decision| && !Contains(decision[k], ImagePhrase) && Contains(decision[k], PresentationPhrase)
  }

  /** An intent with both phrases goes to the image branch only. */
  lemma BothPhrasesImageOnly(decision: seq<string>, intent: string)
    requires Contains(intent, ImagePhrase) && Contains(intent, PresentationPhrase)
    ensures ImagePrompt(decision + [intent]) == Some(Replace(intent, "generate image ", ""))
    ensures PresentationOf(decision + [intent]) == PresentationOf(decision)
    ensures PresentationRequested(decision + [intent]) == PresentationRequested(decision)
  {
    var d := decision + [intent];
    assert d[..|d| - 1] == decision;
    assert forall k :: 0 <= k < |decision| ==> d[k] == decision[k];
  }

  lemma ImagePromptStep(decision: seq<string>, i: nat)
    requires i < |decision|
    ensures ImagePrompt(decision[..i + 1]) ==
      if Contains(decision[i], ImagePhrase) then Some(Replace(decision[i], "generate image ", ""))
      else ImagePrompt(decision[..i])
  {
    assert decision[..i + 1][..i] == decision[..i];
  }

  lemma PresentationOfStep(decision: seq<string>, i: nat)
    requires i < |decision|
    ensures PresentationOf(decision[..i + 1]) ==
      if SetsDetails(decision[i]) then
        var parts := PresentationParts(decision[i]);
        Presentation(parts[0], parts[1], parts[2], Company)
      else PresentationOf(decision[..i])
  {
    assert decision[..i + 1][..i] == decision[..i];
  }

  lemma PresentationRequestedStep(decision: seq<string>, i: nat)
    requires i < |decision|
    ensures PresentationRequested(decision[..i + 1]) <==>
      PresentationRequested(decision[..i]) || (!Contains(decision[i], ImagePhrase) && Contains(decision[i], PresentationPhrase))
  {
    var prefix := decision[..i + 1];
    assert prefix[i] == decision[i];
    assert forall k :: 0 <= k < i ==> prefix[k] == decision[..i][k];
  }

  /**
   * The first loop of `MainExecution`: the image prompt, the presentation
   * fields and the presentation flag.
   */
  method ScanIntents(decision: seq<string>) returns (image: Option<string>, details: Presentation, presenting: bool)
    ensures image == ImagePrompt(decision)
    ensures details == PresentationOf(decision)
    ensures presenting == PresentationRequested(decision)
  {
    image, details, presenting := None, NoPresentation, false;
    for i := 0 to |decision|
      invariant image == ImagePrompt(decision[..i])
      invariant details == PresentationOf(decision[..i])
      invariant presenting == PresentationRequested(decision[..i])
    {
      ImagePromptStep(decision, i);
      PresentationOfStep(decision, i);
      PresentationRequestedStep(decision, i);
      if Contains(decision[i], ImagePhrase) {
        image := Some(Replace(decision[i], "generate image ", ""));
      } else if Contains(decision[i], PresentationPhrase) {
        var parts := Tokens(Replace(decision[i], "create presentation ", ""));
        if |parts| >= 3 {
          details := details.(topic := parts[0], presenter := parts[1], date := parts[2]);
        }
        presenting := true;
      }
    }
    assert decision[..|decision|] == decision;
  }

  /** An intent that starts with an entry of `Functions`, as a raw prefix. */
  predicate IntentIsTask(intent: string) {
    exists k :: 0 <= k < |Functions| && StartsWith(intent, Functions[k])
  }

  /** `TaskExecution` after the second loop of `MainExecution`. */
  predicate TaskDetected(decision: seq<string>) {
    exists k :: 0 <= k < |decision| && IntentIsTask(decision[k])
  }

  method DetectTask(decision: seq<string>) returns (task: bool)
    ensures task == TaskDetected(decision)
  {
    task := false;
    for i := 0 to |decision|
      invariant task == TaskDetected(decision[..i])
    {
      assert forall k :: 0 <= k < i ==> decision[..i + 1][k] == decision[..i][k];
      assert decision[..i + 1][i] == decision[i];
      if !task {
        if IntentIsTask(decision[i]) {
          task := true;
        }
      }
    }
    assert decision[..|decision|] == decision;
  }

  /** Prefixes match without a word boundary: `"open"` followed by anything is a task. */
  lemma RawPrefixIsTask(rest: string)
    ensures IntentIsTask("open" + rest)
  {
    assert Functions[0] == "open";
    assert ("open" + rest)[..4] == "open";
  }

  /** Where `MainExecution` sends a turn, with the query each back end is given. */
  datatype Route =
    | Image(prompt: string)
    | Automate(commands: seq<string>)
    | Search(query: string)
    | General(query: string)
    | RealtimeChat(query: string)
    | Shutdown
    | Unrouted

  /** The branch of the last loop of `MainExecution` that an intent takes, if any. */
  function FallbackOf(intent: string): Option<Route> {
    if Contains(intent, "general") then Some(General(Replace(intent, "general ", "")))
    else if Contains(intent, "realtime") then Some(RealtimeChat(Replace(intent, "realtime ", "")))
    else if Contains(intent, "exit") then Some(Shutdown)
    else None
  }

  /** The last loop of `MainExecution`: the first intent with a branch decides. */
  function Fallback(decision: seq<string>): (r: Route)
    ensures r.General? || r.RealtimeChat? || r.Shutdown? || r.Unrouted?
  {
    if decision == [] then Unrouted
    else match FallbackOf(decision[0])
      case Some(r) => r
      case None => Fallback(decision[1..])
  }

  lemma {:induction false} FallbackFirst(decision: seq<string>, k: nat)
    requires k < |decision| && FallbackOf(decision[k]).Some?
    requires forall j :: 0 <= j < k ==> FallbackOf(decision[j]).None?
    ensures Fallback(decision) == FallbackOf(decision[k]).value
  {
    if k > 0 {
      assert decision[1..][k - 1] == decision[k];
      assert forall j :: 0 <= j < k - 1 ==> decision[1..][j] == decision[j + 1];
      FallbackFirst(decision[1..], k - 1);
    }
  }

  lemma {:induction false} FallbackNone(decision: seq<string>)
    requires forall j :: 0 <= j < |decision| ==> FallbackOf(decision[j]).None?
    ensures Fallback(decision) == Unrouted
  {
    if decision != [] {
      assert forall j :: 0 <= j < |decision| - 1 ==> decision[1..][j] == decision[j + 1];
      FallbackNone(decision[1..]);
    }
  }

  /**
   * The last loop of `MainExecution`, returning the branch it takes; the
   * status changes and the call of that branch are the caller's.
   */
  method FallbackScan(decision: seq<string>) returns (route: Route)
    ensures route == Fallback(decision)
  {
    for i := 0 to |decision|
      invariant Fallback(decision) == Fallback(decision[i..])
    {
      assert decision[i..][0] == decision[i] && decision[i..][1..] == decision[i + 1..];
      if Contains(decision[i], "general") {
        return General(Replace(decision[i], "general ", ""));
      } else if Contains(decision[i], "realtime") {
        return RealtimeChat(Replace(decision[i], "realtime ", ""));
      } else if Contains(decision[i], "exit") {
        return Shutdown;
      }
    }
    assert decision[|decision|..] == [];
    return Unrouted;
  }

  /**
   * The routing of `MainExecution`, first match: image generation, then
   * automation, then the search engine when some intent starts with
   * `"realtime"` (`G and R or R`), then the last loop.
   */
  function Decide(decision: seq<string>): (r: Route)
    ensures r.Image? <==> exists k :: 0 <= k < |decision| && Contains(decision[k], ImagePhrase)
    ensures r.Automate? <==> ImagePrompt(decision).None? && TaskDetected(decision)
    ensures r.Automate? ==> r.commands == decision
    ensures r.Search? <==> ImagePrompt(decision).None? && !TaskDetected(decision) && HasRealtime(decision)
    ensures r.Search? ==> r.query == MergedQuery(decision)
  {
    match ImagePrompt(decision)
    case Some(p) => Image(p)
    case None =>
      if TaskDetected(decision) then Automate(decision)
      else if HasRealtime(decision) then Search(MergedQuery(decision))
      else Fallback(decision)
  }

  /** `Decide` from the values the first two loops and the `R` test compute. */
  lemma DecideBranches(decision: seq<string>, image: Option<string>, task: bool, realtime: bool)
    requires image == ImagePrompt(decision) && task == TaskDetected(decision) && realtime == HasRealtime(decision)
    ensures Decide(decision) ==
      if image.Some? then Image(image.value)
      else if task then Automate(decision)
      else if realtime then Search(MergedQuery(decision))
      else Fallback(decision)
  {
  }

  /**
   * The routing part of `MainExecution`: the `G`/`R` tests, the merged query,
   * the first two loops, then the first branch that applies.
   */
  method DecideRoute(decision: seq<string>) returns (route: Route)
    ensures route == Decide(decision)
  {
    var g := exists k :: 0 <= k < |decision| && StartsWith(decision[k], "general");
    var r := exists k :: 0 <= k < |decision| && StartsWith(decision[k], "realtime");
    var merged := Join(" and ", QueryParts(decision));
    var image, _, _ := ScanIntents(decision);
    var task := DetectTask(decision);
    DecideBranches(decision, image, task, r);
    if image.Some? {
      return Image(image.value);
    }
    if task {
      return Automate(decision);
    }
    if (g && r) || r {
      return Search(merged);
    }
    route := FallbackScan(decision);
  }

  /** The first two characters of a text survive stripping when neither is whitespace. */
  lemma StripKeepsHead(s: string)
    requires |s| >= 2 && !IsSpace(s[0]) && !IsSpace(s[1])
    ensures |Strip(s)| >= 2 && Strip(s)[..2] == s[..2]
  {
    StripKeepsPrefix(s, 2);
  }

  /**
   * A lone presentation request is routed to automation, where no handler
   * knows it: the turn always fails.
   */
  lemma PresentationAloneFails(rest: string, run: (nat, Automation.Call) -> Automation.Outcome)
    requires !Contains("create presentation " + rest, ImagePhrase)
    ensures Decide(["create presentation " + rest]) == Automate(["create presentation " + rest])
    ensures !Automation.Succeeded(["create presentation " + rest], run)
  {
    var q := "create presentation " + rest;
    PresentationIsTask(q, rest);
    PresentationUnknown(q, rest);
    Automation.NothingRecognisedFails([q], run);
  }

  /** A presentation request is a task intent. */
  lemma PresentationIsTask(q: string, rest: string)
    requires q == "create presentation " + rest
    ensures TaskDetected([q])
  {
    assert q == "create presentation" + (" " + rest);
    assert q[..19] == "create presentation";
    assert Functions[8] == "create presentation";
    assert IntentIsTask([q][0]);
  }

  /** No handler of the dispatcher knows a presentation request. */
  lemma PresentationUnknown(q: string, rest: string)
    requires q == "create presentation " + rest
    ensures Automation.Translate(q) == None
  {
    assert q[0] == 'c' && q[1] == 'r';
    StripKeepsHead(q);
    var c := Strip(q);
    assert c[..2] == q[..2] == "cr";
    Automation.PrefixMismatch(c, "cr", "open ", 0);
    Automation.PrefixMismatch(c, "cr", "close ", 1);
    Automation.PrefixMismatch(c, "cr", "play ", 0);
    Automation.PrefixMismatch(c, "cr", "content ", 1);
    Automation.PrefixMismatch(c, "cr", "write ", 0);
    Automation.PrefixMismatch(c, "cr", "google search ", 0);
    Automation.PrefixMismatch(c, "cr", "youtube search ", 0);
    Automation.PrefixMismatch(c, "cr", "system ", 0);
    Automation.TranslateUnknown(q);
  }

  /**
   * A realtime intent that does not start with `"realtime"` is not sent to the
   * search engine but to the general chat bot, through the last loop.
   */
  lemma InnerRealtimeGoesToChat(intent: string)
    requires !Contains(intent, ImagePhrase) && !IntentIsTask(intent)
    requires !StartsWith(intent, "realtime") && !Contains(intent, "general") && Contains(intent, "realtime")
    ensures Decide([intent]) == RealtimeChat(Replace(intent, "realtime ", ""))
  {
    assert [intent][1..] == [];
  }

  // ----- The lifecycle -----

  const AvailableStatus := "Available... \U{2705}"
  const SleepingStatus := "Sleeping... \U{1F634}"
  const ListeningStatus := "Listening... \U{1F442}"
  const ThinkingStatus := "Thinking... \U{1F914}"
  const WakingStatus := "Waking up... \U{2600}\U{FE0F}"
  const ShuttingDownStatus := "Shutting down... \U{1F51A}"
  const ExecutingStatus := "Executing... \U{1F680}"
  const SearchingStatus := "Searching... \U{1F50D}"
  const AnsweringStatus := "Answering... \U{1F4AC}"

  /** A handle in `subprocesses`: as started, or after the shutdown signalled it. */
  datatype Handle = Started | Terminated | Killed

  /**
   * How the listening thread ended: `sys.exit(code)`, or an exception nothing
   * catches. Either ends only `FirstThread`'s daemon thread, and the GUI in
   * the main thread goes on; only the `sys.exit(1)` of a failed start-up
   * check, which runs in the main thread, ends the process.
   */
  datatype Ending = Exited(code: int) | Uncaught

  /** The program's global state: the GUI's two status files, the clock, the handles, the handoff file. */
  datatype State = State(
    mic: string, status: string, last: int, processes: seq<Handle>,
    halted: Option<Ending>, handoff: Option<string>)

  /**
   * What one turn is given: the recognised speech and the clock reading taken
   * right after it was recognised, the classifier's intents, whether the
   * image generator could be started, the automation handlers, what the
   * search request of a search turn produced, the reply to the shutdown
   * question, and, per handle, whether its process is still running
   * (`poll() is None`) and whether it ends within the wait.
   */
  datatype TurnInput = TurnInput(
    query: string, heardAt: int, decision: seq<string>, spawnOk: bool,
    run: (nat, Automation.Call) -> Automation.Outcome,
    search: RealtimeSearchEngine.SearchResponse,
    reply: string, running: nat -> bool, stopsInTime: nat -> bool)

  /**
   * The search engine raises for a search without results: `GoogleSearch`
   * then returns a bare string, which its caller cannot unpack.
   */
  predicate SearchRaises(response: RealtimeSearchEngine.SearchResponse) {
    response == RealtimeSearchEngine.Items([])
  }

  /** `SearchRaises` is exactly when the unpacking in `RealtimeSearchEngine` fails, whatever the query. */
  lemma SearchRaisesExactly(query: string, response: RealtimeSearchEngine.SearchResponse)
    ensures SearchRaises(response) <==>
      RealtimeSearchEngine.Unpack(RealtimeSearchEngine.SearchOutcome(query, response)).None?
  {
    if SearchRaises(response) {
      RealtimeSearchEngine.NoResultsRaises(query);
    }
  }

  /** Terminate a running process, and kill it when the wait times out. */
  function StopHandle(h: Handle, running: bool, inTime: bool): Handle {
    if h == Started && running then (if inTime then Terminated else Killed) else h
  }

  function StopAll(ps: seq<Handle>, running: nat -> bool, inTime: nat -> bool): (r: seq<Handle>)
    ensures |r| == |ps|
    ensures forall i :: 0 <= i < |ps| ==> r[i] == StopHandle(ps[i], running(i), inTime(i))
  {
    seq(|ps|, i requires 0 <= i < |ps| => StopHandle(ps[i], running(i), inTime(i)))
  }

  /** Shutdown goes ahead only on the reply `"exit"`, ignoring case. */
  predicate Confirmed(reply: string) {
    Lower(reply) == "exit"
  }

  /** `ShutdownAssistant`'s effect: stop the processes and end the thread with `sys.exit(0)`, or go back to Available. */
  function ShutdownState(s: State, reply: string, running: nat -> bool, inTime: nat -> bool): State {
    if Confirmed(reply) then
      s.(status := ShuttingDownStatus, processes := StopAll(s.processes, running, inTime), halted := Some(Exited(0)))
    else s.(status := AvailableStatus)
  }

  /**
   * `MainExecution`'s effect and result. `None` is the function's implicit
   * `None` when no branch matched, and also stands for the `sys.exit` of a
   * confirmed shutdown and for the exception of a search without results,
   * neither of which returns.
   */
  function Turn(s: State, input: TurnInput): (State, Option<bool>) {
    var s1 := s.(status := ThinkingStatus, last := if input.query != "" then input.heardAt else s.last);
    RouteEffect(s1, input, Decide(input.decision))
  }

  /** What taking `route` does from the Thinking state `s1`, and what `MainExecution` returns. */
  function RouteEffect(s1: State, input: TurnInput, route: Route): (State, Option<bool>) {
    match route
    case Image(p) =>
      var s2 := s1.(handoff := Some(ImageGeneration.HandoffRequest(p)));
      if input.spawnOk then (s2.(processes := s1.processes + [Started], status := AvailableStatus), Some(true))
      else (s2, Some(true))
    case Automate(commands) => (s1.(status := AvailableStatus), Some(Automation.Succeeded(commands, input.run)))
    case Search(_) =>
      if SearchRaises(input.search) then (s1.(status := SearchingStatus, halted := Some(Uncaught)), None)
      else (s1.(status := AnsweringStatus), Some(true))
    case General(_) => (s1.(status := AnsweringStatus), Some(true))
    case RealtimeChat(_) => (s1.(status := AnsweringStatus), Some(true))
    case Shutdown =>
      (ShutdownState(s1, input.reply, input.running, input.stopsInTime), if Confirmed(input.reply) then None else Some(true))
    case Unrouted => (s1, None)
  }

  /** The branch one `FirstThread` iteration takes. */
  datatype Action = Sleep | Wake | StayAsleep | RunTurn | Settle

  /** `voice` is whether speech was heard; it is only asked for when there was no clap and the idle time is at most 60. */
  function Classify(mic: string, status: string, idle: int, clap: bool, voice: bool): (a: Action)
    ensures a == Sleep <==> mic == "True" && idle > 60
    ensures a == RunTurn <==> mic == "True" && idle <= 60
    ensures a == Wake <==> mic == "False" && status == SleepingStatus && (clap || (idle <= 60 && voice))
    ensures a == StayAsleep <==> mic == "False" && status == SleepingStatus && !clap && (idle > 60 || !voice)
    ensures a == Settle <==> mic != "True" && (mic != "False" || status != SleepingStatus)
  {
    if mic == "True" && idle > 60 then Sleep
    else if mic == "False" && status == SleepingStatus then
      if clap then Wake
      else if idle <= 60 && voice then Wake
      else StayAsleep
    else if mic == "True" then RunTurn
    else Settle
  }

  /**
   * One loop iteration's inputs: the clock when it starts and when a sleep or
   * wake transition resets it, clap, speech, the turn (which carries its own
   * clock reading).
   */
  datatype Event = Event(now: int, resetAt: int, clap: bool, speech: string, turn: TurnInput)

  /** The status test of the last branch: both passing statuses are recognised by substring. */
  predicate Settled(status: string) {
    Contains(status, "Available...") || Contains(status, "Sleeping...")
  }

  /** One iteration of `FirstThread`'s loop. */
  function Step(s: State, e: Event): State {
    match Classify(s.mic, s.status, e.now - s.last, e.clap, e.speech != "")
    case Sleep => s.(mic := "False", status := SleepingStatus, last := e.resetAt)
    case Wake => s.(mic := "True", status := WakingStatus, last := e.resetAt)
    case StayAsleep => s
    case RunTurn => Turn(s, e.turn).0
    case Settle => if Settled(s.status) then s else s.(status := AvailableStatus)
  }

  /** `FirstThread` over a sequence of iterations, ending at a confirmed shutdown or an uncaught exception. */
  function RunSteps(s: State, events: seq<Event>): State
    decreases |events|
  {
    if events == [] || s.halted.Some? then s else RunSteps(Step(s, events[0]), events[1..])
  }

  /** The program state of `main.py`, held in its module globals and the GUI's files. */
  class Session {
    var mic: string
    var status: string
    var last: int
    var processes: seq<Handle>
    var halted: Option<Ending>
    var handoff: Option<string>

    function Snapshot(): State
      reads this
    {
      State(mic, status, last, processes, halted, handoff)
    }

    /**
     * `InitialExecution`: the start-up check, then the microphone off, the
     * status Available and the clock reset; a failed check exits the process with code 1.
     * `mic` and `status` are what the GUI files held before.
     */
    constructor InitialExecution(backend: bool, frontend: bool, data: bool, now: int, mic: string, status: string)
      ensures Checked([("Backend", backend), ("Frontend", frontend), ("Data", data)]) ==>
        Snapshot() == State("False", AvailableStatus, now, [], None, None)
      ensures !Checked([("Backend", backend), ("Frontend", frontend), ("Data", data)]) ==>
        Snapshot() == State(mic, status, now, [], Some(Exited(1)), None)
    {
      var ok, _ := CheckSystem([("Backend", backend), ("Frontend", frontend), ("Data", data)]);
      this.last := now;
      this.processes := [];
      this.handoff := None;
      if ok {
        this.mic := "False";
        this.status := AvailableStatus;
        this.halted := None;
      } else {
        this.mic := mic;
        this.status := status;
        this.halted := Some(Exited(1));
      }
    }

    method EnterSleepMode(resetAt: int)
      modifies this
      ensures Snapshot() == old(Snapshot()).(mic := "False", status := SleepingStatus, last := resetAt)
    {
      mic := "False";
      status := SleepingStatus;
      last := resetAt;
    }

    method WakeFromSleep()
      modifies this
      ensures Snapshot() == old(Snapshot()).(mic := "True", status := WakingStatus)
    {
      mic := "True";
      status := WakingStatus;
    }

    method ShutdownAssistant(reply: string, running: nat -> bool, inTime: nat -> bool)
      modifies this
      ensures Snapshot() == ShutdownState(old(Snapshot()), reply, running, inTime)
    {
      status := ShuttingDownStatus;
      if Lower(reply) == "exit" {
        var i := 0;
        while i < |processes|
          invariant i <= |processes| == |old(processes)|
          invariant forall k :: 0 <= k < i ==> processes[k] == StopHandle(old(processes)[k], running(k), inTime(k))
          invariant forall k :: i <= k < |processes| ==> processes[k] == old(processes)[k]
          invariant Snapshot() == old(Snapshot()).(status := ShuttingDownStatus, processes := processes)
        {
          if processes[i] == Started && running(i) {
            processes := processes[i := if inTime(i) then Terminated else Killed];
          }
          i := i + 1;
        }
        assert processes == StopAll(old(processes), running, inTime);
        halted := Some(Exited(0));
      } else {
        status := AvailableStatus;
      }
    }

    method MainExecution(input: TurnInput) returns (result: Option<bool>, route: Route)
      modifies this
      ensures route == Decide(input.decision)
      ensures (Snapshot(), result) == Turn(old(Snapshot()), input)
    {
      route, result := ExecuteTurn(input);
    }

    /** The body of `MainExecution`: the status and clock updates, the routing, then the branch taken. */
    method ExecuteTurn(input: TurnInput) returns (route: Route, result: Option<bool>)
      modifies this
      ensures route == Decide(input.decision)
      ensures (Snapshot(), result) == RouteEffect(old(Snapshot()).(status := ThinkingStatus,
        last := if input.query != "" then input.heardAt else old(last)), input, route)
    {
      status := ListeningStatus;
      if input.query != "" {
        last := input.heardAt;
        // The source's wake check here compares the status just set to Listening, so it never holds.
      }
      status := ThinkingStatus;
      route := DecideRoute(input.decision);
      result := TakeRoute(input, route);
    }

    /** The branch of `MainExecution` for `route`, from the Thinking state. */
    method TakeRoute(input: TurnInput, route: Route) returns (result: Option<bool>)
      modifies this
      ensures (Snapshot(), result) == RouteEffect(old(Snapshot()), input, route)
    {
      match route
      case Image(prompt) =>
        handoff := Some(ImageGeneration.HandoffRequest(prompt));
        if input.spawnOk {
          processes := processes + [Started];
          status := AvailableStatus;
        }
        result := Some(true);
      case Automate(commands) =>
        status := ExecutingStatus;
        var success := Automation.Automation(commands, input.run);
        status := AvailableStatus;
        result := Some(success);
      case Search(_) =>
        status := SearchingStatus;
        if input.search == RealtimeSearchEngine.Items([]) {
          // The search engine's unpacking raises, and nothing up to `FirstThread` catches it.
          halted := Some(Uncaught);
          result := None;
        } else {
          status := AnsweringStatus;
          result := Some(true);
        }
      case Shutdown =>
        ShutdownAssistant(input.reply, input.running, input.stopsInTime);
        result := if Lower(input.reply) == "exit" then None else Some(true);
      case Unrouted =>
        result := None;
      case General(_) =>
        status := AnsweringStatus;
        result := Some(true);
      case RealtimeChat(_) =>
        status := AnsweringStatus;
        result := Some(true);
    }

    /** One iteration of `FirstThread`'s loop. */
    method Iterate(e: Event)
      modifies this
      ensures Snapshot() == Step(old(Snapshot()), e)
    {
      if mic == "True" && e.now - last > 60 {
        EnterSleepMode(e.resetAt);
      } else if mic == "False" && status == SleepingStatus {
        if e.clap {
          WakeFromSleep();
          last := e.resetAt;
        } else if e.now - last <= 60 && e.speech != "" {
          WakeFromSleep();
          last := e.resetAt;
        }
      } else if mic == "True" {
        var _, _ := MainExecution(e.turn);
      } else {
        if !Contains(status, "Available...") && !Contains(status, "Sleeping...") {
          status := AvailableStatus;
        }
      }
    }

    /** `FirstThread`: iterate until the events run out or the thread ends. */
    method FirstThread(events: seq<Event>)
      modifies this
      ensures Snapshot() == RunSteps(old(Snapshot()), events)
    {
      ghost var goal := RunSteps(Snapshot(), events);
      var i := 0;
      while i < |events| && halted.None?
        invariant i <= |events|
        invariant RunSteps(Snapshot(), events[i..]) == goal
        decreases |events| - i
      {
        assert events[i..][0] == events[i] && events[i..][1..] == events[i + 1..];
        Iterate(events[i]);
        i := i + 1;
      }
    }
  }

  /** A confirmed shutdown leaves no running process unsignalled, and kills only those that outlast the wait. */
  lemma ShutdownStopsAll(s: State, reply: string, running: nat -> bool, inTime: nat -> bool)
    requires Confirmed(reply)
    ensures var t := ShutdownState(s, reply, running, inTime);
      t.halted == Some(Exited(0)) && |t.processes| == |s.processes|
      && (forall i :: 0 <= i < |s.processes| && s.processes[i] == Started && running(i) ==>
            t.processes[i] == (if inTime(i) then Terminated else Killed))
      && (forall i :: 0 <= i < |s.processes| && (s.processes[i] != Started || !running(i)) ==>
            t.processes[i] == s.processes[i])
  {
  }

  /** A reply with anything before `exit` cancels the shutdown and leaves the processes alone. */
  lemma PaddedExitCancels(reply: string, s: State, running: nat -> bool, inTime: nat -> bool)
    requires reply != [] && reply[0] == ' '
    ensures !Confirmed(reply)
    ensures ShutdownState(s, reply, running, inTime) == s.(status := AvailableStatus)
  {
    assert Lower(reply)[0] == ' ';
  }

  /** Shutdown confirmation ignores case. */
  lemma UpperExitConfirms()
    ensures Confirmed("EXIT")
  {
    assert Lower("EXIT") == [LowerChar('E'), LowerChar('X'), LowerChar('I'), LowerChar('T')];
  }

  /** An idle loop falls asleep, and then stays asleep while it hears nothing. */
  lemma SleepIsQuiet(s: State, e1: Event, e2: Event)
    requires s.mic == "True" && e1.now - s.last > 60
    requires !e2.clap && e2.speech == ""
    ensures Step(s, e1) == s.(mic := "False", status := SleepingStatus, last := e1.resetAt)
    ensures Step(Step(s, e1), e2) == Step(s, e1)
  {
  }

  /** While asleep, no iteration runs a turn: handles, handoff file and how the thread ended stay as they are. */
  lemma AsleepRunsNoTurn(s: State, e: Event)
    requires s.mic == "False" && s.status == SleepingStatus
    ensures var t := Step(s, e);
      t.processes == s.processes && t.handoff == s.handoff && t.halted == s.halted
  {
  }

  /** After waking, the next iteration runs a turn if it comes within 60 seconds, and sleeps again otherwise. */
  lemma WakeThenTurn(s: State, e1: Event, e2: Event)
    requires s.mic == "False" && s.status == SleepingStatus && e1.clap
    ensures var t := Step(s, e1);
      t.mic == "True" && t.status == WakingStatus && t.last == e1.resetAt
      && (e2.now - e1.resetAt <= 60 ==> Classify(t.mic, t.status, e2.now - t.last, e2.clap, e2.speech != "") == RunTurn)
      && (e2.now - e1.resetAt > 60 ==> Step(t, e2) == t.(mic := "False", status := SleepingStatus, last := e2.resetAt))
  {
  }

  /** The last branch leaves the Available and Sleeping statuses as they are, and resets any other it meets. */
  lemma SettleKeepsRestingStatus(s: State, e: Event)
    requires Classify(s.mic, s.status, e.now - s.last, e.clap, e.speech != "") == Settle
    ensures s.status == AvailableStatus ==> Step(s, e) == s
    ensures !Settled(s.status) ==> Step(s, e) == s.(status := AvailableStatus)
  {
    if s.status == AvailableStatus {
      assert StartsWith(AvailableStatus, "Available...");
      ContainsAt(AvailableStatus, "Available...", 0);
    }
  }

  /** A turn never touches the microphone flag. */
  lemma TurnKeepsMic(s: State, input: TurnInput)
    ensures Turn(s, input).0.mic == s.mic
  {
  }

  /**
   * An image turn writes the handoff string that the image generator reads
   * back as a triggered request for the same prompt.
   */
  lemma ImageTurnHandoff(s: State, input: TurnInput)
    requires Decide(input.decision).Image?
    requires var p := Decide(input.decision).prompt; ',' !in p && NoLeadingSpace(p)
    ensures var p := Decide(input.decision).prompt;
      Turn(s, input).0.handoff == Some(ImageGeneration.HandoffRequest(p))
      && ImageGeneration.Parse(ImageGeneration.HandoffRequest(p)) == ImageGeneration.Entry(p, "True")
      && ImageGeneration.Triggers(ImageGeneration.Parse(ImageGeneration.HandoffRequest(p)))
  {
    ImageGeneration.RequestRoundTrip(Decide(input.decision).prompt);
  }

  /**
   * A search turn whose search finds nothing raises out of `MainExecution`:
   * the status stays Searching, and `FirstThread` runs no further iteration.
   * A search that finds something, or fails with a request error, is answered.
   */
  lemma SearchTurnOutcome(s: State, e: Event, rest: seq<Event>)
    requires s.halted.None?
    requires Classify(s.mic, s.status, e.now - s.last, e.clap, e.speech != "") == RunTurn
    requires Decide(e.turn.decision).Search?
    ensures var t := Step(s, e);
      (e.turn.search == RealtimeSearchEngine.Items([]) ==>
        t.halted == Some(Uncaught) && t.status == SearchingStatus && RunSteps(s, [e] + rest) == t)
      && (e.turn.search != RealtimeSearchEngine.Items([]) ==>
        t.halted.None? && t.status == AnsweringStatus && Turn(s, e.turn).1 == Some(true)
        && RunSteps(s, [e] + rest) == RunSteps(t, rest))
  {
    assert ([e] + rest)[0] == e && ([e] + rest)[1..] == rest;
    if e.turn.search == RealtimeSearchEngine.Items([]) {
      HaltedStays(Step(s, e), rest);
    }
  }

  /**
   * The idle time after a turn that heard something counts from the moment
   * the speech was recognised, not from the start of the iteration.
   */
  lemma IdleCountsFromHeardSpeech(s: State, e1: Event, e2: Event)
    requires Classify(s.mic, s.status, e1.now - s.last, e1.clap, e1.speech != "") == RunTurn
    requires e1.turn.query != ""
    ensures var t := Step(s, e1);
      t.mic == "True" && t.last == e1.turn.heardAt
      && (e2.now - e1.turn.heardAt <= 60 ==> Classify(t.mic, t.status, e2.now - t.last, e2.clap, e2.speech != "") == RunTurn)
      && (e2.now - e1.turn.heardAt > 60 ==> Classify(t.mic, t.status, e2.now - t.last, e2.clap, e2.speech != "") == Sleep)
  {
    TurnKeepsMic(s, e1.turn);
  }

  /**
   * An iteration at 50 whose speech is recognised at 58, then an iteration at
   * 115: 57 seconds of idle time, so the second iteration runs a turn too.
   */
  lemma LateSpeechKeepsAwake(s: State, e1: Event, e2: Event)
    requires s.mic == "True" && s.last == 0 && e1.now == 50
    requires e1.turn.query != "" && e1.turn.heardAt == 58 && e2.now == 115
    ensures Step(s, e1).mic == "True"
    ensures Classify("True", Step(s, e1).status, e2.now - Step(s, e1).last, e2.clap, e2.speech != "") == RunTurn
  {
    IdleCountsFromHeardSpeech(s, e1, e2);
  }

  /** Once the thread has ended, later iterations change nothing. */
  lemma HaltedStays(s: State, events: seq<Event>)
    requires s.halted.Some?
    ensures RunSteps(s, events) == s
  {
  }

  // ----- Start-up, greeting and chat log -----

  /** The first component whose directory is missing, in the order checked. */
  function FirstMissing(components: seq<(string, bool)>): (r: Option<string>)
    ensures r.None? <==> forall k :: 0 <= k < |components| ==> components[k].1
  {
    if components == [] then None
    else if !components[0].1 then Some(components[0].0)
    else
      var r := FirstMissing(components[1..]);
      assert forall k :: 1 <= k < |components| ==> components[k] == components[1..][k - 1];
      r
  }

  predicate Checked(components: seq<(string, bool)>) {
    FirstMissing(components).None?
  }

  /** `CheckSystem`: the components are checked in order and the first missing one is reported. */
  method CheckSystem(components: seq<(string, bool)>) returns (ok: bool, missing: Option<string>)
    ensures missing == FirstMissing(components)
    ensures ok <==> forall k :: 0 <= k < |components| ==> components[k].1
  {
    for i := 0 to |components|
      invariant FirstMissing(components) == FirstMissing(components[i..])
    {
      assert components[i..][0] == components[i] && components[i..][1..] == components[i + 1..];
      if !components[i].1 {
        return false, Some(components[i].0);
      }
    }
    assert components[|components|..] == [];
    return true, None;
  }

  /** Backend is checked first, then Frontend, then Data. */
  lemma CheckOrder(backend: bool, frontend: bool, data: bool)
    ensures FirstMissing([("Backend", backend), ("Frontend", frontend), ("Data", data)]) ==
      if !backend then Some("Backend") else if !frontend then Some("Frontend")
      else if !data then Some("Data") else None
  {
    var c := [("Backend", backend), ("Frontend", frontend), ("Data", data)];
    assert c[1..] == [("Frontend", frontend), ("Data", data)];
    assert c[1..][1..] == [("Data", data)];
    assert c[1..][1..][1..] == [];
    assert FirstMissing(c[1..][1..]) == if !data then Some("Data") else None;
    assert FirstMissing(c[1..]) == if !frontend then Some("Frontend") else FirstMissing(c[1..][1..]);
  }

  const Morning := "Good morning Boss! I'm excited to assist you today!"
  const Afternoon := "Good afternoon Boss! How can I make your day better?"
  const Evening := "Good evening Boss! I'm here to help you unwind or work tonight!"

  /** `GreetUserByTime`'s greeting for the local hour. */
  function Greeting(hour: int): string {
    if 5 <= hour < 12 then Morning
    else if 12 <= hour < 17 then Afternoon
    else Evening
  }

  /** Each greeting belongs to exactly one band of hours. */
  lemma GreetingBands(hour: int)
    ensures Greeting(hour) == Morning <==> 5 <= hour < 12
    ensures Greeting(hour) == Afternoon <==> 12 <= hour < 17
    ensures Greeting(hour) == Evening <==> hour < 5 || hour >= 17
  {
    assert |Morning| == 51 && |Afternoon| == 52 && |Evening| == 63;
  }
}
