/**
 * Backend/ImageGeneration.py: the handoff file through which the assistant
 * asks for images (`"<prompt>, True"`, written at main.py:266), the polling
 * loop that reads it and writes the reply, and the file names under which
 * the four images are saved and then opened.
 *
 * The image service, the sleeps and the image viewer are inputs; the `Data`
 * folder is a map from file names to contents.
 */
module ImageGeneration {
  import opened Wrappers
  import opened Text

  newtype byte = x: int | 0 <= x < 256

  type Bytes = seq<byte>

  // ---------------------------------------------------------------------------
  // The handoff protocol.

  /** What the main program writes to request images for `query` (main.py:266). */
  function HandoffRequest(query: string): string {
    query + ", True"
  }

  /** How the poller reads the handoff file's content. */
  datatype Handoff = Blank | Malformed | Entry(prompt: string, status: string)

  /**
   * The content is stripped; blank means wait; otherwise it is split at the
   * first comma, and the status is stripped. Content without a comma makes the
   * two-way unpacking fail, which the loop treats as a wait.
   */
  function Parse(content: string): (r: Handoff)
    ensures r == Blank <==> AllSpace(content)
    ensures r == Malformed <==> !AllSpace(content) && ',' !in Strip(content)
    ensures r.Entry? ==> ',' !in r.prompt && NoLeadingSpace(r.prompt) && IsStripped(r.status)
    ensures r.Entry? ==> StartsWith(Strip(content), r.prompt + ",")
  {
    var data := Strip(content);
    if data == "" then Blank
    else match IndexOf(data, ',')
      case None => Malformed
      case Some(i) => SplitAt(data, i)
  }

  /** The entry read from stripped content whose first comma is at `i`. */
  function SplitAt(data: string, i: nat): (r: Handoff)
    requires NoLeadingSpace(data) && i < |data| && data[i] == ',' && ',' !in data[..i]
    ensures r.Entry? && ',' !in r.prompt && NoLeadingSpace(r.prompt) && IsStripped(r.status)
    ensures StartsWith(data, r.prompt + ",")
  {
    var prompt, rest := data[..i], data[i + 1..];
    assert data[..i + 1] == prompt + ",";
    assert prompt == [] || prompt[0] == data[0];
    Entry(prompt, Strip(rest))
  }

  /** Generation is triggered when the trimmed status is `true` in any case. */
  predicate Triggers(h: Handoff) {
    h.Entry? && Lower(h.status) == "true"
  }

  /** The content written back after a triggered run. */
  function Reply(prompt: string, success: bool): string {
    if success then prompt + ",False" else "None,False"
  }

  /** A prompt, a comma and a non-blank tail ending in no space parse back to the prompt and the stripped tail. */
  lemma ParseJoined(prompt: string, tail: string)
    requires ',' !in prompt && NoLeadingSpace(prompt)
    requires tail != [] && NoTrailingSpace(tail)
    ensures Parse(prompt + "," + tail) == Entry(prompt, Strip(tail))
  {
    var data := prompt + "," + tail;
    JoinedShape(prompt, tail);
    IndexOfAt(data, ',', |prompt|);
  }

  /** The joined text is stripped, and its first comma is the one after the prompt. */
  lemma JoinedShape(prompt: string, tail: string)
    requires ',' !in prompt && NoLeadingSpace(prompt)
    requires tail != [] && NoTrailingSpace(tail)
    ensures var data := prompt + "," + tail;
      IsStripped(data) && |prompt| < |data| && data[|prompt|] == ','
      && data[..|prompt|] == prompt && data[|prompt| + 1..] == tail
  {
    var data := prompt + "," + tail;
    assert data[0] == if prompt == [] then ',' else prompt[0];
    assert data[|data| - 1] == tail[|tail| - 1];
    assert data[..|prompt|] == prompt;
    assert data[|prompt| + 1..] == tail;
  }

  /** The request written for a prompt without a comma or leading space parses back to it, triggering. */
  lemma RequestRoundTrip(query: string)
    requires ',' !in query && NoLeadingSpace(query)
    ensures Parse(HandoffRequest(query)) == Entry(query, "True")
    ensures Triggers(Parse(HandoffRequest(query)))
  {
    assert HandoffRequest(query) == query + "," + " True";
    ParseJoined(query, " True");
    StatusWords();
  }

  /** Whatever the run's outcome, the reply to a parsed prompt no longer triggers. */
  lemma ReplyNeverTriggers(content: string, success: bool)
    requires Parse(content).Entry?
    ensures !Triggers(Parse(Reply(Parse(content).prompt, success)))
    ensures Parse(Reply(Parse(content).prompt, success)) == Entry(if success then Parse(content).prompt else "None", "False")
  {
    var h := Parse(content);
    ReplyReads(h.prompt, success);
  }

  /** The reply for a prompt without a comma or leading space reads back as a `False` entry. */
  lemma ReplyReads(prompt: string, success: bool)
    requires ',' !in prompt && NoLeadingSpace(prompt)
    ensures Parse(Reply(prompt, success)) == Entry(if success then prompt else "None", "False")
    ensures !Triggers(Parse(Reply(prompt, success)))
  {
    StatusWords();
    if success {
      ReplyParses(prompt);
    } else {
      FailureReplyParses();
    }
  }

  lemma FailureReplyParses()
    ensures Parse(Reply("None", false)) == Entry("None", "False")
  {
    NoneShape();
    ReplyParses("None");
  }

  lemma NoneShape()
    ensures NoLeadingSpace("None") && ',' !in "None" && "None" + ",False" == Reply("None", false)
  {
  }

  lemma ReplyParses(prompt: string)
    requires ',' !in prompt && NoLeadingSpace(prompt)
    ensures Parse(prompt + ",False") == Entry(prompt, "False")
  {
    assert prompt + ",False" == prompt + "," + "False";
    assert NoTrailingSpace("False");
    ParseJoined(prompt, "False");
    StatusWords();
  }

  /** The two statuses the protocol writes, as the poller reads them. */
  lemma StatusWords()
    ensures Strip(" True") == "True" && Lower("True") == "true"
    ensures Strip("False") == "False" && Lower("False") != "true"
  {
    assert IsStripped("True") && IsStripped("False");
    StripOneLeading(' ', "True");
    assert [' '] + "True" == " True";
    assert Lower("True")[0] == 't';
    assert Lower("False")[0] == 'f';
  }

  // ---------------------------------------------------------------------------
  // The image file names.

  /** `str(n)` for one decimal digit. */
  function DigitText(n: nat): (r: string)
    requires n < 10
    ensures |r| == 1 && '0' <= r[0] <= '9'
  {
    [('0' as int + n) as char]
  }

  /** The prompt as it appears in a file name: spaces turned into `_`. */
  function FileStem(prompt: string): (r: string)
    ensures ' ' !in r
  {
    ReplaceSpaceRemoved(prompt);
    Replace(prompt, " ", "_")
  }

  lemma {:induction false} ReplaceSpaceRemoved(s: string)
    ensures ' ' !in Replace(s, " ", "_")
    decreases |s|
  {
    if s != [] {
      ReplaceSpaceRemoved(s[1..]);
    }
  }

  /** The file name of the image numbered `n` (1 to 4). */
  function ImageName(prompt: string, n: nat): string
    requires 1 <= n <= 4
  {
    FileStem(prompt) + DigitText(n) + ".jpg"
  }

  /** The four names `open_images` opens in `Data`, numbered 1 to 4, in order. */
  function OpenedNames(prompt: string): (r: seq<string>)
    ensures |r| == 4
    ensures forall i :: 0 <= i < 4 ==> r[i] == ImageName(prompt, i + 1)
  {
    seq(4, i requires 0 <= i < 4 => FileStem(prompt) + DigitText(i + 1) + ".jpg")
  }

  /** The name under which `generate_images` saves result `i` (counted from 0). */
  function SavedName(prompt: string, i: nat): string
    requires i < 4
  {
    FileStem(prompt) + DigitText(i + 1) + ".jpg"
  }

  /** Saved and opened names agree, and the four names are distinct. */
  lemma SavedNamesAreOpened(prompt: string)
    ensures forall i :: 0 <= i < 4 ==> SavedName(prompt, i) == OpenedNames(prompt)[i]
    ensures forall i, j :: 0 <= i < 4 && 0 <= j < 4 && i != j ==> OpenedNames(prompt)[i] != OpenedNames(prompt)[j]
  {
    var stem := FileStem(prompt);
    forall i, j | 0 <= i < 4 && 0 <= j < 4 && i != j
      ensures OpenedNames(prompt)[i] != OpenedNames(prompt)[j]
    {
      assert OpenedNames(prompt)[i][|stem|] == DigitText(i + 1)[0];
      assert OpenedNames(prompt)[j][|stem|] == DigitText(j + 1)[0];
    }
  }

  /** The generation request's text for one image. */
  function Payload(prompt: string, seed: nat): (r: string)
    ensures StartsWith(r, prompt)
  {
    var r := prompt + ", quality=4k, sharpness=maximum, Ultra High details, high resolution, seed=" + NatText(seed);
    assert r[..|prompt|] == prompt;
    r
  }

  /** `str(n)`: the decimal digits of `n`. */
  function NatText(n: nat): (r: string)
    ensures r != [] && forall i :: 0 <= i < |r| ==> '0' <= r[i] <= '9'
  {
    if n < 10 then DigitText(n) else NatText(n / 10) + DigitText(n % 10)
  }

  /** What the `Data` folder holds once the results are saved: each non-empty result under its name, in order. */
  function SavedFolder(folder: map<string, Bytes>, prompt: string, results: seq<Option<Bytes>>, writeOk: nat -> bool): map<string, Bytes>
    requires |results| <= 4
    decreases |results|
  {
    if results == [] then folder
    else
      var i := |results| - 1;
      var before := SavedFolder(folder, prompt, results[..i], writeOk);
      if results[i].Some? && results[i].value != [] && writeOk(i) then before[SavedName(prompt, i) := results[i].value]
      else before
  }

  /** Saving touches only the result names, and a result that is missing or empty writes nothing. */
  lemma {:induction false} SavedFolderOnlyResults(folder: map<string, Bytes>, prompt: string, results: seq<Option<Bytes>>, writeOk: nat -> bool, name: string)
    requires |results| <= 4
    requires forall i :: 0 <= i < |results| ==>
      SavedName(prompt, i) == name ==> results[i].None? || results[i].value == [] || !writeOk(i)
    ensures name in SavedFolder(folder, prompt, results, writeOk) <==> name in folder
    ensures name in folder ==> SavedFolder(folder, prompt, results, writeOk)[name] == folder[name]
    decreases |results|
  {
    if results != [] {
      SavedFolderOnlyResults(folder, prompt, results[..|results| - 1], writeOk, name);
    }
  }

  /** A non-empty result whose write succeeds is found under its opened name. */
  lemma {:induction false} SavedFolderHasResult(folder: map<string, Bytes>, prompt: string, results: seq<Option<Bytes>>, writeOk: nat -> bool, i: nat)
    requires |results| <= 4 && i < |results|
    requires results[i].Some? && results[i].value != [] && writeOk(i)
    ensures OpenedNames(prompt)[i] in SavedFolder(folder, prompt, results, writeOk)
    ensures SavedFolder(folder, prompt, results, writeOk)[OpenedNames(prompt)[i]] == results[i].value
    decreases |results|
  {
    SavedNamesAreOpened(prompt);
    if i < |results| - 1 {
      SavedFolderHasResult(folder, prompt, results[..|results| - 1], writeOk, i);
      var j := |results| - 1;
      assert SavedName(prompt, j) != SavedName(prompt, i);
    }
  }

  /** The four images `open_images` shows: those of the opened names present in `Data`, in order. */
  function ShownImages(folder: map<string, Bytes>, names: seq<string>): (r: seq<string>)
    ensures |r| <= |names|
    ensures forall k :: 0 <= k < |r| ==> r[k] in names && r[k] in folder
    decreases |names|
  {
    if names == [] then []
    else
      var last := names[|names| - 1];
      ShownImages(folder, names[..|names| - 1]) + (if last in folder then [last] else [])
  }

  /** With all four results saved, all four images are shown. */
  lemma {:induction false} AllShown(folder: map<string, Bytes>, names: seq<string>)
    requires forall k :: 0 <= k < |names| ==> names[k] in folder
    ensures ShownImages(folder, names) == names
    decreases |names|
  {
    if names != [] {
      AllShown(folder, names[..|names| - 1]);
    }
  }

  /** The `Data` folder, which `generate_images` writes and `open_images` reads. */
  class DataFolder {
    var files: map<string, Bytes>

    constructor (files: map<string, Bytes>)
      ensures this.files == files
    {
      this.files := files;
    }

    /**
     * `generate_images`: four requests, each with its own seed; the requests'
     * results are saved in order, each non-empty one under its numbered name.
     * A failed write leaves that name as it was.
     */
    method GenerateImages(prompt: string, seeds: nat -> nat, respond: (nat, string) -> Option<Bytes>, writeOk: nat -> bool)
      returns (payloads: seq<string>)
      modifies this
      ensures |payloads| == 4
      ensures forall i :: 0 <= i < 4 ==> payloads[i] == Payload(prompt, seeds(i))
      ensures files == SavedFolder(old(files), prompt, seq(4, i requires 0 <= i < 4 => respond(i, payloads[i])), writeOk)
    {
      payloads := [];
      for i := 0 to 4
        invariant |payloads| == i
        invariant forall k :: 0 <= k < i ==> payloads[k] == Payload(prompt, seeds(k))
      {
        payloads := payloads + [Payload(prompt, seeds(i))];
      }
      var results := seq(4, i requires 0 <= i < 4 => respond(i, payloads[i]));
      ghost var start := files;
      for i := 0 to 4
        invariant files == SavedFolder(start, prompt, results[..i], writeOk)
      {
        assert results[..i + 1][..i] == results[..i];
        if results[i].Some? && results[i].value != [] {
          if writeOk(i) {
            files := files[SavedName(prompt, i) := results[i].value];
          }
        }
      }
      assert results[..4] == results;
    }

    /** `open_images`: the numbered names are tried in order; a missing file is skipped. */
    method OpenImages(prompt: string) returns (shown: seq<string>)
      ensures shown == ShownImages(files, OpenedNames(prompt))
    {
      var names := OpenedNames(prompt);
      shown := [];
      for i := 0 to |names|
        invariant shown == ShownImages(files, names[..i])
      {
        assert names[..i + 1][..i] == names[..i];
        if names[i] in files {
          shown := shown + [names[i]];
        }
      }
      assert names[..|names|] == names;
    }
  }

  /** Four non-empty results, all written, are all shown afterwards. */
  lemma GeneratedImagesShown(folder: map<string, Bytes>, prompt: string, results: seq<Option<Bytes>>, writeOk: nat -> bool)
    requires |results| == 4
    requires forall i :: 0 <= i < 4 ==> results[i].Some? && results[i].value != [] && writeOk(i)
    ensures ShownImages(SavedFolder(folder, prompt, results, writeOk), OpenedNames(prompt)) == OpenedNames(prompt)
  {
    var saved := SavedFolder(folder, prompt, results, writeOk);
    forall k | 0 <= k < 4 ensures OpenedNames(prompt)[k] in saved {
      SavedFolderHasResult(folder, prompt, results, writeOk, k);
    }
    AllShown(saved, OpenedNames(prompt));
  }

  // ---------------------------------------------------------------------------
  // The polling loop.

  /** The content `ensure_file_exists` writes and the loop recreates. */
  const DefaultHandoff := "None,False"

  /**
   * What one poll of the loop did: it waited, or it generated for `prompt`;
   * `saved` is whether the reply was then written to the file. A failed write
   * raises, the loop's `except Exception` catches it, and the loop goes on.
   */
  datatype PollResult = Waited | Generated(prompt: string, success: bool, saved: bool)

  /** A poll after which the loop leaves: a run whose reply was written. */
  predicate Stops(r: PollResult) {
    r.Generated? && r.saved
  }

  /**
   * One poll: a missing file is recreated; content that triggers runs the
   * generation for its prompt and writes the reply when `replyWritten`, and
   * leaves the file unchanged otherwise; anything else waits.
   */
  function Poll(content: Option<string>, generate: string -> bool, replyWritten: bool): (r: (Option<string>, PollResult))
    ensures r.0.Some?
    ensures r.1.Generated? <==> content.Some? && Triggers(Parse(content.value))
    ensures Stops(r.1) <==> content.Some? && Triggers(Parse(content.value)) && replyWritten
    ensures r.1.Waited? ==> r.0 == if content.None? then Some(DefaultHandoff) else content
    ensures r.1.Generated? ==>
      r.1.prompt == Parse(content.value).prompt && r.1.success == generate(r.1.prompt) && r.1.saved == replyWritten
      && r.0 == if replyWritten then Some(Reply(r.1.prompt, r.1.success)) else content
  {
    match content
    case None => (Some(DefaultHandoff), Waited)
    case Some(c) =>
      var h := Parse(c);
      if Triggers(h) then
        var success := generate(h.prompt);
        (if replyWritten then Some(Reply(h.prompt, success)) else content, Generated(h.prompt, success, replyWritten))
      else (content, Waited)
  }

  /** A poll right after a run whose reply was written waits: the reply never triggers another one. */
  lemma NoSecondRun(content: Option<string>, generate: string -> bool, replyWritten: bool, next: bool)
    requires Stops(Poll(content, generate, replyWritten).1)
    ensures Poll(Poll(content, generate, replyWritten).0, generate, next).1 == Waited
  {
    ReplyNeverTriggers(content.value, Poll(content, generate, replyWritten).1.success);
  }

  /**
   * A run whose reply could not be written leaves the request in the file,
   * so the next poll of the untouched file generates for the same prompt again.
   */
  lemma UnsavedRunRepeats(content: Option<string>, generate: string -> bool, next: bool)
    requires Poll(content, generate, false).1.Generated?
    ensures Poll(content, generate, false).0 == content
    ensures var again := Poll(Poll(content, generate, false).0, generate, next).1;
      again.Generated? && again.prompt == Poll(content, generate, false).1.prompt
  {
  }

  /** What the other process does to the file before a poll. */
  datatype Change = Untouched | Written(text: string) | Deleted

  function Apply(content: Option<string>, change: Change): Option<string> {
    match change
    case Untouched => content
    case Written(text) => Some(text)
    case Deleted => None
  }

  /** What happens around one poll: the other process's change before it, and whether a reply write would succeed. */
  datatype Tick = Tick(change: Change, replyWritten: bool)

  /** One poll, after the tick's change. */
  function PollAt(content: Option<string>, tick: Tick, generate: string -> bool): (Option<string>, PollResult) {
    Poll(Apply(content, tick.change), generate, tick.replyWritten)
  }

  /**
   * The loop over a bounded number of polls, one per tick: it stops after the
   * first run whose reply was written, with the final content and that run,
   * if one happened.
   */
  function RunPolls(content: Option<string>, ticks: seq<Tick>, generate: string -> bool): (r: (Option<string>, Option<PollResult>))
    ensures r.1.Some? ==> Stops(r.1.value) && r.0 == Some(Reply(r.1.value.prompt, r.1.value.success))
    decreases |ticks|
  {
    if ticks == [] then (content, None)
    else
      var (after, result) := PollAt(content, ticks[0], generate);
      if Stops(result) then (after, Some(result))
      else RunPolls(after, ticks[1..], generate)
  }

  /**
   * The polls the loop would make if it did not leave after a run: the
   * content after each poll and what that poll did, one per tick.
   */
  function AllPolls(content: Option<string>, ticks: seq<Tick>, generate: string -> bool): (r: seq<(Option<string>, PollResult)>)
    ensures |r| == |ticks|
    decreases |ticks|
  {
    if ticks == [] then []
    else
      var p := PollAt(content, ticks[0], generate);
      [p] + AllPolls(p.0, ticks[1..], generate)
  }

  /**
   * The loop leaves at the first poll that runs and writes its reply: no such
   * run happens exactly when no poll would make one, a run is the first such
   * poll, with the content it left, and without a run the content is what the
   * last poll left.
   */
  lemma {:induction false} RunPollsFirstRun(content: Option<string>, ticks: seq<Tick>, generate: string -> bool)
    ensures var r := RunPolls(content, ticks, generate);
      var all := AllPolls(content, ticks, generate);
      (r.1.None? <==> forall k :: 0 <= k < |all| ==> !Stops(all[k].1))
      && (r.1.Some? ==>
            exists j :: 0 <= j < |all| && all[j] == (r.0, r.1.value) && forall k :: 0 <= k < j ==> !Stops(all[k].1))
      && (r.1.None? ==> r.0 == if all == [] then content else all[|all| - 1].0)
    decreases |ticks|
  {
    if ticks != [] {
      var p := PollAt(content, ticks[0], generate);
      var tail := AllPolls(p.0, ticks[1..], generate);
      var all := AllPolls(content, ticks, generate);
      assert all == [p] + tail;
      if Stops(p.1) {
        assert all[0] == p;
      } else {
        RunPollsFirstRun(p.0, ticks[1..], generate);
        var r := RunPolls(content, ticks, generate);
        assert r == RunPolls(p.0, ticks[1..], generate);
        assert forall k :: 1 <= k < |all| ==> all[k] == tail[k - 1];
        if r.1.Some? {
          var j :| 0 <= j < |tail| && tail[j] == (r.0, r.1.value) && forall k :: 0 <= k < j ==> !Stops(tail[k].1);
          assert all[j + 1] == (r.0, r.1.value);
        }
      }
    }
  }

  /** The handoff file (`Frontend/Files/ImageGeneration.data`); `None` while it does not exist. */
  class HandoffFile {
    var content: Option<string>

    constructor (content: Option<string>)
      ensures this.content == content
    {
      this.content := content;
    }

    /** `ensure_file_exists`: creates the file with `default` only when it is missing; an existing one is kept. */
    method EnsureExists(default: string)
      modifies this
      ensures old(content).Some? ==> content == old(content)
      ensures old(content).None? ==> content == Some(default)
    {
      if content.None? {
        content := Some(default);
      }
    }

    /** One pass of the loop's body; `replyWritten` is whether the reply write after a run succeeds. */
    method PollOnce(generate: string -> bool, replyWritten: bool) returns (result: PollResult)
      modifies this
      ensures (content, result) == Poll(old(content), generate, replyWritten)
    {
      if content.None? {
        EnsureExists(DefaultHandoff);
        return Waited;
      }
      var data := Strip(content.value);
      if data == "" {
        return Waited;
      }
      var h := Parse(content.value);
      if h.Malformed? {
        return Waited;
      }
      if Lower(h.status) == "true" {
        var success := generate(h.prompt);
        if replyWritten {
          content := Some(if success then h.prompt + ",False" else "None,False");
        }
        // Otherwise the write raised, the `except` caught it, and the file still holds the request.
        return Generated(h.prompt, success, replyWritten);
      }
      result := Waited;
    }

    /**
     * `main`: makes sure the file exists (keeping it if it does), then polls
     * until a run writes its reply, the other process acting before each poll.
     */
    method PollUntilRun(ticks: seq<Tick>, generate: string -> bool) returns (run: Option<PollResult>)
      modifies this
      ensures (content, run) == RunPolls(if old(content).None? then Some(DefaultHandoff) else old(content), ticks, generate)
    {
      EnsureExists(DefaultHandoff);
      ghost var goal := RunPolls(content, ticks, generate);
      run := None;
      var i := 0;
      while i < |ticks|
        invariant 0 <= i <= |ticks|
        invariant RunPolls(content, ticks[i..], generate) == goal
      {
        assert ticks[i..][1..] == ticks[i + 1..];
        content := Apply(content, ticks[i].change);
        ghost var polled := content;
        var result := PollOnce(generate, ticks[i].replyWritten);
        assert (content, result) == Poll(polled, generate, ticks[i].replyWritten);
        if result.Generated? && result.saved {
          return Some(result);
        }
        i := i + 1;
      }
    }
  }
}
