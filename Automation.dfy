/**
 * Backend/Automation.py: the dispatcher that reads raw command strings as
 * `(handler, argument)` calls, runs them and folds their results into one
 * boolean, and the string rules inside the handlers themselves.
 *
 * The handlers' foreign effects (launching and closing applications, the
 * browser, the keyboard, the text generator, the editor) are inputs: a
 * handler's run is an `Outcome`, and `asyncio.gather` is an order-preserving
 * map over the calls.
 */
module Automation {
  import opened Wrappers
  import opened Text
  import opened Chat

  /** The handler functions a command can be dispatched to. */
  datatype Handler = OpenApp | CloseApp | PlayYoutube | Content | GoogleSearch | YoutubeSearch | System

  /** A recognised command: the handler to run and its argument. */
  datatype Call = Call(handler: Handler, argument: string)

  /** How a handler's run ended: the boolean it returned, or an exception. */
  datatype Outcome = Returned(value: bool) | Raised

  /** What a prefix of the dispatcher leads to: a handler, or a query kind that is only logged. */
  datatype Verb = Dispatch(handler: Handler) | LogOnly

  /**
   * The prefixes the dispatcher tests, in the order of its `if`/`elif` chain,
   * each with what it leads to; every prefix ends in a space.
   */
  const Prefixes: seq<(string, Verb)> := [
    ("open ", Dispatch(OpenApp)), ("close ", Dispatch(CloseApp)), ("play ", Dispatch(PlayYoutube)),
    ("content ", Dispatch(Content)), ("write ", Dispatch(Content)),
    ("google search ", Dispatch(GoogleSearch)), ("youtube search ", Dispatch(YoutubeSearch)),
    ("system ", Dispatch(Handler.System)), ("general ", LogOnly), ("realtime ", LogOnly)]

  /** The position of the first entry of `table` whose prefix `command` starts with: the branch the chain takes. */
  function FirstMatch(command: string, table: seq<(string, Verb)>): (r: Option<nat>)
    ensures r.Some? ==> r.value < |table| && StartsWith(command, table[r.value].0)
  {
    FirstMatchFrom(command, table, 0)
  }

  /** The test of the chain from entry `from` on. */
  function FirstMatchFrom(command: string, table: seq<(string, Verb)>, from: nat): (r: Option<nat>)
    requires from <= |table|
    ensures r.Some? ==> from <= r.value < |table| && StartsWith(command, table[r.value].0)
    decreases |table| - from
  {
    if from == |table| then None
    else if StartsWith(command, table[from].0) then Some(from)
    else FirstMatchFrom(command, table, from + 1)
  }

  /**
   * The chain from `from` on takes the first matching entry, and takes none
   * exactly when no entry from `from` on matches.
   */
  lemma {:induction false} FirstMatchFromIsFirst(command: string, table: seq<(string, Verb)>, from: nat)
    requires from <= |table|
    ensures var r := FirstMatchFrom(command, table, from);
      (r.Some? ==> forall j :: from <= j < r.value ==> !StartsWith(command, table[j].0))
      && (r.None? <==> forall k :: from <= k < |table| ==> !StartsWith(command, table[k].0))
    decreases |table| - from
  {
    if from < |table| && !StartsWith(command, table[from].0) {
      FirstMatchFromIsFirst(command, table, from + 1);
    }
  }

  /** The chain takes the first matching entry of the table, and none exactly when no entry matches. */
  lemma FirstMatchIsFirst(command: string, table: seq<(string, Verb)>)
    ensures var r := FirstMatch(command, table);
      (r.Some? ==> forall j :: 0 <= j < r.value ==> !StartsWith(command, table[j].0))
      && (r.None? <==> forall k :: 0 <= k < |table| ==> !StartsWith(command, table[k].0))
  {
    FirstMatchFromIsFirst(command, table, 0);
  }

  /** The argument of a command that starts with `prefix`: the rest, stripped. */
  function Argument(command: string, prefix: string): string {
    Strip(RemovePrefix(command, prefix))
  }

  /**
   * The dispatcher's `if`/`elif` chain over a prefix table, for a command it
   * has already stripped: a blank command is dropped, the first prefix the
   * command starts with decides, a logged-only entry makes no call, and a
   * command no prefix matches is logged as unknown.
   */
  function Lookup(command: string, table: seq<(string, Verb)>): Option<Call> {
    if command == "" then None
    else match FirstMatch(command, table)
      case None => None
      case Some(k) =>
        match table[k].1
        case Dispatch(handler) => Some(Call(handler, Argument(command, table[k].0)))
        case LogOnly => None
  }

  /** How the dispatcher reads one raw command: stripped, then looked up in `Prefixes`. */
  function Translate(raw: string): Option<Call> {
    Lookup(Strip(raw), Prefixes)
  }

  /** The calls a command list makes, one per recognised command, in input order. */
  function Calls(commands: seq<string>): (r: seq<Call>)
    ensures |r| <= |commands|
  {
    if commands == [] then []
    else
      var last := match Translate(commands[|commands| - 1]) case Some(c) => [c] case None => [];
      Calls(commands[..|commands| - 1]) + last
  }

  /** `False if isinstance(r, Exception) else r`. */
  function Normalise(o: Outcome): bool {
    match o
    case Returned(b) => b
    case Raised => false
  }

  /**
   * The result list for `commands` when the `i`-th call's run ends with
   * `run(i, call)`: one entry per call, in order.
   */
  function Results(commands: seq<string>, run: (nat, Call) -> Outcome): seq<bool> {
    var calls := Calls(commands);
    seq(|calls|, i requires 0 <= i < |calls| => Normalise(run(i, calls[i])))
  }

  /** `Automation`'s verdict: something ran, and every entry is true. */
  predicate Succeeded(commands: seq<string>, run: (nat, Call) -> Outcome) {
    var results := Results(commands, run);
    |results| > 0 && forall i :: 0 <= i < |results| ==> results[i]
  }

  /** One result per call, in order: true exactly when that call's run returned true. */
  lemma ResultsMeaning(commands: seq<string>, run: (nat, Call) -> Outcome)
    ensures |Results(commands, run)| == |Calls(commands)|
    ensures forall i :: 0 <= i < |Calls(commands)| ==>
      (Results(commands, run)[i] <==> run(i, Calls(commands)[i]) == Returned(true))
  {
  }

  /** `TranslateAndExecute`: reads the commands into calls, runs them, normalises the results. */
  method TranslateAndExecute(commands: seq<string>, run: (nat, Call) -> Outcome) returns (results: seq<bool>)
    ensures results == Results(commands, run)
  {
    var funcs: seq<Call> := [];
    assert commands[..0] == [];
    for i := 0 to |commands|
      invariant funcs == Calls(commands[..i])
    {
      CallsStep(commands, i);
      match Translate(commands[i]) {
        case Some(call) =>
          funcs := funcs + [call];
        case None =>
          // blank, `general`, `realtime` or unknown: only logged
      }
    }
    assert commands[..|commands|] == commands;
    if funcs == [] {
      return [];
    }
    var outcomes := seq(|funcs|, i requires 0 <= i < |funcs| => run(i, funcs[i]));
    results := seq(|outcomes|, i requires 0 <= i < |outcomes| => Normalise(outcomes[i]));
  }

  /** The calls of a list's first `i + 1` commands: those of the first `i`, then the `i`-th command's own. */
  lemma CallsStep(commands: seq<string>, i: nat)
    requires i < |commands|
    ensures Calls(commands[..i + 1]) == Calls(commands[..i]) + match Translate(commands[i]) case Some(c) => [c] case None => []
  {
    assert commands[..i + 1][..i] == commands[..i];
  }

  /** `Automation`: false when nothing was recognised, otherwise `all(results)`. */
  method Automation(commands: seq<string>, run: (nat, Call) -> Outcome) returns (success: bool)
    ensures success == Succeeded(commands, run)
    ensures success <==> |Calls(commands)| > 0
                         && forall i :: 0 <= i < |Calls(commands)| ==> run(i, Calls(commands)[i]) == Returned(true)
  {
    var results := TranslateAndExecute(commands, run);
    ResultsMeaning(commands, run);
    if results == [] {
      return false;
    }
    success := forall i :: 0 <= i < |results| ==> results[i];
  }

  // ---------------------------------------------------------------------------
  // Properties of the chain, for any prefix table.

  /** Every prefix of `table` starts with a lower-case letter and ends in a space. */
  predicate WellFormed(table: seq<(string, Verb)>) {
    forall k :: 0 <= k < |table| ==>
      |table[k].0| >= 2 && 'a' <= table[k].0[0] <= 'z' && table[k].0[|table[k].0| - 1] == ' '
  }

  /** No prefix of `table` is a prefix of another one. */
  predicate PrefixFree(table: seq<(string, Verb)>) {
    forall j, k :: 0 <= j < |table| && 0 <= k < |table| && j != k ==> !StartsWith(table[k].0, table[j].0)
  }

  /** A stripped command that starts with a prefix ending in a space has a non-blank remainder. */
  lemma ArgumentNonBlank(command: string, prefix: string)
    requires IsStripped(command) && StartsWith(command, prefix)
    requires prefix != [] && prefix[|prefix| - 1] == ' '
    ensures Argument(command, prefix) != "" && IsStripped(Argument(command, prefix))
  {
    assert IsSpace(' ');
    var rest := command[|prefix|..];
    assert command[|prefix| - 1] == prefix[|prefix| - 1];
    assert rest[|rest| - 1] == command[|command| - 1];
  }

  /** A prefix followed by a stripped argument is a stripped command whose argument is that one. */
  lemma PrefixedStripped(prefix: string, argument: string)
    requires prefix != [] && 'a' <= prefix[0] <= 'z'
    requires IsStripped(argument) && argument != ""
    ensures Strip(prefix + argument) == prefix + argument
    ensures StartsWith(prefix + argument, prefix) && Argument(prefix + argument, prefix) == argument
  {
    var c := prefix + argument;
    assert c[0] == prefix[0] && c[|c| - 1] == argument[|argument| - 1];
    assert c[..|prefix|] == prefix && c[|prefix|..] == argument;
  }

  /** Every call the chain makes on a stripped command carries a non-empty, stripped argument. */
  lemma LookupArgument(command: string, table: seq<(string, Verb)>)
    requires WellFormed(table) && IsStripped(command) && Lookup(command, table).Some?
    ensures Lookup(command, table).value.argument != "" && IsStripped(Lookup(command, table).value.argument)
  {
    var k := FirstMatch(command, table).value;
    var p := table[k].0;
    assert p != [] && p[|p| - 1] == ' ';
    assert Lookup(command, table) == Some(Call(table[k].1.handler, Argument(command, p)));
    ArgumentNonBlank(command, p);
  }

  /** Two prefixes of one string: the shorter is a prefix of the longer. */
  lemma PrefixOfPrefix(s: string, p: string, q: string)
    requires StartsWith(s, p) && StartsWith(s, q) && |p| <= |q|
    ensures StartsWith(q, p)
  {
    assert q[..|p|] == s[..|q|][..|p|] == s[..|p|];
  }

  /** In a prefix-free table at most one prefix matches any command. */
  lemma MatchExclusive(command: string, table: seq<(string, Verb)>, j: nat, k: nat)
    requires PrefixFree(table) && j < |table| && k < |table|
    requires StartsWith(command, table[j].0) && StartsWith(command, table[k].0)
    ensures j == k
  {
    if |table[j].0| <= |table[k].0| {
      PrefixOfPrefix(command, table[j].0, table[k].0);
    } else {
      PrefixOfPrefix(command, table[k].0, table[j].0);
    }
  }

  /**
   * In a prefix-free table the chain's order decides nothing: a command that
   * starts with an entry's prefix makes that entry's call, or none for a
   * logged-only entry.
   */
  lemma LookupByPrefix(command: string, table: seq<(string, Verb)>, k: nat)
    requires WellFormed(table) && PrefixFree(table)
    requires k < |table| && StartsWith(command, table[k].0)
    ensures Lookup(command, table) == match table[k].1
      case Dispatch(h) => Some(Call(h, Argument(command, table[k].0)))
      case LogOnly => None
  {
    assert command != "";
    FirstMatchIsFirst(command, table);
    var m := FirstMatch(command, table);
    assert m.Some?;
    MatchExclusive(command, table, m.value, k);
  }

  /** A command that starts with no dispatching prefix makes no call. */
  lemma LookupNone(command: string, table: seq<(string, Verb)>)
    requires forall k :: 0 <= k < |table| && table[k].1.Dispatch? ==> !StartsWith(command, table[k].0)
    ensures Lookup(command, table) == None
  {
  }

  // ---------------------------------------------------------------------------
  // Properties of the dispatcher's own table.

  lemma PrefixesWellFormed()
    ensures WellFormed(Prefixes)
  {
  }

  lemma PrefixesPrefixFree()
    ensures PrefixFree(Prefixes)
  {
    forall j, k | 0 <= j < |Prefixes| && 0 <= k < |Prefixes| && j != k
      ensures !StartsWith(Prefixes[k].0, Prefixes[j].0)
    {
      var p, q := Prefixes[j].0, Prefixes[k].0;
      assert |p| >= 5 && |q| >= 5;
      assert p[0] != q[0] || p[1] != q[1];
    }
  }

  /** Every dispatched call carries a non-empty, stripped argument. */
  lemma TranslateArgument(raw: string)
    requires Translate(raw).Some?
    ensures Translate(raw).value.argument != "" && IsStripped(Translate(raw).value.argument)
  {
    PrefixesWellFormed();
    LookupArgument(Strip(raw), Prefixes);
  }

  /** Every call of a command list has a non-empty, stripped argument. */
  lemma {:induction false} CallsArguments(commands: seq<string>)
    ensures forall i :: 0 <= i < |Calls(commands)| ==>
      Calls(commands)[i].argument != "" && IsStripped(Calls(commands)[i].argument)
  {
    if commands != [] {
      CallsArguments(commands[..|commands| - 1]);
      if Translate(commands[|commands| - 1]).Some? {
        TranslateArgument(commands[|commands| - 1]);
      }
    }
  }

  /** Blank commands are skipped. */
  lemma TranslateBlank(raw: string)
    requires AllSpace(raw)
    ensures Translate(raw) == None
  {
  }

  /**
   * A command that starts with an entry's prefix makes that entry's call with
   * the stripped remainder, or none for a logged-only entry, wherever the
   * entry stands in the chain.
   */
  lemma TranslateByPrefix(raw: string, k: nat)
    requires k < |Prefixes| && StartsWith(Strip(raw), Prefixes[k].0)
    ensures Translate(raw) == match Prefixes[k].1
      case Dispatch(h) => Some(Call(h, Argument(Strip(raw), Prefixes[k].0)))
      case LogOnly => None
  {
    PrefixesWellFormed();
    PrefixesPrefixFree();
    LookupByPrefix(Strip(raw), Prefixes, k);
  }

  /** A command that starts with no prefix of the table makes no call. */
  lemma TranslateNoPrefix(raw: string)
    requires forall k :: 0 <= k < |Prefixes| ==> !StartsWith(Strip(raw), Prefixes[k].0)
    ensures Translate(raw) == None
  {
    LookupNone(Strip(raw), Prefixes);
  }

  /** A command that starts with `p` does not start with a `q` that differs from `p` at `i`. */
  lemma PrefixMismatch(c: string, p: string, q: string, i: nat)
    requires StartsWith(c, p) && i < |p| && i < |q| && p[i] != q[i]
    ensures !StartsWith(c, q)
  {
    assert c[i] == p[i];
  }

  /** A command that starts with none of the eight dispatching prefixes makes no call. */
  lemma TranslateUnknown(raw: string)
    requires var c := Strip(raw);
      !StartsWith(c, "open ") && !StartsWith(c, "close ") && !StartsWith(c, "play ") && !StartsWith(c, "content ")
      && !StartsWith(c, "write ") && !StartsWith(c, "google search ") && !StartsWith(c, "youtube search ")
      && !StartsWith(c, "system ")
    ensures Translate(raw) == None
  {
    var c := Strip(raw);
    forall k | 0 <= k < |Prefixes| && Prefixes[k].1.Dispatch?
      ensures !StartsWith(c, Prefixes[k].0)
    {
      assert k < 8;
    }
    LookupNone(c, Prefixes);
  }

  /** A prefix of the table followed by a stripped argument is read as the prefix's call with that argument. */
  lemma PrefixedCommand(argument: string, k: nat)
    requires IsStripped(argument) && argument != "" && k < |Prefixes|
    ensures Translate(Prefixes[k].0 + argument) == match Prefixes[k].1
      case Dispatch(h) => Some(Call(h, argument))
      case LogOnly => None
  {
    PrefixesWellFormed();
    PrefixedStripped(Prefixes[k].0, argument);
    TranslateByPrefix(Prefixes[k].0 + argument, k);
  }

  /** `content ` and `write ` both lead to the `Content` handler. */
  lemma ContentAndWrite(topic: string)
    requires IsStripped(topic) && topic != ""
    ensures Translate("content " + topic) == Some(Call(Content, topic))
    ensures Translate("write " + topic) == Some(Call(Content, topic))
  {
    assert Prefixes[3] == ("content ", Dispatch(Content));
    assert Prefixes[4] == ("write ", Dispatch(Content));
    PrefixedCommand(topic, 3);
    PrefixedCommand(topic, 4);
  }

  /** `general ` and `realtime ` commands make no call. */
  lemma QueriesAreNotDispatched(raw: string)
    requires StartsWith(Strip(raw), "general ") || StartsWith(Strip(raw), "realtime ")
    ensures Translate(raw) == None
  {
    if StartsWith(Strip(raw), "general ") {
      assert Prefixes[8] == ("general ", LogOnly);
      TranslateByPrefix(raw, 8);
    } else {
      assert Prefixes[9] == ("realtime ", LogOnly);
      TranslateByPrefix(raw, 9);
    }
  }

  /** The calls of a concatenation are the calls of its parts, in order. */
  lemma {:induction false} CallsAppend(a: seq<string>, b: seq<string>)
    ensures Calls(a + b) == Calls(a) + Calls(b)
    decreases |b|
  {
    if b == [] {
      assert a + b == a;
    } else {
      var b' := b[..|b| - 1];
      assert (a + b)[..|a + b| - 1] == a + b';
      assert (a + b)[|a + b| - 1] == b[|b| - 1];
      CallsAppend(a, b');
    }
  }

  /** One command makes its own call, or none. */
  lemma CallsOfOne(raw: string)
    ensures Calls([raw]) == match Translate(raw) case Some(c) => [c] case None => []
  {
    assert [raw][..0] == [];
  }

  /**
   * The dispatcher's documented example, for any names: an `open` and a
   * `close` command make their two calls in order, and a command with an
   * unknown verb is dropped.
   */
  lemma ScenarioOpenCloseUnknown(app: string, other: string, unknown: string)
    requires IsStripped(app) && app != "" && IsStripped(other) && other != ""
    requires forall k :: 0 <= k < |Prefixes| ==> !StartsWith(Strip(unknown), Prefixes[k].0)
    ensures Calls(["open " + app, "close " + other, unknown]) == [Call(OpenApp, app), Call(CloseApp, other)]
  {
    var o, c := "open " + app, "close " + other;
    OpenCommand(app);
    CloseCommand(other);
    TranslateNoPrefix(unknown);
    CallsOfTwoAndDropped(o, c, unknown, Call(OpenApp, app), Call(CloseApp, other));
  }

  /** Two recognised commands and one dropped one make the two calls, in order. */
  lemma CallsOfTwoAndDropped(a: string, b: string, c: string, x: Call, y: Call)
    requires Translate(a) == Some(x) && Translate(b) == Some(y) && Translate(c) == None
    ensures Calls([a, b, c]) == [x, y]
  {
    CallsOfOne(a);
    CallsOfOne(b);
    CallsOfOne(c);
    CallsOfThree(a, b, c);
  }

  /** Three commands make the calls of each, in order. */
  lemma CallsOfThree(a: string, b: string, c: string)
    ensures Calls([a, b, c]) == Calls([a]) + Calls([b]) + Calls([c])
  {
    CallsAppend([a], [b]);
    CallsAppend([a, b], [c]);
    assert [a] + [b] == [a, b];
    assert [a, b] + [c] == [a, b, c];
  }

  lemma OpenCommand(app: string)
    requires IsStripped(app) && app != ""
    ensures Translate("open " + app) == Some(Call(OpenApp, app))
  {
    assert Prefixes[0] == ("open ", Dispatch(OpenApp));
    PrefixedCommand(app, 0);
  }

  lemma CloseCommand(app: string)
    requires IsStripped(app) && app != ""
    ensures Translate("close " + app) == Some(Call(CloseApp, app))
  {
    assert Prefixes[1] == ("close ", Dispatch(CloseApp));
    PrefixedCommand(app, 1);
  }

  /** With nothing recognised, automation reports failure. */
  lemma NothingRecognisedFails(commands: seq<string>, run: (nat, Call) -> Outcome)
    requires forall i :: 0 <= i < |commands| ==> Translate(commands[i]) == None
    ensures !Succeeded(commands, run)
  {
    NoCalls(commands);
  }

  lemma {:induction false} NoCalls(commands: seq<string>)
    requires forall i :: 0 <= i < |commands| ==> Translate(commands[i]) == None
    ensures Calls(commands) == []
  {
    if commands != [] {
      NoCalls(commands[..|commands| - 1]);
    }
  }

  /**
   * A call that raises yields `false` in its own entry, and every other entry
   * keeps the value of its own run: changing one call's outcome changes no
   * other entry.
   */
  lemma RaiseIsolated(commands: seq<string>, run: (nat, Call) -> Outcome, run': (nat, Call) -> Outcome, i: nat)
    requires i < |Calls(commands)|
    requires run'(i, Calls(commands)[i]) == Raised
    requires forall j :: 0 <= j < |Calls(commands)| && j != i ==> run'(j, Calls(commands)[j]) == run(j, Calls(commands)[j])
    ensures |Results(commands, run')| == |Results(commands, run)|
    ensures !Results(commands, run')[i]
    ensures forall j :: 0 <= j < |Calls(commands)| && j != i ==> Results(commands, run')[j] == Results(commands, run)[j]
  {
  }

  // ---------------------------------------------------------------------------
  // The handlers' own rules.

  /** The key actions of `System`'s vocabulary. */
  const SystemActions: map<string, string> :=
    map["mute" := "volume mute", "unmute" := "volume mute", "volume up" := "volume up", "volume down" := "volume down"]

  /** The key action for a `System` command, after strip and lower-casing. */
  function SystemAction(command: string): (r: Option<string>)
    ensures r.Some? <==> Lower(Strip(command)) in {"mute", "unmute", "volume up", "volume down"}
    ensures r.Some? ==> r.value in {"volume mute", "volume up", "volume down"}
  {
    var key := Lower(Strip(command));
    SystemActionsShape();
    if key in SystemActions then Some(SystemActions[key]) else None
  }

  /** The table's keys are the four command words, and its values three key actions. */
  lemma SystemActionsShape()
    ensures SystemActions.Keys == {"mute", "unmute", "volume up", "volume down"}
    ensures forall key :: key in SystemActions ==> SystemActions[key] in {"volume mute", "volume up", "volume down"}
    ensures SystemActions["mute"] == SystemActions["unmute"] == "volume mute"
  {
  }

  /** What `System` did: its result and the key action it pressed, if it pressed one. */
  datatype SystemRun = SystemRun(ok: bool, pressed: Option<string>)

  /**
   * `System(command)` when pressing a key action `a` succeeds exactly when
   * `pressOk(a)`: an unknown command fails without pressing anything.
   */
  function SystemCommand(command: string, pressOk: string -> bool): (r: SystemRun)
    ensures r.pressed == SystemAction(command)
    ensures r.ok <==> r.pressed.Some? && pressOk(r.pressed.value)
    ensures SystemAction(command).None? ==> r == SystemRun(false, None)
  {
    match SystemAction(command)
    case Some(action) => SystemRun(pressOk(action), Some(action))
    case None => SystemRun(false, None)
  }

  /**
   * `mute` and `unmute` press the same key action, whatever their case and
   * surrounding blanks: any two such commands are one action.
   */
  lemma MuteUnmuteSameAction(a: string, b: string)
    requires Lower(Strip(a)) in {"mute", "unmute"} && Lower(Strip(b)) in {"mute", "unmute"}
    ensures SystemAction(a) == SystemAction(b) == Some("volume mute")
  {
    SystemActionsShape();
  }

  /** The topic `Content` writes about: every `content` deleted, then stripped. */
  function ContentTopic(topic: string): (r: string)
    ensures IsStripped(r) && |r| <= |topic|
    ensures !Contains(topic, "content") ==> r == Strip(topic)
  {
    Strip(Replace(topic, "content", ""))
  }

  /** The file `Content` writes: `Data/` + the topic lower-cased without spaces + `.txt`. */
  function ContentFile(topic: string): (r: string)
    ensures StartsWith(r, "Data/") && |r| == |ContentFileStem(topic)| + 9
    ensures r[5..|r| - 4] == ContentFileStem(topic) && r[|r| - 4..] == ".txt"
  {
    "Data/" + ContentFileStem(topic) + ".txt"
  }

  /** The file name's stem: no space and no ASCII capital is left in it; other capitals stay (see `Lower`). */
  function ContentFileStem(topic: string): (r: string)
    ensures ' ' !in r
    ensures forall i :: 0 <= i < |r| ==> !('A' <= r[i] <= 'Z')
  {
    var lowered := Lower(topic);
    var r := Replace(lowered, " ", "");
    ReplaceCharRemoves(lowered, ' ');
    ReplaceKeepsChars(lowered, " ");
    LowerHasNoUpper(topic);
    assert forall i | 0 <= i < |r| :: r[i] in r;
    r
  }

  lemma LowerHasNoUpper(s: string)
    ensures forall c :: c in Lower(s) ==> !('A' <= c <= 'Z')
  {
    forall c | c in Lower(s) ensures !('A' <= c <= 'Z') {
      var i :| 0 <= i < |s| && Lower(s)[i] == c;
    }
  }

  /** Deleting a pattern only removes characters: what is left came from the input. */
  lemma {:induction false} ReplaceKeepsChars(s: string, pat: string)
    requires pat != []
    ensures forall c :: c in Replace(s, pat, "") ==> c in s
    decreases |s|
  {
    if StartsWith(s, pat) {
      ReplaceKeepsChars(s[|pat|..], pat);
      forall c | c in s[|pat|..] ensures c in s { }
    } else if s != [] {
      ReplaceKeepsChars(s[1..], pat);
      forall c | c in s[1..] ensures c in s { }
    }
  }

  /** How `CloseApp` closes an application. */
  datatype CloseRoute = ForceTerminate | CloseByName

  /** Chrome, named anywhere in the application name in any ASCII case, is force-terminated. */
  function CloseRouteFor(app: string): (r: CloseRoute)
    ensures r == ForceTerminate <==> Contains(Lower(app), "chrome")
  {
    if Contains(Lower(app), "chrome") then ForceTerminate else CloseByName
  }

  /** How the forced `taskkill` run ended. */
  datatype TaskKill = Terminated | NonZeroExit | NotStarted

  /**
   * `CloseApp(app)`: the forced terminate of Chrome is true on success and false
   * on a non-zero exit; a `taskkill` that cannot be started raises, since only
   * `CalledProcessError` is caught; any other application is closed by name.
   */
  function CloseAppRun(app: string, taskkill: TaskKill, closedByName: bool): (r: Outcome)
    ensures r == Raised <==> CloseRouteFor(app) == ForceTerminate && taskkill == NotStarted
    ensures CloseRouteFor(app) == CloseByName ==> r == Returned(closedByName)
    ensures Normalise(r) <==> if CloseRouteFor(app) == ForceTerminate then taskkill == Terminated else closedByName
  {
    match CloseRouteFor(app)
    case ForceTerminate =>
      (match taskkill
       case Terminated => Returned(true)
       case NonZeroExit => Returned(false)
       case NotStarted => Raised)
    case CloseByName => Returned(closedByName)
  }

  /** Any application name holding `chrome` in any ASCII case is force-terminated. */
  lemma CloseChromeAnyCase(before: string, name: string, after: string)
    requires Lower(name) == "chrome"
    ensures CloseRouteFor(before + name + after) == ForceTerminate
  {
    var s := before + name + after;
    LowerAppend(before + name, after);
    LowerAppend(before, name);
    assert Lower(s)[|before|..][..6] == "chrome";
    ContainsAt(Lower(s), "chrome", |before|);
  }

  /** A name without a `c` is closed by name. */
  lemma CloseByNameWithoutC(app: string)
    requires 'c' !in app && 'C' !in app
    ensures CloseRouteFor(app) == CloseByName
  {
    forall i | 0 <= i < |app| ensures Lower(app)[i] != 'c' { }
    if Contains(Lower(app), "chrome") {
      ContainsFirstChar(Lower(app), "chrome");
    }
  }

  /** The web search `OpenApp` falls back on. */
  function OfficialSiteQuery(app: string): string {
    "https://www.google.com/search?q=" + app + "+official+site"
  }

  /** The result links of a fetched page: the `href`s present and non-empty, in page order. */
  function Links(hrefs: seq<Option<string>>): (r: seq<string>)
    ensures |r| <= |hrefs|
    ensures forall k :: 0 <= k < |r| ==> r[k] != ""
  {
    if hrefs == [] then []
    else (if hrefs[0].Some? && hrefs[0].value != "" then [hrefs[0].value] else []) + Links(hrefs[1..])
  }

  /** The fallback's request: the `href`s of the result page, or a failed request. */
  datatype Fetch = Page(hrefs: seq<Option<string>>) | RequestFailed

  /** What `OpenApp` did: its result and the link it handed to the browser, if any. */
  datatype OpenRun = OpenRun(ok: bool, link: Option<string>)

  /**
   * `OpenApp(app)`: a direct launch wins; otherwise the first result link of the
   * official-site search is handed to the browser, and the call fails when the
   * launch fails and the request fails, finds no link, or the browser call
   * raises. `browserReturned` is only whether `webbrowser.open` returned
   * without raising: the boolean it returns is ignored.
   */
  function OpenAppRun(launched: bool, fetch: Fetch, browserReturned: bool): (r: OpenRun)
    ensures r.ok <==> launched || (fetch.Page? && Links(fetch.hrefs) != [] && browserReturned)
    ensures r.link.Some? <==> !launched && r.ok
    ensures r.link.Some? ==> r.link.value == Links(fetch.hrefs)[0]
  {
    if launched then OpenRun(true, None)
    else match fetch
      case RequestFailed => OpenRun(false, None)
      case Page(hrefs) =>
        var links := Links(hrefs);
        if links == [] then OpenRun(false, None)
        else if browserReturned then OpenRun(true, Some(links[0]))
        else OpenRun(false, None)
  }

  const YoutubeResults := "https://www.youtube.com/results?search_query="

  /** The page `YoutubeSearch` opens: the topic is appended as it is, not encoded. */
  function YoutubeUrl(topic: string): (r: string)
    ensures StartsWith(r, YoutubeResults)
    ensures RemovePrefix(r, YoutubeResults) == topic
  {
    var r := YoutubeResults + topic;
    assert r[..|YoutubeResults|] == YoutubeResults;
    r
  }

  /** The text `content_writer_ai` returns when the Groq client could not be created. */
  function FallbackText(prompt: string): string {
    "This is a fallback response for '" + prompt + "' because the AI service is unavailable."
  }

  /**
   * The content writer of `Content`: its history of prompts and answers,
   * which only grows (`messages` in the source).
   */
  class ContentWriter {
    var messages: seq<Message>
    /** Whether the Groq client was created at start-up. */
    const clientReady: bool
    /** The system prompt placed before the history. */
    const systemPrompt: string

    constructor (clientReady: bool, systemPrompt: string)
      ensures messages == [] && this.clientReady == clientReady && this.systemPrompt == systemPrompt
    {
      messages := [];
      this.clientReady := clientReady;
      this.systemPrompt := systemPrompt;
    }

    /**
     * `content_writer_ai`: without a client, the fallback text and no history
     * change; with one, the prompt is recorded, the request is the system
     * prompt followed by the history, and the answer is recorded only when the
     * stream completes.
     */
    method Write(prompt: string, reply: Completion) returns (text: string, request: Option<seq<Message>>)
      modifies this
      ensures !clientReady ==> text == FallbackText(prompt) && request == None && messages == old(messages)
      ensures clientReady ==> request == Some([Message(Role.System, systemPrompt)] + old(messages) + [Message(User, prompt)])
      ensures clientReady && reply.Streamed? ==>
        text == Flatten(reply.chunks)
        && messages == old(messages) + [Message(User, prompt), Message(Assistant, text)]
      ensures clientReady && reply.Failed? ==>
        text == "Error: " + reply.error && messages == old(messages) + [Message(User, prompt)]
    {
      if !clientReady {
        return FallbackText(prompt), None;
      }
      messages := messages + [Message(User, prompt)];
      request := Some([Message(Role.System, systemPrompt)] + messages);
      assert [Message(Role.System, systemPrompt)] + messages
          == [Message(Role.System, systemPrompt)] + old(messages) + [Message(User, prompt)];
      match reply {
        case Streamed(chunks) =>
          text := Flatten(chunks);
          messages := messages + [Message(Assistant, text)];
          assert messages == old(messages) + [Message(User, prompt), Message(Assistant, text)];
        case Failed(error) =>
          text := "Error: " + error;
      }
    }

    /**
     * `Content(topic)`: cleans the topic, generates the text, always writes it
     * (even an error text) to the topic's file, then opens the editor; the
     * result is false when the write fails or the editor cannot be started.
     */
    method Content(topic: string, reply: Completion, writeOk: bool, editorOk: bool)
      returns (ok: bool, path: string, written: Option<string>)
      modifies this
      ensures path == ContentFile(ContentTopic(topic))
      ensures ok <==> writeOk && editorOk
      ensures writeOk ==> written.Some?
      ensures !writeOk ==> written.None?
      ensures clientReady && reply.Streamed? ==>
        messages == old(messages) + [Message(User, ContentTopic(topic)), Message(Assistant, Flatten(reply.chunks))]
        && (writeOk ==> written == Some(Flatten(reply.chunks)))
      ensures clientReady && reply.Failed? ==>
        messages == old(messages) + [Message(User, ContentTopic(topic))]
        && (writeOk ==> written == Some("Error: " + reply.error))
      ensures !clientReady ==> messages == old(messages) && (writeOk ==> written == Some(FallbackText(ContentTopic(topic))))
    {
      var cleaned := ContentTopic(topic);
      var text, _ := Write(cleaned, reply);
      path := ContentFile(cleaned);
      if !writeOk {
        return false, path, None;
      }
      written := Some(text);
      ok := editorOk;
    }
  }
}
