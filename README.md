# A verified model of a voice assistant's decision logic

The assistant listens for speech, classifies it into intents, and sends each
turn to a back end: application and media commands, content writing, image
generation, a chat bot, or a web-search chat bot. Most of its code calls
engines, network services or the operating system. This project models the
string rules and decisions underneath that glue, in Dafny, and proves what
they guarantee.

| module | file | models |
|---|---|---|
| `Text` | Text.dfy | the Python `str` operations the rules are built from: `isspace`, `strip`, `startswith`, `in`, `replace`, `removeprefix`, `lower`, `split`, `join` |
| `Chat` | Chat.dfy | history entries, streamed completions, and `AnswerModifier` (keep the stripped, non-blank lines), which both chat back ends define identically |
| `Automation` | Automation.dfy | `Backend/Automation.py`: the command dispatcher `TranslateAndExecute`, the verdict `Automation`, and the string rules of `System`, `Content`, `CloseApp`, `OpenApp` and `YoutubeSearch` |
| `ImageGeneration` | ImageGeneration.dfy | `Backend/ImageGeneration.py`: the `"<prompt>,<status>"` handoff file, its polling loop and reply, and the saved and opened image names |
| `Chatbot` | Chatbot.dfy | `Backend/Chatbot.py`: one `ChatBot` turn over the shared history |
| `RealtimeSearchEngine` | RealtimeSearchEngine.dfy | `Backend/RealtimeSearchEngine.py`: result formatting in `GoogleSearch` and one `RealtimeSearchEngine` turn |
| `ChatLog` | ChatLog.dfy | `ChatLogIntegration` in `main.py`: the saved history as display text |
| `Assistant` | Assistant.dfy | `main.py`: the routing of `MainExecution`, one iteration of `FirstThread`, the sleep, wake and shutdown effects, `InitialExecution`, `CheckSystem` and the greeting bands |
| `Wrappers` | Wrappers.dfy | `Option`, for `None` and missing keys |

How the model is built:

- Foreign calls are inputs.
  - A handler's run is an `Outcome` (returned a boolean, or raised).
  - A completion is a `Completion` (streamed chunks, or the exception text).
  - A search is a `SearchResponse`.
  - The clap detector, speech recogniser, classifier and clock values are fields of the turn's `Event` or `TurnInput`.
- `asyncio.gather` is an order-preserving map over the calls.
- State the source keeps in module globals or files is a class with fields.
  - `Assistant.Session` holds the microphone and status strings of the GUI files, the last interaction time, the process handles, how the listening thread ended (`halted`) and the handoff file.
  - `Automation.ContentWriter`, `Chatbot.ChatBot` and `RealtimeSearchEngine.SearchEngine` hold the chat histories.
  - `ImageGeneration.DataFolder` holds the `Data` folder, as a map from file names to bytes.
  - `ImageGeneration.HandoffFile` holds the handoff file.
- Each method that changes state is proved against a function of the old state and its inputs (`Turn`, `Step`, `RunSteps`, `ShutdownState`, `Poll`, `RunPolls`, `SavedFolder`, …). The properties are then lemmas about those functions.
- The dispatcher's `if`/`elif` chain is a first match over an ordered prefix table, `Automation.Prefixes`. The lemmas prove the table prefix-free, so the order of the chain decides nothing.

Where the code and the written description of the system differ, the model
follows the code:

- The last loop of `MainExecution` tests `"realtime" in Queries`, a substring test, while the search branch before it tests `startswith("realtime")`. So the realtime case of the last loop is reachable, for an intent that contains `realtime` without starting with it; `Assistant.InnerRealtimeGoesToChat` proves where it goes: to the chat bot, not the search engine.
- Sleep starts when the idle time is strictly greater than 60 seconds (main.py:336).
- A wake leaves the status at "Waking up"; it becomes Listening only when the next iteration runs a turn. There is no direct move to Available.
- The realtime branch of `MainExecution` calls the search engine whenever some intent starts with `realtime`: `G and R or R` is `R`.
- A search without results raises `ValueError` in the search engine (see "## Findings"), and neither `MainExecution` nor `FirstThread` catches it, so the listening thread ends while the GUI goes on; `Assistant.SearchTurnOutcome` states this.
- A confirmed shutdown calls `sys.exit(0)` in the listening thread, which ends that thread only; the GUI window stays open.
- After a turn that heard something, the idle time counts from the clock reading taken after the speech was recognised (main.py:229), not from the start of the iteration.

## Model

| member | source | states |
|---|---|---|
| Automation.FirstMatch | Backend/Automation.py:194-215 | a branch the `if`/`elif` chain takes is an entry of the table whose prefix the command starts with |
| Automation.FirstMatchFrom | Backend/Automation.py:194-215 | a branch the chain takes from a given entry on is an entry from there on whose prefix the command starts with |
| Automation.FirstMatchIsFirst | Backend/Automation.py:194-215 | the chain takes the first matching prefix in its order, and takes no branch exactly when no prefix matches |
| Automation.FirstMatchFromIsFirst | Backend/Automation.py:194-215 | the same, from any position of the chain on |
| Automation.Calls | Backend/Automation.py:190-215 | a command list makes at most one call per command |
| Automation.TranslateAndExecute | Backend/Automation.py:187-224 | the loop collects the calls of the recognised commands in input order, returns `[]` when there are none, runs them and maps every exception to `false`: the result is `Results(commands, run)` |
| Automation.CallsStep | Backend/Automation.py:190-215 | proof step only: unfolds `Calls` by one command, used for `TranslateAndExecute`'s loop invariant |
| Automation.ResultsMeaning | Backend/Automation.py:221-222 | one result per call in call order, and a result is true exactly when that call returned `True` (an exception or `False` gives false) |
| Automation.Automation | Backend/Automation.py:226-236 | true exactly when at least one command was recognised and every call returned `True`; false when nothing was recognised |
| Automation.ArgumentNonBlank | Backend/Automation.py:191-209 | after a prefix ending in a space, the remainder of a stripped command is non-empty and stripped |
| Automation.PrefixedStripped | Backend/Automation.py:191-209 | a prefix followed by a stripped argument survives `strip()` and gives back that argument |
| Automation.LookupArgument | Backend/Automation.py:191-209 | for any well-formed prefix table, every call made carries a non-empty, stripped argument |
| Automation.PrefixOfPrefix | Backend/Automation.py:194-215 | two prefixes of one command: the shorter is a prefix of the longer |
| Automation.MatchExclusive | Backend/Automation.py:194-215 | in a prefix-free table at most one prefix matches a command |
| Automation.LookupByPrefix | Backend/Automation.py:194-215 | in a prefix-free table the chain's order decides nothing: a command starting with an entry's prefix gets that entry's call, or none for a logged-only entry |
| Automation.LookupNone | Backend/Automation.py:210-215 | a command that starts with no dispatching prefix makes no call |
| Automation.PrefixesWellFormed | Backend/Automation.py:194-213 | every prefix of the dispatcher starts with a lower-case letter and ends in a space |
| Automation.PrefixesPrefixFree | Backend/Automation.py:194-213 | no prefix of the dispatcher is a prefix of another one |
| Automation.TranslateArgument | Backend/Automation.py:191-209 | every dispatched call carries a non-empty, stripped argument |
| Automation.CallsArguments | Backend/Automation.py:190-209 | every call of a command list carries a non-empty, stripped argument |
| Automation.TranslateBlank | Backend/Automation.py:191-193 | a blank command is skipped |
| Automation.TranslateByPrefix | Backend/Automation.py:194-213 | a command starting with a prefix of the table makes that prefix's call with the stripped remainder, or none for `general `/`realtime ` |
| Automation.TranslateNoPrefix | Backend/Automation.py:214-215 | a command with no known prefix makes no call |
| Automation.PrefixMismatch | Backend/Automation.py:194-209 | a command that starts with one prefix does not start with a prefix that differs from it in some position |
| Automation.TranslateUnknown | Backend/Automation.py:194-215 | a command that starts with none of the eight dispatching prefixes makes no call |
| Automation.PrefixedCommand | Backend/Automation.py:194-213 | a prefix followed by a stripped, non-empty argument is read as that prefix's call with exactly that argument |
| Automation.ContentAndWrite | Backend/Automation.py:200-203 | `content ` and `write ` both lead to `Content` with the same topic |
| Automation.QueriesAreNotDispatched | Backend/Automation.py:210-213 | `general ` and `realtime ` commands make no call |
| Automation.CallsAppend | Backend/Automation.py:190-215 | the calls of a concatenation are the calls of its parts, in order |
| Automation.CallsOfOne | Backend/Automation.py:190-215 | one command makes its own call, or none |
| Automation.CallsOfThree | Backend/Automation.py:190-215 | three commands make the calls of each, in order |
| Automation.CallsOfTwoAndDropped | Backend/Automation.py:190-215 | two recognised commands and one dropped command make just the two calls, in order |
| Automation.ScenarioOpenCloseUnknown | Backend/Automation.py:194-197 | `open a, close b, <unknown>` makes exactly `OpenApp(a)` then `CloseApp(b)` |
| Automation.OpenCommand | Backend/Automation.py:194-195 | `open <app>` calls `OpenApp(app)` |
| Automation.CloseCommand | Backend/Automation.py:196-197 | `close <app>` calls `CloseApp(app)` |
| Automation.NothingRecognisedFails | Backend/Automation.py:217-219 | when no command is recognised, `Automation` reports failure, whatever the handlers would do |
| Automation.NoCalls | Backend/Automation.py:217-219 | when no command is recognised, no call is made |
| Automation.RaiseIsolated | Backend/Automation.py:221-222 | a call that raises gives `false` in its own entry and changes no other entry |
| Automation.SystemAction | Backend/Automation.py:170-177 | a key action exists exactly for the four command words after strip and lower-casing, and it is one of the three key actions |
| Automation.SystemActionsShape | Backend/Automation.py:170-175 | the table's keys are `mute`, `unmute`, `volume up` and `volume down`; `mute` and `unmute` press the same key |
| Automation.SystemCommand | Backend/Automation.py:168-185 | `System` presses exactly the looked-up action and succeeds exactly when that press succeeds; an unknown command fails without pressing anything |
| Automation.MuteUnmuteSameAction | Backend/Automation.py:171-172 | `mute` and `unmute`, in any case and with any surrounding blanks, press `volume mute` |
| Automation.ContentTopic | Backend/Automation.py:90 | the cleaned topic is stripped and no longer than the input; a topic without `content` is only stripped |
| Automation.ContentFile | Backend/Automation.py:96 | the path is `Data/`, then the stem, then `.txt` |
| Automation.ContentFileStem | Backend/Automation.py:96 | the stem holds no space and no upper-case letter |
| Automation.LowerHasNoUpper | Backend/Automation.py:96 | a lower-cased text holds no upper-case ASCII letter |
| Automation.ReplaceKeepsChars | Backend/Automation.py:90 | deleting a pattern only removes characters |
| Automation.CloseRouteFor | Backend/Automation.py:152 | Chrome is force-terminated exactly when `chrome` occurs in the lower-cased name |
| Automation.CloseAppRun | Backend/Automation.py:150-166 | a `taskkill` that cannot be started raises (only `CalledProcessError` is caught); otherwise the result is the forced terminate's success or the close by name |
| Automation.CloseChromeAnyCase | Backend/Automation.py:152-159 | a name holding `chrome` in any case, anywhere, is force-terminated |
| Automation.CloseByNameWithoutC | Backend/Automation.py:160-166 | a name without a `c` is closed by name |
| Automation.Links | Backend/Automation.py:131-134 | the extracted links are non-empty `href`s, at most one per anchor |
| Automation.OpenAppRun | Backend/Automation.py:125-148 | `OpenApp` succeeds exactly when the launch succeeds, or the fallback finds a link and `webbrowser.open` returns without raising (its boolean is ignored); the link handed over is the first one found |
| Automation.YoutubeUrl | Backend/Automation.py:109 | the URL is the results page followed by the topic, unencoded, and gives the topic back |
| Automation.ContentWriter.constructor | Backend/Automation.py:37-41 | the history starts empty |
| Automation.ContentWriter.Write | Backend/Automation.py:64-88 | without a client: the fallback text, no history change. With one: the request is the system prompt then the history with the prompt; a completed stream records the answer; a failure gives `Error: …` and records only the prompt |
| Automation.ContentWriter.Content | Backend/Automation.py:52-104 | the path comes from the cleaned topic; the text is always written when the write succeeds: the answer, the `Error: …` text of a failed completion, or the fallback text without a client; the result is true exactly when the write and the editor launch both succeed |
| Assistant.QueryParts | main.py:241-243 | at most one part per intent |
| Assistant.QueryPartsAppend | main.py:241-243 | merging keeps the intents' order: the parts of a concatenation are the parts of each side, concatenated |
| Assistant.QueryPartsEmpty | main.py:238-243 | there is something to merge exactly when `G` or `R` holds |
| Assistant.SomeStartsWithStep | main.py:238-239 | `any(i.startswith(w) …)` over a non-empty list holds exactly when it holds before the last intent or for the last one |
| Assistant.WordOf | main.py:242 | the first word of a text that starts with a whitespace-free word is that word |
| Assistant.OneWord | main.py:242 | `split()` of a whitespace-free word is that word alone |
| Assistant.TokensAfterSpace | main.py:242 | leading whitespace does not change `split()` |
| Assistant.TwoWords | main.py:242 | two words with one space between them split into those two words |
| Assistant.RemainderOf | main.py:242 | `" ".join(i.split()[1:])` of a two-word intent is its second word |
| Assistant.QueryPartOf | main.py:242 | `general <w>` and `realtime <w>` contribute `w` to the merged query |
| Assistant.QueryPartsOfTwo | main.py:241-243 | two intents contribute their parts, in order |
| Assistant.MergedPair | main.py:241-243 | `["general a", "realtime b"]` merges into `"a and b"` |
| Assistant.ExampleWords | main.py:241-243 | the words of the merge example are whitespace-free |
| Assistant.MergedQueryExample | main.py:241-243 | `["general weather", "realtime news"]` merges into `"weather and news"` |
| Assistant.ImagePrompt | main.py:245-248 | there is an image prompt exactly when some intent contains `generate image` |
| Assistant.ImagePromptIsLast | main.py:245-248 | the prompt comes from the last intent that contains `generate image`, with `generate image ` deleted |
| Assistant.PresentationOf | main.py:249-254 | the company is always the placeholder; the fields stay empty exactly when no intent on the presentation branch has three words |
| Assistant.BothPhrasesImageOnly | main.py:246-249 | an intent that holds both phrases takes only the image branch: it sets the prompt and leaves the presentation fields and flag as they were |
| Assistant.ImagePromptStep | main.py:245-248 | proof step only: unfolds `ImagePrompt` by one intent, used for `ScanIntents` |
| Assistant.PresentationOfStep | main.py:249-254 | proof step only: unfolds `PresentationOf` by one intent, used for `ScanIntents` |
| Assistant.PresentationRequestedStep | main.py:249-255 | one more intent raises the flag exactly when it reaches the presentation branch |
| Assistant.ScanIntents | main.py:245-255 | the first loop computes the image prompt, the presentation fields and the presentation flag as `ImagePrompt`, `PresentationOf` and `PresentationRequested` define them |
| Assistant.DetectTask | main.py:257-260 | `TaskExecution` holds exactly when some intent starts with an entry of `Functions` |
| Assistant.RawPrefixIsTask | main.py:257-260 | the test is a raw prefix with no word boundary: `open` followed by anything is a task |
| Assistant.Fallback | main.py:308-329 | the last loop ends in the general chat, the realtime chat, the shutdown, or no branch |
| Assistant.FallbackFirst | main.py:308-329 | the first intent that mentions `general`, `realtime` or `exit` decides the branch |
| Assistant.FallbackNone | main.py:308-329 | with no such intent, `MainExecution` falls off its end |
| Assistant.FallbackScan | main.py:308-329 | the loop returns the branch `Fallback` defines |
| Assistant.Decide | main.py:262-329 | image generation exactly when some intent asks for it; automation of the whole intent list exactly when there is no image prompt and a task intent; the search engine with the merged query exactly when neither holds and some intent starts with `realtime` (`G and R or R` is just `R`) |
| Assistant.DecideBranches | main.py:262-329 | proof step only: unfolds `Decide` on the values the loops and the `R` test computed, used for `DecideRoute` |
| Assistant.DecideRoute | main.py:238-329 | the routing part of `MainExecution` takes the route `Decide` defines |
| Assistant.StripKeepsHead | Backend/Automation.py:191 | stripping keeps the first two characters when neither is whitespace |
| Assistant.PresentationAloneFails | main.py:286-296 | a lone `create presentation …` intent is sent to automation; no handler recognises it, so the turn fails |
| Assistant.PresentationIsTask | main.py:41 | a presentation request is a task intent |
| Assistant.PresentationUnknown | Backend/Automation.py:194-215 | the dispatcher has no branch for a presentation request |
| Assistant.InnerRealtimeGoesToChat | main.py:298-326 | an intent that contains `realtime` but does not start with it goes past the search engine to the chat bot, with `realtime ` deleted |
| Assistant.StopAll | main.py:181-187 | every handle is signalled in place: a running one is terminated, and killed when the wait times out |
| Assistant.Classify | main.py:333-357 | exactly one branch of the loop applies: sleep when the microphone is on and the idle time is over 60 seconds; a turn when it is on otherwise; wake when asleep with a clap, or with speech within 60 seconds; stay asleep with neither; otherwise settle |
| Assistant.Session.InitialExecution | main.py:147-169 | a passed check leaves the microphone off, the status Available and the clock reset; a failed check ends the process with `sys.exit(1)` (it runs in the main thread) and leaves the GUI files as they were |
| Assistant.Session.EnterSleepMode | main.py:194-206 | the microphone goes off, the status becomes Sleeping and the clock is reset; nothing else changes |
| Assistant.Session.WakeFromSleep | main.py:208-216 | the microphone goes on and the status becomes Waking up; nothing else changes |
| Assistant.Session.ShutdownAssistant | main.py:173-192 | the new state is `ShutdownState`: on `exit` (any case) every running process is stopped and `sys.exit(0)` ends the listening thread, while the GUI goes on; on any other reply the status is Available again |
| Assistant.Session.MainExecution | main.py:218-329 | the turn takes the route `Decide` gives, and the new state and the result are what `Turn` defines: the clock is reset to the reading after speech was heard, and a search without results raises and ends the listening thread |
| Assistant.Session.ExecuteTurn | main.py:226-233 | the clock is reset, to the reading taken after the speech was recognised, only when something was heard; the status passes through Listening to Thinking, and the route is taken from there |
| Assistant.Session.TakeRoute | main.py:262-329 | the new state and the result are what `RouteEffect` defines for the route: image handoff and a new handle, the automation verdict, the search and chat statuses, the uncaught exception of a search without results (status Searching, thread ended), the shutdown, or no result |
| Assistant.Session.Iterate | main.py:333-357 | one iteration does what `Step` defines: sleep and wake reset the clock to their own reading, a turn to the reading after its speech |
| Assistant.Session.FirstThread | main.py:331-357 | the loop ends in the state `RunSteps` defines: it stops when the events run out, a confirmed shutdown calls `sys.exit(0)`, or a search without results raises |
| Assistant.SearchRaisesExactly | Backend/RealtimeSearchEngine.py:91 | the search engine raises for a response exactly when `GoogleSearch`'s return value cannot be unpacked into two names, whatever the query |
| Assistant.SearchTurnOutcome | main.py:298-305 | a search turn without results leaves the status Searching and ends `FirstThread`; any other search response is answered, with status Answering and result `True` |
| Assistant.IdleCountsFromHeardSpeech | main.py:229 | after a turn that heard something, the idle time counts from the reading after the speech, and the next iteration runs a turn within 60 seconds of it and sleeps after that |
| Assistant.LateSpeechKeepsAwake | main.py:335-352 | a turn at 50 heard at 58, then an iteration at 115: the idle time is 57, so a turn runs again |
| Assistant.ShutdownStopsAll | main.py:180-188 | a confirmed shutdown ends the thread with `sys.exit(0)`, terminates every running process, kills only those that outlast the wait, and leaves every other handle as it was |
| Assistant.PaddedExitCancels | main.py:180 | a reply with a space before `exit` cancels the shutdown and leaves the processes alone |
| Assistant.UpperExitConfirms | main.py:180 | `EXIT` confirms the shutdown |
| Assistant.SleepIsQuiet | main.py:336-350 | an idle loop falls asleep and then stays asleep while it hears nothing |
| Assistant.AsleepRunsNoTurn | main.py:338-350 | while asleep, no iteration runs a turn: handles, handoff file and `halted` stay as they are |
| Assistant.WakeThenTurn | main.py:336-352 | after a clap wakes it, the next iteration runs a turn within 60 seconds and sleeps again after that |
| Assistant.SettleKeepsRestingStatus | main.py:353-357 | the last branch leaves the Available status alone and resets any status that is neither Available nor Sleeping |
| Assistant.TurnKeepsMic | main.py:218-329 | a turn never touches the microphone flag |
| Assistant.ImageTurnHandoff | main.py:262-266 | an image turn writes a handoff string that the generator reads back as a triggered request for the same prompt |
| Assistant.HaltedStays | main.py:331-357 | once the listening thread has ended (shutdown or uncaught exception), later iterations change nothing |
| Assistant.FirstMissing | main.py:134-142 | no component is reported missing exactly when every directory exists |
| Assistant.CheckSystem | main.py:132-145 | the components are checked in order, the first missing one is reported, and the check passes exactly when all exist |
| Assistant.CheckOrder | main.py:134 | Backend is checked first, then Frontend, then Data |
| Assistant.GreetingBands | main.py:119-127 | morning exactly for hours 5–11, afternoon exactly for 12–16, evening for every other hour |
| ImageGeneration.Parse | Backend/ImageGeneration.py:84-92 | blank content means wait; non-blank content without a comma is malformed (the unpacking raises and the loop waits); otherwise the prompt is the part before the first comma, holds no comma, and the status is stripped |
| ImageGeneration.SplitAt | Backend/ImageGeneration.py:91-92 | splitting at the first comma gives a comma-free prompt and a stripped status |
| ImageGeneration.ParseJoined | Backend/ImageGeneration.py:84-92 | a comma-free prompt, a comma and a tail read back as that prompt and the stripped tail |
| ImageGeneration.JoinedShape | Backend/ImageGeneration.py:84-92 | the joined text is already stripped, and its first comma is the one after the prompt |
| ImageGeneration.RequestRoundTrip | Backend/ImageGeneration.py:85-94 | the request the main program writes for a comma-free prompt without leading whitespace reads back as that prompt with status `True`, and triggers a run |
| ImageGeneration.ReplyNeverTriggers | Backend/ImageGeneration.py:96-98 | the reply written after a run reads back as `<prompt>,False` or `None,False`, and never triggers another run |
| ImageGeneration.ReplyReads | Backend/ImageGeneration.py:96-98 | the reply for a comma-free prompt reads back as a `False` entry, which does not trigger |
| ImageGeneration.FailureReplyParses | Backend/ImageGeneration.py:98 | `None,False` reads back as the entry (`None`, `False`) |
| ImageGeneration.NoneShape | Backend/ImageGeneration.py:98 | `None` holds no comma and no leading space |
| ImageGeneration.ReplyParses | Backend/ImageGeneration.py:98 | `<prompt>,False` reads back as the entry (prompt, `False`) |
| ImageGeneration.StatusWords | Backend/ImageGeneration.py:92-94 | ` True` strips to `True`, which triggers; `False` does not trigger |
| ImageGeneration.DigitText | Backend/ImageGeneration.py:17 | `str(i)` of a digit is one decimal digit |
| ImageGeneration.FileStem | Backend/ImageGeneration.py:16 | the prompt in a file name holds no space |
| ImageGeneration.ReplaceSpaceRemoved | Backend/ImageGeneration.py:16 | turning spaces into `_` leaves no space |
| ImageGeneration.OpenedNames | Backend/ImageGeneration.py:16-17 | exactly four names are opened: the stem, then `1` to `4`, then `.jpg`, in order |
| ImageGeneration.SavedNamesAreOpened | Backend/ImageGeneration.py:16-59 | result `i` is saved under the `i`-th opened name, and the four names are distinct |
| ImageGeneration.Payload | Backend/ImageGeneration.py:50-52 | each request's text starts with the prompt |
| ImageGeneration.NatText | Backend/ImageGeneration.py:51 | `str(seed)` is a non-empty string of decimal digits |
| ImageGeneration.SavedFolderOnlyResults | Backend/ImageGeneration.py:57-65 | saving touches only result names; a missing or empty result, or a failed write, leaves its name as it was |
| ImageGeneration.SavedFolderHasResult | Backend/ImageGeneration.py:57-65 | a non-empty result whose write succeeds is found, with its bytes, under its opened name |
| ImageGeneration.ShownImages | Backend/ImageGeneration.py:19-27 | the images shown are opened names that are present in the folder, at most one per name |
| ImageGeneration.AllShown | Backend/ImageGeneration.py:19-27 | when every name is present, every image is shown, in order |
| ImageGeneration.DataFolder.constructor | Backend/ImageGeneration.py:47 | the folder starts with the given files |
| ImageGeneration.DataFolder.GenerateImages | Backend/ImageGeneration.py:45-65 | four requests, the `i`-th carrying the prompt and its own seed; the new folder is `SavedFolder` of the old one and the four results, in order |
| ImageGeneration.DataFolder.OpenImages | Backend/ImageGeneration.py:13-27 | the numbered names are tried in order and a missing file is skipped: the images shown are `ShownImages` |
| ImageGeneration.GeneratedImagesShown | Backend/ImageGeneration.py:45-75 | four non-empty results, all written, are all shown afterwards |
| ImageGeneration.Poll | Backend/ImageGeneration.py:82-111 | a missing file is recreated with `None,False`; a run happens exactly when the content parses and triggers, generating for the parsed prompt; its reply replaces the content when the write succeeds, and a failed write, caught by the loop, leaves the request in place; every other poll leaves the content as it was |
| ImageGeneration.NoSecondRun | Backend/ImageGeneration.py:94-100 | the poll right after a run whose reply was written waits |
| ImageGeneration.UnsavedRunRepeats | Backend/ImageGeneration.py:97-111 | a run whose reply write failed leaves the file unchanged, so the next poll generates for the same prompt again |
| ImageGeneration.RunPolls | Backend/ImageGeneration.py:82-111 | a returned run is one whose reply was written, and the content then is that reply |
| ImageGeneration.AllPolls | Backend/ImageGeneration.py:82-111 | the polls a loop without the `break` would make: one per tick, each on the content the last one left |
| ImageGeneration.RunPollsFirstRun | Backend/ImageGeneration.py:100 | the loop leaves at the first poll that runs and writes its reply: no run is returned exactly when no poll would do so; a returned run is the first such poll, with the content it left; without one the content is what the last poll left |
| ImageGeneration.HandoffFile.constructor | Backend/ImageGeneration.py:79 | the file holds the given content, or is missing |
| ImageGeneration.HandoffFile.EnsureExists | Backend/ImageGeneration.py:113-121 | an existing file is never overwritten; a missing one is created with the default content |
| ImageGeneration.HandoffFile.PollOnce | Backend/ImageGeneration.py:83-111 | one pass of the loop body does what `Poll` defines, including a reply write that fails and is caught |
| ImageGeneration.HandoffFile.PollUntilRun | Backend/ImageGeneration.py:77-111 | the file is made to exist without overwriting it, then polled, the other process acting before each poll, until a run writes its reply: the result is `RunPolls` |
| Chat.FlattenAppend | Backend/RealtimeSearchEngine.py:115 | joining the chunks of two streams in a row is joining each, in order |
| Chat.CollectAnswer | Backend/Chatbot.py:72-75 | adding only the non-empty chunk texts builds the same string as joining every chunk with a missing text read as `""` |
| Chat.KeptLines | Backend/Chatbot.py:50-51 | every kept line is non-empty and stripped, and there are no more of them than input lines |
| Chat.KeptLinesAppend | Backend/Chatbot.py:51 | keeping lines preserves their order: the lines kept from a concatenation are those kept from each part |
| Chat.KeptLinesSingle | Backend/Chatbot.py:51 | a line is kept exactly when it is not blank, and then in its stripped form |
| Chat.KeptLinesFixed | Backend/Chatbot.py:51 | lines that are already non-empty and stripped are all kept, unchanged |
| Chat.KeptLinesKeepOut | Backend/Chatbot.py:51 | kept lines hold no character that the input lines do not hold |
| Chat.AnswerModifierLines | Backend/Chatbot.py:49-52 | the result is empty exactly when no line is kept; otherwise its lines are exactly the kept lines, in input order |
| Chat.SplitJoinLines | Backend/Chatbot.py:52 | splitting newline-joined lines without a newline gives the lines back |
| Chat.AnswerModifierClean | Backend/RealtimeSearchEngine.py:80-81 | no line of the result is empty or has surrounding whitespace |
| Chat.AnswerModifierIdempotent | Backend/Chatbot.py:49-52 | applying `AnswerModifier` twice gives what applying it once gives |
| ChatLog.EntryLine | main.py:100-104 | a log entry contributes no line exactly when it is a system entry |
| ChatLog.EntryLines | main.py:100-104 | one line per entry, in order |
| ChatLog.ChatLogIntegration | main.py:97-106 | the loop builds the entries' lines in order, then `User` and `Assistant` are replaced by the configured names; an unreadable log reads as empty |
| ChatLog.ChatLogLast | main.py:100-104 | a further entry adds its line at the end |
| ChatLog.ChatLogAppend | main.py:100-104 | the text of two histories in a row is their two texts in a row |
| ChatLog.ChatLogEmpty | main.py:100-104 | the text is empty exactly when the log holds only system entries |
| Chatbot.FinishAnswer | Backend/Chatbot.py:76 | the cleaned answer is stripped and no longer than the raw one; it is empty exactly when the raw answer is blank once the markers are deleted; without a marker it is just stripped |
| Chatbot.FinishAnswerIdempotent | Backend/Chatbot.py:76 | cleaning twice is cleaning once, for a text without `<` |
| Chatbot.NoMarkerWithout | Backend/Chatbot.py:76 | a text without `<` holds no `</s>` |
| Chatbot.Request | Backend/Chatbot.py:64 | the request is the persona, then the clock text, then the whole history |
| Chatbot.ChatBot.constructor | Backend/Chatbot.py:28-33 | the history is the loaded log, or empty when there is no log file |
| Chatbot.ChatBot.Ask | Backend/Chatbot.py:54-86 | the query is appended first and the request carries the history with it. A failed completion gives the fixed apology, with no assistant entry. A streamed one appends the cleaned answer and returns `AnswerModifier` of it, or the apology when the log cannot be saved |
| Chatbot.SuccessReplyClean | Backend/Chatbot.py:76-83 | a successful reply has no blank line and no line with surrounding whitespace |
| Chatbot.EmptyChunkIgnored | Backend/Chatbot.py:73-75 | a chunk without text does not change the answer |
| RealtimeSearchEngine.Used | Backend/RealtimeSearchEngine.py:57 | the results used are the first five, or all of them when there are fewer |
| RealtimeSearchEngine.Lines | Backend/RealtimeSearchEngine.py:58-61 | one `title: snippet` line per used result, with the defaults filled in, in order |
| RealtimeSearchEngine.SearchOutcome | Backend/RealtimeSearchEngine.py:41-68 | a request error gives the error text paired with `""`; no results give the single no-results string; otherwise a pair |
| RealtimeSearchEngine.GoogleSearch | Backend/RealtimeSearchEngine.py:41-68 | the method returns `SearchOutcome`: the stripped summary and the newline-joined lines of the first five results |
| RealtimeSearchEngine.FormatResults | Backend/RealtimeSearchEngine.py:55-62 | the loop builds the header followed by one block per result, and one line per result, in order |
| RealtimeSearchEngine.ExtractedLines | Backend/RealtimeSearchEngine.py:61-65 | when no title or snippet holds a line break, the text for the model splits into exactly one line per used result, at most five |
| RealtimeSearchEngine.StripBeforeBlankLine | Backend/RealtimeSearchEngine.py:65 | stripping a text that ends in `)` and two line breaks removes just the line breaks |
| RealtimeSearchEngine.BlockEnding | Backend/RealtimeSearchEngine.py:62 | every result block ends with `)` and a blank line |
| RealtimeSearchEngine.SummaryShape | Backend/RealtimeSearchEngine.py:55-65 | the summary is the header and the blocks with only the final blank line removed |
| RealtimeSearchEngine.Context | Backend/RealtimeSearchEngine.py:94-99 | exactly four system entries, in order: persona, clock, summary, then `Relevant search data:` and the extracted text |
| RealtimeSearchEngine.AnswerText | Backend/RealtimeSearchEngine.py:102-118 | a streamed answer is the joined chunks, stripped; a failure gives the AI error text |
| RealtimeSearchEngine.Unpack | Backend/RealtimeSearchEngine.py:91 | a pair unpacks into its parts; a bare string unpacks only when it has exactly two characters |
| RealtimeSearchEngine.NoResultsRaises | Backend/RealtimeSearchEngine.py:51-91 | a search without results makes the caller's unpacking raise |
| RealtimeSearchEngine.PairOf | Backend/RealtimeSearchEngine.py:91 | the corrected reading: the no-results message is the summary, and there is no search data |
| RealtimeSearchEngine.PairOfAgrees | Backend/RealtimeSearchEngine.py:91 | wherever the unpacking as written succeeds, it agrees with the corrected reading |
| RealtimeSearchEngine.SearchEngine.constructor | Backend/RealtimeSearchEngine.py:28-32 | the history is the loaded log, or empty when the log is missing or invalid |
| RealtimeSearchEngine.SearchEngine.AnswerAsWritten | Backend/RealtimeSearchEngine.py:84-125 | as written: the prompt is appended; a search without results raises before any request; otherwise the request is the context followed by the history, and the answer, even an error text, is appended and returned through `AnswerModifier` |
| RealtimeSearchEngine.SearchEngine.Answer | Backend/RealtimeSearchEngine.py:84-125 | corrected: every turn sends the context and the history, appends the prompt and then the answer, even when the completion fails, and returns the cleaned answer |
| RealtimeSearchEngine.FailedCompletionReply | Backend/RealtimeSearchEngine.py:117-125 | a failed completion still gives a non-empty reply |
| Text.TrimStart | Backend/ImageGeneration.py:85 | `lstrip`: the suffix left after dropping leading whitespace, all of which is whitespace |
| Text.TrimEnd | Backend/ImageGeneration.py:85 | `rstrip`: the prefix left before trailing whitespace, all of which is whitespace |
| Text.Strip | Backend/Automation.py:191-193 | the result is stripped and no longer than the input; it is empty exactly when the input is blank; a stripped input is unchanged |
| Text.StripIsTrimmed | Backend/Automation.py:191 | stripping is `rstrip` after `lstrip` |
| Text.StripKeepsPrefix | Backend/Automation.py:191 | stripping text without leading whitespace keeps every prefix of it that ends in a non-whitespace character |
| Text.StripIdempotent | Backend/Automation.py:191 | stripping twice is stripping once |
| Text.StripKeepsOut | Backend/Chatbot.py:76 | stripping introduces no character |
| Text.RemovePrefixRest | Backend/Automation.py:195 | `removeprefix` of a prefix the string has leaves the rest, which with the prefix makes the string; any other string is unchanged |
| Text.Replace | Backend/Automation.py:90 | a string without the pattern is unchanged, and deleting a pattern never lengthens a string |
| Text.ReplaceCharRemoves | Backend/Automation.py:96 | deleting a character everywhere leaves none of it |
| Text.Lower | Backend/Automation.py:152 | `lower` keeps the length and lower-cases each character in place |
| Text.IndexOf | Backend/ImageGeneration.py:91 | the first position of a character, or none exactly when it does not occur |
| Text.Split | Backend/Chatbot.py:50 | `split(sep)` gives at least one field, and no field holds the separator |
| Text.SplitJoin | Backend/RealtimeSearchEngine.py:65 | splitting a join gives the parts back when no part holds the separator |
| Text.StripOneLeading | Backend/ImageGeneration.py:92 | one leading whitespace character before a stripped, non-empty text is dropped and nothing else |
| Text.ContainsAt | Backend/Automation.py:152 | a part found at some position is contained (`in`) |
| Text.ContainsFirstChar | Backend/Chatbot.py:76 | a contained non-empty part has its first character in the text |
| Text.LowerUnchanged | Backend/Automation.py:176 | lower-casing leaves a text without capitals unchanged |
| Text.LowerAppend | Backend/Automation.py:152 | lower-casing a concatenation lower-cases each part |
| Text.IndexOfAt | Backend/ImageGeneration.py:91 | the first occurrence of a character is found where it is |
| Text.JoinFirst | Backend/Chatbot.py:52 | a join begins with its first part |
| Text.SplitWithout | Backend/RealtimeSearchEngine.py:81 | a text without the separator splits into itself |
| Text.SplitAfter | Backend/RealtimeSearchEngine.py:81 | a separator-free text, the separator and a tail split into the text followed by the tail's fields |
| Text.ConcatAppend | main.py:99-104 | the concatenation of two lists in a row is their concatenations in a row |
| Text.ConcatEmpty | main.py:99-104 | a concatenation is empty exactly when every part is |
| Text.Word | main.py:242 | the longest whitespace-free prefix |
| Text.Tokens | main.py:242 | `split()` gives non-empty, whitespace-free words |

## Left out

- Network and foreign calls are inputs, not modelled. This covers the Groq completions, the Google Custom Search request and its URL, the Hugging Face requests, the `requests`/BeautifulSoup scraping in `OpenApp`, AppOpener, pywhatkit, `webbrowser`, `keyboard`, `taskkill`, `subprocess.Popen`, and the image viewer.
- `GoogleSearch`, `PlayYoutube` and the `YoutubeSearch` call in `Backend/Automation.py` are one foreign call each, wrapped in `try`; only the URL of `YoutubeSearch` is modelled.
- Threads and `asyncio` are not modelled: the calls run sequentially, in order. The unsynchronised sharing of `last_interaction_time` between the two threads of `main.py` cannot be expressed.
- `DetectClap` (main.py:50-69) is a boolean input, because it samples the microphone and compares a float amplitude. An exception in the wake check is caught and logged and changes no state; the model treats it as hearing nothing.
- Speech recognition, text-to-speech, `Frontend.GUI`, and the `sleep` delays are not modelled. `ShowTextTOScreen` and the countdown of `EnterSleepMode` write only to the screen. `Frontend/GUI.py` is not part of this model, so its `AnswerModifier` and `QueryModifier` are not either. The status and microphone files are the fields `status` and `mic`; the queries passed to the chat and search back ends are recorded in the `Route` without `QueryModifier`.
- `Assistant.RouteEffect` gives only the status a branch ends in. The statuses a branch passes through on the way (Searching before Answering, Executing before Available) appear in `Assistant.Session.TakeRoute`'s body but not in its contract. Of the exceptions that can end the listening thread, only the search engine's no-results `ValueError` is modelled; an exception escaping a foreign call (speech recognition, text-to-speech, the classifier, the GUI files, the chat log write) would end it too.
- The chat and search back ends are not called from `Assistant`. A turn records its `Route` and the query it hands over, and for a search the response, which decides whether the search engine raises; `Chatbot` and `RealtimeSearchEngine` model those back ends on their own.
- `FirstLayerDMM` is not modelled; the classifier's intents are an input.
- `sys.exit` and the uncaught search exception are modelled as the `halted` field, which records how the listening thread ended: `Exited(code)` holds the argument of `sys.exit`, or `Uncaught`. `FirstThread` stops once it is set. The `sys.exit(0)` of a shutdown runs in the daemon thread started at main.py:363-364, so it raises `SystemExit` there and ends only that thread; the GUI in the main thread goes on and the process does not end with code 0. Only the `sys.exit(1)` of a failed start-up check, which runs in the main thread, ends the process.
- The wake check at main.py:230 is not modelled. It compares the status just set to Listening at main.py:226 with Sleeping, so it never holds.
- `ShowDefaultChatIfNOChats` and `ShowChatsOnGUI` are not modelled; they copy files for the GUI. `InitialExecution`'s calls to them, to `ChatLogIntegration` and to `GreetUserByTime` are left out of `Assistant.Session.InitialExecution`'s contract; `ChatLog.ChatLogIntegration` and `Assistant.GreetingBands` model the last two on their own.
- `Text.Lower`: lower-cases ASCII letters only. Python's `lower()` also maps non-ASCII capitals, and a few of them to text holding ASCII letters: the Kelvin sign gives `k`, and `İ` (U+0130) gives `i` followed by U+0307. So a comparison after `lower()` with `exit`, `true`, `chrome` or a `System` word can differ for input holding `K` or `İ`, which the model does not lower. The file name of `Automation.ContentFile` and `Automation.ContentFileStem` differs for any non-ASCII capital: for the topic `Über`, the model gives `Data/Über.txt` and the source `Data/über.txt`.
- `SystemInformation`, `RealtimeInformation` and `localtime` are not modelled, because they format the clock; their text is a parameter, and the greeting takes the hour as an integer.
- File I/O is modelled only as contents and success flags.
  - The chat log write in `Backend/RealtimeSearchEngine.py` (lines 122-123) is not modelled; a failure there would raise out of the turn.
  - The `json.JSONDecodeError` that `Backend/Chatbot.py` does not catch at load time is not modelled.
  - `Automation.ContentFile` writes the path with `/`; `os.path.join` uses the platform's separator.
- `ImageGeneration.DataFolder.OpenImages`: any file present under an opened name is shown; an existing file that is not a readable image, which makes `Image.open` raise, is not modelled.
- `ImageGeneration.Poll`: the result of `GenerateImages` is an input, because it returns `True` unless an exception escapes the foreign calls. A failed reply write is modelled as leaving the file unchanged, as when `open` fails; a write that fails after `open` has emptied the file is not modelled.
- `ImageGeneration.RunPolls` and `ImageGeneration.HandoffFile.PollUntilRun` run over a finite list of polls; the unbounded `while True` is this list's limit.
- `Automation.ContentWriter.Content`: the editor launch is a success flag; the editor name (`notepad.exe` or `gedit`) is not modelled.
- `Automation.OpenAppRun`: the launch and the page download are inputs, and `browserReturned` is only whether `webbrowser.open` returned without raising, since the source ignores its boolean; only the choice of the link and the result are modelled.

## Findings

| source | as written | input that shows it | evidently intended | confidence | as-written member | corrected member |
|---|---|---|---|---|---|---|
| Backend/RealtimeSearchEngine.py:91 | with no search results, `GoogleSearch` returns a bare string, and the caller unpacks it into two names, which raises `ValueError` before the model is asked | a query whose response has no `items` | the no-results message is the summary, and the search data is empty, as in the request-error branch | not executed | RealtimeSearchEngine.NoResultsRaises, RealtimeSearchEngine.Unpack, RealtimeSearchEngine.SearchEngine.AnswerAsWritten | RealtimeSearchEngine.PairOf, RealtimeSearchEngine.PairOfAgrees, RealtimeSearchEngine.SearchEngine.Answer |
