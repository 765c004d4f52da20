# agentuse session controller, in Dafny

`agentuse.py` drives a coding assistant that runs in a terminal. A
directing language model watches the terminal and types instructions into
it. On each pass of its loop the controller does four things:

- it captures the screen and cleans it of escape sequences;
- when the capture changed, it records a summary of the new part;
- otherwise it checks the time budget and asks the model for one XML
  directive;
- it carries that directive out: it waits, exits, types a prompt, or calls
  a custom tool registered by the user.

This project models that controller and proves properties of the model.

## Modules

- `text.dfy` (`Text`): the parts of Python's `str` the controller uses.
  These are `strip()` with Python's white-space class, `count`,
  `startswith`/`endswith`, substring `in`, `rfind`, `s[-n:]` and `s[a:-b]`.
- `screen.dfy` (`Screen`):
  - `clean_output` as three regular-expression passes plus a control-character
    pass, each written as a left-to-right scan (`Sub`, `DropControls`);
  - `get_new_terminal_content` (`NewContent`);
  - the two generations of capture the loop keeps (`Track`).
- `timing.dfy` (`Timing`): the tiers of `get_time_status` and the limit test
  of the loop. Elapsed time is an input.
- `chat.dfy` (`Chat`): history messages, and the list `ask_llm` sends.
- `tools.dfy` (`Tools`):
  - the registry `cfg.custom_tools`, an insertion-ordered dict modelled as a
    sequence of (template, callback) pairs;
  - the class `Config`, whose `AddTool`/`RemoveTool` update the registry in place;
  - how a tool's start and end tags are derived from its template.
- `dispatch.dfy` (`Dispatch`): what `act` decides, as a value (`Decide`).
  The value holds the outcome string, the text typed if any, and the history
  entry added if any.
- `prompt.dfy` (`Prompt`): the layout of `get_system_prompt`.
- `session.dfy` (`Session`):
  - the terminal as a sink of typed texts (`Driver`);
  - one pass of `run` as a function (`Iteration`), and a run over a finite
    sequence of observations (`Replay`);
  - the class `Agent`. Its fields are the history, the two captures and the
    last-change time, and its methods `Act`, `Step` and `Run` perform what
    `Decide`, `Iteration` and `Replay` specify.

Callbacks are total functions to `Returned(text) | Raised(reason)`. A
callback that raises is the `except` branch of `act`.

## Model

| member | source | states |
|---|---|---|
| Text.StripPadded | agentuse.py:277 | `strip()` removes exactly the white space around a text whose ends are not white space |
| Text.StripIdempotent | agentuse.py:257 | stripping twice (once in `ask_llm`, once in `act`) is the same as stripping once |
| Text.TrimStartShape | agentuse.py:277 | `lstrip` removes a run of white space from the front and stops at the first other character |
| Text.TrimEndShape | agentuse.py:277 | `rstrip` removes a run of white space from the back and stops at the last other character |
| Text.CountZero | agentuse.py:278 | `count(c)` is zero exactly when `c` does not occur |
| Text.CountConcat | agentuse.py:278 | `count` adds up over a concatenation |
| Text.RFind | agentuse.py:211 | `rfind` gives an occurrence with no later occurrence, and `None` (Python's -1) only when there is none |
| Text.Contains | agentuse.py:209 | substring `in` holds exactly when there is an occurrence at some index |
| Text.Tail | agentuse.py:206 | `s[-n:] if len(s) > n else s` is the last `min(len(s), n)` characters of `s` |
| Text.SliceInner | agentuse.py:286 | `s[a:-b]` is the interior when the cuts do not cross, and empty when they do |
| Screen.MatchLength | agentuse.py:101-103 | a match starts with ESC `[`, is at least three characters long and contains no line feed |
| Screen.ParamEnd | agentuse.py:101-102 | the run `[0-9;]*` stops at the first character outside the class |
| Screen.LazyEnd | agentuse.py:103 | the lazy `.*?` stops at the first letter or line feed |
| Screen.SubShrinks | agentuse.py:101-103 | each `re.sub` pass only deletes characters (multiset inclusion) |
| Screen.SubKeepsLineFeeds | agentuse.py:101-103 | no pass deletes a line feed |
| Screen.SubWithoutEsc | agentuse.py:101-103 | a text without ESC passes through each pattern unchanged |
| Screen.SubAfterPlainPrefix | agentuse.py:101-103 | a pass copies a stretch without ESC and continues after it |
| Screen.DropControls | agentuse.py:104 | the last pass leaves no character of `[\x00-\x08\x0B\x0C\x0E-\x1F\x7F]` |
| Screen.DropControlsKeepsCount | agentuse.py:104 | the last pass keeps every occurrence of a character outside that class |
| Screen.DropControlsShrinks | agentuse.py:104 | the last pass only deletes characters |
| Screen.DropControlsKeepsClean | agentuse.py:104 | the last pass leaves a control-free text unchanged |
| Screen.CleanOutput | agentuse.py:100-105 | the cleaned screen contains no control character and no ESC |
| Screen.CleanOutputShrinks | agentuse.py:100-105 | cleaning only deletes characters, so the result is never longer than the capture |
| Screen.CleanOutputKeepsLineFeeds | agentuse.py:100-105 | cleaning keeps exactly as many line feeds as the capture has |
| Screen.CleanOutputPlainText | agentuse.py:100-105 | on text without ESC only the control pass acts, and every tab and carriage return is kept |
| Screen.CleanOutputFixedPoints | agentuse.py:100-105 | cleaning leaves a text unchanged exactly when it is control-free |
| Screen.CleanOutputIdempotent | agentuse.py:100-105 | cleaning twice is the same as cleaning once |
| Screen.CsiDropsSgr | agentuse.py:101 | the first pass removes a whole colour sequence `ESC [ params m` |
| Screen.CleanOutputColourExample | agentuse.py:100-105 | `ESC[31mred ESC[0m` cleans to `red` |
| Screen.CsiSkipsToggle | agentuse.py:101 | the first pass does not match a private-mode sequence, because `?` is not a parameter character |
| Screen.ModeCsiDropsToggle | agentuse.py:102 | the second pass removes a private-mode sequence ending in `l` or `h` |
| Screen.CleanOutputModeExample | agentuse.py:100-105 | the cursor hide/show pair around `ok` cleans to `ok` |
| Screen.NewContent | agentuse.py:202-222 | the delta has at most 30000 characters and is a suffix of the current screen. When the previous capture is empty or absent, the delta is the capped tail of the current screen. Otherwise it is the capped text after the last occurrence of the previous capture |
| Screen.NewContentOfSameCapture | agentuse.py:209-218 | an unchanged capture has an empty delta |
| Screen.NewContentEmptyForDifferentCaptures | agentuse.py:209-218 | a different capture can also have an empty delta (`"b"` within `"ab"`) |
| Screen.NewContentOfAppend | agentuse.py:209-218 | output appended after the previous capture is reported exactly, when that capture does not recur inside it |
| Screen.SecondChangeReportedInFull | agentuse.py:347-355 | the delta is taken against the capture two changes back, so the second change is reported in full |
| Timing.TimeStatusTiers | agentuse.py:259-274 | no status exactly without a limit (`None` or `0`). Otherwise: expired for remaining <= 0, urgent for (0, 5], warning for (5, 15], informational above 15 |
| Timing.TimeStatusEscalates | agentuse.py:264-274 | as elapsed time grows, the tier never becomes less pressing |
| Timing.LimitReachedIffExpired | agentuse.py:366-371 | the loop's limit test holds exactly when the status tier is "expired" |
| Timing.TenMinuteExample | agentuse.py:264-274 | with a 10-minute limit, 9 and 9.9 elapsed minutes are urgent and 10 is expired. A limit of 0 gives no status |
| Timing.StatusText | agentuse.py:259-274 | the status message is empty exactly when there is no limit |
| Timing.DecimalText | agentuse.py:274 | `str(total)` is non-empty and starts with `-` exactly for a negative number |
| Timing.DecimalRoundTrip | agentuse.py:274 | `str` of a non-negative number is all digits, and reading them back gives the number |
| Chat.Outgoing | agentuse.py:240-246 | the outgoing list is the history plus exactly one `TIME STATUS:` user message iff the status is non-empty. The history is a prefix of it |
| Tools.IndexOf | agentuse.py:88 | the key's position holds that key with none before it, and `None` means the key is absent |
| Tools.PutFormats | agentuse.py:88 | assignment keeps the keys unique. A known key keeps its place and a new key goes last |
| Tools.PutLookup | agentuse.py:88 | after assignment the key maps to the new callback and every other key keeps its own |
| Tools.PutTwice | agentuse.py:88 | of two assignments to one key, the later one wins |
| Tools.PopAbsent | agentuse.py:92 | `pop(key, None)` of an absent key changes nothing |
| Tools.PopFormats | agentuse.py:92 | `pop` deletes exactly that key, keeps the others unique and in order |
| Tools.PopLookup | agentuse.py:92 | after `pop` the key is unknown and every other key keeps its callback |
| Tools.PopAfterPut | agentuse.py:81-92 | adding a new tool and removing it again restores the registry |
| Tools.StartTag | agentuse.py:294 | the start tag is the template up to and including its first `>` |
| Tools.TagName | agentuse.py:295 | the derived tag name contains neither `<` nor `>` |
| Tools.FirstMatchFromSpec | agentuse.py:291-297 | the scan from a position stops at a matching tool with no match before it, or finds none |
| Tools.FirstMatch | agentuse.py:291-297 | the tool chosen is the first in registration order whose tags match, and `None` means no tool matches |
| Tools.TemplateTags | agentuse.py:292-295 | for a template `<name>…</name>` the tags are `<name>` and `</name>` |
| Tools.TemplateMatches | agentuse.py:294-298 | a directive `<name>input</name>` matches such a template, and the callback receives exactly `input` |
| Tools.Config.constructor | agentuse.py:55-62 | the registry starts empty |
| Tools.Config.AddTool | agentuse.py:81-88 | `add_tool` performs the dict assignment `Put` |
| Tools.Config.RemoveTool | agentuse.py:90-92 | `remove_tool` performs `pop(key, None)` |
| Dispatch.ToolDecision | agentuse.py:299-306 | a callback's result becomes one user entry, `Tool result: ` plus the returned text or `Tool error: ` plus the reason. The outcome is `custom_tool` when the callback returns and `wait` when it raises |
| Dispatch.ScanDecision | agentuse.py:290-309 | the scan types nothing, returns `wait` or `custom_tool`, and adds an entry iff some tool matches. When none matches, the result is `wait` with no entry |
| Dispatch.UnmatchedDirectiveWaits | agentuse.py:290-309 | a directive that passes the guard, is no fixed command and matches no tool gives `wait`, types nothing and adds no entry |
| Dispatch.SendsOnlyOnPrompt | agentuse.py:276-309 | text is typed exactly when the outcome is `prompted` |
| Dispatch.EntryOnlyFromTool | agentuse.py:276-309 | an entry, always a user entry, is added exactly when the directive reaches the scan and a tool matches |
| Dispatch.DecideFixed | agentuse.py:277-288 | the guard, then `<wait/>`, `<exit/>` and `<prompt>…</prompt>`, tried in that order with those results |
| Dispatch.ExitOnlyOnExitTag | agentuse.py:276-284 | `exit` is returned iff the stripped directive is `<exit/>` |
| Dispatch.WaitCommand | agentuse.py:281-282 | `<wait/>`, with any white space around it, returns `wait` and does nothing else |
| Dispatch.ExitCommand | agentuse.py:283-284 | `<exit/>`, with any white space around it, returns `exit` and does nothing else |
| Dispatch.PromptSendsInterior | agentuse.py:285-288 | `<prompt>text</prompt>` with balanced brackets types exactly `text`, returns `prompted` and adds no entry, whatever tools are registered |
| Dispatch.WrappedWellFormed | agentuse.py:278 | balanced text between balanced tags passes the guard |
| Dispatch.PromptWrappedInterior | agentuse.py:285-286 | `cmd[8:-9]` of `<prompt>text</prompt>` is `text` |
| Dispatch.OnlyPromptTagIsPrompt | agentuse.py:285 | no `<name>…</name>` directive other than `<prompt>` takes the prompt branch |
| Dispatch.DecideTool | agentuse.py:291-306 | a directive that reaches the scan goes to the first matching tool, with the interior cut by its tags |
| Dispatch.TagDirectiveReachesTools | agentuse.py:278-288 | a directive `<name>input</name>` with balanced `input` passes the guard and is no fixed command |
| Dispatch.TemplateToolReceivesInput | agentuse.py:291-306 | the tool with template `<name>…</name>` gets exactly `input` from `<name>input</name>` when no earlier tool matches. Its result or error is the one new entry |
| Dispatch.TemplateToolSelected | agentuse.py:291-298 | under the same conditions, the scan stops at that tool |
| Dispatch.AskHumanExample | agentuse.py:81-88 | a tool registered as `<ask_human>…</ask_human>` receives `What now?` from `<ask_human>What now?</ask_human>` |
| Dispatch.AskHumanAnswerRecorded | agentuse.py:297-306 | when that callback answers `blue`, the outcome is `custom_tool` and the one new entry is `Tool result: blue`. When it raises, the outcome is `wait` and the entry is `Tool error: ` plus the reason |
| Prompt.ToolListMentions | agentuse.py:24-27 | every registered template has its own bullet line in the tool list |
| Prompt.SystemPromptListsTools | agentuse.py:24-27 | the system prompt offers every registered template on its own bullet line |
| Prompt.SystemPromptQuotes | agentuse.py:10-51 | the system prompt quotes a non-empty goal and non-empty extra instructions whole |
| Session.Driver.SendText | agentuse.py:165 | typing appends exactly one text to what the terminal has received |
| Session.SummaryEntries | agentuse.py:358-361 | one `Terminal:` entry with the stripped summary exactly when the delta is not blank |
| Session.IterationOnTimeUp | agentuse.py:366-371 | an unchanged capture past the limit: the loop stops and nothing changes |
| Session.IterationExtendsHistory | agentuse.py:343-392 | a pass only appends to the history, at most two entries |
| Session.ScreenChangeShifts | agentuse.py:347-364 | a changed capture shifts the generations and types nothing. A `Terminal:` entry is added iff the delta against the older capture is not blank |
| Session.TimeUpLeavesQuietly | agentuse.py:366-371 | on an unchanged capture the pass is a time-up iff the limit is reached, and a time-up changes nothing |
| Session.DirectiveRecordedFirst | agentuse.py:374-380 | the assistant entry comes first. `act` then adds at most one entry and types at most one text |
| Session.StopsOnlyOnTimeOrExit | agentuse.py:366-390 | the loop leaves exactly on an unchanged capture with the limit reached or the directive `<exit/>` |
| Session.Replay | agentuse.py:343-392 | a run makes at most as many passes as there are observations |
| Session.LastChangeIsObserved | agentuse.py:347-356 | after a run the last-change time is the starting one or the clock reading of one of its observations (it is set only when the screen changes) |
| Session.ReplayExtendsHistory | agentuse.py:192-195 | over a whole run the history only grows, so the system prompt and the goal stay first |
| Session.Turns | agentuse.py:343-392 | the turns of a run: none when there is no observation, at least one otherwise, and never more than the observations |
| Session.TurnsCountPasses | agentuse.py:343-392 | a run makes exactly one pass per turn it records |
| Session.TurnsStopOnlyLast | agentuse.py:366-390 | no turn of a run before its last one leaves the loop (the loop `break`s only on time-up or `exit`) |
| Session.TurnsEndOnStop | agentuse.py:366-390 | a run that records fewer turns than there are observations ended on a turn that leaves the loop |
| Session.ReplayStopsOnlyLast | agentuse.py:343-392 | the loop leaves only on its last pass: no earlier pass stopped it, and a run that ends before the observations run out ended on a time-up or an `exit` |
| Session.Agent.constructor | agentuse.py:189-200 | the history opens with the system prompt and the goal, both captures are empty, and the clocks start at `now` |
| Session.Agent.NewTerminalContent | agentuse.py:202-222 | the method returns `NewContent` of the older capture and the current screen |
| Session.Agent.TimeStatusText | agentuse.py:259-274 | the message of the current tier, empty iff no limit |
| Session.Agent.OutgoingMessages | agentuse.py:240-246 | the method builds `Outgoing` of the history and the status, and leaves the history as it was |
| Session.Agent.AskLlm | agentuse.py:240-257 | the request is the history plus at most one status message, and the directive is the content of the reply (or `""`), stripped |
| Session.Agent.Act | agentuse.py:276-309 | the outcome, history and typed texts are those `Decide` specifies |
| Session.Agent.PromptOrTool | agentuse.py:285-309 | the same as `Act`, for a directive past the guard and the fixed commands |
| Session.Agent.ScanTools | agentuse.py:290-309 | the loop over the registry performs `ScanDecision` |
| Session.Agent.CallTool | agentuse.py:299-306 | the callback's result or error is appended as one user entry |
| Session.Agent.Step | agentuse.py:343-392 | one pass moves the agent's state as `Iteration` specifies. The last-change time moves only on a change |
| Session.Agent.TakeCapture | agentuse.py:350-361 | the generations shift, and the history gains the summary entry of the delta against the older capture |
| Session.Agent.ConsultModel | agentuse.py:366-380 | an unchanged capture: a time-up, or a query, as `Iteration` specifies |
| Session.Agent.Query | agentuse.py:373-380 | the model is asked, then the directive is recorded and acted on, as `Iteration` specifies |
| Session.Agent.RecordAndAct | agentuse.py:377-380 | the assistant entry is appended before `act` adds its own effects |
| Session.Agent.Run | agentuse.py:343-392 | the loop ends in the state `Replay` specifies, after the number of passes it counts, with the last-change time `LastChange` specifies |

## Left out

- The terminal itself (`Driver`, agentuse.py:107-186). This covers AppleScript, subprocesses, window handles and sleeps. `Driver` only records what `send_text` types, and the screen is an input of each pass.
- The network calls (`get_client`, and the requests in `summarize_terminal_output`, `ask_llm` and `update_summary`). Each reply is an input string. A `None` directing reply is modelled as `""`, as `or ""` makes it.
- The summary reply is taken as a string. A `None` summary would make `.strip()` raise inside `summarize_terminal_output` (agentuse.py:238 has no `or ""`), and so inside `run`. That crash is not modelled.
- `summarize_terminal_output`'s "Terminal is empty/idle" branch. It is unreachable from `run`, which summarises only a non-blank delta.
- `update_summary` (agentuse.py:311-338) is never called.
- `configure` (agentuse.py:66-79). The only thing modelled from it is the `instructions` value the system prompt reads.
- `print` and `time.sleep`.
- The module-level `run` (agentuse.py:394-411). It raises `ValueError` when no API key is configured, builds a driver and an agent, runs the agent's loop, and closes the driver in `finally`. The key check and the driver's lifetime are not modelled; the loop is `Session.Agent.Run`.
- Timing.StatusText: the remaining minutes as `:.1f` renders them are an input string, because float formatting is not modelled.
- Session.Iteration reads the clock once per pass. The source reads `time.time()` separately for the limit check and for the status message.
- Session.Agent.Run runs over a finite sequence of observations rather than forever.
- Tools.Callback: callbacks are modelled as stateless functions of their input. A callback that answers the same input differently on different passes, such as one that reads from the keyboard, is not captured.
- Custom tools whose template has a `>` and a `</` but no `<` before its first `>` make `split("<")[1]` raise an `IndexError` in `act`. The model requires every registered template to avoid this (`AllDerivable`), and does not model the crash.
- Tools.Config: of the configuration, only the tool registry and the instructions are modelled. The API key, model name, URL and provider order go to the network only.
- Session.Agent.constructor takes the registry as a parameter, where the source reads the global `cfg`.
- The example scripts call an `AgentUse` class that is not in `agentuse.py`, and example.py defines a run of two of them in parallel processes. `test.py` runs two `agentuse.run` sessions in parallel processes. The model covers one session, and no concurrency.

## Notes on the code as written

- The delta is computed before the generations shift, so it is taken against the capture two changes back, not the one just replaced (`Screen.SecondChangeReportedInFull`). The model keeps this behaviour.
- An empty delta does not mean the capture is unchanged. A capture that ends with the older one also has an empty delta (`Screen.NewContentEmptyForDifferentCaptures`).
- A capture equal to the previous one is acted on at once. A changed capture is only recorded, and the model is asked on the next pass whose capture is unchanged. There is no longer wait for the screen to settle.
- A limit of `0` means no limit, because the code tests `if not self.time_limit_minutes`.
- With 9.9 of 10 minutes elapsed, the status is urgent, not expired. The tier turns to expired only when nothing remains.
