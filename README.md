# Outfit assistant: console and session logic

This project models the deterministic core of a small outfit-advice assistant. The assistant comes in three entry points around a language-model agent, and the agent and its tools (Mem0 memory, HTTP and weather requests) are outside the model:

- **The Streamlit page** (`outfit_assistant_streamlit.py`) has two parts in the model.
  - Session state: the `messages` list and, beside it, the `tool_calls` list. There is one tool record per chat turn. The model covers how the welcome message, the quick-start buttons, a chat turn and the clear button change these lists, and which record the page shows under which message.
  - Tool-trace parser: it rebuilds the agent's tool use (tool name to `{output, error}`) from the text the agent printed while it ran.
- **The AgentCore command-line assistant** (`agent_core_outfit_assistant.py`):
  - the assistant object;
  - `get_outfit_advice`, with its AgentCore fallback and the wrapping of exceptions into text;
  - the chat-session loop;
  - the start-up menu loop;
  - the weather-key notice;
  - the `USER_ID` sent with every request.
- **The plain Strands command-line assistant** (`ginny_weather_outift_assistant.py`):
  - the warnings printed when the program loads;
  - the weather-key notice of its banner;
  - the chat session, which calls the agent directly and catches its exceptions;
  - the demo;
  - the menu loop.

Modules:

| file | module | what it holds |
|---|---|---|
| options.dfy | Options | `Option<T>` for Python's `None` |
| python_str.dfy | PyStr | the `str` builtins the code relies on: `lower()` on ASCII letters, `isspace()`/`strip()`, the substring test `in`, `split(sep)` |
| config.dfy | Config | environment variables, `USER_ID` with its default, the load-time key warnings |
| agent_boundary.dfy | AgentBoundary | what an agent call is observed to return or raise; a request (line, user id) |
| console_input.dfy | ConsoleInput | chat-line classification and menu dispatch, shared word for word by both command-line programs; the specification functions `RunSession` and `RunMenu` of their two loops |
| tool_trace.dfy | ToolTrace | the parser as a loop (`ParseToolOutput`) and as a fold (`Run`), proved equal, with its properties |
| chat_session.dfy | StreamlitSession | the page's session state as a class with two `seq` fields |
| agent_core_cli.dfy | AgentCoreCli | the AgentCore program's assistant, sessions and menu |
| weather_cli.dfy | WeatherCli | the Strands program's load checks, banner, sessions and menu |

How the environment is modelled:
- **Input:** a finite sequence of console events (a typed line, or Ctrl-C).
- **Agent:** the outcome of the n-th agent call of a run is `agent(n)`, a parameter. Calls are numbered across all sessions of a menu loop.
- **Each command-line loop:** a method over that sequence. It is proved equal to a recursive specification of what the loop reads, forwards and prints for each forwarded line.
- **Chat turn on the Streamlit page:** it takes what the agent printed and what it returned (or that it raised) as one input.

In four places the code does not do what one might expect of such an assistant, and the model follows the code:
- **Records and messages:** one might expect one tool record per message, aligned by position. The page stores one record per chat turn, and no record for the welcome message or for a quick-start prompt. The invariant kept is therefore `|tool_calls| ==` the number of replies (`StreamlitSession.Paired`), not equal lengths.
- **Tool errors:** one might expect a failing tool's error text in the `error` field. The parser never fills that field (`ToolTrace.ErrorsAlwaysEmpty`).
- **Blank prompts:** one might expect whitespace-only input to be dropped before the agent, as the command-line programs do. On the Streamlit page only the empty prompt is ignored, so a whitespace-only prompt is stored and sent (`ChatSession.SubmitChat`).
- **Failure reply:** one might expect every entry point to answer a failed agent call with a fixed apology. Only the Streamlit page does that. The command-line programs print the error prefix followed by the exception's text.

## Model

| member | source | states |
|---|---|---|
| Config.GetEnv | agent_core_outfit_assistant.py:42-44 | `os.getenv(name)`: present exactly when the variable is set, and then its value |
| Config.UserIdFrom | agent_core_outfit_assistant.py:43 | the user id is the `USER_ID` variable as set, even when empty, and `current_user` only when it is unset |
| Config.LoadWarnings | ginny_weather_outift_assistant.py:57-60 | the Mem0 warning is printed iff that key is unset or empty, and the weather warning likewise; both, when present, print in that order |
| PyStr.Lower | agent_core_outfit_assistant.py:220 | `lower()`: same length, each character lower-cased (ASCII letters only; see "Left out") |
| PyStr.Strip | agent_core_outfit_assistant.py:224 | `strip()`; no contract of its own: StripIsTrimmedInfix, StripRemovesOnlySpace and StripIgnoresPadding state what it returns |
| PyStr.Split | outfit_assistant_streamlit.py:285 | `split(sep)` yields at least one piece, and at least two when the separator occurs; SplitJoinsBack and SplitJoin state what the pieces are |
| PyStr.StripIsTrimmedInfix | agent_core_outfit_assistant.py:224 | `strip()` yields `""` exactly for all-whitespace text; otherwise its result begins and ends with non-whitespace |
| PyStr.StripRemovesOnlySpace | agent_core_outfit_assistant.py:296 | `strip()` removes only whitespace: the text is some whitespace, the stripped text, then some whitespace |
| PyStr.StripIgnoresPadding | agent_core_outfit_assistant.py:296 | surrounding whitespace does not change what `strip()` returns |
| PyStr.SplitJoinsBack | outfit_assistant_streamlit.py:285 | no piece of `split(sep)` contains the separator, and joining the pieces with it gives back the text |
| PyStr.SplitJoin | outfit_assistant_streamlit.py:285 | splitting separator-free pieces joined by the separator gives back exactly those pieces |
| PyStr.SecondPieceBetweenSeparators | outfit_assistant_streamlit.py:289 | `split(sep)[1]` is the text between the first and the second separator (or the end) |
| ConsoleInput.ClassifyLine | agent_core_outfit_assistant.py:220-225 | a chat line ends the session iff its `lower()` is `exit`, `退出` or `bye`; it is skipped iff it is all whitespace; otherwise it is forwarded; the three cases never overlap |
| ConsoleInput.ExitCommandIsUnpadded | agent_core_outfit_assistant.py:220 | an exit command has no whitespace at either end, so `" exit"` does not end a session |
| ConsoleInput.BlankIsStripEmpty | agent_core_outfit_assistant.py:224 | the skip test is exactly `strip()` returning the empty string |
| ConsoleInput.Dispatch | agent_core_outfit_assistant.py:298-308 | `exit` quits; `demo` and the empty choice start the demo; `chat` and `help` select theirs; every other choice is invalid |
| ConsoleInput.MenuChoice | agent_core_outfit_assistant.py:296 | the menu action of a raw line, `Dispatch` of its `lower().strip()`; no contract of its own: Dispatch and MenuIgnoresCaseAndPadding state it |
| ConsoleInput.MenuIgnoresCaseAndPadding | agent_core_outfit_assistant.py:296 | neither letter case nor surrounding whitespace changes the menu action, and an all-whitespace line starts the demo |
| ConsoleInput.RunSession | agent_core_outfit_assistant.py:216-237 | a session reads no more than its input; it stops early only on Ctrl-C or an exit command, which it consumes; it never forwards a blank line or an exit command |
| ConsoleInput.SessionForwardsLinesBeforeStop | agent_core_outfit_assistant.py:216-228 | a session forwards exactly the non-blank lines typed before the first exit command or Ctrl-C, unmodified and in order, and ends the way that event says |
| ConsoleInput.RunMenu | agent_core_outfit_assistant.py:294-315 | the menu loop takes at most one action per event, nothing follows a `Quit`, and none of the lines it forwards is blank or an exit command |
| ToolTrace.HeaderName | outfit_assistant_streamlit.py:288-289 | a line opens a tool entry iff it contains both `Tool #` and `:` |
| ToolTrace.HeaderNameBetweenColons | outfit_assistant_streamlit.py:289 | a header's tool name is the stripped text between its first and second `:` |
| ToolTrace.Step | outfit_assistant_streamlit.py:288-292 | one pass of the loop body keeps the current tool, when there is one, present in the record, so the `+=` on its output never misses a key |
| ToolTrace.Run | outfit_assistant_streamlit.py:287-292 | the whole loop keeps that invariant; its lemmas below state the record it builds |
| ToolTrace.TraceRecord | outfit_assistant_streamlit.py:284-292 | the record for a non-empty stdout, the loop guarded by `"Tool #" in tool_output`; no contract of its own: MarkerGuardRedundant, RecordKeys and ErrorsAlwaysEmpty state it |
| ToolTrace.ParseToolOutput | outfit_assistant_streamlit.py:283-292 | the in-place parsing loop over the lines builds exactly the record of the fold `Run`, which the lemmas below describe |
| ToolTrace.RecordKeys | outfit_assistant_streamlit.py:288-290 | the record's keys are exactly the names of the header lines |
| ToolTrace.ErrorsAlwaysEmpty | outfit_assistant_streamlit.py:290 | no entry of a parsed record has a non-empty error |
| ToolTrace.EmptyNameCollectsNothing | outfit_assistant_streamlit.py:291 | a header whose name strips to `""` collects no output |
| ToolTrace.LinesBeforeFirstHeaderDropped | outfit_assistant_streamlit.py:286-292 | lines before the first header contribute nothing |
| ToolTrace.HeaderRestartsParse | outfit_assistant_streamlit.py:290 | at a header the parse restarts for that tool: earlier lines survive only for other tools, so a repeated header discards the earlier output |
| ToolTrace.OutputOfLastHeader | outfit_assistant_streamlit.py:287-292 | a tool's output is the non-header lines after its last header, up to the next header, each followed by a newline; its error is empty |
| ToolTrace.MarkerGuardRedundant | outfit_assistant_streamlit.py:284 | the `Tool #` guard before the loop changes nothing: without it the loop gives the same record |
| StreamlitSession.QuickActionPrompt | outfit_assistant_streamlit.py:214-236 | the canned prompt of each quick-start button; no contract of its own: ChatSession.PressQuickAction states that it is appended and nothing else changes |
| StreamlitSession.ReplyText | outfit_assistant_streamlit.py:304-313 | the stored reply is the agent's answer, or the fixed apology when the call raised |
| StreamlitSession.TurnRecord | outfit_assistant_streamlit.py:278-298 | the stored record is empty when the agent printed nothing, printed no `Tool #` or raised; otherwise it is the parse of the printed lines; it never holds an error |
| StreamlitSession.ToolPanelAsWritten | outfit_assistant_streamlit.py:181-183 | message `i` shows a panel iff it is an assistant message, `i < len(tool_calls)` and `tool_calls[i]` is non-empty; the panel is `tool_calls[i]` |
| StreamlitSession.WelcomeShowsFirstTurnTools | outfit_assistant_streamlit.py:181-183 | after the welcome and one chat turn that used tools, the written rule shows that turn's tools under the welcome and none under the reply; the intended rule does the opposite |
| StreamlitSession.ToolPanel | outfit_assistant_streamlit.py:180-183 | under a reply, a panel is shown exactly when the record of that reply's own turn is non-empty, and it is that record; no other message shows one |
| StreamlitSession.TurnKeepsPairing | outfit_assistant_streamlit.py:241-314 | a chat turn keeps the number of tool records equal to the number of replies |
| StreamlitSession.TurnShowsItsOwnRecord | outfit_assistant_streamlit.py:241-314 | the reply a chat turn appends shows the record that turn stored, and no panel when it is empty |
| StreamlitSession.TurnKeepsEarlierPanels | outfit_assistant_streamlit.py:241-314 | a later chat turn never changes the panel of an earlier message |
| StreamlitSession.ChatSession.constructor | outfit_assistant_streamlit.py:149-152 | both lists start empty |
| StreamlitSession.ChatSession.ShowWelcome | outfit_assistant_streamlit.py:155-167 | an empty conversation gets exactly the welcome message; a non-empty one and the records are left alone |
| StreamlitSession.ChatSession.PressQuickAction | outfit_assistant_streamlit.py:214-236 | a quick-start button appends its canned user prompt only, stores no tool record and makes no agent call |
| StreamlitSession.ChatSession.SubmitChat | outfit_assistant_streamlit.py:239-314 | a non-empty prompt appends the prompt and one reply, and exactly one tool record, on success and on failure; the new reply shows its own record; an empty prompt changes nothing |
| StreamlitSession.ChatSession.Clear | outfit_assistant_streamlit.py:321-324 | both lists become empty together |
| StreamlitSession.ChatSession.ScriptRun | outfit_assistant_streamlit.py:149-324 | one run of the page, including the run after `st.rerun()`: the state after each kind of event, with the pairing invariant kept and the welcome message first |
| AgentCoreCli.NewAssistant | agent_core_outfit_assistant.py:108-110 | the assistant's user id and weather key are those of the environment |
| AgentCoreCli.SuccessText | agent_core_outfit_assistant.py:179-190 | the text of a successful call: `output` or the fallback in AgentCore mode, `str(response)` otherwise; no contract of its own: GetOutfitAdvice states it |
| AgentCoreCli.GetOutfitAdvice | agent_core_outfit_assistant.py:178-193 | never raises: a failure yields the error prefix followed by the exception's text; in AgentCore mode a response without `output` yields the fixed fallback; otherwise the text of the response |
| AgentCoreCli.AdviceFlagsExactlyTheFailures | agent_core_outfit_assistant.py:192-193 | the advice starts with the error prefix iff the call raised, when no answer starts with it |
| AgentCoreCli.TranscriptAt | agent_core_outfit_assistant.py:181-190 | the j-th exchange sends the j-th forwarded line with the assistant's user id and prints the advice of that call |
| AgentCoreCli.SessionTurn | agent_core_outfit_assistant.py:217-237 | one pass of the session loop: it stops on Ctrl-C or an exit command, skips a blank line, and otherwise forwards the line and prints its advice |
| AgentCoreCli.InteractiveSession | agent_core_outfit_assistant.py:210-237 | the exchanges of a session are those of exactly the lines `RunSession` forwards; the session reads and ends as `RunSession` says |
| AgentCoreCli.DemoConversation | agent_core_outfit_assistant.py:195-208 | the demo is a chat session and nothing else |
| AgentCoreCli.ChosenSession | agent_core_outfit_assistant.py:301-304 | both `demo` and `chat` run a chat session on the input that follows |
| AgentCoreCli.MenuTurn | agent_core_outfit_assistant.py:295-315 | one pass of the menu loop: the action it takes and the session it runs continue `RunMenu` on the rest of the input |
| AgentCoreCli.MenuLoop | agent_core_outfit_assistant.py:294-315 | the actions are those of `RunMenu`, and the exchanges are those of every line the menu's sessions forward, with calls numbered on across sessions |
| AgentCoreCli.StartupKeyNotice | agent_core_outfit_assistant.py:279-283 | the banner reminds the user to set the weather key iff it is unset or empty |
| AgentCoreCli.StartupNoticeMatchesLoadWarning | agent_core_outfit_assistant.py:49-50 | the banner's reminder appears exactly when the load-time weather-key warning does |
| AgentCoreCli.RunMain | agent_core_outfit_assistant.py:272-315 | a whole run: the load warnings, the key notice, then the menu loop of an assistant built from the environment |
| WeatherCli.KeyNoticeAsWritten | ginny_weather_outift_assistant.py:194-198 | the banner reminds the user iff the key is set and is the literal `demo_key` |
| WeatherCli.UnsetKeyReportedReady | ginny_weather_outift_assistant.py:194-198 | with the key unset, the load-time warning fires and the AgentCore program reminds the user, yet this banner reports the weather API as ready |
| WeatherCli.KeyNotice | ginny_weather_outift_assistant.py:194-198 | intended check: a reminder iff the key is unset, empty or the placeholder `demo_key` |
| WeatherCli.KeyNoticeAgreesWithWarnings | ginny_weather_outift_assistant.py:194-198 | the corrected notice reminds whenever the load-time warning fired and whenever the written check reminds, and agrees with the AgentCore program on every key except the placeholder |
| WeatherCli.TurnShown | ginny_weather_outift_assistant.py:151-161 | a turn prints the agent's answer, or a line-initial error prefix followed by the exception's text, and the session goes on |
| WeatherCli.TurnShownMatchesStrandsAdvice | ginny_weather_outift_assistant.py:152-160 | a turn prints what the AgentCore program's advice is without AgentCore, apart from the newline before an error |
| WeatherCli.TranscriptAt | ginny_weather_outift_assistant.py:152 | the j-th exchange sends the j-th forwarded line with `USER_ID` and prints the outcome of that call |
| WeatherCli.SessionTurn | ginny_weather_outift_assistant.py:141-161 | one pass of the session loop: it stops on Ctrl-C or an exit command, skips a blank line, and otherwise forwards the line and prints the outcome |
| WeatherCli.InteractiveSession | ginny_weather_outift_assistant.py:134-161 | the exchanges of a session are those of exactly the lines `RunSession` forwards, each with the user id; the session reads and ends as `RunSession` says |
| WeatherCli.DemoConversation | ginny_weather_outift_assistant.py:118-132 | the demo is a chat session and nothing else |
| WeatherCli.MenuTurn | ginny_weather_outift_assistant.py:207-227 | one pass of the menu loop: the action it takes and the session it runs continue `RunMenu` on the rest of the input |
| WeatherCli.MenuLoop | ginny_weather_outift_assistant.py:206-227 | the actions are those of `RunMenu`, and the exchanges are those of every line the menu's sessions forward, with calls numbered on across sessions |
| WeatherCli.RunMain | ginny_weather_outift_assistant.py:188-227 | a whole run: the load warnings, the key notice as the program decides it (a reminder iff the key is the literal `demo_key`), then the menu loop with `USER_ID` from the environment |

## Left out

- **The agent and its tools.** This covers the language model, Mem0 memory, the HTTP and OpenWeatherMap requests, the prompts, and the AgentCore configuration and registration. They are foreign code and network calls. A call is represented only by what it returns or the exception it raises.
- **Output rendering.** This covers printed banners, help and invalid-option texts, prompts, the farewell lines, and the line printed after an error. Streamlit rendering (columns, expanders, the sidebar history, the environment panel) is left out too. It is display only. The model records what each turn prints for the agent's answer.
- **Captured stderr on the Streamlit page.** It is only displayed.
- **Failures after the reply is stored on the Streamlit page.** A rendering exception raised after a record was appended would append a second empty record. That path comes from display calls.
- **End of input.** At end of input, `input()` raises `EOFError`. The loops' `except Exception` catches it and prompts again forever. The model's loops stop when the finite input is exhausted.
- **Exceptions raised by `input()` itself, other than Ctrl-C, in the menu loops.** They are outside the modelled input.
- **Ctrl-C while the agent is working.** The model treats an interrupt only as a console event, not as one arriving during an agent call.
- **Letter case.** Lower-casing is modelled on ASCII letters only. No other character lower-cases to a letter of `exit`, `bye`, `demo`, `chat` or `help`, so the comparisons the programs make come out the same.
- **Dictionary insertion order.** The record is a map. The order in which the page lists the tools is not modelled.
- **The AgentCore program's notice that the AgentCore runtime is missing.** This is a print at import. The runtime's availability is a parameter (`agentCoreAvailable`).
- **`threading`, `Queue` and `time`.** They are imported but unused.

## Findings

| source | as written | input that shows it | evidently intended | confidence | as-written member | corrected member |
|---|---|---|---|---|---|---|
| outfit_assistant_streamlit.py:181-183 | the tool panel under message `i` is `tool_calls[i]`, indexed by message position | the welcome message, then one chat turn whose agent used a tool: the welcome shows that turn's tools, the reply shows none | each reply shows the record of its own chat turn | not executed | StreamlitSession.ToolPanelAsWritten, StreamlitSession.WelcomeShowsFirstTurnTools | StreamlitSession.ToolPanel, StreamlitSession.TurnShowsItsOwnRecord |
| ginny_weather_outift_assistant.py:194-198 | the reminder to set the weather key is printed only when the key is the literal `demo_key` | `OPENWEATHER_API_KEY` unset: the load-time warning says weather is unavailable, and the banner reports the weather API ready | remind whenever no usable key is configured (unset, empty or the placeholder), as the load-time check and the AgentCore program do | not executed | WeatherCli.KeyNoticeAsWritten, WeatherCli.UnsetKeyReportedReady | WeatherCli.KeyNotice, WeatherCli.KeyNoticeAgreesWithWarnings |
