/**
 * The AgentCore + Strands command-line assistant: the assistant object, its
 * advice call with the AgentCore fallback and the exception wrapping, the chat
 * session loop and the start-up menu loop.
 */
module AgentCoreCli {
  import opened Options
  import opened PyStr
  import opened Config
  import opened AgentBoundary
  import opened ConsoleInput

  /**
   * The assistant object. Its fields are set once by `__init__`; whether the
   * AgentCore runtime imported is fixed when the program loads.
   */
  datatype Assistant = Assistant(userId: string, weatherKey: Option<string>, agentCoreAvailable: bool)

  /** `AgentCoreOutfitAssistant()`: the user id and the weather key come from the environment. */
  function NewAssistant(env: Environment, agentCoreAvailable: bool): (a: Assistant)
    ensures "USER_ID" in env ==> a.userId == env["USER_ID"]
    ensures "USER_ID" !in env ==> a.userId == DEFAULT_USER_ID
    ensures a.weatherKey.Some? <==> WEATHER_KEY_VAR in env
    ensures a.weatherKey.Some? ==> a.weatherKey.value == env[WEATHER_KEY_VAR]
    ensures a.agentCoreAvailable == agentCoreAvailable
  {
    Assistant(UserIdFrom(env), GetEnv(env, WEATHER_KEY_VAR), agentCoreAvailable)
  }

  /** The reply used when an AgentCore response has no `"output"` key. */
  const NO_RESPONSE: string := "抱歉，無法獲取回應"

  /** The text a successful call yields in the assistant's mode. */
  function SuccessText(a: Assistant, r: AgentResponse): string {
    if a.agentCoreAvailable then r.output.GetOr(NO_RESPONSE) else r.rendered
  }

  /**
   * `get_outfit_advice`: never raises. A failed call becomes the error prefix
   * followed by the exception's text, from which the text can be read back;
   * in AgentCore mode a response without `"output"` becomes NO_RESPONSE.
   */
  function GetOutfitAdvice(a: Assistant, call: AgentCall): (advice: string)
    ensures call.Raised? ==> StartsWith(advice, ERROR_PREFIX) && advice[|ERROR_PREFIX|..] == call.message
    ensures call.Responded? && a.agentCoreAvailable && call.response.output.None? ==> advice == NO_RESPONSE
    ensures call.Responded? && a.agentCoreAvailable && call.response.output.Some? ==>
      advice == call.response.output.value
    ensures call.Responded? && !a.agentCoreAvailable ==> advice == call.response.rendered
  {
    match call
    case Raised(message) => ERROR_PREFIX + message
    case Responded(r) => SuccessText(a, r)
  }

  /**
   * A reply starts with the error prefix exactly when the call failed, as long
   * as no successful reply itself starts with it.
   */
  lemma AdviceFlagsExactlyTheFailures(a: Assistant, call: AgentCall)
    requires call.Responded? ==> !StartsWith(SuccessText(a, call.response), ERROR_PREFIX)
    ensures StartsWith(GetOutfitAdvice(a, call), ERROR_PREFIX) <==> call.Raised?
  {
  }

  /**
   * The exchanges the assistant has for the forwarded `lines`, the agent calls
   * numbered on from `k` (TranscriptAt says what each one is).
   */
  function Transcript(a: Assistant, lines: seq<string>, agent: nat -> AgentCall, k: nat): (t: seq<Exchange<string>>)
    ensures |t| == |lines|
    decreases |lines|
  {
    if lines == [] then []
    else [Exchange(AgentRequest(lines[0], a.userId), GetOutfitAdvice(a, agent(k)))] + Transcript(a, lines[1..], agent, k + 1)
  }

  /** The `j`-th exchange sends the `j`-th line with the user id and shows the advice of call `k + j`. */
  lemma {:induction false} TranscriptAt(a: Assistant, lines: seq<string>, agent: nat -> AgentCall, k: nat, j: nat)
    requires j < |lines|
    ensures Transcript(a, lines, agent, k)[j] ==
            Exchange(AgentRequest(lines[j], a.userId), GetOutfitAdvice(a, agent(k + j)))
    decreases j
  {
    if j > 0 {
      TranscriptAt(a, lines[1..], agent, k + 1, j - 1);
    }
  }

  /** The exchanges of consecutive runs of lines follow one another, the call numbers running on. */
  lemma {:induction false} TranscriptAppend(a: Assistant, xs: seq<string>, ys: seq<string>, agent: nat -> AgentCall, k: nat)
    ensures Transcript(a, xs + ys, agent, k) == Transcript(a, xs, agent, k) + Transcript(a, ys, agent, k + |xs|)
    decreases |xs|
  {
    if xs == [] {
      assert xs + ys == ys;
    } else {
      assert (xs + ys)[0] == xs[0] && (xs + ys)[1..] == xs[1..] + ys;
      TranscriptAppend(a, xs[1..], ys, agent, k + 1);
    }
  }

  /**
   * One pass of `interactive_session`'s `while True`: read a line and act on
   * it. `ending` says whether, and how, the session stopped; otherwise `lines`
   * is what was forwarded (nothing for a blank line), as call `call`.
   */
  method SessionTurn(a: Assistant, events: seq<ConsoleEvent>, agent: nat -> AgentCall, call: nat)
    returns (shown: seq<Exchange<string>>, lines: seq<string>, ending: Option<SessionEnd>)
    requires events != []
    ensures ending.Some? ==> RunSession(events) == SessionTrace(lines, 1, ending.value) && lines == []
    ensures ending.None? ==> RunSession(events) == Resumed(lines, 1, RunSession(events[1..]))
    ensures shown == Transcript(a, lines, agent, call)
  {
    SessionStep(events);
    shown, lines, ending := [], [], None;
    match events[0] {
      case Interrupt =>
        ending := Some(Interrupted);
      case Typed(userInput) =>
        var kind := ClassifyLine(userInput);
        if kind == EndSession {
          ending := Some(ExitTyped);
        } else if kind == Utterance {
          var response := GetOutfitAdvice(a, agent(call));
          shown, lines := [Exchange(AgentRequest(userInput, a.userId), response)], [userInput];
          assert shown == Transcript(a, lines, agent, call);
        }
    }
  }

  /**
   * `interactive_session`: reads `events` until an exit command, Ctrl-C or the
   * end of the input. Every non-blank line is sent, unmodified and with the
   * assistant's user id, as the next agent call (numbered from `firstCall`),
   * and its advice is printed.
   */
  method InteractiveSession(a: Assistant, events: seq<ConsoleEvent>, agent: nat -> AgentCall, firstCall: nat)
    returns (exchanges: seq<Exchange<string>>, consumed: nat, ending: SessionEnd)
    ensures exchanges == Transcript(a, RunSession(events).utterances, agent, firstCall)
    ensures consumed == RunSession(events).consumed && ending == RunSession(events).ending
  {
    ghost var forwarded: seq<string> := [];
    exchanges := [];
    var rest := events;
    consumed := 0;
    while rest != []
      invariant RunSession(events) == Resumed(forwarded, consumed, RunSession(rest))
      invariant exchanges == Transcript(a, forwarded, agent, firstCall)
      decreases |rest|
    {
      var call := firstCall + |exchanges|;
      var shown, lines, stop := SessionTurn(a, rest, agent, call);
      assert forwarded + [] == forwarded;
      if stop.Some? {
        return exchanges, consumed + 1, stop.value;
      }
      ResumedTwice(forwarded, consumed, lines, RunSession(rest[1..]));
      TranscriptExtends(a, agent, firstCall, exchanges, forwarded, call, shown, lines);
      exchanges, forwarded := exchanges + shown, forwarded + lines;
      rest := rest[1..];
      consumed := consumed + 1;
    }
    assert forwarded + [] == forwarded;
    ending := InputExhausted;
  }

  /** `demo_conversation`: prints the introduction, then runs a chat session. */
  method DemoConversation(a: Assistant, events: seq<ConsoleEvent>, agent: nat -> AgentCall, firstCall: nat)
    returns (exchanges: seq<Exchange<string>>, consumed: nat, ending: SessionEnd)
    ensures exchanges == Transcript(a, RunSession(events).utterances, agent, firstCall)
    ensures consumed == RunSession(events).consumed && ending == RunSession(events).ending
  {
    exchanges, consumed, ending := InteractiveSession(a, events, agent, firstCall);
  }

  /** The menu's `demo` and `chat` branches: both run a chat session on the input that follows. */
  method ChosenSession(a: Assistant, action: MenuAction, events: seq<ConsoleEvent>, agent: nat -> AgentCall, firstCall: nat)
    returns (exchanges: seq<Exchange<string>>, consumed: nat, ending: SessionEnd)
    requires action == Demo || action == Chat
    ensures exchanges == Transcript(a, RunSession(events).utterances, agent, firstCall)
    ensures consumed == RunSession(events).consumed && ending == RunSession(events).ending
  {
    if action == Demo {
      exchanges, consumed, ending := DemoConversation(a, events, agent, firstCall);
    } else {
      exchanges, consumed, ending := InteractiveSession(a, events, agent, firstCall);
    }
  }

  /** A session's exchanges, numbered on from those before it, extend them in step with its lines. */
  lemma TranscriptExtends(a: Assistant, agent: nat -> AgentCall, k: nat, exchanges: seq<Exchange<string>>,
                          forwarded: seq<string>, next: nat, session: seq<Exchange<string>>, lines: seq<string>)
    requires exchanges == Transcript(a, forwarded, agent, k)
    requires next == k + |exchanges| && session == Transcript(a, lines, agent, next)
    ensures exchanges + session == Transcript(a, forwarded + lines, agent, k)
  {
    TranscriptAppend(a, forwarded, lines, agent, k);
  }

  /**
   * One pass of the menu's `while True`: read a choice and act on it. `rest`
   * is what is left of the input afterwards, empty once the loop has ended
   * (Ctrl-C or `exit`); `lines` are the lines a chat session forwarded.
   */
  method MenuTurn(a: Assistant, events: seq<ConsoleEvent>, agent: nat -> AgentCall, firstCall: nat)
    returns (taken: seq<MenuAction>, session: seq<Exchange<string>>, rest: seq<ConsoleEvent>, ghost lines: seq<string>)
    requires events != []
    ensures |rest| < |events|
    ensures RunMenu(events) == Continued(taken, lines, RunMenu(rest))
    ensures session == Transcript(a, lines, agent, firstCall)
  {
    MenuStep(events);
    match events[0] {
      case Interrupt =>
        taken, session, rest, lines := [], [], [], [];
      case Typed(line) =>
        var action := Dispatch(Strip(Lower(line)));
        if action == Quit {
          taken, session, rest, lines := [Quit], [], [], [];
        } else if action == Demo || action == Chat {
          var consumed, ending;
          session, consumed, ending := ChosenSession(a, action, events[1..], agent, firstCall);
          taken, rest, lines := [action], events[1 + consumed..], RunSession(events[1..]).utterances;
        } else {
          taken, session, rest, lines := [action], [], events[1..], [];
        }
    }
    assert taken + [] == taken && lines + [] == lines;
  }

  /**
   * The menu loop of `main`: the actions chosen, and the exchanges of every
   * session it ran, with the agent calls numbered from 0 across sessions.
   */
  method MenuLoop(a: Assistant, events: seq<ConsoleEvent>, agent: nat -> AgentCall)
    returns (actions: seq<MenuAction>, exchanges: seq<Exchange<string>>)
    ensures actions == RunMenu(events).actions
    ensures exchanges == Transcript(a, RunMenu(events).utterances, agent, 0)
  {
    ghost var forwarded: seq<string> := [];
    actions, exchanges := [], [];
    var rest := events;
    while rest != []
      invariant RunMenu(events) == Continued(actions, forwarded, RunMenu(rest))
      invariant exchanges == Transcript(a, forwarded, agent, 0)
      decreases |rest|
    {
      var taken, session, next, lines := MenuTurn(a, rest, agent, |exchanges|);
      ContinuedTwice(actions, forwarded, taken, lines, RunMenu(next));
      TranscriptExtends(a, agent, 0, exchanges, forwarded, |exchanges|, session, lines);
      actions, exchanges, forwarded := actions + taken, exchanges + session, forwarded + lines;
      rest := next;
    }
    assert actions + [] == actions && forwarded + [] == forwarded;
  }

  /** The weather-key notice `main` prints first: a reminder when the key is unset or empty. */
  function StartupKeyNotice(env: Environment): (n: KeyNotice)
    ensures n == SetKeyReminder <==> WEATHER_KEY_VAR !in env || env[WEATHER_KEY_VAR] == ""
  {
    var key := GetEnv(env, WEATHER_KEY_VAR);
    if key.None? || key.value == "" then SetKeyReminder else WeatherReady
  }

  /** The banner reminds the user exactly when the load-time weather-key warning was printed. */
  lemma StartupNoticeMatchesLoadWarning(env: Environment)
    ensures StartupKeyNotice(env) == SetKeyReminder <==> WeatherKeyMissing in LoadWarnings(env)
  {
  }

  /** The module's load-time checks, then `main`: the key notice, the assistant and the menu loop. */
  method RunMain(env: Environment, agentCoreAvailable: bool, events: seq<ConsoleEvent>, agent: nat -> AgentCall)
    returns (warnings: seq<LoadWarning>, notice: KeyNotice, actions: seq<MenuAction>, exchanges: seq<Exchange<string>>)
    ensures warnings == LoadWarnings(env)
    ensures notice == SetKeyReminder <==> WEATHER_KEY_VAR !in env || env[WEATHER_KEY_VAR] == ""
    ensures actions == RunMenu(events).actions
    ensures exchanges == Transcript(NewAssistant(env, agentCoreAvailable), RunMenu(events).utterances, agent, 0)
  {
    warnings := LoadWarnings(env);
    notice := StartupKeyNotice(env);
    var assistant := NewAssistant(env, agentCoreAvailable);
    actions, exchanges := MenuLoop(assistant, events, agent);
  }
}
