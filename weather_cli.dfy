/**
 * The "Ginny" Strands command-line assistant: the environment checks made
 * when the program loads, the weather-key notice of its start-up banner, the
 * chat session that calls the agent directly, and the menu loop.
 */
module WeatherCli {
  import opened Options
  import opened PyStr
  import opened Config
  import opened AgentBoundary
  import opened ConsoleInput
  import AgentCoreCli

  /** The placeholder key value the banner treats as "not configured". */
  const DEMO_KEY: string := "demo_key"

  // ------------------------------------------------------------ the banner's key notice

  /** The banner's check as written: the reminder appears only for the literal placeholder. */
  function KeyNoticeAsWritten(env: Environment): (n: KeyNotice)
    ensures n == SetKeyReminder <==> WEATHER_KEY_VAR in env && env[WEATHER_KEY_VAR] == DEMO_KEY
  {
    if GetEnv(env, WEATHER_KEY_VAR) == Some(DEMO_KEY) then SetKeyReminder else WeatherReady
  }

  /**
   * With no key at all, the load-time warning says the weather feature will
   * not work, yet the banner reports the weather API as ready; the AgentCore
   * program reminds the user in the same situation.
   */
  lemma UnsetKeyReportedReady(env: Environment)
    requires WEATHER_KEY_VAR !in env
    ensures WeatherKeyMissing in LoadWarnings(env)
    ensures KeyNoticeAsWritten(env) == WeatherReady
    ensures AgentCoreCli.StartupKeyNotice(env) == SetKeyReminder
  {
  }

  /** The banner's check as intended: a reminder whenever no usable key is configured. */
  function KeyNotice(env: Environment): (n: KeyNotice)
    ensures n == SetKeyReminder <==> Unconfigured(env, WEATHER_KEY_VAR) || env[WEATHER_KEY_VAR] == DEMO_KEY
  {
    var key := GetEnv(env, WEATHER_KEY_VAR).GetOr("");
    if key == "" || key == DEMO_KEY then SetKeyReminder else WeatherReady
  }

  /**
   * The corrected notice never contradicts the load-time warning, keeps every
   * reminder the written check gives, and agrees with the AgentCore program
   * on every key but the placeholder.
   */
  lemma KeyNoticeAgreesWithWarnings(env: Environment)
    ensures WeatherKeyMissing in LoadWarnings(env) ==> KeyNotice(env) == SetKeyReminder
    ensures KeyNoticeAsWritten(env) == SetKeyReminder ==> KeyNotice(env) == SetKeyReminder
    ensures GetEnv(env, WEATHER_KEY_VAR) != Some(DEMO_KEY) ==> KeyNotice(env) == AgentCoreCli.StartupKeyNotice(env)
  {
  }

  // ------------------------------------------------------------ one agent call

  /** What a chat turn prints after the prompt: the agent's answer, or the caught error. */
  datatype TurnOutput = Answer(text: string) | ErrorNotice(text: string)

  /** The prefix of the error line, which starts on a line of its own. */
  const ERROR_LINE_PREFIX: string := "\n" + ERROR_PREFIX

  /**
   * `outfit_agent(user_input, user_id=USER_ID)` inside the `try`: the answer is
   * `str()` of the result; an exception is caught, reported, and the session
   * goes on.
   */
  function TurnShown(call: AgentCall): (o: TurnOutput)
    ensures o.Answer? <==> call.Responded?
    ensures call.Responded? ==> o.text == call.response.rendered
    ensures call.Raised? ==> StartsWith(o.text, ERROR_LINE_PREFIX) && o.text[|ERROR_LINE_PREFIX|..] == call.message
  {
    match call
    case Responded(r) => Answer(r.rendered)
    case Raised(message) => ErrorNotice(ERROR_LINE_PREFIX + message)
  }

  /**
   * The same call shows the same text as the AgentCore program's
   * `get_outfit_advice` does when the AgentCore runtime is missing, except
   * that an error starts on a new line.
   */
  lemma TurnShownMatchesStrandsAdvice(a: AgentCoreCli.Assistant, call: AgentCall)
    requires !a.agentCoreAvailable
    ensures call.Responded? ==> TurnShown(call).text == AgentCoreCli.GetOutfitAdvice(a, call)
    ensures call.Raised? ==> TurnShown(call).text == "\n" + AgentCoreCli.GetOutfitAdvice(a, call)
  {
    if call.Raised? {
      assert ERROR_LINE_PREFIX + call.message == "\n" + (ERROR_PREFIX + call.message);
    }
  }

  // ------------------------------------------------------------ a session's exchanges

  /**
   * The exchanges for the forwarded `lines`, each sent with `userId`, the agent
   * calls numbered on from `k` (TranscriptAt says what each one is).
   */
  function Transcript(userId: string, lines: seq<string>, agent: nat -> AgentCall, k: nat): (t: seq<Exchange<TurnOutput>>)
    ensures |t| == |lines|
    decreases |lines|
  {
    if lines == [] then []
    else [Exchange(AgentRequest(lines[0], userId), TurnShown(agent(k)))] + Transcript(userId, lines[1..], agent, k + 1)
  }

  /** The `j`-th exchange sends the `j`-th line with the user id and shows the outcome of call `k + j`. */
  lemma {:induction false} TranscriptAt(userId: string, lines: seq<string>, agent: nat -> AgentCall, k: nat, j: nat)
    requires j < |lines|
    ensures Transcript(userId, lines, agent, k)[j] == Exchange(AgentRequest(lines[j], userId), TurnShown(agent(k + j)))
    decreases j
  {
    if j > 0 {
      TranscriptAt(userId, lines[1..], agent, k + 1, j - 1);
    }
  }

  /** The exchanges of consecutive runs of lines follow one another, the call numbers running on. */
  lemma {:induction false} TranscriptAppend(userId: string, xs: seq<string>, ys: seq<string>, agent: nat -> AgentCall, k: nat)
    ensures Transcript(userId, xs + ys, agent, k) == Transcript(userId, xs, agent, k) + Transcript(userId, ys, agent, k + |xs|)
    decreases |xs|
  {
    if xs == [] {
      assert xs + ys == ys;
    } else {
      assert (xs + ys)[0] == xs[0] && (xs + ys)[1..] == xs[1..] + ys;
      TranscriptAppend(userId, xs[1..], ys, agent, k + 1);
    }
  }

  /** Exchanges numbered on from those before them extend them in step with their lines. */
  lemma TranscriptExtends(userId: string, agent: nat -> AgentCall, k: nat, exchanges: seq<Exchange<TurnOutput>>,
                          forwarded: seq<string>, next: nat, more: seq<Exchange<TurnOutput>>, lines: seq<string>)
    requires exchanges == Transcript(userId, forwarded, agent, k)
    requires next == k + |exchanges| && more == Transcript(userId, lines, agent, next)
    ensures exchanges + more == Transcript(userId, forwarded + lines, agent, k)
  {
    TranscriptAppend(userId, forwarded, lines, agent, k);
  }

  // ------------------------------------------------------------ the chat session

  /**
   * One pass of `interactive_session`'s `while True`: read a line and act on
   * it. `ending` says whether, and how, the session stopped; otherwise `lines`
   * is what was forwarded (nothing for a blank line), as call `call`.
   */
  method SessionTurn(userId: string, events: seq<ConsoleEvent>, agent: nat -> AgentCall, call: nat)
    returns (shown: seq<Exchange<TurnOutput>>, lines: seq<string>, ending: Option<SessionEnd>)
    requires events != []
    ensures ending.Some? ==> RunSession(events) == SessionTrace(lines, 1, ending.value) && lines == []
    ensures ending.None? ==> RunSession(events) == Resumed(lines, 1, RunSession(events[1..]))
    ensures shown == Transcript(userId, lines, agent, call)
  {
    SessionStep(events);
    shown, lines, ending := [], [], None;
    match events[0] {
      case Interrupt =>
        ending := Some(Interrupted);
      case Typed(userInput) =>
        var kind := ClassifyLine(userInput);
        if kind == EndSession {
          ending := Some(ExitTyped);
        } else if kind == Utterance {
          var output := TurnShown(agent(call));
          shown, lines := [Exchange(AgentRequest(userInput, userId), output)], [userInput];
          assert shown == Transcript(userId, lines, agent, call);
        }
    }
  }

  /**
   * `interactive_session`: reads `events` until an exit command, Ctrl-C or the
   * end of the input. Every non-blank line is sent, unmodified and with the
   * configured user id, as the next agent call (numbered from `firstCall`),
   * and the answer or the error is printed.
   */
  method InteractiveSession(userId: string, events: seq<ConsoleEvent>, agent: nat -> AgentCall, firstCall: nat)
    returns (exchanges: seq<Exchange<TurnOutput>>, consumed: nat, ending: SessionEnd)
    ensures exchanges == Transcript(userId, RunSession(events).utterances, agent, firstCall)
    ensures consumed == RunSession(events).consumed && ending == RunSession(events).ending
  {
    ghost var forwarded: seq<string> := [];
    exchanges := [];
    var rest := events;
    consumed := 0;
    while rest != []
      invariant RunSession(events) == Resumed(forwarded, consumed, RunSession(rest))
      invariant exchanges == Transcript(userId, forwarded, agent, firstCall)
      decreases |rest|
    {
      var call := firstCall + |exchanges|;
      var shown, lines, stop := SessionTurn(userId, rest, agent, call);
      assert forwarded + [] == forwarded;
      if stop.Some? {
        return exchanges, consumed + 1, stop.value;
      }
      ResumedTwice(forwarded, consumed, lines, RunSession(rest[1..]));
      TranscriptExtends(userId, agent, firstCall, exchanges, forwarded, call, shown, lines);
      exchanges, forwarded := exchanges + shown, forwarded + lines;
      rest := rest[1..];
      consumed := consumed + 1;
    }
    assert forwarded + [] == forwarded;
    ending := InputExhausted;
  }

  /** `demo_conversation`: prints the suggested openings, then runs a chat session. */
  method DemoConversation(userId: string, events: seq<ConsoleEvent>, agent: nat -> AgentCall, firstCall: nat)
    returns (exchanges: seq<Exchange<TurnOutput>>, consumed: nat, ending: SessionEnd)
    ensures exchanges == Transcript(userId, RunSession(events).utterances, agent, firstCall)
    ensures consumed == RunSession(events).consumed && ending == RunSession(events).ending
  {
    exchanges, consumed, ending := InteractiveSession(userId, events, agent, firstCall);
  }

  // ------------------------------------------------------------ the menu loop

  /**
   * One pass of the menu's `while True`: read a choice and act on it. `rest`
   * is what is left of the input afterwards, empty once the loop has ended
   * (Ctrl-C or `exit`); `lines` are the lines a chat session forwarded.
   */
  method MenuTurn(userId: string, events: seq<ConsoleEvent>, agent: nat -> AgentCall, firstCall: nat)
    returns (taken: seq<MenuAction>, session: seq<Exchange<TurnOutput>>, rest: seq<ConsoleEvent>, ghost lines: seq<string>)
    requires events != []
    ensures |rest| < |events|
    ensures RunMenu(events) == Continued(taken, lines, RunMenu(rest))
    ensures session == Transcript(userId, lines, agent, firstCall)
  {
    MenuStep(events);
    match events[0] {
      case Interrupt =>
        taken, session, rest, lines := [], [], [], [];
      case Typed(line) =>
        var choice := Dispatch(Strip(Lower(line)));
        if choice == Quit {
          taken, session, rest, lines := [Quit], [], [], [];
        } else if choice == Demo {
          var consumed, ending;
          session, consumed, ending := DemoConversation(userId, events[1..], agent, firstCall);
          taken, rest, lines := [Demo], events[1 + consumed..], RunSession(events[1..]).utterances;
        } else if choice == Chat {
          var consumed, ending;
          session, consumed, ending := InteractiveSession(userId, events[1..], agent, firstCall);
          taken, rest, lines := [Chat], events[1 + consumed..], RunSession(events[1..]).utterances;
        } else {
          taken, session, rest, lines := [choice], [], events[1..], [];
        }
    }
    assert taken + [] == taken && lines + [] == lines;
  }

  /**
   * The `__main__` menu loop: the actions chosen, and the exchanges of every
   * session it ran, with the agent calls numbered from 0 across sessions.
   */
  method MenuLoop(userId: string, events: seq<ConsoleEvent>, agent: nat -> AgentCall)
    returns (actions: seq<MenuAction>, exchanges: seq<Exchange<TurnOutput>>)
    ensures actions == RunMenu(events).actions
    ensures exchanges == Transcript(userId, RunMenu(events).utterances, agent, 0)
  {
    ghost var forwarded: seq<string> := [];
    actions, exchanges := [], [];
    var rest := events;
    while rest != []
      invariant RunMenu(events) == Continued(actions, forwarded, RunMenu(rest))
      invariant exchanges == Transcript(userId, forwarded, agent, 0)
      decreases |rest|
    {
      var taken, session, next, lines := MenuTurn(userId, rest, agent, |exchanges|);
      ContinuedTwice(actions, forwarded, taken, lines, RunMenu(next));
      TranscriptExtends(userId, agent, 0, exchanges, forwarded, |exchanges|, session, lines);
      actions, exchanges, forwarded := actions + taken, exchanges + session, forwarded + lines;
      rest := next;
    }
    assert actions + [] == actions && forwarded + [] == forwarded;
  }

  /**
   * The program run as a script: the load-time warnings, the banner's key
   * notice as the program decides it (so an unset key is reported ready, see
   * UnsetKeyReportedReady), then the menu loop with the `USER_ID` read at load
   * time.
   */
  method RunMain(env: Environment, events: seq<ConsoleEvent>, agent: nat -> AgentCall)
    returns (warnings: seq<LoadWarning>, notice: KeyNotice, actions: seq<MenuAction>, exchanges: seq<Exchange<TurnOutput>>)
    ensures warnings == LoadWarnings(env)
    ensures notice == SetKeyReminder <==> WEATHER_KEY_VAR in env && env[WEATHER_KEY_VAR] == DEMO_KEY
    ensures actions == RunMenu(events).actions
    ensures exchanges == Transcript(UserIdFrom(env), RunMenu(events).utterances, agent, 0)
  {
    warnings := LoadWarnings(env);
    notice := KeyNoticeAsWritten(env);
    actions, exchanges := MenuLoop(UserIdFrom(env), events, agent);
  }
}
