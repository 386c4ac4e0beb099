/**
 * The console rules shared, line for line, by the two command-line entry
 * points: how a chat line is classified, how a menu line is dispatched, and
 * what a chat session and the whole menu loop make of a finite run of input.
 */
module ConsoleInput {
  import opened PyStr

  /** What one `input()` call yields: a typed line (newline removed) or Ctrl-C. */
  datatype ConsoleEvent = Typed(line: string) | Interrupt

  /** The words that end a chat session, compared after `lower()`. */
  const EXIT_WORDS: seq<string> := ["exit", "退出", "bye"]

  /** `user_input.lower() in ['exit', '退出', 'bye']`; the line is not stripped first. */
  predicate IsExitCommand(line: string) {
    Lower(line) in EXIT_WORDS
  }

  /** `not user_input.strip()`: nothing but whitespace (see BlankIsStripEmpty). */
  predicate IsBlank(line: string) {
    AllSpace(line)
  }

  /** The blank test agrees with `strip()` returning the empty string. */
  lemma BlankIsStripEmpty(line: string)
    ensures IsBlank(line) <==> Strip(line) == ""
  {
    StripIsTrimmedInfix(line);
  }

  lemma LowerCharKeepsSpace(c: char)
    ensures IsSpace(LowerChar(c)) <==> IsSpace(c)
  {
  }

  /** An exit command has no whitespace at either end, so `" exit"` does not end a session. */
  lemma ExitCommandIsUnpadded(line: string)
    requires IsExitCommand(line)
    ensures line != [] && !IsSpace(line[0]) && !IsSpace(line[|line| - 1])
  {
    var w := Lower(line);
    assert w == "exit" || w == "退出" || w == "bye";
    assert !IsSpace(w[0]) && !IsSpace(w[|w| - 1]);
    LowerCharKeepsSpace(line[0]);
    LowerCharKeepsSpace(line[|line| - 1]);
  }

  datatype LineKind = EndSession | SkipLine | Utterance

  /**
   * How a chat session treats one typed line. The exit test comes first, but
   * the order is immaterial: a line is skipped exactly when it is all
   * whitespace, and no exit command is.
   */
  function ClassifyLine(line: string): (kind: LineKind)
    ensures kind == EndSession <==> IsExitCommand(line)
    ensures kind == SkipLine <==> AllSpace(line)
    ensures kind == Utterance <==> !IsExitCommand(line) && !AllSpace(line)
  {
    if IsExitCommand(line) then
      ExitCommandIsUnpadded(line);
      EndSession
    else if IsBlank(line) then SkipLine
    else Utterance
  }

  // ------------------------------------------------------------ the menu

  datatype MenuAction = Quit | Demo | Chat | Help | Invalid

  /** The menu's dispatch on `input(...).lower().strip()`. */
  function MenuChoice(line: string): MenuAction {
    Dispatch(Strip(Lower(line)))
  }

  /**
   * The `if`/`elif` chain on the normalised choice: four words and the empty
   * line are recognised, anything else is an invalid option.
   */
  function Dispatch(choice: string): (action: MenuAction)
    ensures action == Quit <==> choice == "exit"
    ensures action == Demo <==> choice == "demo" || choice == ""
    ensures action == Chat <==> choice == "chat"
    ensures action == Help <==> choice == "help"
  {
    if choice == "exit" then Quit
    else if choice == "demo" || choice == "" then Demo
    else if choice == "chat" then Chat
    else if choice == "help" then Help
    else Invalid
  }

  lemma LowerIdempotent(s: string)
    ensures Lower(Lower(s)) == Lower(s)
  {
  }

  /**
   * Unlike a chat line, a menu line is normalised: letter case and surrounding
   * whitespace never change the action, and an empty line starts the demo.
   */
  lemma {:induction false} MenuIgnoresCaseAndPadding(a: string, line: string, b: string)
    requires AllSpace(a) && AllSpace(b)
    ensures MenuChoice(a + line + b) == MenuChoice(line)
    ensures MenuChoice(Lower(line)) == MenuChoice(line)
    ensures AllSpace(line) ==> MenuChoice(line) == Demo
  {
    calc {
      Lower(a + line + b);
    == { LowerConcat(a + line, b); LowerConcat(a, line); }
      Lower(a) + Lower(line) + Lower(b);
    == { LowerKeepsSpace(a); LowerKeepsSpace(b); }
      a + Lower(line) + b;
    }
    StripIgnoresPadding(a, Lower(line), b);
    assert Strip(Lower(a + line + b)) == Strip(Lower(line));
    LowerIdempotent(line);
    if AllSpace(line) {
      LowerKeepsSpace(line);
      StripIsTrimmedInfix(Lower(line));
      assert Strip(Lower(line)) == "";
    }
  }

  // ------------------------------------------------------------ a chat session

  datatype SessionEnd = ExitTyped | Interrupted | InputExhausted

  /** What a chat session did: the lines it forwarded, the events it read, how it ended. */
  datatype SessionTrace = SessionTrace(utterances: seq<string>, consumed: nat, ending: SessionEnd)

  /** A session trace `t` of the remaining input, after `before` was forwarded and `skipped` events were read. */
  function Resumed(before: seq<string>, skipped: nat, t: SessionTrace): SessionTrace {
    SessionTrace(before + t.utterances, skipped + t.consumed, t.ending)
  }

  /** A chat session's `while True` loop over `events`. */
  function RunSession(events: seq<ConsoleEvent>): (t: SessionTrace)
    ensures t.consumed <= |events|
    ensures t.ending == InputExhausted ==> t.consumed == |events|
    ensures t.ending != InputExhausted ==> 1 <= t.consumed && StopsSession(events[t.consumed - 1])
    ensures forall u :: u in t.utterances ==> !AllSpace(u) && !IsExitCommand(u)
    decreases |events|
  {
    if events == [] then SessionTrace([], 0, InputExhausted)
    else
      match events[0]
      case Interrupt => SessionTrace([], 1, Interrupted)
      case Typed(line) =>
        match ClassifyLine(line)
        case EndSession => SessionTrace([], 1, ExitTyped)
        case SkipLine =>
          var rest := RunSession(events[1..]);
          SessionTrace(rest.utterances, rest.consumed + 1, rest.ending)
        case Utterance =>
          var rest := RunSession(events[1..]);
          SessionTrace([line] + rest.utterances, rest.consumed + 1, rest.ending)
  }

  /** One step of a chat session: what its first event does to the rest of it. */
  lemma SessionStep(events: seq<ConsoleEvent>)
    requires events != []
    ensures events[0].Interrupt? ==> RunSession(events) == SessionTrace([], 1, Interrupted)
    ensures events[0].Typed? && ClassifyLine(events[0].line) == EndSession ==>
      RunSession(events) == SessionTrace([], 1, ExitTyped)
    ensures events[0].Typed? && ClassifyLine(events[0].line) == SkipLine ==>
      RunSession(events) == Resumed([], 1, RunSession(events[1..]))
    ensures events[0].Typed? && ClassifyLine(events[0].line) == Utterance ==>
      RunSession(events) == Resumed([events[0].line], 1, RunSession(events[1..]))
  {
  }

  lemma ResumedTwice(before: seq<string>, skipped: nat, more: seq<string>, t: SessionTrace)
    ensures Resumed(before, skipped, Resumed(more, 1, t)) == Resumed(before + more, skipped + 1, t)
  {
  }

  /** The events that end a chat session: Ctrl-C, or a typed exit command. */
  predicate StopsSession(e: ConsoleEvent) {
    e.Interrupt? || IsExitCommand(e.line)
  }

  /** The typed lines among `events` that are not all whitespace, in order. */
  function NonBlankLines(events: seq<ConsoleEvent>): seq<string> {
    if events == [] then []
    else
      var rest := NonBlankLines(events[1..]);
      if events[0].Typed? && !AllSpace(events[0].line) then [events[0].line] + rest else rest
  }

  /**
   * A session forwards exactly the non-blank lines typed before the first
   * stopping event, unmodified and in order; it reads up to and including that
   * event, and ends the way that event says.
   */
  lemma {:induction false} SessionForwardsLinesBeforeStop(events: seq<ConsoleEvent>, n: nat)
    requires n <= |events|
    requires forall j :: 0 <= j < n ==> !StopsSession(events[j])
    requires n < |events| ==> StopsSession(events[n])
    ensures RunSession(events).utterances == NonBlankLines(events[..n])
    ensures RunSession(events).consumed == if n < |events| then n + 1 else n
    ensures RunSession(events).ending ==
      if n == |events| then InputExhausted
      else if events[n].Interrupt? then Interrupted
      else ExitTyped
  {
    if n > 0 {
      assert !StopsSession(events[0]);
      assert events[..n][1..] == events[1..][..n - 1];
      forall j | 0 <= j < n - 1 ensures !StopsSession(events[1..][j]) {
        assert events[1..][j] == events[j + 1];
      }
      SessionForwardsLinesBeforeStop(events[1..], n - 1);
    } else if n < |events| {
      assert events[..n] == [];
    }
  }

  // ------------------------------------------------------------ the menu loop

  /** What the menu loop did: the actions chosen and every line forwarded by its sessions. */
  datatype ProgramTrace = ProgramTrace(actions: seq<MenuAction>, utterances: seq<string>)

  /**
   * The menu's `while True` loop over `events`: `demo` and `chat` run a chat
   * session on the events that follow, and the menu resumes after it.
   */
  function RunMenu(events: seq<ConsoleEvent>): (p: ProgramTrace)
    ensures forall j :: 0 <= j < |p.actions| - 1 ==> p.actions[j] != Quit
    ensures forall u :: u in p.utterances ==> !AllSpace(u) && !IsExitCommand(u)
    ensures |p.actions| <= |events|
    decreases |events|
  {
    if events == [] then ProgramTrace([], [])
    else
      match events[0]
      case Interrupt => ProgramTrace([], [])
      case Typed(line) =>
        var a := MenuChoice(line);
        if a == Quit then ProgramTrace([Quit], [])
        else if a == Demo || a == Chat then
          var s := RunSession(events[1..]);
          var rest := RunMenu(events[1 + s.consumed..]);
          ProgramTrace([a] + rest.actions, s.utterances + rest.utterances)
        else
          var rest := RunMenu(events[1..]);
          ProgramTrace([a] + rest.actions, rest.utterances)
  }

  /** A menu trace `t` of the remaining input, after `before` was chosen and `sent` was forwarded. */
  function Continued(before: seq<MenuAction>, sent: seq<string>, t: ProgramTrace): ProgramTrace {
    ProgramTrace(before + t.actions, sent + t.utterances)
  }

  lemma ContinuedTwice(before: seq<MenuAction>, sent: seq<string>, more: seq<MenuAction>, lines: seq<string>, t: ProgramTrace)
    ensures Continued(before, sent, Continued(more, lines, t)) == Continued(before + more, sent + lines, t)
  {
    assert before + (more + t.actions) == (before + more) + t.actions;
    assert sent + (lines + t.utterances) == (sent + lines) + t.utterances;
  }

  /** One step of the menu loop: what its first event does to the rest of the run. */
  lemma MenuStep(events: seq<ConsoleEvent>)
    requires events != []
    ensures events[0].Interrupt? ==> RunMenu(events) == ProgramTrace([], [])
    ensures events[0].Typed? && MenuChoice(events[0].line) == Quit ==> RunMenu(events) == ProgramTrace([Quit], [])
    ensures events[0].Typed? && (MenuChoice(events[0].line) == Demo || MenuChoice(events[0].line) == Chat) ==>
      var s := RunSession(events[1..]);
      RunMenu(events) == Continued([MenuChoice(events[0].line)], s.utterances, RunMenu(events[1 + s.consumed..]))
    ensures events[0].Typed? && (MenuChoice(events[0].line) == Help || MenuChoice(events[0].line) == Invalid) ==>
      RunMenu(events) == Continued([MenuChoice(events[0].line)], [], RunMenu(events[1..]))
  {
  }
}
