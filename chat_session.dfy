/**
 * The Streamlit page's session state: the chat `messages` and, beside them,
 * `tool_calls`, one tool record per chat turn. Each user interaction reruns the
 * page script from the top; the lists survive between runs.
 *
 * The two lists are NOT aligned by position: the welcome message and the
 * quick-action prompts get no tool record, so the i-th message and the i-th
 * record generally belong to different turns.
 */
module StreamlitSession {
  import opened Options
  import opened PyStr
  import opened ToolTrace

  datatype Role = User | Assistant

  datatype Message = Message(role: Role, content: string)

  /** What the agent call did: returned (with what it printed meanwhile) or raised. */
  datatype AgentRun = Completed(stdout: string, response: string) | Raised(error: string)

  /** The four quick-start buttons. */
  datatype QuickAction = DateOutfit | WorkOutfit | CasualOutfit | MemoryTest

  /** The one widget event a script run reacts to. */
  datatype PageEvent =
    | NoInput
    | QuickButton(action: QuickAction)
    | ChatSubmitted(prompt: string, run: AgentRun)
    | ClearPressed

  const WELCOME: string :=
    "\n    👋 **歡迎！我是您的私人穿搭顧問 Strands**\n    \n    🔧 **此 Streamlit Demo 特色**：\n"
    + "    • 💕 完整的工具調用過程顯示\n    • 🔍 實時監控 API 調用\n    • 📊 記憶系統狀態追蹤\n"
    + "    • 🌤️ 天氣 API 調用詳情\n    \n    告訴我您的需求，讓我為您打造專屬造型！\n    "

  const WELCOME_MESSAGE: Message := Message(Assistant, WELCOME)

  /** The reply stored when the agent call raises. */
  const APOLOGY: string := "抱歉，我暫時無法回應。請稍後再試！😔"

  /** The canned user message each quick-start button appends. */
  function QuickActionPrompt(a: QuickAction): string {
    match a
    case DateOutfit => "我明天要去約會，該穿什麼？"
    case WorkOutfit => "幫我搭配上班服裝"
    case CasualOutfit => "我想要週末休閒穿搭建議"
    case MemoryTest => "我是 Johnny，喜歡韓式風格"
  }

  /** The assistant message a chat turn stores. */
  function ReplyText(run: AgentRun): (reply: string)
    ensures run.Raised? ==> reply == APOLOGY
    ensures run.Completed? ==> reply == run.response
  {
    match run
    case Completed(_, response) => response
    case Raised(_) => APOLOGY
  }

  /**
   * The tool record a chat turn stores: parsed from the agent's stdout when
   * it printed something, empty when it printed nothing or raised.
   */
  function TurnRecord(run: AgentRun): (r: ToolRecord)
    ensures run.Raised? ==> r == map[]
    ensures run.Completed? && run.stdout == "" ==> r == map[]
    ensures run.Completed? && !Contains(run.stdout, TOOL_MARKER) ==> r == map[]
    ensures run.Completed? && run.stdout != "" ==> r == ParseLines(Split(run.stdout, '\n'))
    ensures NoErrors(r)
  {
    match run
    case Completed(stdout, _) =>
      if stdout == "" then map[]
      else
        MarkerGuardRedundant(stdout);
        ErrorsAlwaysEmpty(stdout);
        TraceRecord(stdout)
    case Raised(_) => map[]
  }

  // ------------------------------------------------ which record a message shows

  /** Number of assistant messages in `ms`. */
  function AssistantCount(ms: seq<Message>): nat {
    if ms == [] then 0
    else AssistantCount(ms[..|ms| - 1]) + (if ms[|ms| - 1].role == Assistant then 1 else 0)
  }

  /**
   * Number of chat-turn replies in `ms`: the assistant messages after the
   * first. The first message is the welcome (or a prompt); a reply always
   * follows its own prompt.
   */
  function ReplyCount(ms: seq<Message>): nat {
    if ms == [] then 0 else AssistantCount(ms[1..])
  }

  /** One stored tool record per chat turn. */
  predicate Paired(ms: seq<Message>, ts: seq<ToolRecord>) {
    |ts| == ReplyCount(ms)
  }

  lemma {:induction false} AssistantCountPrefix(ms: seq<Message>, n: nat)
    requires n <= |ms|
    ensures AssistantCount(ms[..n]) <= AssistantCount(ms)
    decreases |ms|
  {
    if n < |ms| {
      assert ms[..|ms| - 1][..n] == ms[..n];
      AssistantCountPrefix(ms[..|ms| - 1], n);
    } else {
      assert ms[..n] == ms;
    }
  }

  lemma {:induction false} ReplyCountPrefix(ms: seq<Message>, n: nat)
    requires n <= |ms|
    ensures ReplyCount(ms[..n]) <= ReplyCount(ms)
  {
    if n > 0 {
      assert ms[..n][1..] == ms[1..][..n - 1];
      AssistantCountPrefix(ms[1..], n - 1);
    }
  }

  /** The message at index `i >= 1` is a reply: it is counted in its prefix. */
  lemma ReplyCountAtReply(ms: seq<Message>, i: nat)
    requires 1 <= i < |ms| && ms[i].role == Assistant
    ensures ReplyCount(ms[..i + 1]) == ReplyCount(ms[..i]) + 1
  {
    assert ms[..i + 1][1..][..i - 1] == ms[..i][1..];
  }

  /**
   * The tool panel under message `i`, by the page's rule: an assistant message
   * shows `tool_calls[i]`, the record with the SAME INDEX, when it exists and
   * is non-empty.
   */
  function ToolPanelAsWritten(ms: seq<Message>, ts: seq<ToolRecord>, i: nat): (panel: Option<ToolRecord>)
    requires i < |ms|
    ensures panel.Some? <==> ms[i].role == Assistant && i < |ts| && ts[i] != map[]
    ensures panel.Some? ==> panel.value == ts[i]
  {
    if ms[i].role == Assistant && i < |ts| && ts[i] != map[] then Some(ts[i]) else None
  }

  /**
   * The tool panel under message `i` as intended: a reply shows the record of
   * its own turn, i.e. the record whose index is the number of replies before it.
   */
  function ToolPanel(ms: seq<Message>, ts: seq<ToolRecord>, i: nat): (panel: Option<ToolRecord>)
    requires i < |ms| && Paired(ms, ts)
    ensures panel.Some? ==> 1 <= i && ms[i].role == Assistant
    ensures panel.Some? ==> ReplyCount(ms[..i]) < |ts|
    ensures panel.Some? ==> panel.value == ts[ReplyCount(ms[..i])] && panel.value != map[]
    ensures 1 <= i && ms[i].role == Assistant ==>
              ReplyCount(ms[..i]) < |ts| && (panel.Some? <==> ts[ReplyCount(ms[..i])] != map[])
  {
    if 1 <= i && ms[i].role == Assistant then
      ReplyCountAtReply(ms, i);
      ReplyCountPrefix(ms, i + 1);
      var k := ReplyCount(ms[..i]);
      if ts[k] != map[] then Some(ts[k]) else None
    else
      None
  }

  /** What a completed chat turn appends keeps one record per reply. */
  lemma TurnKeepsPairing(ms: seq<Message>, ts: seq<ToolRecord>, prompt: string, reply: string, r: ToolRecord)
    requires Paired(ms, ts)
    ensures Paired(ms + [Message(User, prompt), Message(Assistant, reply)], ts + [r])
  {
    var ms' := ms + [Message(User, prompt), Message(Assistant, reply)];
    if ms != [] {
      assert ms'[1..][..|ms'[1..]| - 1] == ms[1..] + [Message(User, prompt)];
      assert (ms[1..] + [Message(User, prompt)])[..|ms| - 1] == ms[1..];
    } else {
      assert ms'[1..] == [Message(Assistant, reply)];
      assert [Message(Assistant, reply)][..0] == [];
      assert AssistantCount([Message(Assistant, reply)]) == 1;
    }
  }

  /** A chat turn's reply shows exactly the record that turn stored. */
  lemma {:induction false} TurnShowsItsOwnRecord(ms: seq<Message>, ts: seq<ToolRecord>, prompt: string, reply: string, r: ToolRecord)
    requires Paired(ms, ts)
    ensures Paired(ms + [Message(User, prompt), Message(Assistant, reply)], ts + [r])
    ensures ToolPanel(ms + [Message(User, prompt), Message(Assistant, reply)], ts + [r], |ms| + 1)
         == (if r == map[] then None else Some(r))
  {
    TurnKeepsPairing(ms, ts, prompt, reply, r);
    var ms' := ms + [Message(User, prompt), Message(Assistant, reply)];
    var ms1 := ms + [Message(User, prompt)];
    assert ms'[..|ms| + 1] == ms1;
    if ms != [] {
      assert ms1[1..][..|ms1[1..]| - 1] == ms[1..];
    } else {
      assert ms1[1..] == [];
    }
    assert ReplyCount(ms1) == |ts|;
  }

  /** A later turn never changes which record an earlier message shows. */
  lemma {:induction false} TurnKeepsEarlierPanels(ms: seq<Message>, ts: seq<ToolRecord>, prompt: string, reply: string, r: ToolRecord, i: nat)
    requires Paired(ms, ts) && i < |ms|
    ensures Paired(ms + [Message(User, prompt), Message(Assistant, reply)], ts + [r])
    ensures ToolPanel(ms + [Message(User, prompt), Message(Assistant, reply)], ts + [r], i) == ToolPanel(ms, ts, i)
  {
    TurnKeepsPairing(ms, ts, prompt, reply, r);
    var ms' := ms + [Message(User, prompt), Message(Assistant, reply)];
    assert ms'[..i] == ms[..i];
    assert ms'[i] == ms[i];
    if 1 <= i && ms[i].role == Assistant {
      ReplyCountAtReply(ms, i);
      ReplyCountPrefix(ms, i + 1);
    }
  }

  /**
   * The page's rule pairs by message index, so after the welcome and one chat
   * turn that used tools, the welcome message shows that turn's tools and the
   * turn's own reply shows none; the intended pairing shows them under the reply.
   */
  lemma WelcomeShowsFirstTurnTools(prompt: string, reply: string, r: ToolRecord)
    requires r != map[]
    ensures var ms := [WELCOME_MESSAGE, Message(User, prompt), Message(Assistant, reply)];
            && ToolPanelAsWritten(ms, [r], 0) == Some(r)
            && ToolPanelAsWritten(ms, [r], 2) == None
            && Paired(ms, [r])
            && ToolPanel(ms, [r], 0) == None
            && ToolPanel(ms, [r], 2) == Some(r)
  {
    TurnShowsItsOwnRecord([WELCOME_MESSAGE], [], prompt, reply, r);
    assert [WELCOME_MESSAGE] + [Message(User, prompt), Message(Assistant, reply)]
        == [WELCOME_MESSAGE, Message(User, prompt), Message(Assistant, reply)];
  }

  // ------------------------------------------------------------ the state

  class ChatSession {
    /** `st.session_state.messages` */
    var messages: seq<Message>
    /** `st.session_state.tool_calls` */
    var toolCalls: seq<ToolRecord>

    /** Every chat turn stored one record; nothing else stores one. */
    predicate Valid()
      reads this
    {
      Paired(messages, toolCalls)
    }

    /** The welcome message, when there are messages, comes first. */
    predicate WelcomeFirst()
      reads this
    {
      messages != [] ==> messages[0] == WELCOME_MESSAGE
    }

    /** First visit: both lists are created empty. */
    constructor ()
      ensures messages == [] && toolCalls == []
      ensures Valid() && WelcomeFirst()
    {
      messages := [];
      toolCalls := [];
    }

    /** At the top of every script run: an empty conversation gets the welcome message. */
    method ShowWelcome()
      requires Valid()
      modifies this
      ensures messages == if old(messages) == [] then [WELCOME_MESSAGE] else old(messages)
      ensures toolCalls == old(toolCalls)
      ensures Valid() && messages != []
      ensures old(WelcomeFirst()) ==> WelcomeFirst()
    {
      if |messages| == 0 {
        messages := messages + [WELCOME_MESSAGE];
      }
    }

    /** A quick-start button appends its canned prompt; no agent call, no tool record. */
    method PressQuickAction(a: QuickAction)
      requires Valid()
      modifies this
      ensures messages == old(messages) + [Message(User, QuickActionPrompt(a))]
      ensures toolCalls == old(toolCalls)
      ensures Valid()
      ensures old(messages) != [] && old(WelcomeFirst()) ==> WelcomeFirst()
    {
      messages := messages + [Message(User, QuickActionPrompt(a))];
      if old(messages) != [] {
        assert messages[1..][..|messages[1..]| - 1] == old(messages)[1..];
      }
    }

    /**
     * A submitted chat prompt: the prompt, then one tool record and one reply,
     * whether the agent call completes or raises. An empty submission is ignored.
     */
    method SubmitChat(prompt: string, run: AgentRun)
      requires Valid()
      modifies this
      ensures prompt == "" ==> messages == old(messages) && toolCalls == old(toolCalls)
      ensures prompt != "" ==>
        messages == old(messages) + [Message(User, prompt), Message(Assistant, ReplyText(run))]
      ensures prompt != "" ==> toolCalls == old(toolCalls) + [TurnRecord(run)]
      ensures Valid()
      ensures prompt != "" ==> ToolPanel(messages, toolCalls, |messages| - 1)
                               == if TurnRecord(run) == map[] then None else Some(TurnRecord(run))
      ensures old(messages) != [] && old(WelcomeFirst()) ==> WelcomeFirst()
    {
      if prompt == "" {
        return;
      }
      TurnShowsItsOwnRecord(messages, toolCalls, prompt, ReplyText(run), TurnRecord(run));
      messages := messages + [Message(User, prompt)];
      match run {
        case Completed(stdout, response) =>
          var record: ToolRecord := map[];
          if stdout != "" {
            record := ParseToolOutput(stdout);
          }
          toolCalls := toolCalls + [record];
          messages := messages + [Message(Assistant, response)];
        case Raised(_) =>
          messages := messages + [Message(Assistant, APOLOGY)];
          toolCalls := toolCalls + [map[]];
      }
    }

    /** The sidebar's clear button empties both lists together. */
    method Clear()
      modifies this
      ensures messages == [] && toolCalls == []
      ensures Valid() && WelcomeFirst()
    {
      messages := [];
      toolCalls := [];
    }

    /**
     * One run of the page script reacting to `event`: the welcome check, then
     * the event. A quick-start button and the clear button end with
     * `st.rerun()`, whose run performs the welcome check once more.
     */
    method ScriptRun(event: PageEvent)
      requires Valid() && WelcomeFirst()
      modifies this
      ensures Valid() && WelcomeFirst() && messages != []
      ensures var shown := if old(messages) == [] then [WELCOME_MESSAGE] else old(messages);
        match event
        case NoInput =>
          messages == shown && toolCalls == old(toolCalls)
        case QuickButton(a) =>
          messages == shown + [Message(User, QuickActionPrompt(a))] && toolCalls == old(toolCalls)
        case ChatSubmitted(prompt, run) =>
          if prompt == "" then messages == shown && toolCalls == old(toolCalls)
          else messages == shown + [Message(User, prompt), Message(Assistant, ReplyText(run))]
               && toolCalls == old(toolCalls) + [TurnRecord(run)]
        case ClearPressed =>
          messages == [WELCOME_MESSAGE] && toolCalls == []
    {
      ShowWelcome();
      match event {
        case NoInput =>
        case QuickButton(a) =>
          PressQuickAction(a);
          ShowWelcome();
        case ChatSubmitted(prompt, run) =>
          SubmitChat(prompt, run);
        case ClearPressed =>
          Clear();
          ShowWelcome();
      }
    }
  }
}
