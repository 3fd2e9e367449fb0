/** The conversation side of the assistant: the bounded conversation history, the
    prompt sent to the language model, the context summary, the time-of-day buckets and
    the keyword-driven replies given in demo mode (no API key configured). */
module Conversation {
  import opened Common

  datatype Role = User | Assistant

  /** `role.toUpperCase()`. */
  function RoleLabel(r: Role): string {
    match r
    case User => "USER"
    case Assistant => "ASSISTANT"
  }

  /** The context `addToHistory` attaches to a message. */
  datatype MessageContext = MessageContext(timeOfDay: string, taskContext: Option<string>)

  datatype Message = Message(role: Role, content: string, timestamp: int, context: MessageContext)

  datatype CommunicationStyle = Concise | Detailed | Casual | Formal

  function StyleName(s: CommunicationStyle): string {
    match s
    case Concise => "concise"
    case Detailed => "detailed"
    case Casual => "casual"
    case Formal => "formal"
  }

  datatype UserProfile = UserProfile(preferences: seq<string>, communicationStyle: CommunicationStyle, expertise: seq<string>)

  /** The fields of the `Partial<ResponseContext>` the prompt reads. */
  datatype ResponseContext = ResponseContext(userProfile: Option<UserProfile>, currentTask: Option<string>, timeContext: Option<string>)

  const MaxHistoryLength: nat := 10
  /** How many recent messages the prompt and the summary show, and how long a topic is. */
  const PromptWindow: nat := 5
  const SummaryWindow: nat := 3
  const TopicLength: nat := 50

  /** The lines of the read-only system prompt. */
  const SystemPromptLines: seq<string> := [
    "You are AuraMind, an advanced AI voice assistant with emotional intelligence and contextual awareness. Your responses should be:",
    "",
    "CORE PERSONALITY:",
    "- Proactive and anticipatory",
    "- Empathetic and emotionally intelligent",
    "- Adaptive to user's communication style and mood",
    "- Focused on productivity and well-being",
    "",
    "RESPONSE GUIDELINES:",
    "- Analyze conversation context and user patterns",
    "- Provide personalized suggestions based on history",
    "- Adapt tone to time of day and user's apparent mood",
    "- Offer proactive assistance when appropriate",
    "- Keep responses conversational but purposeful",
    "",
    "CAPABILITIES:",
    "- Task and schedule management",
    "- Intelligent reminders and follow-ups",
    "- Communication prioritization",
    "- Learning and skill development",
    "- Well-being and productivity optimization",
    "- Smart home integration assistance",
    "",
    "CONTEXT AWARENESS:",
    "- Remember previous conversations and preferences",
    "- Understand implicit needs from conversation flow",
    "- Provide continuity across sessions",
    "- Learn from user feedback and interactions"
  ]

  const SystemPrompt: string := Join(SystemPromptLines, "\n")

  const InputLabel: string := "\n\nCURRENT USER INPUT: "
  const HistoryHeader: string := "\n\nCONVERSATION HISTORY:\n"
  const ContextHeader: string := "\n\nCURRENT CONTEXT:\n"
  const SummaryLabel: string := "Recent topics: "
  const NoContextSummary: string := "No previous conversation context."

  // ------------------------------------------------------------ time of day

  /** `getTimeOfDay` for the local hour `hour`. */
  function TimeOfDay(hour: int): (r: string)
    ensures r == "late night" <==> hour < 6
    ensures r == "morning" <==> 6 <= hour < 12
    ensures r == "afternoon" <==> 12 <= hour < 17
    ensures r == "evening" <==> 17 <= hour < 21
    ensures r == "night" <==> 21 <= hour
  {
    if hour < 6 then "late night"
    else if hour < 12 then "morning"
    else if hour < 17 then "afternoon"
    else if hour < 21 then "evening"
    else "night"
  }

  /** Later hours never fall in an earlier bucket. */
  lemma TimeOfDayMonotone(h1: int, h2: int)
    requires h1 <= h2
    ensures BucketIndex(TimeOfDay(h1)) <= BucketIndex(TimeOfDay(h2))
  {
  }

  function BucketIndex(name: string): int {
    if name == "late night" then 0
    else if name == "morning" then 1
    else if name == "afternoon" then 2
    else if name == "evening" then 3
    else 4
  }

  // ----------------------------------------------------------------- prompt

  /** One line of the history section. */
  function HistoryLine(m: Message): string {
    RoleLabel(m.role) + ": " + m.content + "\n"
  }

  /** The history lines of `msgs`, in order. */
  function HistoryLines(msgs: seq<Message>): string
    decreases |msgs|
  {
    if msgs == [] then "" else HistoryLines(msgs[..|msgs| - 1]) + HistoryLine(msgs[|msgs| - 1])
  }

  /** The history section: absent for an empty history, otherwise the header and the
      last five messages. */
  function HistorySection(history: seq<Message>): string {
    if history == [] then "" else HistoryHeader + HistoryLines(KeepLast(history, PromptWindow))
  }

  /** The context section: absent without a context, otherwise the header and a line for
      each context item that is set. */
  function ContextSection(context: Option<ResponseContext>): string {
    if context.None? then ""
    else
      var c := context.value;
      ContextHeader
      + (if Truthy(c.timeContext) then "Time: " + c.timeContext.value + "\n" else "")
      + (if Truthy(c.currentTask) then "Current Task Context: " + c.currentTask.value + "\n" else "")
      + (if c.userProfile.None? then ""
         else "User Communication Style: " + StyleName(c.userProfile.value.communicationStyle) + "\n"
              + (if |c.userProfile.value.preferences| > 0
                 then "User Preferences: " + Join(c.userProfile.value.preferences, ", ") + "\n" else ""))
  }

  /** Four parts, one after another. */
  function Compose(a: string, b: string, c: string, d: string): string {
    a + b + c + d
  }

  predicate EndsWith(s: string, suffix: string) {
    |suffix| <= |s| && s[|s| - |suffix|..] == suffix
  }

  lemma ComposeEnds(a: string, b: string, c: string, d: string)
    ensures StartsWith(Compose(a, b, c, d), a)
    ensures EndsWith(Compose(a, b, c, d), d)
  {
    assert Compose(a, b, c, d) == a + (b + c + d);
    StartsWithConcat(a, b + c + d);
  }

  /** The prompt `buildContextualPrompt` assembles: the system prompt `system`, the
      history section, the context section and the labelled user input. */
  function ContextualPrompt(system: string, history: seq<Message>, prompt: string, context: Option<ResponseContext>): string {
    Compose(system, HistorySection(history), ContextSection(context), InputLabel + prompt)
  }

  /** The prompt begins with the system prompt and ends with the user's input; it shows
      the last five messages (all of them when there are fewer), and a history section
      only when there is history. */
  lemma PromptShape(system: string, history: seq<Message>, prompt: string, context: Option<ResponseContext>)
    ensures StartsWith(ContextualPrompt(system, history, prompt, context), system)
    ensures EndsWith(ContextualPrompt(system, history, prompt, context), InputLabel + prompt)
    ensures HistorySection(history) == "" <==> history == []
    ensures |KeepLast(history, PromptWindow)| == if |history| <= PromptWindow then |history| else PromptWindow
    ensures KeepLast(history, PromptWindow) == history[|history| - |KeepLast(history, PromptWindow)|..]
  {
    ComposeEnds(system, HistorySection(history), ContextSection(context), InputLabel + prompt);
    KeepLastProperties(history, PromptWindow);
    if history != [] {
      assert HistorySection(history) == HistoryHeader + HistoryLines(KeepLast(history, PromptWindow));
    }
  }

  /** Each message's line occurs among the history lines. */
  lemma {:induction false} HistoryLinesContain(msgs: seq<Message>, k: nat)
    requires k < |msgs|
    ensures Contains(HistoryLines(msgs), HistoryLine(msgs[k]))
    decreases |msgs|
  {
    var init := msgs[..|msgs| - 1];
    var line := HistoryLine(msgs[|msgs| - 1]);
    if k == |msgs| - 1 {
      assert StartsWith(line, line);
      ContainsInConcat(HistoryLines(init), line, line);
    } else {
      HistoryLinesContain(init, k);
      assert init[k] == msgs[k];
      ContainsInConcat(HistoryLines(init), line, HistoryLine(msgs[k]));
    }
  }

  /** Each of the last five messages appears in the prompt as its own history line. */
  lemma PromptShowsRecent(system: string, history: seq<Message>, prompt: string, context: Option<ResponseContext>, i: nat)
    requires i < |history| && |history| <= i + PromptWindow
    ensures Contains(ContextualPrompt(system, history, prompt, context), HistoryLine(history[i]))
  {
    KeepLastIndex(history, PromptWindow, i);
    LineShown(system, history, prompt, context, i - (|history| - |KeepLast(history, PromptWindow)|));
  }

  /** The line of each message the history section covers occurs in the prompt. */
  lemma LineShown(system: string, history: seq<Message>, prompt: string, context: Option<ResponseContext>, k: nat)
    requires k < |KeepLast(history, PromptWindow)|
    ensures Contains(ContextualPrompt(system, history, prompt, context), HistoryLine(KeepLast(history, PromptWindow)[k]))
  {
    var recent := KeepLast(history, PromptWindow);
    var line := HistoryLine(recent[k]);
    var section := HistorySection(history);
    HistoryLinesContain(recent, k);
    ContainsInConcat(HistoryHeader, HistoryLines(recent), line);
    ContainsInConcat(system, section, line);
    ContainsInConcat(system + section, ContextSection(context), line);
    ContainsInConcat(system + section + ContextSection(context), InputLabel + prompt, line);
  }

  /** Only the last five messages matter: older history leaves the prompt unchanged. */
  lemma PromptWindowOnly(system: string, older: seq<Message>, recent: seq<Message>, prompt: string, context: Option<ResponseContext>)
    requires |recent| >= PromptWindow
    ensures ContextualPrompt(system, older + recent, prompt, context) == ContextualPrompt(system, recent, prompt, context)
  {
    KeepLastOfLonger(older, recent, PromptWindow);
    assert HistorySection(older + recent) == HistorySection(recent);
  }

  // ---------------------------------------------------------------- summary

  /** The first fifty characters of each message. */
  function Topics(msgs: seq<Message>): (r: seq<string>)
    ensures |r| == |msgs|
    ensures forall i :: 0 <= i < |r| ==> |r[i]| <= TopicLength && StartsWith(msgs[i].content, r[i])
  {
    seq(|msgs|, i requires 0 <= i < |msgs| => Take(msgs[i].content, TopicLength))
  }

  /** `getContextSummary`. */
  function ContextSummary(history: seq<Message>): string {
    if history == [] then NoContextSummary
    else SummaryLabel + Join(Topics(KeepLast(history, SummaryWindow)), ", ")
  }

  /** The summary is the fixed text for an empty history; otherwise it lists a topic for
      each of the last three messages, each a prefix of at most fifty characters. */
  lemma SummaryShape(history: seq<Message>)
    ensures history == [] ==> ContextSummary(history) == "No previous conversation context."
    ensures history != [] ==> StartsWith(ContextSummary(history), "Recent topics: ")
    ensures var recent := KeepLast(history, SummaryWindow);
            && |recent| == (if |history| <= SummaryWindow then |history| else SummaryWindow)
            && recent == history[|history| - |recent|..]
            && |Topics(recent)| == |recent|
            && forall i :: 0 <= i < |recent| ==>
                 |Topics(recent)[i]| <= TopicLength && StartsWith(recent[i].content, Topics(recent)[i])
  {
    KeepLastProperties(history, SummaryWindow);
    if history != [] {
      StartsWithConcat(SummaryLabel, Join(Topics(KeepLast(history, SummaryWindow)), ", "));
    }
  }

  /** The topic of each of the last three messages appears in the summary. */
  lemma SummaryShowsRecent(history: seq<Message>, i: nat)
    requires i < |history| && |history| <= i + SummaryWindow
    ensures Contains(ContextSummary(history), Take(history[i].content, TopicLength))
  {
    KeepLastIndex(history, SummaryWindow, i);
    TopicListed(history, i - (|history| - |KeepLast(history, SummaryWindow)|));
  }

  /** The topic of each message the summary covers occurs in it. */
  lemma TopicListed(history: seq<Message>, k: nat)
    requires k < |KeepLast(history, SummaryWindow)|
    ensures Contains(ContextSummary(history), Topics(KeepLast(history, SummaryWindow))[k])
  {
    var topics := Topics(KeepLast(history, SummaryWindow));
    JoinContains(topics, ", ", k);
    ContainsInConcat(SummaryLabel, Join(topics, ", "), topics[k]);
  }

  /** Only the last three messages matter: older history leaves the summary unchanged. */
  lemma SummaryWindowOnly(older: seq<Message>, recent: seq<Message>)
    requires |recent| >= SummaryWindow
    ensures ContextSummary(older + recent) == ContextSummary(recent)
  {
    KeepLastOfLonger(older, recent, SummaryWindow);
  }

  // ------------------------------------------------------------ mock replies

  /** The reply kinds of `getMockResponse`, in the order its checks are tried. */
  datatype MockKind = FollowUp | ScheduleHelp | ReminderHelp | Greeting | FeatureList | Fallback

  /** The content of the last user message, if any. */
  function LastUserContent(history: seq<Message>): (r: Option<string>)
    ensures r.Some? ==> exists i :: 0 <= i < |history| && history[i].role == User && history[i].content == r.value
                                    && forall j :: i < j < |history| ==> history[j].role != User
    ensures r.None? <==> forall i :: 0 <= i < |history| ==> history[i].role != User
    decreases |history|
  {
    if history == [] then None
    else if history[|history| - 1].role == User then Some(history[|history| - 1].content)
    else
      var r := LastUserContent(history[..|history| - 1]);
      assert forall i :: 0 <= i < |history| - 1 ==> history[..|history| - 1][i] == history[i];
      r
  }

  /** The history-aware check: the last user message spoke of a schedule and the prompt of
      a meeting. */
  predicate FollowsUpOnSchedule(history: seq<Message>, lowered: string) {
    && |history| > 0
    && LastUserContent(history).Some?
    && Contains(Lower(LastUserContent(history).value), "schedule")
    && Contains(lowered, "meeting")
  }

  /** Which reply `getMockResponse` gives: the first check that passes. */
  function MockKindOf(prompt: string, history: seq<Message>): MockKind {
    var p := Lower(prompt);
    if FollowsUpOnSchedule(history, p) then FollowUp
    else if Contains(p, "schedule") || Contains(p, "calendar") then ScheduleHelp
    else if Contains(p, "reminder") then ReminderHelp
    else if Contains(p, "how are you") || Contains(p, "hello") then Greeting
    else if Contains(p, "feature") then FeatureList
    else Fallback
  }

  /** The keyword precedence: a later check decides only when every earlier one failed. */
  lemma MockPrecedence(prompt: string, history: seq<Message>)
    ensures var p := Lower(prompt);
            var k := MockKindOf(prompt, history);
            && (k == FollowUp <==> FollowsUpOnSchedule(history, p))
            && (k == ScheduleHelp <==> !FollowsUpOnSchedule(history, p) && (Contains(p, "schedule") || Contains(p, "calendar")))
            && (k == ReminderHelp <==> !FollowsUpOnSchedule(history, p) && !Contains(p, "schedule") && !Contains(p, "calendar")
                                       && Contains(p, "reminder"))
            && (k == Greeting <==> !FollowsUpOnSchedule(history, p) && !Contains(p, "schedule") && !Contains(p, "calendar")
                                   && !Contains(p, "reminder") && (Contains(p, "how are you") || Contains(p, "hello")))
            && (k == FeatureList <==> !FollowsUpOnSchedule(history, p) && !Contains(p, "schedule") && !Contains(p, "calendar")
                                      && !Contains(p, "reminder") && !Contains(p, "how are you") && !Contains(p, "hello")
                                      && Contains(p, "feature"))
  {
  }

  /** With no history the follow-up reply is never chosen. */
  lemma NoHistoryNoFollowUp(prompt: string)
    ensures MockKindOf(prompt, []) != FollowUp
  {
  }

  /** The reply text for each kind. */
  function MockReply(k: MockKind, prompt: string, timeOfDay: string): string {
    match k
    case FollowUp => FollowUpReply
    case ScheduleHelp => ScheduleReply(timeOfDay)
    case ReminderHelp => ReminderReply
    case Greeting => GreetingHead + timeOfDay + GreetingTail
    case FeatureList => FeatureReply
    case Fallback => FallbackReply(prompt, timeOfDay)
  }

  const FollowUpReply: string :=
    "Based on our earlier discussion about your schedule, I'd suggest scheduling that meeting for a time when you're typically most productive. In demo mode, I'd normally check your calendar patterns."
  const MorningOpening: string := "Good morning! Let me help you plan your day."
  const EveningOpening: string := "Let's review your schedule for tomorrow."
  const PlainOpening: string := "I can help you with your schedule."
  const ScheduleClosing: string :=
    " In demo mode, I'm showing you how I'd respond to calendar-related queries with full context awareness."
  const ReminderReply: string :=
    "I'll set that reminder for you. In production, I'd use our conversation context to make this reminder more intelligent and personalized."
  const GreetingHead: string := "Hello! I'm doing well and ready to help you be more productive this "
  const GreetingTail: string := ". What can I assist you with?"
  const FeatureReply: string :=
    "I can help with intelligent task management, contextual scheduling, smart reminders, and adaptive communication. I learn from our conversations to provide better assistance over time."
  const FallbackOpening: string := "I understand your request about \""
  const FallbackMiddle: string := ". In demo mode, I'm showing contextual awareness - I know it's "
  const FallbackClosing: string :=
    " and I'm building our conversation history. In production, I'd provide much more personalized and intelligent responses."

  /** The schedule reply opens according to the time of day. */
  function ScheduleReply(timeOfDay: string): string {
    var opening := if timeOfDay == "morning" then MorningOpening
                   else if timeOfDay == "evening" then EveningOpening
                   else PlainOpening;
    opening + ScheduleClosing
  }

  /** The fallback reply: its head quotes the prompt, its tail names the time of day. */
  function FallbackReply(prompt: string, timeOfDay: string): string {
    FallbackHead(prompt) + FallbackTail(timeOfDay)
  }

  function FallbackHead(prompt: string): string {
    FallbackOpening + prompt + "\""
  }

  function FallbackTail(timeOfDay: string): string {
    FallbackMiddle + timeOfDay + FallbackClosing
  }

  /** `getMockResponse`, at local hour `hour`. */
  function MockResponse(prompt: string, history: seq<Message>, hour: int): string {
    MockReply(MockKindOf(prompt, history), prompt, TimeOfDay(hour))
  }

  /** The fallback reply begins with its head, which quotes the prompt as given, not
      lower-cased. */
  lemma FallbackQuotesPrompt(prompt: string, timeOfDay: string)
    ensures StartsWith(FallbackReply(prompt, timeOfDay), FallbackHead(prompt))
  {
    StartsWithConcat(FallbackHead(prompt), FallbackTail(timeOfDay));
  }

  /** The head of the fallback reply is the fixed opening, then the prompt in quotes. */
  lemma FallbackHeadQuotes(prompt: string)
    ensures StartsWith(FallbackHead(prompt), FallbackOpening)
    ensures EndsWith(FallbackHead(prompt), prompt + "\"")
  {
    Surround(FallbackOpening, prompt, "\"");
  }

  lemma Surround(a: string, b: string, c: string)
    ensures StartsWith(a + b + c, a)
    ensures EndsWith(a + b + c, b + c)
  {
    assert a + b + c == a + (b + c);
    StartsWithConcat(a, b + c);
    assert (a + (b + c))[|a|..] == b + c;
  }

  /** The three replies `getErrorResponse` picks from. */
  const ErrorResponses: seq<string> := [
    "I'm having trouble processing that right now. Could you try rephrasing your request?",
    "Sorry, I encountered a technical issue. Let me try to help you in a different way.",
    "I'm experiencing some difficulty at the moment. Is there something specific I can help you with?"
  ]

  /** What the language model call does: it answers with a text, or fails. */
  datatype ModelOutcome = Answered(text: string) | Failed

  /** `context?.currentTask`. */
  function TaskContext(context: Option<ResponseContext>): Option<string> {
    if context.Some? then context.value.currentTask else None
  }

  /** The history after `m` is appended and only the ten most recent messages are kept. */
  function Record(history: seq<Message>, m: Message): (r: seq<Message>)
    ensures |r| == if |history| < MaxHistoryLength then |history| + 1 else MaxHistoryLength
    ensures r[|r| - 1] == m
    ensures r[..|r| - 1] == history[|history| + 1 - |r|..]
  {
    KeepLastProperties(history + [m], MaxHistoryLength);
    var r := KeepLast(history + [m], MaxHistoryLength);
    assert r[..|r| - 1] == history[|history| + 1 - |r|..];
    r
  }

  class GeminiAIManager {
    var history: seq<Message>
    /** Whether an API key is configured; without one the manager runs in demo mode. */
    const hasApiKey: bool
    /** The read-only system prompt every contextual prompt begins with. */
    const systemPrompt: string

    /** The history never holds more than ten messages, and stays empty in demo mode,
        where nothing is ever added to it. */
    ghost predicate Valid()
      reads this
    {
      |history| <= MaxHistoryLength && (!hasApiKey ==> history == [])
    }

    constructor(hasApiKey: bool)
      ensures Valid()
      ensures this.hasApiKey == hasApiKey && history == []
      ensures systemPrompt == SystemPrompt
    {
      this.hasApiKey := hasApiKey;
      systemPrompt := SystemPrompt;
      history := [];
    }

    /** `addToHistory`, at time `now` and local hour `hour`: append the message and keep
        the ten most recent. Only the model-backed path calls it. */
    method AddToHistory(role: Role, content: string, taskContext: Option<string>, now: int, hour: int)
      requires Valid() && hasApiKey
      modifies this
      ensures Valid()
      ensures history == Record(old(history), Message(role, content, now, MessageContext(TimeOfDay(hour), taskContext)))
    {
      var message := Message(role, content, now, MessageContext(TimeOfDay(hour), taskContext));
      history := history + [message];
      if |history| > MaxHistoryLength {
        history := history[|history| - MaxHistoryLength..];
      }
    }

    /** `buildContextualPrompt`: the system prompt, then the history section built a line
        per recent message, then the context section and the labelled input. */
    method BuildContextualPrompt(prompt: string, context: Option<ResponseContext>) returns (p: string)
      ensures p == ContextualPrompt(systemPrompt, history, prompt, context)
    {
      var section := "";
      if |history| > 0 {
        var recent := KeepLast(history, PromptWindow);
        var lines := "";
        var i := 0;
        while i < |recent|
          invariant 0 <= i <= |recent|
          invariant lines == HistoryLines(recent[..i])
        {
          assert recent[..i + 1][..i] == recent[..i];
          lines := lines + HistoryLine(recent[i]);
          i := i + 1;
        }
        assert recent[..i] == recent;
        section := HistoryHeader + lines;
      }
      p := Compose(systemPrompt, section, ContextSection(context), InputLabel + prompt);
    }

    /** `generateResponse`, called at time `now` and local hour `hour`. In demo mode the
        reply is the mock response and the history is left alone. Otherwise the user message
        is recorded and the prompt built from the new history is sent (`sent`); the model's
        answer, arriving at time `answeredAt` and local hour `answeredHour`, is then recorded
        and returned, and when the call fails one of the error replies (`errorPick`, the
        random index) is returned and only the user message stays recorded. */
    method GenerateResponse(prompt: string, context: Option<ResponseContext>, now: int, hour: int,
                            outcome: ModelOutcome, answeredAt: int, answeredHour: int, errorPick: nat)
      returns (response: string, sent: Option<string>)
      requires Valid()
      requires errorPick < |ErrorResponses|
      modifies this
      ensures Valid()
      ensures !hasApiKey ==> response == MockResponse(prompt, old(history), hour) && sent.None? && history == old(history)
      ensures !hasApiKey ==> MockKindOf(prompt, old(history)) != FollowUp
      ensures hasApiKey ==>
        var asked := Record(old(history), Message(User, prompt, now, MessageContext(TimeOfDay(hour), TaskContext(context))));
        && sent == Some(ContextualPrompt(systemPrompt, asked, prompt, context))
        && (outcome.Failed? ==> response == ErrorResponses[errorPick] && history == asked)
        && (outcome.Answered? ==>
              response == outcome.text
              && history == Record(asked, Message(Assistant, outcome.text, answeredAt, MessageContext(TimeOfDay(answeredHour), None))))
    {
      if !hasApiKey {
        NoHistoryNoFollowUp(prompt);
        return MockResponse(prompt, history, hour), None;
      }
      AddToHistory(User, prompt, TaskContext(context), now, hour);
      var contextual := BuildContextualPrompt(prompt, context);
      sent := Some(contextual);
      if outcome.Failed? {
        return ErrorResponses[errorPick], sent;
      }
      AddToHistory(Assistant, outcome.text, None, answeredAt, answeredHour);
      response := outcome.text;
    }

    /** `getConversationHistory`: a copy of the history. */
    function GetConversationHistory(): (r: seq<Message>)
      requires Valid()
      reads this
      ensures r == history && |r| <= MaxHistoryLength
    {
      history
    }

    /** `clearHistory`. */
    method ClearHistory()
      requires Valid()
      modifies this
      ensures Valid()
      ensures history == []
    {
      history := [];
    }

    /** `getContextSummary`. */
    function GetContextSummary(): (r: string)
      reads this
      ensures history == [] ==> r == "No previous conversation context."
      ensures history != [] ==> StartsWith(r, "Recent topics: ")
    {
      SummaryShape(history);
      ContextSummary(history)
    }
  }

  /** In demo mode the history stays empty, so the reply never follows up on an earlier
      message. */
  lemma DemoModeNeverFollowsUp(m: GeminiAIManager, prompt: string)
    requires m.Valid() && !m.hasApiKey
    ensures MockKindOf(prompt, m.history) != FollowUp
  {
  }
}
