/**
 * The chat page of main.jsx: the emoji faces shown for the bot's state, and the App
 * component's message list, input box and bot-state bookkeeping. The page's delays
 * (1000 ms to "thinking", 1500 ms to the reply, 2000 ms back to idle, 1000 ms of
 * speech cooldown) are pending timers that fire by index, in any order the caller
 * picks. The reply's text and sentiment come from a random choice in the source and
 * are a parameter here.
 */
module Chat {
  import opened Text
  import opened BotStates

  datatype Face = Ear | Ponder | Talk | Smile | Frown | Neutral

  /** The emoji shown for a face. */
  function Glyph(f: Face): string
  {
    match f
    case Ear => "\U{1F442}"
    case Ponder => "\U{1F914}"
    case Talk => "\U{1F5E3}\U{FE0F}"
    case Smile => "\U{1F60A}"
    case Frown => "\U{1F614}"
    case Neutral => "\U{1F610}"
  }

  /** No two faces show the same emoji, so what is on screen determines the face. */
  lemma GlyphsDistinct(f: Face, g: Face)
    ensures Glyph(f) == Glyph(g) <==> f == g
  {
  }

  /**
   * `SimpleAvatar.getExpression`: an active state has its own face whatever the
   * sentiment; when idle, only a sentiment strictly above 0.3 smiles and only one
   * strictly below -0.3 frowns.
   */
  function Expression(state: BotState, sentiment: real): (f: Face)
    ensures f == Ear <==> state == Listening
    ensures f == Ponder <==> state == Thinking
    ensures f == Talk <==> state == Speaking
    ensures f == Smile <==> state == Idle && sentiment > 0.3
    ensures f == Frown <==> state == Idle && sentiment < -0.3
    ensures f == Neutral <==> state == Idle && -0.3 <= sentiment <= 0.3
  {
    match state
    case Listening => Ear
    case Thinking => Ponder
    case Speaking => Talk
    case Idle =>
      if sentiment > 0.3 then Smile
      else if sentiment < -0.3 then Frown
      else Neutral
  }

  /** The header badge: the activity faces for the active states and a smile otherwise. */
  function HeaderFace(state: BotState): (f: Face)
    ensures f == Smile <==> state == Idle
    ensures state != Idle ==> f == Expression(state, 0.0)
  {
    match state
    case Thinking => Ponder
    case Listening => Ear
    case Speaking => Talk
    case Idle => Smile
  }

  /** The header badge agrees with the avatar's face except when idle and not cheerful. */
  lemma HeaderMatchesAvatar(state: BotState, sentiment: real)
    ensures HeaderFace(state) == Expression(state, sentiment) <==> state != Idle || sentiment > 0.3
  {
  }

  datatype Message = Message(text: string, isUser: bool)

  /** A reply as the response generator produces it. */
  datatype Reply = Reply(text: string, sentiment: real)

  /** A pending `setTimeout` of the page. */
  datatype ChatTimer = ToThinking | DeliverReply | BackToIdle | SpeechCooldown

  const Welcome := Message("Hi there! I'm VentBot. Feel free to share what's on your mind. You can type or click the microphone icon to speak.", false)

  /**
   * The message list after the user sends `text`: a blank message leaves it as it is;
   * any other message is appended, unchanged and marked as the user's.
   */
  function WithUserMessage(msgs: seq<Message>, text: string): (r: seq<Message>)
    ensures msgs <= r && |r| <= |msgs| + 1
    ensures |r| == |msgs| <==> Blank(text)
    ensures |r| > |msgs| ==> r[|msgs|] == Message(text, true)
  {
    if Trim(text) == [] then msgs else msgs + [Message(text, true)]
  }

  /** Every field of the page's state, as one value. */
  datatype PageState = PageState(
    messages: seq<Message>,
    input: string,
    botState: BotState,
    isLoading: bool,
    sentiment: real,
    voiceEnabled: bool,
    currentBotResponse: string,
    isProcessingSpeech: bool,
    pending: seq<ChatTimer>)

  /**
   * What `processMessage` does before its timers fire: a blank message leaves the page
   * as it is; any other is appended as the user's, the bot listens, the page loads, and
   * the timers to "thinking" and to the reply are scheduled. Nothing else changes.
   */
  function Processed(ps: PageState, text: string): (r: PageState)
    ensures r.messages == WithUserMessage(ps.messages, text)
    ensures Blank(text) ==> r == ps
    ensures !Blank(text) ==>
              r.botState == Listening && r.isLoading
              && r.pending == ps.pending + [ToThinking, DeliverReply]
    ensures r == ps.(messages := r.messages, botState := r.botState, isLoading := r.isLoading, pending := r.pending)
  {
    if Trim(text) == [] then ps
    else ps.(messages := WithUserMessage(ps.messages, text), botState := Listening,
             isLoading := true, pending := ps.pending + [ToThinking, DeliverReply])
  }

  /**
   * The pending timer at index `i` fires and leaves the list. The reply timer appends
   * `reply` as the bot's message after every earlier one, hands its text to speech
   * output, takes its sentiment, ends loading and schedules the return to idle; the
   * other timers set "thinking" or idle, or lower the speech flag. `reply` is unused by
   * them, and nothing else changes.
   */
  function Fired(ps: PageState, i: nat, reply: Reply): (r: PageState)
    requires i < |ps.pending|
    ensures ps.messages <= r.messages
    ensures ps.pending[i] != DeliverReply ==>
              r.messages == ps.messages && r.pending == ps.pending[..i] + ps.pending[i + 1..]
    ensures ps.pending[i] == ToThinking ==> r == ps.(botState := Thinking, pending := r.pending)
    ensures ps.pending[i] == BackToIdle ==> r == ps.(botState := Idle, pending := r.pending)
    ensures ps.pending[i] == SpeechCooldown ==> r == ps.(isProcessingSpeech := false, pending := r.pending)
    ensures ps.pending[i] == DeliverReply ==>
              r == ps.(botState := Speaking, isLoading := false,
                       messages := ps.messages + [Message(reply.text, false)],
                       currentBotResponse := reply.text, sentiment := reply.sentiment,
                       pending := ps.pending[..i] + ps.pending[i + 1..] + [BackToIdle])
  {
    var rest := ps.pending[..i] + ps.pending[i + 1..];
    match ps.pending[i]
    case ToThinking => ps.(botState := Thinking, pending := rest)
    case DeliverReply =>
      ps.(botState := Speaking, messages := ps.messages + [Message(reply.text, false)],
          currentBotResponse := reply.text, sentiment := reply.sentiment,
          pending := rest + [BackToIdle], isLoading := false)
    case BackToIdle => ps.(botState := Idle, pending := rest)
    case SpeechCooldown => ps.(isProcessingSpeech := false, pending := rest)
  }

  class ChatApp {
    var messages: seq<Message>
    var input: string
    var botState: BotState
    var isLoading: bool
    var sentiment: real
    var voiceEnabled: bool
    var currentBotResponse: string
    var isProcessingSpeech: bool
    var pending: seq<ChatTimer>

    /** The page's state as a value. */
    function State(): PageState
      reads this
    {
      PageState(messages, input, botState, isLoading, sentiment, voiceEnabled,
                currentBotResponse, isProcessingSpeech, pending)
    }

    /** The page's first render, after the mount effect has put the welcome message in place. */
    constructor ()
      ensures State() == PageState([Welcome], [], Idle, false, 0.0, false, [], false, [])
    {
      messages := [Welcome];
      input := [];
      botState := Idle;
      isLoading := false;
      sentiment := 0.0;
      voiceEnabled := false;
      currentBotResponse := [];
      isProcessingSpeech := false;
      pending := [];
    }

    /** `processMessage`, up to the timers it schedules. */
    method ProcessMessage(text: string)
      modifies this
      ensures State() == Processed(old(State()), text)
    {
      if Trim(text) == [] {
        return;
      }
      messages := WithUserMessage(messages, text);
      botState := Listening;
      pending := pending + [ToThinking];
      isLoading := true;
      pending := pending + [DeliverReply];
      assert pending == old(pending) + [ToThinking, DeliverReply];
    }

    /** The text box changes. */
    method SetInput(text: string)
      modifies this
      ensures State() == old(State()).(input := text)
    {
      input := text;
    }

    /** `handleSubmit`: the current input is processed, then the box is cleared. */
    method HandleSubmit()
      modifies this
      ensures State() == Processed(old(State()), old(input)).(input := [])
    {
      ProcessMessage(input);
      input := [];
    }

    /**
     * `handleSpeechInput`: a transcript arriving while an earlier one is being processed
     * is dropped. Otherwise the flag is raised, the transcript is processed, and the
     * cooldown that lowers the flag is scheduled.
     */
    method HandleSpeechInput(transcript: string)
      modifies this
      ensures old(isProcessingSpeech) ==> State() == old(State())
      ensures !old(isProcessingSpeech) ==>
                var r := Processed(old(State()).(isProcessingSpeech := true), transcript);
                State() == r.(pending := r.pending + [SpeechCooldown])
    {
      if isProcessingSpeech {
        return;
      }
      isProcessingSpeech := true;
      ProcessMessage(transcript);
      pending := pending + [SpeechCooldown];
    }

    /** The pending timer at index `i` fires; `reply` is what the response generator gives. */
    method FireTimer(i: nat, reply: Reply)
      requires i < |pending|
      modifies this
      ensures State() == Fired(old(State()), i, reply)
    {
      var timer := pending[i];
      pending := pending[..i] + pending[i + 1..];
      match timer
      case ToThinking =>
        botState := Thinking;
      case DeliverReply =>
        botState := Speaking;
        messages := messages + [Message(reply.text, false)];
        currentBotResponse := reply.text;
        sentiment := reply.sentiment;
        pending := pending + [BackToIdle];
        isLoading := false;
      case BackToIdle =>
        botState := Idle;
      case SpeechCooldown =>
        isProcessingSpeech := false;
    }

    /** The "Voice Mode" switch. */
    method ToggleVoice()
      modifies this
      ensures State() == old(State()).(voiceEnabled := !old(voiceEnabled))
    {
      voiceEnabled := !voiceEnabled;
    }

    /** Callback `onListeningStart` from the voice component. */
    method OnListeningStart()
      modifies this
      ensures State() == old(State()).(botState := Listening)
    {
      botState := Listening;
    }

    /** Callback `onListeningEnd` from the voice component. */
    method OnListeningEnd()
      modifies this
      ensures State() == old(State()).(botState := Idle)
    {
      botState := Idle;
    }

    /** Callback `onSpeakingStart` from the voice component. */
    method OnSpeakingStart()
      modifies this
      ensures State() == old(State()).(botState := Speaking)
    {
      botState := Speaking;
    }

    /** Callback `onSpeakingEnd`: the bot is idle and the response to speak is cleared. */
    method OnSpeakingEnd()
      modifies this
      ensures State() == old(State()).(botState := Idle, currentBotResponse := [])
    {
      botState := Idle;
      currentBotResponse := [];
    }
  }

  /** A typed message, then its reply: the user's message comes first, the bot's after it. */
  method ConversationScenario()
  {
    var app := new ChatApp();
    assert !IsSpace("I had a long day"[0]);
    app.SetInput("I had a long day");
    app.HandleSubmit();
    assert app.messages == [Welcome, Message("I had a long day", true)];
    assert app.input == [] && app.botState == Listening;
    app.FireTimer(1, Reply("I see.", -0.1));
    assert app.messages == [Welcome, Message("I had a long day", true), Message("I see.", false)];
    assert app.pending == [ToThinking, BackToIdle];
    app.HandleSubmit();
    assert app.pending == [ToThinking, BackToIdle];
  }
}
