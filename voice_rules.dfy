/**
 * The voice coordinator of VoiceFeatures.jsx as a transition system on values.
 *
 * A `Session` holds the component's state; each handler, effect and manual action
 * is a function from the session before the event to an `Outcome`: the session
 * after it, the calls issued on the two channels (speech capture: `Start`/`Stop`;
 * speech output: `Speak`/`Cancel`) and the callbacks made to the host page.
 * `Step` dispatches one `Event`, `Run` folds a sequence of them, and the lemmas at
 * the end are about every such sequence. The class in voice_features.dfy performs
 * each transition in place and is proved to agree with these functions.
 *
 * Every guard reads the session's current flags. In the source the handlers read
 * `isEnabled`, `pausedByUser` and `isSpeaking` from the values a React render
 * captured; that snapshot is not modelled.
 */
module VoiceRules {
  import opened Wrappers
  import opened Text
  import opened Voices

  /** A call on one of the two channels. */
  datatype ChannelCall =
    | Start                                       // recognition.start()
    | Stop                                        // recognition.stop()
    | Speak(text: string, voice: Option<Voice>)   // speechSynthesis.speak(utterance)
    | Cancel                                      // speechSynthesis.cancel()

  /** A callback to the host page. */
  datatype Notice =
    | UserSpeech(transcript: string)   // onUserSpeech
    | ListeningStarted                 // onListeningStart
    | ListeningEnded                   // onListeningEnd
    | SpeakingStarted                  // onSpeakingStart
    | SpeakingEnded                    // onSpeakingEnd

  /** A pending 500 ms restart: scheduled by capture's `onend` or by an utterance's `onend`. */
  datatype Timer = CaptureRestart | SpeechRestart

  /** What the browser offers: a speech recognizer and a speech synthesizer. */
  datatype Platform = Platform(recognition: bool, synthesis: bool)
  {
    /** `isSupported`: both capabilities are present. */
    predicate Supported() { recognition && synthesis }
  }

  datatype Session = Session(
    enabled: bool,          // the `isEnabled` prop
    pausedByUser: bool,
    listening: bool,        // `isListening`
    speaking: bool,         // `isSpeaking`
    pending: seq<Timer>,    // restart timers not yet fired, oldest first
    voices: seq<Voice>,     // `availableVoices`
    current: Option<Voice>) // `currentVoice`

  datatype Outcome = Outcome(next: Session, calls: seq<ChannelCall>, notices: seq<Notice>)

  /** Nothing happens. */
  function Quiet(s: Session): Outcome
  {
    Outcome(s, [], [])
  }

  // ---------------------------------------------------------------------------
  // Effects and manual actions

  /**
   * The enable effect: with a supported platform, capture is started when voice is
   * enabled and nothing (listening, a user pause, speaking) holds it back, and stopped
   * when voice is disabled while listening; in every other case no call is made.
   */
  function ToggleEffect(p: Platform, s: Session): (o: Outcome)
    ensures o.next == s && o.notices == [] && |o.calls| <= 1
    ensures Start in o.calls <==> p.Supported() && s.enabled && !s.listening && !s.pausedByUser && !s.speaking
    ensures Stop in o.calls <==> p.Supported() && !s.enabled && s.listening
    ensures forall c | c in o.calls :: c == Start || c == Stop
  {
    if !p.Supported() then Quiet(s)
    else if s.enabled && !s.listening && !s.pausedByUser && !s.speaking then Outcome(s, [Start], [])
    else if !s.enabled && s.listening then Outcome(s, [Stop], [])
    else Quiet(s)
  }

  /**
   * The host switches voice on or off, and the enable effect runs on the new flag.
   * Disabling never starts capture and stops it when listening; `pausedByUser` is kept.
   */
  function Enabling(p: Platform, s: Session, on: bool): (o: Outcome)
    ensures o.next == s.(enabled := on) && o.notices == []
    ensures !on ==> Start !in o.calls
    ensures !on && p.Supported() && s.listening ==> o.calls == [Stop]
    ensures on && p.Supported() && !s.listening && !s.pausedByUser && !s.speaking ==> o.calls == [Start]
  {
    ToggleEffect(p, s.(enabled := on))
  }

  /**
   * `toggleListening`: on a supported platform, a listening session is paused by the
   * user and capture is stopped; otherwise the pause is lifted and capture is started.
   * Voice being disabled does not matter here.
   */
  function ManualListen(p: Platform, s: Session): (o: Outcome)
    ensures o.notices == [] && o.next.listening == s.listening && o.next.speaking == s.speaking
    ensures !p.Supported() ==> o == Quiet(s)
    ensures p.Supported() && s.listening ==> o.next == s.(pausedByUser := true) && o.calls == [Stop]
    ensures p.Supported() && !s.listening ==> o.next == s.(pausedByUser := false) && o.calls == [Start]
  {
    if !p.Supported() then Quiet(s)
    else if s.listening then Outcome(s.(pausedByUser := true), [Stop], [])
    else Outcome(s.(pausedByUser := false), [Start], [])
  }

  /**
   * `toggleSpeaking`: cancels output and reports the end of speaking exactly when a
   * supported session is speaking; otherwise nothing happens.
   */
  function ManualSpeak(p: Platform, s: Session): (o: Outcome)
    ensures Cancel in o.calls <==> p.Supported() && s.speaking
    ensures Cancel in o.calls ==> o.calls == [Cancel] && o.next == s.(speaking := false) && o.notices == [SpeakingEnded]
    ensures Cancel !in o.calls ==> o == Quiet(s)
  {
    if p.Supported() && s.speaking then Outcome(s.(speaking := false), [Cancel], [SpeakingEnded])
    else Quiet(s)
  }

  /**
   * The speak effect on a new bot response: nothing is spoken unless the platform is
   * supported, the text is non-empty and voice is enabled. Otherwise the text is spoken
   * in the current voice, and an utterance the synthesizer reports as ongoing
   * (`synthSpeaking`) is cancelled first, so the newest response wins.
   */
  function Respond(p: Platform, s: Session, text: string, synthSpeaking: bool): (o: Outcome)
    ensures o.next == s && o.notices == []
    ensures o.calls != [] <==> p.Supported() && text != [] && s.enabled
    ensures o.calls != [] ==> o.calls[|o.calls| - 1] == Speak(text, s.current)
    ensures o.calls != [] ==> (Cancel in o.calls <==> synthSpeaking)
    ensures forall i | 0 <= i < |o.calls| - 1 :: o.calls[i] == Cancel
    ensures |o.calls| <= 2
  {
    if !p.Supported() || text == [] || !s.enabled then Quiet(s)
    else if synthSpeaking then Outcome(s, [Cancel, Speak(text, s.current)], [])
    else Outcome(s, [Speak(text, s.current)], [])
  }

  /** `changeVoice(name)`: the first catalog voice called `name` becomes current;
      when no voice has that name nothing changes. */
  function ChooseVoice(s: Session, name: string): (o: Outcome)
    ensures o.calls == [] && o.notices == []
    ensures (forall j :: 0 <= j < |s.voices| ==> s.voices[j].name != name) ==> o.next == s
    ensures (exists j :: 0 <= j < |s.voices| && s.voices[j].name == name) ==>
              o.next == s.(current := o.next.current) && o.next.current.Some?
              && o.next.current.value.name == name && o.next.current.value in s.voices
    ensures Named(s.voices, name).Some? ==> o.next.current == Named(s.voices, name)
  {
    match Named(s.voices, name)
    case None => Quiet(s)
    case Some(v) => Outcome(s.(current := Some(v)), [], [])
  }

  /** `loadVoices`, run when the synthesizer (re)publishes its catalog: the catalog is
      stored and the default-voice rule picks the current voice. */
  function LoadCatalog(p: Platform, s: Session, catalog: seq<Voice>): (o: Outcome)
    ensures o.calls == [] && o.notices == []
    ensures !p.synthesis ==> o == Quiet(s)
    ensures p.synthesis ==> o.next == s.(voices := catalog, current := DefaultVoice(catalog, s.current))
    ensures p.synthesis && catalog == [] ==> o.next.current == s.current
    ensures p.synthesis && catalog != [] ==> o.next.current.Some? && o.next.current.value in catalog
  {
    if !p.synthesis then Quiet(s)
    else Outcome(s.(voices := catalog, current := DefaultVoice(catalog, s.current)), [], [])
  }

  /** Unmount cleanup: an utterance the synthesizer reports as ongoing is cancelled. */
  function Teardown(p: Platform, s: Session, synthSpeaking: bool): (o: Outcome)
    ensures o.next == s && o.notices == []
    ensures o.calls == [] || o.calls == [Cancel]
    ensures o.calls == [Cancel] <==> p.synthesis && synthSpeaking
  {
    if p.synthesis && synthSpeaking then Outcome(s, [Cancel], []) else Quiet(s)
  }

  // ---------------------------------------------------------------------------
  // Capture channel events (they arrive only from an existing recognizer)

  /** Capture `onstart`: listening begins and the host is told. */
  function CaptureStart(p: Platform, s: Session): (o: Outcome)
    ensures !p.recognition ==> o == Quiet(s)
    ensures p.recognition ==> o.next == s.(listening := true) && o.calls == [] && o.notices == [ListeningStarted]
  {
    if !p.recognition then Quiet(s)
    else Outcome(s.(listening := true), [], [ListeningStarted])
  }

  /** `onresult`: a transcript is handed to the host only if it is not blank. */
  function Transcript(p: Platform, s: Session, t: string): (o: Outcome)
    ensures o.next == s && o.calls == []
    ensures o.notices != [] <==> p.recognition && !Blank(t)
    ensures forall n | n in o.notices :: n == UserSpeech(t)
  {
    if p.recognition && Trim(t) != [] then Outcome(s, [], [UserSpeech(t)]) else Quiet(s)
  }

  /**
   * Capture `onend`: listening stops, the host is told, and one restart timer is
   * scheduled exactly when voice is enabled, not paused by the user and not speaking.
   */
  function CaptureEnd(p: Platform, s: Session): (o: Outcome)
    ensures o.calls == []
    ensures p.recognition ==> !o.next.listening && o.notices == [ListeningEnded]
    ensures o.next.pending == s.pending
         || o.next.pending == s.pending + [CaptureRestart]
    ensures o.next.pending != s.pending <==>
              p.recognition && s.enabled && !s.pausedByUser && !s.speaking
    ensures o.next.enabled == s.enabled && o.next.pausedByUser == s.pausedByUser && o.next.speaking == s.speaking
    ensures o.next.voices == s.voices && o.next.current == s.current
    ensures !p.recognition ==> o == Quiet(s)
  {
    if !p.recognition then Quiet(s)
    else if s.enabled && !s.pausedByUser && !s.speaking then
      Outcome(s.(listening := false, pending := s.pending + [CaptureRestart]), [], [ListeningEnded])
    else
      Outcome(s.(listening := false), [], [ListeningEnded])
  }

  /** Capture `onerror`: listening stops and the host is told; no restart is scheduled. */
  function CaptureError(p: Platform, s: Session): (o: Outcome)
    ensures o.calls == [] && o.next.pending == s.pending
    ensures p.recognition ==> o.next == s.(listening := false) && o.notices == [ListeningEnded]
  {
    if !p.recognition then Quiet(s)
    else Outcome(s.(listening := false), [], [ListeningEnded])
  }

  // ---------------------------------------------------------------------------
  // Output channel events (they arrive only from an utterance of the synthesizer)

  /**
   * Utterance `onstart`: speaking begins, and capture is stopped if the session is
   * listening. `listening` itself stays as it was until capture reports its end, so
   * listening and speaking may both hold for a while.
   */
  function UtteranceStart(p: Platform, s: Session): (o: Outcome)
    ensures p.synthesis ==> o.next == s.(speaking := true) && o.notices == [SpeakingStarted]
    ensures o.calls == [] || o.calls == [Stop]
    ensures Stop in o.calls <==> p.synthesis && p.recognition && s.listening
  {
    if !p.synthesis then Quiet(s)
    else if s.listening && p.recognition then Outcome(s.(speaking := true), [Stop], [SpeakingStarted])
    else Outcome(s.(speaking := true), [], [SpeakingStarted])
  }

  /**
   * Utterance `onend`: speaking stops, the host is told, and a restart timer is
   * scheduled exactly when voice is enabled and not paused by the user.
   */
  function UtteranceEnd(p: Platform, s: Session): (o: Outcome)
    ensures o.calls == []
    ensures p.synthesis ==> !o.next.speaking && o.notices == [SpeakingEnded]
    ensures o.next.pending == s.pending
         || o.next.pending == s.pending + [SpeechRestart]
    ensures o.next.pending != s.pending <==>
              p.synthesis && p.recognition && s.enabled && !s.pausedByUser
    ensures o.next.enabled == s.enabled && o.next.pausedByUser == s.pausedByUser && o.next.listening == s.listening
    ensures o.next.voices == s.voices && o.next.current == s.current
    ensures !p.synthesis ==> o == Quiet(s)
  {
    if !p.synthesis then Quiet(s)
    else if s.enabled && !s.pausedByUser && p.recognition then
      Outcome(s.(speaking := false, pending := s.pending + [SpeechRestart]), [], [SpeakingEnded])
    else
      Outcome(s.(speaking := false), [], [SpeakingEnded])
  }

  /** Utterance `onerror`: speaking stops and the host is told; no restart is scheduled. */
  function UtteranceError(p: Platform, s: Session): (o: Outcome)
    ensures o.calls == [] && o.next.pending == s.pending
    ensures p.synthesis ==> o.next == s.(speaking := false) && o.notices == [SpeakingEnded]
  {
    if !p.synthesis then Quiet(s)
    else Outcome(s.(speaking := false), [], [SpeakingEnded])
  }

  // ---------------------------------------------------------------------------
  // Timers

  /** The guard a timer re-checks when it fires: the capture-end restart also needs the
      session not to be speaking; the restart after speaking does not look at that. */
  predicate MayRestart(t: Timer, s: Session)
  {
    s.enabled && !s.pausedByUser && (t == CaptureRestart ==> !s.speaking)
  }

  /**
   * Timer `i` fires: it leaves the pending list and starts capture exactly when its
   * guard holds now. An index with no pending timer does nothing.
   */
  function TimerFire(s: Session, i: nat): (o: Outcome)
    ensures o.notices == [] && (o.calls == [] || o.calls == [Start])
    ensures Start in o.calls <==> i < |s.pending| && MayRestart(s.pending[i], s)
    ensures i < |s.pending| ==> o.next == s.(pending := s.pending[..i] + s.pending[i + 1..])
    ensures i >= |s.pending| ==> o.next == s
  {
    if i >= |s.pending| then Quiet(s)
    else
      var rest := s.pending[..i] + s.pending[i + 1..];
      Outcome(s.(pending := rest), if MayRestart(s.pending[i], s) then [Start] else [], [])
  }

  // ---------------------------------------------------------------------------
  // Event sequences

  datatype Event =
    | Enable(on: bool)
    | EffectRun
    | ListenToggle
    | SpeakToggle
    | BotResponse(text: string, synthSpeaking: bool)
    | VoiceChosen(name: string)
    | VoicesLoaded(catalog: seq<Voice>)
    | Unmounted(synthSpeaking: bool)
    | CaptureStarted
    | TranscriptHeard(transcript: string)
    | CaptureEnded
    | CaptureFailed
    | UtteranceStarted
    | UtteranceEnded
    | UtteranceFailed
    | TimerFired(index: nat)

  function Step(p: Platform, s: Session, e: Event): Outcome
  {
    match e
    case Enable(on) => Enabling(p, s, on)
    case EffectRun => ToggleEffect(p, s)
    case ListenToggle => ManualListen(p, s)
    case SpeakToggle => ManualSpeak(p, s)
    case BotResponse(text, busy) => Respond(p, s, text, busy)
    case VoiceChosen(name) => ChooseVoice(s, name)
    case VoicesLoaded(catalog) => LoadCatalog(p, s, catalog)
    case Unmounted(busy) => Teardown(p, s, busy)
    case CaptureStarted => CaptureStart(p, s)
    case TranscriptHeard(t) => Transcript(p, s, t)
    case CaptureEnded => CaptureEnd(p, s)
    case CaptureFailed => CaptureError(p, s)
    case UtteranceStarted => UtteranceStart(p, s)
    case UtteranceEnded => UtteranceEnd(p, s)
    case UtteranceFailed => UtteranceError(p, s)
    case TimerFired(i) => TimerFire(s, i)
  }

  /** The events `es` processed one after another from `s`; calls and notices in order. */
  function Run(p: Platform, s: Session, es: seq<Event>): Outcome
    decreases |es|
  {
    if es == [] then Quiet(s)
    else
      var o := Step(p, s, es[0]);
      var rest := Run(p, o.next, es[1..]);
      Outcome(rest.next, o.calls + rest.calls, o.notices + rest.notices)
  }

  /** One event other than a manual listen toggle keeps a user pause and starts nothing. */
  lemma PausedStep(p: Platform, s: Session, e: Event)
    requires s.pausedByUser && !e.ListenToggle?
    ensures Step(p, s, e).next.pausedByUser
    ensures Start !in Step(p, s, e).calls
  {
  }

  /**
   * Auto-restart suppression: once the user has paused listening, no sequence of
   * events without a manual listen toggle issues a capture start, however many
   * capture ends, errors, utterances and timers arrive; and the pause still holds.
   */
  lemma {:induction false} PauseHoldsUntilResume(p: Platform, s: Session, es: seq<Event>)
    requires s.pausedByUser
    requires forall i | 0 <= i < |es| :: !es[i].ListenToggle?
    ensures Start !in Run(p, s, es).calls
    ensures Run(p, s, es).next.pausedByUser
    decreases |es|
  {
    if es != [] {
      PausedStep(p, s, es[0]);
      PauseHoldsUntilResume(p, Step(p, s, es[0]).next, es[1..]);
    }
  }

  /** One event that neither enables voice nor toggles listening keeps voice disabled
      and neither starts capture nor speaks. */
  lemma DisabledStep(p: Platform, s: Session, e: Event)
    requires !s.enabled && !e.ListenToggle? && e != Enable(true)
    ensures !Step(p, s, e).next.enabled
    ensures Start !in Step(p, s, e).calls
    ensures forall c | c in Step(p, s, e).calls :: !c.Speak?
  {
  }

  /**
   * While voice is disabled and the host neither re-enables it nor toggles listening
   * by hand, capture is never started and nothing is spoken.
   */
  lemma {:induction false} DisabledStaysSilent(p: Platform, s: Session, es: seq<Event>)
    requires !s.enabled
    requires forall i | 0 <= i < |es| :: !es[i].ListenToggle? && es[i] != Enable(true)
    ensures !Run(p, s, es).next.enabled
    ensures Start !in Run(p, s, es).calls
    ensures forall c | c in Run(p, s, es).calls :: !c.Speak?
    decreases |es|
  {
    if es != [] {
      DisabledStep(p, s, es[0]);
      DisabledStaysSilent(p, Step(p, s, es[0]).next, es[1..]);
    }
  }

  /**
   * Output preempts capture: on a supported platform, a listening, enabled session
   * that receives a non-empty response and then the utterance's start issues the
   * speak request and then a capture stop, and is speaking afterwards. The capture
   * end that follows schedules no restart, because the session is speaking.
   */
  lemma PreemptionStopsCapture(p: Platform, s: Session, text: string, busy: bool)
    requires p.Supported() && s.enabled && s.listening && text != []
    ensures var o := Run(p, s, [BotResponse(text, busy), UtteranceStarted, CaptureEnded]);
      && o.calls == (if busy then [Cancel] else []) + [Speak(text, s.current), Stop]
      && o.next.speaking && !o.next.listening
      && o.next.pending == s.pending
  {
    var o1 := Step(p, s, BotResponse(text, busy));
    var o2 := Step(p, o1.next, UtteranceStarted);
    var o3 := Step(p, o2.next, CaptureEnded);
    assert Run(p, o2.next, [CaptureEnded]) == Outcome(o3.next, o3.calls, o3.notices);
    assert [BotResponse(text, busy), UtteranceStarted, CaptureEnded][1..] == [UtteranceStarted, CaptureEnded];
    assert [UtteranceStarted, CaptureEnded][1..] == [CaptureEnded];
  }

  /**
   * Listening and speaking are not exclusive: right after an utterance starts while
   * listening, both flags hold until capture reports its end.
   */
  lemma ListeningAndSpeakingOverlap(p: Platform, s: Session)
    requires p.Supported() && s.listening
    ensures Step(p, s, UtteranceStarted).next.listening
    ensures Step(p, s, UtteranceStarted).next.speaking
  {
  }

  /**
   * The restart scheduled at the end of an utterance does not re-check `speaking`:
   * if a new utterance has started before it fires, capture is started while speaking.
   */
  lemma SpeechRestartIgnoresSpeaking(p: Platform, s: Session)
    requires p.Supported() && s.enabled && !s.pausedByUser && !s.listening && !s.speaking
    ensures var o := Run(p, s, [UtteranceEnded, UtteranceStarted, TimerFired(|s.pending|)]);
      o.calls == [Start] && o.next.speaking
  {
    var o1 := Step(p, s, UtteranceEnded);
    var o2 := Step(p, o1.next, UtteranceStarted);
    var o3 := Step(p, o2.next, TimerFired(|s.pending|));
    assert o2.next.pending[|s.pending|] == SpeechRestart;
    assert Run(p, o2.next, [TimerFired(|s.pending|)]) == Outcome(o3.next, o3.calls, o3.notices);
    assert [UtteranceEnded, UtteranceStarted, TimerFired(|s.pending|)][1..] == [UtteranceStarted, TimerFired(|s.pending|)];
    assert [UtteranceStarted, TimerFired(|s.pending|)][1..] == [TimerFired(|s.pending|)];
  }

  /**
   * The unmount cleanup cancels output only: a recognizer that is listening when the
   * component unmounts keeps running, and its end still schedules a restart that
   * starts capture again. No capture stop is ever issued.
   */
  lemma CaptureOutlivesUnmount(p: Platform, s: Session, busy: bool)
    requires p.Supported() && s.enabled && !s.pausedByUser && s.listening && !s.speaking
    ensures var o := Run(p, s, [Unmounted(busy), CaptureEnded, TimerFired(|s.pending|)]);
      && o.calls == (if busy then [Cancel] else []) + [Start]
      && Stop !in o.calls
  {
    var o1 := Step(p, s, Unmounted(busy));
    var o2 := Step(p, o1.next, CaptureEnded);
    var o3 := Step(p, o2.next, TimerFired(|s.pending|));
    assert o2.next.pending[|s.pending|] == CaptureRestart;
    assert Run(p, o2.next, [TimerFired(|s.pending|)]) == Outcome(o3.next, o3.calls, o3.notices);
    assert [Unmounted(busy), CaptureEnded, TimerFired(|s.pending|)][1..] == [CaptureEnded, TimerFired(|s.pending|)];
    assert [CaptureEnded, TimerFired(|s.pending|)][1..] == [TimerFired(|s.pending|)];
  }
}
