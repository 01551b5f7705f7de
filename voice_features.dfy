/**
 * The VoiceFeatures component as an object whose handlers update its flags in place
 * and record what they issue on the capture and output channels. Each method is
 * proved to perform exactly the transition its rule in VoiceRules describes, so the
 * lemmas proved there about event sequences hold of any sequence of calls here.
 */
module VoiceFeatures {
  import opened Wrappers
  import opened Text
  import opened Voices
  import opened VoiceRules

  class VoiceSession {
    const platform: Platform
    var enabled: bool
    var pausedByUser: bool
    var isListening: bool
    var isSpeaking: bool
    var pending: seq<Timer>
    var voices: seq<Voice>
    var currentVoice: Option<Voice>
    /** Every channel call issued so far, oldest first. */
    var calls: seq<ChannelCall>
    /** Every callback made to the host page so far, oldest first. */
    var notices: seq<Notice>

    /** The component's state as a value. */
    function State(): Session
      reads this
    {
      Session(enabled, pausedByUser, isListening, isSpeaking, pending, voices, currentVoice)
    }

    /** The object now holds `o.next`, and `o`'s calls and notices were appended to the
        logs `calls0` and `notices0` it held before. */
    predicate Took(o: Outcome, calls0: seq<ChannelCall>, notices0: seq<Notice>)
      reads this
    {
      State() == o.next && calls == calls0 + o.calls && notices == notices0 + o.notices
    }

    /** Mounting: nothing is listening, speaking or pending, and no voice is known yet. */
    constructor (platform: Platform, enabled: bool)
      ensures this.platform == platform
      ensures State() == Session(enabled, false, false, false, [], [], None)
      ensures calls == [] && notices == []
    {
      this.platform := platform;
      this.enabled := enabled;
      pausedByUser, isListening, isSpeaking := false, false, false;
      pending, voices, currentVoice := [], [], None;
      calls, notices := [], [];
    }

    /** The enable effect; React runs it after every change of the flags it reads. */
    method RunToggleEffect()
      modifies this
      ensures Took(ToggleEffect(platform, old(State())), old(calls), old(notices))
    {
      if !platform.Supported() {
        return;
      }
      if enabled && !isListening && !pausedByUser && !isSpeaking {
        calls := calls + [Start];
      } else if !enabled && isListening {
        calls := calls + [Stop];
      }
    }

    /** The host changes the `isEnabled` prop; the enable effect follows. */
    method SetEnabled(on: bool)
      modifies this
      ensures Took(Enabling(platform, old(State()), on), old(calls), old(notices))
    {
      enabled := on;
      RunToggleEffect();
    }

    /** `loadVoices`: the synthesizer publishes `catalog` (possibly empty, possibly again). */
    method LoadVoices(catalog: seq<Voice>)
      requires platform.synthesis
      modifies this
      ensures Took(LoadCatalog(platform, old(State()), catalog), old(calls), old(notices))
      ensures voices == catalog
      ensures catalog == [] ==> currentVoice == old(currentVoice)
      ensures catalog != [] ==> currentVoice.Some? && currentVoice.value in catalog
    {
      voices := catalog;
      if |catalog| > 0 {
        var preferred := Find(catalog, PreferredVoice);
        if preferred.Some? {
          currentVoice := preferred;
        } else {
          var marked := Find(catalog, MarkedDefault);
          currentVoice := if marked.Some? then marked else Some(catalog[0]);
        }
      }
    }

    /** Recognizer `onstart`. */
    method OnCaptureStart()
      requires platform.recognition
      modifies this
      ensures Took(CaptureStart(platform, old(State())), old(calls), old(notices))
      ensures isListening
    {
      isListening := true;
      notices := notices + [ListeningStarted];
    }

    /** Recognizer `onresult` with the first alternative's transcript. */
    method OnResult(transcript: string)
      requires platform.recognition
      modifies this
      ensures Took(Transcript(platform, old(State()), transcript), old(calls), old(notices))
      ensures notices == old(notices) + (if Blank(transcript) then [] else [UserSpeech(transcript)])
    {
      if Trim(transcript) != [] {
        notices := notices + [UserSpeech(transcript)];
      }
    }

    /** Recognizer `onend`: possibly schedules the capture restart timer. */
    method OnCaptureEnd()
      requires platform.recognition
      modifies this
      ensures Took(CaptureEnd(platform, old(State())), old(calls), old(notices))
      ensures !isListening && calls == old(calls)
    {
      isListening := false;
      notices := notices + [ListeningEnded];
      if enabled && !pausedByUser && !isSpeaking {
        pending := pending + [CaptureRestart];
      }
    }

    /** Recognizer `onerror`. */
    method OnCaptureError()
      requires platform.recognition
      modifies this
      ensures Took(CaptureError(platform, old(State())), old(calls), old(notices))
      ensures !isListening && pending == old(pending)
    {
      isListening := false;
      notices := notices + [ListeningEnded];
    }

    /**
     * The speak effect for a new `botResponse`. `synthSpeaking` is what the platform's
     * `speechSynthesis.speaking` reports at that moment.
     */
    method SpeakResponse(text: string, synthSpeaking: bool)
      modifies this
      ensures Took(Respond(platform, old(State()), text, synthSpeaking), old(calls), old(notices))
    {
      if !platform.Supported() || text == [] || !enabled {
        return;
      }
      if synthSpeaking {
        calls := calls + [Cancel];
      }
      calls := calls + [Speak(text, currentVoice)];
    }

    /** Utterance `onstart`: output begins and capture, if listening, is asked to stop. */
    method OnUtteranceStart()
      requires platform.synthesis
      modifies this
      ensures Took(UtteranceStart(platform, old(State())), old(calls), old(notices))
      ensures isSpeaking && isListening == old(isListening)
      ensures old(isListening) && platform.recognition ==> calls == old(calls) + [Stop]
    {
      isSpeaking := true;
      notices := notices + [SpeakingStarted];
      if isListening && platform.recognition {
        calls := calls + [Stop];
      }
    }

    /** Utterance `onend`: possibly schedules the restart after speaking. */
    method OnUtteranceEnd()
      requires platform.synthesis
      modifies this
      ensures Took(UtteranceEnd(platform, old(State())), old(calls), old(notices))
      ensures !isSpeaking
    {
      isSpeaking := false;
      notices := notices + [SpeakingEnded];
      if enabled && !pausedByUser && platform.recognition {
        pending := pending + [SpeechRestart];
      }
    }

    /** Utterance `onerror`. */
    method OnUtteranceError()
      requires platform.synthesis
      modifies this
      ensures Took(UtteranceError(platform, old(State())), old(calls), old(notices))
      ensures !isSpeaking && pending == old(pending)
    {
      isSpeaking := false;
      notices := notices + [SpeakingEnded];
    }

    /** The microphone button. */
    method ToggleListening()
      modifies this
      ensures Took(ManualListen(platform, old(State())), old(calls), old(notices))
    {
      if !platform.Supported() {
        return;
      }
      if isListening {
        pausedByUser := true;
        calls := calls + [Stop];
      } else {
        pausedByUser := false;
        calls := calls + [Start];
      }
    }

    /** The speaker button. */
    method ToggleSpeaking()
      modifies this
      ensures Took(ManualSpeak(platform, old(State())), old(calls), old(notices))
    {
      if !platform.Supported() {
        return;
      }
      if isSpeaking {
        calls := calls + [Cancel];
        isSpeaking := false;
        notices := notices + [SpeakingEnded];
      }
    }

    /** `changeVoice(name)`. */
    method ChangeVoice(name: string)
      modifies this
      ensures Took(ChooseVoice(old(State()), name), old(calls), old(notices))
    {
      var found := Named(voices, name);
      if found.Some? {
        currentVoice := found;
      }
    }

    /** The pending timer at index `i` fires; its guard is checked against the flags now. */
    method FireTimer(i: nat)
      requires i < |pending|
      modifies this
      ensures Took(TimerFire(old(State()), i), old(calls), old(notices))
      ensures |pending| == |old(pending)| - 1
    {
      var timer := pending[i];
      pending := pending[..i] + pending[i + 1..];
      if timer == CaptureRestart {
        if enabled && !pausedByUser && !isSpeaking {
          calls := calls + [Start];
        }
      } else if enabled && !pausedByUser {
        calls := calls + [Start];
      }
    }

    /** Unmount cleanup. */
    method Unmount(synthSpeaking: bool)
      modifies this
      ensures Took(Teardown(platform, old(State()), synthSpeaking), old(calls), old(notices))
    {
      if platform.synthesis && synthSpeaking {
        calls := calls + [Cancel];
      }
    }
  }

  /**
   * A listening session receives a response to speak: the utterance is requested, its
   * start stops capture, and the capture end that follows schedules no restart; when
   * speaking ends, the one restart that fires starts capture again.
   */
  method PreemptionScenario()
  {
    var session := new VoiceSession(Platform(true, true), true);
    session.RunToggleEffect();
    assert session.calls == [Start];
    session.OnCaptureStart();
    session.SpeakResponse("hello", false);
    session.OnUtteranceStart();
    assert session.calls == [Start, Speak("hello", None), Stop];
    session.OnCaptureEnd();
    assert session.pending == [];
    session.OnUtteranceEnd();
    assert session.pending == [SpeechRestart];
    session.FireTimer(0);
    assert session.calls == [Start, Speak("hello", None), Stop, Start];
    assert session.isListening == false && session.isSpeaking == false;
  }

  /** A manual stop while listening: the late capture end schedules no restart. */
  method ManualStopScenario()
  {
    var session := new VoiceSession(Platform(true, true), true);
    session.RunToggleEffect();
    session.OnCaptureStart();
    session.ToggleListening();
    assert session.pausedByUser && session.calls == [Start, Stop];
    session.OnCaptureEnd();
    assert session.pending == [] && session.calls == [Start, Stop];
    session.RunToggleEffect();
    assert session.calls == [Start, Stop];
  }
}
