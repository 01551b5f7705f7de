# VentBot voice coordination, chat page and avatar animation in Dafny

This project models the front end of VentBot, a browser chat page with an emoji or 3D
avatar and an optional voice mode. Three source files are covered:

- `frontend/src/VoiceFeatures.jsx`. This is the voice coordinator. It keeps four flags:
  `isEnabled`, `pausedByUser`, `isListening` and `isSpeaking`. It drives two channels:
  speech capture (`recognition.start/stop`) and speech output
  (`speechSynthesis.speak/cancel`). It restarts capture through 500 ms timers, and it
  chooses an output voice from the platform's catalog.
- `frontend/src/main.jsx`. This is the chat page. It holds the emoji faces for the bot's
  state, the append-only message list, the submit and speech-input handlers, and the
  callbacks the voice component makes.
- `frontend/src/AvatarComponent.jsx`. This is the 3D avatar's animation logic. It fills a
  name-to-action table when the model loads. When the bot state changes, it stops every
  action and plays the one chosen for the state.

## Layout

| file | module | contents |
|---|---|---|
| `wrappers.dfy` | `Wrappers` | `Option` |
| `text.dfy` | `Text` | JavaScript `trim` (as a blank test) and `includes` |
| `bot_state.dfy` | `BotStates` | the four bot states |
| `voices.dfy` | `Voices` | voice descriptors, `find`, the default-voice rule, lookup by name |
| `voice_rules.dfy` | `VoiceRules` | the coordinator as pure transition functions, `Step`/`Run` over event sequences, lemmas about every event sequence |
| `voice_features.dfy` | `VoiceFeatures` | class `VoiceSession`: one method per handler, each proved to perform its rule's transition in place; two client scenarios |
| `chat.dfy` | `Chat` | faces, `WithUserMessage`, the page state `PageState` with `Processed` and `Fired`, class `ChatApp` proved against them; one client scenario |
| `avatar.dfy` | `Avatar` | `AnimationName`, `ChooseTarget`, class `Animator` with the load and update loops; one client scenario |

A `VoiceSession` method changes the object's fields. It also appends the channel calls
it issues to `calls` and the host callbacks it makes to `notices`. Each method's
postcondition says the object then holds exactly the outcome of the matching
`VoiceRules` function. Because each `Took` postcondition fixes the new state and
appends the step's calls and notices, a sequence of method calls performs `Run` of the
matching events. So the lemmas about `VoiceRules.Run` carry over to any such sequence.

Timers are not durations. Each `setTimeout` adds an entry to a `pending` list, and the
caller fires an entry by its index. In the model, a voice timer checks its guard again
against the session's flags at the moment it fires.

Every handler guard reads the session's current flags. In the source, the handlers read
`isEnabled`, `pausedByUser` and `isSpeaking` from the values a React render captured,
and that snapshot is not modelled. The effect this has on each property is listed under
"Left out", member by member.

## Behaviour of the code that the model keeps

- Listening and speaking are not mutually exclusive. An utterance's `onstart` asks
  capture to stop, but `isListening` stays true until capture's `onend` arrives
  (`VoiceRules.ListeningAndSpeakingOverlap`). What is proved instead is that a `Stop`
  is issued whenever speaking starts while listening.
- Setting the `isEnabled` prop to false does not reset `pausedByUser`. The chat page
  never does this, though. `main.jsx:256-259` mounts the component only while Voice
  Mode is on, and passes `isEnabled={voiceEnabled}`, so `isEnabled` is always true while
  mounted. On the page, switching Voice Mode off is an unmount (`Unmounted`, whose rule
  is `Teardown`). Unmounting discards all of the component's state, `pausedByUser`
  included.
- The unmount cleanup (`VoiceFeatures.jsx:119-123`) cancels output only. It never stops
  a running recognizer. That recognizer's end still schedules a restart, which starts
  capture again after the component is gone (`VoiceRules.CaptureOutlivesUnmount`). So
  not every channel is stopped on unmount.
- Events are not tagged with a session generation, and pending timers are never
  cancelled. In the model, guards are checked again when a timer fires. Nothing else
  protects against stale events.
- The restart after speaking (`VoiceFeatures.jsx:189-197`) does not check again that
  the session is not speaking. If a new utterance starts within the delay, capture is
  started while speaking (`VoiceRules.SpeechRestartIgnoresSpeaking`). In the model, the
  restart after capture ends checks this.
- `toggleListening` does not look at `isEnabled`. Its only caller, the microphone button,
  is disabled while `!isEnabled || isSpeaking` (`VoiceFeatures.jsx:268`).
- `rate`, `pitch` and `volume` go to the utterance unchecked.

## Model

| member | source | states |
|---|---|---|
| `Text.Trim` | frontend/src/VoiceFeatures.jsx:85 | The result is a piece of the input with only white space around it in the input. It neither starts nor ends with white space. It is empty exactly when the input is blank. |
| `Text.Includes` | frontend/src/VoiceFeatures.jsx:55-58 | True exactly when the substring occurs at some index of the string. |
| `Voices.FirstIndex` | frontend/src/VoiceFeatures.jsx:54-61 | The index of the first voice satisfying the test, with no earlier voice satisfying it. None exactly when no voice satisfies it. |
| `Voices.DefaultVoice` | frontend/src/VoiceFeatures.jsx:52-62 | An empty catalog keeps the current voice. Otherwise the result is a catalog voice, in this order of priority: the first voice whose name contains `female`, `Female`, `Samantha` or `Siri`; else the first voice marked default; else the first voice. |
| `Voices.Named` | frontend/src/VoiceFeatures.jsx:245 | The first voice whose name is exactly the one asked for. None exactly when no voice has that name. |
| `VoiceRules.ToggleEffect` | frontend/src/VoiceFeatures.jsx:127-145 | On a supported platform: `Start` exactly when enabled, not listening, not paused and not speaking; `Stop` exactly when disabled while listening; at most one call, and the state is unchanged. |
| `VoiceRules.Enabling` | frontend/src/VoiceFeatures.jsx:128-144 | The new flag is stored. Disabling never starts capture, and it stops capture when listening. Enabling starts capture when nothing holds it back. |
| `VoiceRules.ManualListen` | frontend/src/VoiceFeatures.jsx:212-230 | No-op when unsupported. While listening: paused becomes true and `Stop` is issued. Otherwise: paused becomes false and `Start` is issued. Listening and speaking flags are unchanged. |
| `VoiceRules.ManualSpeak` | frontend/src/VoiceFeatures.jsx:233-241 | `Cancel` is issued exactly when a supported session is speaking. It then clears speaking and reports the end to the host. Otherwise nothing changes. |
| `VoiceRules.Respond` | frontend/src/VoiceFeatures.jsx:149-166 | Something is issued exactly when supported, the text is non-empty and voice is enabled. The last call is `Speak(text, current voice)`. A single `Cancel` comes before it exactly when the synthesizer reports speaking, so there are at most two calls. No capture call is made, and the state is unchanged. |
| `VoiceRules.ChooseVoice` | frontend/src/VoiceFeatures.jsx:244-249 | If no catalog voice has the name, nothing changes. Otherwise only the current voice changes, to the first catalog voice with that name (`Named`). |
| `VoiceRules.LoadCatalog` | frontend/src/VoiceFeatures.jsx:47-63 | With a synthesizer: the catalog is stored and the current voice becomes `DefaultVoice` of it. An empty catalog keeps the current voice, and a non-empty one yields a catalog voice. No call and no notice. |
| `VoiceRules.Teardown` | frontend/src/VoiceFeatures.jsx:119-123 | `Cancel` is the only possible call, and it is issued exactly when the synthesizer exists and reports speaking. The state is unchanged. |
| `VoiceRules.CaptureStart` | frontend/src/VoiceFeatures.jsx:90-93 | With a recognizer, only listening changes, to true, and the host is told. No call is made. |
| `VoiceRules.Transcript` | frontend/src/VoiceFeatures.jsx:83-88 | The transcript is forwarded to the host exactly when it is not blank. The state is unchanged and no channel call is made. |
| `VoiceRules.CaptureEnd` | frontend/src/VoiceFeatures.jsx:95-107 | Listening is cleared and the host is told. One capture-restart timer is added exactly when enabled, not paused and not speaking. No channel call is made. The flags, voices and current voice are otherwise unchanged. |
| `VoiceRules.CaptureError` | frontend/src/VoiceFeatures.jsx:109-113 | Listening is cleared and the host is told. No timer is added and no call is made. |
| `VoiceRules.UtteranceStart` | frontend/src/VoiceFeatures.jsx:169-181 | Speaking is set and listening is left as it was. `Stop` is issued exactly when the session was listening. |
| `VoiceRules.UtteranceEnd` | frontend/src/VoiceFeatures.jsx:183-199 | Speaking is cleared and the host is told. One restart timer is added exactly when enabled and not paused. No call is made. The flags, voices and current voice are otherwise unchanged. |
| `VoiceRules.UtteranceError` | frontend/src/VoiceFeatures.jsx:201-205 | Speaking is cleared and the host is told. No timer is added and no call is made. |
| `VoiceRules.TimerFire` | frontend/src/VoiceFeatures.jsx:101-105 | The fired timer leaves the pending list. `Start` is issued exactly when its guard holds now: enabled and not paused, and for the capture-end restart also not speaking (the speaking restart at lines 189-197 omits that check). |
| `VoiceRules.PauseHoldsUntilResume` | frontend/src/VoiceFeatures.jsx:95-106 | After a user pause, no sequence of events without a manual listen toggle issues `Start`, and the pause still holds at the end. |
| `VoiceRules.DisabledStaysSilent` | frontend/src/VoiceFeatures.jsx:130-144 | While voice is disabled, and unless it is re-enabled or listening is toggled by hand, no event sequence starts capture or speaks anything. |
| `VoiceRules.PreemptionStopsCapture` | frontend/src/VoiceFeatures.jsx:169-181 | A listening session that gets a response, then the utterance's start, then capture's end issues (`Cancel`,) `Speak`, `Stop` in that order. It ends speaking and not listening, with no restart scheduled. |
| `VoiceRules.ListeningAndSpeakingOverlap` | frontend/src/VoiceFeatures.jsx:169-180 | Right after an utterance starts while listening, both flags hold. |
| `VoiceRules.CaptureOutlivesUnmount` | frontend/src/VoiceFeatures.jsx:119-123 | An enabled, unpaused, listening session that unmounts issues no `Stop`. The capture end that follows schedules a restart, and firing it issues `Start`. The only other call is a `Cancel` when the synthesizer reports speaking. |
| `VoiceRules.SpeechRestartIgnoresSpeaking` | frontend/src/VoiceFeatures.jsx:188-197 | An utterance ends, a new one starts, and then the restart timer fires: capture is started while speaking. |
| `VoiceFeatures.VoiceSession.constructor` | frontend/src/VoiceFeatures.jsx:21-27 | A session starts not paused, not listening, not speaking, with no timers, no voices and no current voice. |
| `VoiceFeatures.VoiceSession.RunToggleEffect` | frontend/src/VoiceFeatures.jsx:127-145 | Performs `ToggleEffect` in place. |
| `VoiceFeatures.VoiceSession.SetEnabled` | frontend/src/VoiceFeatures.jsx:127-145 | Performs `Enabling` in place. |
| `VoiceFeatures.VoiceSession.LoadVoices` | frontend/src/VoiceFeatures.jsx:47-63 | Stores the catalog and applies `DefaultVoice`. An empty catalog keeps the current voice; otherwise the current voice is from the catalog. |
| `VoiceFeatures.VoiceSession.OnCaptureStart` | frontend/src/VoiceFeatures.jsx:90-93 | Listening is set and the host is told. |
| `VoiceFeatures.VoiceSession.OnResult` | frontend/src/VoiceFeatures.jsx:83-88 | Performs `Transcript` in place. Only a non-blank transcript reaches the host. |
| `VoiceFeatures.VoiceSession.OnCaptureEnd` | frontend/src/VoiceFeatures.jsx:95-107 | Performs `CaptureEnd` in place. |
| `VoiceFeatures.VoiceSession.OnCaptureError` | frontend/src/VoiceFeatures.jsx:109-113 | Performs `CaptureError` in place. |
| `VoiceFeatures.VoiceSession.SpeakResponse` | frontend/src/VoiceFeatures.jsx:148-208 | Performs `Respond` in place. |
| `VoiceFeatures.VoiceSession.OnUtteranceStart` | frontend/src/VoiceFeatures.jsx:169-181 | Performs `UtteranceStart` in place. A listening session gets `Stop` appended. |
| `VoiceFeatures.VoiceSession.OnUtteranceEnd` | frontend/src/VoiceFeatures.jsx:183-199 | Performs `UtteranceEnd` in place. |
| `VoiceFeatures.VoiceSession.OnUtteranceError` | frontend/src/VoiceFeatures.jsx:201-205 | Performs `UtteranceError` in place. |
| `VoiceFeatures.VoiceSession.ToggleListening` | frontend/src/VoiceFeatures.jsx:212-230 | Performs `ManualListen` in place. |
| `VoiceFeatures.VoiceSession.ToggleSpeaking` | frontend/src/VoiceFeatures.jsx:233-241 | Performs `ManualSpeak` in place. |
| `VoiceFeatures.VoiceSession.ChangeVoice` | frontend/src/VoiceFeatures.jsx:244-249 | Performs `ChooseVoice` in place. |
| `VoiceFeatures.VoiceSession.FireTimer` | frontend/src/VoiceFeatures.jsx:101-197 | Performs `TimerFire` in place for both timers: the capture-end restart (lines 101-105) and the restart after speaking (lines 189-197). Exactly one timer leaves the list. |
| `VoiceFeatures.VoiceSession.Unmount` | frontend/src/VoiceFeatures.jsx:119-123 | `Cancel` is issued exactly when the synthesizer exists and reports speaking. |
| `Chat.Expression` | frontend/src/main.jsx:9-18 | Each face determines the state: 👂/🤔/🗣️ exactly for listening/thinking/speaking, whatever the sentiment. When idle: 😊 exactly above 0.3, 😔 exactly below -0.3, 😐 otherwise. Both thresholds are strict. |
| `Chat.HeaderFace` | frontend/src/main.jsx:133-135 | 😊 exactly when idle. Otherwise it is the avatar's activity face. |
| `Chat.HeaderMatchesAvatar` | frontend/src/main.jsx:133-135 | The header face and the avatar face agree exactly when the bot is active or the sentiment is above 0.3. |
| `Chat.GlyphsDistinct` | frontend/src/main.jsx:10-17 | The six emoji are pairwise distinct, so the emoji on screen determines the face. |
| `Chat.WithUserMessage` | frontend/src/main.jsx:69-72 | Earlier messages are kept as a prefix. A blank message adds nothing. Any other message is appended once, unchanged, as the user's. |
| `Chat.Processed` | frontend/src/main.jsx:68-79 | A blank message leaves the page unchanged. Otherwise the message is appended as the user's, the bot is listening, loading starts, and the thinking and reply timers are scheduled in that order. No other field changes. |
| `Chat.Fired` | frontend/src/main.jsx:76-104 | The fired timer leaves the list and earlier messages are kept. The thinking, idle and cooldown timers change only the bot state or the speech flag. The reply timer appends the reply as the bot's message, sets speaking, the response to speak and the sentiment, ends loading and schedules the return to idle. |
| `Chat.ChatApp.constructor` | frontend/src/main.jsx:31-50 | The page starts idle, with only the welcome message from the bot, an empty input, sentiment 0, voice off, nothing to speak, no speech in progress and no timers. |
| `Chat.ChatApp.ProcessMessage` | frontend/src/main.jsx:68-105 | The whole new page state is `Processed` of the old one. |
| `Chat.ChatApp.SetInput` | frontend/src/main.jsx:240 | Only the input box changes, to the new text. |
| `Chat.ChatApp.HandleSubmit` | frontend/src/main.jsx:108-112 | The whole new page state is `Processed` of the old one with the old input, and then the input is cleared. |
| `Chat.ChatApp.HandleSpeechInput` | frontend/src/main.jsx:115-121 | While a transcript is being processed, nothing changes. Otherwise the speech flag is raised, the new state is `Processed` of the transcript, and the cooldown timer is scheduled last. |
| `Chat.ChatApp.FireTimer` | frontend/src/main.jsx:76-104 | The whole new page state is `Fired` of the old one. |
| `Chat.ChatApp.ToggleVoice` | frontend/src/main.jsx:146 | Only voice mode changes, and it flips. |
| `Chat.ChatApp.OnListeningStart` | frontend/src/main.jsx:261 | Only the bot state changes, to listening. |
| `Chat.ChatApp.OnListeningEnd` | frontend/src/main.jsx:262 | Only the bot state changes, to idle. |
| `Chat.ChatApp.OnSpeakingStart` | frontend/src/main.jsx:264 | Only the bot state changes, to speaking. |
| `Chat.ChatApp.OnSpeakingEnd` | frontend/src/main.jsx:265-268 | Only the bot state and the response to speak change: the bot is idle and the response is cleared. |
| `Avatar.AnimationName` | frontend/src/AvatarComponent.jsx:151-172 | `Listening`/`Thinking`/`Talking` exactly for listening/thinking/speaking, whatever the sentiment. When idle: `Happy` exactly above 0.3, `Sad` exactly below -0.3, `Idle` otherwise. |
| `Avatar.AnimationMatchesFace` | frontend/src/AvatarComponent.jsx:153-171 | All six pairs correspond one to one: `Listening`/👂, `Thinking`/🤔, `Talking`/🗣️, `Happy`/😊, `Sad`/😔 and `Idle`/😐. Each animation is chosen exactly when its emoji face is. |
| `Avatar.ChooseTarget` | frontend/src/AvatarComponent.jsx:175 | The wanted animation if the table has it, else `Idle` if the table has it, else none. The result is always in the table. |
| `Avatar.Animator.constructor` | frontend/src/AvatarComponent.jsx:8-14 | Not loaded, no mixer, empty table. |
| `Avatar.Animator.Load` | frontend/src/AvatarComponent.jsx:69-85 | The table's names are exactly the clip names, and each name is bound to its last clip. Only `Idle` plays, if present. A mixer exists exactly when there are clips. |
| `Avatar.Animator.Update` | frontend/src/AvatarComponent.jsx:142-181 | Does nothing unless loaded with a mixer. Otherwise names and clips are unchanged, and an action plays exactly when it is `ChooseTarget` of the state's animation, so at most one plays. |

## Left out

- The browser speech APIs are abstract channels that only record calls. Support
  detection (`VoiceFeatures.jsx:36-40`) is the `Platform` value.
- The model does not capture React's scheduling. That covers batching of state updates,
  effect re-runs when a dependency changes, stale closures and StrictMode's double
  invocation. The enable effect is an explicit method (`RunToggleEffect`) and event
  (`EffectRun`) that a caller can run after any change. The speak effect runs only when
  a new response is handed in (`SpeakResponse`), not when its other dependencies change.
- The mount effect runs again when its callback props change. The model does not
  capture this, so recognizers are never re-created.
- `VoiceRules.TimerFire`: the guard is checked against the flags at the moment the
  timer fires. In the source, the capture-restart timer (`VoiceFeatures.jsx:101-105`)
  reads `isEnabled`, `pausedByUser` and `isSpeaking` as the mount effect captured them.
  None of them is in that effect's dependency list (`VoiceFeatures.jsx:124`), so the
  re-check repeats the test at line 100 and cannot fail. The restart after speaking
  (lines 189-197) reads the values from the speak-effect run that created that
  utterance.
- `VoiceRules.CaptureEnd`: the guard at `VoiceFeatures.jsx:100` is read from the current
  flags. As written, it reads the flags captured by the mount effect. So a capture end
  that follows a preemptive `Stop` can schedule a restart even though the session is
  speaking.
- `VoiceRules.PauseHoldsUntilResume`: holds only when guards read the current flags. As
  written, a restart scheduled before the user's pause still calls `start()`. An example
  is an enabled, listening session that gets capture end, effect run, capture start,
  manual toggle, then the timer fires.
- `VoiceRules.DisabledStaysSilent`: holds only when guards read the current flags. As
  written, a restart scheduled while enabled can still call `start()` after voice is
  disabled.
- `VoiceRules.PreemptionStopsCapture`: "no restart scheduled" holds only when guards read
  the current flags. As written, `onend` sees the `isSpeaking` captured at mount (false)
  and schedules a restart.
- Timer delays (500 ms, 1000 ms, 1500 ms, 2000 ms) are not modelled. Timers fire by
  index, in any order.
- The host callbacks are assumed to be registered, as `main.jsx` always passes them. The
  `if (callback)` tests are not modelled.
- `speechSynthesis.speaking` is the platform's own state. It is a parameter of
  `SpeakResponse` and `Unmount`.
- Thrown and caught errors from `start`/`stop` ("already started") are not modelled.
  The call is recorded and the state does not change.
- `VoiceSession.SpeakResponse`: `Speak` records the text and voice, not `rate`, `pitch`
  and `volume`. These are floating-point values that are passed on unchanged.
- The sentiment is a JavaScript double in the source and a `real` here. No double lies
  strictly between 0.3 and its nearest double, nor between -0.3 and its nearest double,
  so every threshold comparison comes out the same. NaN is not representable here.
- `getMockResponse` (`main.jsx:53-65`) depends on `Math.random`. The reply is a
  parameter of `ChatApp.FireTimer`.
- The Three.js scene, camera, renderer, render loop, resize handling, GLTF network
  loading and progress logging (`AvatarComponent.jsx:18-139`) are not modelled. They are
  foreign library calls and I/O. A failed load never calls `Load`.
- The `disabled` attributes that limit which events the page offers are not modelled:
  - the microphone button, `disabled={!isEnabled || isSpeaking}` (`VoiceFeatures.jsx:268`);
  - the speaker button, `disabled={!isEnabled || !isSpeaking}` (`VoiceFeatures.jsx:279`);
  - the input box, `disabled={isLoading}` (`main.jsx:242`);
  - the Send button, `disabled={!input.trim() || isLoading}` (`main.jsx:247`).

  The model allows `ListenToggle`, `SpeakToggle`, `SetInput` and `HandleSubmit` at any
  time. This over-approximates the page. It is why `VoiceRules.DisabledStaysSilent`
  excludes `ListenToggle`, even though the page does not offer it while voice is
  disabled.
- The rest of the JSX markup, the inline styles and `ChatStyles.jsx` are not modelled.
  They are presentation only.
- Strings are sequences of Unicode scalar values, while JavaScript strings are UTF-16
  code units. `trim` removes only BMP characters, so the two agree for `Trim`.
  `includes` is applied only to ASCII needles.
