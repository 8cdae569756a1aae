# Speech-turn control of the language tutor

A Dafny model of the part of the language-tutor app that runs one spoken turn.

- **`SpeechService`** owns a recording session. It has a recognition state (`idle`, `recording`, `processing`, `error(message)`) and keeps the transcript of the latest recognizer hypothesis. A repeating 100 ms silence timer stops the recording once no meaningful new text has arrived for the auto-stop threshold. A change detector decides what counts as "meaningful". An error classifier separates routine recognizer errors from the ones shown to the user.
- **`ChatViewModel`** refuses to start a recording while the reply audio plays. It polls the service's state every 100 ms and, on the edge from `recording` to `processing`, appends the user's message and a "Thinking" placeholder. When the reply arrives, it replaces that placeholder.
- **`AutoStopConfigurationManager`** holds the auto-stop configuration. It offers three presets, computes the adaptive threshold and persists its settings through property observers.

Modules:

- `Basics` (`basics.dfy`): the Foundation string helpers the code relies on. These are white-space trimming, ASCII lower-casing and substring search.
- `AutoStop` (`autostop.dfy`): the configuration record, its presets, the adaptive threshold and the manager class over a key/value store.
- `Speech` (`speech.dfy`): the session. Each operation of the service is a transition function on a `Session` value. Every public operation and recognizer callback (each `Event` of `Speech.Apply`) preserves the invariant `Consistent`. The timer and cleanup helpers (`TimerStopped`, and the cleanup inside `Started` and `Stopped`) are intermediate steps that need not preserve it on their own. The class `SpeechService` has the service's fields, and each of its methods is proved to perform the corresponding transition.
- `Chat` (`chat.dfy`): the message log, the turn guard, one iteration of the observer loop and the class `ChatViewModel`. The class holds the service it drives.

Modelling choices:

- Clock readings are the `now` arguments, in seconds.
- Answers the platform gives are arguments too. These are the permission result, recognizer availability, the error thrown while starting audio, and recognizer results and errors.
- The scheduled timer is the flag `timerRunning`.
- Message identities are drawn from a counter, `nextId`, so each new message has a fresh identity.

Behaviour of the code worth knowing (the model follows the code):

- The maximum-duration check measures from the last transcript change, not from the start of the session. A tick therefore stops a recording exactly when the silence reaches the threshold, and a recording that keeps receiving new text is never cut off (`Speech.CeilingNeverDecides`).
- A hypothesis that is shorter and different, such as "Hello" after "Hello world", counts as activity (`Speech.GrowthAndCorrection`).
- `setQuickMode()` does not leave the quick preset in effect. Clearing the learning flag triggers its observer, which assigns the default preset.
- `SpeechService` keeps its own threshold (3 s) and its own 60 s ceiling. It never reads the configuration manager.
- When the recognizer becomes unavailable during a recording, the availability handler sets the error state and then calls `stopRecording()`, which immediately replaces it by `processing` or `idle`.

## Model

| member | source | states |
|---|---|---|
| Basics.Clamp | ist-ai-hack/Services/SpeechService.swift:334 | the result lies in [lo, hi]; it equals x inside the range and the nearer bound outside it |
| Basics.Trim | ist-ai-hack/Services/SpeechService.swift:308-309 | the trimmed string neither starts nor ends with white space and is no longer than the input |
| Basics.TrimOfTrimmed | ist-ai-hack/Services/SpeechService.swift:308-309 | a string without white space at its ends is its own trimming |
| Basics.TrimOfPadded | ist-ai-hack/Services/SpeechService.swift:308-309 | trimming any white-space padding around a trimmed string gives that string back |
| Basics.Lowercased | ist-ai-hack/Services/SpeechService.swift:144 | same length; every ASCII capital becomes its small letter, every other character is kept, and no capital is left |
| Basics.LowercasedConcat | ist-ai-hack/Services/SpeechService.swift:144 | lower-casing distributes over concatenation and is idempotent |
| Basics.Contains | ist-ai-hack/Services/SpeechService.swift:145-147 | true exactly when the substring occurs at some position |
| Basics.Prefix | ist-ai-hack/Services/AutoStopConfiguration.swift:42 | the first n characters, or the whole string when it is shorter; always a prefix of the string |
| Basics.ContainsOccurrence | ist-ai-hack/Services/SpeechService.swift:145-147 | a string contains every string that occurs in it |
| AutoStop.AdaptiveThreshold | ist-ai-hack/Services/AutoStopConfiguration.swift:30-52 | without adaptation the result is the threshold; with it, the result is capped at the maximum duration, is never below the threshold under that cap and at most 1.5 s above it |
| AutoStop.LengthBonus | ist-ai-hack/Services/AutoStopConfiguration.swift:37-39 | 1.0 exactly when the text is longer than 20 characters, otherwise 0 |
| AutoStop.LanguageBonus | ist-ai-hack/Services/AutoStopConfiguration.swift:42-49 | one of 0, 0.3 or 0.5, and 0 for a code shorter than two characters |
| AutoStop.AdaptiveBonuses | ist-ai-hack/Services/AutoStopConfiguration.swift:34-51 | the adaptive result is threshold + 1.0 (text longer than 20) + the language bonus, capped at the maximum duration |
| AutoStop.LanguageBonusByPrefix | ist-ai-hack/Services/AutoStopConfiguration.swift:42-49 | the bonus is 0.5 exactly for zh/ja/ko, 0.3 exactly for de/fi/hu and 0 for every other two-letter prefix |
| AutoStop.LanguageBonusOfRegionalCode | ist-ai-hack/Services/AutoStopConfiguration.swift:42 | a region suffix after the two-letter code does not change the bonus |
| AutoStop.AdaptiveMonotone | ist-ai-hack/Services/AutoStopConfiguration.swift:37-39 | the adaptive threshold never decreases as the text grows |
| AutoStop.PresetsInRange | ist-ai-hack/Services/AutoStopConfiguration.swift:9-28 | the three presets lie in the custom ranges; the quick preset always gives 1.5 s |
| AutoStop.CustomConfiguration | ist-ai-hack/Services/AutoStopConfiguration.swift:107-114 | flags pass through; the threshold is clamped to [0.5, 10] and the maximum duration to [10, 300] |
| AutoStop.CustomClampExamples | ist-ai-hack/Services/AutoStopConfiguration.swift:110-112 | a 20 s threshold is stored as 10 s; a 5 s maximum as 10 s |
| AutoStop.LoadConfiguration | ist-ai-hack/Services/AutoStopConfiguration.swift:78-84 | the default preset unless the key holds data that decodes, whose configuration is returned; a key holding data that decodes to `d` gives exactly `d` |
| AutoStop.StoredFlag | ist-ai-hack/Services/AutoStopConfiguration.swift:75 | true exactly when the key holds the boolean true; false when it is absent or holds anything else |
| AutoStop.SaveConfiguration | ist-ai-hack/Services/AutoStopConfiguration.swift:86-90 | only the configuration key is written, and loading afterwards gives the saved configuration |
| AutoStop.SaveThenLoad | ist-ai-hack/Services/AutoStopConfiguration.swift:78-90 | save then load round-trips; a later save overrides an earlier one; the learning flag is untouched |
| AutoStop.ConfigurationManager.constructor | ist-ai-hack/Services/AutoStopConfiguration.swift:73-76 | configuration and flag come from the store, and nothing is written back |
| AutoStop.ConfigurationManager.SetCurrentConfiguration | ist-ai-hack/Services/AutoStopConfiguration.swift:59-63 | the assignment stores the configuration and persists it |
| AutoStop.ConfigurationManager.UpdateConfigurationForMode | ist-ai-hack/Services/AutoStopConfiguration.swift:92-100 | the flag is persisted, then the learning or default preset is assigned and persisted |
| AutoStop.ConfigurationManager.SetLearningMode | ist-ai-hack/Services/AutoStopConfiguration.swift:65-69 | the mode's preset becomes current, and the store holds both the mode's preset and the flag |
| AutoStop.ConfigurationManager.SetQuickMode | ist-ai-hack/Services/AutoStopConfiguration.swift:102-105 | ends with learning off and the default preset current and stored; the quick preset is overwritten |
| AutoStop.ConfigurationManager.SetCustomConfiguration | ist-ai-hack/Services/AutoStopConfiguration.swift:107-114 | the clamped configuration becomes current and is persisted; the mode is unchanged |
| AutoStop.ConfigurationManager.EffectiveThreshold | ist-ai-hack/Services/AutoStopConfiguration.swift:116-118 | the adaptive threshold for the text's length; a short text without a language bonus gets the plain threshold |
| Speech.ErrorDescription | ist-ai-hack/Services/SpeechService.swift:353-368 | every error has a non-empty description |
| Speech.Initial | ist-ai-hack/Services/SpeechService.swift:15-35 | a new service is idle, not recording and consistent |
| Speech.HasTranscriptionChanged | ist-ai-hack/Services/SpeechService.swift:307-322 | activity exactly when the trimmed new text is non-empty and differs from the trimmed previous text; growth is always activity |
| Speech.PaddingIsNotActivity | ist-ai-hack/Services/SpeechService.swift:307-322 | changing only the white space around the same text is never activity |
| Speech.BlankIsNotActivity | ist-ai-hack/Services/SpeechService.swift:317 | a white-space-only result is never activity |
| Speech.GrowthAndCorrection | ist-ai-hack/Services/SpeechService.swift:312-319 | between two different non-empty trimmed texts, growth and shrinking are both activity |
| Speech.TrailingSpaceExample | ist-ai-hack/Services/SpeechService.swift:308-321 | "hello " after "hello" is not activity |
| Speech.ClassifyError | ist-ai-hack/Services/SpeechService.swift:128-158 | ignored exactly for codes 216/203 in the two speech domains; surfaced exactly when neither a known code nor a routine description matches; the no-speech codes go idle |
| Speech.IsRoutineDescription | ist-ai-hack/Services/SpeechService.swift:144-147 | true exactly when "no speech", "cancelled" or "timeout" occurs somewhere in the lower-cased description |
| Speech.CancelledIsRoutine | ist-ai-hack/Services/SpeechService.swift:143-152 | a description containing "cancelled" in any mix of cases sends the session idle unless the code is an ignored one |
| Speech.UnknownErrorIsSurfaced | ist-ai-hack/Services/SpeechService.swift:128-158 | an error outside the known codes whose lower-cased description contains none of the three phrases is surfaced |
| Speech.TimerStopped | ist-ai-hack/Services/SpeechService.swift:293-298 | the timer is not running, and remaining time and countdown are cleared; nothing else changes |
| Speech.TimerStarted | ist-ai-hack/Services/SpeechService.swift:261-267 | without auto-stop nothing changes; with it the timer runs with the full threshold remaining |
| Speech.TimerReset | ist-ai-hack/Services/SpeechService.swift:300-305 | only during an auto-stop recording: the last activity becomes now and the full threshold is restored and nothing else changes; consistency is kept |
| Speech.Stopped | ist-ai-hack/Services/SpeechService.swift:182-209 | no-op unless recording; otherwise not recording, timer stopped, Processing exactly when there is a transcript and Idle exactly when there is none; apart from the state and the live flag it is the timer-stopped session; consistency is kept |
| Speech.StopIdempotent | ist-ai-hack/Services/SpeechService.swift:183 | stopping twice is stopping once |
| Speech.Started | ist-ai-hack/Services/SpeechService.swift:63-180 | ignored while recording; a permissions error; a start error with the thrown description; or a fresh recording with empty transcript and snapshot and the timer running exactly when auto-stop is on; consistency is kept |
| Speech.ResultHandled | ist-ai-hack/Services/SpeechService.swift:107-120 | the transcript is replaced by the hypothesis; only a meaningful change moves the snapshot and resets the silence clock; a final result stops the recording; consistency is kept |
| Speech.ActivityNoted | ist-ai-hack/Services/SpeechService.swift:110-114 | without a meaningful change nothing changes; with one the timer is reset and the snapshot taken |
| Speech.ErrorHandled | ist-ai-hack/Services/SpeechService.swift:121-158 | an ignored error changes nothing; a routine one ends in Idle keeping the message; any other ends in Error("Recognition failed") with the description; no field other than the state, the message and the live flag changes; consistency is kept |
| Speech.Ticked | ist-ai-hack/Services/SpeechService.swift:268-289 | idle timer or session: no change; silence at the threshold stops the recording; shorter silence sets remaining to threshold minus silence, within [0, threshold], and raises the countdown at 1 s; consistency is kept |
| Speech.CeilingNeverDecides | ist-ai-hack/Services/SpeechService.swift:281-288 | a tick stops a consistent recording exactly when the silence has reached the threshold; the 60 s check never changes the outcome |
| Speech.Finalized | ist-ai-hack/Services/SpeechService.swift:244-250 | hands out the transcript and leaves it empty, the state Idle and no error message |
| Speech.FinalizeTwice | ist-ai-hack/Services/SpeechService.swift:244-250 | a second finalize returns "" and changes nothing more, so the utterance is delivered once |
| Speech.ErrorCleared | ist-ai-hack/Services/SpeechService.swift:252-257 | only an Error state is cleared, to Idle without message; afterwards the state is never Error |
| Speech.AutoStopEnabledSet | ist-ai-hack/Services/SpeechService.swift:324-331 | disabling stops the timer; enabling during a recording restarts it with the full threshold; otherwise only the flag changes |
| Speech.ThresholdSet | ist-ai-hack/Services/SpeechService.swift:333-338 | the threshold is clamped to [0.5, 10]; during an auto-stop recording the silence clock restarts now |
| Speech.AvailabilityChanged | ist-ai-hack/Services/SpeechService.swift:342-350 | losing the recognizer stops the session with the unavailable message; the error state remains only when nothing was recording |
| Speech.Apply | ist-ai-hack/Services/SpeechService.swift:63-350 | every public operation and recognizer callback preserves consistency |
| Speech.Run | ist-ai-hack/Services/SpeechService.swift:63-350 | any sequence of operations and callbacks from a consistent session ends consistent |
| Speech.PartialKeepsRecording | ist-ai-hack/Services/SpeechService.swift:107-117 | during an auto-stop recording a meaningful partial result restarts the silence clock at its arrival and keeps the recording and its state |
| Speech.TickBeforeThreshold | ist-ai-hack/Services/SpeechService.swift:270-283 | a tick before the silence reaches the threshold keeps the recording; the countdown is on once at most one second remains |
| Speech.ThreePartials | ist-ai-hack/Services/SpeechService.swift:107-117 | three growing trimmed partials during a fresh auto-stop recording keep it alive, consistent and without countdown, with the transcript the last partial and the silence clock at its arrival |
| Speech.SilenceStops | ist-ai-hack/Services/SpeechService.swift:268-289 | with a 3 s threshold, ticks at 1.9 s and 2.5 s of silence keep the recording (the second with the countdown on) and the tick at 3 s moves a recording with a transcript to Processing |
| Speech.UtteranceScenario | ist-ai-hack/Services/SpeechService.swift:107-120 | for any start time and any three growing trimmed partials, the recording stays alive, the countdown shows under one second, the tick at the threshold moves to Processing, and finalize delivers the last partial once |
| Speech.SpeechService.constructor | ist-ai-hack/Services/SpeechService.swift:15-40 | the fields of a new service, which are consistent |
| Speech.SpeechService.StartRecording | ist-ai-hack/Services/SpeechService.swift:63-180 | performs the start transition and keeps the fields consistent |
| Speech.SpeechService.BeginSession | ist-ai-hack/Services/SpeechService.swift:171-179 | the session is live with empty buffers and `now` as last activity, and the timer is started |
| Speech.SpeechService.CleanupRecognition | ist-ai-hack/Services/SpeechService.swift:225-236 | timer stopped and session not live |
| Speech.SpeechService.StopRecording | ist-ai-hack/Services/SpeechService.swift:182-209 | performs the stop transition and keeps consistency |
| Speech.SpeechService.FinalizeSpeech | ist-ai-hack/Services/SpeechService.swift:244-250 | returns the transcript and performs the finalize transition |
| Speech.SpeechService.ClearError | ist-ai-hack/Services/SpeechService.swift:252-257 | performs the clear-error transition |
| Speech.SpeechService.OnRecognitionResult | ist-ai-hack/Services/SpeechService.swift:107-120 | performs the result transition |
| Speech.SpeechService.NoteActivity | ist-ai-hack/Services/SpeechService.swift:110-114 | performs the change-detection step |
| Speech.SpeechService.OnRecognitionError | ist-ai-hack/Services/SpeechService.swift:121-158 | performs the error transition |
| Speech.SpeechService.StartAutoStopTimer | ist-ai-hack/Services/SpeechService.swift:261-267 | performs the timer start |
| Speech.SpeechService.Tick | ist-ai-hack/Services/SpeechService.swift:268-289 | performs one timer firing and keeps consistency |
| Speech.SpeechService.StopAutoStopTimer | ist-ai-hack/Services/SpeechService.swift:293-298 | performs the timer stop |
| Speech.SpeechService.ResetAutoStopTimer | ist-ai-hack/Services/SpeechService.swift:300-305 | performs the timer reset |
| Speech.SpeechService.SetAutoStopEnabled | ist-ai-hack/Services/SpeechService.swift:324-331 | performs the enable/disable transition |
| Speech.SpeechService.SetAutoStopThreshold | ist-ai-hack/Services/SpeechService.swift:333-338 | performs the threshold transition |
| Speech.SpeechService.AvailabilityDidChange | ist-ai-hack/Services/SpeechService.swift:342-350 | performs the availability transition |
| Chat.InitialView | ist-ai-hack/ViewModels/ChatViewModel.swift:6-8 | an empty, well-formed log with idle as the last processed state |
| Chat.MessageAppended | ist-ai-hack/Models/ChatMessage.swift:3-13 | the log gains exactly one message with a fresh identity at the end; identities stay unique |
| Chat.AIMessageAdded | ist-ai-hack/ViewModels/ChatViewModel.swift:55-58 | one assistant message appended at the end |
| Chat.ResponseRequested | ist-ai-hack/ViewModels/ChatViewModel.swift:60-62 | the "Thinking" placeholder appended at the end |
| Chat.UserMessageAdded | ist-ai-hack/ViewModels/ChatViewModel.swift:48-53 | the user message and then the placeholder are appended; the earlier log is unchanged |
| Chat.FirstIndexOf | ist-ai-hack/ViewModels/ChatViewModel.swift:68 | the index of the first message with the identity, or none when no message has it |
| Chat.RemovedById | ist-ai-hack/ViewModels/ChatViewModel.swift:68-70 | one message fewer exactly when the identity occurs, and no new messages |
| Chat.RemovedIsWithout | ist-ai-hack/ViewModels/ChatViewModel.swift:68-70 | with unique identities, removing the first match equals filtering that identity out, others kept in order |
| Chat.ReplyDelivered | ist-ai-hack/ViewModels/ChatViewModel.swift:67-72 | one identity is drawn and the last processed state is unchanged; its log is given by `Chat.ReplyReplacesPlaceholder` |
| Chat.ReplyReplacesPlaceholder | ist-ai-hack/ViewModels/ChatViewModel.swift:64-73 | the log becomes the old log without the placeholder, followed by the reply; identities stay unique |
| Chat.TurnLog | ist-ai-hack/ViewModels/ChatViewModel.swift:48-73 | after a full turn the log is the old log, the user message and the reply, with the placeholder gone |
| Chat.WithoutAbsent | ist-ai-hack/ViewModels/ChatViewModel.swift:68-70 | removing an identity that is not present changes nothing |
| Chat.TurnStarted | ist-ai-hack/ViewModels/ChatViewModel.swift:33-42 | refused while audio plays; otherwise errors are cleared and the service started; consistency is kept |
| Chat.FinalText | ist-ai-hack/ViewModels/ChatViewModel.swift:98-100 | the live transcription when it is non-empty, else the service transcript; empty exactly when both are |
| Chat.EdgeHandled | ist-ai-hack/ViewModels/ChatViewModel.swift:87-112 | handling a state change keeps the log well-formed and the service consistent |
| Chat.Observed | ist-ai-hack/ViewModels/ChatViewModel.swift:82-120 | one poll keeps the log well-formed and the service consistent |
| Chat.ObservedEdgeTriggered | ist-ai-hack/ViewModels/ChatViewModel.swift:86-114 | an unchanged state appends nothing and touches nothing; a changed state becomes the last processed one |
| Chat.ProcessingEdge | ist-ai-hack/ViewModels/ChatViewModel.swift:94-108 | on the Recording to Processing edge, a non-empty final text appends exactly the user message and placeholder and finalizes the service; an empty one appends nothing |
| Chat.OtherEdges | ist-ai-hack/ViewModels/ChatViewModel.swift:86-120 | every other change appends nothing and leaves the service alone; entering Error or Idle clears the live transcription when the service is not recording |
| Chat.PollTwiceAppendsOnce | ist-ai-hack/ViewModels/ChatViewModel.swift:86-114 | a second poll with no service event in between never appends |
| Chat.LiveTranscriptionMirrored | ist-ai-hack/ViewModels/ChatViewModel.swift:116-120 | during a recording with text a poll shows the service's transcript and appends nothing |
| Chat.ChatViewModel.constructor | ist-ai-hack/ViewModels/ChatViewModel.swift:5-18 | an empty log and a new service |
| Chat.ChatViewModel.StartRecording | ist-ai-hack/ViewModels/ChatViewModel.swift:33-42 | performs the guarded turn start on the service |
| Chat.ChatViewModel.StopRecording | ist-ai-hack/ViewModels/ChatViewModel.swift:44-46 | performs the service's stop |
| Chat.ChatViewModel.AddUserMessage | ist-ai-hack/ViewModels/ChatViewModel.swift:48-53 | appends the user message and placeholder and returns the placeholder's identity |
| Chat.ChatViewModel.AddAIMessage | ist-ai-hack/ViewModels/ChatViewModel.swift:55-58 | appends the assistant message; a well-formed view stays well-formed |
| Chat.ChatViewModel.GenerateAIResponse | ist-ai-hack/ViewModels/ChatViewModel.swift:60-62 | appends the placeholder and returns its identity |
| Chat.ChatViewModel.DeliverResponse | ist-ai-hack/ViewModels/ChatViewModel.swift:67-72 | removes the placeholder by identity and appends the reply; a well-formed view stays well-formed |
| Chat.ChatViewModel.ObserveStep | ist-ai-hack/ViewModels/ChatViewModel.swift:82-120 | performs one poll on the log and the service; a dispatched turn leaves its placeholder last in the log |
| Chat.ChatViewModel.HandleEdge | ist-ai-hack/ViewModels/ChatViewModel.swift:87-112 | performs the state-change handling |
| Chat.ChatViewModel.SendTranscription | ist-ai-hack/ViewModels/ChatViewModel.swift:96-108 | performs the Recording to Processing handling; a dispatched turn leaves its placeholder last |

## Left out

- Audio: the audio session, engine, input tap and recognition request are not modelled. Their only effects on the state are a start that throws (the `audioError` argument) and recognizer callbacks (results and errors as operations).
- Platform answers: permission prompts and recognizer availability are inputs to the start operation.
- Concurrency: the `Task`/`MainActor` hops are not modelled. Operations run one at a time on the main context, so the window between the permission prompt and the start is not modelled. In particular, a timer firing already queued when `stopAutoStopTimer()` invalidates the timer still runs the tick body, which checks only `isRecording` (ist-ai-hack/Services/SpeechService.swift:269-270); `Speech.Ticked` requires the timer to be scheduled and so excludes that firing.
- The observer loop is modelled as one iteration (`Chat.Observed`, `ObserveStep`), without its 100 ms sleep and without running forever.
- The network: the reply request and speech synthesis in `generateAIResponse` (`OpenAIService`, `ElevenLabsService`) are not modelled. The reply text is an argument of `DeliverResponse`, and whether audio is playing is an argument of `StartRecording`.
- `validateAPIKey` and `apiKeyValidationError` of the view model are left out: they only call the network.
- Speech.Ticked: both clock readings in one timer firing are taken as the same instant `now`.
- Times and thresholds (`TimeInterval`, a `Double` in ist-ai-hack/Services/SpeechService.swift:22-23, 35 and ist-ai-hack/Services/AutoStopConfiguration.swift) are exact `real`s. Sums such as a +0.3 language bonus and the `>=` comparison at exactly the threshold are rounded in the source and exact in the model. No behaviour of the core depends on that rounding.
- The `print` logging in the recognition-error handler (ist-ai-hack/Services/SpeechService.swift:125-155) is console output only and is not modelled.
- Basics.Lowercased: lower-cases ASCII letters only, not the full Unicode mapping that `lowercased()` performs.
- Character counts (`count`) are sequence lengths of code points, not grapheme clusters. Likewise, `==`/`!=` in `Speech.HasTranscriptionChanged` and `contains` in `Basics.Contains` compare code points, whereas Swift compares `Character`s up to canonical equivalence.
- `cancelRecognition()` is never called, so it is not modelled.
- Speech.Started: the `requestCreationFailed` error cannot arise, because request creation cannot fail, so it is not a separate input.
- A recognition task created before the audio engine failed to start could still deliver callbacks; callbacks are modelled as independent operations.
- The key/value store and the JSON coding are an abstract map from keys to stored values. Data that does not decode is a stored value without a configuration, and encoding never fails.
- The configuration manager is a shared singleton; the model has an ordinary class with its store as a field.
- The SwiftUI views, the settings screen and onboarding are not part of this model.
