/** The recording-session state machine of `SpeechService`: the recognition
    state, the transcript buffers, the silence auto-stop timer, the change
    detector and the recognition-error classifier.

    Each operation is a transition function on the `Session` value (all of the
    service's observable fields); the class `SpeechService` keeps the same
    fields and each of its methods is proved to perform that transition.
    Clock readings are the `now` arguments, in seconds; platform outcomes
    (permissions, recognizer availability, a thrown audio error, recognizer
    callbacks) are arguments too. */
module Speech {
  import opened Basics

  datatype RecognitionState = Idle | Recording | Processing | Error(message: string)

  datatype SpeechError = RecognizerUnavailable | RequestCreationFailed | AudioSessionFailed

  /** `SpeechError.errorDescription`. */
  function ErrorDescription(e: SpeechError): (d: string)
    ensures d != ""
  {
    match e
    case RecognizerUnavailable => "Speech recognizer is not available"
    case RequestCreationFailed => "Failed to create speech recognition request"
    case AudioSessionFailed => "Failed to configure audio session"
  }

  /** The service's fixed safety ceiling, in seconds. */
  const MaxRecordingDuration: real := 60.0
  const PermissionsHint := "Please enable microphone and speech recognition permissions in Settings"
  const UnavailableHint := "Speech recognition is temporarily unavailable"

  /** The observable fields of `SpeechService`; `timerRunning` says whether
      the repeating silence timer is scheduled. */
  datatype Session = Session(
    isRecording: bool,
    transcribedText: string,
    recognitionState: RecognitionState,
    errorMessage: Option<string>,
    autoStopEnabled: bool,
    autoStopThreshold: real,
    remainingTime: real,
    isAutoStopCountdown: bool,
    timerRunning: bool,
    lastTranscriptionUpdate: real,
    previousTranscriptionText: string)

  /** The invariant every public operation and recognizer callback keeps
      (the timer and cleanup helpers are intermediate steps that need not):
      the threshold stays in its clamp range; only a live session is in
      `Recording`, and a `Processing` or `Error` state never is one; a live
      session with auto-stop enabled has its timer scheduled; a stopped timer
      shows no remaining time and no countdown. */
  predicate Consistent(s: Session) {
    && 0.5 <= s.autoStopThreshold <= 10.0
    && 0.0 <= s.remainingTime
    && (s.recognitionState == Recording ==> s.isRecording)
    && (s.recognitionState == Processing || s.recognitionState.Error? ==> !s.isRecording)
    && (s.autoStopEnabled && s.isRecording ==> s.timerRunning)
    && (s.timerRunning ==> s.autoStopEnabled)
    && (!s.timerRunning ==> s.remainingTime == 0.0 && !s.isAutoStopCountdown)
  }

  /** A freshly created service, `now` being the creation time. */
  function Initial(now: real): (s: Session)
    ensures Consistent(s) && !s.isRecording && s.recognitionState == Idle
  {
    Session(false, "", Idle, None, true, 3.0, 0.0, false, false, now, "")
  }

  // ---------------------------------------------------------------------------
  // Change detector

  /** `hasTranscriptionChanged`: after trimming white space at both ends, a
      partial result is new activity exactly when it is non-empty and differs
      from the previous snapshot (growth, or a correction of the same length
      or shorter). */
  function HasTranscriptionChanged(newText: string, previousText: string): (r: bool)
    ensures r <==> Trim(newText) != "" && Trim(newText) != Trim(previousText)
    ensures |Trim(newText)| > |Trim(previousText)| ==> r
    ensures Trim(newText) == Trim(previousText) ==> !r
  {
    var normalizedNew := Trim(newText);
    var normalizedPrevious := Trim(previousText);
    if |normalizedNew| > |normalizedPrevious| then true
    else if normalizedNew != normalizedPrevious && normalizedNew != "" then true
    else false
  }

  /** Adding or removing white space around a snapshot is never activity. */
  lemma PaddingIsNotActivity(pre: string, core: string, post: string, pre': string, post': string)
    requires AllWhitespace(pre) && AllWhitespace(post) && AllWhitespace(pre') && AllWhitespace(post')
    requires Trimmed(core)
    ensures !HasTranscriptionChanged(pre + core + post, pre' + core + post')
  {
    TrimOfPadded(pre, core, post);
    TrimOfPadded(pre', core, post');
  }

  /** A result that is white space only is never activity. */
  lemma BlankIsNotActivity(blank: string, previousText: string)
    requires AllWhitespace(blank)
    ensures !HasTranscriptionChanged(blank, previousText)
  {
    TrimOfPadded(blank, [], []);
    assert blank + [] + [] == blank;
  }

  /** Growth counts as activity, and so does a shorter hypothesis that
      differs (a correction), such as "Hello" after "Hello world". */
  lemma GrowthAndCorrection(shorter: string, longer: string)
    requires Trimmed(shorter) && Trimmed(longer)
    requires shorter != [] && |shorter| < |longer|
    ensures HasTranscriptionChanged(longer, shorter)
    ensures HasTranscriptionChanged(shorter, longer)
  {
    TrimOfTrimmed(shorter);
    TrimOfTrimmed(longer);
  }

  /** Trailing white space alone is no activity. */
  lemma TrailingSpaceExample()
    ensures !HasTranscriptionChanged("hello ", "hello")
  {
    var core := "hello";
    TrimOfTrimmed(core);
    TrimEndOfPadded(core, [' ']);
    assert core + [' '] == "hello ";
    TrimStartOfPadded([], "hello ");
    assert [] + "hello " == "hello ";
  }

  // ---------------------------------------------------------------------------
  // Error classifier

  /** What the recognition callback does with an error. */
  datatype ErrorDisposition = Ignored | WentIdle | Surfaced

  predicate IsSpeechDomain(domain: string) {
    domain == "kAFAssistantErrorDomain" || domain == "SpeechRecognitionErrorDomain"
  }

  /** The description fallback: a routine error mentions no speech, a
      cancellation or a timeout in its lower-cased description. */
  predicate IsRoutineDescription(description: string): (r: bool)
    ensures r <==> exists i :: OccursAt(Lowercased(description), "no speech", i)
                             || OccursAt(Lowercased(description), "cancelled", i)
                             || OccursAt(Lowercased(description), "timeout", i)
  {
    var lowered := Lowercased(description);
    Contains(lowered, "no speech") || Contains(lowered, "cancelled") || Contains(lowered, "timeout")
  }

  /** The classifier of the recognition callback: codes first, in the two
      speech domains (216 and 203 are cancellations and ignored; 1107, 300,
      301 and 302 mean no speech), then the description fallback; all other
      errors are surfaced. */
  function ClassifyError(domain: string, code: int, description: string): (d: ErrorDisposition)
    ensures d == Ignored <==> IsSpeechDomain(domain) && code in {216, 203}
    ensures d == Surfaced <==>
      !(IsSpeechDomain(domain) && code in {216, 203, 1107, 300, 301, 302}) && !IsRoutineDescription(description)
    ensures IsSpeechDomain(domain) && code in {1107, 300, 301, 302} ==> d == WentIdle
  {
    if IsSpeechDomain(domain) && (code == 216 || code == 203) then Ignored
    else if IsSpeechDomain(domain) && (code == 1107 || code == 300 || code == 301 || code == 302) then WentIdle
    else if IsRoutineDescription(description) then WentIdle
    else Surfaced
  }

  /** Any error whose description mentions a cancellation, in any mix of
      upper and lower case, and whose code is not one of the ignored ones,
      is routine. */
  lemma CancelledIsRoutine(domain: string, code: int, pre: string, word: string, post: string)
    requires Lowercased(word) == "cancelled"
    requires !(IsSpeechDomain(domain) && code in {216, 203})
    ensures ClassifyError(domain, code, pre + word + post) == WentIdle
  {
    LowercasedConcat(pre + word, post);
    LowercasedConcat(pre, word);
    ContainsOccurrence(Lowercased(pre), "cancelled", Lowercased(post));
  }

  /** An error outside the known codes whose description mentions none of
      the three phrases at any position is surfaced to the user. */
  lemma UnknownErrorIsSurfaced(domain: string, code: int, description: string)
    requires !(IsSpeechDomain(domain) && code in {216, 203, 1107, 300, 301, 302})
    requires forall i :: !OccursAt(Lowercased(description), "no speech", i)
    requires forall i :: !OccursAt(Lowercased(description), "cancelled", i)
    requires forall i :: !OccursAt(Lowercased(description), "timeout", i)
    ensures ClassifyError(domain, code, description) == Surfaced
  {
  }

  // ---------------------------------------------------------------------------
  // Timer helpers

  /** `stopAutoStopTimer()`. */
  function TimerStopped(s: Session): (r: Session)
    ensures !r.timerRunning && r.remainingTime == 0.0 && !r.isAutoStopCountdown
    ensures r.(timerRunning := s.timerRunning, remainingTime := s.remainingTime, isAutoStopCountdown := s.isAutoStopCountdown) == s
  {
    s.(timerRunning := false, remainingTime := 0.0, isAutoStopCountdown := false)
  }

  /** `startAutoStopTimer()`: with auto-stop enabled, (re)schedules the timer
      with the full threshold remaining; otherwise changes nothing. */
  function TimerStarted(s: Session): (r: Session)
    ensures !s.autoStopEnabled ==> r == s
    ensures s.autoStopEnabled ==> r.timerRunning && r.remainingTime == s.autoStopThreshold && !r.isAutoStopCountdown
    ensures r.isRecording == s.isRecording && r.recognitionState == s.recognitionState
    ensures r.lastTranscriptionUpdate == s.lastTranscriptionUpdate
  {
    if !s.autoStopEnabled then s
    else TimerStopped(s).(remainingTime := s.autoStopThreshold, isAutoStopCountdown := false, timerRunning := true)
  }

  /** `resetAutoStopTimer()`: only with auto-stop enabled during a recording,
      marks `now` as the last activity and restores the full threshold. */
  function TimerReset(s: Session, now: real): (r: Session)
    ensures !(s.autoStopEnabled && s.isRecording) ==> r == s
    ensures s.autoStopEnabled && s.isRecording ==>
      r.lastTranscriptionUpdate == now && r.remainingTime == s.autoStopThreshold && !r.isAutoStopCountdown
    ensures s.autoStopEnabled && s.isRecording ==>
      r.(lastTranscriptionUpdate := s.lastTranscriptionUpdate, remainingTime := s.remainingTime,
         isAutoStopCountdown := s.isAutoStopCountdown) == s
    ensures Consistent(s) ==> Consistent(r)
  {
    if !(s.autoStopEnabled && s.isRecording) then s
    else s.(lastTranscriptionUpdate := now, remainingTime := s.autoStopThreshold, isAutoStopCountdown := false)
  }

  // ---------------------------------------------------------------------------
  // Session operations

  /** The state `stopRecording()` leaves behind. */
  function StoppedState(transcribedText: string): RecognitionState {
    if transcribedText != "" then Processing else Idle
  }

  /** `stopRecording()`: a no-op unless recording; otherwise the timer is
      stopped, the session is no longer live, and it goes to `Processing`
      when there is a transcript and to `Idle` when there is none. */
  function Stopped(s: Session): (r: Session)
    ensures !s.isRecording ==> r == s
    ensures !r.isRecording
    ensures s.isRecording ==> !r.timerRunning && r.remainingTime == 0.0 && !r.isAutoStopCountdown
    ensures s.isRecording ==> (r.recognitionState == Processing <==> s.transcribedText != "")
    ensures s.isRecording ==> (r.recognitionState == Idle <==> s.transcribedText == "")
    ensures r.transcribedText == s.transcribedText && r.errorMessage == s.errorMessage
    ensures s.isRecording ==> r.(isRecording := true, recognitionState := s.recognitionState) == TimerStopped(s)
    ensures Consistent(s) ==> Consistent(r)
  {
    if !s.isRecording then s
    else TimerStopped(s).(isRecording := false, recognitionState := StoppedState(s.transcribedText))
  }

  /** Stopping twice is stopping once. */
  lemma StopIdempotent(s: Session)
    ensures Stopped(Stopped(s)) == Stopped(s)
  {
  }

  /** `startRecording()` with the platform's answers as arguments: whether
      both permissions were granted, whether the recognizer is available, and
      the description of the error the audio session or engine threw, if any. */
  function Started(s: Session, granted: bool, recognizerAvailable: bool, audioError: Option<string>, now: real): (r: Session)
    ensures s.isRecording ==> r == s
    ensures !s.isRecording && !granted ==>
      r.recognitionState == Error("Permissions not granted") && r.errorMessage == Some(PermissionsHint)
      && r.(recognitionState := s.recognitionState, errorMessage := s.errorMessage) == s
    ensures !s.isRecording && granted && (!recognizerAvailable || audioError.Some?) ==>
      r.recognitionState == Error("Failed to start recording") && !r.isRecording && !r.timerRunning
      && r.errorMessage == Some(if !recognizerAvailable then ErrorDescription(RecognizerUnavailable) else audioError.value)
      && r.(recognitionState := s.recognitionState, errorMessage := s.errorMessage) == TimerStopped(s)
    ensures !s.isRecording && granted && recognizerAvailable && audioError.None? ==>
      r.isRecording && r.recognitionState == Recording && r.transcribedText == ""
      && r.previousTranscriptionText == "" && r.errorMessage == None && r.lastTranscriptionUpdate == now
      && (r.timerRunning <==> r.autoStopEnabled)
      && (r.autoStopEnabled ==> r.remainingTime == r.autoStopThreshold && !r.isAutoStopCountdown)
    ensures r.autoStopEnabled == s.autoStopEnabled && r.autoStopThreshold == s.autoStopThreshold
    ensures Consistent(s) ==> Consistent(r)
  {
    if s.isRecording then s
    else if !granted then
      s.(recognitionState := Error("Permissions not granted"), errorMessage := Some(PermissionsHint))
    else
      var cleaned := TimerStopped(s).(isRecording := false);
      if !recognizerAvailable then
        cleaned.(recognitionState := Error("Failed to start recording"),
                 errorMessage := Some(ErrorDescription(RecognizerUnavailable)))
      else if audioError.Some? then
        cleaned.(recognitionState := Error("Failed to start recording"), errorMessage := Some(audioError.value))
      else
        TimerStarted(cleaned.(isRecording := true, recognitionState := Recording, transcribedText := "",
                              errorMessage := None, previousTranscriptionText := "",
                              lastTranscriptionUpdate := now))
  }

  /** The partial/final result handler: the transcript becomes the latest
      hypothesis (it is replaced, not appended to); only a meaningful change
      resets the timer and updates the change detector's snapshot; a final
      result stops the recording. */
  function ResultHandled(s: Session, newText: string, isFinal: bool, now: real): (r: Session)
    ensures r.transcribedText == newText
    ensures r.previousTranscriptionText ==
      if HasTranscriptionChanged(newText, s.previousTranscriptionText) then newText else s.previousTranscriptionText
    ensures r.lastTranscriptionUpdate ==
      if HasTranscriptionChanged(newText, s.previousTranscriptionText) && s.autoStopEnabled && s.isRecording
      then now else s.lastTranscriptionUpdate
    ensures !isFinal && HasTranscriptionChanged(newText, s.previousTranscriptionText) && s.autoStopEnabled && s.isRecording ==>
      r.isRecording && r.remainingTime == s.autoStopThreshold && !r.isAutoStopCountdown
    ensures !isFinal && !HasTranscriptionChanged(newText, s.previousTranscriptionText) ==>
      r.remainingTime == s.remainingTime && r.isAutoStopCountdown == s.isAutoStopCountdown
    ensures !isFinal ==> r.isRecording == s.isRecording && r.recognitionState == s.recognitionState
    ensures isFinal ==> !r.isRecording
    ensures isFinal && s.isRecording ==> r.recognitionState == StoppedState(newText)
    ensures r.autoStopEnabled == s.autoStopEnabled && r.autoStopThreshold == s.autoStopThreshold
    ensures Consistent(s) ==> Consistent(r)
  {
    var updated := ActivityNoted(s, newText, now).(transcribedText := newText);
    if isFinal then Stopped(updated) else updated
  }

  /** The change detection of the result handler: on a meaningful change the
      timer is reset and the snapshot for the next comparison is taken. */
  function ActivityNoted(s: Session, newText: string, now: real): (r: Session)
    ensures !HasTranscriptionChanged(newText, s.previousTranscriptionText) ==> r == s
    ensures HasTranscriptionChanged(newText, s.previousTranscriptionText) ==>
      r == TimerReset(s, now).(previousTranscriptionText := newText)
    ensures Consistent(s) ==> Consistent(r)
  {
    if HasTranscriptionChanged(newText, s.previousTranscriptionText)
    then TimerReset(s, now).(previousTranscriptionText := newText)
    else s
  }

  /** The error handler: an ignored error changes nothing; a routine one
      ends the session silently in `Idle`; any other ends it in
      `Error("Recognition failed")` with the description as the message. */
  function ErrorHandled(s: Session, domain: string, code: int, description: string): (r: Session)
    ensures ClassifyError(domain, code, description) == Ignored ==> r == s
    ensures ClassifyError(domain, code, description) != Ignored ==>
      !r.isRecording && r.transcribedText == s.transcribedText && r.timerRunning == s.timerRunning
    ensures ClassifyError(domain, code, description) == WentIdle ==>
      r.recognitionState == Idle && r.errorMessage == s.errorMessage
    ensures ClassifyError(domain, code, description) == Surfaced ==>
      r.recognitionState == Error("Recognition failed") && r.errorMessage == Some(description)
    ensures r.(recognitionState := s.recognitionState, errorMessage := s.errorMessage, isRecording := s.isRecording) == s
    ensures Consistent(s) ==> Consistent(r)
  {
    match ClassifyError(domain, code, description)
    case Ignored => s
    case WentIdle => s.(recognitionState := Idle, isRecording := false)
    case Surfaced =>
      s.(recognitionState := Error("Recognition failed"), errorMessage := Some(description), isRecording := false)
  }

  /** One firing of the 100 ms silence timer at time `now`. Nothing happens
      unless the timer is scheduled and the session is recording. Otherwise
      the remaining time is the threshold minus the time since the last
      activity, floored at zero; the countdown flag comes on once at most one
      second remains; the recording stops once the silence reaches the
      threshold, or once it exceeds the maximum duration, both measured from
      the last activity. */
  function Ticked(s: Session, now: real): (r: Session)
    ensures !(s.timerRunning && s.isRecording) ==> r == s
    ensures s.timerRunning && s.isRecording && now - s.lastTranscriptionUpdate >= s.autoStopThreshold ==>
      !r.isRecording && !r.timerRunning && r.recognitionState == StoppedState(s.transcribedText)
    ensures s.timerRunning && s.isRecording && now - s.lastTranscriptionUpdate < s.autoStopThreshold
            && now - s.lastTranscriptionUpdate <= MaxRecordingDuration ==>
      r.isRecording && r.remainingTime == s.autoStopThreshold - (now - s.lastTranscriptionUpdate)
      && (r.isAutoStopCountdown <==> s.isAutoStopCountdown || r.remainingTime <= 1.0)
      && r.recognitionState == s.recognitionState
    ensures Consistent(s) && s.timerRunning && s.isRecording && now >= s.lastTranscriptionUpdate ==>
      0.0 <= r.remainingTime <= s.autoStopThreshold
    ensures r.transcribedText == s.transcribedText && r.lastTranscriptionUpdate == s.lastTranscriptionUpdate
    ensures r.autoStopEnabled == s.autoStopEnabled && r.autoStopThreshold == s.autoStopThreshold
    ensures Consistent(s) ==> Consistent(r)
  {
    if !(s.timerRunning && s.isRecording) then s
    else
      var elapsed := now - s.lastTranscriptionUpdate;
      var counted := s.(remainingTime := Max(0.0, s.autoStopThreshold - elapsed));
      var flagged := if counted.remainingTime <= 1.0 && !counted.isAutoStopCountdown
                     then counted.(isAutoStopCountdown := true) else counted;
      var silenced := if elapsed >= flagged.autoStopThreshold then Stopped(flagged) else flagged;
      if now - silenced.lastTranscriptionUpdate > MaxRecordingDuration then Stopped(silenced) else silenced
  }

  /** Because the ceiling is measured from the last activity and the
      threshold is at most 10 s, a tick stops a consistent recording exactly
      when the silence has reached the threshold: the maximum-duration check
      never decides, and a recording whose partial results keep arriving is
      never cut off. */
  lemma CeilingNeverDecides(s: Session, now: real)
    requires Consistent(s) && s.timerRunning && s.isRecording
    ensures Ticked(s, now).isRecording <==> now - s.lastTranscriptionUpdate < s.autoStopThreshold
  {
  }

  /** `finalizeSpeech()`: hands out the transcript and clears it, the state
      and the error message. */
  function Finalized(s: Session): (r: (string, Session))
    ensures r.0 == s.transcribedText
    ensures r.1.transcribedText == "" && r.1.recognitionState == Idle && r.1.errorMessage == None
    ensures r.1.isRecording == s.isRecording && r.1.timerRunning == s.timerRunning
    ensures Consistent(s) ==> Consistent(r.1)
  {
    (s.transcribedText, s.(transcribedText := "", recognitionState := Idle, errorMessage := None))
  }

  /** Finalizing twice delivers the utterance once: the second call gives "". */
  lemma FinalizeTwice(s: Session)
    ensures Finalized(s).0 == s.transcribedText
    ensures Finalized(Finalized(s).1).0 == ""
    ensures Finalized(Finalized(s).1).1 == Finalized(s).1
  {
  }

  /** `clearError()`: only an `Error` state is cleared, to `Idle`. */
  function ErrorCleared(s: Session): (r: Session)
    ensures !s.recognitionState.Error? ==> r == s
    ensures s.recognitionState.Error? ==> r.recognitionState == Idle && r.errorMessage == None
    ensures !r.recognitionState.Error?
    ensures r.isRecording == s.isRecording && r.transcribedText == s.transcribedText
    ensures Consistent(s) ==> Consistent(r)
  {
    if s.recognitionState.Error? then s.(recognitionState := Idle, errorMessage := None) else s
  }

  /** `setAutoStopEnabled(_:)`: disabling stops the timer; enabling during a
      recording (re)starts it. */
  function AutoStopEnabledSet(s: Session, enabled: bool): (r: Session)
    ensures r.autoStopEnabled == enabled
    ensures !enabled ==> !r.timerRunning && r.remainingTime == 0.0 && !r.isAutoStopCountdown
    ensures enabled && s.isRecording ==> r.timerRunning && r.remainingTime == s.autoStopThreshold && !r.isAutoStopCountdown
    ensures enabled && !s.isRecording ==> r == s.(autoStopEnabled := true)
    ensures r.isRecording == s.isRecording && r.recognitionState == s.recognitionState
    ensures Consistent(s) ==> Consistent(r)
  {
    var updated := s.(autoStopEnabled := enabled);
    if !enabled then TimerStopped(updated)
    else if updated.isRecording then TimerStarted(updated)
    else updated
  }

  /** `setAutoStopThreshold(_:)`: stores the threshold clamped to
      [0.5, 10] seconds and, during a recording, resets the timer. */
  function ThresholdSet(s: Session, threshold: real, now: real): (r: Session)
    ensures 0.5 <= r.autoStopThreshold <= 10.0
    ensures 0.5 <= threshold <= 10.0 ==> r.autoStopThreshold == threshold
    ensures threshold < 0.5 ==> r.autoStopThreshold == 0.5
    ensures threshold > 10.0 ==> r.autoStopThreshold == 10.0
    ensures s.isRecording && s.autoStopEnabled ==>
      r.lastTranscriptionUpdate == now && r.remainingTime == r.autoStopThreshold
    ensures !s.isRecording ==> r == s.(autoStopThreshold := r.autoStopThreshold)
    ensures Consistent(s) ==> Consistent(r)
  {
    var updated := s.(autoStopThreshold := Clamp(0.5, 10.0, threshold));
    if updated.isRecording then TimerReset(updated, now) else updated
  }

  /** The recognizer delegate's availability handler. Losing the recognizer
      sets the error and then stops the recording; during a recording the
      stop replaces the error state by `Processing` or `Idle`, so the error
      state is seen only when nothing was recording. */
  function AvailabilityChanged(s: Session, available: bool): (r: Session)
    ensures available ==> r == s
    ensures !available ==> !r.isRecording && r.errorMessage == Some(UnavailableHint)
    ensures !available && !s.isRecording ==> r.recognitionState == Error("Speech recognizer unavailable")
    ensures !available && s.isRecording ==> r.recognitionState == StoppedState(s.transcribedText)
    ensures Consistent(s) ==> Consistent(r)
  {
    if available then s
    else Stopped(s.(recognitionState := Error("Speech recognizer unavailable"), errorMessage := Some(UnavailableHint)))
  }

  // ---------------------------------------------------------------------------
  // Runs of operations

  /** One call into the service, or one callback it receives, on its single
      coordination context. */
  datatype Event =
    | StartRequested(granted: bool, recognizerAvailable: bool, audioError: Option<string>, startedAt: real)
    | StopRequested
    | FinalizeRequested
    | ClearErrorRequested
    | PartialResult(text: string, isFinal: bool, receivedAt: real)
    | RecognitionError(domain: string, code: int, description: string)
    | TimerFired(firedAt: real)
    | AutoStopEnabledChanged(enabled: bool)
    | AutoStopThresholdChanged(threshold: real, changedAt: real)
    | RecognizerAvailability(available: bool)

  function Apply(s: Session, e: Event): (r: Session)
    ensures Consistent(s) ==> Consistent(r)
  {
    match e
    case StartRequested(granted, available, audioError, t) => Started(s, granted, available, audioError, t)
    case StopRequested => Stopped(s)
    case FinalizeRequested => Finalized(s).1
    case ClearErrorRequested => ErrorCleared(s)
    case PartialResult(text, isFinal, t) => ResultHandled(s, text, isFinal, t)
    case RecognitionError(domain, code, description) => ErrorHandled(s, domain, code, description)
    case TimerFired(t) => Ticked(s, t)
    case AutoStopEnabledChanged(enabled) => AutoStopEnabledSet(s, enabled)
    case AutoStopThresholdChanged(threshold, t) => ThresholdSet(s, threshold, t)
    case RecognizerAvailability(available) => AvailabilityChanged(s, available)
  }

  /** The session after a sequence of events; every run from a consistent
      session (in particular from a new service) stays consistent. */
  function Run(s: Session, events: seq<Event>): (r: Session)
    ensures Consistent(s) ==> Consistent(r)
    decreases |events|
  {
    if events == [] then s else Run(Apply(s, events[0]), events[1..])
  }

  /** During an auto-stop recording, a partial result that is a meaningful
      change restarts the silence clock at its arrival and keeps the
      recording, its timer and its state going. */
  lemma PartialKeepsRecording(s: Session, text: string, now: real)
    requires Consistent(s) && s.isRecording && s.autoStopEnabled
    requires HasTranscriptionChanged(text, s.previousTranscriptionText)
    ensures var r := ResultHandled(s, text, false, now);
      && Consistent(r) && r.isRecording && r.autoStopEnabled && r.autoStopThreshold == s.autoStopThreshold
      && r.recognitionState == s.recognitionState && r.transcribedText == text
      && r.lastTranscriptionUpdate == now && r.previousTranscriptionText == text && !r.isAutoStopCountdown
  {
  }

  /** A tick before the silence reaches the threshold keeps the recording
      going; the countdown is on once at most one second remains. */
  lemma TickBeforeThreshold(s: Session, now: real)
    requires Consistent(s) && s.isRecording && s.autoStopEnabled
    requires s.lastTranscriptionUpdate <= now < s.lastTranscriptionUpdate + s.autoStopThreshold
    ensures var r := Ticked(s, now);
      && Consistent(r) && r.isRecording && r.autoStopEnabled && r.autoStopThreshold == s.autoStopThreshold
      && r.recognitionState == s.recognitionState && r.transcribedText == s.transcribedText
      && r.lastTranscriptionUpdate == s.lastTranscriptionUpdate
      && (r.isAutoStopCountdown <==> s.isAutoStopCountdown || s.autoStopThreshold - (now - s.lastTranscriptionUpdate) <= 1.0)
  {
  }

  /** Three growing partial results during an auto-stop recording that has
      seen no activity yet: each is a meaningful change, so the silence
      clock restarts at the last one's arrival and the recording goes on. */
  lemma ThreePartials(s: Session, first: string, second: string, third: string, t1: real, t2: real, t3: real)
    requires Consistent(s) && s.isRecording && s.autoStopEnabled && s.previousTranscriptionText == ""
    requires Trimmed(first) && Trimmed(second) && Trimmed(third)
    requires 0 < |first| < |second| < |third|
    ensures var r := ResultHandled(ResultHandled(ResultHandled(s, first, false, t1), second, false, t2), third, false, t3);
      && Consistent(r) && r.isRecording && r.autoStopEnabled && r.autoStopThreshold == s.autoStopThreshold
      && r.recognitionState == s.recognitionState && r.transcribedText == third
      && r.lastTranscriptionUpdate == t3 && !r.isAutoStopCountdown
  {
    TrimOfTrimmed([]);
    TrimOfTrimmed(first);
    TrimOfTrimmed(second);
    TrimOfTrimmed(third);
    PartialKeepsRecording(s, first, t1);
    var s1 := ResultHandled(s, first, false, t1);
    PartialKeepsRecording(s1, second, t2);
    var s2 := ResultHandled(s1, second, false, t2);
    PartialKeepsRecording(s2, third, t3);
  }

  /** With the default 3 s threshold and the last activity at `t`, the
      ticks at `t + 1.9` and `t + 2.5` keep the recording (the second with
      the countdown on) and the tick at `t + 3.0` moves a recording with a
      transcript to `Processing`. */
  lemma SilenceStops(s: Session, t: real)
    requires Consistent(s) && s.isRecording && s.autoStopEnabled && s.autoStopThreshold == 3.0
    requires s.recognitionState == Recording && !s.isAutoStopCountdown && s.lastTranscriptionUpdate == t
    requires s.transcribedText != ""
    ensures var early := Ticked(s, t + 1.9);
      var late := Ticked(early, t + 2.5);
      var stopped := Ticked(late, t + 3.0);
      && early.isRecording && !early.isAutoStopCountdown
      && late.isRecording && late.isAutoStopCountdown
      && stopped.recognitionState == Processing && !stopped.isRecording
      && stopped.transcribedText == s.transcribedText
  {
    TickBeforeThreshold(s, t + 1.9);
    var early := Ticked(s, t + 1.9);
    TickBeforeThreshold(early, t + 2.5);
    var late := Ticked(early, t + 2.5);
    assert late.timerRunning && (t + 3.0) - late.lastTranscriptionUpdate >= late.autoStopThreshold;
    assert late.transcribedText == s.transcribedText;
  }

  /** The utterance scenario, started at any time `t`: start, three growing
      partial results (such as "He", "Hello", "Hello there") each resetting
      the silence clock, ticks while the silence is shorter than the
      threshold, then a tick at the threshold moves the session to
      `Processing`, and finalizing hands out the last hypothesis exactly
      once. */
  lemma UtteranceScenario(t: real, first: string, second: string, third: string)
    requires Trimmed(first) && Trimmed(second) && Trimmed(third)
    requires 0 < |first| < |second| < |third|
    ensures var started := Started(Initial(t), true, true, None, t);
      var s3 := ResultHandled(ResultHandled(ResultHandled(started, first, false, t + 0.5), second, false, t + 1.0), third, false, t + 1.5);
      var early := Ticked(s3, t + 3.4);
      var late := Ticked(early, t + 4.0);
      var stopped := Ticked(late, t + 4.5);
      && s3.lastTranscriptionUpdate == t + 1.5
      && early.isRecording && !early.isAutoStopCountdown
      && late.isRecording && late.isAutoStopCountdown
      && stopped.recognitionState == Processing && !stopped.isRecording
      && Finalized(stopped).0 == third
      && Finalized(Finalized(stopped).1).0 == ""
  {
    var started := Started(Initial(t), true, true, None, t);
    assert Consistent(started) && started.isRecording && started.autoStopEnabled;
    assert started.autoStopThreshold == 3.0 && started.recognitionState == Recording;
    assert started.previousTranscriptionText == "";
    ThreePartials(started, first, second, third, t + 0.5, t + 1.0, t + 1.5);
    var s3 := ResultHandled(ResultHandled(ResultHandled(started, first, false, t + 0.5), second, false, t + 1.0), third, false, t + 1.5);
    SilenceStops(s3, t + 1.5);
    assert (t + 1.5) + 1.9 == t + 3.4 && (t + 1.5) + 2.5 == t + 4.0 && (t + 1.5) + 3.0 == t + 4.5;
  }

  // ---------------------------------------------------------------------------
  // The service object

  /** `SpeechService`. Each method's new field values are the transition
      function of the old ones; `Valid()` is `Consistent` of the fields. */
  class SpeechService {
    var isRecording: bool
    var transcribedText: string
    var recognitionState: RecognitionState
    var errorMessage: Option<string>
    var autoStopEnabled: bool
    var autoStopThreshold: real
    var remainingTime: real
    var isAutoStopCountdown: bool
    var timerRunning: bool
    var lastTranscriptionUpdate: real
    var previousTranscriptionText: string

    function Snapshot(): Session
      reads this
    {
      Session(isRecording, transcribedText, recognitionState, errorMessage, autoStopEnabled,
              autoStopThreshold, remainingTime, isAutoStopCountdown, timerRunning,
              lastTranscriptionUpdate, previousTranscriptionText)
    }

    ghost predicate Valid()
      reads this
    {
      Consistent(Snapshot())
    }

    constructor (now: real)
      ensures Valid() && Snapshot() == Initial(now)
    {
      isRecording := false;
      transcribedText := "";
      recognitionState := Idle;
      errorMessage := None;
      autoStopEnabled := true;
      autoStopThreshold := 3.0;
      remainingTime := 0.0;
      isAutoStopCountdown := false;
      timerRunning := false;
      lastTranscriptionUpdate := now;
      previousTranscriptionText := "";
    }

    method StartRecording(granted: bool, recognizerAvailable: bool, audioError: Option<string>, now: real)
      requires Valid()
      modifies this
      ensures Valid() && Snapshot() == Started(old(Snapshot()), granted, recognizerAvailable, audioError, now)
    {
      if isRecording {
        return;
      }
      if !granted {
        recognitionState := Error("Permissions not granted");
        errorMessage := Some(PermissionsHint);
        return;
      }
      CleanupRecognition();
      if !recognizerAvailable {
        recognitionState := Error("Failed to start recording");
        errorMessage := Some(ErrorDescription(RecognizerUnavailable));
        return;
      }
      if audioError.Some? {
        recognitionState := Error("Failed to start recording");
        errorMessage := Some(audioError.value);
        return;
      }
      BeginSession(now);
    }

    /** The main-context block that ends a successful start: the session is
        live with empty buffers, `now` is the last activity, and the silence
        timer is started. */
    method BeginSession(now: real)
      modifies this
      ensures Snapshot() == TimerStarted(old(Snapshot()).(isRecording := true, recognitionState := Recording,
        transcribedText := "", errorMessage := None, previousTranscriptionText := "", lastTranscriptionUpdate := now))
    {
      isRecording := true;
      recognitionState := Recording;
      transcribedText := "";
      errorMessage := None;
      previousTranscriptionText := "";
      lastTranscriptionUpdate := now;
      StartAutoStopTimer();
    }

    /** `cleanupRecognition()`: the timer is stopped and the session is not live. */
    method CleanupRecognition()
      modifies this
      ensures Snapshot() == TimerStopped(old(Snapshot())).(isRecording := false)
    {
      StopAutoStopTimer();
      isRecording := false;
    }

    method StopRecording()
      modifies this
      ensures Snapshot() == Stopped(old(Snapshot()))
      ensures old(Valid()) ==> Valid()
    {
      if !isRecording {
        return;
      }
      StopAutoStopTimer();
      isRecording := false;
      if transcribedText != "" {
        recognitionState := Processing;
      } else {
        recognitionState := Idle;
      }
    }

    method FinalizeSpeech() returns (finalText: string)
      requires Valid()
      modifies this
      ensures Valid() && (finalText, Snapshot()) == Finalized(old(Snapshot()))
    {
      finalText := transcribedText;
      transcribedText := "";
      recognitionState := Idle;
      errorMessage := None;
    }

    method ClearError()
      requires Valid()
      modifies this
      ensures Valid() && Snapshot() == ErrorCleared(old(Snapshot()))
    {
      if recognitionState.Error? {
        recognitionState := Idle;
        errorMessage := None;
      }
    }

    /** The recognition callback with a result. */
    method OnRecognitionResult(newText: string, isFinal: bool, now: real)
      requires Valid()
      modifies this
      ensures Valid() && Snapshot() == ResultHandled(old(Snapshot()), newText, isFinal, now)
    {
      NoteActivity(newText, now);
      transcribedText := newText;
      if isFinal {
        StopRecording();
      }
    }

    /** The change-detection part of the result handler. */
    method NoteActivity(newText: string, now: real)
      modifies this
      ensures Snapshot() == ActivityNoted(old(Snapshot()), newText, now)
    {
      if HasTranscriptionChanged(newText, previousTranscriptionText) {
        ResetAutoStopTimer(now);
        previousTranscriptionText := newText;
      }
    }

    /** The recognition callback with an error and no result. */
    method OnRecognitionError(domain: string, code: int, description: string)
      requires Valid()
      modifies this
      ensures Valid() && Snapshot() == ErrorHandled(old(Snapshot()), domain, code, description)
    {
      match ClassifyError(domain, code, description)
      case Ignored =>
        return;
      case WentIdle =>
        recognitionState := Idle;
        isRecording := false;
      case Surfaced =>
        recognitionState := Error("Recognition failed");
        errorMessage := Some(description);
        isRecording := false;
    }

    method StartAutoStopTimer()
      modifies this
      ensures Snapshot() == TimerStarted(old(Snapshot()))
    {
      if !autoStopEnabled {
        return;
      }
      StopAutoStopTimer();
      remainingTime := autoStopThreshold;
      isAutoStopCountdown := false;
      timerRunning := true;
    }

    /** One firing of the scheduled timer. */
    method Tick(now: real)
      requires Valid()
      modifies this
      ensures Valid() && Snapshot() == Ticked(old(Snapshot()), now)
    {
      if !timerRunning || !isRecording {
        return;
      }
      var timeSinceLastUpdate := now - lastTranscriptionUpdate;
      remainingTime := Max(0.0, autoStopThreshold - timeSinceLastUpdate);
      if remainingTime <= 1.0 && !isAutoStopCountdown {
        isAutoStopCountdown := true;
      }
      ghost var flagged := Snapshot();
      assert Consistent(flagged);
      if timeSinceLastUpdate >= autoStopThreshold {
        StopRecording();
      }
      if now - lastTranscriptionUpdate > MaxRecordingDuration {
        StopRecording();
      }
    }

    method StopAutoStopTimer()
      modifies this
      ensures Snapshot() == TimerStopped(old(Snapshot()))
    {
      timerRunning := false;
      remainingTime := 0.0;
      isAutoStopCountdown := false;
    }

    method ResetAutoStopTimer(now: real)
      modifies this
      ensures Snapshot() == TimerReset(old(Snapshot()), now)
    {
      if !(autoStopEnabled && isRecording) {
        return;
      }
      lastTranscriptionUpdate := now;
      remainingTime := autoStopThreshold;
      isAutoStopCountdown := false;
    }

    method SetAutoStopEnabled(enabled: bool)
      requires Valid()
      modifies this
      ensures Valid() && Snapshot() == AutoStopEnabledSet(old(Snapshot()), enabled)
    {
      autoStopEnabled := enabled;
      if !enabled {
        StopAutoStopTimer();
      } else if isRecording {
        StartAutoStopTimer();
      }
    }

    method SetAutoStopThreshold(threshold: real, now: real)
      requires Valid()
      modifies this
      ensures Valid() && Snapshot() == ThresholdSet(old(Snapshot()), threshold, now)
    {
      autoStopThreshold := Clamp(0.5, 10.0, threshold);
      if isRecording {
        ResetAutoStopTimer(now);
      }
    }

    /** `speechRecognizer(_:availabilityDidChange:)`. */
    method AvailabilityDidChange(available: bool)
      requires Valid()
      modifies this
      ensures Valid() && Snapshot() == AvailabilityChanged(old(Snapshot()), available)
    {
      if !available {
        recognitionState := Error("Speech recognizer unavailable");
        errorMessage := Some(UnavailableHint);
        StopRecording();
      }
    }
  }
}
