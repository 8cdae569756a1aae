/** The turn orchestrator `ChatViewModel`: an append-only message log with a
    transient "Thinking" placeholder, a guard that refuses to start a
    recording while the reply audio plays, and an observer that polls the
    speech service every 100 ms and acts only on changes of its state.

    Message identities (`UUID()` in the app) are drawn from a counter, so a
    message built later has a fresh identity. The reply text and whether
    audio is playing are arguments; the reply request itself is not modelled. */
module Chat {
  import opened Basics
  import opened Speech

  datatype ChatMessage = ChatMessage(id: nat, text: string, isUser: bool, isLoading: bool)

  const LoadingText := "Thinking"

  predicate UniqueIds(messages: seq<ChatMessage>) {
    forall i, j :: 0 <= i < j < |messages| ==> messages[i].id != messages[j].id
  }

  predicate IdsBelow(messages: seq<ChatMessage>, bound: nat) {
    forall i :: 0 <= i < |messages| ==> messages[i].id < bound
  }

  /** The observable fields of the view model; `lastProcessedState` is the
      observer loop's local variable and `nextId` the identity source. */
  datatype ViewState = ViewState(
    messages: seq<ChatMessage>,
    currentTranscription: string,
    isShowingLiveTranscription: bool,
    lastProcessedState: RecognitionState,
    nextId: nat)

  /** Every message has its own identity, drawn before `nextId`. */
  predicate WellFormed(v: ViewState) {
    UniqueIds(v.messages) && IdsBelow(v.messages, v.nextId)
  }

  function InitialView(): (v: ViewState)
    ensures WellFormed(v) && v.messages == [] && v.lastProcessedState == Idle
  {
    ViewState([], "", false, Idle, 0)
  }

  // ---------------------------------------------------------------------------
  // The message log

  /** Appends one freshly identified message at the end of the log. */
  function MessageAppended(v: ViewState, text: string, isUser: bool, isLoading: bool): (r: ViewState)
    ensures |r.messages| == |v.messages| + 1 && r.messages[..|v.messages|] == v.messages
    ensures r.messages[|v.messages|] == ChatMessage(v.nextId, text, isUser, isLoading)
    ensures r.(messages := v.messages, nextId := v.nextId) == v
    ensures WellFormed(v) ==> WellFormed(r)
  {
    v.(messages := v.messages + [ChatMessage(v.nextId, text, isUser, isLoading)], nextId := v.nextId + 1)
  }

  /** `addAIMessage(_:)`: one assistant message at the end. */
  function AIMessageAdded(v: ViewState, text: string): (r: ViewState)
    ensures r.messages == v.messages + [ChatMessage(v.nextId, text, false, false)]
    ensures WellFormed(v) ==> WellFormed(r)
  {
    MessageAppended(v, text, false, false)
  }

  /** The synchronous part of `generateAIResponse(for:)`: the loading
      placeholder, identified by `v.nextId`, at the end. */
  function ResponseRequested(v: ViewState): (r: ViewState)
    ensures r.messages == v.messages + [ChatMessage(v.nextId, LoadingText, false, true)]
    ensures WellFormed(v) ==> WellFormed(r)
  {
    MessageAppended(v, LoadingText, false, true)
  }

  /** `addUserMessage(_:)`: the user's message, then the reply placeholder;
      the earlier log is untouched. */
  function UserMessageAdded(v: ViewState, text: string): (r: ViewState)
    ensures r.messages == v.messages
      + [ChatMessage(v.nextId, text, true, false), ChatMessage(v.nextId + 1, LoadingText, false, true)]
    ensures r.nextId == v.nextId + 2
    ensures r.currentTranscription == v.currentTranscription && r.lastProcessedState == v.lastProcessedState
    ensures WellFormed(v) ==> WellFormed(r)
  {
    ResponseRequested(MessageAppended(v, text, true, false))
  }

  /** `firstIndex(where:)` with the identity test: the position of the
      first message of that identity, if any. */
  function FirstIndexOf(messages: seq<ChatMessage>, id: nat): (k: Option<nat>)
    ensures k.Some? ==> k.value < |messages| && messages[k.value].id == id
    ensures k.Some? ==> forall j :: 0 <= j < k.value ==> messages[j].id != id
    ensures k.None? ==> forall j :: 0 <= j < |messages| ==> messages[j].id != id
  {
    if messages == [] then None
    else if messages[0].id == id then Some(0)
    else match FirstIndexOf(messages[1..], id)
      case None => None
      case Some(k) => Some(k + 1)
  }

  /** Removes the first message with the identity, if there is one. */
  function RemovedById(messages: seq<ChatMessage>, id: nat): (r: seq<ChatMessage>)
    ensures |r| == if FirstIndexOf(messages, id).Some? then |messages| - 1 else |messages|
    ensures forall m :: m in r ==> m in messages
  {
    match FirstIndexOf(messages, id)
    case None => messages
    case Some(k) => messages[..k] + messages[k + 1..]
  }

  /** The log without the messages of one identity, others in their order. */
  function Without(messages: seq<ChatMessage>, id: nat): (r: seq<ChatMessage>)
    ensures forall m :: m in r <==> m in messages && m.id != id
    ensures |r| <= |messages|
  {
    if messages == [] then []
    else if messages[0].id == id then Without(messages[1..], id)
    else [messages[0]] + Without(messages[1..], id)
  }

  /** Removing a match from a log that starts with another message keeps
      that first message in front. */
  lemma RemovedByIdBehindHead(messages: seq<ChatMessage>, id: nat)
    requires messages != [] && messages[0].id != id
    ensures RemovedById(messages, id) == [messages[0]] + RemovedById(messages[1..], id)
  {
    var rest := messages[1..];
    assert messages == [messages[0]] + rest;
    match FirstIndexOf(rest, id)
    case None =>
      assert FirstIndexOf(messages, id) == None;
      assert RemovedById(rest, id) == rest;
    case Some(k) =>
      assert FirstIndexOf(messages, id) == Some(k + 1);
      assert RemovedById(rest, id) == rest[..k] + rest[k + 1..];
      assert messages[..k + 1] == [messages[0]] + rest[..k];
      assert messages[k + 2..] == rest[k + 1..];
      assert RemovedById(messages, id) == messages[..k + 1] + messages[k + 2..];
  }

  lemma UniqueIdsOfTail(messages: seq<ChatMessage>)
    requires messages != [] && UniqueIds(messages)
    ensures UniqueIds(messages[1..])
    ensures forall j :: 0 <= j < |messages| - 1 ==> messages[1..][j].id != messages[0].id
  {
    var rest := messages[1..];
    forall i, j | 0 <= i < j < |rest| ensures rest[i].id != rest[j].id {
      assert rest[i] == messages[i + 1] && rest[j] == messages[j + 1];
    }
    forall j | 0 <= j < |rest| ensures rest[j].id != messages[0].id {
      assert rest[j] == messages[j + 1];
    }
  }

  /** With unique identities, removing the first match removes exactly that
      message and keeps every other message in its original order. */
  lemma {:induction false} RemovedIsWithout(messages: seq<ChatMessage>, id: nat)
    requires UniqueIds(messages)
    ensures RemovedById(messages, id) == Without(messages, id)
    decreases |messages|
  {
    if messages != [] {
      UniqueIdsOfTail(messages);
      if messages[0].id == id {
        assert FirstIndexOf(messages, id) == Some(0);
        assert messages[..0] + messages[1..] == messages[1..];
        WithoutAbsent(messages[1..], id);
      } else {
        RemovedByIdBehindHead(messages, id);
        RemovedIsWithout(messages[1..], id);
      }
    }
  }

  /** The body of the reply task, once the reply text has arrived: the
      placeholder is removed by identity and the assistant message appended. */
  function ReplyDelivered(v: ViewState, loadingId: nat, response: string): (r: ViewState)
    ensures r.nextId == v.nextId + 1 && r.lastProcessedState == v.lastProcessedState
  {
    AIMessageAdded(v.(messages := RemovedById(v.messages, loadingId)), response)
  }

  /** Delivering a reply replaces its placeholder: the log becomes the old
      log without that placeholder, in order, followed by the reply. */
  lemma ReplyReplacesPlaceholder(v: ViewState, loadingId: nat, response: string)
    requires WellFormed(v)
    ensures ReplyDelivered(v, loadingId, response).messages
      == Without(v.messages, loadingId) + [ChatMessage(v.nextId, response, false, false)]
    ensures WellFormed(ReplyDelivered(v, loadingId, response))
  {
    RemovedIsWithout(v.messages, loadingId);
    WithoutUnique(v.messages, loadingId);
    var kept := Without(v.messages, loadingId);
    assert IdsBelow(kept, v.nextId) by {
      forall i | 0 <= i < |kept| ensures kept[i].id < v.nextId {
        assert kept[i] in v.messages;
      }
    }
  }

  /** A whole turn's log: after the user message and its placeholder, the
      reply takes the placeholder's place. */
  lemma TurnLog(v: ViewState, text: string, response: string)
    requires WellFormed(v)
    ensures var asked := UserMessageAdded(v, text);
      ReplyDelivered(asked, v.nextId + 1, response).messages
        == v.messages + [ChatMessage(v.nextId, text, true, false), ChatMessage(v.nextId + 2, response, false, false)]
  {
    var asked := UserMessageAdded(v, text);
    var pid := v.nextId + 1;
    var user := ChatMessage(v.nextId, text, true, false);
    var placeholder := ChatMessage(pid, LoadingText, false, true);
    assert asked.messages == v.messages + [user, placeholder];
    assert WellFormed(asked);
    ReplyReplacesPlaceholder(asked, pid, response);
    forall j | 0 <= j < |v.messages| ensures v.messages[j].id != pid {
      assert v.messages[j].id < v.nextId;
    }
    WithoutLastAdded(v.messages, user, placeholder);
    assert Without(asked.messages, pid) == v.messages + [user];
    assert asked.nextId == v.nextId + 2;
  }

  /** Filtering out the last added message of a log whose other identities
      differ from it gives the log before it. */
  lemma WithoutLastAdded(messages: seq<ChatMessage>, m: ChatMessage, last: ChatMessage)
    requires forall j :: 0 <= j < |messages| ==> messages[j].id != last.id
    requires m.id != last.id
    ensures Without(messages + [m, last], last.id) == messages + [m]
  {
    assert messages + [m, last] == (messages + [m]) + [last];
    WithoutAppend(messages + [m], last, last.id);
    assert Without(messages + [m, last], last.id) == Without(messages + [m], last.id) + [];
    WithoutAppend(messages, m, last.id);
    WithoutAbsent(messages, last.id);
    assert Without(messages + [m], last.id) == messages + [m];
  }

  /** Filtering out an identity that does not occur changes nothing. */
  lemma {:induction false} WithoutAbsent(messages: seq<ChatMessage>, id: nat)
    requires forall j :: 0 <= j < |messages| ==> messages[j].id != id
    ensures Without(messages, id) == messages
    decreases |messages|
  {
    if messages != [] {
      var rest := messages[1..];
      assert messages[0].id != id;
      forall j | 0 <= j < |rest| ensures rest[j].id != id {
        assert rest[j] == messages[j + 1];
      }
      WithoutAbsent(rest, id);
      assert Without(messages, id) == [messages[0]] + Without(rest, id);
      assert messages == [messages[0]] + rest;
    }
  }

  /** Putting a message with a new identity in front keeps identities unique. */
  lemma UniqueIdsCons(m: ChatMessage, rest: seq<ChatMessage>)
    requires UniqueIds(rest)
    requires forall j :: 0 <= j < |rest| ==> rest[j].id != m.id
    ensures UniqueIds([m] + rest)
  {
    var r := [m] + rest;
    forall i, j | 0 <= i < j < |r| ensures r[i].id != r[j].id {
      assert r[j] == rest[j - 1];
      if i > 0 { assert r[i] == rest[i - 1]; }
    }
  }

  /** Filtering keeps identities unique. */
  lemma {:induction false} WithoutUnique(messages: seq<ChatMessage>, id: nat)
    requires UniqueIds(messages)
    ensures UniqueIds(Without(messages, id))
    decreases |messages|
  {
    if messages != [] {
      UniqueIdsOfTail(messages);
      WithoutUnique(messages[1..], id);
      var tail := Without(messages[1..], id);
      if messages[0].id != id {
        forall j | 0 <= j < |tail| ensures tail[j].id != messages[0].id {
          assert tail[j] in messages[1..];
        }
        UniqueIdsCons(messages[0], tail);
      }
    }
  }

  lemma {:induction false} WithoutAppend(messages: seq<ChatMessage>, m: ChatMessage, id: nat)
    ensures Without(messages + [m], id) == Without(messages, id) + (if m.id == id then [] else [m])
    decreases |messages|
  {
    if messages == [] {
      assert messages + [m] == [m];
      assert [m][1..] == [];
    } else {
      assert (messages + [m])[1..] == messages[1..] + [m];
      WithoutAppend(messages[1..], m, id);
    }
  }

  // ---------------------------------------------------------------------------
  // Turn start and the state observer

  /** `startRecording()` of the view model: refused while the reply audio
      plays; otherwise a pending error is cleared and the service asked to
      start. */
  function TurnStarted(s: Session, isPlaying: bool, granted: bool, recognizerAvailable: bool,
                       audioError: Option<string>, now: real): (r: Session)
    ensures isPlaying ==> r == s
    ensures !isPlaying && !s.isRecording && granted && recognizerAvailable && audioError.None? ==>
      r.isRecording && r.recognitionState == Recording && r.transcribedText == ""
    ensures !isPlaying && s.isRecording ==> r == ErrorCleared(s)
    ensures Consistent(s) ==> Consistent(r)
  {
    if isPlaying then s
    else Started(ErrorCleared(s), granted, recognizerAvailable, audioError, now)
  }

  function Cleared(v: ViewState): ViewState {
    v.(currentTranscription := "", isShowingLiveTranscription := false)
  }

  /** The text the observer sends: the live transcription, or the service's
      transcript when the live one is empty. */
  function FinalText(v: ViewState, s: Session): (t: string)
    ensures v.currentTranscription != "" ==> t == v.currentTranscription
    ensures v.currentTranscription == "" ==> t == s.transcribedText
    ensures t == "" <==> v.currentTranscription == "" && s.transcribedText == ""
  {
    if v.currentTranscription == "" then s.transcribedText else v.currentTranscription
  }

  /** The `switch` of the observer loop, for a state that differs from the
      last processed one. */
  function EdgeHandled(v: ViewState, s: Session): (r: (ViewState, Session))
    ensures WellFormed(v) ==> WellFormed(r.0)
    ensures Consistent(s) ==> Consistent(r.1)
    ensures r.0.lastProcessedState == v.lastProcessedState
  {
    match s.recognitionState
    case Recording => (if v.lastProcessedState != Recording then Cleared(v) else v, s)
    case Processing =>
      if v.lastProcessedState == Recording then
        var finalText := FinalText(v, s);
        if finalText != "" then (Cleared(UserMessageAdded(v, finalText)), Finalized(s).1)
        else (Cleared(v), s)
      else (v, s)
    case Error(_) => (Cleared(v), s)
    case Idle => (Cleared(v), s)
  }

  /** One iteration of the observer loop (the 100 ms sleep aside): a change
      of the service's state is handled once and remembered; then, during a
      recording with text, the live transcription mirrors the service's. */
  function Observed(v: ViewState, s: Session): (r: (ViewState, Session))
    ensures WellFormed(v) ==> WellFormed(r.0)
    ensures Consistent(s) ==> Consistent(r.1)
  {
    var current := s.recognitionState;
    var (edged, s1) :=
      if current == v.lastProcessedState then (v, s)
      else var (handled, s0) := EdgeHandled(v, s); (handled.(lastProcessedState := current), s0);
    if s1.isRecording && s1.transcribedText != "" then
      (edged.(currentTranscription := s1.transcribedText, isShowingLiveTranscription := true), s1)
    else (edged, s1)
  }

  /** An unchanged state appends nothing, finalizes nothing and is not
      remembered anew; a changed state becomes the last processed one. */
  lemma ObservedEdgeTriggered(v: ViewState, s: Session)
    ensures s.recognitionState == v.lastProcessedState ==>
      Observed(v, s).0.messages == v.messages && Observed(v, s).0.lastProcessedState == v.lastProcessedState
      && Observed(v, s).1 == s
    ensures s.recognitionState != v.lastProcessedState ==> Observed(v, s).0.lastProcessedState == s.recognitionState
  {
  }

  /** The `Recording` to `Processing` edge: with a non-empty final text the
      log gains exactly the user message and the placeholder and the service
      is finalized; with an empty one nothing is appended; either way the
      live transcription is cleared. */
  lemma ProcessingEdge(v: ViewState, s: Session)
    requires Consistent(s)
    requires v.lastProcessedState == Recording && s.recognitionState == Processing
    ensures var (r, s') := Observed(v, s);
      && (FinalText(v, s) != "" ==>
            r.messages == v.messages + [ChatMessage(v.nextId, FinalText(v, s), true, false),
                                        ChatMessage(v.nextId + 1, LoadingText, false, true)]
            && s' == Finalized(s).1)
      && (FinalText(v, s) == "" ==> r.messages == v.messages && s' == s)
      && r.currentTranscription == "" && !r.isShowingLiveTranscription
      && r.lastProcessedState == Processing
  {
  }

  /** Any other change appends nothing and leaves the service alone; an edge
      into `Error` or `Idle` of a service that is not recording clears the
      live transcription. */
  lemma OtherEdges(v: ViewState, s: Session)
    requires s.recognitionState != v.lastProcessedState
    requires !(v.lastProcessedState == Recording && s.recognitionState == Processing)
    ensures Observed(v, s).0.messages == v.messages && Observed(v, s).1 == s
    ensures (s.recognitionState.Error? || s.recognitionState == Idle) && !s.isRecording ==>
      Observed(v, s).0.currentTranscription == "" && !Observed(v, s).0.isShowingLiveTranscription
  {
  }

  /** Polling twice with no service event in between appends at most once:
      the second poll never appends, so one utterance becomes one message. */
  lemma PollTwiceAppendsOnce(v: ViewState, s: Session)
    ensures var (v1, s1) := Observed(v, s);
      Observed(v1, s1).0.messages == v1.messages
  {
    var (v1, s1) := Observed(v, s);
    if s.recognitionState != v.lastProcessedState && s.recognitionState == Processing
       && v.lastProcessedState == Recording && FinalText(v, s) != "" {
      assert s1.recognitionState == Idle;
    } else {
      assert s1 == s;
    }
  }

  /** During a recording with text, a poll shows the service's transcript. */
  lemma LiveTranscriptionMirrored(v: ViewState, s: Session)
    requires Consistent(s) && s.isRecording && s.transcribedText != ""
    ensures Observed(v, s).0.currentTranscription == s.transcribedText
    ensures Observed(v, s).0.isShowingLiveTranscription
    ensures Observed(v, s).0.messages == v.messages
  {
  }

  // ---------------------------------------------------------------------------
  // The view-model object

  /** `ChatViewModel`. Each method's new field values (and the service's)
      are the transition function of the old ones. */
  class ChatViewModel {
    var messages: seq<ChatMessage>
    var currentTranscription: string
    var isShowingLiveTranscription: bool
    var lastProcessedState: RecognitionState
    var nextId: nat
    const speechService: SpeechService

    function View(): ViewState
      reads this
    {
      ViewState(messages, currentTranscription, isShowingLiveTranscription, lastProcessedState, nextId)
    }

    ghost predicate Valid()
      reads this, speechService
    {
      WellFormed(View()) && speechService.Valid()
    }

    constructor (now: real)
      ensures Valid() && fresh(speechService)
      ensures View() == InitialView() && speechService.Snapshot() == Initial(now)
    {
      messages := [];
      currentTranscription := "";
      isShowingLiveTranscription := false;
      lastProcessedState := Idle;
      nextId := 0;
      speechService := new SpeechService(now);
    }

    method StartRecording(isPlaying: bool, granted: bool, recognizerAvailable: bool,
                          audioError: Option<string>, now: real)
      requires Valid()
      modifies speechService
      ensures Valid()
      ensures speechService.Snapshot() ==
        TurnStarted(old(speechService.Snapshot()), isPlaying, granted, recognizerAvailable, audioError, now)
    {
      if isPlaying {
        return;
      }
      speechService.ClearError();
      speechService.StartRecording(granted, recognizerAvailable, audioError, now);
    }

    method StopRecording()
      requires Valid()
      modifies speechService
      ensures Valid() && speechService.Snapshot() == Stopped(old(speechService.Snapshot()))
    {
      speechService.StopRecording();
    }

    /** Builds a message with a fresh identity and appends it. */
    method Append(text: string, isUser: bool, isLoading: bool) returns (id: nat)
      modifies this
      ensures View() == MessageAppended(old(View()), text, isUser, isLoading) && id == old(nextId)
    {
      id := nextId;
      messages := messages + [ChatMessage(id, text, isUser, isLoading)];
      nextId := nextId + 1;
    }

    /** `addUserMessage(_:)`; the result identifies the placeholder that the
        reply task will replace. */
    method AddUserMessage(text: string) returns (loadingId: nat)
      modifies this
      ensures View() == UserMessageAdded(old(View()), text) && loadingId == old(nextId) + 1
    {
      var _ := Append(text, true, false);
      loadingId := GenerateAIResponse();
    }

    method AddAIMessage(text: string)
      modifies this
      ensures View() == AIMessageAdded(old(View()), text)
      ensures old(Valid()) ==> Valid()
    {
      var _ := Append(text, false, false);
    }

    /** `generateAIResponse(for:)` up to the point where the reply task is
        started. */
    method GenerateAIResponse() returns (loadingId: nat)
      modifies this
      ensures View() == ResponseRequested(old(View())) && loadingId == old(nextId)
    {
      loadingId := Append(LoadingText, false, true);
    }

    /** The reply task's final block, with the reply text it received. */
    method DeliverResponse(loadingId: nat, response: string)
      modifies this
      ensures View() == ReplyDelivered(old(View()), loadingId, response)
      ensures old(Valid()) ==> Valid()
    {
      ghost var before := View();
      if Valid() {
        ReplyReplacesPlaceholder(before, loadingId, response);
      }
      match FirstIndexOf(messages, loadingId) {
        case Some(k) =>
          messages := messages[..k] + messages[k + 1..];
        case None =>
      }
      assert View() == before.(messages := RemovedById(before.messages, loadingId));
      AddAIMessage(response);
      assert View() == ReplyDelivered(before, loadingId, response);
    }

    /** One iteration of `observeSpeechService()`'s loop; the result is the
        placeholder identity when this poll sent a user message. */
    method ObserveStep() returns (dispatched: Option<nat>)
      requires Valid()
      modifies this, speechService
      ensures Valid()
      ensures (View(), speechService.Snapshot()) == Observed(old(View()), old(speechService.Snapshot()))
      ensures dispatched.Some? ==> |messages| > 0 && messages[|messages| - 1] == ChatMessage(dispatched.value, LoadingText, false, true)
    {
      dispatched := None;
      var currentState := speechService.recognitionState;
      if currentState != lastProcessedState {
        dispatched := HandleEdge();
        lastProcessedState := currentState;
      }
      if speechService.isRecording && speechService.transcribedText != "" {
        currentTranscription := speechService.transcribedText;
        isShowingLiveTranscription := true;
      }
    }

    /** The `switch` of the observer loop on the service's current state. */
    method HandleEdge() returns (dispatched: Option<nat>)
      requires Valid()
      modifies this, speechService
      ensures Valid()
      ensures (View(), speechService.Snapshot()) == EdgeHandled(old(View()), old(speechService.Snapshot()))
      ensures dispatched.Some? ==> |messages| > 0 && messages[|messages| - 1] == ChatMessage(dispatched.value, LoadingText, false, true)
    {
      dispatched := None;
      match speechService.recognitionState {
        case Recording =>
          if lastProcessedState != Recording {
            currentTranscription := "";
            isShowingLiveTranscription := false;
          }
        case Processing =>
          if lastProcessedState == Recording {
            dispatched := SendTranscription();
          }
        case Error(_) =>
          currentTranscription := "";
          isShowingLiveTranscription := false;
        case Idle =>
          currentTranscription := "";
          isShowingLiveTranscription := false;
      }
    }

    /** The `Recording` to `Processing` edge: a non-empty final text is sent
        as the user's message and the service finalized; the live
        transcription is cleared either way. */
    method SendTranscription() returns (dispatched: Option<nat>)
      requires Valid() && lastProcessedState == Recording && speechService.recognitionState == Processing
      modifies this, speechService
      ensures Valid()
      ensures (View(), speechService.Snapshot()) == EdgeHandled(old(View()), old(speechService.Snapshot()))
      ensures dispatched.Some? ==> |messages| > 0 && messages[|messages| - 1] == ChatMessage(dispatched.value, LoadingText, false, true)
    {
      dispatched := None;
      var finalText := if currentTranscription == "" then speechService.transcribedText
                       else currentTranscription;
      if finalText != "" {
        var loadingId := AddUserMessage(finalText);
        dispatched := Some(loadingId);
        var _ := speechService.FinalizeSpeech();
      }
      currentTranscription := "";
      isShowingLiveTranscription := false;
    }
  }
}
