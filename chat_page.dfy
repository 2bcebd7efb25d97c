/**
 * The chat page's state and handlers. The page keeps its transcript, the
 * input box, the attached image, the typing indicator and the suggested
 * follow-ups; every handler updates them in place, as React's state setters
 * do. The transcript is copied to localStorage whenever it changes, without
 * images.
 *
 * Network calls are parameters: a submit is given the reply the query will
 * bring and the reply of the follow-up request, and returns the request it
 * sends. The storage write's success or failure is a parameter too.
 */
module ChatPage {
  import opened Wrappers
  import opened Text
  import opened ChatMessages
  import opened Storage
  import opened Clock
  import opened ChatText
  import opened Chat

  const Welcome := PlainMessage(Assistant, WelcomeText)
  const SessionWelcome := PlainMessage(Assistant, SessionWelcomeText)

  /** A picked file: its MIME type and the data URL a FileReader makes of it. */
  datatype ImageFile = ImageFile(name: string, mimeType: string, dataUrl: string)

  /** What a submit sends: a text query, or a prompt with an image. */
  datatype Request = Query(text: string) | QueryWithImage(prompt: string, image: ImageFile)

  /** What the query brings back: a reply (its content, empty when missing) or an error. */
  datatype Reply = Answered(content: string) | Failed

  /** What the follow-up request brings back. */
  datatype SuggestionReply = Suggested(list: seq<string>) | SuggestionsFailed

  /** How `localStorage.setItem` ended. */
  datatype SaveOutcome = Saved | QuotaExceeded | OtherFailure

  // ---------------------------------------------------------------------------
  // Persistence

  /** The copy that is saved: every message with its image dropped. */
  function WithoutImages(log: seq<Message>): (r: seq<Message>)
    ensures |r| == |log|
    ensures forall i :: 0 <= i < |log| ==> r[i].image.None? && r[i] == log[i].(image := None)
  {
    if log == [] then [] else [log[0].(image := None)] + WithoutImages(log[1..])
  }

  /**
   * The transcript the page starts with: the saved one when the key holds a
   * readable transcript (even an empty one), and the welcome message when the
   * key is missing or holds anything else.
   */
  function Loaded(entries: map<string, Blob>): seq<Message> {
    if TranscriptKey in entries && entries[TranscriptKey].Transcript? then entries[TranscriptKey].log
    else [Welcome]
  }

  /** Reloading after a successful save gives back the transcript with its images dropped and nothing else changed. */
  lemma ReloadAfterSave(entries: map<string, Blob>, log: seq<Message>)
    ensures |Loaded(entries[TranscriptKey := Transcript(WithoutImages(log))])| == |log|
    ensures forall i :: 0 <= i < |log| ==>
      var m := Loaded(entries[TranscriptKey := Transcript(WithoutImages(log))])[i];
      m.role == log[i].role && m.content == log[i].content && m.mapUrl == log[i].mapUrl
      && m.mapMarkers == log[i].mapMarkers && m.mapCenter == log[i].mapCenter && m.image.None?
  {
  }

  /** Saving a reloaded transcript writes the same thing again. */
  lemma {:induction false} WithoutImagesIdempotent(log: seq<Message>)
    ensures WithoutImages(WithoutImages(log)) == WithoutImages(log)
  {
    var once := WithoutImages(log);
    assert forall i :: 0 <= i < |once| ==> WithoutImages(once)[i] == once[i];
  }

  /** After a quota failure the key is gone, so the next page load starts from the welcome message. */
  lemma QuotaFailureForgetsTranscript(entries: map<string, Blob>)
    ensures Loaded(entries - {TranscriptKey}) == [Welcome]
  {
  }

  // ---------------------------------------------------------------------------
  // Submitting

  /** A submit does nothing with a blank input and no image, or while a reply is awaited. */
  predicate Ignores(input: string, selectedImage: Option<ImageFile>, loading: bool) {
    (Trim(input) == [] && selectedImage.None?) || loading
  }

  lemma IgnoresIffBlank(input: string, selectedImage: Option<ImageFile>, loading: bool)
    ensures Ignores(input, selectedImage, loading) <==> (IsBlank(input) && selectedImage.None?) || loading
  {
    TrimEmptyIffBlank(input);
  }

  /** The text of the user's message: the input as typed, or the image prompt when the input is empty. */
  function SentText(input: string): (r: string)
    ensures r != []
    ensures input != [] ==> r == input
  {
    if input != [] then input else ImagePrompt
  }

  function UserMessage(input: string, preview: Option<string>): Message {
    Message(User, SentText(input), None, [], None, preview)
  }

  function RequestFor(input: string, image: Option<ImageFile>): Request {
    match image
    case Some(file) => QueryWithImage(SentText(input), file)
    case None => Query(input)
  }

  function RequestText(r: Request): string {
    match r
    case Query(text) => text
    case QueryWithImage(prompt, _) => prompt
  }

  /** What is sent is what the user's message shows, and the image goes along exactly when one is attached. */
  lemma SentAsShown(input: string, image: Option<ImageFile>, preview: Option<string>)
    requires !Ignores(input, image, false)
    ensures RequestText(RequestFor(input, image)) == UserMessage(input, preview).content
    ensures RequestFor(input, image).QueryWithImage? <==> image.Some?
  {
    if image.None? {
      assert input != [];
    }
  }

  /** The content a reply is shown with before processing: a missing or empty content is replaced by an apology. */
  function ReplyText(content: string): (r: string)
    ensures r != []
    ensures content != [] ==> r == content
  {
    if content != [] then content else EmptyReplyText
  }

  /**
   * The assistant's message for a reply: the apology when the query failed;
   * otherwise the processed reply text with its map link, and markers read
   * from the raw reply.
   */
  function AssistantReply(reply: Reply): (m: Message)
    ensures m.role == Assistant && m.image.None?
    ensures reply.Failed? ==> m == PlainMessage(Assistant, FailedReplyText)
  {
    match reply
    case Failed => PlainMessage(Assistant, FailedReplyText)
    case Answered(content) =>
      var processed := ProcessReply(ReplyText(content));
      var markers := Markers(content);
      Message(Assistant, processed.content, processed.mapUrl, markers, CenterOf(markers), None)
  }

  /**
   * What an answered query shows: no map link is left in the text; there is a
   * map exactly when the reply text held a link; the markers are those of the
   * raw reply, and the map is centred on the first of them when there is one.
   */
  lemma AssistantReplyShows(content: string)
    ensures !HasUrl(AssistantReply(Answered(content)).content)
    ensures AssistantReply(Answered(content)).mapUrl.None? <==> !HasUrl(ReplyText(content))
    ensures AssistantReply(Answered(content)).mapMarkers == Markers(content)
    ensures AssistantReply(Answered(content)).mapCenter.None? <==> Markers(content) == []
    ensures AssistantReply(Answered(content)).mapCenter.Some? ==>
      AssistantReply(Answered(content)).mapCenter.value == (Markers(content)[0].lat, Markers(content)[0].lng)
  {
    ProcessedContentHasNoUrl(ReplyText(content));
  }

  /** Follow-ups are asked for only after a reply to a typed question that left some content. */
  predicate AsksForSuggestions(input: string, answered: bool, answer: Message) {
    answered && input != [] && answer.content != []
  }

  /** ... and they replace the current ones only when the request returned a non-empty list. */
  predicate UpdatesSuggestions(input: string, answered: bool, answer: Message, suggested: SuggestionReply) {
    AsksForSuggestions(input, answered, answer) && suggested.Suggested? && suggested.list != []
  }

  // ---------------------------------------------------------------------------
  // The page

  class Page {
    var messages: seq<Message>
    var input: string
    var loading: bool
    var selectedImage: Option<ImageFile>
    var imagePreview: Option<string>
    var suggestions: seq<string>
    var loadingSuggestions: bool
    const store: LocalStorage

    /** Mounting the page: the transcript comes from storage, everything else starts empty. */
    constructor (store: LocalStorage)
      ensures this.store == store
      ensures messages == Loaded(store.entries)
      ensures input == [] && !loading && selectedImage.None? && imagePreview.None?
      ensures suggestions == OpeningSuggestions && !loadingSuggestions
    {
      this.store := store;
      messages := Loaded(store.entries);
      input := [];
      loading := false;
      selectedImage := None;
      imagePreview := None;
      suggestions := OpeningSuggestions;
      loadingSuggestions := false;
    }

    /** The part of the state that timelines act on. */
    function View(): ChatView
      reads this
    {
      ChatView(messages, loading, suggestions)
    }

    /** The input box, the attachment and the follow-up indicator are as they were. */
    twostate predicate FormUnchanged()
      reads this
    {
      input == old(input) && selectedImage == old(selectedImage) && imagePreview == old(imagePreview)
      && loadingSuggestions == old(loadingSuggestions)
    }

    /** The effect that runs after every change of the transcript. A quota failure removes the key and does not retry. */
    method SaveTranscript(outcome: SaveOutcome)
      modifies store
      ensures outcome == Saved ==> store.entries == old(store.entries)[TranscriptKey := Transcript(WithoutImages(messages))]
      ensures outcome == QuotaExceeded ==> store.entries == old(store.entries) - {TranscriptKey}
      ensures outcome == OtherFailure ==> store.entries == old(store.entries)
    {
      match outcome
      case Saved => store.SetItem(TranscriptKey, Transcript(WithoutImages(messages)));
      case QuotaExceeded => store.RemoveItem(TranscriptKey);
      case OtherFailure =>
    }

    /** A timer callback of a scripted sequence: one state setter, recorded at the end of the timeline so far. */
    method Fire(ghost start: ChatView, events: seq<Timed<ChatEffect>>, e: Timed<ChatEffect>)
      returns (next: seq<Timed<ChatEffect>>)
      requires View() == ApplyAll(start, events)
      modifies this
      ensures next == events + [e]
      ensures View() == ApplyAll(start, next)
      ensures FormUnchanged()
    {
      ApplyAllSnoc(start, events, e);
      match e.effect {
        case ResetMessages(log) => messages := log;
        case Append(m) => messages := messages + [m];
        case SetSuggestions(list) => suggestions := list;
        case SetLoading(on) => loading := on;
      }
      next := events + [e];
    }

    /**
     * The reveal's loop: the welcome message and opening suggestions at once,
     * then one round per item. Returns the timeline it played.
     */
    method PlayReveal(sc: RevealScript) returns (events: seq<Timed<ChatEffect>>)
      modifies this
      ensures events == RevealTimeline(sc)
      ensures View() == ApplyAll(old(View()), events)
      ensures FormUnchanged()
    {
      ghost var start := View();
      var f := sc.items;
      events := [];
      events := Fire(start, events, Timed(0, ResetMessages([sc.welcome])));
      events := Fire(start, events, Timed(0, SetSuggestions(sc.opening)));
      var now := 0;
      for i := 0 to |f|
        invariant now == ClockAfter(f, i)
        invariant events == RevealOpening(sc) + ItemsBefore(sc, i)
        invariant View() == ApplyAll(start, events)
        invariant FormUnchanged()
      {
        ghost var before := events;
        now, events := PlayRound(start, events, sc, i, now);
        assert (RevealOpening(sc) + ItemsBefore(sc, i)) + ItemEffects(sc, i)
          == RevealOpening(sc) + (ItemsBefore(sc, i) + ItemEffects(sc, i));
      }
    }

    /**
     * One round of the reveal's loop: wait, show item `i`, replace the
     * suggestions after the answers at index 1 and 3, and show the typing
     * indicator for 1500 ms after a user item that is not the last.
     */
    method PlayRound(ghost start: ChatView, events: seq<Timed<ChatEffect>>, sc: RevealScript, i: nat, now: nat)
      returns (later: nat, next: seq<Timed<ChatEffect>>)
      requires i < |sc.items| && now == ClockAfter(sc.items, i)
      requires View() == ApplyAll(start, events)
      modifies this
      ensures later == ClockAfter(sc.items, i + 1)
      ensures next == events + ItemEffects(sc, i)
      ensures View() == ApplyAll(start, next)
      ensures FormUnchanged()
    {
      var f := sc.items;
      later := now + if i == 0 then 1500 else 3000;
      var shownAt := later;
      next := Fire(start, events, Timed(later, Append(f[i])));
      if f[i].role == Assistant {
        if i == 1 {
          next := Fire(start, next, Timed(later, SetSuggestions(sc.afterFirstAnswer)));
        } else if i == 3 {
          next := Fire(start, next, Timed(later, SetSuggestions(sc.afterSecondAnswer)));
        }
      }
      if f[i].role == User && i < |f| - 1 {
        next := Fire(start, next, Timed(later, SetLoading(true)));
        later := later + 1500;
        next := Fire(start, next, Timed(later, SetLoading(false)));
      }
      assert shownAt == ShownAt(f, i);
      assert next == events + ItemEffects(sc, i);
    }

    /**
     * The tour moved, or demo mode changed. On the chat step with both on, the
     * page plays its scripted conversation and ends showing all of it;
     * otherwise nothing happens.
     */
    method OnTourChange(isTourActive: bool, isDemoMode: bool, currentStep: nat) returns (events: seq<Timed<ChatEffect>>)
      modifies this
      ensures RevealFires(isTourActive, isDemoMode, currentStep) ==>
        events == RevealTimeline(ChatReveal)
        && messages == [TourWelcome] + ChatReveal.items
        && !loading && suggestions == ChatReveal.afterSecondAnswer
        && FormUnchanged()
      ensures !RevealFires(isTourActive, isDemoMode, currentStep) ==> events == [] && unchanged(this)
    {
      if RevealFires(isTourActive, isDemoMode, currentStep) {
        ghost var start := View();
        events := PlayReveal(ChatReveal);
        ChatRevealEndState(start);
      } else {
        events := [];
      }
    }

    /**
     * A click on a suggestion. During the demo tour a question with a canned
     * answer plays the canned exchange; anything else fills the input box and
     * returns the delay after which it is submitted, if it is.
     */
    method HandleQuickAction(action: string, isDemoMode: bool, isTourActive: bool) returns (submitAfter: Option<nat>)
      modifies this
      ensures QuickAction(action, isDemoMode, isTourActive).Scripted? ==>
        View() == ApplyAll(old(View()), QuickAction(action, isDemoMode, isTourActive).events)
        && messages == old(messages) + [PlainMessage(User, action), PlainMessage(Assistant, CannedReplies[action])]
        && !loading && suggestions == FollowUps(action)
        && submitAfter.None? && FormUnchanged()
      ensures QuickAction(action, isDemoMode, isTourActive).Fill? ==>
        input == action && submitAfter == QuickAction(action, isDemoMode, isTourActive).submitAfter
        && messages == old(messages) && loading == old(loading) && suggestions == old(suggestions)
        && selectedImage == old(selectedImage) && imagePreview == old(imagePreview)
        && loadingSuggestions == old(loadingSuggestions)
    {
      if isDemoMode && isTourActive && action in CannedReplies {
        ghost var start := View();
        PlayCanned(action, CannedReplies[action], FollowUps(action));
        CannedExchangeEffect(start, action, CannedReplies[action], FollowUps(action));
        submitAfter := None;
      } else {
        input := action;
        submitAfter := if AutoSubmits(action) then Some(AutoSubmitDelayMs) else None;
      }
    }

    /** The canned exchange, as the handler awaits it: the question, 1500 ms of typing, the answer, the follow-ups. */
    method PlayCanned(action: string, reply: string, next: seq<string>)
      modifies this
      ensures View() == ApplyAll(old(View()), CannedExchange(action, reply, next))
      ensures FormUnchanged()
    {
      ghost var start := View();
      var events := [];
      events := Fire(start, events, Timed(0, Append(PlainMessage(User, action))));
      events := Fire(start, events, Timed(0, SetLoading(true)));
      events := Fire(start, events, Timed(1500, SetLoading(false)));
      events := Fire(start, events, Timed(1500, Append(PlainMessage(Assistant, reply))));
      events := Fire(start, events, Timed(1500, SetSuggestions(next)));
      assert events == CannedExchange(action, reply, next);
    }

    /**
     * A submit of the form. Unless it is ignored, the user's message is
     * appended and the form cleared, the request is sent, exactly one
     * assistant message follows (the processed reply or the apology), the
     * follow-ups are refreshed when the reply allows it, and the typing
     * indicator ends off.
     */
    method Submit(reply: Reply, suggested: SuggestionReply) returns (sent: Option<Request>)
      modifies this
      ensures old(Ignores(input, selectedImage, loading)) ==> sent.None? && unchanged(this)
      ensures !old(Ignores(input, selectedImage, loading)) ==>
        sent == Some(RequestFor(old(input), old(selectedImage)))
        && messages == old(messages) + [UserMessage(old(input), old(imagePreview)), AssistantReply(reply)]
        && input == [] && selectedImage.None? && imagePreview.None? && !loading
        && suggestions == (if UpdatesSuggestions(old(input), reply.Answered?, AssistantReply(reply), suggested) then suggested.list else old(suggestions))
        && loadingSuggestions == (if AsksForSuggestions(old(input), reply.Answered?, AssistantReply(reply)) then false else old(loadingSuggestions))
    {
      if Ignores(input, selectedImage, loading) {
        return None;
      }
      var currentInput: string, request: Request := Send();
      sent := Some(request);
      Receive(currentInput, reply.Answered?, AssistantReply(reply), suggested);
    }

    /** The part before the await: show the user's message, clear the form, turn the indicator on and send. */
    method Send() returns (currentInput: string, request: Request)
      requires !Ignores(input, selectedImage, loading)
      modifies this
      ensures currentInput == old(input) && request == RequestFor(old(input), old(selectedImage))
      ensures messages == old(messages) + [UserMessage(old(input), old(imagePreview))]
      ensures input == [] && selectedImage.None? && imagePreview.None? && loading
      ensures suggestions == old(suggestions) && loadingSuggestions == old(loadingSuggestions)
    {
      messages := messages + [UserMessage(input, imagePreview)];
      currentInput := input;
      var currentImage := selectedImage;
      input := [];
      selectedImage := None;
      imagePreview := None;
      loading := true;
      request := RequestFor(currentInput, currentImage);
    }

    /**
     * What follows the awaited query: the assistant's message, then, when the
     * question was typed and the reply left some content, the follow-up
     * request; the typing indicator goes off last.
     */
    method Receive(currentInput: string, answered: bool, answer: Message, suggested: SuggestionReply)
      modifies this
      ensures messages == old(messages) + [answer]
      ensures !loading
      ensures suggestions == (if UpdatesSuggestions(currentInput, answered, answer, suggested) then suggested.list else old(suggestions))
      ensures loadingSuggestions == (if AsksForSuggestions(currentInput, answered, answer) then false else old(loadingSuggestions))
      ensures input == old(input) && selectedImage == old(selectedImage) && imagePreview == old(imagePreview)
    {
      messages := messages + [answer];
      if AsksForSuggestions(currentInput, answered, answer) {
        RefreshSuggestions(suggested);
      }
      loading := false;
    }

    /** The follow-up request: its indicator is on while it is awaited; only a non-empty list replaces the suggestions. */
    method RefreshSuggestions(suggested: SuggestionReply)
      modifies this
      ensures suggestions == (if suggested.Suggested? && suggested.list != [] then suggested.list else old(suggestions))
      ensures !loadingSuggestions
      ensures messages == old(messages) && loading == old(loading) && input == old(input)
      ensures selectedImage == old(selectedImage) && imagePreview == old(imagePreview)
    {
      loadingSuggestions := true;
      if suggested.Suggested? && suggested.list != [] {
        suggestions := suggested.list;
      }
      loadingSuggestions := false;
    }

    /** A picked file is attached only when its MIME type is an image type. */
    method SelectImage(file: Option<ImageFile>)
      modifies this
      ensures file.Some? && StartsWith(file.value.mimeType, "image/") ==> selectedImage == file
      ensures !(file.Some? && StartsWith(file.value.mimeType, "image/")) ==> selectedImage == old(selectedImage)
      ensures messages == old(messages) && input == old(input) && loading == old(loading)
      ensures imagePreview == old(imagePreview) && suggestions == old(suggestions)
      ensures loadingSuggestions == old(loadingSuggestions)
    {
      if file.Some? && StartsWith(file.value.mimeType, "image/") {
        selectedImage := file;
      }
    }

    /** The FileReader finished: its data URL becomes the preview, whatever happened since. */
    method PreviewLoaded(dataUrl: string)
      modifies this
      ensures imagePreview == Some(dataUrl)
      ensures messages == old(messages) && input == old(input) && loading == old(loading)
      ensures selectedImage == old(selectedImage) && suggestions == old(suggestions)
      ensures loadingSuggestions == old(loadingSuggestions)
    {
      imagePreview := Some(dataUrl);
    }

    method RemoveImage()
      modifies this
      ensures selectedImage.None? && imagePreview.None?
      ensures messages == old(messages) && input == old(input) && loading == old(loading)
      ensures suggestions == old(suggestions) && loadingSuggestions == old(loadingSuggestions)
    {
      selectedImage := None;
      imagePreview := None;
    }

    /** Clear Chat: a single welcome message, written to storage at once. */
    method ClearChat()
      modifies this, store
      ensures messages == [Welcome]
      ensures store.entries == old(store.entries)[TranscriptKey := Transcript([Welcome])]
      ensures input == old(input) && loading == old(loading) && suggestions == old(suggestions)
      ensures selectedImage == old(selectedImage) && imagePreview == old(imagePreview)
      ensures loadingSuggestions == old(loadingSuggestions)
    {
      messages := [Welcome];
      store.SetItem(TranscriptKey, Transcript([Welcome]));
    }

    /** The session expired: the transcript is replaced by the shorter welcome, without the image-analysis line. */
    method OnSessionExpired()
      modifies this
      ensures messages == [SessionWelcome]
      ensures input == old(input) && loading == old(loading) && suggestions == old(suggestions)
      ensures selectedImage == old(selectedImage) && imagePreview == old(imagePreview)
      ensures loadingSuggestions == old(loadingSuggestions)
    {
      messages := [SessionWelcome];
    }
  }

  /** Clear Chat's own write and the save that follows it store the same transcript. */
  lemma ClearChatSavesWelcome()
    ensures WithoutImages([Welcome]) == [Welcome]
  {
  }
}
