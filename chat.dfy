/**
 * The chat page's scripted behaviour: its fixed texts, the conversation it
 * plays while the guided tour stands on the chat step, and the canned answers
 * to quick actions during the tour with the follow-ups each one suggests.
 *
 * The page's asynchronous sequences (the tour reveal and a canned quick
 * action) are timelines on the virtual clock of module Clock. Their effects
 * act on the three parts of the page state they touch, a `ChatView`; class
 * `ChatPage.Page` carries them out in place.
 */
module Chat {
  import opened Wrappers
  import opened Text
  import opened Geo
  import opened ChatMessages
  import opened Storage
  import opened Clock
  import opened Tour
  import opened ChatText

  // ---------------------------------------------------------------------------
  // Fixed texts

  const WelcomeText :=
    "Hello! I'm your Weather Insights and Forecast Advisor. I can help you with:\n\n"
    + "- Weather forecasts for any location\n- Active weather alerts\n- Emergency shelter locations\n"
    + "- Evacuation routes\n- Risk analysis for severe weather\n- Historical weather data\n"
    + "- **Hurricane path image analysis** (upload hurricane forecast maps)\n\nWhat would you like to know?"

  /** The welcome shown after a session expires: the same list without the image-analysis line. */
  const SessionWelcomeText :=
    "Hello! I'm your Weather Insights and Forecast Advisor. I can help you with:\n\n"
    + "- Weather forecasts for any location\n- Active weather alerts\n- Emergency shelter locations\n"
    + "- Evacuation routes\n- Risk analysis for severe weather\n- Historical weather data\n\n"
    + "What would you like to know?"

  const TourWelcomeText :=
    "Hello! I'm your Weather Insights and Forecast Advisor. Ask me about Hurricane Milton or any weather concerns."
  const TourWelcome := PlainMessage(Assistant, TourWelcomeText)

  /** Text of a user message sent with an image and an empty input box. */
  const ImagePrompt := "Analyze this hurricane path image and perform risk assessment"
  /** Stands in for a reply that came back without content. */
  const EmptyReplyText := "I apologize, but I encountered an error processing your request."
  /** The assistant's message when the request itself failed. */
  const FailedReplyText := "I apologize, but I encountered an error. Please try again."

  /** The localStorage key of the transcript. */
  const TranscriptKey := "chatMessages"

  const OpeningSuggestions: seq<string> := [
    "What are the current weather alerts in California?",
    "Give me the 7-day forecast for Miami, FL",
    "Find emergency shelters near Houston",
    "Show me evacuation routes from Tampa to Orlando"
  ]

  // ---------------------------------------------------------------------------
  // The page state touched by timelines

  datatype ChatView = ChatView(messages: seq<Message>, loading: bool, suggestions: seq<string>)

  /** What one timer callback of a scripted sequence does to the page. */
  datatype ChatEffect =
    | ResetMessages(log: seq<Message>)
    | Append(message: Message)
    | SetSuggestions(next: seq<string>)
    | SetLoading(on: bool)

  function Apply(v: ChatView, e: ChatEffect): ChatView {
    match e
    case ResetMessages(log) => v.(messages := log)
    case Append(m) => v.(messages := v.messages + [m])
    case SetSuggestions(next) => v.(suggestions := next)
    case SetLoading(on) => v.(loading := on)
  }

  /** The page after every effect of a timeline has happened, in list order. */
  function ApplyAll(v: ChatView, events: seq<Timed<ChatEffect>>): ChatView
    decreases |events|
  {
    if events == [] then v else ApplyAll(Apply(v, events[0].effect), events[1..])
  }

  /** Running two timelines one after the other is running their concatenation. */
  lemma {:induction false} ApplyAllConcat(v: ChatView, a: seq<Timed<ChatEffect>>, b: seq<Timed<ChatEffect>>)
    ensures ApplyAll(v, a + b) == ApplyAll(ApplyAll(v, a), b)
    decreases |a|
  {
    if a == [] {
      assert a + b == b;
    } else {
      assert (a + b)[0] == a[0] && (a + b)[1..] == a[1..] + b;
      ApplyAllConcat(Apply(v, a[0].effect), a[1..], b);
    }
  }

  /** One more effect at the end of a timeline acts on the page the timeline left. */
  lemma ApplyAllSnoc(v: ChatView, events: seq<Timed<ChatEffect>>, e: Timed<ChatEffect>)
    ensures ApplyAll(v, events + [e]) == Apply(ApplyAll(v, events), e.effect)
  {
    ApplyAllConcat(v, events, [e]);
    assert [e][1..] == [];
  }

  /** The messages a timeline appends, in order. */
  function Appended(events: seq<Timed<ChatEffect>>): (ms: seq<Message>)
    ensures |ms| <= |events|
  {
    if events == [] then []
    else (if events[0].effect.Append? then [events[0].effect.message] else []) + Appended(events[1..])
  }

  lemma {:induction false} AppendedConcat(a: seq<Timed<ChatEffect>>, b: seq<Timed<ChatEffect>>)
    ensures Appended(a + b) == Appended(a) + Appended(b)
    decreases |a|
  {
    if a == [] {
      assert a + b == b;
    } else {
      assert (a + b)[0] == a[0] && (a + b)[1..] == a[1..] + b;
      AppendedConcat(a[1..], b);
      var x := if a[0].effect.Append? then [a[0].effect.message] else [];
      assert x + (Appended(a[1..]) + Appended(b)) == (x + Appended(a[1..])) + Appended(b);
    }
  }

  // ---------------------------------------------------------------------------
  // The tour reveal

  /**
   * What the reveal shows: a welcome message and opening suggestions, then the
   * conversation items, with the suggestions replaced after the assistant
   * items at index 1 and 3.
   */
  datatype RevealScript = RevealScript(
    welcome: Message,
    opening: seq<string>,
    items: seq<Message>,
    afterFirstAnswer: seq<string>,
    afterSecondAnswer: seq<string>)

  /** The page's script: user and assistant alternating, user first. The assistant answers are cut to their opening line. */
  const ChatReveal := RevealScript(
    TourWelcome,
    [ "What's the current hurricane threat to Tampa?",
      "Show me weather alerts for Florida",
      "Find emergency shelters near me" ],
    [ PlainMessage(User, "What's the current hurricane threat to Tampa?"),
      PlainMessage(Assistant, "\U{26A0}\U{FE0F} **CRITICAL SITUATION - IMMEDIATE ACTION REQUIRED**"),
      PlainMessage(User, "Where are the nearest shelters?"),
      PlainMessage(Assistant, "**Open Emergency Shelters Near You:**") ],
    [ "Where are the nearest shelters?",
      "What evacuation routes should I take?",
      "How do I prepare for the storm?" ],
    [ "What supplies should I bring to the shelter?",
      "Are there pet-friendly shelters?",
      "What's the latest forecast update?" ])

  /** The reveal runs when the tour and demo mode are on and the tour stands on 'chat-page'. */
  predicate RevealFires(isTourActive: bool, isDemoMode: bool, currentStep: nat) {
    isTourActive && isDemoMode && StepIdAt(currentStep) == Some("chat-page")
  }

  lemma RevealFiresOnlyAtChatStep(isTourActive: bool, isDemoMode: bool, currentStep: nat)
    ensures RevealFires(isTourActive, isDemoMode, currentStep) <==> isTourActive && isDemoMode && currentStep == 5
  {
    CatalogueShape();
  }

  /** Wait before item `i` is shown: 1500 ms for the first, 3000 ms for each later one. */
  function StartDelay(i: nat): nat {
    if i == 0 then 1500 else 3000
  }

  /** A user item other than the last is followed by 1500 ms of typing indicator. */
  predicate ShowsTyping(f: seq<Message>, i: nat)
    requires i < |f|
  {
    f[i].role == User && i < |f| - 1
  }

  /** The suggestions replaced when item `i` is shown, if any. */
  function SuggestionsAfter(sc: RevealScript, i: nat): Option<seq<string>>
    requires i < |sc.items|
  {
    if sc.items[i].role == Assistant && i == 1 then Some(sc.afterFirstAnswer)
    else if sc.items[i].role == Assistant && i == 3 then Some(sc.afterSecondAnswer)
    else None
  }

  /** Time at which the wait before item `n` begins. */
  function ClockAfter(f: seq<Message>, n: nat): nat
    requires n <= |f|
  {
    if n == 0 then 0
    else ClockAfter(f, n - 1) + StartDelay(n - 1) + (if ShowsTyping(f, n - 1) then 1500 else 0)
  }

  /** Time at which item `i` is shown. */
  function ShownAt(f: seq<Message>, i: nat): nat
    requires i < |f|
  {
    ClockAfter(f, i) + StartDelay(i)
  }

  /**
   * A round shown at time `t`: the item, the new suggestions if there are
   * any, and a typing pause of 1500 ms when asked for.
   */
  function Round(t: nat, item: Message, next: Option<seq<string>>, typing: bool): seq<Timed<ChatEffect>> {
    [Timed(t, Append(item))]
    + (match next case Some(s) => [Timed(t, SetSuggestions(s))] case None => [])
    + (if typing then [Timed(t, SetLoading(true)), Timed(t + 1500, SetLoading(false))] else [])
  }

  /** The effects of one round of the reveal loop. */
  function ItemEffects(sc: RevealScript, i: nat): seq<Timed<ChatEffect>>
    requires i < |sc.items|
  {
    Round(ShownAt(sc.items, i), sc.items[i], SuggestionsAfter(sc, i), ShowsTyping(sc.items, i))
  }

  /** The effects of the first `n` rounds. */
  function ItemsBefore(sc: RevealScript, n: nat): seq<Timed<ChatEffect>>
    requires n <= |sc.items|
  {
    if n == 0 then [] else ItemsBefore(sc, n - 1) + ItemEffects(sc, n - 1)
  }

  /** The effects that happen at once: the welcome message alone, and the opening suggestions. */
  function RevealOpening(sc: RevealScript): seq<Timed<ChatEffect>> {
    [Timed(0, ResetMessages([sc.welcome])), Timed(0, SetSuggestions(sc.opening))]
  }

  function RevealTimeline(sc: RevealScript): seq<Timed<ChatEffect>> {
    RevealOpening(sc) + ItemsBefore(sc, |sc.items|)
  }

  /** Every effect of the first `n` rounds happens between 1500 ms and the start of round `n`, in order. */
  lemma {:induction false} ItemsBeforeChronological(sc: RevealScript, n: nat)
    requires n <= |sc.items|
    ensures Chronological(ItemsBefore(sc, n))
    ensures Within(ItemsBefore(sc, n), 1500, ClockAfter(sc.items, n))
    decreases n
  {
    if n > 0 {
      var f := sc.items;
      ItemsBeforeChronological(sc, n - 1);
      var a := ItemsBefore(sc, n - 1);
      var b := ItemEffects(sc, n - 1);
      var t := ShownAt(f, n - 1);
      var typing := ShowsTyping(f, n - 1);
      RoundTimes(t, f[n - 1], SuggestionsAfter(sc, n - 1), typing);
      assert ClockAfter(f, n) == t + (if typing then 1500 else 0);
      assert Within(b, ClockAfter(f, n - 1), ClockAfter(f, n));
      ChronologicalConcat(a, b, 1500, ClockAfter(f, n - 1), ClockAfter(f, n));
      assert Within(a, 1500, ClockAfter(f, n)) && Within(b, 1500, ClockAfter(f, n));
      WithinConcat(a, b, 1500, ClockAfter(f, n));
    }
  }

  /** A round's effects are in time order, from its showing to the end of its typing pause. */
  lemma RoundTimes(t: nat, item: Message, next: Option<seq<string>>, typing: bool)
    ensures Chronological(Round(t, item, next, typing))
    ensures Within(Round(t, item, next, typing), t, t + if typing then 1500 else 0)
  {
  }

  /** The reveal's effects are listed in time order. */
  lemma RevealChronological(sc: RevealScript)
    ensures Chronological(RevealTimeline(sc))
  {
    var a: seq<Timed<ChatEffect>> := RevealOpening(sc);
    var b: seq<Timed<ChatEffect>> := ItemsBefore(sc, |sc.items|);
    ItemsBeforeChronological(sc, |sc.items|);
    assert Within(b, 0, ClockAfter(sc.items, |sc.items|));
    ChronologicalConcat(a, b, 0, 0, ClockAfter(sc.items, |sc.items|));
  }

  lemma {:induction false} ItemsBeforeAppend(sc: RevealScript, n: nat)
    requires n <= |sc.items|
    ensures Appended(ItemsBefore(sc, n)) == sc.items[..n]
    decreases n
  {
    if n > 0 {
      var f := sc.items;
      ItemsBeforeAppend(sc, n - 1);
      AppendedConcat(ItemsBefore(sc, n - 1), ItemEffects(sc, n - 1));
      RoundAppends(ShownAt(f, n - 1), f[n - 1], SuggestionsAfter(sc, n - 1), ShowsTyping(f, n - 1));
      TakeOneMore([], f, n);
    }
  }

  /** Taking one more element of `s` after `p` appends that element. */
  lemma TakeOneMore<T>(p: seq<T>, s: seq<T>, n: nat)
    requires 0 < n <= |s|
    ensures p + s[..n] == (p + s[..n - 1]) + [s[n - 1]]
    ensures s[..n] == s[..n - 1] + [s[n - 1]]
  {
    assert s[..n] == s[..n - 1] + [s[n - 1]];
  }

  /** A round appends its item and nothing else. */
  lemma RoundAppends(t: nat, item: Message, next: Option<seq<string>>, typing: bool)
    ensures Appended(Round(t, item, next, typing)) == [item]
  {
    var round := Round(t, item, next, typing);
    var rest := round[1..];
    assert round == [Timed(t, Append(item))] + rest;
    assert Appended(rest) == [] by {
      assert forall k :: 0 <= k < |rest| ==> !rest[k].effect.Append?;
      NoAppendsNothingAppended(rest);
    }
  }

  lemma {:induction false} NoAppendsNothingAppended(events: seq<Timed<ChatEffect>>)
    requires forall k :: 0 <= k < |events| ==> !events[k].effect.Append?
    ensures Appended(events) == []
    decreases |events|
  {
    if events != [] {
      NoAppendsNothingAppended(events[1..]);
    }
  }

  /** The reveal appends exactly the script's items, in order. */
  lemma RevealAppendsItems(sc: RevealScript)
    ensures Appended(RevealTimeline(sc)) == sc.items
  {
    OpeningAppendsNothing(sc);
    ItemsBeforeAppend(sc, |sc.items|);
    assert sc.items[..|sc.items|] == sc.items;
    AppendedAfterSilent(RevealOpening(sc), ItemsBefore(sc, |sc.items|));
  }

  /** A timeline that appends nothing adds nothing to what follows it. */
  lemma AppendedAfterSilent(a: seq<Timed<ChatEffect>>, b: seq<Timed<ChatEffect>>)
    requires Appended(a) == []
    ensures Appended(a + b) == Appended(b)
  {
    AppendedConcat(a, b);
  }

  lemma OpeningAppendsNothing(sc: RevealScript)
    ensures Appended(RevealOpening(sc)) == []
  {
    var opening := RevealOpening(sc);
    assert !opening[0].effect.Append? && !opening[1].effect.Append?;
    NoAppendsNothingAppended(opening);
  }

  /**
   * The page's reveal, effect by effect: items shown at 1500, 6000, 9000 and
   * 13500 ms; the typing indicator on from 1500 to 3000 and from 9000 to
   * 10500 ms; suggestions replaced after the two assistant items only.
   */
  lemma ChatRevealTimeline()
    ensures RevealTimeline(ChatReveal) == RevealOpening(ChatReveal) + [
      Timed(1500, Append(ChatReveal.items[0])),
      Timed(1500, SetLoading(true)),
      Timed(3000, SetLoading(false)),
      Timed(6000, Append(ChatReveal.items[1])),
      Timed(6000, SetSuggestions(ChatReveal.afterFirstAnswer)),
      Timed(9000, Append(ChatReveal.items[2])),
      Timed(9000, SetLoading(true)),
      Timed(10500, SetLoading(false)),
      Timed(13500, Append(ChatReveal.items[3])),
      Timed(13500, SetSuggestions(ChatReveal.afterSecondAnswer))
    ]
  {
    var f := ChatReveal.items;
    assert |f| == 4;
    assert ClockAfter(f, 1) == 3000;
    assert ClockAfter(f, 2) == 6000;
    assert ClockAfter(f, 3) == 10500;
    assert ItemsBefore(ChatReveal, 4)
      == ItemEffects(ChatReveal, 0) + ItemEffects(ChatReveal, 1) + ItemEffects(ChatReveal, 2) + ItemEffects(ChatReveal, 3);
  }

  /** The typing indicator after the first `n` rounds: off once any round paused for typing, else as it was. */
  function LoadingAfter(f: seq<Message>, n: nat, initial: bool): bool
    requires n <= |f|
  {
    if n == 0 then initial
    else if ShowsTyping(f, n - 1) then false
    else LoadingAfter(f, n - 1, initial)
  }

  /** The suggestions after the first `n` rounds: those of the last round that replaced them, else as they were. */
  function SuggestionsAfterRounds(sc: RevealScript, n: nat, initial: seq<string>): seq<string>
    requires n <= |sc.items|
  {
    if n == 0 then initial
    else match SuggestionsAfter(sc, n - 1)
      case Some(next) => next
      case None => SuggestionsAfterRounds(sc, n - 1, initial)
  }

  /** One round of the reveal: its item is appended, then suggestions and indicator are set as the round says. */
  lemma RoundResult(w: ChatView, t: nat, item: Message, next: Option<seq<string>>, typing: bool)
    ensures ApplyAll(w, Round(t, item, next, typing)) == ChatView(
      w.messages + [item],
      if typing then false else w.loading,
      match next case Some(s) => s case None => w.suggestions)
  {
    var head: seq<Timed<ChatEffect>> := [Timed(t, Append(item))];
    var sugg: seq<Timed<ChatEffect>> := match next case Some(s) => [Timed(t, SetSuggestions(s))] case None => [];
    var pause: seq<Timed<ChatEffect>> :=
      if typing then [Timed(t, SetLoading(true)), Timed(t + 1500, SetLoading(false))] else [];
    assert Round(t, item, next, typing) == head + sugg + pause;
    ApplyAllConcat(w, head + sugg, pause);
    ApplyAllConcat(w, head, sugg);
    var w1 := ApplyAll(w, head);
    assert head[1..] == [];
    assert w1 == w.(messages := w.messages + [item]);
    var w2 := ApplyAll(w1, sugg);
    match next {
      case Some(s) =>
        assert sugg[1..] == [];
        assert w2 == w1.(suggestions := s);
      case None =>
        assert w2 == w1;
    }
    if typing {
      assert pause[1..][1..] == [];
      assert ApplyAll(w2, pause) == ApplyAll(w2.(loading := true), pause[1..]) == w2.(loading := false);
    } else {
      assert ApplyAll(w2, pause) == w2;
    }
  }

  /** The first `n` rounds append the first `n` items and leave indicator and suggestions as the rounds set them. */
  lemma {:induction false} ItemsBeforeResult(sc: RevealScript, n: nat, w: ChatView)
    requires n <= |sc.items|
    ensures ApplyAll(w, ItemsBefore(sc, n))
      == ChatView(w.messages + sc.items[..n], LoadingAfter(sc.items, n, w.loading), SuggestionsAfterRounds(sc, n, w.suggestions))
    decreases n
  {
    var f := sc.items;
    if n == 0 {
      assert f[..0] == [];
    } else {
      var prev := ItemsBefore(sc, n - 1);
      var next := SuggestionsAfter(sc, n - 1);
      var typing := ShowsTyping(f, n - 1);
      ItemsBeforeResult(sc, n - 1, w);
      ApplyAllConcat(w, prev, ItemEffects(sc, n - 1));
      RoundResult(ApplyAll(w, prev), ShownAt(f, n - 1), f[n - 1], next, typing);
      assert LoadingAfter(f, n, w.loading) == if typing then false else LoadingAfter(f, n - 1, w.loading);
      assert SuggestionsAfterRounds(sc, n, w.suggestions)
        == match next case Some(s) => s case None => SuggestionsAfterRounds(sc, n - 1, w.suggestions);
      TakeOneMore(w.messages, f, n);
    }
  }

  /** The opening effects leave the welcome message alone and the opening suggestions. */
  lemma OpeningResult(sc: RevealScript, v: ChatView)
    ensures ApplyAll(v, RevealOpening(sc)) == ChatView([sc.welcome], v.loading, sc.opening)
  {
    var evs := RevealOpening(sc);
    assert evs[1..][1..] == [];
    assert ApplyAll(v, evs) == ApplyAll(v.(messages := [sc.welcome]), evs[1..]);
  }

  /**
   * After the reveal the transcript is the welcome followed by every item;
   * nothing the page held before survives it.
   */
  lemma RevealResult(sc: RevealScript, v: ChatView)
    ensures ApplyAll(v, RevealTimeline(sc)) == ChatView(
      [sc.welcome] + sc.items,
      LoadingAfter(sc.items, |sc.items|, v.loading),
      SuggestionsAfterRounds(sc, |sc.items|, sc.opening))
  {
    var afterOpening := ChatView([sc.welcome], v.loading, sc.opening);
    OpeningResult(sc, v);
    ApplyAllConcat(v, RevealOpening(sc), ItemsBefore(sc, |sc.items|));
    ItemsBeforeResult(sc, |sc.items|, afterOpening);
    assert sc.items[..|sc.items|] == sc.items;
  }

  /** With the page's script the indicator ends off and the suggestions are those set after the second answer. */
  lemma ChatRevealEndState(v: ChatView)
    ensures ApplyAll(v, RevealTimeline(ChatReveal))
      == ChatView([TourWelcome] + ChatReveal.items, false, ChatReveal.afterSecondAnswer)
  {
    RevealResult(ChatReveal, v);
    assert ShowsTyping(ChatReveal.items, 2);
    assert SuggestionsAfter(ChatReveal, 3) == Some(ChatReveal.afterSecondAnswer);
  }

  // ---------------------------------------------------------------------------
  // Quick actions

  /**
   * The canned answers a quick action gets while the tour runs in demo mode,
   * by exact question. The answers are display text and are cut to their title line.
   */
  const CannedReplies: map<string, string> := map[
    "Where are the nearest shelters?" := "**Open Emergency Shelters Near You:**",
    "What evacuation routes should I take?" := "**Recommended Evacuation Routes from Tampa:**",
    "How do I prepare for the storm?" := "**Hurricane Preparation Checklist:**",
    "What supplies should I bring to the shelter?" := "**Essential Shelter Supplies:**",
    "Are there pet-friendly shelters?" := "**Pet-Friendly Shelters in Tampa:**",
    "What's the latest forecast update?" := "**Latest Hurricane Milton Update:**",
    "What's the traffic situation?" := "**Current Traffic Conditions:**",
    "Where should I go after evacuating?" := "**Safe Evacuation Destinations:**",
    "What if I can't evacuate?" := "**If You Cannot Evacuate:**",
    "How do I secure my windows?" := "**Window Protection Guide:**",
    "Should I turn off utilities?" := "**Utility Shutdown Guide:**",
    "What about my important documents?" := "**Document Protection Strategy:**",
    "How long will the storm last?" := "**Hurricane Milton Timeline:**",
    "When is it safe to return home?" := "**Post-Storm Safety Guide:**"
  ]

  /** The cascade's branches, in the order the page tests them: each branch's phrases, any of which selects it. */
  const BranchPhrases: seq<seq<string>> := [
    ["evacuation routes"],
    ["prepare", "preparation"],
    ["traffic"],
    ["go after evacuating", "destination"],
    ["can't evacuate", "shelter in place"],
    ["secure my windows"],
    ["turn off utilities"],
    ["important documents"],
    ["how long", "duration"],
    ["safe to return", "after the storm"],
    ["supplies"],
    ["pet"],
    ["forecast", "update"]
  ]

  /** The three suggestions each branch sets, in the same order. */
  const BranchSuggestions: seq<seq<string>> := [
    ["What's the traffic situation?", "Where should I go after evacuating?", "What if I can't evacuate?"],
    ["How do I secure my windows?", "Should I turn off utilities?", "What about my important documents?"],
    ["Where should I go after evacuating?", "What if I can't evacuate?", "What's the latest forecast update?"],
    ["How do I prepare for the storm?", "What supplies should I bring to the shelter?", "What's the latest forecast update?"],
    ["How do I secure my windows?", "Should I turn off utilities?", "What supplies do I need if staying?"],
    ["Should I turn off utilities?", "What about my important documents?", "How long will the storm last?"],
    ["What about my important documents?", "How do I secure my windows?", "When is it safe to return home?"],
    ["What supplies should I bring to the shelter?", "How long will the storm last?", "When is it safe to return home?"],
    ["When is it safe to return home?", "What's the latest forecast update?", "What if I can't evacuate?"],
    ["How long will the storm last?", "What's the latest forecast update?", "Where are the nearest shelters?"],
    ["Are there pet-friendly shelters?", "What about my important documents?", "What's the latest forecast update?"],
    ["What supplies should I bring to the shelter?", "Where are the nearest shelters?", "What evacuation routes should I take?"],
    ["How long will the storm last?", "When is it safe to return home?", "What evacuation routes should I take?"]
  ]

  const BranchCount := 13

  lemma BranchTablesAgree()
    ensures |BranchPhrases| == |BranchSuggestions| == BranchCount
    ensures forall k :: 0 <= k < BranchCount ==> |BranchSuggestions[k]| == 3
  {
  }

  /** The suggestions when no branch matches. */
  const DefaultFollowUps: seq<string> := [
    "What's the latest forecast update?", "How long will the storm last?", "When is it safe to return home?"
  ]

  /** The one suggestion of the cascade that has no canned answer. */
  const StayingQuestion := "What supplies do I need if staying?"

  predicate Matches(action: string, k: nat)
    requires k < BranchCount
  {
    ContainsAny(action, BranchPhrases[k])
  }

  /** The first branch at or after `i` that matches. */
  function FirstMatch(action: string, i: nat): (r: Option<nat>)
    requires i <= BranchCount
    ensures r.Some? ==> i <= r.value < BranchCount && Matches(action, r.value)
    ensures forall j :: i <= j < BranchCount && (r.None? || j < r.value) ==> !Matches(action, j)
    decreases BranchCount - i
  {
    if i == BranchCount then None
    else if Matches(action, i) then Some(i)
    else FirstMatch(action, i + 1)
  }

  /**
   * The suggestions set after a canned answer: the list of the first branch
   * with a phrase in the question, or the default list when none has one.
   * There are always three.
   */
  function FollowUps(action: string): (r: seq<string>)
    ensures |r| == 3
    ensures (exists k :: 0 <= k < BranchCount && Matches(action, k)
               && (forall j :: 0 <= j < k ==> !Matches(action, j)) && r == BranchSuggestions[k])
         || ((forall j :: 0 <= j < BranchCount ==> !Matches(action, j)) && r == DefaultFollowUps)
  {
    BranchTablesAgree();
    match FirstMatch(action, 0)
    case Some(k) => BranchSuggestions[k]
    case None => DefaultFollowUps
  }

  /** Every suggestion the cascade offers is a question with a canned answer, except the one about staying. */
  lemma FollowUpsAreCanned(action: string)
    ensures forall s :: s in FollowUps(action) ==> s in CannedReplies || s == StayingQuestion
  {
    assert forall k, s :: 0 <= k < BranchCount && s in BranchSuggestions[k] ==> s in CannedReplies || s == StayingQuestion;
  }

  /** A phrase written out inside a text is contained in it. */
  lemma ContainsWrittenOut(p: string, phrase: string, q: string)
    ensures Contains(p + phrase + q, phrase)
  {
    var s := p + phrase + q;
    assert s[|p|..|p| + |phrase|] == phrase;
    assert OccursAt(s, phrase, |p|);
  }

  /** The first branch wins: a question about evacuation routes gets the traffic/destination/staying list. */
  lemma EvacuationRoutesFirstBranch(action: string)
    requires action == "What evacuation routes should I take?"
    ensures FollowUps(action) == BranchSuggestions[0]
  {
    var p, q := "What ", " should I take?";
    assert action == p + "evacuation routes" + q;
    ContainsWrittenOut(p, "evacuation routes", q);
    assert Matches(action, 0);
  }

  /** In normal mode a quick action fills the input; it is sent 100 ms later when it reads as a complete request. */
  predicate AutoSubmits(action: string) {
    EndsWith(action, "?") || Contains(action, "Show") || Contains(action, "Find") || Contains(action, "Get")
  }

  const AutoSubmitDelayMs: nat := 100

  /** What a quick action does: play a canned exchange, or fill the input (and perhaps send it). */
  datatype QuickOutcome =
    | Scripted(events: seq<Timed<ChatEffect>>)
    | Fill(input: string, submitAfter: Option<nat>)

  /** The canned exchange: the question, 1500 ms of typing indicator, the answer, new suggestions. */
  function CannedExchange(action: string, reply: string, next: seq<string>): seq<Timed<ChatEffect>> {
    [ Timed(0, Append(PlainMessage(User, action))),
      Timed(0, SetLoading(true)),
      Timed(1500, SetLoading(false)),
      Timed(1500, Append(PlainMessage(Assistant, reply))),
      Timed(1500, SetSuggestions(next)) ]
  }

  function QuickAction(action: string, isDemoMode: bool, isTourActive: bool): (r: QuickOutcome)
    ensures r.Scripted? <==> isDemoMode && isTourActive && action in CannedReplies
    ensures r.Fill? ==> r.input == action && (r.submitAfter.Some? <==> AutoSubmits(action))
    ensures r.Fill? && r.submitAfter.Some? ==> r.submitAfter.value == AutoSubmitDelayMs
  {
    if isDemoMode && isTourActive && action in CannedReplies then Scripted(CannedExchange(action, CannedReplies[action], FollowUps(action)))
    else Fill(action, if AutoSubmits(action) then Some(AutoSubmitDelayMs) else None)
  }

  /**
   * A canned exchange appends exactly the question and then the answer,
   * leaves the indicator off and sets the given follow-ups.
   */
  lemma CannedExchangeEffect(v: ChatView, action: string, reply: string, next: seq<string>)
    ensures ApplyAll(v, CannedExchange(action, reply, next)) ==
      ChatView(v.messages + [PlainMessage(User, action), PlainMessage(Assistant, reply)], false, next)
    ensures Chronological(CannedExchange(action, reply, next))
  {
    var evs := CannedExchange(action, reply, next);
    var w1 := Apply(v, evs[0].effect);
    var w2 := Apply(w1, evs[1].effect);
    var w3 := Apply(w2, evs[2].effect);
    var w4 := Apply(w3, evs[3].effect);
    var w5 := Apply(w4, evs[4].effect);
    assert ApplyAll(w4, evs[4..]) == ApplyAll(w5, evs[5..]) == w5;
    assert ApplyAll(w3, evs[3..]) == ApplyAll(w4, evs[4..]);
    assert ApplyAll(w2, evs[2..]) == ApplyAll(w3, evs[3..]);
    assert ApplyAll(w1, evs[1..]) == ApplyAll(w2, evs[2..]);
    assert ApplyAll(v, evs) == ApplyAll(w1, evs[1..]);
    assert v.messages + [PlainMessage(User, action)] + [PlainMessage(Assistant, reply)]
      == v.messages + [PlainMessage(User, action), PlainMessage(Assistant, reply)];
  }

}
