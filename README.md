# Weather Insights and Forecast Advisor — verified model of the deterministic core

The application pairs a React front end (a dashboard of severe-weather alerts,
a chat page, a hurricane-simulation page and a guided tour) with a Python agent
whose tools call the National Weather Service API, BigQuery public datasets and
Google Maps. Around those calls sit small deterministic cores: the guided tour's
state machine and its coupling to demo mode, the fixture sequences pages play
when the tour reaches them, the text parsers and classifiers that turn agent
replies into cards and map markers, the ranking and paging of alert lists, and
the backend's shaping of what the services return. This project models those
cores in Dafny and proves what they promise.

Modules, one per source component:

- `Tour`, `TourButton`, `Storage` — the tour provider (a class over the current
  step, the overlay flag and the completed flag mirrored in localStorage), the
  header button with its 300 ms demo-mode delay, and localStorage as a map from
  key to a typed value (one value shape per key the core writes, instead of JSON text).
- `Chat`, `ChatText`, `ChatMessages`, `ChatPage` — the chat page: its fixed texts,
  the tour reveal and canned quick-action exchanges as timelines, the follow-up
  suggestion cascade, the map-link stripping and marker extraction of a reply,
  and the page object whose handlers update the transcript, the input and the
  typing indicator in place.
- `DashboardParse`, `DashboardAlerts`, `DashboardPage`, `RankSort` — the severe
  weather summary parser, the alert ranking with its top-3 cut, the conversion
  of `map_data` into markers, the carousel, and the dashboard page object. The
  page's many React state variables are grouped into four records (the alerts
  panel, the location filter, the events carousel and the risk modal) plus the
  loading flag; each handler states the whole new value of each record.
- `HurricaneSimulation`, `Clock`, `Geo` — the simulation page, its mock sequence on a
  virtual clock, and the map markers shared by the pages.
- `SevereCard` — the severe-weather card's icon and colour classifiers.
- `WeatherTools` — the backend tools' logic after each network call: the NWS
  alerts query and its filter, severity breakdown, stable priority sort and cut;
  the Google Maps link of `generate_map`; the station fallback of the historical
  query; the census FIPS lookup and totals; the caps on places and route steps.
- `Text`, `Wrappers` — string primitives and the `Option` type standing for
  `null`, `undefined` and `None`.

Timers are a virtual clock: a sequence of `setTimeout` callbacks is a timeline
of effects stamped with their millisecond offsets, and a page method plays the
effects that are due, in order. Network replies, the chosen file, the clock
reading and the presence of the Google API key are parameters.

Where the prose description of the system and the code disagree, the model
follows the code:

- The chat page's tour fixture starts with a user message, so the reveal appends at
  1500, 6000, 9000 and 13500 ms and the typing indicator is on from 1500 to 3000
  ms and from 9000 to 10500 ms only.
- The hurricane page's cleanup cancels only its first timer; once that timer has
  fired the remaining steps always run.
- After "How long will the storm last?" the follow-ups are the default list,
  because the cascade matches case-sensitively and looks for "how long".
- The dashboard's refresh button and its session-expired handler make the same
  state change, modelled once as `DashboardPage.Page.ClearAndReload`.

## Model

| member | source | states |
|---|---|---|
| Tour.CatalogueShape | frontend/src/contexts/TourContext.jsx:20-101 | the catalogue has ten steps with pairwise distinct ids, 'welcome' first and 'complete' last |
| Tour.StepIndex | frontend/src/contexts/TourContext.jsx:20-101 | finds the position of a step id in the catalogue, or reports that no step carries it |
| Tour.Initial | frontend/src/contexts/TourContext.jsx:14-18 | a freshly mounted provider is inactive at step 0, with the completed flag read from storage, and its index is in range |
| Tour.CompletionRoundTrip | frontend/src/contexts/TourContext.jsx:16-18 | a provider mounted after completeTour reads completed, after resetTour reads not completed, and reset after complete is the same as never completing |
| Tour.StartShowsFirstStep | frontend/src/contexts/TourContext.jsx:103-106 | startTour yields active at index 0 ('welcome') whatever the prior state, keeping the completed flag |
| Tour.SkipKeepsCompletion | frontend/src/contexts/TourContext.jsx:122-125 | skipTour leaves the tour inactive at index 0 and never changes the completed flag |
| Tour.ResetKeepsPosition | frontend/src/contexts/TourContext.jsx:134-137 | resetTour clears the completed flag and leaves the active flag and the index alone |
| Tour.NavigationStaysInRange | frontend/src/contexts/TourContext.jsx:108-139 | no sequence of next/previous calls moves the index outside the catalogue, so the current step is always defined |
| Tour.StepsAfterStart | frontend/src/contexts/TourContext.jsx:103-114 | after startTour, k <= 9 calls of next land on step k with the tour still active |
| Tour.NineNextsThenComplete | frontend/src/contexts/TourContext.jsx:108-114 | nine calls of next after start show 'complete' with the tour active; the tenth completes it (inactive, index 0, completed) |
| Tour.NavigationIgnoresActive | frontend/src/contexts/TourContext.jsx:108-120 | below the last step, next and previous do not read the active flag and change only the index; after completion a next moves the hidden index to 1 |
| Tour.TourProvider.constructor | frontend/src/contexts/TourContext.jsx:13-18 | mounting yields the initial state read from the given storage |
| Tour.TourProvider.StartTour | frontend/src/contexts/TourContext.jsx:103-106 | the provider's new state is Start of the old one |
| Tour.TourProvider.NextStep | frontend/src/contexts/TourContext.jsx:108-114 | the provider's new state is Next of the old one; storage is written only when the call completes the tour |
| Tour.TourProvider.PreviousStep | frontend/src/contexts/TourContext.jsx:116-120 | the provider's new state is Previous of the old one (a no-op at step 0) |
| Tour.TourProvider.SkipTour | frontend/src/contexts/TourContext.jsx:122-125 | the provider's new state is Skip of the old one |
| Tour.TourProvider.CompleteTour | frontend/src/contexts/TourContext.jsx:127-132 | inactive, index 0, completed, and 'tourCompleted' = 'true' written to storage |
| Tour.TourProvider.ResetTour | frontend/src/contexts/TourContext.jsx:134-137 | only the completed flag is cleared, and the 'tourCompleted' key is removed from storage |
| Tour.TourProvider.GetCurrentStep | frontend/src/contexts/TourContext.jsx:139 | always returns a catalogue entry, the one at the current index |
| Tour.CompleteThenRemount | frontend/src/contexts/TourContext.jsx:16-132 | completing and then mounting a new provider on the same storage shows the tour as completed, inactive at step 0 |
| TourButton.DemoMode.Toggle | frontend/src/components/TourButton.jsx:13 | toggleDemoMode flips the demo flag |
| TourButton.Label | frontend/src/components/TourButton.jsx:31 | the caption is 'Replay Tour' exactly when the tour was completed and 'Take Tour' exactly when it was not |
| TourButton.LabelFollowsCompletion | frontend/src/components/TourButton.jsx:31 | after completeTour the caption is 'Replay Tour', after resetTour 'Take Tour', and skipTour does not change it |
| TourButton.HandleStartTour | frontend/src/components/TourButton.jsx:10-21 | with demo mode off a click turns it on and schedules startTour 300 ms later without touching the tour; with demo mode on it starts the tour at once; demo mode is on afterwards either way |
| TourButton.OnStartTimer | frontend/src/components/TourButton.jsx:15-17 | the delayed callback starts the tour |
| TourButton.ClickAndWait | frontend/src/components/TourButton.jsx:10-21 | a click plus its timer always ends with demo mode on and the tour active at step 0, the completed flag kept, after 0 or 300 ms |
| Storage.LocalStorage.SetItem | frontend/src/contexts/TourContext.jsx:131 | setItem stores the value under the key and leaves every other key alone |
| Storage.LocalStorage.RemoveItem | frontend/src/contexts/TourContext.jsx:136 | removeItem deletes only that key; removing an absent key changes nothing |
| SevereCard.EventIcon | frontend/src/components/SevereWeatherCard.jsx:12-19 | each icon is chosen exactly when its keyword test on the lower-cased name holds and every earlier test fails (first match wins, shield otherwise) |
| SevereCard.EventColor | frontend/src/components/SevereWeatherCard.jsx:22-28 | red, orange and yellow exactly for lower-cased 'extreme', 'severe' and 'moderate', grey exactly for everything else |
| SevereCard.ClassifiersIgnoreCase | frontend/src/components/SevereWeatherCard.jsx:13-23 | names or severities that agree after lower-casing get the same icon and colour |
| SevereCard.ExtremeIsRed | frontend/src/components/SevereWeatherCard.jsx:23-24 | any capitalisation of 'extreme' colours the card red |
| SevereCard.StormOutranksFlood | frontend/src/components/SevereWeatherCard.jsx:15-18 | a name containing 'tropical storm' gets the storm icon even when it also names a flood |
| SevereCard.AnalyzeClick | frontend/src/components/SevereWeatherCard.jsx:79-83 | the button acts exactly when a handler was passed, and then hands over the card's own event |
| ChatText.UrlLen | frontend/src/pages/Chat.jsx:233 | the link match is the maps prefix plus the longest run of characters other than whitespace and ')' after it, and is at least one character longer than the prefix |
| ChatText.FirstUrlIndex | frontend/src/pages/Chat.jsx:233 | a position is found exactly when some position of the text starts a link, and the found position starts one |
| ChatText.FirstUrlIndexIsLeftmost | frontend/src/pages/Chat.jsx:233 | the found position is the leftmost one: no earlier position starts a link |
| ChatText.UrlAt | frontend/src/pages/Chat.jsx:233 | the link match at a position is the slice from that position over the maps prefix and the whole run of link characters after it; it starts with the prefix, occurs in the text and holds only link characters after the prefix |
| ChatText.FirstUrl | frontend/src/pages/Chat.jsx:233-235 | the map link exists exactly when some position starts a link, and it is the maximal match at the leftmost such position |
| ChatText.LabelLen | frontend/src/pages/Chat.jsx:238 | the 'View map:' pattern's match at the start of a text never runs past its end |
| ChatText.LinkLen | frontend/src/pages/Chat.jsx:239 | the '[View map](…)' pattern's match at the start of a text never runs past its end |
| ChatText.StripAfterUrlStartsOutsideClass | frontend/src/pages/Chat.jsx:240 | after a removed link the remaining output does not start with a link character, since the greedy run consumed them all |
| ChatText.StripReflectsUrlWord | frontend/src/pages/Chat.jsx:240 | a word of link characters at the start of the stripped text was at the start of the input |
| ChatText.UrlPrefixWord | frontend/src/pages/Chat.jsx:240 | every link begins with a word of link characters one longer than the maps prefix |
| ChatText.StripRemovesEveryUrl | frontend/src/pages/Chat.jsx:240 | after the bare-link replace no Google Maps link is left anywhere in the text |
| ChatText.CollapseBlankLines | frontend/src/pages/Chat.jsx:241 | collapsing runs of blank lines never lengthens the text |
| ChatText.NewlineRun | frontend/src/pages/Chat.jsx:241 | the run measured at the start of a text is exactly its leading newlines: all of them, and no character after them is a newline |
| ChatText.CollapseLeadingRun | frontend/src/pages/Chat.jsx:241 | a leading run of newlines comes out as two newlines when it has two or more, unchanged otherwise, followed by the collapse of the rest |
| ChatText.CollapseIsRunByRun | frontend/src/pages/Chat.jsx:241 | the replace agrees on every text with the run-by-run reading: each maximal run of two or more newlines becomes exactly two, every other character is kept in order |
| ChatText.CollapseKeepsHead | frontend/src/pages/Chat.jsx:241 | the first two characters survive collapsing, and a text shorter than two is unchanged |
| ChatText.CollapseLeavesNoTriple | frontend/src/pages/Chat.jsx:241 | after collapsing no three newlines stand in a row |
| ChatText.CollapseKeepsLeadingNewline | frontend/src/pages/Chat.jsx:241 | a text starting with a blank-line run still starts with a newline after collapsing |
| ChatText.CollapseReflectsWord | frontend/src/pages/Chat.jsx:241 | a newline-free word at the start of the collapsed text was at the start of the input |
| ChatText.CollapseKeepsNoUrl | frontend/src/pages/Chat.jsx:241 | collapsing blank lines cannot assemble a link from pieces |
| ChatText.NoUrlSuffix | frontend/src/pages/Chat.jsx:242 | a suffix of a link-free text is link-free |
| ChatText.NoUrlPrefix | frontend/src/pages/Chat.jsx:242 | a prefix of a link-free text is link-free |
| ChatText.TrimKeepsNoUrl | frontend/src/pages/Chat.jsx:242 | trimming keeps a link-free text link-free |
| ChatText.ProcessReply | frontend/src/pages/Chat.jsx:229-243 | the message gets a map link exactly when the reply holds one, and it is the maximal match at the leftmost position that starts a link, so it starts with the maps prefix and occurs in the reply; with no link the content is left unchanged |
| ChatText.ProcessedContentHasNoUrl | frontend/src/pages/Chat.jsx:233-242 | whenever the removal chain runs, no Google Maps link is left in the stored content |
| ChatText.FractionValue | frontend/src/pages/Chat.jsx:252-253 | the digits after a decimal point have a value in [0, 1) |
| ChatText.ParseDecimal | frontend/src/pages/Chat.jsx:252-253 | a matched decimal read as a number has the value of its whole digits as integer part, negated exactly when the match starts with a minus |
| ChatText.DecimalAt | frontend/src/pages/Chat.jsx:246 | a found `-?\d+\.\d+` match has its sign, digits and point in order inside the text |
| ChatText.DecimalAtSound | frontend/src/pages/Chat.jsx:246 | what is found is a `-?\d+\.\d+` match at the position (an optional minus, digits, a point, digits) and no digit follows it, so it is the greedy match |
| ChatText.DecimalAtComplete | frontend/src/pages/Chat.jsx:246 | every `-?\d+\.\d+` match at a position that no digit follows is the one found |
| ChatText.ItemHead | frontend/src/pages/Chat.jsx:246 | a found `N. **Name**` head has a non-empty name and its closing '**' inside the text |
| ChatText.ItemHeadSound | frontend/src/pages/Chat.jsx:246 | what is found is a head match: digits, a point, whitespace, '**', a name without '*', '**' |
| ChatText.ItemHeadComplete | frontend/src/pages/Chat.jsx:246 | every head match at a position is the one found |
| ChatText.Coordinates | frontend/src/pages/Chat.jsx:246 | both found numbers lie inside the text and the part ends after where it started |
| ChatText.CoordinatesSound | frontend/src/pages/Chat.jsx:246 | what is found is a `\s*(lat,\s*lng)` match with both numbers matching `-?\d+\.\d+` |
| ChatText.CoordinatesComplete | frontend/src/pages/Chat.jsx:246 | every such coordinates match at a position is the one found |
| ChatText.ItemAt | frontend/src/pages/Chat.jsx:246 | a found item match has its name and numbers inside the text and ends after its start, inside the text |
| ChatText.ItemAtSound | frontend/src/pages/Chat.jsx:246 | what is found is a match of the whole `locationPattern` at the position |
| ChatText.ItemAtComplete | frontend/src/pages/Chat.jsx:246 | every match of `locationPattern` at a position is the one found |
| ChatText.ItemAtIffPattern | frontend/src/pages/Chat.jsx:246 | an item is found at a position exactly when `locationPattern` matches there |
| ChatText.ItemSpanUnique | frontend/src/pages/Chat.jsx:246 | `locationPattern` matches in at most one way at a position |
| ChatText.MarkerOf | frontend/src/pages/Chat.jsx:250-256 | a marker's latitude and longitude are the two matched decimals read as numbers, its title is the trimmed name group and its address is empty |
| ChatText.MarkersFrom | frontend/src/pages/Chat.jsx:249-257 | the exec loop finds at most one marker per remaining character |
| ChatText.MarkersFromStep | frontend/src/pages/Chat.jsx:249-257 | a match at the position adds its marker and the scan resumes at the match's end |
| ChatText.MarkersFromAppends | frontend/src/pages/Chat.jsx:249-257 | the loop only appends to the markers found before it |
| ChatText.MarkersFromFirst | frontend/src/pages/Chat.jsx:249-257 | a match at the position gives the first marker found from there |
| ChatText.ReadsMatch | frontend/src/pages/Chat.jsx:249 | a match at the position is the leftmost from there: its marker leads what is read from its end |
| ChatText.ReadsSkip | frontend/src/pages/Chat.jsx:249 | where the pattern does not match, reading starts one position further |
| ChatText.MarkersFromReads | frontend/src/pages/Chat.jsx:249-257 | from any position the loop yields the markers of the leftmost match, then of the leftmost match from its end, and so on, with no match at a skipped position |
| ChatText.LeftmostUnique | frontend/src/pages/Chat.jsx:249 | the leftmost match from a position is unique: its place and its parts |
| ChatText.ExecReadsUnique | frontend/src/pages/Chat.jsx:249-257 | a text has only one leftmost-first non-overlapping reading |
| ChatText.MarkersAreTheMatches | frontend/src/pages/Chat.jsx:246-257 | the markers are a given list exactly when that list is the leftmost-first non-overlapping reading of the text, one marker per match with the trimmed name and the parsed numbers |
| ChatText.ExtractMarkers | frontend/src/pages/Chat.jsx:246-257 | the page's while-exec loop yields the markers the scan specifies, hence exactly the non-overlapping matches from left to right |
| ChatText.CenterOf | frontend/src/pages/Chat.jsx:259-262 | the map centre is the first marker's coordinates, and is absent exactly when there are no markers |
| ChatText.NoDigitsNoMarkers | frontend/src/pages/Chat.jsx:246-257 | a text without digits yields no markers |
| Chat.ApplyAllConcat | frontend/src/pages/Chat.jsx:129-172 | running two timelines one after the other is the same as running their concatenation |
| Chat.ApplyAllSnoc | frontend/src/pages/Chat.jsx:129-172 | one more effect at the end of a timeline acts on the page the timeline left |
| Chat.Appended | frontend/src/pages/Chat.jsx:142 | a timeline appends at most one message per effect |
| Chat.AppendedConcat | frontend/src/pages/Chat.jsx:142 | the messages appended by concatenated timelines are the two lists of appended messages in order |
| Chat.RevealFiresOnlyAtChatStep | frontend/src/pages/Chat.jsx:104-108 | the reveal runs exactly when the tour and demo mode are on and the tour is at step 5 ('chat-page') |
| Chat.ItemsBeforeChronological | frontend/src/pages/Chat.jsx:130-168 | the effects of the first n rounds are in time order, between 1500 ms and the start of round n |
| Chat.RoundTimes | frontend/src/pages/Chat.jsx:142-168 | a round's effects are in time order, from when its item is shown to the end of its typing pause |
| Chat.RevealChronological | frontend/src/pages/Chat.jsx:111-172 | the reveal's whole timeline is in time order |
| Chat.ItemsBeforeAppend | frontend/src/pages/Chat.jsx:130-142 | the first n rounds append exactly the first n fixture items, in order |
| Chat.RoundAppends | frontend/src/pages/Chat.jsx:142 | a round appends its own item and nothing else |
| Chat.NoAppendsNothingAppended | frontend/src/pages/Chat.jsx:142 | a timeline with no append effect appends nothing |
| Chat.RevealAppendsItems | frontend/src/pages/Chat.jsx:112-142 | the reveal appends exactly the fixture items, in order |
| Chat.AppendedAfterSilent | frontend/src/pages/Chat.jsx:142 | a timeline that appends nothing does not change what a following timeline appends |
| Chat.OpeningAppendsNothing | frontend/src/pages/Chat.jsx:112-126 | the immediate effects (welcome reset and opening suggestions) append nothing |
| Chat.ChatRevealTimeline | frontend/src/pages/Chat.jsx:129-172 | the page's reveal effect by effect: items shown at 1500, 6000, 9000 and 13500 ms, the indicator on from 1500 to 3000 ms and from 9000 to 10500 ms, suggestions replaced after the assistant items at index 1 and 3 |
| Chat.RoundResult | frontend/src/pages/Chat.jsx:142-168 | one round appends its item, sets the suggestions when it has some, and leaves the indicator off after a typing pause |
| Chat.ItemsBeforeResult | frontend/src/pages/Chat.jsx:130-169 | after n rounds the transcript holds the first n items appended, with the indicator and suggestions the rounds left |
| Chat.OpeningResult | frontend/src/pages/Chat.jsx:112-126 | the immediate effects leave only the welcome message and the opening suggestions |
| Chat.RevealResult | frontend/src/pages/Chat.jsx:112-172 | after the reveal the transcript is the welcome followed by every item; nothing the page held before survives |
| Chat.ChatRevealEndState | frontend/src/pages/Chat.jsx:112-172 | with the page's fixture the indicator ends off and the suggestions are the ones set after the second answer |
| Chat.BranchTablesAgree | frontend/src/pages/Chat.jsx:366-443 | the cascade has 13 branches, each with exactly three suggestions |
| Chat.FirstMatch | frontend/src/pages/Chat.jsx:366-443 | finds the first branch at or after a position whose phrase occurs in the question; no branch before it matches |
| Chat.FollowUps | frontend/src/pages/Chat.jsx:365-451 | always three suggestions: the list of the first branch with a phrase in the question (case-sensitive), or the default list exactly when no branch matches |
| Chat.FollowUpsAreCanned | frontend/src/pages/Chat.jsx:310-451 | every suggested follow-up has a canned answer, except "What supplies do I need if staying?" |
| Chat.EvacuationRoutesFirstBranch | frontend/src/pages/Chat.jsx:366-371 | "What evacuation routes should I take?" gets the first branch's list |
| Chat.QuickAction | frontend/src/pages/Chat.jsx:307-469 | a canned exchange plays exactly in demo mode during the tour for a question with a canned answer; otherwise the input is filled with the action and sent 100 ms later exactly when it ends in '?' or contains Show, Find or Get |
| Chat.CannedExchangeEffect | frontend/src/pages/Chat.jsx:336-363 | for any answer text, a canned exchange appends exactly the question and then that answer, in time order, and ends with the indicator off and the follow-ups set (the model's canned answers are their title lines only) |
| ChatPage.WithoutImages | frontend/src/pages/Chat.jsx:59-63 | the saved copy has one entry per message, each the same message with its image dropped |
| ChatPage.ReloadAfterSave | frontend/src/pages/Chat.jsx:15-65 | reloading after a successful save gives back every message, in order, with only its image dropped |
| ChatPage.WithoutImagesIdempotent | frontend/src/pages/Chat.jsx:59-63 | saving a reloaded transcript writes the same thing again |
| ChatPage.QuotaFailureForgetsTranscript | frontend/src/pages/Chat.jsx:15-71 | after a quota failure the key is gone, so the next page load starts from the welcome message alone |
| ChatPage.IgnoresIffBlank | frontend/src/pages/Chat.jsx:199 | a submit is ignored exactly when the trimmed input is empty and no image is selected, or while loading |
| ChatPage.SentText | frontend/src/pages/Chat.jsx:203 | the user's message is never empty: the input as typed, or the image prompt when the input is empty |
| ChatPage.SentAsShown | frontend/src/pages/Chat.jsx:201-223 | what is sent is what the user's message shows, and the image goes along exactly when one is attached |
| ChatPage.ReplyText | frontend/src/pages/Chat.jsx:229 | a missing or empty reply content is replaced by the apology; any other content is kept |
| ChatPage.AssistantReply | frontend/src/pages/Chat.jsx:265-300 | the answer is always an assistant message without an image, and a failed request gives exactly the apology message |
| ChatPage.AssistantReplyShows | frontend/src/pages/Chat.jsx:229-272 | an answered query leaves no map link in the text, has a map link exactly when the reply text held one, carries the markers of the raw reply and is centred on the first of them when there is one |
| ChatPage.Page.constructor | frontend/src/pages/Chat.jsx:15-50 | mounting loads the transcript from storage, with an empty form, the indicator off and the opening suggestions |
| ChatPage.Page.SaveTranscript | frontend/src/pages/Chat.jsx:59-73 | a successful save writes the image-free copy; a quota failure removes the key without retrying; any other failure leaves storage unchanged |
| ChatPage.Page.Fire | frontend/src/pages/Chat.jsx:129-172 | one timer callback applies its effect to the page and is recorded at the end of the timeline so far, leaving the form alone |
| ChatPage.Page.PlayReveal | frontend/src/pages/Chat.jsx:111-172 | the in-place reveal performs exactly the reveal timeline on the page |
| ChatPage.Page.PlayRound | frontend/src/pages/Chat.jsx:130-168 | one pass of the reveal loop performs exactly that round's effects and advances the virtual clock to the next round's start |
| ChatPage.Page.OnTourChange | frontend/src/pages/Chat.jsx:104-175 | at step 'chat-page' with tour and demo mode on, the page ends with the tour welcome followed by the fixture items, the indicator off and the second set of follow-ups; otherwise nothing changes |
| ChatPage.Page.HandleQuickAction | frontend/src/pages/Chat.jsx:307-469 | during the demo tour a question with a canned answer appends exactly question then answer and sets the cascade's follow-ups; anything else fills the input and reports the delayed submit, changing nothing else |
| ChatPage.Page.PlayCanned | frontend/src/pages/Chat.jsx:338-363 | the handler's awaited steps perform exactly the canned exchange on the page |
| ChatPage.Page.Submit | frontend/src/pages/Chat.jsx:197-304 | an ignored submit changes nothing; otherwise exactly the user's message and then one assistant message are appended, the form is cleared, the request matches the input and image, follow-ups are replaced only by a non-empty list, and loading ends false |
| ChatPage.Page.Send | frontend/src/pages/Chat.jsx:201-217 | before the await: the user's message is appended, the form cleared, the indicator turned on and the request built from the old input and image |
| ChatPage.Page.Receive | frontend/src/pages/Chat.jsx:265-303 | after the await: exactly one assistant message is appended, the follow-ups are refreshed when the reply allows it, and the indicator ends off |
| ChatPage.Page.RefreshSuggestions | frontend/src/pages/Chat.jsx:278-288 | only a non-empty returned list replaces the suggestions, and the follow-up indicator ends off |
| ChatPage.Page.SelectImage | frontend/src/pages/Chat.jsx:177-180 | a picked file is attached only when its MIME type starts with 'image/'; nothing else changes |
| ChatPage.Page.PreviewLoaded | frontend/src/pages/Chat.jsx:182-184 | the reader's data URL becomes the preview; nothing else changes |
| ChatPage.Page.RemoveImage | frontend/src/pages/Chat.jsx:189-195 | the attachment and its preview are cleared; nothing else changes |
| ChatPage.Page.ClearChat | frontend/src/pages/Chat.jsx:471-482 | the transcript becomes the single welcome message and is written to storage at once; nothing else changes |
| ChatPage.Page.OnSessionExpired | frontend/src/pages/Chat.jsx:80-94 | the transcript becomes the shorter session welcome; nothing else changes |
| ChatPage.ClearChatSavesWelcome | frontend/src/pages/Chat.jsx:59-481 | Clear Chat's own write and the save effect that follows it store the same transcript |
| Clock.ChronologicalConcat | frontend/src/pages/Chat.jsx:129-172 | two timelines in time order, the first ending no later than the second begins, make one timeline in time order |
| Clock.WithinConcat | frontend/src/pages/Chat.jsx:129-172 | two timelines within the same time bounds stay within them when joined |
| Clock.DueAfter | frontend/src/pages/HurricaneSimulation.jsx:91-97 | the effects still due after a time are exactly the timeline's effects stamped later than it |
| Clock.DueBySpec | frontend/src/pages/HurricaneSimulation.jsx:43-95 | the effects that have happened by a time are exactly the timeline's effects stamped no later than it |
| Clock.DueByPrefix | frontend/src/pages/HurricaneSimulation.jsx:43-95 | when exactly the first k effects are stamped by a time, those k are what has happened |
| HurricaneSimulation.HighestScore | frontend/src/pages/HurricaneSimulation.jsx:61 | the largest risk score: no location scores higher and some location scores exactly that; none for an empty list |
| HurricaneSimulation.MockPlan | frontend/src/pages/HurricaneSimulation.jsx:57-73 | the canned result's total_high_risk_locations is the number of prioritized locations it lists, and highest_risk_score is their maximum score |
| HurricaneSimulation.FixtureSummary | frontend/src/pages/HurricaneSimulation.jsx:57-73 | the fixture's canned result names five locations and its highest score is 9.8 |
| HurricaneSimulation.StationMarkers | frontend/src/pages/HurricaneSimulation.jsx:80-87 | the canned markers are one per prioritized location, in order, with its coordinates, score and station name ('High Risk Location' when it has none) |
| HurricaneSimulation.PriorityMarkers | frontend/src/pages/HurricaneSimulation.jsx:133-140 | a live analysis's markers are one per prioritized location, in order, numbered from 1 |
| HurricaneSimulation.PlanMarkers | frontend/src/pages/HurricaneSimulation.jsx:133-146 | a missing plan or an empty location list gives no markers |
| HurricaneSimulation.ApplyAllSnoc | frontend/src/pages/HurricaneSimulation.jsx:43-95 | one more timer step at the end of a sequence acts on the page the sequence left |
| HurricaneSimulation.TimelineOrder | frontend/src/pages/HurricaneSimulation.jsx:43-95 | the canned sequence is in time order, with the preview at 1000 ms, analysing at 2500 ms and the result at 5500 ms |
| HurricaneSimulation.LateCleanupCancelsNothing | frontend/src/pages/HurricaneSimulation.jsx:91-97 | a cleanup after the first timer fired cancels nothing: every later step still happens |
| HurricaneSimulation.EarlyCleanupLeavesCleared | frontend/src/pages/HurricaneSimulation.jsx:35-97 | a cleanup before the first timer leaves the page cleared, with no preview, result or markers |
| HurricaneSimulation.TimelineSteps | frontend/src/pages/HurricaneSimulation.jsx:35-88 | the page after each step of the sequence: cleared, then the sample preview, then analysing, then the result and its markers with analysing off |
| HurricaneSimulation.ViewBeforePreview | frontend/src/pages/HurricaneSimulation.jsx:35-43 | before 1000 ms only the clearing has happened |
| HurricaneSimulation.ViewPreview | frontend/src/pages/HurricaneSimulation.jsx:43-45 | from 1000 ms to 2500 ms the sample preview is shown and nothing else has changed |
| HurricaneSimulation.ViewAnalysing | frontend/src/pages/HurricaneSimulation.jsx:48-50 | from 2500 ms to 5500 ms the analysing indicator is on beside the preview |
| HurricaneSimulation.ViewResult | frontend/src/pages/HurricaneSimulation.jsx:53-88 | from 5500 ms the plan and its markers are shown and the indicator is off again |
| HurricaneSimulation.MockTrigger | frontend/src/pages/HurricaneSimulation.jsx:30 | the canned sequence runs exactly in demo mode, or while the tour is active at step 8 ('hurricane-simulation') |
| HurricaneSimulation.RiskLevelText | frontend/src/pages/HurricaneSimulation.jsx:193-197 | 'High Risk' exactly from 60, 'Moderate Risk' exactly from 40 to below 60, 'Low Risk' exactly below 40 |
| HurricaneSimulation.RiskLevelColor | frontend/src/pages/HurricaneSimulation.jsx:187-191 | red, yellow and green exactly on the same thresholds as the text |
| HurricaneSimulation.SimulationPage.constructor | frontend/src/pages/HurricaneSimulation.jsx:20-25 | the page starts with no image, no preview, no result, no error, no markers and not analysing |
| HurricaneSimulation.SimulationPage.Fire | frontend/src/pages/HurricaneSimulation.jsx:35-88 | a timer callback applies its step to the page |
| HurricaneSimulation.SimulationPage.RunMockEffect | frontend/src/pages/HurricaneSimulation.jsx:29-99 | when the sequence should run, the page ends as the canned sequence played up to the cleanup leaves it; otherwise nothing changes |
| HurricaneSimulation.SimulationPage.Play | frontend/src/pages/HurricaneSimulation.jsx:43-95 | firing the callbacks in order leaves the page as the whole sequence does |
| HurricaneSimulation.SimulationPage.SelectImage | frontend/src/pages/HurricaneSimulation.jsx:101-106 | a chosen file is attached and the error cleared; no file changes nothing |
| HurricaneSimulation.SimulationPage.DropImage | frontend/src/pages/HurricaneSimulation.jsx:159-165 | a dropped file is attached and the error cleared only when its MIME type starts with 'image/' |
| HurricaneSimulation.SimulationPage.PreviewLoaded | frontend/src/pages/HurricaneSimulation.jsx:109-169 | the reader's data URL becomes the preview and nothing else changes |
| HurricaneSimulation.SimulationPage.HandleAnalyze | frontend/src/pages/HurricaneSimulation.jsx:116-153 | with no image only the error 'Please select an image first' is set and nothing is sent; otherwise the image is sent and the page shows the outcome, never left analysing |
| HurricaneSimulation.SimulationPage.ClearImage | frontend/src/pages/HurricaneSimulation.jsx:174-185 | in demo mode nothing changes; otherwise image, preview, result, error and markers are cleared |
| HurricaneSimulation.AnalysedShowsPlan | frontend/src/pages/HurricaneSimulation.jsx:126-152 | a finished analysis is not analysing, shows one numbered marker per prioritized location of a returned plan, and on an error keeps the markers and shows an error |
| DashboardParse.ShortDescription | frontend/src/pages/Dashboard.jsx:375-376 | the card text is the line itself when it has at most 100 characters, and otherwise its first 100 characters followed by '...', so never more than 103 |
| DashboardParse.FirstNamedFrom | frontend/src/pages/Dashboard.jsx:554-560 | finds the first listed state the text contains (case-sensitive), and none exactly when the text contains none of them |
| DashboardParse.ExtractLocation | frontend/src/pages/Dashboard.jsx:552-561 | the loop with early return gives the first of the seven states the text names, or null |
| DashboardParse.Search | frontend/src/pages/Dashboard.jsx:364-392 | a non-global match is the pattern's match at some position of the text |
| DashboardParse.SearchNone | frontend/src/pages/Dashboard.jsx:364-392 | the search finds nothing exactly when the pattern matches at no position |
| DashboardParse.SearchLeftmost | frontend/src/pages/Dashboard.jsx:364-392 | the search finds the leftmost position where the pattern matches |
| DashboardParse.StormNameAt | frontend/src/pages/Dashboard.jsx:364 | a match at a position yields 'hurricane' or 'tropical storm' in any case and a non-empty word of word characters |
| DashboardParse.StormName | frontend/src/pages/Dashboard.jsx:364-366 | the storm's word a line names is non-empty and made of word characters |
| DashboardParse.WindAt | frontend/src/pages/Dashboard.jsx:392 | a wind match yields a non-empty run of digits |
| DashboardParse.WindSpeed | frontend/src/pages/Dashboard.jsx:391-395 | the wind speed shown is a number followed by ' mph' |
| DashboardParse.LastWord | frontend/src/pages/Dashboard.jsx:366-380 | the trailing run of word characters of a name, which is a suffix of it |
| DashboardParse.LastWordAfter | frontend/src/pages/Dashboard.jsx:380 | in 'Keyword Word' the storm's word is recovered as the name's last word |
| DashboardParse.StormEvent | frontend/src/pages/Dashboard.jsx:374-389 | a storm event is a hurricane card whose name ends in the matched word, with its card text the short form of the line, severity 'Extreme' exactly when the lower-cased line contains 'hurricane' and 'Severe' exactly otherwise |
| DashboardParse.StormLine | frontend/src/pages/Dashboard.jsx:346-366 | a line offers no storm exactly when it is a skipped visualisation line, lacks the case-sensitive keyword, or the pattern does not match; an offer is a valid storm event |
| DashboardParse.KeepValid | frontend/src/pages/Dashboard.jsx:368-397 | taking one more line's offer keeps every kept event a described storm and never keeps a storm word twice |
| DashboardParse.ScanValid | frontend/src/pages/Dashboard.jsx:346-400 | a scan over any lines keeps the events valid and the storm words distinct |
| DashboardParse.ScanStormsValid | frontend/src/pages/Dashboard.jsx:346-400 | the same for the hurricane section's lines |
| DashboardParse.AlertEvent | frontend/src/pages/Dashboard.jsx:412-439 | a warning event is a 'Severe' card of the given kind whose card text is the short form of its trimmed line |
| DashboardParse.AlertLine | frontend/src/pages/Dashboard.jsx:409-441 | at most two events per line: a heat event comes first exactly when the line has 'heat' and 'warning' in any case, and a flood event comes last exactly when it has 'flood' and 'warning' |
| DashboardParse.AlertLineEvents | frontend/src/pages/Dashboard.jsx:411-440 | every alert event is a 'Severe' heat or flood card whose full text is its trimmed line and whose location is the first state it names, or 'Multiple States' / 'Multiple Areas' |
| DashboardParse.ConcatMapAppend | frontend/src/pages/Dashboard.jsx:409-441 | mapping more lines only appends events after those of the earlier lines |
| DashboardParse.AlertsOfValid | frontend/src/pages/Dashboard.jsx:405-442 | every event read from the alerts section is a described 'Severe' card, never a storm |
| DashboardParse.ReadStormLine | frontend/src/pages/Dashboard.jsx:346-399 | one loop iteration records the line's storm and keeps its event unless the storm's word was seen |
| DashboardParse.ReadAlertLine | frontend/src/pages/Dashboard.jsx:409-441 | one loop iteration pushes the line's heat event, then its flood event, each located by extractLocation |
| DashboardParse.ReadStorms | frontend/src/pages/Dashboard.jsx:344-400 | the hurricane loop yields exactly the scan's events: every line read in order, a storm already seen adding nothing |
| DashboardParse.ReadAlerts | frontend/src/pages/Dashboard.jsx:405-442 | the alerts loop yields exactly every line's warnings in line order |
| DashboardParse.ParseSevereWeatherEvents | frontend/src/pages/Dashboard.jsx:333-446 | the parse is the hurricane section's events, then the alert section's, cut to six |
| DashboardParse.SectionKinds | frontend/src/pages/Dashboard.jsx:338-442 | hurricane-section events are all described storms and alert-section events are none |
| DashboardParse.StormsThenAlerts | frontend/src/pages/Dashboard.jsx:397-430 | in storm events followed by alert events an index holds a storm exactly when it falls in the first part |
| DashboardParse.SevereEventsOrder | frontend/src/pages/Dashboard.jsx:333-446 | at most six events survive; they are a prefix of the storm events followed by the alert events, so every storm comes before every alert |
| DashboardParse.HurricaneEventsDistinct | frontend/src/pages/Dashboard.jsx:368-372 | the hurricane section never yields two events for the same storm word |
| DashboardParse.DistinctStormsInPrefix | frontend/src/pages/Dashboard.jsx:368-445 | cutting the list keeps the storm words distinct |
| DashboardParse.DistinctStorms | frontend/src/pages/Dashboard.jsx:368-445 | no storm word is reported twice in the result, whatever keyword precedes it |
| DashboardParse.DescriptionsBounded | frontend/src/pages/Dashboard.jsx:375-429 | every card text is at most 103 characters and is the short form of its full text |
| DashboardParse.AlertsInLineOrder | frontend/src/pages/Dashboard.jsx:409-441 | reading more alert lines only appends: events keep the order of their lines |
| DashboardParse.ScanExtends | frontend/src/pages/Dashboard.jsx:346-400 | reading more lines only appends events and only adds seen storms |
| DashboardParse.StormsInLineOrder | frontend/src/pages/Dashboard.jsx:346-400 | reading more hurricane lines only appends: earlier storms keep their events and places |
| DashboardParse.HeatAndFloodFromOneLine | frontend/src/pages/Dashboard.jsx:411-440 | one warning line naming both heat and flood yields a heat event and then a flood event |
| DashboardAlerts.Rank | frontend/src/pages/Dashboard.jsx:490-496 | no severity ranks above Extreme's 4, the bound the rank sort counts down from |
| DashboardAlerts.ByRankSpec | frontend/src/pages/Dashboard.jsx:490-496 | the national sort is a permutation of the alerts, highest rank first, with equal ranks in their original order (the sort is stable) |
| DashboardAlerts.TopAlerts | frontend/src/pages/Dashboard.jsx:498 | at most three alerts are kept |
| DashboardAlerts.TopAlertsSpec | frontend/src/pages/Dashboard.jsx:490-498 | the kept alerts are the first of the sorted list: all of them when there are fewer than three, otherwise exactly three |
| DashboardAlerts.TopAlertsOutrank | frontend/src/pages/Dashboard.jsx:490-498 | every kept alert comes from the reply, and none ranks below an alert that was left out |
| DashboardAlerts.Lookup | frontend/src/pages/Dashboard.jsx:243-253 | reading a key of `map_data` finds its value exactly when some entry has that key |
| DashboardAlerts.EntryMarker | frontend/src/pages/Dashboard.jsx:260-265 | an entry's marker is titled with its key and placed at its lat/lng, or at 39.8283 / -98.5795 when they are missing or 0 |
| DashboardAlerts.EntryMarkers | frontend/src/pages/Dashboard.jsx:258-265 | at most one marker per `map_data` entry |
| DashboardAlerts.AllEntryMarkers | frontend/src/pages/Dashboard.jsx:512-519 | one marker per entry, in order, reserved keys included (the national loader does not filter them) |
| DashboardAlerts.EntryMarkersTitles | frontend/src/pages/Dashboard.jsx:258-265 | every marker made from entries is the marker of an entry whose key is not center, zoom or map_url |
| DashboardAlerts.EntryMarkersComplete | frontend/src/pages/Dashboard.jsx:258-265 | every entry whose key is not reserved gives a marker |
| DashboardAlerts.EmptyMarkersBecomeMarker | frontend/src/pages/Dashboard.jsx:253-265 | when a reply lists alerts and its `markers` array is empty, that array becomes a marker of its own, titled 'markers', at the default position |
| DashboardAlerts.LoadedPanelFound | frontend/src/pages/Dashboard.jsx:233-272 | a reply with a non-empty alerts list shows exactly those alerts and says how many; without map data the markers are cleared and the centre kept; a non-empty `markers` array is used as it is |
| DashboardAlerts.LoadedPanelFailed | frontend/src/pages/Dashboard.jsx:229-310 | a failed load, or a null reply, shows the failure text, empties the list and leaves the map alone |
| DashboardAlerts.LoadedPanelNoMap | frontend/src/pages/Dashboard.jsx:269-302 | a reply without `map_data` clears the markers and keeps the centre |
| DashboardAlerts.FirstWithAlerts | frontend/src/pages/Dashboard.jsx:470-482 | the first place whose reply lists alerts; no earlier place's reply did, and none when no reply did |
| DashboardAlerts.AskedPlaces | frontend/src/pages/Dashboard.jsx:470-482 | the places asked are a prefix of the list: all of them, or those up to and including the first whose reply lists alerts |
| DashboardAlerts.LastResponseIsFirst | frontend/src/pages/Dashboard.jsx:464-486 | the loop ends holding a reply with alerts exactly when some place had one, and then it is the first such reply |
| DashboardAlerts.FallbackMarkers | frontend/src/pages/Dashboard.jsx:524-530 | one fallback marker per kept alert, in order, at the default position and titled "event - severity" |
| DashboardAlerts.NationalMarkersSpec | frontend/src/pages/Dashboard.jsx:502-532 | at most three markers; without usable map data exactly one fallback marker per kept alert; otherwise the first min(n, 3) entries of a non-empty `markers` array of length n, or else the first min(n, 3) of the n entries, each with its center and zoom |
| DashboardAlerts.ClicksStayInRange | frontend/src/pages/Dashboard.jsx:725-736 | from an index in [0, len-3], every sequence of Previous/Next clicks stays in that range |
| DashboardAlerts.DisabledAtEnds | frontend/src/pages/Dashboard.jsx:726-736 | in range, Next is disabled exactly at len-3 and Previous exactly at 0 |
| DashboardAlerts.PreviousUndoesNext | frontend/src/pages/Dashboard.jsx:725-735 | Previous undoes a Next that moved a whole page |
| DashboardAlerts.Window | frontend/src/pages/Dashboard.jsx:753 | at most three cards are shown, and at least one while the index is inside the list |
| DashboardAlerts.WindowFull | frontend/src/pages/Dashboard.jsx:753 | in range, exactly the three consecutive cards starting at the index are shown |
| DashboardPage.EventCards | frontend/src/pages/Dashboard.jsx:324-325 | one card per parsed event, in order |
| DashboardPage.AlertCards | frontend/src/pages/Dashboard.jsx:119 | one card per fixture alert, in order |
| DashboardPage.FixtureSteps | frontend/src/pages/Dashboard.jsx:110-115 | the fixture loads exactly with tour and demo on at step 2 ('dashboard-alerts') or step 4 ('dashboard-map') |
| DashboardPage.FindRegion | frontend/src/pages/Dashboard.jsx:567 | finds a region whose list is the value, and none exactly when no region has it |
| DashboardPage.DisplayNameSpec | frontend/src/pages/Dashboard.jsx:564-651 | a region filter searches the region's display name when the value is a region's list; any other value, or a state filter, is searched as given |
| DashboardPage.Page.constructor | frontend/src/pages/Dashboard.jsx:26-70 | a page over empty storage: no alerts, text or markers, the default centre, region 'National', no cards, the modal closed |
| DashboardPage.Page.LoadAlerts | frontend/src/pages/Dashboard.jsx:226-314 | ignored while loading; otherwise the panel shows the reply's outcome and loading ends off; nothing else changes |
| DashboardPage.Page.LoadNationalSevereAlerts | frontend/src/pages/Dashboard.jsx:448-550 | ignored while loading; otherwise the places are asked in turn up to the first reply with alerts, and the panel holds that reply's top three alerts and their markers, or nothing |
| DashboardPage.Page.LoadSevereWeatherEvents | frontend/src/pages/Dashboard.jsx:316-331 | ignored while the events load; a reply replaces the cards with the parsed events, a failure keeps them |
| DashboardPage.Page.FirstMount | frontend/src/pages/Dashboard.jsx:146-172 | without saved alerts the location becomes 'all US states' with filter 'region' and region 'National' and that search runs; with them the panel is kept and only a saved 'National' region is restored; the events load only when none were saved |
| DashboardPage.Page.OnTourStep | frontend/src/pages/Dashboard.jsx:110-144 | at a fixture step the cards become the fixture alerts, the panel shows the fixture insights, markers and centre, and the location, region 'South' and filter 'region' are set; at any other step nothing changes; the modal never opens (the risk-analysis branch cannot run) |
| DashboardPage.Page.HandleStateSelect | frontend/src/pages/Dashboard.jsx:575-579 | the state is set, the region cleared and the dropdown closed; nothing else changes |
| DashboardPage.Page.HandleApplyState | frontend/src/pages/Dashboard.jsx:581-592 | without a state only the text 'Please select a state' is set; with one, a state search for it runs |
| DashboardPage.Page.HandleClearState | frontend/src/pages/Dashboard.jsx:594-597 | state and region are cleared; nothing else changes |
| DashboardPage.Page.HandleSelectRegion | frontend/src/pages/Dashboard.jsx:599-608 | the location becomes the region's list with filter 'region', the region is chosen, the state cleared and the dropdown closed, and the list is searched at once (ignored while loading) |
| DashboardPage.Page.HandleFilterChange | frontend/src/pages/Dashboard.jsx:564-573 | the location becomes the value's display name, the filter type is recorded and that name is searched (ignored while loading) |
| DashboardPage.Page.ClearAndReload | frontend/src/pages/Dashboard.jsx:610-634 | location and filter are cleared, the panel emptied and the map recentred; the cards are cleared and reloaded (empty when that load fails); then the national loader fills the panel from the first reply with alerts |
| DashboardPage.Page.ClickPrevious | frontend/src/pages/Dashboard.jsx:725-726 | the carousel index moves back a page, not below 0 (unchanged when disabled); nothing else changes |
| DashboardPage.Page.ClickNext | frontend/src/pages/Dashboard.jsx:735-736 | the carousel index moves forward a page, not past len-3 (unchanged when disabled); nothing else changes |
| DashboardPage.Page.HandleAnalyzeRisk | frontend/src/pages/Dashboard.jsx:200-224 | the modal opens on the card and ends showing the demo fixture, the backend's analysis or the error text, no longer analysing |
| DashboardPage.AskInTurn | frontend/src/pages/Dashboard.jsx:464-482 | the loop over the national places ends on the reply the specification function LastResponse gives and has asked exactly AskedPlaces: the places up to the first whose reply lists alerts |
| DashboardPage.NationalPanelFromFirst | frontend/src/pages/Dashboard.jsx:464-541 | after a national load the alerts shown are the top three of the first reply with alerts, with their markers, or none when no place had any |
| RankSort.DescendingPermutes | frontend/src/pages/Dashboard.jsx:490-496 | the counting-down sort rearranges exactly the elements of rank at most the bound: nothing is lost or added |
| RankSort.DescendingSorted | frontend/src/pages/Dashboard.jsx:490-496 | the sorted list never places a lower rank before a higher one, and every element in it is within the bound |
| RankSort.DescendingStable | frontend/src/pages/Dashboard.jsx:490-496 | each rank's elements keep their input order, as the stable `Array.prototype.sort` and Python `list.sort` keep them |
| RankSort.DescendingSpec | weather_insights_agent/weather_tools/tools.py:633-635 | when every rank is within the bound, the sort is a permutation of its input of the same length, descending and stable |
| RankSort.BucketPrefix | weather_insights_agent/weather_tools/tools.py:637 | the elements of one rank in a prefix are a prefix of that rank's elements in the whole list |
| RankSort.SortedPrefix | frontend/src/pages/Dashboard.jsx:498 | a prefix of a descending list is a sub-multiset of it and outranks, element by element, everything after it |
| Text.Lower | frontend/src/pages/Dashboard.jsx:348 | lower-casing keeps the length and lower-cases each character in place |
| Text.Upper | weather_insights_agent/weather_tools/tools.py:120 | upper-casing keeps the length and upper-cases each character in place |
| Text.Trim | frontend/src/pages/Dashboard.jsx:375 | the trimmed text is a slice of the input with only whitespace cut from either end, and it neither starts nor ends with whitespace |
| Text.TrimEmptyIffBlank | frontend/src/pages/Chat.jsx:199 | trimming leaves nothing exactly when the input is all whitespace, so `!input.trim()` means a blank input |
| Text.Split | frontend/src/pages/Dashboard.jsx:344 | `split('\n')` gives at least one piece and no piece holds a newline |
| Text.SplitJoin | frontend/src/pages/Dashboard.jsx:407 | joining the pieces with the separator gives back the text: splitting loses nothing |
| Text.NatToString | frontend/src/pages/Dashboard.jsx:236 | a count renders as a non-empty string of digits with no leading zero |
| Text.NatToStringRoundTrip | weather_insights_agent/weather_tools/tools.py:1112 | reading the rendered digits back gives the number |
| WeatherTools.AlertsQueryFor | weather_insights_agent/weather_tools/tools.py:590-595 | a point query exactly when both coordinates are truthy (non-zero), otherwise an area query exactly when the state is a non-empty string, otherwise the nationwide query; a point or area query carries the given values |
| WeatherTools.Matching | weather_insights_agent/weather_tools/tools.py:606-611 | the features kept are exactly those whose severity equals the requested one, or all of them when no severity (or an empty one) is asked |
| WeatherTools.MatchingConcat | weather_insights_agent/weather_tools/tools.py:606-611 | filtering two feature lists in turn gives their filtered lists one after the other, so the filter keeps order and repeated features |
| WeatherTools.MatchingKeepsAll | weather_insights_agent/weather_tools/tools.py:606-611 | when every feature passes, the list is kept as it is |
| WeatherTools.MatchingWithoutSeverity | weather_insights_agent/weather_tools/tools.py:606-611 | with no severity (or an empty one) asked, every feature is listed, in order and with its repeats |
| WeatherTools.FormatAll | weather_insights_agent/weather_tools/tools.py:613-628 | one formatted alert per kept feature, in order |
| WeatherTools.BumpKeys | weather_insights_agent/weather_tools/tools.py:614 | counting a severity keeps the existing keys in place and appends a new key with count 1 only when it was absent |
| WeatherTools.BumpCounts | weather_insights_agent/weather_tools/tools.py:614 | counting a severity adds one to that severity's count and leaves every other count alone |
| WeatherTools.BumpTotal | weather_insights_agent/weather_tools/tools.py:614 | counting a severity adds one to the total |
| WeatherTools.BumpDistinct | weather_insights_agent/weather_tools/tools.py:614 | the breakdown never holds a key twice |
| WeatherTools.TallySpec | weather_insights_agent/weather_tools/tools.py:606-614 | counting a list of severities adds each severity's number of occurrences to its count and the list's length to the total, keeping the keys distinct and in place |
| WeatherTools.InitialZeroed | weather_insights_agent/weather_tools/tools.py:604 | the breakdown starts with Extreme, Severe, Moderate, Minor and Unknown all at 0 |
| WeatherTools.TallyFromZero | weather_insights_agent/weather_tools/tools.py:604-614 | from all-zero counts, each count is the number of alerts of that severity and the counts sum to the number of alerts |
| WeatherTools.BreakdownSpec | weather_insights_agent/weather_tools/tools.py:604-628 | the breakdown starts with the five fixed keys, has distinct keys, counts each severity's alerts exactly and sums to the number of alerts |
| WeatherTools.Priority | weather_insights_agent/weather_tools/tools.py:634-635 | the priority is at most 4; it is 0 exactly for Extreme and 4 exactly for a severity outside the four named ones |
| WeatherTools.LimitSpec | weather_insights_agent/weather_tools/tools.py:630-638 | up to 20 alerts are kept as they are; above 20 exactly 15 are kept, the first of the sorted list, in priority order, none less critical than an alert left out, each severity's alerts in their original order, all taken from the input |
| WeatherTools.ReportSpec | weather_insights_agent/weather_tools/tools.py:630-660 | the returned count is the number of alerts returned, at most the total, which is at most the number of features; the list is limited exactly above 20 alerts and then holds 15 and carries a note; the breakdown sums to the total; with a severity asked every alert has it |
| WeatherTools.BreakdownSnoc | weather_insights_agent/weather_tools/tools.py:613-614 | appending one alert to the list counts its severity once more |
| WeatherTools.CollectAlerts | weather_insights_agent/weather_tools/tools.py:603-628 | the loop returns the formatted matching alerts and their severity breakdown |
| WeatherTools.GetNwsAlerts | weather_insights_agent/weather_tools/tools.py:570-667 | a failed request gives 'Failed to get alerts: ' and the error and saves nothing; a reply gives the limited report and saves its record under 'alerts' |
| WeatherTools.WaypointWindow | weather_insights_agent/weather_tools/tools.py:1065 | at most eight markers after the first are considered as waypoints |
| WeatherTools.LinkSpec | weather_insights_agent/weather_tools/tools.py:1054-1078 | no markers give exactly the search link at the centre; otherwise the destination is the first marker's position or the centre, and the waypoints are, in marker order, the positions of those of markers 2 to 9 whose coordinates are both truthy, at most eight |
| WeatherTools.FilterConcat | weather_insights_agent/weather_tools/tools.py:1065-1069 | filtering two lists in turn gives their filtered lists one after the other, so the waypoint filter keeps marker order and repeats |
| WeatherTools.FilterKeepsAll | weather_insights_agent/weather_tools/tools.py:1065-1069 | when every marker is usable the list is kept as it is |
| WeatherTools.RouteTextSpec | weather_insights_agent/weather_tools/tools.py:1072-1075 | a route URL starts with the directions prefix and destination, ends with '&travelmode=driving', and has a '&waypoints=' part exactly when there are waypoints |
| WeatherTools.SearchTextSpec | weather_insights_agent/weather_tools/tools.py:1078 | a search URL starts with the search prefix and ends with '&zoom=' and the zoom |
| WeatherTools.SummaryNumbered | weather_insights_agent/weather_tools/tools.py:1101-1105 | the summary line of the i-th marker starts with its 1-based number and '. ' |
| WeatherTools.BuildLink | weather_insights_agent/weather_tools/tools.py:1054-1078 | the loop builds the link LinkFor specifies |
| WeatherTools.StructuredMarkers | weather_insights_agent/weather_tools/tools.py:1081-1089 | one structured marker per input marker, in order |
| WeatherTools.MarkerSummary | weather_insights_agent/weather_tools/tools.py:1099-1105 | one numbered summary line per input marker, in order |
| WeatherTools.GenerateMap | weather_insights_agent/weather_tools/tools.py:1030-1119 | the reply carries the URL, one structured marker and one summary line per marker, the count in the message and 'View map: ' before the URL; the map data is saved under 'map_data' |
| WeatherTools.FirstWithRecords | weather_insights_agent/weather_tools/tools.py:329-390 | the first station whose query returned records; none before it did, and none when no station did |
| WeatherTools.QueryHistoricalWeather | weather_insights_agent/weather_tools/tools.py:307-398 | with a station that has records, the first such station's records, count, 1-based position and the number of stations are returned and saved under 'historical_weather'; otherwise the error naming the number of stations, with all of them listed, and nothing saved |
| WeatherTools.FipsIgnoresCase | weather_insights_agent/weather_tools/tools.py:109-125 | the state code is looked up ignoring case |
| WeatherTools.MissingAddsNothing | weather_insights_agent/weather_tools/tools.py:183-184 | `or 0` makes a tract with a missing value add nothing: the total is the sum over the tracts that have it |
| WeatherTools.CollectTracts | weather_insights_agent/weather_tools/tools.py:154-184 | the loop keeps every row and sums the populations and households, missing ones as 0 |
| WeatherTools.CensusOutcomeSpec | weather_insights_agent/weather_tools/tools.py:120-216 | an unknown state is an error whatever the query; a query result gives a success that is the 'no census data' summary exactly when no tract came back, and otherwise counts the tracts and sums the populations and households that are present |
| WeatherTools.GetCensusDemographics | weather_insights_agent/weather_tools/tools.py:92-223 | the database is asked only with the state's code, the outcome is CensusOutcome's, and the summary is saved under 'census_demographics' exactly on success |
| WeatherTools.SearchNearbyPlaces | weather_insights_agent/weather_tools/tools.py:942-1026 | without an API key, a failed request or a status other than OK or ZERO_RESULTS the matching error and nothing saved; otherwise the first ten places, listed in order, with their count, saved under 'nearby_places' |
| WeatherTools.ListRoute | weather_insights_agent/weather_tools/tools.py:896-914 | a route keeps at most five steps, the first of its first leg |
| WeatherTools.GetDirections | weather_insights_agent/weather_tools/tools.py:849-938 | without an API key, a failed request, a status other than OK or a route with no leg the matching error and nothing saved; otherwise one listed route per route, in order, saved under 'directions' |

## Left out

- Rendering: the JSX markup, markdown, the Leaflet maps, the state dropdown's search filter, `alert()` and the layout are not modelled.
- The LLM agents, their prompts and schemas, the API server and its CORS plumbing, logging and the `track_*` decorators are not part of this model: their behaviour lives outside the code shown.
- Network, BigQuery and Google Maps calls, and the front end's `api.*` calls, are parameters (a reply or a failure); `api.resetSession`, the 75-second request timeout and the interleaving of concurrent asynchronous handlers are not modelled (each handler runs to completion).
- FileReader is modelled by a separate `PreviewLoaded` step; message timestamps, `Date` and `datetime.now()` are not modelled (the alerts report takes one `now` string for both of its timestamps).
- Floating point: coordinates and scores are exact reals; `toFixed`, `round` (the census averages) and the rendering of floats into URLs are not modelled, and a URL's numbers are rendered by a `show` parameter.
- Strings are sequences of Unicode scalar values, not UTF-16 code units; case mapping covers ASCII letters only.
- JSON: a `null` and a missing key are both `None`; the full NWS, census and Places record fields that are only copied through are kept as opaque values or left out (per-tract age, income, race, education and housing fields).
- sessionStorage and the dashboard's localStorage caching keys are not modelled beyond the flags that decide whether a first mount reloads; the chat transcript, 'tourCompleted' and the quota failure are.
- The risk-analysis modal's contents and the mock analysis text are opaque values; the demo-mode provider is a plain boolean flip.
- `generate_map` cannot raise in the model, so its exception reply is not modelled; its unused `title` argument is dropped. A reply without a "status" key in places or directions, which raises `KeyError` in the source, is not modelled: the status is always present.
- The Google API key is the boolean `keyConfigured`.
- The assistant texts of the chat reveal script and of the fourteen canned replies keep only their first (title) line; the multi-line markdown bodies after it are display text that no modelled operation inspects.
- ChatText.LabelLen: states only that the 'View map:' match stays inside the text, not which characters it covers.
- ChatText.LinkLen: states only that the '[View map](…)' match stays inside the text, not which characters it covers.
- DashboardAlerts.Rank: bounds the rank by 4; the per-severity values are those of the function's definition and are used through `TopAlertsOutrank`.
