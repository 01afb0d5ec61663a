# Mental-wellness front end: page state and streak logic in Dafny

This project models the logic of a React front end for a mental-wellness
app: the weekly check-in streak, the daily check-in form, the mood-tracking
form, the mood-history page, the voice-chat hook, and the text chat page with
its input box. Rendering, styling and animation are not modelled; what is
modelled is the state each page keeps, how every handler changes it, and the
records and URLs the pages send to the backend.

Each page's React state becomes a Dafny `class` whose fields are the
`useState` variables; each handler becomes a `method` with a `modifies`
clause naming exactly the fields its setters touch. A handler that awaits a
network call is split at the `await` into a `Begin…` method (what happens
before the call, returning what is sent) and a `Settle…` method (what
happens after it), with the call's outcome as a parameter (`Option`/`bool`).
Pure computations (the streak, the mood table lookups, tag normalisation,
the fetch URL, the graph data) are functions, specified by what they mean
and connected by lemmas.

Modules:

- `Wrappers` — `Option`, standing for `undefined`/`null` results.
- `Lists` — `findIndex`/`find`, `filter(y => y !== x)` (`Without`) and
  `filter((_, j) => j !== i)` (`RemoveAt`).
- `Text` — `trim` (with the full ECMAScript whitespace set), `toLowerCase`
  (ASCII letters), and zero-padded decimal numerals as date-fns writes them.
- `MoodLevels` — the eight-row mood table the three mood pages share, the
  "current mood" lookup with its Neutral fallback, and the emoji lookup.
- `StreakService` — `calculateStreak`: a specification `Streak` and the
  imperative `CalculateStreak` (the source's `while` loop) proved equal to it.
  Dates are day numbers; `today` and the Monday `weekStart` are parameters.
- `DailyCheckIn` — the check-in form (`CheckInForm`) and the record it posts.
- `MoodTracking` — the mood form (`MoodForm`) and its tag editor.
- `MoodHistory` — the history page (`MoodHistoryPage`), its fetch URL, the
  calendar lookup and the graph data.
- `VoiceChat` — the `useVoiceChat` hook (`VoiceChatSession`); recognizer
  events become method calls.
- `ChatPage` — the chat page (`ChatPageState`): connection and history
  gates, the optimistic send, clearing history.
- `ChatInput` — the input box (`ChatInputBox`) and its send guard.

Some consequences of the code that the model makes explicit:

- `calculateStreak` sorts its input, but the result does not depend on the
  order (`StreakIgnoresOrder`), and a second check-in on the same day raises
  `stats.days` but not the streak (`SameDayCountsOnceForStreak`). The streak
  is reported in whole weeks, so any run shorter than seven days shows 0.
- The mood-tracking page does not de-duplicate tags (`AddTagKeepsDuplicates`);
  removing a tag removes every copy of it.
- The chat page fetches the history into the query cache but renders only
  its local `messages`, which start empty; nothing moves the history into
  them (`HistorySettled` leaves `messages` alone). A failed send leaves the
  user's message on screen with no reply and no error state.
- In the voice hook, `onerror` calls the `stopRecording` of the first
  render, whose transcripts are empty, so an error never leads to
  processing (`OnError`).

## Model

| member | source | states |
|---|---|---|
| MoodLevels.LevelsShape | src/pages/mood-tracking.tsx:6-15 | The table has eight rows; row i has value 8 - i; row 3 is Neutral with the 😐 emoji. |
| MoodLevels.FoundExactlyInRange | src/pages/mood-tracking.tsx:32 | Looking a rating up in the table succeeds exactly for the ratings 1 to 8. |
| MoodLevels.CurrentMood | src/pages/daily-checkin.tsx:51 | The current mood is a table row; it has the rating as value exactly when the rating is 1 to 8, and is the Neutral row otherwise. |
| MoodLevels.EmojiFor | src/pages/mood-history.tsx:59-61 | The emoji of the row for ratings 1 to 8, and 😐 for any other rating. |
| MoodLevels.EmojiAgreesWithCurrentMood | src/pages/mood-history.tsx:59-61 | The emoji lookup with its literal fallback always gives the current mood's emoji. |
| Lists.FindFirst | src/pages/mood-history.tsx:54-56 | `find`/`findIndex`: the result is the first index whose element satisfies the test, or none when no element does. |
| Lists.Without | src/pages/daily-checkin.tsx:72 | Filtering out a value removes every copy of it and nothing else: same multiset with that value's count set to zero. |
| Lists.WithoutMembers | src/pages/daily-checkin.tsx:72 | An element survives the filter exactly when it occurs in the list and differs from the filtered value. |
| Lists.WithoutShorter | src/pages/daily-checkin.tsx:69-75 | Filtering never lengthens a list and shortens it when the value occurs, so de-selecting an activity shrinks the selection. |
| Lists.WithoutAppend | src/pages/mood-tracking.tsx:41-43 | Filtering distributes over concatenation, so survivors keep their order. |
| Lists.WithoutAbsent | src/pages/daily-checkin.tsx:72 | Filtering out a value that is not present leaves the list unchanged. |
| Lists.WithoutNoDuplicates | src/pages/daily-checkin.tsx:69-75 | Filtering keeps a duplicate-free list duplicate-free. |
| Lists.RemoveAt | src/pages/daily-checkin.tsx:91-93 | Removing by index drops exactly the entry at that index and shifts the later ones down; an index past the end changes nothing. |
| Lists.RemoveAtUndoesAppend | src/pages/daily-checkin.tsx:77-93 | Removing the row just appended restores the list as it was. |
| Text.Trim | src/components/chat/chat-input.tsx:14-15 | The trimmed text neither starts nor ends with whitespace. |
| Text.TrimIsSlice | src/components/chat/chat-input.tsx:14-15 | Trimming keeps one contiguous slice of the input, starting after its leading whitespace. |
| Text.TrimRemovesWhitespace | src/components/chat/chat-input.tsx:14-15 | Everything trimming removes, before and after that slice, is whitespace. |
| Text.TrimEmptyIff | src/pages/mood-tracking.tsx:35 | Trimming yields the empty string exactly when the input is all whitespace. |
| Text.TrimIdempotent | src/components/chat/chat-input.tsx:15 | Trimming an already trimmed text changes nothing. |
| Text.ToLower | src/pages/mood-tracking.tsx:36 | Lower-casing keeps the length and lower-cases each character in place. |
| Text.ToLowerHasNoCapitals | src/pages/mood-tracking.tsx:36 | A lower-cased text has no capital letter left. |
| Text.ToLowerIdempotent | src/pages/mood-tracking.tsx:36 | Lower-casing twice is lower-casing once. |
| Text.TrimToLowerCommute | src/pages/mood-tracking.tsx:36 | Trimming and lower-casing can be done in either order. |
| Text.Digits | src/pages/chat-page.tsx:46 | The decimal numeral of a number is non-empty and made of digits. |
| Text.PadNumberRoundTrip | src/pages/mood-history.tsx:36 | A zero-padded numeral reads back as the number it was made from. |
| Text.PadNumberWidth | src/pages/mood-history.tsx:36 | A number below 10^k padded to width k has exactly k characters. |
| StreakService.StartDay | src/services/streak-service.ts:36-43 | Counting starts today exactly when there is a check-in today, else yesterday. |
| StreakService.RunLengthIsMaximalRun | src/services/streak-service.ts:45-50 | Every day counted by the backward walk has a check-in, and the day where it stops has none. |
| StreakService.RunLengthUnique | src/services/streak-service.ts:45-50 | Any count with that property is the walk's count: the unbroken run is unique. |
| StreakService.RunLengthSameDays | src/services/streak-service.ts:45-50 | The walk depends only on which days have check-ins. |
| StreakService.StatsFor | src/services/streak-service.ts:67-73 | Days, lessons and minutes are 1, 2 and 15 times the number of entries; quizzes is the floor of 1.5 times it. |
| StreakService.WeekView | src/services/streak-service.ts:52-65 | Seven consecutive days from Monday; a day is completed exactly when it has a check-in, is today exactly when it is today, is past exactly when before today, and never both. |
| StreakService.CalculateStreak | src/services/streak-service.ts:24-80 | The loop computes the specification: whole weeks of the run ending at the start day, the week strip and the stats. |
| StreakService.StreakCountsWholeWeeks | src/services/streak-service.ts:75-76 | For an unbroken run of n days ending at the start day, the streak is n div 7, so 0 for runs shorter than a week. |
| StreakService.StreakIgnoresOrder | src/services/streak-service.ts:25-28 | Two inputs with the same elements in any order give the same result, so the sort has no effect. |
| StreakService.SameDayCountsOnceForStreak | src/services/streak-service.ts:45-73 | A second check-in on a checked-in day changes neither the streak nor the strip, and raises stats.days by one. |
| StreakService.EmptyHistory | src/services/streak-service.ts:24-80 | With no check-ins the streak and all stats are 0 and no day is completed. |
| DailyCheckIn.Toggle | src/pages/daily-checkin.tsx:69-75 | The toggled activity's membership flips and no other activity's membership changes; an absent activity is appended at the end, a present one is filtered out with the others kept in order. |
| DailyCheckIn.ToggleTwiceRestores | src/pages/daily-checkin.tsx:69-75 | Toggling an absent activity twice restores the selection exactly. |
| DailyCheckIn.ToggleKeepsNoDuplicates | src/pages/daily-checkin.tsx:69-75 | Toggling never makes an activity appear twice. |
| DailyCheckIn.Edit | src/pages/daily-checkin.tsx:81-89 | An edit sets the field it names and keeps the other one. |
| DailyCheckIn.NonEmptyGoals | src/pages/daily-checkin.tsx:137-138 | The kept goals are the non-empty ones, in their original order and with their multiplicities, and nothing else. |
| DailyCheckIn.Record | src/pages/daily-checkin.tsx:128-144 | The posted record carries the rating with the current mood's label, the other fields as they are, and each goal list filtered of its empty entries, in order. |
| DailyCheckIn.CheckInForm.constructor | src/pages/daily-checkin.tsx:30-49 | The form starts at rating 5, empty lists and text, 7 hours of sleep of quality 5, no error and the zero streak. |
| DailyCheckIn.CheckInForm.CurrentMood | src/pages/daily-checkin.tsx:51 | The slider's mood is a table row, matching the rating when it is 1 to 8 and Neutral otherwise. |
| DailyCheckIn.CheckInForm.ToggleActivity | src/pages/daily-checkin.tsx:69-75 | The selection becomes its toggle; no other field changes. |
| DailyCheckIn.CheckInForm.AddGratitude | src/pages/daily-checkin.tsx:77-79 | One Family row with an empty detail is appended. |
| DailyCheckIn.CheckInForm.ChangeGratitude | src/pages/daily-checkin.tsx:81-89 | Only the item at the index changes, and only in the field edited. |
| DailyCheckIn.CheckInForm.RemoveGratitude | src/pages/daily-checkin.tsx:91-93 | The item at the index is dropped and the others keep their order. |
| DailyCheckIn.CheckInForm.AddGoal | src/pages/daily-checkin.tsx:95-101 | An empty goal is appended to the chosen list; the other list is unchanged. |
| DailyCheckIn.CheckInForm.ChangeGoal | src/pages/daily-checkin.tsx:103-113 | The goal at the index in the chosen list is replaced; the other list is unchanged. |
| DailyCheckIn.CheckInForm.RemoveGoal | src/pages/daily-checkin.tsx:115-121 | The goal at the index is dropped from the chosen list; the other list is unchanged. |
| DailyCheckIn.CheckInForm.LoadHistory | src/pages/daily-checkin.tsx:54-67 | A fetched history replaces the streak data with its streak; a failed fetch changes nothing. |
| DailyCheckIn.CheckInForm.BeginSubmit | src/pages/daily-checkin.tsx:123-144 | Submitting starts, the error clears, and the record sent is built from the current fields. |
| DailyCheckIn.CheckInForm.SettleSubmit | src/pages/daily-checkin.tsx:146-157 | Only when the post and the re-fetch both succeed is the streak replaced; otherwise the fixed error is shown and the streak kept; submitting ends either way. |
| MoodTracking.NormalizeTag | src/pages/mood-tracking.tsx:36 | A stored tag is the trimmed input lower-cased character by character: no surrounding whitespace and no capital letter. |
| MoodTracking.NormalizeTagIdempotent | src/pages/mood-tracking.tsx:36 | Normalising a stored tag gives the same tag. |
| MoodTracking.AddTag | src/pages/mood-tracking.tsx:34-39 | A blank input leaves the tags alone; otherwise the normalised input is appended after the existing tags. |
| MoodTracking.AddTagKeepsDuplicates | src/pages/mood-tracking.tsx:34-39 | Adding a tag already present appends a second copy. |
| MoodTracking.RemoveUndoesAdd | src/pages/mood-tracking.tsx:34-43 | Removing a tag right after adding it gives what removing it from the original list gives. |
| MoodTracking.MoodForm.constructor | src/pages/mood-tracking.tsx:25-30 | The form starts at rating 5 with no text, tags or error. |
| MoodTracking.MoodForm.CurrentMood | src/pages/mood-tracking.tsx:32 | The slider's mood is a table row, matching the rating when it is 1 to 8 and Neutral otherwise. |
| MoodTracking.MoodForm.HandleAddTag | src/pages/mood-tracking.tsx:34-39 | A blank input changes nothing; otherwise the normalised tag is appended and the input cleared. |
| MoodTracking.MoodForm.HandleRemoveTag | src/pages/mood-tracking.tsx:41-43 | Every copy of the tag is removed, the rest keep their order. |
| MoodTracking.MoodForm.BeginSubmit | src/pages/mood-tracking.tsx:45-55 | Submitting starts, the error clears, and the record sent carries the fields and the current mood's label. |
| MoodTracking.MoodForm.SettleSubmit | src/pages/mood-tracking.tsx:57-66 | Success resets description, tags and rating; failure keeps them and shows the fixed error; submitting ends either way. |
| MoodHistory.FormatIsoDate | src/pages/mood-history.tsx:36 | `format(d, 'yyyy-MM-dd')`: every character other than a dash is a digit, and a valid date gives ten characters with dashes at positions 4 and 7. |
| MoodHistory.FormatIsoDateRoundTrip | src/pages/mood-history.tsx:36 | A valid date formats to ten characters that read back as the same date. |
| MoodHistory.FetchUrl | src/pages/mood-history.tsx:34-37 | The URL starts with the moods endpoint and is the bare endpoint unless both bounds are given. |
| MoodHistory.FetchUrlCarriesRange | src/pages/mood-history.tsx:35-36 | With both bounds the query has fixed length and layout, and each date reads back from it. |
| MoodHistory.MoodForDate | src/pages/mood-history.tsx:53-57 | The result is the first mood in list order recorded that day, or none when no mood was. |
| MoodHistory.GraphData | src/pages/mood-history.tsx:75-79 | One point per mood, in order, with its day, its rating and the emoji for its rating. |
| MoodHistory.GraphDataAppend | src/pages/mood-history.tsx:75-79 | The graph of two lists joined is the two graphs joined. |
| MoodHistory.MoodHistoryPage.constructor | src/pages/mood-history.tsx:24-29 | The page starts loading, with no moods, no error and nothing selected. |
| MoodHistory.MoodHistoryPage.BeginFetch | src/pages/mood-history.tsx:31-37 | Loading is set and the URL requested is the fetch URL for the bounds. |
| MoodHistory.MoodHistoryPage.SettleFetch | src/pages/mood-history.tsx:38-44 | A reply replaces the moods; a failure keeps them and sets the fixed error; an error once set stays; loading ends. |
| MoodHistory.MoodHistoryPage.HandleDateClick | src/pages/mood-history.tsx:70-73 | The selected mood becomes the day's first mood, or none. |
| VoiceChat.SplitResults | src/hooks/use-voice-chat.ts:79-91 | The loop yields the in-order concatenation of the final results and of the interim ones. |
| VoiceChat.TextOfAppend | src/hooks/use-voice-chat.ts:84-91 | Each text of a batch split in two is the two texts joined. |
| VoiceChat.SplitLosesNothing | src/hooks/use-voice-chat.ts:84-91 | The two texts together have as many characters as all transcripts joined. |
| VoiceChat.AllFinal | src/hooks/use-voice-chat.ts:84-91 | When every result is final the final text is everything and the interim text is empty. |
| VoiceChat.SimulatedResponse | src/hooks/use-voice-chat.ts:147 | The reply is the fixed prefix, the utterance and the fixed suffix, at known positions. |
| VoiceChat.SimulatedResponseInjective | src/hooks/use-voice-chat.ts:147 | Different utterances get different replies. |
| VoiceChat.VoiceChatSession.constructor | src/hooks/use-voice-chat.ts:55-59 | The hook starts idle, with empty transcripts and reply. |
| VoiceChat.VoiceChatSession.DisplayedTranscript | src/hooks/use-voice-chat.ts:159 | The exposed transcript is the interim one while it is non-empty, else the final one. |
| VoiceChat.VoiceChatSession.OnStart | src/hooks/use-voice-chat.ts:72-77 | Recording starts with both transcripts empty. |
| VoiceChat.VoiceChatSession.OnResult | src/hooks/use-voice-chat.ts:79-102 | A non-empty final text replaces the transcript and clears the interim one; otherwise a non-empty interim text replaces the interim one; empty texts change nothing. |
| VoiceChat.VoiceChatSession.StopRecording | src/hooks/use-voice-chat.ts:134-144 | Recording stops and the interim text clears; the transcript, or failing that the interim text, starts processing when non-empty. |
| VoiceChat.VoiceChatSession.OnError | src/hooks/use-voice-chat.ts:105-108 | An error stops recording and clears the interim text without processing anything. |
| VoiceChat.VoiceChatSession.FinishProcessing | src/hooks/use-voice-chat.ts:145-153 | After the wait the simulated reply for the text is shown and processing ends. |
| ChatPage.UserMessage | src/pages/chat-page.tsx:45-50 | The user's message carries the text, the user as sender and the send time. |
| ChatPage.BotMessage | src/services/chat-service.ts:24-29 | The bot's message carries the backend's response text, the bot as sender and the backend's timestamp. |
| ChatPage.ChatPageState.constructor | src/pages/chat-page.tsx:15-17 | The page starts connecting, with no messages, no cached history and the history loading. |
| ChatPage.ChatPageState.CurrentScreen | src/pages/chat-page.tsx:92-98 | The connecting spinner while connecting, then the plain spinner while the history loads, then the conversation. |
| ChatPage.ChatPageState.ConnectionSettled | src/pages/chat-page.tsx:20-32 | Only a successful connection ends the connecting phase. |
| ChatPage.ChatPageState.HistorySettled | src/pages/chat-page.tsx:35-39 | Loading ends; a reply caches its messages, a missing list read as empty; a failure keeps the cache. |
| ChatPage.ChatPageState.BeginSend | src/pages/chat-page.tsx:43-56 | The user's message is appended before the backend is called, and a send is pending. |
| ChatPage.ChatPageState.SettleSend | src/pages/chat-page.tsx:59-65 | On success the bot's message is appended; on failure nothing is; the send is no longer pending. |
| ChatPage.ChatPageState.HandleSendMessage | src/pages/chat-page.tsx:76-82 | A successful send adds the user's message then the bot's; a failed one adds the user's alone. |
| ChatPage.ChatPageState.HandleClearHistory | src/pages/chat-page.tsx:68-90 | A successful clear empties the cached history; the displayed messages are not touched. |
| ChatInput.Outgoing | src/components/chat/chat-input.tsx:12-18 | What is sent is the trimmed, non-blank text, and nothing while a send is pending or the text is blank. |
| ChatInput.DisabledExactlyWhenNothingSent | src/components/chat/chat-input.tsx:37 | The send button is disabled exactly when submitting would send nothing. |
| ChatInput.ChatInputBox.constructor | src/components/chat/chat-input.tsx:10 | The box starts empty. |
| ChatInput.ChatInputBox.Change | src/components/chat/chat-input.tsx:27 | Typing replaces the box's text. |
| ChatInput.ChatInputBox.HandleSubmit | src/components/chat/chat-input.tsx:12-18 | Submitting sends the guarded text; the box is cleared exactly when something is sent. |

## Left out

- Dates and the clock: `parseISO`, `format`, time zones and `new Date()` are replaced by day numbers, so `today` and the Monday of the current week (`weekStart`) are parameters and every check-in is the day its timestamp falls on. `isPast` is taken as "before today".
- StreakService.CalculateStreak: the sort is not performed; `StreakIgnoresOrder` shows that its result cannot depend on the order.
- The week strip's `label` is the one-letter day name for the Monday-first week; locale formatting is not modelled.
- Text.ToLower: only the ASCII capitals are lowered, not the full Unicode case mapping of `toLowerCase`.
- MoodTracking.NormalizeTag: inherits the ASCII-only lower-casing of `Text.ToLower`.
- DailyCheckIn.CheckInForm.ChangeGratitude: requires an existing index; the source would throw on a missing row, and the page only passes existing indices. The shallow copy's aliasing (the old array's row objects are mutated too) is not modelled.
- DailyCheckIn.CheckInForm.ChangeGoal: requires an existing index; an index past the end would grow the JavaScript array with holes, and the page only passes existing indices.
- Sleep hours are a real number; the slider's range and step are presentation.
- The HTTP calls (axios, the chat service) are not modelled: their outcomes are parameters of the `Settle…` methods, and the posted record or the requested URL is what the `Begin…` methods return.
- Voice recognition: the recognizer, `getUserMedia`, the microphone `alert` and the 2-second timer are left out; a result batch keeps only its first alternative's transcript.
- VoiceChat: the `onend` handler is not modelled as a method; like `onerror` it sees the first render's state, where `isRecording` is false, so it never calls `stopRecording`.
- VoiceChat.VoiceChatSession.FinishProcessing: the catch branch's apology reply is not modelled, because the awaited timer cannot fail.
- React scheduling: state updates are applied at once, so batching and stale closures other than the recognizer handlers are not modelled.
- ChatPage: message ids use `Date.now()` as a parameter; the query library's retries, refetching and caching policy are not modelled, a failed history load being one settled failure.
- Text-to-speech, the voice-chat page, the chat box's scrolling, the landing and help pages, and the navigation are outside the modelled core.
