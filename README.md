# MANAS client state, modelled in Dafny

MANAS is a mental-health journaling web client. Users sign up or sign in against a user list kept in the browser's local storage. They log moods with a stress level and a note, see a chart and an average on a dashboard, chat with a hosted assistant and run a box-breathing exercise. This project models the small state machines behind those screens and proves what they promise:

- **Storage** (`storage.dfy`): the four local-storage keys (`manas_current_user`, `manas_users`, `manas_moods`, `manas_daily_quote`) as a class with one optional slot per key.
- **Sign-in form** (`auth.dfy`): login by exact email and password, registration guarded by a duplicate-email check, and the error and mode toggle.
- **Application root** (`app.dfy`):
  - loading the session and the journal at mount, with the four first-run entries when no journal is stored;
  - profile update merged into the user list by id;
  - append-only mood logging;
  - logout;
  - the login callback;
  - the reverse-order history view;
  - the "dark" flag on the document root.
- **Dashboard** (`dashboard.dfy`):
  - the mood-to-number scale;
  - the trailing seven-entry chart;
  - the average stress to one decimal place;
  - the per-day quote cache.
- **Chat** (`chatbot.dfy`): the greeting, the single-flight send that ignores blank text, and the reply step.
- **Mood form** (`mood_tracker.dfy`): building the entry, resetting the form and the 1..5 stress slider.
- **Box breathing** (`meditation.dfy`): a timer that counts modulo 16 and the phase that follows it. This is the `Meditation` component in `components/UserProfile.tsx`.

The clock, the identifiers built from it, the date strings, and the assistant's replies, quotes and insights are parameters. React state updates become fields of classes (`AppState`, `AuthForm`, `DashboardState`, `Chat`, `MoodForm`, `BreathingSession`), and each handler becomes a method whose postcondition gives the new state of everything it changes. The pure parts are functions with lemmas:

- the user lookup and the merge;
- the history reversal;
- the chart window;
- the stress average;
- the trim test;
- the timer arithmetic.

Invariants kept by every handler:

- `AppState.Valid`: the dark flag is on exactly when a signed-in user's theme is dark. After loading, the in-memory session and journal equal the stored ones (write-through).
- `MoodForm.Valid`: the stress level stays in 1..5 and a picked mood is a declared one.
- `BreathingSession.Valid`: the timer stays in 0..15. The phase is the timer's phase while the exercise runs, and Wait while it is stopped.

In these places the code does something other than what one might expect, and the model follows the code:

- A stored value that fails to parse is not replaced by a default. The code calls `JSON.parse` unguarded, so the model has no fallback path.
- The login callback only ever adds the dark class (App.tsx:94). It never removes it. The model does the same and proves from the invariant that the flag is still right: the sign-in screen is shown only while the flag is off.
- Chat roles are `'user'` and `'model'`.
- Identifiers come from `Date.now()`. Nothing makes them unique, and the model does not claim that they are.

## Model

| member | source | states |
|---|---|---|
| `Types.WithoutPassword` | components/Auth.tsx:27 | the session record has no password key and agrees with the user on every other field |
| `Types.Merge` | App.tsx:58 | object spread: id, name and email come from the patch; a password or preferences key present in the patch wins, an absent one keeps the stored value; a patch with both keys replaces the record |
| `Types.PrefersDark` | App.tsx:27 | `preferences?.theme === 'dark'`: the reference definition that `AppState.Valid`, `Load`, `UpdateUser`, `OnLogin` and `SubmitAuth` use for the dark flag; a missing preferences record counts as not dark |
| `Storage.LocalStore.UserList` | components/Auth.tsx:21-22 | an absent `manas_users` key reads as the empty list, a present one as its value |
| `Auth.FirstMatch` | components/Auth.tsx:25 | `find` yields None iff no user has exactly this email and password; otherwise the index of the first such user |
| `Auth.Matches` | components/Auth.tsx:25 | the `find` predicate, exact email and exact password; the reference definition that `FirstMatch`, `Login` and `RegisterThenLogin` are stated in, under which a user stored without a password never matches |
| `Auth.EmailRegistered` | components/Auth.tsx:34 | true iff some stored user has exactly this email |
| `Auth.NewUser` | components/Auth.tsx:39-45 | the registered record carries the given id, name, email and password, and theme light (not dark) |
| `Auth.Login` | components/Auth.tsx:24-32 | login succeeds iff some user matches email and password; then the list is unchanged and the session record is the first matching user (the one `find` stops at) without its password; every mismatch gives the one InvalidCredentials error |
| `Auth.Register` | components/Auth.tsx:33-53 | fails with EmailTaken iff the email is present; otherwise the list gains exactly one user at the end (earlier users unchanged) and the session record is that user without password |
| `Auth.Submitted` | components/Auth.tsx:24-53 | the `isLogin` branch: the reference definition of one submit's outcome, login in login mode and register otherwise, that `AuthForm.Submit` and `AppState.SubmitAuth` are stated against |
| `Auth.ErrorMessage` | components/Auth.tsx:31-35 | the two error texts: never empty, so the error box renders, and the invalid-credentials text exactly for the invalid-credentials error |
| `Auth.RegisterThenLogin` | components/Auth.tsx:25-52 | after a successful registration, logging in with the same email and password succeeds and yields the same session record |
| `Auth.RegisterKeepsEmailsUnique` | components/Auth.tsx:34-47 | registration preserves "no two stored users share an email" |
| `Auth.AuthForm.constructor` | components/Auth.tsx:11-15 | the form opens in login mode with all fields and the error empty |
| `Auth.AuthForm.SetName` | components/Auth.tsx:86 | the name field's change handler sets the name and nothing else |
| `Auth.AuthForm.SetEmail` | components/Auth.tsx:99 | the email field's change handler sets the email and nothing else |
| `Auth.AuthForm.SetPassword` | components/Auth.tsx:111 | the password field's change handler sets the password and nothing else |
| `Auth.AuthForm.ToggleMode` | components/Auth.tsx:128-131 | the mode flips and the error is cleared |
| `Auth.AuthForm.Submit` | components/Auth.tsx:17-54 | the error is cleared, then: on success the session key holds the returned record and, in register mode only, the user list key holds the extended list; on failure the error message is set and neither key changes |
| `App.SeedEntries` | App.tsx:39-45 | the four first-run entries: ids '1'..'4', timestamps now minus 4, 3, 2 and 1 days, moods neutral, good, excellent, fair, stress 3, 2, 1, 4, with their notes |
| `App.SeedIsChronological` | App.tsx:40-45 | the seeded entries are strictly increasing in time, one day apart ending one day before now, with declared moods and stress in 1..5 |
| `App.NewestFirst` | App.tsx:181 | the history view has every entry, the k-th shown being the k-th from the end |
| `App.NewestFirstAppend` | App.tsx:181 | a newly added entry is shown first, above the earlier history |
| `App.NewestFirstInvolutive` | App.tsx:181 | reversing the history view gives back the journal |
| `App.MergeUsers` | App.tsx:58 | the user list keeps its length; users with another id are untouched; the one(s) with the updated id become the spread merge |
| `App.MergeUsersIdempotent` | App.tsx:56-59 | saving the same profile twice leaves the list as saving it once |
| `App.MergeKeepsPasswords` | App.tsx:58 | a password-less session record never overwrites a stored password, so a user whose email is unchanged can still log in |
| `App.AppState.constructor` | App.tsx:15-18 | tab 'home', empty journal, no user, checking auth, light |
| `App.AppState.Load` | App.tsx:20-49 | a stored session is adopted and the dark flag follows its theme; a stored journal is loaded unchanged, an absent one is replaced by the seed, persisted; the invariant holds |
| `App.AppState.UpdateUser` | App.tsx:51-67 | user and stored session become the updated record, the stored list becomes the merge by id (absent list read as empty), dark iff theme dark |
| `App.AppState.AddMood` | App.tsx:69-74 | journal becomes old journal plus the entry at the end, is persisted, tab 'home', and the history view gains the entry on top |
| `App.AppState.Logout` | App.tsx:76-81 | session key removed, user none, tab 'home', dark off, user list and journal untouched |
| `App.AppState.OnLogin` | App.tsx:92-95 | the signed-in user is adopted and the dark flag equals that user's theme |
| `App.AppState.SubmitAuth` | App.tsx:91-96 | one submit of the sign-in screen: a user is signed in iff the mode's outcome (login or register on the stored list) succeeds, and then it is exactly that outcome's session record, without password and with their own theme; the form's error is cleared on success and set to the outcome's message on failure; the user list key changes only on a successful registration, and on failure the session key is unchanged too |
| `App.AppState.SubmitMood` | App.tsx:172 | the mood form feeds `handleAddMood`: an entry is logged iff a mood is picked; it is built from the picked mood, the stress level and the note, appended and persisted, and the form resets; with no mood picked the journal, the tab and the form stay as they were |
| `App.AppState.SelectTab` | App.tsx:118 | navigation sets the active tab (no button in App.tsx selects the Explore view, App.tsx:233) |
| `Dashboard.MoodValue` | components/Dashboard.tsx:46-55 | excellent 5, good 4, neutral 3, fair 2, poor 1, else 0; always in 0..5, and at least 1 iff the mood is declared |
| `Dashboard.MoodValueRanksMoods` | components/Dashboard.tsx:46-55 | the declared moods, best to worst, are one step apart on the scale |
| `Dashboard.Trailing` | components/Dashboard.tsx:57 | `slice(-n)`: min(n, length) elements, the last ones in order |
| `Dashboard.Points` | components/Dashboard.tsx:57-61 | one point per entry, in order, with the mood's value and the stress level |
| `Dashboard.Point` | components/Dashboard.tsx:58-60 | the `map` body: the reference definition of one chart point, the mood's value and the stress level, that `Points`, `ChartData` and `ChartSlides` are stated in |
| `Dashboard.ChartData` | components/Dashboard.tsx:57-61 | min(7, length) points, the i-th drawn from the i-th of the trailing entries in original order |
| `Dashboard.ChartSlides` | components/Dashboard.tsx:57 | with at least seven entries, adding one drops the oldest point and appends the new entry's point |
| `Dashboard.PointsSlide` | components/Dashboard.tsx:57-61 | dropping the first entry and appending one drops the first point and appends that entry's point |
| `Dashboard.SumStressBounds` | components/Dashboard.tsx:64 | stress levels bounded by lo and hi bound the `reduce` sum by lo and hi times the count |
| `Dashboard.SumStress` | components/Dashboard.tsx:64 | the `reduce` sum of stress levels, 0 for an empty journal: the reference definition that `AvgStress`, `SumStressBounds` and `SeedStressAverage` are stated in |
| `Dashboard.MeanStress` | components/Dashboard.tsx:64 | the exact quotient of the sum by the count, before formatting: the reference definition that `MeanWithinRange` bounds |
| `Dashboard.MeanWithinRange` | components/Dashboard.tsx:63-65 | the exact average lies between the least and the greatest stress level present |
| `Dashboard.RoundTenths` | components/Dashboard.tsx:64 | `toFixed(1)` in tenths: t/10 is within half a tenth of sum/n (stated multiplied out, 2nt - n <= 20 sum <= 2nt + n) |
| `Dashboard.AvgStress` | components/Dashboard.tsx:63-65 | the card shows the literal '0' exactly for an empty journal; otherwise it shows tenths t with t/10 within half a tenth of the mean stress (2nt - n <= 20 sum <= 2nt + n) |
| `Dashboard.AvgStressWithinRange` | components/Dashboard.tsx:63-65 | the shown tenths lie between ten times the least and ten times the greatest stress level present |
| `Dashboard.SeedStressAverage` | components/Dashboard.tsx:63-65 | stress levels 3, 2, 1, 4 are shown as 2.5 |
| `Dashboard.ReusableQuote` | components/Dashboard.tsx:19-28 | a cached quote is reused iff it exists and its date string equals today's |
| `Dashboard.DashboardState.constructor` | components/Dashboard.tsx:12-14 | no quote, no insight, loading |
| `Dashboard.DashboardState.FetchData` | components/Dashboard.tsx:17-41 | the quote service is called iff no quote for today is cached; its answer overwrites the cache, a hit leaves the cache as it was; then the insight is shown and loading ends; a fetched quote stamped with today's date (as the quote service stamps it) is what the cache offers for reuse afterwards the same day |
| `ChatBot.BlankIffAllTrimmable` | components/ChatBot.tsx:29 | `!text.trim()` holds iff every character is ECMAScript whitespace or a line terminator |
| `ChatBot.TextToSend` | components/ChatBot.tsx:28 | a given, non-empty override is sent instead of the typed input; otherwise the input is sent |
| `ChatBot.IsTrimmable` | components/ChatBot.tsx:29 | the characters `trim()` removes, the ECMAScript WhiteSpace and LineTerminator code points: the reference definition the trim functions are stated in |
| `ChatBot.TrimStart` | components/ChatBot.tsx:29 | the result is a suffix of the text that starts with a non-trimmable character, and everything removed is trimmable |
| `ChatBot.TrimEnd` | components/ChatBot.tsx:29 | the result is a prefix of the text that ends with a non-trimmable character, and everything removed is trimmable |
| `ChatBot.Trim` | components/ChatBot.tsx:29 | `trim()`: a contiguous slice of the text whose ends are not trimmable, with only trimmable characters cut on either side |
| `ChatBot.IsBlank` | components/ChatBot.tsx:29 | `!textToSend.trim()`: the reference definition of a blank text that `Chat.Send` and `Exchange` use and `BlankIffAllTrimmable` characterises |
| `ChatBot.Chat.constructor` | components/ChatBot.tsx:14-18 | the conversation is exactly one assistant greeting; input empty; not loading |
| `ChatBot.Chat.Type` | components/ChatBot.tsx:104 | the text box sets the input |
| `ChatBot.Chat.Send` | components/ChatBot.tsx:27-34 | blank text or a pending reply changes nothing and sends nothing; otherwise exactly one user message with that text is appended, input cleared, loading raised, and the request carries the conversation as it was before |
| `ChatBot.Chat.ReceiveReply` | components/ChatBot.tsx:36-43 | a reply appends exactly one assistant message, a thrown error appends none; loading ends false either way |
| `ChatBot.Exchange` | components/ChatBot.tsx:27-43 | the first send is accepted iff `textOverride \|\| input` is non-blank; then it carries the prior conversation and that text and clears the input, and with its reply the conversation grows by exactly the user message and the reply, even if another send is tried meanwhile; a refused send leaves the conversation and the input as they were |
| `MoodTracker.SliderValue` | components/MoodTracker.tsx:70-76 | the slider yields an integer in 1..5, equal to the requested position when that is in range |
| `MoodTracker.MoodForm.constructor` | components/MoodTracker.tsx:11-13 | no mood, stress 3, empty note |
| `MoodTracker.MoodForm.SelectMood` | components/MoodTracker.tsx:46-50 | a mood button picks that declared mood |
| `MoodTracker.MoodForm.SetStress` | components/MoodTracker.tsx:76 | the slider sets stress to its value in 1..5 |
| `MoodTracker.MoodForm.SetNote` | components/MoodTracker.tsx:94 | the text area sets the note |
| `MoodTracker.MoodForm.Submit` | components/MoodTracker.tsx:15-31 | no mood picked: no entry and the form is unchanged; otherwise the entry has exactly the picked mood, the stress level and the note, and the form resets to no mood, stress 3, empty note |
| `Meditation.NextTimer` | components/UserProfile.tsx:16 | a tick moves the timer to the next value in 0..15, wrapping from 15 to 0 |
| `Meditation.PhaseAt` | components/UserProfile.tsx:17-20 | 0-3 Inhale, 4-7 Hold, 8-11 Exhale, 12-15 Hold; never Wait |
| `Meditation.TimerAfterAddsModulo` | components/UserProfile.tsx:14-22 | n ticks advance the timer by n modulo 16 |
| `Meditation.FullCycleReturns` | components/UserProfile.tsx:14-22 | sixteen ticks bring the timer and the phase back to where they were |
| `Meditation.BreathingSession.constructor` | components/UserProfile.tsx:5-7 | inactive, phase Wait, timer 0 |
| `Meditation.BreathingSession.Toggle` | components/UserProfile.tsx:9-29 | the button flips `isActive`; starting resets the timer to 0 with phase Inhale, stopping sets Wait and keeps the timer |
| `Meditation.BreathingSession.Tick` | components/UserProfile.tsx:14-22 | while active the timer advances modulo 16 and the phase follows the new value; the invariant holds |

## Left out

- The example backend (backend-end.js) is not part of this model. It is HTTP routes over SQLite with hashing and tokens.
- The generative-AI service (services/geminiService.ts) is not part of this model. Its chat replies, quotes and insights are parameters, including the fallback texts it returns on failure.
- Rendering, styling, the logo, the article and resource tables (constants.tsx) and the emoji and colour table are not modelled. They are static markup and data.
- JSON text is not modelled. Each storage key holds a typed value, and parsing what was written is taken to give it back. A stored value that does not parse is not modelled; the code has no fallback for it.
- `Date.now()`, `toDateString()` and `toLocaleDateString()` are parameters or are dropped. This covers the weekday labels of the chart and the dates in the history view. Ids are parameters and are not claimed unique.
- `useEffect`, `setInterval` and `await` are explicit step methods: `Load`, `Tick`, `Send` then `ReceiveReply`, and `FetchData`. React's render timing, batching and interleavings other than those steps are not modelled. The same goes for scrolling and for the dashboard effect re-running when the journal changes.
- `Meditation.BreathingSession.Tick`: a tick while stopped does nothing. The interval is cleared then, so no tick happens.
- The profile editor that produces the record passed to `handleUpdateUser` is not part of this model. The real `UserProfile` component is not among the source files, so `App.AppState.UpdateUser` accepts any record.
- The browser's form validation is not modelled. This covers `required` inputs and the `type="email"` format check. `Auth.AuthForm.Submit` therefore also accepts inputs the browser would stop.
- `Dashboard.RoundTenths`: it rounds the exact quotient, with ties away from zero. The source divides in binary floating point first. A mean exactly halfway between two tenths, such as 2.05, can then show as the lower tenth.
- Each view is mounted only while its tab is active (App.tsx:152-233). The constructors of `Chat`, `MoodForm`, `BreathingSession` and `DashboardState` each stand for a fresh mount. Leaving a tab discards that view's state, so the chat conversation, the form's stress and note, the breathing session and the dashboard's quote and insight are lost. The model does not tie the lifetime of these objects to `AppState.activeTab`.
- `Types.Merge`: a key the patch carries with the value `undefined` overwrites in JavaScript. The model has no such value, so an absent key and an undefined one are the same.
