# Phoenix bot: state gate, router and quiz engine in Dafny

Phoenix is a Telegram bot built on grammy. Each user's conversation is in
one of three states: IDLE, TESTING or REGISTRATION. Every update goes
through one router:

- it picks a route from the message text and the user's state;
- a per-state filter then drops message types that the state does not allow;
- the routed handler runs behind an error guard;
- anything unrouted goes to a fixed-priority fallback chain.

The handlers cover several flows:

- **Registration:** `/start` and a shared location.
- **Profile:** a screen derived from the user's record.
- **Quiz:** questions with lettered options, one answer per callback button, and per-channel scores at the end.
- **Win counters:** +1 / −1 buttons whose value never goes below zero.
- **Menu screens:** fixed screens.

This project models that core. It proves that the model's operations keep the
promises the code makes.

Conventions of the model:

- `Context.Ctx` is the context of one update.
  - `update` is the inbound update.
  - `state` is the session's `state`; it is `""` while unset.
  - `test` is the session's `currentTest`, a `QuizSession` object, or `null`.
  - `users` is the users collection keyed by `telegramId`.
  - `outbox` lists the outbound calls that took effect.
- Two constants stand for the transport: `editsSucceed` says whether Telegram accepts an edit, and `sentMessageId` is the id of a newly sent message.
- A method that models an async handler returns `ok == false` when the handler throws. The model keeps every change made before the throw.
- Records and sessions are JavaScript objects whose fields may be missing. A missing field is `None`, and `Common.Truthy` is JavaScript truthiness for strings.
- The route table is an ordered list of entries per state, in insertion order. A handler is bound to its state and key (see "Left out").
- The router works as follows: `Routes` holds the tables and the selector, and `Dispatcher` holds the decision and the whole dispatch.
- The counter catalog `{id, name}` is an input to `Routes.BuildRoutes`.
- The quiz files are inputs: `files` maps a name to its parsed content, and `testNames` is the list of quiz files.

Modules: `Common`, `Context`, `StateManager`, `GeneralHandlers`,
`UserHandlers`, `TestHandlers`, `Counters`, `Routes` and `Dispatcher`, one
per file.

## Model

| member | source | states |
|---|---|---|
| StateManager.DetermineMessageType | stateManager.js:14-30 | Exactly one tag. A tag other than Unknown belongs to a payload that is present, and no higher-precedence payload (text, location, photo, audio, video, document, callback) is present. Unknown exactly when no payload is present. |
| StateManager.IsAllowedMessageType | stateManager.js:56-74 | True exactly when the state (IDLE while unset) is IDLE with text/location/callback, TESTING with text/callback, or REGISTRATION with text/location/photo (the table at stateManager.js:3-7). |
| StateManager.SetState | stateManager.js:37-49 | A name in the state table becomes the state. An empty, missing or unknown name leaves the state as it was. |
| StateManager.StateFilter | stateManager.js:79-105 | `next` is called exactly when IsAllowedMessageType holds. An unknown state is reset to IDLE with one notice and the main keyboard. A known state is never changed and nothing is sent. |
| StateManager.TextBeatsLocation | stateManager.js:15-18 | A message with both text and a location is classified as text. |
| GeneralHandlers.RenderHealth | handlers/generalHandlers.js:26-30 | Defined only for 0..4, where `repeat` does not throw. The length is that of `health` full hearts plus `4 - health` empty ones. |
| GeneralHandlers.RenderHealthRoundTrip | handlers/generalHandlers.js:26-30 | The rendered row is `health` full hearts followed by the empty ones, four in all. Reading it back gives `health`. |
| GeneralHandlers.FormatErrorMessage | handlers/generalHandlers.js:37-39 | The result starts with "❌ Ошибка: " and the rest is the message unchanged. |
| GeneralHandlers.EditOrReply | handlers/generalHandlers.js:9-19 | Exactly one call, carrying the given text and markup. It is an edit exactly when the update has a callback and the edit is accepted; otherwise it is a reply. |
| GeneralHandlers.WithErrorHandling | handlers/generalHandlers.js:46-55 | The wrapper never throws. The wrapped calls are kept. A failure adds exactly one reply carrying the formatted generic error. |
| GeneralHandlers.HandleMenu | handlers/generalHandlers.js:61-105 | Each menu screen appends exactly the editOrReply of its fixed text and keyboard. |
| UserHandlers.NewUser | handlers/userHandlers.js:17-27 | The record inserted for a new user has its telegramId, health 4, no time zone, no achievements, 0 tasks, 0 experience and no counters. |
| UserHandlers.StartDecision | handlers/userHandlers.js:12-47 | `/start` sees one of three cases. Unregistered exactly when there is no record; awaiting a location exactly when the record's time zone is falsy; registered otherwise. |
| UserHandlers.HandleStart | handlers/userHandlers.js:9-48 | Unregistered: insert, welcome, REGISTRATION, location request. Awaiting a location: REGISTRATION and the request, with no insert. Registered: IDLE and the profile, and it throws exactly when the profile cannot be rendered. |
| UserHandlers.ProfileMessage | handlers/userHandlers.js:67 | The text is the title followed by seven "- name: value" lines, in the source's order. The values are: the full name, each missing part as "Не указано"; the time zone, or "Не указан"; the health as RenderHealth of `health \|\| 0`; the level floor(experience / 1000); the experience, the achievement count and the completed-task count, each 0 when missing. |
| UserHandlers.NewUserProfile | handlers/userHandlers.js:17-27 | The profile of a user `/start` has just inserted is renderable and shows the sender's name, "Не указан" for the time zone, four full hearts, and 0 for the level, experience, achievements and completed tasks. |
| UserHandlers.Level | handlers/userHandlers.js:67 | `floor(experience / 1000)`: 1000·level ≤ experience < 1000·(level+1). |
| UserHandlers.SendUserProfile | handlers/userHandlers.js:54-72 | No record: the "not found" reply. A health outside 0..4: it throws having sent nothing. Otherwise: the profile with each missing field at its default. The state is never touched. |
| UserHandlers.RequestLocation | handlers/userHandlers.js:112-116 | One reply asking for the location with the location button. |
| UserHandlers.TimeZoneText | handlers/userHandlers.js:91 | The stored time zone starts with "UTC" and is never falsy. |
| UserHandlers.SetTimeZone | handlers/userHandlers.js:93-96 | Only the sender's time zone changes. No record is created, because the update is not an upsert. |
| UserHandlers.HandleLocation | handlers/userHandlers.js:78-106 | No message: it throws having done nothing. No location: one reply, with no write and no state change. A location: the time zone is stored, the state becomes IDLE, and the zone is confirmed. |
| UserHandlers.LocationCompletesRegistration | handlers/userHandlers.js:93-96 | Once a location is stored for a known user, `/start` treats that user as registered. |
| UserHandlers.LocationCreatesNoRecord | handlers/userHandlers.js:93-96 | A location from a user without a record leaves `/start` seeing a new user. |
| TestHandlers.OptionLetter | handlers/testHandlers.js:184 | Positions 0..25 get the letters A..Z. Any position whose code 65 + index is below 0xD800 gets the character with that code. |
| TestHandlers.CreateDynamicInlineKeyboard | handlers/testHandlers.js:181-187 | One button per option. Button i is labelled with the letter of position i and carries option i's id. |
| TestHandlers.LinesMatchButtons | handlers/testHandlers.js:85 | Line i of the question text is button i's label, ". ", then option i's text. |
| TestHandlers.StartView | handlers/testHandlers.js:25-30 | A new session holds the given questions, index 0 and one zero result per question. |
| TestHandlers.AnswerIndex | handlers/testHandlers.js:111-113 | The position of the first option whose id equals the callback data. It is -1 exactly when there is no callback data or no option has that id. |
| TestHandlers.ButtonRecordsItsPosition | handlers/testHandlers.js:111-113 | With distinct ids, pressing the button of option i records i. |
| TestHandlers.AnswerStep | handlers/testHandlers.js:106-125 | The answer is recorded at the current index and no other result changes. The index moves on by one exactly when it is below n-1; otherwise the quiz finishes with those results. |
| TestHandlers.PlayFrom | handlers/testHandlers.js:106-125 | From any position, as many answers as questions remain finish the quiz. Earlier results are kept, and each answer is recorded at its own question. |
| TestHandlers.PlayPartial | handlers/testHandlers.js:119-121 | Fewer answers leave the quiz running, that many questions further on. |
| TestHandlers.QuizRoundTrip | handlers/testHandlers.js:106-125 | From the start, a quiz of K questions finishes after exactly K answers, and result i is the recorded answer i. Fewer answers leave it at that index. |
| TestHandlers.RenderQuestion | handlers/testHandlers.js:80-100 | Every call carries the question text and its keyboard. With a recorded message id: exactly one edit of that message, or no call and a throw when the edit fails. Without one: a new message whose id is then recorded. |
| TestHandlers.LaterRendersEdit | handlers/testHandlers.js:88-99 | After the first render there is a recorded id, and every later render makes exactly one edit of that same message, or none when the edit throws. |
| TestHandlers.SendQuestion | handlers/testHandlers.js:80-100 | The session's message id and the outbox become what RenderQuestion gives for the current question. |
| TestHandlers.StartTest | handlers/testHandlers.js:51-73 | The "test started" reply with the finish keyboard, followed by the rendering of the current question. |
| TestHandlers.LoadAndStartTest | handlers/testHandlers.js:11-44 | An unreadable file, a non-array or an empty list: one reply, and neither the state nor the session changes. Otherwise: TESTING, a fresh session equal to StartView, the announcement and the first question sent as a new message whose id is recorded. |
| TestHandlers.Activation | handlers/testHandlers.js:149-153 | `Math.round(score / 21 * 100)`, exactly the nearest integer to 100·score/21 (a tie is impossible), negative scores included. |
| TestHandlers.ChannelsListed | handlers/testHandlers.js:141-147 | A channel is listed exactly when some question has it, and no channel is listed twice. |
| TestHandlers.AbsentChannelTotalsZero | handlers/testHandlers.js:141-147 | A channel that no question has totals zero. |
| TestHandlers.CalculateResults | handlers/testHandlers.js:139-154 | The loop over the questions yields ChannelResults: each channel once, in order of first appearance, with the rounded share of its result sum over the fixed 21. |
| TestHandlers.CalculateAndSendResults | handlers/testHandlers.js:134-161 | One reply: the results header and those channel lines. |
| TestHandlers.HandleTestCompletion | handlers/testHandlers.js:167-174 | Whatever the position, the session is gone, the state is IDLE, and one completion reply is sent. There is no scoring. |
| TestHandlers.HandleAnswer | handlers/testHandlers.js:106-128 | The session changes as AnswerStep says. Before the last question the next one is rendered. On the last question the results and the completion are sent, and the session ends in IDLE. It throws when the edit fails, or at the final acknowledgement when the update has no callback. |
| TestHandlers.HandlePoll | handlers/testHandlers.js:193-206 | No quiz files: the notice. Otherwise: the list keyboard of the files. |
| Counters.CreateCounterKeyboard | counters.js:11-14 | Two buttons: "-1" with data `<id>_decrement`, then "+1" with data `<id>_increment`. |
| Counters.SearchFrom | counters.js:58 | None exactly when no `<id>_<action>` with an id of one or more word characters starts at or after the position. Otherwise the result is the leftmost such occurrence, with the longest id at that start, as greedy `\w+` gives. |
| Counters.MatchCallback | counters.js:58 | The match of `/(\w+)_(increment\|decrement)/` on the whole data: None exactly when the data holds no occurrence, otherwise the leftmost occurrence with the longest id. |
| Counters.LeftmostLongestUnique | counters.js:58 | The leftmost-longest match is unique: its start, id and action are all fixed by the data. |
| Counters.CallbackDataRoundTrip | counters.js:58-65 | For an id of word characters, matching the button data recovers exactly that id and that action. |
| Counters.Delta | counters.js:66 | increment is +1 and decrement is -1. |
| Counters.SetCounter | counters.js:80-83 | Only `counters[id]` of that user changes, to the value given. Every other field, counter and user is unchanged. |
| Counters.EnsureCounter | counters.js:24-50 | The sender has a record with that counter afterwards. An existing counter leaves the collection unchanged. A missing counter is set to 0 in place. A missing user is inserted with only that counter, at 0. |
| Counters.EnsureCounterExists | counters.js:24-50 | The collection becomes EnsureCounter of the old one, and the record returned is the stored one. |
| Counters.EnsureCounterKeepsValue | counters.js:41-49 | The value read after the lazy creation is the stored value, or 0 for a counter that was missing. |
| Counters.Adjusted | counters.js:73-75 | A press is accepted exactly when the value plus the delta is at least 0, and the new value is that sum. |
| Counters.HandleCounterCallback | counters.js:56-90 | Unmatched data: an alert, with nothing read or written. A change below zero: an alert and only the lazy zero entry. Otherwise: only that counter is set to value + delta, then the message is edited; a failed edit throws after the write. Counters that were all at least 0 stay so. |
| Counters.HandleCounters | counters.js:96-100 | One reply with the counters keyboard. |
| Counters.EnsureKeepsNonNegative | counters.js:28-47 | The lazy creation keeps every stored counter at 0 or above. |
| Counters.PressKeepsNonNegative | counters.js:73-83 | Starting from counters that are all at least 0, no button press stores a negative value. |
| Counters.FloorRejects | counters.js:73-78 | Pressing -1 on a stored 0 is rejected, with nothing written. |
| Routes.Upsert | routes.js:39 | Writing an entry: its key joins the keys. An existing key keeps its position and the length stays the same. A new key is appended at the end. Every other entry stays where it is. |
| Routes.OverwriteInPlace | routes.js:54 | With unique keys, an entry under an existing key replaces exactly that entry. |
| Routes.UpsertEach | routes.js:38-61 | The `forEach` writing loop yields the entries written in order. |
| Routes.BuildRoutes | routes.js:13-61 | The tables are the static ones, with the counter entries and then the quiz entries written into IDLE. |
| Routes.BuiltKeysUnique | routes.js:13-61 | Every built table has each key once, however the counter ids and the quiz names collide. |
| Routes.StaticKeysUnique | routes.js:13-33 | Each static table has each key once. |
| Routes.UpsertKeepsKeysUnique | routes.js:39 | Writing an entry keeps the keys unique. |
| Routes.StaticTextWins | routes.js:72-79 | A counter or quiz whose text equals a static IDLE text does not take over: the earlier static key is still selected, if no counter id or quiz name is itself a static key. |
| Routes.EarlierTextWins | routes.js:72-79 | Entries written under new keys leave the first match of the entries before them unchanged. |
| Routes.FirstMatch | routes.js:72-80 | The position of the first entry whose command or text is truthy and equals the message text; none only when no entry matches. |
| Routes.SelectRoute | routes.js:64-85 | The selector loop returns RouteKey: the key of the first matching entry of the state's table, and 'unknown' otherwise. |
| Routes.Select | routes.js:64-90 | The route run is an entry of the state's table, under the key the selector chose. None exactly when the state has no table or no entry has that key. |
| Routes.Lookup | routes.js:88-90 | The route bound to a key is an entry of the state's table under that key. None when the key is absent or the state has no table. |
| Routes.FirstMatchIsRun | routes.js:64-90 | With unique keys, the route run is the first entry matching the text. |
| Routes.NoTextSelectsUnknown | routes.js:65-84 | An update without text (a callback, a location, a photo) selects 'unknown'. |
| Routes.UnknownStateSelectsUnknown | routes.js:70-84 | A state that is not in the table selects 'unknown', and nothing is routed. |
| Routes.UnmatchedFallsThrough | routes.js:84 | When no entry is keyed 'unknown', an unmatched text reaches the fallback. |
| Routes.TestingRoutes | routes.js:26-29 | In TESTING, both `/start` and the finish button complete the quiz. |
| Dispatcher.FallbackBranch | routes.js:121-149 | Exactly one fallback branch, in priority order: REGISTRATION; IDLE with a location; IDLE with a callback; TESTING; otherwise not recognized. |
| Dispatcher.Decide | routes.js:88-113 | The update is dropped exactly when the filter rejects it. Otherwise a route runs exactly when Select gives one, and it is that route's key and handler; when Select gives none, FallbackBranch's branch runs. |
| Dispatcher.ShowCounterValue | routes.js:41-47 | A counter entry creates the counter if it is missing, then shows the stored value with the counter's keyboard. Counters that were all at least 0 stay so. |
| Dispatcher.RunHandler | routes.js:92-94 | In the model, among the routed handlers only `/start` and the profile screen can throw (in the source as written the counters menu always throws too; see "## Left out"), and only for a record whose health cannot be rendered. The outbox only grows. A consistent session stays consistent, a known state stays known, and counters that are all at least 0 stay so. |
| Dispatcher.Guard | routes.js:90-108 | A non-callable handler gets one fixed error message and nothing else. A handler that throws gets the generic error message last. Neither error escapes. A known state stays known, and counters that are all at least 0 stay so. |
| Dispatcher.RunOtherwise | routes.js:113-150 | The branch runs with no guard. The not-recognized reply changes nothing else. An answer with no session escapes having changed nothing. A known state stays known, and counters that are all at least 0 stay so. |
| Dispatcher.Dispatch | routes.js:64-150 | The decision is Decide's, and the filter's effects are those of StateFilter. Only fallback errors escape, and guarded errors come from the profile. The outbox only grows, and "a quiz session exists exactly in TESTING" is preserved. Afterwards the state is always one of the three (IDLE while unset), and counters that were all at least 0 stay so. |
| Dispatcher.NoTextNeverRouted | routes.js:73-76 | With no 'unknown' key, an update without text never reaches a routed handler. |
| Dispatcher.IdleCallbackReachesCounters | routes.js:133-137 | A button press in IDLE reaches the counter callback. |
| Dispatcher.TestingTextIsAnswer | routes.js:140-143 | In TESTING, a text other than the two routes is handled as an answer, and that answer records -1. |
| Dispatcher.FilterDrops | stateManager.js:4-6 | A photo is dropped in IDLE and in TESTING, and is let through in REGISTRATION. |
| Dispatcher.RegistrationDropsCallback | stateManager.js:6 | A button pressed in REGISTRATION is dropped. |
| Dispatcher.BuiltTableNoUnknownKey | routes.js:38-61 | When no counter or quiz is named 'unknown', no built table has an 'unknown' key. |
| Dispatcher.BuiltTableWellFormed | routes.js:26-29 | The built TESTING table binds no registration `/start` handler. |
| Dispatcher.BuiltHandlersCallable | routes.js:13-61 | Every handler of the built tables, in all three states, is a function. |
| Dispatcher.UpsertAllCallable | routes.js:38-61 | Writing entries with callable handlers into a table of them keeps every handler callable. |

## Left out

- Route binding. `'start'` is registered once per state (routes.js:15, 28 and 31, in the loop at routes.js:88-90). grammy's Router keeps one handler per key, the last `route(key, …)` call, so in the source `/start` in every state runs the REGISTRATION handler registered at routes.js:31, handleStart, and never handleTestCompletion. The model binds each handler to its (state, key) pair instead, so `/start` in TESTING completes the quiz and `/start` in IDLE runs the IDLE handler.
- Key order. JavaScript lists integer-like object keys first, in numeric order; the model keeps every table in insertion order. This covers the quiz result as well: the channel list comes from `Object.entries(channelScores)` (handlers/testHandlers.js:151), which puts integer-like channel names first, while TestHandlers.CalculateResults and ChannelsListed keep the order in which channels first appear.
- Prototype keys. A counter id such as `toString` is found by `in` on the prototype. A quiz channel named `constructor` or `toString` makes `channelScores[channel] += …` in calculateAndSendResults (handlers/testHandlers.js:139-158) start from the inherited function: the sum becomes a string and the activation NaN. Neither kind of name is modelled: the model treats every id and channel as an own key.
- Counter ids in the database. Ids containing `.` or `$` are split by the MongoDB field path. The model treats every id as one key.
- keyboard.js does not export `loadCounters` or `createCountersKeyboard`, which routes.js:3,36 and counters.js:3 import. The model takes the counter catalog `{id, name}` as an input list, and takes the counters menu keyboard as an opaque markup. As written, `loadCounters()` at routes.js:36 throws when the module loads, and `handleCouners` throws on every call at counters.js:98, so the route guard (routes.js:96-100) answers every press of the counters menu with the generic error. The model assumes both exports exist.
- The keyboards of keyboard.js are opaque constants. Their buttons are not modelled.
- Quiz files are taken already parsed (`QuizFile`). A file is modelled as unreadable, not an array, or a list of questions; the `require` cache and malformed question objects are not modelled.
- `getTestFiles` is the input `testNames`.
- TestHandlers.LoadAndStartTest: the `channelScores` field of the session is never read again, so it is not modelled.
- The branch of `startTest` that creates a session (handlers/testHandlers.js:53-62) cannot be reached from `loadAndStartTest`, so it is not modelled.
- The `!ctx.session` branch of `setState` is omitted. The session always exists, because bot.js creates it for every update.
- Numbers. JavaScript numbers are doubles: integers above 2^53 lose precision, and `${n}` switches to exponent notation from 1e21 (counters.js:11, handlers/userHandlers.js:67). The model takes counter values, experience, task counts and every other number as exact unbounded integers, written in plain decimal.
- The time-zone offset `Math.round(longitude / 15)` is floating point; it is taken as a given integer.
- Dispatcher.Dispatch: `callbackQuery` stands for `callbackData`, so a callback query without data is not modelled.
- TestHandlers.Activation: it follows the code's fixed divisor 21 (`7 * 3`), not a per-channel maximum. The floating-point quotient is taken as exact; no tie exists, so the nearest integer is the same.
- TestHandlers.OptionLetter: a position whose code would be 0xD800 or more (no quiz reaches it) is shown as U+FFFD. The source yields a lone surrogate, a BMP character, or a code wrapped modulo 65536.
- Not modelled:
  - logging;
  - HTML parse mode;
  - the plain `answerCallbackQuery` acknowledgements (only their throwing when there is no callback is kept);
  - concurrency between users;
  - failures of the database and of replies.
- bot.js and db.js: start-up, the database connection and shutdown are not modelled. The session store and the users collection are the fields of `Context.Ctx`.
- handlers.js (a superseded copy) and handlers/callbackQueryHandlers.js (registered after the router, which never calls `next`) are not part of this model.
- Dispatcher.Dispatch does not state each routed handler's effect. That is each handler's own contract; Dispatch states the decision, the guard, the filter and the invariants.
