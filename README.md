# Future Lens AI — a verified model of the application core

Future Lens AI is a single-page React application. The user signs in with a
name and an e-mail, then fills in a profile: age, goals, fears, tone and the
rest. After that they chat with a "future self" persona that a generative
model plays. This project models in Dafny the part of the application that
holds its logic:

- **The sign-in form** (`login_page.dfy`, module `LoginPage`). The form holds
  three text fields and a password-visibility flag. Its submit hands on the trimmed
  name and e-mail only when both are non-blank, and never hands on the
  password.
- **The profile form** (`user_info_page.dfy`, module `UserInfoPage`). The
  form holds ten fields with their initial values. Each edit changes one
  field. An age edit is accepted only when the test of digits and range
  passes. The arrow buttons step the age and clamp it to 1..150. The submit
  merges the form into the signed-in user.
- **The application shell** (`app.dfy`, module `App`). It holds the current
  page, the user, the remount key and the theme. The handlers move between
  the three pages, and `renderPage` decides what is shown.
- **The chat page** (`chat_page.dfy`, module `ChatPage`). It holds the
  conversation list, the active chat id, the input box and the loading flag.
  These are fields of the class `ChatStore`. Its handlers write them in the
  order the page calls its setters, including the delete's order that loses
  the fresh chat (see Findings). The handlers are: mount, new chat,
  delete chat, `updateMessages`, sending a message, receiving the streamed
  answer, and the persistence effect, which writes a ghost copy of the saved
  history. The module also has the byte-copy loop of `decode`.
- **The pure logic behind the chat page**:
  - `conversation.dfy`, module `Conversation`: the net effect of each store
    operation on the values, the per-chat edits, the search filter, the role
    mapping sent to the model, and the outcome of a stream.
  - `grounding.dfy`, module `Grounding`: collecting the sources of a stream
    and de-duplicating them by URI.
  - `model_selection.dfy`, module `ModelSelection`: the model and tool
    selector, a table of rules in which the first match wins.
  - `time_ago.dfy`, module `TimeAgo`: the "time ago" label.
- **Shared pieces**:
  - `types.dfy`, module `Types`: the records the application exchanges.
  - `text.dfy`, module `Text`: the JavaScript string built-ins the code
    relies on. These are `toLowerCase`, `includes`, `split`, `trim`,
    `parseInt` and number-to-string.
  - `wrappers.dfy`, module `Wrappers`: the optional value.
  - `sequences.dfy`, module `Sequences`: order-preserving selection, as
    `filter` performs it.

Each state change that the source performs through a React setter is a
method of a class. The method has a `modifies` clause naming the fields the
setter writes. In `ChatStore`, its `ensures` ties the new state to a function
on values in `Conversation`, and lemmas about those functions state what the
code promises. `AppShell`, `LoginForm` and `ProfileForm` state the new field
values directly, or through `UserInfoPage.With` for a profile edit.

## Model

| member | source | states |
|---|---|---|
| Text.TrimSpec | components/LoginPage.tsx:30-31 | `trim` removes white space at both ends only: the result is a slice of the input that neither starts nor ends with white space, and it is empty iff the input is all white space |
| Text.BlankIff | src/components/ChatPage.tsx:299 | `!s.trim()` holds exactly when every character is white space |
| Text.ContainsIff | src/components/ChatPage.tsx:152-153 | `includes` holds iff the needle occurs at some position of the string |
| Text.LowerIdempotent | src/components/ChatPage.tsx:87 | lower-casing twice is lower-casing once |
| Text.SplitJoin | src/components/ChatPage.tsx:110 | joining the pieces of `split(d)` with `d` gives the string back |
| Text.ShowRoundTrip | src/components/UserInfoPage.tsx:54 | reading back the decimal string of a number gives the number, and that string has no leading zero |
| Text.ParseIntDigits | src/components/UserInfoPage.tsx:40 | on a non-empty run of digits `parseInt(s, 10)` is the plain decimal value |
| ModelSelection.SelectModelForQuery | src/components/ChatPage.tsx:86-124 | the deep model with its thinking budget is selected iff a creative keyword matches; the search tool is chosen iff no creative keyword matches and a search keyword or a '?' with more than four pieces does; the quick model iff neither applies and there are fewer than five pieces; the fall-back iff none of the three rules applies, so only for queries with no '?' and at least five pieces; exactly one of four outcomes |
| ModelSelection.CaseInsensitive | src/components/ChatPage.tsx:87-110 | a query and its lower-cased form select the same model |
| TimeAgo.FormatTimeAgo | src/components/ChatPage.tsx:60-77 | an invalid date gives ""; otherwise each bucket is a range of elapsed milliseconds, and its count is one floor division of the elapsed time (seconds, minutes, hours, days, 30-day months, 365-day years), with the plural 's' only above one |
| TimeAgo.JustNowIff | src/components/ChatPage.tsx:64-65 | "just now" is shown iff under five seconds have elapsed, including any time in the future |
| TimeAgo.ZeroYearQuirk | src/components/ChatPage.tsx:73-76 | from 360 up to (not including) 365 days the label reads "0 year ago" |
| Grounding.ChunkSources | src/components/ChatPage.tsx:363-367 | every source kept has a non-empty URI; every grounding chunk with a web URI yields its source; no source comes from anywhere else; the result is the mapped chunks with some left out, in their order, and exactly as many as have a non-empty URI |
| Grounding.CollectSources | src/components/ChatPage.tsx:344-370 | every collected source has a non-empty URI, and a source is collected iff some chunk of the stream contributes it |
| Grounding.CollectSourcesAppend | src/components/ChatPage.tsx:344-370 | collecting is done chunk by chunk in stream order: the sources of a stream split in two are those of the first part followed by those of the second |
| Grounding.DedupByUri | src/components/ChatPage.tsx:378 | the values of a `Map` keyed by URI: one entry per URI of the input and no other; each entry is the last source with that URI; the entries follow the order in which each URI first occurs |
| Grounding.DedupStepKnown | src/components/ChatPage.tsx:378 | `map.set` of a URI already present replaces its value in place and keeps the de-duplication properties |
| Grounding.DedupStepNew | src/components/ChatPage.tsx:378 | `map.set` of a new URI appends it and keeps the de-duplication properties |
| Conversation.ApplyEdit | src/components/ChatPage.tsx:350-358 | the id and date stay; a title edit changes only the title; appending adds exactly the message; the text and source edits change only that field of the last message, only when that message is from the AI, and otherwise leave the chat as it was |
| Conversation.MapMatching | src/components/ChatPage.tsx:220-222 | every chat with the id is edited and every other chat is kept, at its position |
| Conversation.EditKeepsNewestFirst | src/components/ChatPage.tsx:218-223 | the per-chat edits (appending a message, retitling, the stream's writes) keep the list newest first by creation date |
| Conversation.OverwriteTwice | src/components/ChatPage.tsx:349-355 | writing the running text twice leaves only the second write |
| Conversation.UpdateMessages | src/components/ChatPage.tsx:218-223 | a null or empty id changes nothing; otherwise the message is appended to each chat with the id; ids, titles and dates stay |
| Conversation.UpdateMessagesCount | src/components/ChatPage.tsx:218-223 | the message total grows by exactly the number of chats carrying the id |
| Conversation.RemoveChat | src/components/ChatPage.tsx:206 | the kept chats are exactly those whose id is not the target, in their order, and one chat per match is dropped |
| Conversation.FilterChats | src/components/ChatPage.tsx:150-154 | the kept chats are exactly those whose lower-cased title or some lower-cased message contains the term, in their order, one entry per matching chat |
| Conversation.FilteredHistory | src/components/ChatPage.tsx:148-155 | a blank search term gives the whole history; any other term gives exactly the matching chats, case-insensitively, in their order, one entry per matching chat |
| Conversation.FilterKeepsNewestFirst | src/components/ChatPage.tsx:148-155 | a history ordered newest first by creation date filters to a list in the same order |
| Conversation.NewChat | src/components/ChatPage.tsx:193-202 | the fresh chat is put first and becomes active; the others follow unchanged, and the active id names a chat |
| Conversation.NewChatKeepsNewestFirst | src/components/ChatPage.tsx:200 | prepending a chat whose creation date ranks no lower than any other keeps the list newest first |
| Conversation.DeleteChat | src/components/ChatPage.tsx:204-216 | without confirmation nothing changes; otherwise exactly the chats with another id remain, in order, one fewer per chat carrying the target id; a different active id stays; a deleted active chat is replaced by the first remaining chat, or, when none remains, by the id of the fresh chat that the final write drops |
| Conversation.DeleteKeepsActiveResolved | src/components/ChatPage.tsx:204-216 | deleting keeps the active id naming a chat, unless the active chat was the only one left |
| Conversation.DeleteKeepsNewestFirst | src/components/ChatPage.tsx:204-216 | a delete, confirmed or not, keeps the list newest first by creation date |
| Conversation.DeleteActivatesNewestRemaining | src/components/ChatPage.tsx:207-209 | deleting the active chat while others remain activates the remaining chat with the newest creation date |
| Conversation.SubsequenceKeepsNewestFirst | src/components/ChatPage.tsx:206 | dropping chats from a list ordered newest first by creation date keeps that order |
| Conversation.DeleteOnlyChatLosesFreshChat | src/components/ChatPage.tsx:207-215 | as written, deleting the only chat while it is active leaves an empty history and an active id that names no chat |
| Conversation.DeleteChatCorrected | src/components/ChatPage.tsx:204-216 | the intended delete: the active id always names a chat when it did before; when the filtered list is emptied while the target was active, exactly the fresh chat remains, active; in every other case it is the delete as written |
| Conversation.Saved | src/components/ChatPage.tsx:166-174 | the storage key holds the history iff the history is non-empty, and is removed otherwise |
| Conversation.AfterSync | src/components/ChatPage.tsx:166-175 | the history stays; a non-empty history without a truthy active id gets its first chat as active; otherwise the active id stays |
| Conversation.SyncResolves | src/components/ChatPage.tsx:169-171 | the effect repairs a missing active id and never breaks one that names a chat |
| Conversation.DeleteOnlyChatStaysDangling | src/components/ChatPage.tsx:166-175 | after the as-written delete of the only active chat, the effect removes the key and leaves the active id dangling |
| Conversation.Prefix | src/components/ChatPage.tsx:305 | `substring(0, n)`: the first n characters, or the whole string when it is shorter |
| Conversation.Find | src/components/ChatPage.tsx:146 | a chat is found iff one carries the id, and what is found is the first chat carrying it |
| Conversation.SendUpdatesAt | src/components/ChatPage.tsx:302-313 | the three queued updates of a send leave other chats alone and, on the active chat, set the title (if any) and append the user message and the placeholder |
| Conversation.SendKeepsNewestFirst | src/components/ChatPage.tsx:301-313 | a send keeps the list newest first by creation date |
| Conversation.SendAppendsUserMessageAndPlaceholder | src/components/ChatPage.tsx:298-313 | sending appends exactly the user message and an empty AI placeholder to the active chat; the chat is retitled with the first 30 characters iff it held at most one message when rendered; every other chat is unchanged |
| Conversation.HistoryForModel | src/components/ChatPage.tsx:330-333 | one entry per message, with the same text; the role is "user" iff the sender is the user |
| Conversation.RequestHistory | src/components/ChatPage.tsx:330-333 | the model receives one entry per message of the first chat with the active id, as it was before the send, with the same text and the user role exactly for user messages; nothing when no chat carries the id |
| Conversation.ChatOutcome | src/components/ChatPage.tsx:343-399 | for a chat whose last message is from the AI, only that message changes: its text becomes the apology if the call failed, else the whole streamed text, or stays when nothing was streamed; the de-duplicated sources are attached only after a successful stream that had some; timestamp and feedback stay; any other chat is left unchanged |
| Conversation.StreamOutcomePerChat | src/components/ChatPage.tsx:343-399 | the stream changes the chats carrying the active id as `ChatOutcome` says, and no other chat |
| Conversation.StreamKeepsNewestFirst | src/components/ChatPage.tsx:343-399 | the streamed text, the apology and the attached sources keep the list newest first by creation date |
| Conversation.StreamedText | src/components/ChatPage.tsx:343-361 | a chat that ends with the empty placeholder receives the concatenation of every chunk text, or the apology when the call failed |
| ChatPage.ChatStore.Mount | src/components/ChatPage.tsx:157-175 | a saved history is loaded, or else one fresh chat is created and made active; the effect then saves a non-empty history and activates the first chat if none is active |
| ChatPage.ChatStore.HandleNewChat | src/components/ChatPage.tsx:193-202 | the store becomes `NewChat` of the old store |
| ChatPage.ChatStore.HandleDeleteChat | src/components/ChatPage.tsx:204-216 | the store becomes `DeleteChat` of the old store, as written: the nested new chat is queued before the final write of the filtered list, which drops it when the only chat was active (see Findings) |
| ChatPage.ChatStore.UpdateMessages | src/components/ChatPage.tsx:218-223 | the history becomes `UpdateMessages` of the old history |
| ChatPage.ChatStore.SelectChat | src/components/ChatPage.tsx:431 | the selected id becomes active |
| ChatPage.ChatStore.SetInput | src/components/ChatPage.tsx:488 | the input box holds the typed text |
| ChatPage.ChatStore.SendMessage | src/components/ChatPage.tsx:298-341 | nothing is sent iff the input is blank, a reply is loading or no chat is active, and then nothing changes; otherwise the history becomes `SendHistory`, the input is cleared, loading is set, and the pending request carries the chat id, the message, the model chosen for it and the chat before the send |
| ChatPage.ChatStore.StartSend | src/components/ChatPage.tsx:301-313 | the writes of a send, in order, give `SendHistory`, an empty input and the loading flag |
| ChatPage.ChatStore.AddUserMessage | src/components/ChatPage.tsx:301-306 | the user message is appended, then the title is set when one is given |
| ChatPage.ChatStore.ReceiveStream | src/components/ChatPage.tsx:343-402 | chunk by chunk the running text overwrites the placeholder, and the sources are collected; then the apology or the de-duplicated sources are written; the history ends as `StreamOutcome`, and loading ends |
| ChatPage.ChatStore.SyncStorage | src/components/ChatPage.tsx:166-175 | the store becomes `AfterSync` of the old store, and the storage holds `Saved` of the history |
| ChatPage.Decode | src/components/ChatPage.tsx:10-18 | a fresh byte array as long as the decoded string; each byte is the character code modulo 256, equal to the code for codes below 256 |
| UserInfoPage.With | src/components/UserInfoPage.tsx:41 | `{ ...prev, [name]: value }`: the named field takes the value, and every other field keeps its own |
| UserInfoPage.AgeAcceptableIff | src/components/UserInfoPage.tsx:40 | an age edit passes iff it is empty or a non-empty run of digits with a decimal value from 1 to 150 |
| UserInfoPage.LeadingZerosAccepted | src/components/UserInfoPage.tsx:40 | "007" passes the age test |
| UserInfoPage.CurrentAge | src/components/UserInfoPage.tsx:50 | an age that does not parse counts as 0; otherwise it is the parsed number |
| UserInfoPage.ClampAge | src/components/UserInfoPage.tsx:52-53 | the stepped age is kept in 1..150, unchanged when already inside |
| UserInfoPage.ArrowAgeAcceptable | src/components/UserInfoPage.tsx:48-56 | what the arrows write always passes the age test of a typed edit |
| UserInfoPage.ProfileForm.constructor | src/components/UserInfoPage.tsx:23-34 | every field starts empty except the tone, which starts as "motivational" |
| UserInfoPage.ProfileForm.HandleChange | src/components/UserInfoPage.tsx:36-46 | a rejected age edit changes nothing; any other edit sets exactly the named field |
| UserInfoPage.ProfileForm.HandleAgeArrowClick | src/components/UserInfoPage.tsx:48-56 | the age becomes the current age plus the step, clamped and written in decimal; the result passes the age test; no other field changes |
| UserInfoPage.ProfileForm.HandleSubmit | src/components/UserInfoPage.tsx:58-61 | the submitted user keeps the name and e-mail and carries every field of the form |
| LoginPage.Submission | components/LoginPage.tsx:28-33 | the form is handed on iff neither the name nor the e-mail is all white space, and then with both trimmed and non-empty |
| LoginPage.SubmittedTrimmed | components/LoginPage.tsx:31 | the name and e-mail handed on neither start nor end with white space |
| LoginPage.LoginForm.constructor | components/LoginPage.tsx:23-26 | empty fields, password hidden |
| LoginPage.LoginForm.SetName | components/LoginPage.tsx:51 | the name field holds the typed text |
| LoginPage.LoginForm.SetEmail | components/LoginPage.tsx:59 | the e-mail field holds the typed text |
| LoginPage.LoginForm.SetPassword | components/LoginPage.tsx:70 | the password field holds the typed text |
| LoginPage.LoginForm.ToggleShowPassword | components/LoginPage.tsx:78 | the visibility flag flips and nothing else changes |
| LoginPage.LoginForm.HandleSubmit | components/LoginPage.tsx:28-33 | changes no field and returns `Submission` of the name and e-mail; the result type has no room for the password |
| App.RenderPage | src/App.tsx:35-46 | "info" and "chat" show their page iff there is a user, and otherwise show nothing; the chat page receives the theme; "login" and any other page name show the sign-in page |
| App.ReachableNeverBlank | src/App.tsx:35-46 | in a state the handlers can reach, something is always shown |
| App.AppShell.constructor | src/App.tsx:10-13 | the sign-in page, no user, the key taken from the clock, the neon-blue theme |
| App.AppShell.HandleLogin | src/App.tsx:19-22 | the user is exactly the name and e-mail with no profile, and the information page follows |
| App.AppShell.HandleInfoSubmit | src/App.tsx:24-27 | the submitted user replaces the old one, and the chat page follows |
| App.AppShell.HandleStartOver | src/App.tsx:29-33 | back to the sign-in page with no user and a new key; the theme stays |
| App.AppShell.SetTheme | src/App.tsx:13 | the theme becomes the chosen one, and the shell is as valid as before |
| App.AppShell.Shown | src/App.tsx:35-46 | what the shell renders is never nothing while the state is one the handlers keep |

## Left out

- Clock readings (`Date.now()` and `new Date().toISOString()`) and the confirmation dialog are parameters.
- The id of a new chat and its timestamps are separate parameters (`id` and `now`). One `now` stands for both timestamps of a send, the user message's and the placeholder's; the source reads the clock for each.
- Parsing ISO timestamps is not modelled. `TimeAgo.FormatTimeAgo` receives the parsed time as milliseconds, or `None` for an invalid date.
- Text.Lower: only the ASCII letters are mapped. JavaScript's `toLowerCase` maps all of Unicode.
- Strings are sequences of Unicode characters, not UTF-16 code units. `substring(0, 30)` and `charCodeAt` count code units in the source.
- Text.ParseInt does not model the loss of precision of JavaScript numbers for very long digit strings.
- The generation service is not modelled. A send is split into `SendMessage`, its synchronous part, and `ReceiveStream`, which receives the chunks that arrived and whether the call threw. The service itself and how the chat session is created are left out.
- The system prompt is not modelled. The profile fields it interpolates (`src/components/ChatPage.tsx:318-328`) are not part of this model.
- Audio is not modelled: recording, transcription, speech output and `decodeAudioData`. `decode` is modelled only from the output of `atob`, because base64 decoding itself is not part of this model.
- `localStorage` and JSON are not modelled. Storage is a ghost field holding the saved history. It equals `Saved(history)` only once `SyncStorage` has run, as the page's effect does after every handler that changes the history.
- `ChatPage.ChatStore.Mount` does not model the effect's `removeItem` on a first render, which happens before the mount effect's updates are applied. The model runs the effect once, after them.
- The stream handler mutates the last message object in place. This is modelled as replacing that message in a copied list. Aliasing between render snapshots is not captured.
- Any handler may run between `ChatPage.ChatStore.SendMessage` and `ChatPage.ChatStore.ReceiveStream`, a delete or a second send among them. `ReceiveStream` applies the stream to the history as it is then, and changes only the chats that still carry the id. What is not modelled is an update landing in the middle of another handler: each handler runs to completion.
- The search term is an argument of `Conversation.FilteredHistory`, not a field of `ChatStore`.
- The browser's own form validation (`required` and `type` on the inputs, components/LoginPage.tsx:49-74 and src/components/UserInfoPage.tsx:82-126) is not modelled. It can keep a submit event from firing; the submit handlers are modelled as if called with any field values, and their own guards are what the model states.
- Scrolling, sidebar and modal toggles, the transcript download, message feedback and the presentation components are left out.
- In the model, `UserData` keeps the profile fields as one optional `Profile`. `{ name, email } as UserData` leaves them undefined, which is `None` here.
- The tone is a plain string rather than the five-value union. The form never checks it.
- `App.RenderPage` takes the page as a string, so the `default` branch is reachable there. The shell's own handlers only write the three known names.
- App.AppShell.constructor: the `document.body.className` effect is not modelled.

## Findings

| source | as written | input that shows it | evidently intended | confidence | as-written member | corrected member |
|---|---|---|---|---|---|---|
| src/components/ChatPage.tsx:207-215 | When the only chat is deleted while active, `handleNewChat()` queues a prepend of a fresh chat and activates it. The later `setHistory(updatedHistory)` then replaces the history with the empty filtered list. | history `[c]` with `c` active; delete `c` and confirm. The history ends `[]`, the active id names the lost fresh chat, and the storage key is removed. | The fresh chat remains as the only chat, and it is active. | not executed | Conversation.DeleteOnlyChatLosesFreshChat | Conversation.DeleteChatCorrected |
