# HealthFreak core, modelled in Dafny

HealthFreak is a Next.js health assistant. This project models its core:

- The rule-based doctor suggester behind `POST /api/suggest-doctor`.
- The keyword symptom checker widget.
- The two-step "Consult a Doctor" dialog that opens a session.
- The route middleware, which redirects signed-in users and protects private pages.
- The database-backed route handlers:
  - users find-or-create;
  - sessions create and list;
  - appending to a session's stored conversation;
  - storing chat messages;
  - building the final report;
  - SOS alerts;
  - ambulance requests.
- The relational schema those handlers write.

Each route handler is modelled twice:

- As a pure function `Handle(tables, request, …)`, which returns the tables after the request and the response.
- As a `method Post` on a `Database` object, whose fields are the tables. It is proved to leave exactly the state and the response the function gives.

The lemmas about each `Handle` state what the route promises: its error cases, the single row it writes, what it must not change, and that it keeps the schema's constraints.

The two stateful UI components are classes:

- The symptom checker is `SymptomChecker.Checker`.
- The dialog is `NewSessionDialog.Dialog`.

Each handler of a component is a method, specified by a transition function on the component's state value.

Files:

| file | contents |
|---|---|
| `base.dfy` | Options and results; a JSON value type with JavaScript truthiness and field access; `includes`, case mapping and `join`; requests and responses |
| `schema.dfy` | The tables, column limits and defaults, the schema's constraints (`Consistent`), and the `Database` class |
| `suggest_doctor.dfy` | `getFallbackSuggestions` and the suggest-doctor route |
| `symptom_checker.dfy` | `checkSymptoms` |
| `new_session_dialog.dfy` | The new-session dialog |
| `middleware.dfy` | The middleware decision |
| `users.dfy`, `sessions.dfy`, `update_conversation.dfy`, `final_report.dfy`, `conversation.dfy`, `sos.dfy`, `ambulance.dfy` | One route each |

Inputs the model does not compute, given as parameters instead:

- **The signed-in user** (`userId`, `ClerkUser`).
- **The database being down** (`fault`): the first query throws with that message.
- **The clock**: `now`, plus `isoNow` and `iso` for ISO time text.
- **The random chat id** generated by the sessions route.
- **The language-model reply** (`completion`).
- **`JSON.parse`** (`parse`), as a partial function.
- **How each request of the dialog settled** (`Reply`).

The sessions route files every session under database user 1, whoever is signed in, and lists only user 1's sessions (`Sessions.DbUserId`).

The specification functions, which the lemmas in the table below are about:

| function | models |
|---|---|
| `SuggestDoctor.Suggestions` | `getFallbackSuggestions`, app/api/suggest-doctor/route.tsx:4-52 |
| `SymptomChecker.Advise` | `checkSymptoms`, components/HealthSymptomChecker.jsx:13-30 |
| `Users.Handle` | `POST`, app/api/users/route.tsx:7-58 |
| `Sessions.HandlePost` | `POST`, app/api/sessions/route.ts:7-80 |
| `Sessions.HandleGet` | `GET`, app/api/sessions/route.ts:82-109 |
| `Sessions.NewestFirst` | `orderBy(desc(createdOn))`, app/api/sessions/route.ts:96-98 |
| `UpdateConversation.Handle` | `POST`, app/api/session/updateConversation/route.ts:5-41 |
| `FinalReport.Handle` | `POST`, app/api/final-report/route.ts:11-80 |
| `FinalReport.Transcript` | the `map`/`join` of the messages, app/api/final-report/route.ts:30-32 |
| `FinalReport.Report` | the parse with its `{summary}` fallback, app/api/final-report/route.ts:57-64 |
| `Conversation.Handle` | `POST`, app/api/conversation/route.ts:5-30 |
| `Sos.Handle` | `POST`, app/api/sos/route.ts:5-25 |
| `Ambulance.Handle` | `POST`, app/api/ambulance/route.ts:5-27 |
| `NewSessionDialog.ClickNext` | `OnClickNext`, app/_components/AddNewSessionDialog.tsx:30-46 |
| `NewSessionDialog.ClickStart` | `startConversation`, app/_components/AddNewSessionDialog.tsx:48-64 |
| `NewSessionDialog.SelectCard` | the card's `onClick`, app/_components/AddNewSessionDialog.tsx:119-127 |
| `NewSessionDialog.Reset` | `resetDialog`, app/_components/AddNewSessionDialog.tsx:66-74 |

## Model

| member | source | states |
|---|---|---|
| SuggestDoctor.MatchKeywordGroups | app/api/suggest-doctor/route.tsx:5-43 | the nine keyword tests push exactly the specialists of the groups whose words occur, in group order |
| SuggestDoctor.GetFallbackSuggestions | app/api/suggest-doctor/route.tsx:4-52 | the method's result equals the `Suggestions` specification (matches, General Physician fallback, first three) |
| SuggestDoctor.SuggestionsShape | app/api/suggest-doctor/route.tsx:45-51 | 1 to 3 suggestions, no repeats, in table order; General Physician exactly when nothing matched, and then alone; every other suggestion matched |
| SuggestDoctor.MatchedIff | app/api/suggest-doctor/route.tsx:9-43 | a specialist is among the matches exactly when one of its group's words occurs in the lower-cased notes |
| SuggestDoctor.TruncationKeepsEarliest | app/api/suggest-doctor/route.tsx:50-51 | as many suggestions as matches, up to three (one when nothing matched); with fewer than three matches every match is kept; any matched specialist left out ranks after all kept ones |
| SuggestDoctor.CaseInsensitive | app/api/suggest-doctor/route.tsx:5 | lower- or upper-casing the notes first does not change the suggestions |
| SuggestDoctor.HeartAlsoMatchesEar | app/api/suggest-doctor/route.tsx:13-27 | notes containing "heart" also match the ENT group through the substring "ear" |
| SuggestDoctor.MatchesRanked | app/api/suggest-doctor/route.tsx:9-43 | for a rank-ordered table, the pushed list is strictly increasing in rank and holds a group's specialist exactly when the group fires |
| SuggestDoctor.Encode | app/api/suggest-doctor/route.tsx:10-47 | each suggestion is an object with the specialist's `specialist` title and `reason` |
| SuggestDoctor.NotesOf | app/api/suggest-doctor/route.tsx:56-61 | the handler works on the `notes` text; it fails exactly when the body does not parse or `notes` is not a string |
| SuggestDoctor.Post | app/api/suggest-doctor/route.tsx:54-76 | 200 `{content: suggestions}` for text notes; otherwise 500 with `content: []`, the fixed error text and the thrown message as `details` |
| SymptomChecker.Checker.constructor | components/HealthSymptomChecker.jsx:10-11 | the description and the advice both start empty |
| SymptomChecker.Checker.SetSymptom | components/HealthSymptomChecker.jsx:51 | typing replaces the description and leaves the advice on display |
| SymptomChecker.Checker.CheckSymptoms | components/HealthSymptomChecker.jsx:13-30 | the advice set equals `Advise(symptom)` and is never empty |
| SymptomChecker.FirstMatchWins | components/HealthSymptomChecker.jsx:17-27 | the first branch of the `else if` chain that holds decides the advice |
| SymptomChecker.FirstMatchSource | components/HealthSymptomChecker.jsx:15-27 | the advice is the default with no branch holding, or the advice of a holding branch with no earlier one holding |
| SymptomChecker.FeverOrCold | components/HealthSymptomChecker.jsx:17-18 | "fever" or "cold" anywhere, in any letter case, gives the viral-infection advice |
| SymptomChecker.DefaultIffNoKeyword | components/HealthSymptomChecker.jsx:15 | the default advice is given exactly when no keyword of any branch occurs |
| SymptomChecker.ChestPainUnreachable | components/HealthSymptomChecker.jsx:23-26 | the chest-pain advice is never given: "chest pain" contains "pain", which the stomach branch tests first |
| SymptomChecker.AdviceNonEmpty | components/HealthSymptomChecker.jsx:15-29 | every advice the checker can set is non-empty |
| SymptomChecker.AdviseIgnoresCase | components/HealthSymptomChecker.jsx:14 | upper- or lower-casing the description does not change the advice |
| Middleware.Decide | middleware.ts:13-31 | a redirect always goes to `<origin>/dashboard` |
| Middleware.RedirectIff | middleware.ts:17-25 | a request is redirected exactly when someone is signed in and the path is "/", "/sign-in…" or "/sign-up…" |
| Middleware.SignedOutNeverRedirected | middleware.ts:17-18 | without a user id (missing or empty) nothing is redirected |
| Middleware.ProtectIff | middleware.ts:27-30 | `auth.protect()` runs exactly on non-public paths, whoever is signed in |
| Middleware.LandingIsPublic | middleware.ts:4-11 | every page a user is redirected from is public |
| Middleware.PublicExamples | middleware.ts:4-11 | "/", "/sos", "/sign-in/…", "/api/users" and "/emergency-…" are public |
| Middleware.PrivateExamples | middleware.ts:4-11 | "/dashboard", "/sos/history" and "/api" are not public |
| Users.RejectsAnonymousCallers | app/api/users/route.tsx:13-20 | no user gives 401 "No user logged in", no email 400 "Logged-in user has no email"; neither writes |
| Users.ReturnsExistingRow | app/api/users/route.tsx:23-46 | a stored row with that email is returned unchanged and nothing is written |
| Users.CreatesNewUser | app/api/users/route.tsx:30-42 | an unknown email is inserted once with 10 credits and the name `fullName ?? "Anonymous"`; the new row is returned |
| Users.EmailStoredAfterSuccess | app/api/users/route.tsx:31-46 | after a 200 a row with the user's email exists |
| Users.Idempotent | app/api/users/route.tsx:23-46 | a second call for the same user writes nothing and gives the same answer |
| Users.DatabaseErrorReported | app/api/users/route.tsx:48-56 | a database error gives 500 with the error's message and writes nothing |
| Users.HandleKeepsConsistency | app/api/users/route.tsx:31-42 | the handler keeps every schema constraint, email uniqueness included |
| Users.Post | app/api/users/route.tsx:7-58 | the database object ends as `Handle` says and answers as it does |
| Sessions.PostNeedsSignIn | app/api/sessions/route.ts:9-16 | without a user id: 401 "User not authenticated", nothing written |
| Sessions.PostNeedsNotesAndDoctors | app/api/sessions/route.ts:18-25 | falsy `notes` or `suggestedDoctors`: 400, nothing written |
| Sessions.PostCreatesOneSession | app/api/sessions/route.ts:30-68 | one row appended under user 1, status "active", `agentId` = `selectedAgentId or null`, no report, conversation = start line + notes; the answer carries the row id |
| Sessions.PostWritesIffOk | app/api/sessions/route.ts:7-80 | a 200 answer wrote one row; any other answer wrote none |
| Sessions.PostKeepsConsistency | app/api/sessions/route.ts:52-59 | the handler keeps every schema constraint, including the unique chat id and the user foreign key |
| Sessions.Post | app/api/sessions/route.ts:7-80 | the database object ends as `HandlePost` says and answers as it does |
| Sessions.SaveError | app/api/sessions/route.ts:70-78 | a thrown error answers 500 "Failed to save session" with the message as `details` |
| Sessions.NewestFirstSorts | app/api/sessions/route.ts:96-98 | the ordering is sorted by `createdOn`, latest first, and a permutation of its input |
| Sessions.ListingIsUsersSessionsNewestFirst | app/api/sessions/route.ts:93-100 | the listing holds exactly user 1's sessions, each as often as stored, latest first |
| Sessions.GetNeedsSignIn | app/api/sessions/route.ts:84-91 | without a user id the listing is refused with 401 |
| Sessions.Get | app/api/sessions/route.ts:82-109 | the answer is `HandleGet` of the current tables, and nothing is written |
| UpdateConversation.MissingFieldsRejected | app/api/session/updateConversation/route.ts:9-11 | falsy `sessionId` or `newMessage`: 400 "Missing required data", nothing written |
| UpdateConversation.UnknownSessionNotFound | app/api/session/updateConversation/route.ts:14-22 | 404 exactly when no session has that chat id, and then nothing is written |
| UpdateConversation.AppendsMessage | app/api/session/updateConversation/route.ts:25-36 | that session's conversation becomes its old array (or [] when not an array) plus the new message; everything else unchanged |
| UpdateConversation.HandleKeepsConsistency | app/api/session/updateConversation/route.ts:31-34 | the update keeps every schema constraint |
| UpdateConversation.Post | app/api/session/updateConversation/route.ts:5-41 | the database object ends as `Handle` says and answers as it does |
| FinalReport.MessagesOf | app/api/final-report/route.ts:20-23 | only rows of that chat, and every stored row of that chat |
| FinalReport.MessagesOfCount | app/api/final-report/route.ts:20-23 | each row of that chat is selected as often as it is stored, and no other row |
| FinalReport.MessagesOfAppend | app/api/final-report/route.ts:20-23 | the selection keeps table order: the rows of a table split in two are those of the first part followed by those of the second |
| FinalReport.MessagesOfSingle | app/api/final-report/route.ts:20-23 | a single row is selected exactly when its chat id matches |
| FinalReport.MissingChatIdRejected | app/api/final-report/route.ts:15-17 | falsy `chatId`: 400 "chatId is required" before any query |
| FinalReport.NoMessagesNotFound | app/api/final-report/route.ts:25-27 | a chat with no stored message: 404, the model is not asked, nothing is written |
| FinalReport.LineWithoutNewline | app/api/final-report/route.ts:30-32 | a `SENDER: message` line built from a sender and a message without newlines holds no newline |
| FinalReport.TranscriptOfMessages | app/api/final-report/route.ts:30-40 | the text sent to the model is the transcript of that chat's messages; when no sender or message holds a newline it has exactly one newline fewer than messages, so one line per message |
| FinalReport.TranscriptLineCount | app/api/final-report/route.ts:30-32 | messages without newlines give a transcript with one newline fewer than messages |
| FinalReport.StoresParsedReport | app/api/final-report/route.ts:57-72 | the report is the parse of the reply text ("{}" when it is empty), or `{summary: text}` when it does not parse; it is stored in exactly the sessions with that chat id and returned |
| FinalReport.UpstreamFailureWritesNothing | app/api/final-report/route.ts:51-78 | a failing model call writes nothing and, once the transcript was sent, answers 500 with its message |
| FinalReport.HandleKeepsConsistency | app/api/final-report/route.ts:67-70 | the report update keeps every schema constraint |
| FinalReport.Post | app/api/final-report/route.ts:11-80 | the database object ends as `Handle` says and answers as it does |
| Conversation.MissingFieldsRejected | app/api/conversation/route.ts:9-14 | falsy `chatId`, `sender` or `message`: 400 "Missing required fields", nothing written |
| Conversation.AppendsOneRow | app/api/conversation/route.ts:16-22 | one row appended holding the three fields as given (the sender is not checked) |
| Conversation.RepeatedChatIdAccepted | config/schema.tsx:59-65 | `conversations.chat_id` is not unique: the same message posted twice is stored twice, under the same chat id |
| Conversation.StoredMessageReachesReport | app/api/conversation/route.ts:16-20 | a stored message becomes the last message of its chat as the final report reads them; other chats are unaffected |
| Conversation.WritesIffStored | app/api/conversation/route.ts:5-30 | the table changes exactly on the `{success: true}` answer; every other answer is 400 or 500 |
| Conversation.Failed | app/api/conversation/route.ts:23-28 | 500 with the error's message, or "Internal Server Error" when it is empty |
| Conversation.HandleKeepsConsistency | app/api/conversation/route.ts:16-20 | the insert keeps every schema constraint |
| Conversation.Post | app/api/conversation/route.ts:5-30 | the database object ends as `Handle` says and answers as it does |
| Sos.EmergencyType | app/api/sos/route.ts:15 | a missing or falsy emergency type becomes "Unknown"; otherwise it is kept |
| Sos.MissingFieldsRejected | app/api/sos/route.ts:9-11 | falsy `userEmail`, `latitude` or `longitude`: 400, nothing stored |
| Sos.InsertsOneAlert | app/api/sos/route.ts:13-20 | exactly one alert appended with the given email and position, the type or "Unknown", status "Pending" |
| Sos.WritesIffSaved | app/api/sos/route.ts:5-25 | the table changes exactly on the success answer, by one alert in status "Pending"; every 500 is `{success: false, error: "Database error"}` |
| Sos.HandleKeepsConsistency | app/api/sos/route.ts:13-18 | the insert keeps every schema constraint |
| Sos.Post | app/api/sos/route.ts:5-25 | the database object ends as `Handle` says and answers as it does |
| Ambulance.MissingFieldRejected | app/api/ambulance/route.ts:10-12 | any of the five fields missing or falsy: 400, nothing stored |
| Ambulance.Bind | config/schema.tsx:37-45 | the five values bind exactly when each fits its column; a contact holds at most 20 characters |
| Ambulance.InsertsOneRequest | app/api/ambulance/route.ts:14-22 | exactly that request appended and "Ambulance request saved!" answered |
| Ambulance.LongContactRefused | config/schema.tsx:40 | a contact over 20 characters is refused: 500 "Failed to save request", nothing stored |
| Ambulance.WritesIffSaved | app/api/ambulance/route.ts:5-27 | the table changes exactly on the success answer; every other answer is the 400 or the fixed 500 |
| Ambulance.HandleKeepsConsistency | app/api/ambulance/route.ts:14-20 | the insert keeps every schema constraint |
| Ambulance.Post | app/api/ambulance/route.ts:5-27 | the database object ends as `Handle` says and answers as it does |
| Schema.BindText | config/schema.tsx:6-63 | strings are bound as they are; null, arrays and objects are refused by a text column |
| Schema.BindVarchar | config/schema.tsx:6-61 | a value binds to a `varchar(n)` column exactly when it binds as text and fits in n characters |
| Schema.FindEmail | app/api/users/route.tsx:23-46 | the first row with that email, or none exactly when no row has it |
| Schema.FindChatId | app/api/session/updateConversation/route.ts:14-18 | the first session with that chat id (`limit(1)`), or none exactly when no row has it |
| Schema.UpdateWhereChatId | app/api/session/updateConversation/route.ts:31-34 | exactly the rows with that chat id get the new column value; all other rows and columns are unchanged |
| Schema.UpdateKeepsKeys | config/schema.tsx:12-23 | such an update keeps the ids, the unique chat ids and the user foreign key |
| Schema.Database.InsertUser | config/schema.tsx:4-9 | appends a user under the next identity id; the tables stay consistent, email uniqueness included |
| Schema.Database.InsertSession | config/schema.tsx:12-23 | appends a session with a new chat id under an existing user |
| Schema.Database.InsertSosAlert | config/schema.tsx:48-56 | appends an alert whose status is the column default "Pending" |
| Schema.Database.InsertAmbulanceRequest | config/schema.tsx:37-45 | appends a request under the next identity id |
| Schema.Database.InsertConversation | config/schema.tsx:59-65 | appends a message row; no uniqueness is asked of its chat id |
| NewSessionDialog.Dialog.constructor | app/_components/AddNewSessionDialog.tsx:21-27 | the dialog starts in the initial state |
| NewSessionDialog.Dialog.OnClickNext | app/_components/AddNewSessionDialog.tsx:30-46 | the fields end as `ClickNext` of the old state and the reply |
| NewSessionDialog.Dialog.StartConversation | app/_components/AddNewSessionDialog.tsx:48-64 | the fields, the page navigated to and the scheduled reset are as `ClickStart` says |
| NewSessionDialog.Dialog.SelectAgent | app/_components/AddNewSessionDialog.tsx:119-127 | the selected agent becomes card index + 1 |
| NewSessionDialog.Dialog.ResetDialog | app/_components/AddNewSessionDialog.tsx:66-74 | every field returns to its initial value |
| NewSessionDialog.Dialog.SetNote | app/_components/AddNewSessionDialog.tsx:94-100 | only the note changes |
| NewSessionDialog.EmptyNoteIgnored | app/_components/AddNewSessionDialog.tsx:31 | Next with an empty note changes nothing, whatever the server would answer |
| NewSessionDialog.NextOutcome | app/_components/AddNewSessionDialog.tsx:32-45 | loading ends false. On success: step 2, `content ?? []`, no error. On failure: step and suggestions kept; the server's truthy `error` or the fixed text is shown, so an error always shows |
| NewSessionDialog.NextWithSuggestions | app/_components/AddNewSessionDialog.tsx:35-37 | against the suggest-doctor route's 200 answer, the dialog shows its one to three suggestions for the note |
| NewSessionDialog.NextWithSuggestFailure | app/_components/AddNewSessionDialog.tsx:38-42 | against the route's 500 answer, the route's own error text is shown, not the fallback |
| NewSessionDialog.StartOutcome | app/_components/AddNewSessionDialog.tsx:48-64 | loading ends false. It navigates and schedules a reset exactly when the post resolved with a non-null body; otherwise it shows the fixed failure text. Nothing else changes |
| NewSessionDialog.StartRequestAccepted | app/_components/AddNewSessionDialog.tsx:51-55 | the body posted from step 2 passes the sessions route's required-field check |
| NewSessionDialog.StartNavigatesToSession | app/_components/AddNewSessionDialog.tsx:56 | the sessions route's success answer leads to `/dashboard/medical-agent/<new id>` |
| NewSessionDialog.SelectOutcome | app/_components/AddNewSessionDialog.tsx:119-127 | selecting card i selects agent i + 1, within 1..number of cards, and enables Start unless loading |
| NewSessionDialog.ResetRestoresInitial | app/_components/AddNewSessionDialog.tsx:66-74 | reset restores every initial value from any state |
| NewSessionDialog.ButtonsNeedInput | app/_components/AddNewSessionDialog.tsx:165-182 | Next is enabled exactly with a note and not loading; Start exactly with a selected agent and not loading |
| NewSessionDialog.HandlersKeepReachable | app/_components/AddNewSessionDialog.tsx:30-74 | the handlers keep the invariant: step 2 only with a note; a selection only in step 2, and only of an existing card |
| NewSessionDialog.InitialReachable | app/_components/AddNewSessionDialog.tsx:21-27 | the initial state satisfies the invariant, and both buttons are disabled |

## Left out

- Presentation is not modelled: markup, styling, animation, and the pages that only display data.
- The voice-call hooks and clients are not part of this model (useVapi, the Vapi client, AssemblyAI), nor is the medical-agent session page built on them.
- The language-model calls are inputs. The final report takes the reply as `completion`. The suggest-doctor route makes no model call; it always uses the keyword fallback.
- `JSON.parse` is a parameter `parse: string -> Option<Json>`, a partial function. Parsing the request body is folded into `Request`: a value or the error it threw.
- The health, session-chat, chatbot and `sessions/[id]` routes are not part of this model, nor is the submit-symptoms page.
- The middleware's Clerk session is an input. The route matcher's `(.*)` patterns are read as plain prefixes. The `config.matcher` that skips static files is not modelled.
- Clocks and randomness are inputs: `now`, `isoNow`, `iso`, and the chat id.
- Both entries of a new session's conversation carry one timestamp. The source reads the clock twice, microseconds apart.
- Concurrency is not modelled: two requests racing, and transactions. Each handler runs alone against the tables.
- The find-then-insert of the users route is one step here.
- `fault` makes a handler's first query throw. A failure between a later query and the write is not modelled separately.
- Console logging is not modelled.
- The exact texts of runtime errors are fixed constants: `NullBodyMessage`, `NotesNotText`, `ConstraintViolation`. The runtime's real wording differs.
- Schema.BindText: value binding is approximated. Strings, numbers and booleans bind as their text; null, arrays and objects are refused. The binding of the integer column `sessions.agent_id` is not checked, so a non-numeric `selectedAgentId` is stored where Postgres would raise an error.
- Text.Lower, Text.Upper: case mapping covers ASCII letters only; `toLowerCase` and `toUpperCase` also map other scripts. So `CaseInsensitive` and `AdviseIgnoresCase` hold for this mapping, not for every string in JavaScript (upper-casing "ſ" gives "S"), and `FinalReport.Line` upper-cases only ASCII letters of the sender.
- FinalReport.MessagesOf: the final-report query has no `ORDER BY`, so Postgres may return a chat's messages in any order. The model reads them in table order.
- Users.CreatesNewUser, Sessions.PostCreatesOneSession: an identity column in Postgres uses up a sequence value even when the insert then fails (a unique, foreign-key or length violation). The model advances `nextUserId` and `nextSessionId` only when the row is stored, so after a refused insert the next id it gives is lower than the one Postgres would give.
- Sessions.NewestFirst: ties in `createdOn` keep table order. SQL leaves their order unspecified.
- The `users.credits` and `sessions.updated_at` columns are written as given. The unused defaults of `sessions.conversation` (`[]`) and `sessions.status` (`"active"`) appear only as the constants `DefaultConversation` and `DefaultSessionStatus`, because the only insert sets both columns itself.
- The tables the core never touches (`health_tracker`, `chatbot_agents`, `chatbot_history`) are not modelled.
- NewSessionDialog.Dialog.OnClickNext: the handler is modelled as one step. The render while `loading` is true and a request is in flight, and user events arriving meanwhile, are not modelled.
- The `success` message's display and the two-second timer are not modelled. `StartConversation` returns `resetScheduled`, and the caller runs `ResetDialog` later.
- NewSessionDialog.TemplateText: `String(n)` of a number is the number's JSON text.
