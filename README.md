# Elevator support assistant: a Dafny model

The system is a small elevator-maintenance assistant with three parts:
- A technician types a fault description into a chat box. The web client
  asks the backend for the three closest expert logs, shows them as result
  cards, and saves the turn as a chat log.
- An expert enters problem/cause/steps logs in a separate panel. The panel
  posts them with a three-attempt exponential-backoff helper and lists the
  expert's stored logs.
- A Flask backend validates and stores logs in a vector store, lists them
  per expert, and runs semantic search.

A rule-based rephraser maps fault keywords to fixed search sentences.

The model covers these parts of the code:

| module | file | what it holds |
|---|---|---|
| `Text` | `text.dfy` | whitespace trimming, lower-casing, substring search, joining, reversal, number formatting |
| `Wire` | `wire.dfy` | string-valued JSON objects, JavaScript `||` and Python `dict.get` defaults, the `get_logs` reply shapes, 2xx statuses |
| `KnowledgeApi` | `api.dfy` | the search call with its fallback record, and the chat-log persistence call |
| `ChatMessageView` | `chat_message.dfy` | which bubble a chat message renders as |
| `ChatBoxSession` | `chat_box.dfy` | the chat box (class `ChatBox`): history replay and a full query turn |
| `ChatPageView` | `chat_page.dfy` | the technician page (class `Page`): the history list and its refreshes |
| `ExpertPanelView` | `expert_panel.dfy` | the retry helper (a loop) and the expert panel (class `Panel`) |
| `Backend` | `backend.dfy` | the three routes over an abstract store (class `Collection`) |
| `Retriever` | `retriever.dfy` | the keyword rephraser |
| `Auth` | `auth.dfy` | the authentication context (class `AuthProvider`) |
| `LoginScreen` | `login.dfy` | the demo login decision and the login form (class `LoginPage`) |
| `Flows` | `flows.dfy` | facts that join a client to the backend |

How the environment is represented:
- HTTP answers, thrown errors, fresh ids and the current time are
  parameters.
- State that React or Flask keeps between calls is a class field, and each
  handler is a method on it.
- Where a handler waits on the network, the method takes the way the wait
  ended as a parameter and runs to completion.

Some of what the code does, as proved here:
- The chat box's saved log lacks `problem`, `cause` and `steps`. The store
  refuses it with 400, and the status line reads "Error Saving Log".
- The expert panel's log lacks `elevator_id`, so it is refused on every
  attempt. The helper gives up after waiting 1000 and then 2000 ms.
- The `get_logs` reply is the store's record object. The expert panel
  lists it, but the chat page, which expects an array, lists nothing.
- A genuine top search hit whose problem is literally "Error" is taken for
  the failure record and shown as plain text.

## Model

| member | source | states |
|---|---|---|
| Text.TrimIdempotent | backend/ai_retriever.py:16 | trimming a trimmed string changes nothing (the whitespace removal shared by `strip()` and `trim()`) |
| Text.BlankIffTrimEmpty | frontend/src/ChatBox.js:59-60 | a string trims to "" exactly when every character is whitespace, so `!input.trim()` is the blank test |
| Text.Reverse | frontend/src/ChatPage.js:45 | the reversed list has the same length and element k is element n-1-k of the input |
| Text.Prefix | frontend/src/ChatBox.js:30 | `substring(0, n)` has length min(n, length) and is a prefix of the string |
| Wire.FieldOrAgreesWithPyGet | frontend/src/ChatPage.js:40-43 | the JavaScript `||` default and Python's `get` default differ exactly on a key present with an empty value |
| KnowledgeApi.SearchRequestFor | frontend/src/api.js:15-23 | the search asks for three results, and adds an elevator filter exactly when the elevator id is not blank, sending it trimmed |
| KnowledgeApi.SearchFilterIsTrimmed | frontend/src/api.js:21-22 | an elevator filter, when sent, is non-empty with no surrounding whitespace |
| KnowledgeApi.SearchKnowledge | frontend/src/api.js:25-46 | a 2xx answer yields its `results` list, or [] when there is none; a failure yields exactly one "Error" record with the fixed cause, distance 1.0, and the error message (or the default detail when empty) as steps |
| KnowledgeApi.SerializeResults | frontend/src/api.js:67-79 | missing or empty results serialise to "No relevant steps found."; otherwise the text is the match blocks joined by blank lines |
| KnowledgeApi.MatchBlocks | frontend/src/api.js:69-77 | one text block per search result, in order, numbered from 1 |
| KnowledgeApi.SerializedBlocksInOrder | frontend/src/api.js:68-79 | every result's block occurs in the stored `ai_response` text, and a later result's block starts later |
| KnowledgeApi.SerializedBlockPresent | frontend/src/api.js:68-79 | each result's block is contained in the stored text |
| KnowledgeApi.SerializeAppend | frontend/src/api.js:78 | one more result appends a blank line and its block; a single result is its block alone |
| KnowledgeApi.PayloadShape | frontend/src/api.js:86-94 | the chat-log payload has exactly seven keys, `elevator_id` defaults to "All", and `status` is "completed" |
| KnowledgeApi.PersistLog | frontend/src/api.js:60-105 | nothing is posted without an expert id; otherwise the payload is posted, and success is reported exactly when the answer was 2xx |
| ChatMessageView.Render | frontend/src/ChatMessage.js:8-128 | a user message shows its text. An assistant message shows non-blank text as text; otherwise it shows a numbered card list exactly when it has results whose first record is not "Error", else a status line. Any other role shows nothing. |
| ChatMessageView.SentinelNeverListed | frontend/src/ChatMessage.js:42 | the failure record is never shown as a list of found logs |
| ChatMessageView.OnlyFirstRecordTested | frontend/src/ChatMessage.js:42 | only the first record is checked: a list with a genuine first record is shown in full, "Error" records further down included |
| ChatMessageView.CardsNumberedInOrder | frontend/src/ChatMessage.js:59-84 | card k is numbered k+1 and shows record k's steps |
| ChatBoxSession.ExpertIdFrom | frontend/src/ChatBox.js:6-11 | the mock expert id applies only when the prop is absent |
| ChatBoxSession.StatusTones | frontend/src/ChatBox.js:97 | "Error Saving Log" gets the error tone, "Log Saved" the success tone, and every other status the chat box sets ("Ready", "Processing...", "Loaded from History", "New Session", "Saving...") the neutral one |
| ChatBoxSession.FixedMessagesRender | frontend/src/ChatBox.js:40-63 | the welcome and searching messages render as text bubbles |
| ChatBoxSession.HistoryRendering | frontend/src/ChatBox.js:22-37 | a replayed log shows the query, then one card numbered 1 with distance 0.0000, the query cut to 30 characters plus "..." as title, and the stored response as steps |
| ChatBoxSession.TurnRendering | frontend/src/ChatBox.js:79-84 | a turn's answer is a list exactly when the backend answered with a listable result; a failure shows its detail; no results shows "No relevant knowledge found." |
| ChatBoxSession.ChatBox.constructor | frontend/src/ChatBox.js:11-15 | empty conversation and input, not loading, status "Ready" |
| ChatBoxSession.ChatBox.LoadLog | frontend/src/ChatBox.js:22-44 | a log with query and response replays as two messages with status "Loaded from History"; anything else opens with the welcome and "New Session" |
| ChatBoxSession.AiText | frontend/src/ChatBox.js:83 | the answer has no text exactly when there are results whose first problem is not "Error"; an "Error" first record gives its steps, and no results give "No relevant knowledge found." |
| ChatBoxSession.ChatBox.Type | frontend/src/ChatBox.js:114 | typing replaces the input and leaves the conversation, loading flag and status alone |
| ChatBoxSession.ChatBox.StartTurn | frontend/src/ChatBox.js:57-68 | a turn starts exactly when the input is not blank, no search runs and there is an expert id. It then appends the trimmed query and the placeholder, clears the input and sets "Processing..."; otherwise nothing changes. |
| ChatBoxSession.ChatBox.FinishSearch | frontend/src/ChatBox.js:47-89 | the placeholder is replaced by the answer message, loading stops, and saving starts |
| ChatBoxSession.ChatBox.FinishPersist | frontend/src/ChatBox.js:47-55 | the status reads "Log Saved" or "Error Saving Log", and the page is notified exactly on a save when it listens |
| ChatBoxSession.ChatBox.CompleteTurn | frontend/src/ChatBox.js:71-89 | the answer replaces the placeholder, and the turn is persisted under the chat box's expert id with no elevator id |
| ChatBoxSession.ChatBox.SendQuery | frontend/src/ChatBox.js:57-90 | a started turn grows the conversation by exactly the query and the answer, searches without an elevator filter, and reports the save; a refused one changes nothing |
| ChatPageView.FormatLogs | frontend/src/ChatPage.js:37-45 | entries are numbered from 1 in reply order, missing or empty fields take their defaults, and the list is reversed |
| ChatPageView.FormattedIdsDistinct | frontend/src/ChatPage.js:38-45 | the listed ids run n, n-1, ..., 1 from the top, so at most one card is highlighted |
| ChatPageView.FormattedLogsReplayable | frontend/src/ChatPage.js:40-41 | every listed log has a non-empty query and response, so selecting it replays it in the chat box |
| ChatPageView.FetchedLogs | frontend/src/ChatPage.js:37-48 | only a non-empty array fills the list, with one log per entry, newest first: log k is the formatted entry n-1-k with its defaults; any other reply empties it |
| ChatPageView.StoreShapeListsNothing | frontend/src/ChatPage.js:37 | the store's record object, which the backend returns, never fills the list |
| ChatPageView.CardTitle | frontend/src/ChatPage.js:166-167 | a title is the query when it has at most 40 characters, else exactly its first 40 characters followed by "..." |
| ChatPageView.CausePreview | frontend/src/ChatPage.js:170 | the cause line is the whole cause when shorter than 50 characters, else its first 50, always followed by "..." |
| ChatPageView.EmptyNotice | frontend/src/ChatPage.js:143-145 | an empty list asks for an elevator id exactly when the raw id is empty, and says no logs were found otherwise |
| ChatPageView.Page.constructor | frontend/src/ChatPage.js:16-19 | no logs, no selection, empty elevator id |
| ChatPageView.Page.SetElevatorId | frontend/src/ChatPage.js:59-61 | only the elevator id changes |
| ChatPageView.Page.FetchLogs | frontend/src/ChatPage.js:23-56 | a blank elevator id empties the list without a request. Otherwise the user's logs for the trimmed id are requested and the reply decides the list. |
| ChatPageView.Page.OnSelect | frontend/src/ChatPage.js:64-66 | the clicked log becomes the selection |
| ChatPageView.Page.HandleNewSearch | frontend/src/ChatPage.js:95-97 | the selection is cleared |
| ChatPageView.Page.HandleNewLog | frontend/src/ChatPage.js:69-92 | with a non-blank id the logs are requested again and replaced only by a non-empty array; the selection is cleared in every case |
| ExpertPanelView.Backoff | frontend/src/ExpertPanel.js:33-34 | the n-th wait is 2^n * 1000 ms |
| ExpertPanelView.RetryContract | frontend/src/ExpertPanel.js:21-44 | with no attempt allowed nothing is returned. Otherwise 1 to `retries` attempts are made, all but the last failed, with the backoff waits between them. The last response is returned when it was ok; otherwise its error is rethrown after the last allowed attempt. These are stated about `Retry`, the recursive reference definition of the helper. |
| ExpertPanelView.ThreeFailures | frontend/src/ExpertPanel.js:21-44 | three failed attempts rethrow the third error after waits of 1000 and 2000 ms |
| ExpertPanelView.FetchDataWithRetry | frontend/src/ExpertPanel.js:21-44 | the loop computes exactly the recursive retry run `Retry` |
| ExpertPanelView.BackoffTotal | frontend/src/ExpertPanel.js:33-34 | the first n backoff waits add up to (2^n - 1) * 1000 ms |
| ExpertPanelView.DisplayLogs | frontend/src/ExpertPanel.js:70-81 | metadata k is shown with id k from the parallel list, and the list is reversed |
| ExpertPanelView.DisplayFieldsFilled | frontend/src/ExpertPanel.js:73-79 | every listed field is filled, "N/A" standing for a missing or empty value |
| ExpertPanelView.ShowLogs | frontend/src/ExpertPanel.js:64-94 | a reply with `metadatas` is listed. Any other reply clears the list with the warning. A failure keeps the list and shows the error cut to 60 characters. |
| ExpertPanelView.ExpertPayloadShape | frontend/src/ExpertPanel.js:122-128 | the panel posts five keys and no `elevator_id` |
| ExpertPanelView.Rejection | frontend/src/ExpertPanel.js:110-118 | signed out is refused first; signed in, a submission is refused exactly when a field is blank |
| ExpertPanelView.MessageStyles | frontend/src/ExpertPanel.js:220-226 | only the success message starts with the check mark; every other message is styled as an error. The sign-in, fetch and submit errors start with the red circle; the empty-field and unexpected-shape messages start with plain text |
| ExpertPanelView.ExpertIdOf | frontend/src/ExpertPanel.js:55 | the id is never empty: the user's uid when present and non-empty, and "expert_demo" when the uid is missing or empty |
| ExpertPanelView.FetchResult | frontend/src/ExpertPanel.js:65 | three attempts always return or rethrow |
| ExpertPanelView.SubmitOutcome | frontend/src/ExpertPanel.js:106-151 | a refused submission only sets its reason. Otherwise the panel ends not loading, with the form cleared and the refresh's message exactly when the POST succeeded, and the form kept with the submit error otherwise. These are stated about `AfterSubmit`, the panel state after `handleSubmit`, which refreshes through `AfterFetch`. |
| ExpertPanelView.SuccessNeverShown | frontend/src/ExpertPanel.js:138-144 | the success message never survives a submission: the refresh started after it resets the message line |
| ExpertPanelView.Panel.constructor | frontend/src/ExpertPanel.js:47-53 | an empty form, message and list, not loading |
| ExpertPanelView.Panel.SignOut | frontend/src/ExpertPanel.js:8-11 | only the user is cleared |
| ExpertPanelView.Panel.Edit | frontend/src/ExpertPanel.js:177-205 | only the three form fields change |
| ExpertPanelView.Panel.FetchLogs | frontend/src/ExpertPanel.js:58-98 | signed out nothing happens; otherwise the expert's logs are fetched with three attempts, shown, and loading stops: the state becomes `AfterFetch` of the attempts' result |
| ExpertPanelView.Panel.SubmitLog | frontend/src/ExpertPanel.js:106-151 | the panel ends as the submission function says, and it posts exactly the trimmed fields under the expert id when the submission is not refused |
| Backend.ParseExpertLog | backend/main.py:41-60 | a body is accepted exactly when it has all six keys, and the log carries their values |
| Backend.MetadataRoundTrip | backend/main.py:72-79 | the stored metadata has exactly the six fields and parses back to the same log |
| Backend.DocumentLayout | backend/main.py:65-70 | the embedded document opens with the elevator id, contains the problem and the cause, and ends with the steps, each behind its label (`DocumentContent`, the text stored for search) |
| Backend.Matching | backend/main.py:108-111 | every listed record is a store record that matches the filter |
| Backend.MatchingComplete | backend/main.py:108-111 | every store record that matches the filter is listed |
| Backend.MatchingAppend | backend/main.py:108-111 | a new record is appended to a listing exactly when it matches |
| Backend.LogsFilter | backend/main.py:101-106 | the filter always has the expert id, and has the elevator id exactly when that parameter is present and non-empty |
| Backend.ListingOf | backend/main.py:113-116 | the reply's `ids`, `metadatas` and `documents` are parallel lists of the matching records |
| Backend.SearchQueryFor | backend/main.py:128-143 | a missing or empty query is refused. Otherwise the store is asked for three results, filtered by the elevator exactly when that parameter is non-empty. |
| Backend.HitOfStoredRecord | backend/main.py:157-165 | a stored record's search hit carries its fields and document unchanged |
| Backend.ExtractResults | backend/main.py:149-165 | result k pairs document k, metadata k and distance k up to the shortest row, with "N/A" for missing keys, each built as `SearchHit` builds one row's object |
| Backend.Collection.constructor | backend/main.py:19-37 | the collection is opened with the records it already holds |
| Backend.Collection.StoreLog | backend/main.py:52-92 | an invalid body gives 400 and stores nothing. A valid one is stored under the fresh id and answered 201 with it, or 500 when the store raises. |
| Backend.Collection.GetLogs | backend/main.py:95-120 | 200 with the expert's matching records, or 500 with no `logs` when the store raises |
| Backend.Collection.KnowledgeSearch | backend/main.py:123-167 | 400 without a query, 500 when the query raises, else 200 with the extracted results |
| Backend.StoredLogIsListed | backend/main.py:81-116 | a log stored with 201 is listed last by the next `get_logs` for its expert, with or without its elevator filter |
| Backend.OtherExpertsHidden | backend/main.py:104 | a record of another expert is never listed |
| Retriever.FixedTextFor | backend/ai_retriever.py:17-30 | the keywords are tried in order (stuck, noise, vibration, not moving, overheat or hot, door), and the first one the query contains picks its sentence; there is no sentence exactly when no keyword occurs |
| Retriever.Rephrase | backend/ai_retriever.py:15-30 | a query whose trimmed, lower-cased form (`Normalize`) has a keyword becomes the sentence that keyword picks; any other query comes back trimmed, case kept |
| Retriever.FixedIffKeyword | backend/ai_retriever.py:15-30 | the result is a fixed sentence exactly when the query has a keyword or is the vibration sentence, which contains no keyword ("vibrating") and passes through unchanged |
| Retriever.RephraseOfTrimmed | backend/ai_retriever.py:16 | surrounding whitespace never changes the result |
| Retriever.RephraseIdempotent | backend/ai_retriever.py:15-30 | rephrasing twice gives the same as once |
| Retriever.DoorStuckIsStuck | backend/ai_retriever.py:17-28 | keywords are tested in order and case-insensitively: "Door STUCK" is a stuck car |
| Retriever.PhotoIsOverheating | backend/ai_retriever.py:25 | "hot" matches inside any word: "photo" reads as overheating |
| Retriever.NoKeywordKeepsCase | backend/ai_retriever.py:29-30 | every query without a keyword comes back trimmed with its case kept, and is then a fixed sentence only if it is the vibration sentence |
| Retriever.HumKeepsCase | backend/ai_retriever.py:29-30 | "Hum" has no keyword and comes back as "Hum" |
| Auth.AuthProvider.constructor | frontend/src/authcontext.js:8-11 | the user starts as `{id: null, role: null}` |
| Auth.AuthProvider.Login | frontend/src/authcontext.js:13-15 | the user becomes exactly `{id, role}` |
| Auth.AuthProvider.Logout | frontend/src/authcontext.js:17-19 | the user is reset to the initial one from any state |
| LoginScreen.CredentialsFor | frontend/src/LoginPage.js:11-14 | only "technician" and "expert" have own credentials; names every object inherits find a member |
| LoginScreen.RoleFrom | frontend/src/LoginPage.js:23 | a missing or empty role parameter means technician |
| LoginScreen.Decide | frontend/src/LoginPage.js:29-43 | an unknown role is ignored; the login is accepted exactly on the role's pair, untrimmed, and routed by role; otherwise it is rejected |
| LoginScreen.InheritedNamesReject | frontend/src/LoginPage.js:31-33 | a role named like an inherited property is rejected, never ignored |
| LoginScreen.PairsAreRoleBound | frontend/src/LoginPage.js:33 | a pair only works for its own role, and padding is not trimmed |
| LoginScreen.LoginPage.constructor | frontend/src/LoginPage.js:23-26 | the role from the parameter, empty fields, no error |
| LoginScreen.LoginPage.SetId | frontend/src/LoginPage.js:60 | only the id changes |
| LoginScreen.LoginPage.SetPassword | frontend/src/LoginPage.js:61 | only the password changes |
| LoginScreen.LoginPage.AttemptLogin | frontend/src/LoginPage.js:29-43 | on acceptance the context user becomes `{id, role}` and the route is returned; on rejection only the error is set; when ignored nothing changes |
| LoginScreen.LoginPage.Clear | frontend/src/LoginPage.js:64 | id, password and error are all empty |
| Flows.ChatBoxLogRejected | frontend/src/api.js:86-94 | the chat-log payload fails the backend's six-key check, so the client reports no save and shows the error tone |
| Flows.ExpertPanelLogRejected | frontend/src/ExpertPanel.js:122-147 | the panel's payload fails the six-key check. With 400 on every attempt the helper rethrows after three attempts, and the panel shows the submit error and keeps the form. |
| Flows.ListingReadDifferently | frontend/src/ChatPage.js:37-48 | the backend's listing fills nothing in the chat page but lists every matching record in the expert panel |
| Flows.ChatBoxQueryAccepted | frontend/src/ChatBox.js:59-71 | a query the chat box sends is never refused, and carries no elevator filter |
| Flows.ErrorNamedHitMistaken | frontend/src/ChatBox.js:83 | a genuine top hit whose problem is "Error" shows only its steps as text |

## Left out

- Rendering, styling and layout (JSX, CSS, scrolling, the light/dark toggle) are not modelled. Only which bubble, card, message or notice is shown is.
- HTTP transport, URL encoding and JSON encoding are not modelled. Replies are parameters: an answered status with a body, or a thrown error.
- Vector embeddings, the Chroma client, its persistence, semantic ranking and `embed_query` are outside the model. The store is a sequence of records, and a query's rows are a parameter.
- Backend.Matching: a `where` filter is modelled as every key matching. A store version that refuses two-key filters shows up as the raising case of `GetLogs`, a parameter.
- Backend.Collection.GetLogs: records are listed in insertion order, which the store does not promise.
- Backend.Collection.StoreLog: the error message text of a 400 or 500 (the exception's wording) is not modelled, and the fresh id is a parameter that is not checked for uniqueness.
- Text.Fixed4: the distance is rounded half away from zero on the exact real. Binary floating-point rounding of `toFixed(4)` and `:.4f` is not modelled.
- `parseFloat` of a distance string is not modelled: a distance is a real number or not a number.
- Text.Trim and Text.ToLower: whitespace is the six ASCII whitespace characters (space, tab, line feed, vertical tab, form feed, carriage return), and case folding covers A-Z. Unicode whitespace, Unicode case mapping and UTF-16 indexing are not modelled.
- JSON values other than strings in payloads and metadata are not modelled.
- `crypto.randomUUID`, `uuid.uuid4` and the current time are parameters.
- `toLocaleString` date formatting is not modelled: a listed timestamp is kept raw.
- `console` and `print` logging are not modelled.
- React specifics are not modelled: render batching, StrictMode double invocation of the state updater that starts the save, and handlers racing each other. Each handler runs to completion in one step.
- Sign-out and navigation are modelled only as the route the login returns. `ChatPage`'s sign-out button calls a mock logout and a mock router.
- The chat page's mock user is fixed. `ChatBox` declares no `onElevatorIdChange` prop, so nothing calls `SetElevatorId`.
- The expert panel's mock authentication hook is reduced to its `uid` and `signOut`.
- `backend/ollama_chat.py`, `backend/databseinfo.py` and the seeding script `backend/seed_expert_logs.py` are not part of this model. They are not reached from any route.
- `frontend/src/App.js` and `LoginSelection.js` are routing only: `/technician` shows the chat page.
- `frontend/src/TechnicianPage.js` and `ChatPanel.js` are not modelled. No route reaches them. They are a demo wrapper with mock history, `localStorage` persistence and their own new-log and new-chat handlers.
- `embed_query` and the model loading in `backend/ai_retriever.py` are not modelled: they only compute embeddings.
