# Wellbot, modelled in Dafny

Wellbot is a health chatbot with two parts:

- a React client: login, registration, profile update, a chat screen, a feedback form, and an admin login that leads to an admin dashboard;
- a FastAPI server: it answers chat messages from a keyword-driven reply engine, and administrators use it to manage a JSON knowledge base of diseases and to read feedback statistics.

This project models the logic of those pieces and proves properties about them.

- **Navigation** (`navigation.dfy`). The root component holds six flags and shows exactly one screen. The precedence is dashboard, then the unauthenticated screens, then update, feedback and chat. The callbacks it hands to the screens make each screen's transitions. A callback that runs after an awaited reply runs on whatever screen is shown when the reply arrives, and the reachable flags are proved consistent with such late replies included. The flags live in a class `App` whose methods apply them in place.
- **Local storage** (`storage.dfy`). The browser store is a typed map. It holds a user token under "token", an admin token under "adminToken", and one transcript per user under "chat_" + username.
- **Chat** (`chat.dfy`):
  - The transcript cache lasts seven days.
  - The mount and persist effects.
  - `sendMessage` does nothing on blank input. Otherwise it appends and saves the user's line and sends the request. When the reply arrives, the bot's line (the server's text, a fallback, or an error notice) is appended to the transcript captured at send time and saved. A clear or new typing during the wait is thus undone, and leaving the chat during the wait drops the reply.
  - `handleClear`.
  - `renderMessageText` turns a message into paragraphs.
  - A store-wide invariant is proved: every stored transcript opens with its owner's greeting.
- **Login, admin login, registration, update, feedback** (`auth_screens.dfy`, `feedback.dfy`). Each form handler is a method. It takes the server's reply (or rejection) as an input and states its effects: the message shown, the token written, and the navigation callback called. JavaScript's reading of missing values is modelled exactly (`js.dfy`):
  - `Bearer ${token}` becomes "Bearer null" when there is no token.
  - `setItem` of `undefined` stores "undefined".
  - `a || b` follows truthiness.
  - `parseInt(age, 10)` is modelled as well.
- **Admin dashboard** (`dashboard.dfy`):
  - The disease form is encoded into a request body: the name is trimmed, the symptoms are split on "," and the advice on newlines, and every piece is trimmed.
  - The form is prefilled from a listed disease.
  - The fetch, add/update, edit, delete, cancel and logout handlers.
  - Proved: re-submitting an untouched prefill sends the listed disease back exactly, provided every item is trimmed and free of its separator. An empty list does not come back: it returns as one blank item.
- **Server** (`api.py` as `api.dfy`):
  - The knowledge-base file is an insertion-ordered dictionary keyed by the lower-cased disease name, with its add (400 on a duplicate), edit (404), delete (404) and listing endpoints.
  - The admin token check.
  - `admin_stats`: it seeds five sample reviews when the listing is empty, then counts ratings case-insensitively.
  - `latest_reviews`.
  - The chat-ownership checks (403).
  - `format_response`.
- **Bot** (`bot.dfy`). `wellness_response` picks a reply in this order:
  1. the first phrase category with a keyword in the message;
  2. otherwise every knowledge-base condition named in the message, composed into sections;
  3. otherwise a remembered symptom's follow-up, which forgets the symptom;
  4. otherwise a canned non-health reply.

  The translator is a function parameter. `random.choice` is a nondeterministic pick, proved to have something to pick from.

  Two things follow from the code and are proved:
  - The branch that asks about a mentioned condition (and is the only code that writes the conversation context) can never run. Any condition in the message has already been matched by the earlier branch. `NoMatchMeansNoKey` proves this, and the loop over that branch carries `assert false`.
  - From the starting (empty) context, the follow-up never fires (`EmptyContextNoFollowUp`).

The server's database tables are sequences and the knowledge base is a sequence of unique-keyed entries. Clock readings, server replies, decoded JWT payloads, `ADMIN_EMAIL` and user confirmations are all parameters.

## Model

| member | source | states |
|---|---|---|
| Js.FailureMessage | frontend/frontend/src/components/Login.jsx:28 | the message is the prefix followed by the server's `detail` when that is a non-empty string, and by the error's own message otherwise |
| Js.Truthy | frontend/frontend/src/components/Login.jsx:21 | a possibly missing string is truthy exactly when it is present and non-empty |
| Js.Bearer | frontend/frontend/src/components/Update.jsx:22 | the header text "Bearer " followed by the token, or by "null" when the token is missing |
| Js.Stringified | frontend/frontend/src/components/AdminLogin.jsx:15 | what `setItem` stores: the string itself, or "undefined" for a missing value |
| Storage.LocalStore.GetItem | frontend/frontend/src/components/Chatbox.jsx:19 | a value comes back exactly when the key is stored, and it is the stored value |
| Storage.LocalStore.Token | frontend/frontend/src/components/Chatbox.jsx:63 | a token comes back exactly when the key holds a plain text entry, and it is that text |
| Storage.LocalStore.SetItem | frontend/frontend/src/components/Login.jsx:22 | the store afterwards maps the key to the value and is otherwise unchanged |
| Storage.LocalStore.RemoveItem | frontend/frontend/src/components/AdminDashboard.jsx:112 | the store afterwards lacks the key and is otherwise unchanged |
| Navigation.Render | frontend/frontend/src/App.jsx:18-50 | each of the seven screens is shown if and only if its own combination of flags holds, so exactly one screen is shown |
| Navigation.AdminButtonShown | frontend/frontend/src/App.jsx:52-55 | the admin-login button is present exactly when one of the three unauthenticated screens is shown |
| Navigation.Step | frontend/frontend/src/App.jsx:19-55 | each callback's flag assignments: the setters App hands to its screens and the header button |
| Navigation.StepConsistent | frontend/frontend/src/App.jsx:19-48 | a callback fired on the screen that owns it keeps update and feedback cleared without a user, and never sets both |
| Navigation.TraceConsistent | frontend/frontend/src/App.jsx:11-48 | a sequence of callbacks, each fired on its own screen, preserves that consistency |
| Navigation.AdvanceKeepsInvariant | frontend/frontend/src/App.jsx:19-48 | a click, a request sent, or a reply arriving on whatever screen is shown keeps the flags consistent while at most one request is in flight |
| Navigation.ScheduleKeepsInvariant | frontend/frontend/src/App.jsx:11-48 | a schedule of clicks, requests and late replies preserves that invariant |
| Navigation.ReachableConsistent | frontend/frontend/src/App.jsx:11-50 | every state reachable from the initial flags is consistent, including replies that arrive after their screen was left |
| Navigation.LateUpdateAfterLogout | frontend/frontend/src/components/Update.jsx:21-25 | an update reply arriving after Cancel and Logout sets the submitted form as the user and shows the chat |
| Navigation.OverlappingRepliesBreakConsistency | frontend/frontend/src/components/Register.jsx:22-27 | a register reply with no user, arriving on the profile screen after a login, leaves the profile flag set without a user |
| Navigation.DashboardHasNoCallbacks | frontend/frontend/src/App.jsx:18-20 | while the dashboard is shown no screen-owned callback can fire, since the dashboard takes no props and ignores `onLogout` |
| Navigation.AdminIsFinal | frontend/frontend/src/App.jsx:18-20 | no sequence of callbacks clears `isAdmin`, so the dashboard stays shown |
| Navigation.LoginLandsOnChat | frontend/frontend/src/App.jsx:30 | a login that hands over a user moves to the chat screen |
| Navigation.RegisterWithoutUserStays | frontend/frontend/src/App.jsx:28 | `onRegister` with no user changes nothing and the register screen stays |
| Navigation.LogoutScreen | frontend/frontend/src/App.jsx:46 | logout clears only the user, and the next screen is chosen by the admin-login and register flags left behind |
| Navigation.UpdateReturnsToChat | frontend/frontend/src/App.jsx:35-39 | a successful update installs the submitted user and returns to chat; cancelling returns to chat with the user unchanged |
| Navigation.AdminLoginKeepsFlag | frontend/frontend/src/App.jsx:26 | admin login sets `isAdmin`, shows the dashboard and leaves `showAdminLogin` set |
| Navigation.App.constructor | frontend/frontend/src/App.jsx:11-16 | all six flags start cleared and no user is set |
| Navigation.App.ShowRegister | frontend/frontend/src/App.jsx:30 | the flags become those of the `onSwitch` transition from login |
| Navigation.App.OnLogin | frontend/frontend/src/App.jsx:30 | the flags become those of the `onLogin` transition with the given user |
| Navigation.App.ShowLogin | frontend/frontend/src/App.jsx:28 | the flags become those of the `onSwitch` transition from registration |
| Navigation.App.OnRegister | frontend/frontend/src/App.jsx:28 | the flags become those of the `onRegister` transition with the given user |
| Navigation.App.OnAdminBack | frontend/frontend/src/App.jsx:26 | the flags become those of the admin `onBack` transition |
| Navigation.App.OnAdminLogin | frontend/frontend/src/App.jsx:26 | the flags become those of the admin `onLogin` transition |
| Navigation.App.OpenAdminLogin | frontend/frontend/src/App.jsx:55 | the flags become those of the admin-login button's transition |
| Navigation.App.OnUpdate | frontend/frontend/src/App.jsx:35-38 | the flags become those of the `onUpdate` transition with the submitted user |
| Navigation.App.OnCancelUpdate | frontend/frontend/src/App.jsx:39 | the flags become those of the `onCancel` transition |
| Navigation.App.OnFeedbackBack | frontend/frontend/src/App.jsx:42 | the flags become those of the feedback `onBack` transition |
| Navigation.App.OnLogout | frontend/frontend/src/App.jsx:46 | the flags become those of the `onLogout` transition |
| Navigation.App.OnUpdateProfile | frontend/frontend/src/App.jsx:47 | the flags become those of the `onUpdateProfile` transition |
| Navigation.App.OnFeedback | frontend/frontend/src/App.jsx:48 | the flags become those of the `onFeedback` transition |
| AuthScreens.LoginScreen.constructor | frontend/frontend/src/components/Login.jsx:8 | the message starts empty |
| AuthScreens.LoginScreen.HandleSubmit | frontend/frontend/src/components/Login.jsx:12-30 | a reply with a truthy token clears the message, stores the token under "token" and passes the reply's user to `onLogin`; a reply without one shows "Invalid login details."; a rejection shows the failure text; in the last two cases neither the store nor navigation changes, and the admin token is never touched |
| AuthScreens.AdminLoginScreen.constructor | frontend/frontend/src/components/AdminLogin.jsx:6 | the message starts empty |
| AuthScreens.AdminLoginScreen.HandleSubmit | frontend/frontend/src/components/AdminLogin.jsx:10-23 | a truthy `success` stores the reply's token (the text "undefined" when missing) under "adminToken" and calls `onLogin`, leaving an earlier message in place; otherwise the message is "Invalid admin credentials" or the failure text and nothing else changes; the user token is never touched |
| AuthScreens.AdminLoginScreen.Back | frontend/frontend/src/components/AdminLogin.jsx:56-57 | the back button clears only `showAdminLogin` |
| AuthScreens.WithField | frontend/frontend/src/components/Register.jsx:17 | the named field takes the new value and every other field keeps its value |
| AuthScreens.InitialRegisterFields | frontend/frontend/src/components/Register.jsx:7-14 | the form starts with language "English" and every other field empty |
| AuthScreens.ParseInt | frontend/frontend/src/components/Register.jsx:24 | `parseInt(s, 10)`: leading whitespace skipped, an optional sign, the longest run of decimal digits; no digits gives NaN |
| AuthScreens.ParseIntOfDecimal | frontend/frontend/src/components/Register.jsx:24 | a decimal numeral, followed by anything that does not start with a digit, parses to its value |
| AuthScreens.ParseIntWithoutDigits | frontend/frontend/src/components/Register.jsx:24 | an empty age, or one that starts with a character that is not a digit, blank or sign, parses to `NaN` |
| AuthScreens.Payload | frontend/frontend/src/components/Register.jsx:22-25 | the request body is the form with every field kept and `age` replaced by its parsed value |
| AuthScreens.RegisterScreen.constructor | frontend/frontend/src/components/Register.jsx:7-15 | the form starts as the initial form and the message empty |
| AuthScreens.RegisterScreen.HandleChange | frontend/frontend/src/components/Register.jsx:17 | the form becomes the old form with the named field replaced |
| AuthScreens.RegisterScreen.HandleSubmit | frontend/frontend/src/components/Register.jsx:19-31 | the request is the form's payload; a reply shows its message or "Registered successfully!" and passes its user to `onRegister`; a rejection shows the failure text and leaves navigation alone; no token is written |
| AuthScreens.ServerReplyKeepsRegisterScreen | frontend/frontend/src/components/Register.jsx:26-27 | the server's reply, a message with no user, shows "User registered successfully" and leaves the register screen shown |
| AuthScreens.RegisterFailureText | frontend/frontend/src/components/Register.jsx:29 | a rejection with a non-empty server detail shows "Registration failed. " followed by that detail |
| AuthScreens.WithProfileField | frontend/frontend/src/components/Update.jsx:12-15 | the named profile field takes the new value, the others and the id and email are kept |
| AuthScreens.ProfileForm | frontend/frontend/src/components/Update.jsx:5-10 | the form has the user's four profile fields and no id or email |
| AuthScreens.UpdateScreen.constructor | frontend/frontend/src/components/Update.jsx:5-10 | the form starts as the user's profile form |
| AuthScreens.UpdateScreen.HandleChange | frontend/frontend/src/components/Update.jsx:12-15 | the form becomes the old form with the named field replaced |
| AuthScreens.UpdateScreen.HandleUpdate | frontend/frontend/src/components/Update.jsx:17-30 | the request carries the form and the bearer header of the stored token; on success `onUpdate` receives exactly the form, and on failure navigation is unchanged |
| FeedbackScreen.RatingText | frontend/frontend/src/components/Feedback.jsx:58-73 | a chosen rating is sent as "positive" or "negative" |
| FeedbackScreen.FeedbackForm.constructor | frontend/frontend/src/components/Feedback.jsx:5-7 | no rating, an empty review, not loading |
| FeedbackScreen.FeedbackForm.ChooseRating | frontend/frontend/src/components/Feedback.jsx:58-73 | the rating becomes the chosen one and nothing else changes |
| FeedbackScreen.FeedbackForm.ChangeReview | frontend/frontend/src/components/Feedback.jsx:92 | the review becomes the text and nothing else changes |
| FeedbackScreen.FeedbackForm.HandleSubmit | frontend/frontend/src/components/Feedback.jsx:9-46 | without a rating nothing happens; without a token no request is sent; otherwise the rating and review are sent with the bearer header, and an accepted reply (truthy `success` or `message`) resets the form and calls `onBack`, while any other outcome keeps the form; loading ends false whenever a rating was chosen |
| FeedbackScreen.FeedbackForm.Back | frontend/frontend/src/components/Feedback.jsx:107 | the back link only clears `showFeedback` |
| Chat.ChatKeyInjective | frontend/frontend/src/components/Chatbox.jsx:18 | two users share a transcript key only if they share a username |
| Chat.ChatKeyNotToken | frontend/frontend/src/components/Chatbox.jsx:18 | no transcript key is "token" or "adminToken" |
| Chat.Restored | frontend/frontend/src/components/Chatbox.jsx:19-29 | a saved transcript is restored exactly when it exists and is less than seven days old, and then it is restored unchanged |
| Chat.LoadAfterSave | frontend/frontend/src/components/Chatbox.jsx:17-43 | a transcript saved at t0 is what a later mount shows while less than seven days have passed, and the greeting alone afterwards |
| Chat.ExpiresAtSevenDays | frontend/frontend/src/components/Chatbox.jsx:24-26 | after exactly seven days the transcript has expired |
| Chat.LoadIgnoresOtherKeys | frontend/frontend/src/components/Chatbox.jsx:18-19 | writing any other key does not change what a user's mount shows |
| Chat.LoadIgnoresOtherUsers | frontend/frontend/src/components/Chatbox.jsx:18-19 | saving another user's transcript does not change what a user's mount shows |
| Chat.SaveKeepsWellFormed | frontend/frontend/src/components/Chatbox.jsx:45-50 | saving a transcript that opens with its owner's greeting keeps every stored transcript opening with its owner's greeting |
| Chat.AppendKeepsWellFormed | frontend/frontend/src/components/Chatbox.jsx:58-71 | appending to a transcript that opens with the greeting and saving it keeps that property, for the transcript and for the store |
| Chat.TokenWriteKeepsWellFormed | frontend/frontend/src/components/Login.jsx:22 | storing a token never disturbs a transcript |
| Chat.LoadedStartsWithWelcome | frontend/frontend/src/components/Chatbox.jsx:17-43 | in a well-formed store every mount shows a transcript that opens with the user's greeting |
| Chat.Loaded | frontend/frontend/src/components/Chatbox.jsx:17-29 | the mount shows the transcript saved under the user's "chat_" key when it is less than seven days old, and the user's greeting otherwise |
| Chat.BotReply | frontend/frontend/src/components/Chatbox.jsx:70-74 | the bot line is the server's response when truthy, "I'm here to help!" when not, the error notice on a rejection, and never empty |
| Chat.ChatBox.constructor | frontend/frontend/src/components/Chatbox.jsx:6-8 | no messages, empty input, not loading |
| Chat.ChatBox.Persist | frontend/frontend/src/components/Chatbox.jsx:45-50 | an empty transcript is not saved; any other is saved under the user's key with the given time |
| Chat.ChatBox.Mount | frontend/frontend/src/components/Chatbox.jsx:17-50 | the transcript becomes the restored one or the greeting alone and, unless empty, is saved with the current time; in a well-formed store it opens with the greeting and the store stays well formed |
| Chat.ChatBox.ChangeInput | frontend/frontend/src/components/Chatbox.jsx:182 | the input becomes the text and nothing else changes |
| Chat.ChatBox.SendMessage | frontend/frontend/src/components/Chatbox.jsx:54-67 | blank input changes nothing and sends nothing; otherwise the request carries the typed text and the bearer header of the stored token, the user's line is appended and saved, loading is set, and the captured transcript is returned; the greeting invariant is kept |
| Chat.ChatBox.ReceiveReply | frontend/frontend/src/components/Chatbox.jsx:69-78 | the transcript becomes the captured one plus the bot's reply, whatever was shown meanwhile, and is saved; the input is cleared and loading ends; the greeting invariant is kept |
| Chat.ChatBox.SendAndReceive | frontend/frontend/src/components/Chatbox.jsx:54-78 | a send answered before anything else happens appends the user's line and the reply, saves with the reply's time and clears the input |
| Chat.ChatBox.ClearAndTypeWhileWaiting | frontend/frontend/src/components/Chatbox.jsx:71-77 | a clear and new typing while the reply is pending are undone: the captured transcript plus the reply is shown and saved, and the input is empty |
| Chat.ChatBox.LeaveWhileWaiting | frontend/frontend/src/components/Chatbox.jsx:58-59 | when the box is left before the reply arrives, the stored transcript ends with the user's line alone and loading stays set |
| Chat.ChatBox.Append | frontend/frontend/src/components/Chatbox.jsx:58-59 | one message is appended and the new transcript saved under the user's key |
| Chat.ChatBox.HandleClear | frontend/frontend/src/components/Chatbox.jsx:81-93 | the transcript becomes the greeting alone and is saved at once; a well-formed store stays well formed |
| Chat.DashLines | frontend/frontend/src/components/Chatbox.jsx:104-113 | every line shown is "- " followed by a non-empty trimmed piece, and there are at most as many lines as pieces |
| Chat.DashLinesSingle | frontend/frontend/src/components/Chatbox.jsx:106-112 | one piece shows as "- " and its trimmed text, or as nothing when it is blank |
| Chat.DashLinesAppend | frontend/frontend/src/components/Chatbox.jsx:104-113 | the lines of consecutive pieces are those of each part, in order |
| Chat.RenderMessageText | frontend/frontend/src/components/Chatbox.jsx:95-116 | text with a newline gives, for each newline-separated piece in order, that piece trimmed (one more line than there are newlines, none holding one); otherwise text with "- " gives the bullet lines of its "- " pieces; otherwise the text itself |
| Chat.RenderLinesRoundTrip | frontend/frontend/src/components/Chatbox.jsx:97-102 | two or more trimmed, newline-free lines written one per line are shown as exactly those lines |
| Api.Lookup | backend/api.py:260-261 | a key is found exactly when it is one of the file's keys |
| Api.Put | backend/api.py:263 | an existing key keeps its place and a new key is appended last |
| Api.Remove | backend/api.py:288 | the keys afterwards are the old keys without the removed one |
| Api.RemoveAt | backend/api.py:288 | in a dictionary, deleting the key of the i-th entry removes exactly that entry and keeps the others in their order |
| Api.PutLookup | backend/api.py:263 | after storing, the key looks up the stored value and every other key looks up what it did before |
| Api.PutUnique | backend/api.py:263 | storing keeps keys unique |
| Api.RemoveLookup | backend/api.py:288 | after deleting, the key is absent and every other key looks up what it did before |
| Api.RemoveUnique | backend/api.py:288 | deleting keeps keys unique |
| Api.RemoveAbsent | backend/api.py:285-288 | deleting an absent key leaves the file as it was |
| Api.AddThenRemove | backend/api.py:256-291 | deleting a disease just added gives back the original file |
| Api.LookupAt | backend/api.py:252 | in a dictionary every entry is what its own key looks up |
| Api.PutKeepsLower | backend/api.py:260-263 | storing under a lower-cased key keeps every key lower case |
| Api.RemoveKeepsLower | backend/api.py:285-288 | deleting keeps every key lower case |
| Api.Listing | backend/api.py:252 | the listing has one entry per key |
| Api.ListingMatchesFile | backend/api.py:252 | the i-th listed disease is named by the i-th key and carries exactly the data stored under it |
| Api.ListedNameFound | backend/api.py:252 | a listed name, lower-cased again by edit and delete, finds its own entry |
| Api.AdminAccess | backend/api.py:98-103 | the token is accepted exactly when it decodes to a non-empty payload whose email claim equals the configured admin email (both may be unset); a rejection is 401 "Invalid or expired admin token" |
| Api.AdminNeedsConfiguredEmail | backend/api.py:101 | with an admin email configured, only a payload carrying that email is accepted |
| Api.UnsetAdminEmailAcceptsEmailless | backend/api.py:101 | with no admin email configured, any non-empty payload without an email claim is accepted |
| Api.KnowledgeBaseFile.constructor | backend/api.py:250-251 | the file holds the given entries |
| Api.KnowledgeBaseFile.GetKnowledgeBase | backend/api.py:248-253 | a rejected token gives 401; otherwise exactly the listing of the file: one listed disease per key, in file order, named by its key |
| Api.KnowledgeBaseFile.AddDisease | backend/api.py:256-266 | a rejected token gives 401; an existing lower-cased name gives 400 "Disease already exists"; otherwise the lower-cased name is appended with the body's lists and "<name> added successfully!" is returned; unique and lower-case keys are kept |
| Api.KnowledgeBaseFile.EditDisease | backend/api.py:268-278 | a rejected token gives 401; an unknown lower-cased path name gives 404 "Disease not found"; otherwise only that key's value changes and the key order is kept |
| Api.KnowledgeBaseFile.RemoveDisease | backend/api.py:281-291 | a rejected token gives 401; an unknown lower-cased name gives 404; otherwise only that key is deleted, and in a file with unique keys exactly its entry goes while the rest keep their order |
| Api.AllFeedbacks | backend/models.py:112-126 | the listing has at most one row per feedback row |
| Api.AllFeedbacksAppend | backend/models.py:112-126 | rows added later are listed first |
| Api.AllFeedbacksSingle | backend/models.py:112-126 | one row is listed with its user's name, rating and review when its user exists, and is dropped by the join otherwise |
| Api.CountRating | backend/api.py:229-230 | a count never exceeds the number of reviews |
| Api.CountsBounded | backend/api.py:229-230 | the positive and negative counts together never exceed the number of reviews |
| Api.CountIgnoresCase | backend/api.py:229-230 | two listings of equal length whose ratings agree row by row after lower-casing give the same count |
| Api.SeedRows | backend/api.py:225-226 | five sample rows are seeded |
| Api.SeedListing | backend/api.py:224-227 | with user 1 present the seeded rows come back newest first; without user 1 they drop out of the join and the listing stays empty |
| Api.AlternatingCounts | backend/api.py:226-230 | five reviews rated Positive, Negative, Positive, Negative, Positive count three positive and two negative |
| Api.SeedCounts | backend/api.py:224-230 | with user 1 present the seeded listing counts three positive and two negative reviews |
| Api.SeededListing | backend/api.py:224-227 | seeding an empty listing lists the seeded rows alone |
| Api.Latest | backend/api.py:244 | the first three rows of the listing, or all of them when there are fewer |
| Api.ChatsOf | backend/models.py:41-50 | only the user's own rows, and every one of them, at most all rows |
| Api.ChatsOfAppend | backend/models.py:41-50 | the history of a later part of the table follows that of an earlier part |
| Api.ChatsPartition | backend/models.py:60-65 | a user's rows and the rest together are all the rows |
| Api.ChatsExcept | backend/models.py:60-65 | never more rows than before |
| Api.ClearOnlyOwnChats | backend/api.py:171-176 | clearing empties the user's own history and leaves every other user's history unchanged |
| Api.Database.constructor | backend/models.py:112-126 | the tables hold the given rows |
| Api.Database.AdminStats | backend/api.py:216-239 | a rejected token gives 401; otherwise an empty listing is first seeded with the five sample rows, and the result reports the user count, the case-insensitive positive and negative counts over the listing, and the disease count; users and chats are unchanged |
| Api.Database.LatestReviews | backend/api.py:242-245 | a rejected token gives 401; otherwise the first three rows of the listing |
| Api.Database.GetUserChats | backend/api.py:148-156 | another user's history gives 403 "Access denied"; one's own gives exactly one's own rows |
| Api.Database.ClearUserChats | backend/api.py:171-176 | another user's history gives 403 and nothing is deleted; one's own is deleted and "Chat history cleared" is returned |
| Api.ResponseLines | backend/api.py:40 | one line per dictionary entry |
| Api.FormatResponseLines | backend/api.py:38-40 | splitting the formatted text on newlines gives back one "key: value" line per entry when no key or value holds a newline |
| Api.FormatResponse | backend/api.py:38-40 | the text is empty exactly when the dictionary is empty |
| Dashboard.PayloadShape | frontend/frontend/src/components/AdminDashboard.jsx:53-57 | the name is trimmed; the symptoms have one more piece than there are commas and the advice one more than there are newlines; every piece is trimmed and free of its separator |
| Dashboard.Payload | frontend/frontend/src/components/AdminDashboard.jsx:53-57 | the body is the trimmed name, the comma-separated symptoms and the newline-separated advice, each piece trimmed |
| Dashboard.Prefill | frontend/frontend/src/components/AdminDashboard.jsx:82-86 | the edit form holds the name, the symptoms joined by ", " and the advice joined by newlines |
| Dashboard.PrefillRoundTrip | frontend/frontend/src/components/AdminDashboard.jsx:50-87 | saving an untouched prefill sends back the listed disease, when its name and items are trimmed, its lists non-empty and no item holds its separator |
| Dashboard.EmptyListsComeBackAsBlank | frontend/frontend/src/components/AdminDashboard.jsx:84-85 | an empty list returns from the round trip as one empty item |
| Dashboard.FluPayload | frontend/frontend/src/components/AdminDashboard.jsx:53-57 | the form "Flu", "fever, cough", "rest\nhydrate" is sent as the name "Flu" with two symptoms and two advice items |
| Dashboard.FluPrefill | frontend/frontend/src/components/AdminDashboard.jsx:82-86 | the prefill of that disease joins its lists with ", " and a newline |
| Dashboard.AdminDashboard.constructor | frontend/frontend/src/components/AdminDashboard.jsx:17-25 | no stats, no reviews, no diseases, an empty form, not editing |
| Dashboard.AdminDashboard.FetchAllData | frontend/frontend/src/components/AdminDashboard.jsx:30-44 | all replies install the stats and the two lists, a missing list becoming empty; a rejection changes nothing |
| Dashboard.AdminDashboard.ChangeField | frontend/frontend/src/components/AdminDashboard.jsx:232-246 | the named input takes the new value and the rest of the form is kept |
| Dashboard.AdminDashboard.HandleAddOrUpdate | frontend/frontend/src/components/AdminDashboard.jsx:50-78 | in edit mode the request edits the disease's listed name, otherwise it adds; the body is the encoded form and the header is built from "adminToken"; a save resets the form and leaves edit mode, a failure keeps both |
| Dashboard.AdminDashboard.HandleEdit | frontend/frontend/src/components/AdminDashboard.jsx:80-87 | edit mode holds the disease and the form is its prefill |
| Dashboard.AdminDashboard.HandleDelete | frontend/frontend/src/components/AdminDashboard.jsx:89-99 | a declined confirmation sends nothing; otherwise a delete of that name with the admin header |
| Dashboard.AdminDashboard.HandleCancelEdit | frontend/frontend/src/components/AdminDashboard.jsx:101-104 | edit mode ends and the form is empty |
| Dashboard.AdminDashboard.Logout | frontend/frontend/src/components/AdminDashboard.jsx:111-114 | only the admin token is removed from the store |
| Dashboard.EditOfListedDisease | frontend/frontend/src/components/AdminDashboard.jsx:59-64 | editing a listed disease whose name is safe in a URL path targets a name the server finds and, with the prefill untouched, sends the stored data unchanged |
| Bot.RepliesOffered | backend/bot.py:7-28 | every phrase category and the non-health fallback has a reply to choose |
| Bot.LangCode | backend/bot.py:30-39 | the code is "hi" exactly for "hindi" in any case, and "en" otherwise |
| Bot.EnglishMessage | backend/bot.py:41-44 | the message is lower-cased and stripped, and translated to English first unless the code is "en" |
| Bot.FirstPhrase | backend/bot.py:46-50 | the chosen category has a keyword in the message and no earlier category does; none is chosen only when no category has one |
| Bot.Matched | backend/bot.py:52-55 | every matched condition occurs in the message |
| Bot.MatchedKeys | backend/bot.py:52-55 | every matched condition is a key of the knowledge base |
| Bot.MatchedSingle | backend/bot.py:53-55 | one entry is matched exactly when its key occurs in the message |
| Bot.MatchedAppend | backend/bot.py:52-55 | the matches of consecutive parts of the file are those of each part, in file order |
| Bot.MatchedComplete | backend/bot.py:52-55 | every key that occurs in the message is matched |
| Bot.NoMatchMeansNoKey | backend/bot.py:82-86 | when nothing was matched no key occurs in the message, so the question branch cannot be taken |
| Bot.BulletsSnoc | backend/bot.py:63-64 | one more advice item adds one more "- item" line |
| Bot.BulletsLines | backend/bot.py:63-64 | the bullets split on newlines into one "- item" line per item and a final empty piece |
| Bot.Sections | backend/bot.py:57-65 | at most one section per matched condition |
| Bot.SectionsOfKeys | backend/bot.py:59-65 | conditions that are all keys give exactly one section each, in order, built from that key's advice |
| Bot.MatchedSections | backend/bot.py:52-65 | the matched conditions give exactly one section each, in file order |
| Bot.PhraseOutranksKnowledgeBase | backend/bot.py:46-57 | a phrase match decides the reply whatever conditions the message names |
| Bot.GreetingWins | backend/bot.py:46-50 | "hello, i have a fever" is greeted |
| Bot.KnowledgeBaseOutranksFollowUp | backend/bot.py:52-70 | without a phrase, a named condition yields the composed sections and no symptom is forgotten |
| Bot.EmptyContextNoFollowUp | backend/bot.py:70-93 | from an empty context the follow-up never fires, and a message without phrase or condition gets the fallback |
| Bot.ContextAfter | backend/bot.py:79 | the context never gains users |
| Bot.Bot.constructor | backend/bot.py:35 | the context starts empty |
| Bot.Bot.WellnessResponse | backend/bot.py:38-93 | the reply is the translation of the decided text or of one of the decided choices, and the context changes only by the follow-up forgetting the user |
| Bot.Decide | backend/bot.py:46-93 | the rules in order: a phrase category's replies, else the sections of the matched conditions, else the remembered symptom's follow-up with the symptom forgotten, else the non-health replies |
| Bot.Section | backend/bot.py:62-64 | the heading naming the capitalised condition, the advice heading, then one "- " line per advice item |
| Bot.ComposedReply | backend/bot.py:67-68 | the sections joined by newlines and stripped |
| Bot.FollowUp | backend/bot.py:74-78 | the heading naming the symptom, then its advice items as "- " lines joined by newlines |
| Bot.Bot.RespondToHealth | backend/bot.py:52-93 | past the phrases, the reply and context follow the same rules: sections, then the follow-up, then a fallback choice |
| Bot.Bot.PickReply | backend/bot.py:50 | the reply is the translation of one of the choices |
| Bot.Bot.FindPhrase | backend/bot.py:46-50 | the loop over categories finds the first category with a keyword in the message |
| Bot.Bot.MatchConditions | backend/bot.py:52-55 | the loop collects exactly the matched conditions in file order |
| Bot.Bot.ComposeSections | backend/bot.py:58-65 | the loop builds exactly one section per matched condition that looks up to an entry |
| Bot.Bot.BuildSection | backend/bot.py:62-64 | the loop builds the section's heading followed by one bullet per advice item |
| Strings.TrimBlank | frontend/frontend/src/components/Chatbox.jsx:56 | text trims to nothing exactly when it is all whitespace |
| Strings.SplitCount | frontend/frontend/src/components/AdminDashboard.jsx:55-56 | splitting on a character gives one more piece than the text has of that character |
| Strings.SplitJoinTrimRoundTrip | frontend/frontend/src/components/AdminDashboard.jsx:84-85 | joining trimmed, separator-free items with a separator plus padding, then splitting and trimming, gives the items back |

## Left out

- HTTP, axios, FastAPI routing and `Promise.all`: every request's reply, or its rejection, is an input to the handler that awaits it. Requests run one at a time, and interleavings of concurrent requests are not modelled.
- Navigation.ReachableConsistent: holds for schedules with at most one request in flight, whose reply may arrive on any later screen. With two requests in flight it fails, as Navigation.OverlappingRepliesBreakConsistency shows. The form handlers of the login, registration, update, feedback and dashboard screens take a reply as an input and do not describe what happens on the screen while it is pending. The chat box does: its send is split at the `await` (Chat.ChatBox.SendMessage and Chat.ChatBox.ReceiveReply).
- Errors raised while parsing JSON are not modelled, including the one the mount effect leaves unhandled. A saved entry is either plain text or a transcript.
- `alert`, `window.confirm` and the success and failure of the update and dashboard requests are boolean inputs. The alert texts are not modelled.
- The `window.location` redirect after the admin logout is not modelled.
- The refetch after a dashboard save or delete is a separate `FetchAllData` call with its own outcome.
- Strings.Trim, Strings.Lower, Strings.Capitalize and Bot.EnglishMessage: cover ASCII only. Python's `strip()` also removes U+001C to U+001F and Unicode spaces, JavaScript's `trim()` removes Unicode spaces but not U+001C to U+001F, and both change the case of non-ASCII letters. The file is written with `ensure_ascii=False` (backend/api.py:265), so non-ASCII keys can occur, and for them the model can differ from either language.
- `User.age` stays the text the forms hold. The server's integer age is not modelled.
- AuthScreens.ParseInt: returns the exact integer. `parseInt` gives a JavaScript Number, so digit strings above 2^53 lose precision, and very long ones become `Infinity`, which the request body sends as `null`.
- Bot.Bot.WellnessResponse: takes the knowledge base as its `kb` parameter. The bot loads it once, when backend/bot.py is imported (backend/bot.py:5), so admin edits through backend/api.py:256-291 reach the bot only after a restart. The model does not tie `kb` to the file the admin endpoints change.
- `get_current_user` is modelled as the caller's id. Its 401 paths are not modelled.
- `decode_jwt` is modelled as the decoded payload. JWT signing and expiry are not modelled.
- The translator (`translate_text`, `translate_response`) is a function parameter. Its network call and its fall-back to the input text on an error happen inside that function.
- `backend/models.py` and `backend/db.py` are modelled as sequences of rows.
- Api.ChatsOf: keeps insertion order. The source orders a user's rows by `timestamp ASC` (backend/models.py:45), which agrees with insertion order while timestamps do not go backwards.
- Api.AllFeedbacks: lists by reverse insertion order. The source orders rows by a per-second timestamp, and leaves the order of rows inserted in the same second unspecified.
- The file reads and writes of the knowledge-base endpoints are not modelled, and neither is `admin_stats`' 500 path for a missing or malformed file. The file is a field read and rewritten whole.
- The emoji prefixes of the `admin_stats` values are not modelled. `Stats` holds the bare numbers.
- A knowledge-base entry is always truthy in the bot's `if info:`. An empty entry cannot be written through `DiseaseModel`.
- The bot's question branch is proved unreachable, so the text of its question is not modelled.
- `backend/app.py` and `backend/auth.py` are not part of this model.
- The server's register, login, chat, update, account-delete, feedback-submit, user-feedback, admin-login, admin-dashboard and admin-feedback endpoints are not part of this model. Only their replies, as the client sees them, are inputs.
- Chat.ChatBox.Mount: collapses the restore and the persist effect it triggers into one method, saved at one instant. A restored transcript is thus re-saved with a new timestamp, as the persist effect does. The box is modelled per username (`username` is a constant): a late profile update that renames the mounted user, after which the persist effect briefly saves the old transcript under the new key, is not modelled.
- Dashboard.EditOfListedDisease, Dashboard.AdminDashboard.HandleAddOrUpdate and Dashboard.AdminDashboard.HandleDelete: the name travels in the URL path without encoding (frontend/frontend/src/components/AdminDashboard.jsx:61 and :92). A request carries the name as its `target`, and the model does not describe how the server parses a name holding '/', '?', '#' or '%'. The round-trip lemma therefore requires `PathSafe`.
- Dashboard.AdminDashboard.HandleAddOrUpdate: reads "adminToken" when the handler runs. The source reads it when the component renders, so a token changed between render and submit is not distinguished.
- Bot.Bot.PickReply: `random.choice` is a nondeterministic choice. Its distribution is not modelled.
- The Login and AdminLogin `handleChange` handlers are not modelled separately. Their forms only feed the request, whose reply is an input.
- Scrolling, the dropdown and the rendering markup are not modelled.
