# Health Hub chatbot front-end — a Dafny model

This project models the logic in the Health Hub chat front-end. The rest of the front-end is markup, styling and network plumbing. The model covers:

- **Conversation store and message pipeline** (`src/components/Mainpage.jsx`):
  - an ordered list of chats and the current chat id;
  - the message input and the rename dialog;
  - the handlers that create, select, rename and delete chats;
  - the auto-select effect;
  - the two stages of a send. The first stage appends the user message and a loading placeholder. The second replaces the placeholder with the reply or with a failure notice.
- **Reply classification** (`src/services/GeminiService.js`). This part covers:
  - the request the client builds around a question;
  - the decision that turns a parsed reply, or a thrown error, into the one string the page shows;
  - the rule `validateApiKey` uses to judge the key.
- **Form validators** (`src/components/Signup.jsx`, `src/components/Login.jsx`): the submit handlers, their checks in source order, and what each hands to its callback.
- **Session provider** (`src/contexts/AuthContext.jsx`). This covers `currentUser`, `isAuthenticated` and `loading`, the mount effect, and `login`, `signup` and `logout`. Local storage is a map from key to text, and the session is mirrored into it under `'user'`.

Files and modules:

- `base.dfy` (`Base`): `Option`, which stands for a JavaScript value that may be null or undefined.
- `text.dfy` (`Text`): `trim` and `includes`, over the ECMAScript white-space set.
- `conversations.dfy` (`Conversations`): the chat and message records and the per-chat updates. This includes the list-wide `map`/`filter` and the lemmas about the send pipeline.
- `chatpage.dfy` (`ChatPage`): class `ChatStore`, one field per piece of page state. Each handler is a method that overwrites fields. Its `Valid()` is the placeholder discipline: a loading message is only ever the last message of a chat, and only of a chat that the awaited send targets.
- `gemini.dfy` (`Gemini`): reply datatypes, classification, the prompt, and key validation. The HTTP exchange is a function parameter, `service: Request -> ApiResult`.
- `userrecord.dfy` (`UserRecord`): the `{ username }` record. Also `JSON.stringify` of it and the matching `JSON.parse`, with the round-trip proved.
- `forms.dfy` (`Forms`): sign-up and log-in submit handlers as pure functions.
- `auth.dfy` (`Auth`): class `LocalStorage` and class `AuthProvider`.

Four behaviours of the code, modelled as written:

- `selectChat` stores any id without looking it up.
- A rename stores the title as typed, untrimmed.
- A first message sets the title only while the title is still "New conversation".
- Failures inside `getGeminiResponse` reach the page as ordinary replies: they are strings, not `isError` messages. The page's own failure notice appears only when the promise rejects (`Outcome.Failed`).

## Model

| member | source | states |
|---|---|---|
| Text.IsJsSpace | src/components/Mainpage.jsx:65 | the characters `trim` removes: the ECMAScript WhiteSpace and LineTerminator code points (tab, line feed, vertical tab, form feed, carriage return, space, no-break space, U+1680, U+2000 to U+200A, U+2028, U+2029, U+202F, U+205F, U+3000 and the byte-order mark), also at line 240 |
| Text.TrimEmptyIffBlank | src/components/Mainpage.jsx:65 | `s.trim()` is empty exactly when every character of `s` is white space, in both directions; this is the guard used by send and rename |
| Text.TrimStart | src/components/Mainpage.jsx:240 | the left-trimmed text is a suffix of the input, everything cut off before it is white space, and it does not start with white space |
| Text.TrimEnd | src/components/Mainpage.jsx:240 | the right-trimmed text is a prefix of the input, everything cut off after it is white space, and it does not end with white space |
| Text.Trim | src/components/Mainpage.jsx:65 | `trim()` is no longer than its input and neither starts nor ends with white space |
| Text.TrimInfix | src/components/Mainpage.jsx:240 | `trim()` is a slice of the input with only white space on either side of it |
| Text.Contains | src/services/GeminiService.js:133 | `includes`: the empty text is in every string, and a string never holds a longer one |
| Conversations.UserMessage | src/components/Mainpage.jsx:81-85 | the user's message carries its id and the text unchanged, from the user, neither loading nor an error |
| Conversations.LoadingMessage | src/components/Mainpage.jsx:109-114 | the placeholder carries its id and the text "...", from the assistant, and is loading |
| Conversations.NewChat | src/components/Mainpage.jsx:42-47 | a new chat has the given id, the title "New conversation" and no messages |
| Conversations.FirstMessageTitle | src/components/Mainpage.jsx:90-92 | the derived title is at most 30 characters; a text of up to 30 is kept whole; a longer text gives its first 27 characters plus "...", exactly 30 |
| Conversations.FirstMessageSetsTitle | src/components/Mainpage.jsx:89-93 | adding a user message changes the title only when the chat is still "New conversation" and has no messages, and then to the derived title |
| Conversations.ReplyMessage | src/components/Mainpage.jsx:138-142 | the settling message has the given id and is never a placeholder; it carries the reply text, or the fixed failure notice with `isError` set exactly when the request rejected |
| Conversations.Apply | src/components/Mainpage.jsx:79-95 | every per-chat update of a handler keeps the chat's id and date |
| Conversations.UpdateMatching | src/components/Mainpage.jsx:76-98 | the list-wide `map`: same length; each chat with the target id is updated, every other chat is unchanged; a null target updates none |
| Conversations.Without | src/components/Mainpage.jsx:260 | the `filter`: exactly the chats without that id remain; if none had it the list is unchanged; a kept first chat stays first |
| Conversations.WithoutSingle | src/components/Mainpage.jsx:260 | one chat is kept exactly when its id differs |
| Conversations.WithoutConcat | src/components/Mainpage.jsx:260 | filtering a concatenation is the concatenation of the filtered parts, so the kept chats keep their order and number |
| Conversations.FindChat | src/components/Mainpage.jsx:231 | `find`: a chat is found exactly when one has that id, and the chat found is the first one with that id |
| Conversations.FindAfterUpdate | src/components/Mainpage.jsx:324 | after an update, looking the chat up by the same id gives the updated chat |
| Conversations.FirstId | src/components/Mainpage.jsx:264-269 | the first chat's id when the list is non-empty, null otherwise |
| Conversations.SendThenSettle | src/components/Mainpage.jsx:76-172 | user message, placeholder, then settle: the chat gains exactly two messages, the user text then the reply, and no placeholder remains |
| Conversations.SettleClearsLoading | src/components/Mainpage.jsx:130-142 | settling pops the last message only when it is the placeholder, then appends the reply, leaving no loading message |
| Conversations.EditKeepsNoLoading | src/components/Mainpage.jsx:76-98 | adding a user message, retitling or settling never creates a loading message |
| Conversations.StageOneEffect | src/components/Mainpage.jsx:76-119 | the first stage appends the user message and the placeholder after the earlier messages of each chat with the current id; every other chat is unchanged |
| Conversations.StageOneDiscipline | src/components/Mainpage.jsx:104-119 | after the first stage, the only loading messages sit at the tail of the targeted chats, and those chats are non-empty |
| Conversations.SettleDiscipline | src/components/Mainpage.jsx:127-151 | settling the targeted chats leaves no loading message anywhere in the list |
| Conversations.RetitleDiscipline | src/components/Mainpage.jsx:242-249 | a rename keeps the placeholder discipline, since it leaves messages alone |
| Conversations.WithoutDiscipline | src/components/Mainpage.jsx:260 | a delete keeps the placeholder discipline |
| Conversations.UpdateKeepsPresent | src/components/Mainpage.jsx:76-98 | per-chat updates keep the set of ids present |
| Conversations.WithoutKeepsPresent | src/components/Mainpage.jsx:260-270 | deleting another chat keeps the current id present |
| Conversations.SendEffect | src/components/Mainpage.jsx:76-181 | a whole send over the list: each target chat becomes the chat the user message made (title by the first-message rule, id and date kept) with exactly its old messages, the user message and the reply; every other chat is unchanged |
| Conversations.SentToFind | src/components/Mainpage.jsx:76-181 | after a whole send, looking the target id up finds the first such chat of before, with the send's effect applied |
| Conversations.SentToNewHead | src/components/Mainpage.jsx:41-181 | a send to a new chat at the head of the list titles it from the text and leaves exactly the user message and the reply in it |
| Conversations.FindAfterSend | src/components/Mainpage.jsx:76-181 | the current chat, found by id after a whole send, has its old messages plus the user message and reply, and the derived title |
| ChatPage.SeedChats | src/components/Mainpage.jsx:12-20 | the seven seeded chats have ids 1 to 7 and no messages |
| ChatPage.ChatStore.constructor | src/components/Mainpage.jsx:12-34 | initial state: the seeded chats, no current chat, empty input, rename dialog closed, nothing awaited |
| ChatPage.ChatStore.CreateNewChat | src/components/Mainpage.jsx:41-51 | the new chat goes first, the others follow unchanged in order, and its id becomes current |
| ChatPage.ChatStore.SelectChat | src/components/Mainpage.jsx:54-56 | the current id becomes the given id |
| ChatPage.ChatStore.SetInput | src/components/Mainpage.jsx:59-61 | the input becomes the typed text |
| ChatPage.ChatStore.BeginSend | src/components/Mainpage.jsx:64-119 | blank input: nothing changes. No current chat: a new chat is created, nothing is appended, input kept. Otherwise: user message and placeholder appended to the current chat (via `UpdateMatching`), input cleared, the text returned for the service, and the send becomes awaited |
| ChatPage.ChatStore.StartRequest | src/components/Mainpage.jsx:76-123 | the two list updates of the first stage for the captured id, and the loading flag set |
| ChatPage.ChatStore.Resolve | src/components/Mainpage.jsx:122-184 | every chat with the captured id is settled with the reply (id `now + 2`) or the failure notice; afterwards no loading message exists and the loading flag is off |
| ChatPage.ChatStore.HandleSendMessage | src/components/Mainpage.jsx:64-185 | a blank input changes neither the chats, the current id nor the input. With no current chat: a new chat in front, the input kept. Otherwise one uninterrupted send: each chat with the current id ends with exactly its old messages, the user text and the reply or failure notice, titled by the first-message rule; all other chats are untouched; the input is cleared; nothing stays loading (what a lookup by id then finds is `SentToFind`) |
| ChatPage.ChatStore.AutoSelect | src/components/Mainpage.jsx:188-192 | with no current id (null or the falsy 0) and a non-empty list, the first chat's id becomes current; otherwise nothing changes |
| ChatPage.ChatStore.OpenRename | src/components/Mainpage.jsx:228-236 | the dialog opens; if the chat exists its title prefills the field and its id becomes the rename target |
| ChatPage.ChatStore.EditRenameTitle | src/components/Mainpage.jsx:555 | the field becomes the typed title |
| ChatPage.ChatStore.SaveRename | src/components/Mainpage.jsx:239-254 | a blank title changes nothing; otherwise only chats with the target id get the untrimmed title, and the dialog closes and resets |
| ChatPage.ChatStore.DeleteChat | src/components/Mainpage.jsx:257-271 | every chat with the id is removed. If it was current, the current id becomes the first remaining chat's id or null. Otherwise it is unchanged. A present current id stays present |
| ChatPage.AskInNewChat | src/components/Mainpage.jsx:64-185 | a short first question sent to a new chat at the head of the list becomes its title, and the chat holds exactly the question and the answer |
| ChatPage.NoCurrent | src/components/Mainpage.jsx:67 | `!currentChatId`: a null id or the falsy id 0 (also line 189) |
| ChatPage.FirstQuestionScenario | src/components/Mainpage.jsx:41-185 | a new chat's first short question becomes its title; the chat then holds exactly the question and the answer |
| ChatPage.DeleteCurrentScenario | src/components/Mainpage.jsx:257-271 | deleting the current new chat selects the seeded chat now first |
| Gemini.WrapPrompt | src/services/GeminiService.js:25 | the prompt is the fixed health-assistant instruction followed by the question as a suffix |
| Gemini.WrapPromptInjective | src/services/GeminiService.js:25 | two questions give the same prompt exactly when they are equal |
| Gemini.RequestFor | src/services/GeminiService.js:20-58 | the request carries the wrapped prompt, topK 40, at most 300 output tokens, and the key, or the text "undefined" when the key is missing |
| Gemini.Interpolate | src/services/GeminiService.js:58 | a template literal `${x}`: a present string as itself, a missing one as the text "undefined" (also line 90) |
| Gemini.Truthy | src/services/GeminiService.js:78 | JavaScript truthiness of a possibly missing string: present and not empty (also lines 93 and 118) |
| Gemini.CandidateText | src/services/GeminiService.js:78 | candidate text is found exactly when candidates, the first candidate's content, its parts and a non-empty first part text all exist, and then it is that first part's text |
| Gemini.IsKeyError | src/services/GeminiService.js:86-88 | an error is a key problem for the statuses INVALID_ARGUMENT and PERMISSION_DENIED, or a message containing "API key" |
| Gemini.GetGeminiResponse | src/services/GeminiService.js:17-109 | the service is asked once with the request for the wrapped prompt and the result is classified; a thrown error or an error reply without candidate text always yields a string that fails the key check |
| Gemini.Classify | src/services/GeminiService.js:77-108 | candidate text is returned unchanged. Otherwise an error object gives "API key error: ..." for key statuses or a message mentioning "API key", and "I'm sorry, I encountered an error: " plus the message or "Unknown error" for the rest. A reply with neither gives the fixed apology. A thrown error gives the network notice when its message mentions "Failed to fetch" or "NetworkError", else the generic notice |
| Gemini.KeyMissing | src/services/GeminiService.js:118 | the key is absent, empty, or the placeholder value |
| Gemini.LooksValid | src/services/GeminiService.js:133 | a response passes when it contains neither "error" nor "API key" |
| Gemini.ValidateApiKey | src/services/GeminiService.js:115-145 | a missing, empty or placeholder key gives false; otherwise true exactly when the probe's response contains neither "error" nor "API key" |
| Gemini.MissingKeyMakesNoCall | src/services/GeminiService.js:118-121 | with a missing or placeholder key, the result is false whatever the service would answer: no request is made |
| Gemini.UnexpectedFormatLooksValid | src/services/GeminiService.js:96 | the apology for an unexpected reply contains neither "error" nor "API key" |
| Gemini.ThrownLooksInvalid | src/services/GeminiService.js:98-108 | both notices for a thrown error mention "error" |
| Gemini.KeyNoticeNamesKey | src/services/GeminiService.js:86-90 | the key-error notice contains "API key" whatever the message |
| Gemini.ErrorNoticeNamesError | src/services/GeminiService.js:93 | the general error notice contains "error" whatever the message |
| Gemini.ErrorReplyLooksInvalid | src/services/GeminiService.js:82-93 | every notice for an error reply mentions "API key" or "error" |
| Gemini.ValidateApiKeyAccepts | src/services/GeminiService.js:118-140 | with a usable key the check succeeds exactly when the reply parsed, and either carries candidate text free of "error" and "API key" or has neither candidate text nor an error object; every error reply and every thrown error fails |
| UserRecord.Encode | src/contexts/AuthContext.jsx:31 | `JSON.stringify({username})`: the text `{"username":"`, the escaped name, then `"}` |
| UserRecord.Decode | src/contexts/AuthContext.jsx:21 | `JSON.parse`: a record is read only from text framed as the writer frames it, whose escaped body reads back as the name |
| UserRecord.EscapeChar | src/contexts/AuthContext.jsx:31 | how `JSON.stringify` writes one character: any character other than a quote, a backslash or a control character as itself; those three as an escape of two to six characters starting with a backslash (`\"`, `\\`, `\b`, `\t`, `\n`, `\f`, `\r`, else `\u00` and two lowercase hex digits) |
| UserRecord.Escape | src/contexts/AuthContext.jsx:31 | the body of the string literal: each character escaped in turn |
| UserRecord.Unescape | src/contexts/AuthContext.jsx:21 | `JSON.parse` of a string body: the two-character escapes and `\u` with four hex digits are decoded; a raw quote, a raw control character, an unknown or cut-off escape, and a `\u` escape of a surrogate code unit (U+D800 to U+DFFF) are refused |
| UserRecord.HexDigit | src/contexts/AuthContext.jsx:31 | the hex digit written for a value reads back as that value |
| UserRecord.UnescapeEscape | src/contexts/AuthContext.jsx:21 | reading back an escaped string's body gives the string |
| UserRecord.DecodeEncode | src/contexts/AuthContext.jsx:21-31 | `JSON.parse(JSON.stringify(user))` gives the same user record back |
| UserRecord.UnescapeEscapeChar | src/contexts/AuthContext.jsx:21-31 | one escaped character reads back as itself, whatever follows |
| Forms.SubmitSignup | src/components/Signup.jsx:10-28 | accepted exactly when the two passwords match and have at least 6 characters. On success the error is empty and the callback gets `{username}` only. A mismatch gives "Passwords do not match" with no callback. A short matching password gives the length error with no callback |
| Forms.MismatchReportedBeforeLength | src/components/Signup.jsx:15-23 | a short mismatched pair reports the mismatch, not the length |
| Forms.SignupForgetsPassword | src/components/Signup.jsx:27 | any two accepted passwords hand over the same record `{username}`: the password is not passed on |
| Forms.SubmitLogin | src/components/Login.jsx:9-27 | accepted exactly when the username is "user" and the password "password123"; on success the error is empty and the callback gets `{username}` only; otherwise the error is "Invalid username or password" with no callback |
| Forms.SubmitClearsPreviousError | src/components/Login.jsx:17 | the outcome of either submit does not depend on the error shown before: it is cleared first (Signup.jsx:12 too) |
| Auth.LocalStorage.constructor | src/contexts/AuthContext.jsx:19 | storage starts with the given items |
| Auth.LocalStorage.GetItem | src/contexts/AuthContext.jsx:19 | a key reads as its stored text, or as null when absent |
| Auth.LocalStorage.SetItem | src/contexts/AuthContext.jsx:31 | the key now maps to the text; other keys are unchanged |
| Auth.LocalStorage.RemoveItem | src/contexts/AuthContext.jsx:45 | the key is gone; other keys are unchanged |
| Auth.AuthProvider.constructor | src/contexts/AuthContext.jsx:13-15 | no user, not authenticated, loading, children not rendered |
| Auth.AuthProvider.RendersChildren | src/contexts/AuthContext.jsx:58 | children are rendered exactly when loading has ended |
| Auth.AuthProvider.LoadEffect | src/contexts/AuthContext.jsx:17-25 | a present non-empty 'user' entry that parses becomes the current user and sets authenticated. An absent or empty entry leaves both as they were. Loading then ends and children render. An entry that fails to parse stops the effect before loading ends. Storage is untouched |
| Auth.AuthProvider.Login | src/contexts/AuthContext.jsx:28-32 | the record becomes the current user, authenticated is set, `'user'` holds its JSON text, other keys untouched |
| Auth.AuthProvider.Signup | src/contexts/AuthContext.jsx:35-39 | exactly the same postcondition as `Login` |
| Auth.AuthProvider.Logout | src/contexts/AuthContext.jsx:42-46 | no current user, not authenticated, and `'user'` removed, other keys untouched |
| Auth.LoginSurvivesReload | src/contexts/AuthContext.jsx:17-32 | after a login, a new provider over the same storage restores the same user, authenticated and rendering children |
| Auth.LogoutSurvivesReload | src/contexts/AuthContext.jsx:17-46 | after a logout, a new provider over the same storage has no user, is not authenticated, and renders children |

## Left out

- Rendering, CSS, the sidebar toggle, context-menu position and visibility, the share modal and clipboard access (`Mainpage.jsx`): presentation and browser APIs.
- The mount effect in `Mainpage.jsx:195-225`, which stores `validateApiKey`'s result in `isApiKeyValid`: nothing in the core reads that flag. The rule itself is `Gemini.ValidateApiKey`.
- ChatPage.ChatStore.BeginSend: requires that no earlier send is still awaited. The source lets two sends overlap and apply their updates in completion order; that interleaving is not modelled.
- ChatPage.ChatStore.Resolve: requires each chat with the captured id to hold a message. The source reads `lastMessage.isLoading` on an empty list and throws a TypeError. This can only happen if a chat created while the reply is awaited reuses the same id.
- ChatPage.ChatStore.DeleteChat: picks the first remaining chat from the current list. The source filters the list captured when the handler was rendered, which is the same list unless another update is pending.
- `Date.now()` ids are method parameters (`now`, `later`, `settledAt`). The model does not assume they are unique.
- Conversations.FirstMessageTitle: counts Unicode characters, not the UTF-16 code units of JavaScript's `length` and `substring`.
- Forms.SubmitSignup: counts the password length in Unicode characters, not UTF-16 code units. The browser's `required` check on the inputs, which blocks empty fields before the handler runs, is not modelled.
- The `fetch` call, HTTP status, `response.json()`, the URL and model name, the float settings (temperature 0.7, topP 0.95) and the safety thresholds (`GeminiService.js`). The exchange is the `service` parameter, and its result is a parsed `Reply` or a thrown message.
- Gemini.Classify: JSON fields with other types than the ones modelled are not covered (a non-string `text` or `message`, a non-array `candidates`). Neither is an exception without a string message, for which the handler would itself throw.
- Gemini.ValidateApiKey: its `catch` branch is not modelled. `getGeminiResponse` is a total function here and never throws.
- UserRecord.Unescape: refuses `\u` escapes of surrogate code units, which `JSON.parse` accepts (a pair makes one character outside the Basic Multilingual Plane). `JSON.stringify` never writes such an escape for a string of Unicode scalar values, so the round trip is not affected.
- UserRecord.Decode: reads only the exact text `JSON.stringify({username})` writes. Any other stored text counts as a parse failure. The real `JSON.parse` would accept any valid JSON value, with spaces, other fields or other escapes. Lone UTF-16 surrogates cannot occur, because Dafny characters are Unicode scalar values.
- Storage exceptions (quota, disabled storage) and console logging everywhere.
- `server.js`, `src/services/ProxyGeminiService.js`, `src/components/Inputbox.jsx`, the CLI scripts, `src/main.jsx`, `src/App.jsx` and `src/utils/debugBuild.js` are not part of this model. They are HTTP proxying, an unused alternative client, browser speech recognition, diagnostic I/O and bootstrapping.
