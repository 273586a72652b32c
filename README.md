# Chat conversation pipeline: a Dafny model

This project models the conversation core of a web chat with a generative-AI
assistant. It covers two files.

- The server's chat controller keeps one record per registered user. Each
  record holds a transcript of `{role, content}` turns. For a new message, the
  controller renders the transcript and the message into one prompt and asks
  the completion model. Only when the model answers does it append the user
  turn and the assistant turn and save the record. The controller can also send
  the transcript back and clear it. Every handler selects the record by the
  caller's id. It answers 401 when there is no such user. When something
  throws, it answers 500 (the completion handler) or 200 with message "ERROR"
  (the read and delete handlers).
- The client's chat page keeps the list of messages it shows, an
  "assistant is typing" flag and the text of the input box. It ignores input
  that trims to nothing. Otherwise it appends the trimmed text at once, then
  shows the server's transcript when the send succeeds. When the send fails it
  keeps its own list and tells rate limiting (status 429) apart from other
  failures. It empties the list whenever the delete request is answered with
  status 200. It also derives the two-letter initials for the user's avatar.

Modules:

- `JsStrings` (`js_strings.dfy`) models the JavaScript string built-ins the
  two files rely on: `trim`, `split` with a one-character separator, and
  `join`. It proves their characterising properties and the split/join round
  trips.
- `Conversation` (`conversation.dfy`) models the server side. `BuildPrompt`
  assembles the prompt. The class `ChatService` has a
  `users: map<UserId, UserRecord>` field standing for the user collection,
  and one method per handler.
- `ChatPage` (`chat_page.dfy`) models the client side. It holds `GetInitials`,
  the error toast for a failed send, and the class `ChatView` with the fields
  `draft`, `messages` and `isTyping`.
- `Wrappers` (`wrappers.dfy`) holds `Option`.

External capabilities become parameters. The completion model is a total
function `complete: string -> Completion` that answers `Success(text)` or
`Failure(msg)`. An error thrown by the database lookup or by `save` is an
`Option<string>` argument (`findFault`, `saveFault`). A client request's
outcome is a `SendResult` or a `bool` argument. `save` is modelled as
all-or-nothing: either the whole updated record replaces the stored one or the
store is unchanged.

Behaviour worth noting:

- With no history the prompt is `"\nuser: " + message`, starting with a newline.
  `FirstPromptThenNext` shows that the leading newline is absent from the next
  prompt.
- The server does not reject an empty or whitespace-only message. Only the
  client's trim check in `handleSubmit` stops one.
- The server gives no rate-limit kind to a failed completion. Every model
  failure becomes a 500 response with the error's message as `cause`. The 429
  distinction exists only on the client, for whatever returns a 429 status.
- A missing user gives 401. For a caller id that is a record's canonical id
  string, the "Permissions didn't match" answer is unreachable, because the
  record found carries that same id. In the model every caller id is such a
  string (see "## Left out"), so in `SendChatsToUser` and `DeleteChats` that
  branch holds `assert false`.
- The delete handler answers a failed lookup or a failed save with status 200
  and message "ERROR". The client's delete request succeeds on any status-200
  answer, so the page empties its list and reports "Deleted Chats
  Successfully" while the stored transcript is unchanged. `DeleteWhenSaveFails`
  states this.

## Model

| member | source | states |
|---|---|---|
| `Conversation.BuildPrompt` | backend/src/controllers/chat-controllers.ts:22-23 | the prompt always ends with a newline followed by `user: ` and the new message |
| `Conversation.TwoTurnPrompt` | backend/src/controllers/chat-controllers.ts:22-23 | with one stored exchange the prompt is `user: message`, a newline, `assistant: reply`, a newline and `user: next` |
| `Conversation.RenderAll` | backend/src/controllers/chat-controllers.ts:22 | each stored turn becomes the line `role: content`, one line per turn, in transcript order |
| `Conversation.PromptMatchesReference` | backend/src/controllers/chat-controllers.ts:22-23 | the prompt is every stored turn as its own newline-terminated line, then `user: message`. With no history it is `"\nuser: " + message`. The whole transcript is included without truncation |
| `Conversation.BuildPromptCons` | backend/src/controllers/chat-controllers.ts:22-23 | with two or more stored turns, the prompt is the first turn's line, a newline, and the prompt of the remaining turns |
| `Conversation.NextPromptExtends` | backend/src/controllers/chat-controllers.ts:22-33 | when the transcript was non-empty, the prompt after a successful exchange is the previous prompt followed by `"\nassistant: " + reply` and `"\nuser: " + next` |
| `Conversation.FirstPromptThenNext` | backend/src/controllers/chat-controllers.ts:22-33 | the first prompt is `"\n" + "user: " + message`. After that exchange, the next prompt is the first one without its leading newline, then the reply line and the next message line |
| `Conversation.EmptyHistoryExample` | backend/src/controllers/chat-controllers.ts:22-23 | `BuildPrompt([], "hi")` is `"\nuser: hi"`, with the leading newline |
| `Conversation.TwoTurnHistoryExample` | backend/src/controllers/chat-controllers.ts:22-23 | with history `[user "hi", assistant "hello"]` and message `"bye"` the prompt is `"user: hi\nassistant: hello\nuser: bye"` |
| `Conversation.ChatService.FindById` | backend/src/controllers/chat-controllers.ts:15-19 | the lookup fails exactly when the database throws. Otherwise it finds a record exactly when the id is registered. A found record is the stored one and carries the looked-up id |
| `Conversation.ChatService.Save` | backend/src/controllers/chat-controllers.ts:35 | saving replaces the record under its id and touches no other user. A failed save leaves the store unchanged and reports the error |
| `Conversation.ChatService.GenerateChatCompletion` | backend/src/controllers/chat-controllers.ts:7-42 | unknown user: 401 and store unchanged. Lookup error, completion failure or save error: 500 carrying the cause, store unchanged. Otherwise the model is asked with `BuildPrompt(transcript, message)`, the caller's transcript grows by exactly `[user message, assistant reply]`, every other user's record is unchanged, and the reply is 200 with the new transcript |
| `Conversation.ChatService.SendChatsToUser` | backend/src/controllers/chat-controllers.ts:45-63 | the reply is exactly the caller's stored transcript with message "OK", 401 for an unknown user, or 200 "ERROR" with the cause when the lookup throws. It reads only the caller's record and changes nothing. The permission-mismatch branch is proved unreachable |
| `Conversation.ChatService.DeleteChats` | backend/src/controllers/chat-controllers.ts:66-89 | on success the caller's transcript becomes empty, every other user's record is unchanged, and the reply is 200 "OK". Unknown user: 401, store unchanged. Lookup or save error: 200 "ERROR" with the cause, store unchanged |
| `Conversation.DeleteThenRead` | backend/src/controllers/chat-controllers.ts:51-84 | deleting a registered user's chats and then reading them yields 200 "OK" with the empty transcript |
| `Conversation.FirstExchange` | backend/src/controllers/chat-controllers.ts:28-37 | empty transcript, message "2+2?", model answers "4": the reply is 200 with transcript `[user "2+2?", assistant "4"]` |
| `JsStrings.TrimStart` | frontend/src/pages/Chat.tsx:45 | the result is the suffix of the input that starts at its first non-space character, and everything dropped is white space |
| `JsStrings.TrimEnd` | frontend/src/pages/Chat.tsx:45 | the result is the prefix of the input that ends at its last non-space character, and everything dropped is white space |
| `JsStrings.Trim` | frontend/src/pages/Chat.tsx:45 | the trimmed text is no longer than the input and neither starts nor ends with white space |
| `JsStrings.TrimEmptyIffAllWhitespace` | frontend/src/pages/Chat.tsx:45-46 | the input trims to the empty string if and only if every character is white space |
| `JsStrings.TrimStripsPadding` | frontend/src/pages/Chat.tsx:45 | trimming white-space padding around a core that neither starts nor ends with white space gives back that core |
| `JsStrings.TrimStartOfPadded` | frontend/src/pages/Chat.tsx:45 | leading white space before a part that does not start with white space is removed, and that part is kept |
| `JsStrings.TrimEndOfPadded` | frontend/src/pages/Chat.tsx:45 | trailing white space after a part that does not end with white space is removed, and that part is kept |
| `JsStrings.Join` | backend/src/controllers/chat-controllers.ts:22 | an empty array joins to the empty string, and the joined text is at least as long as each piece |
| `JsStrings.JoinSnoc` | backend/src/controllers/chat-controllers.ts:22 | joining one more line appends the separator and that line to the joined text |
| `JsStrings.IndexOf` | frontend/src/pages/Chat.tsx:31 | the result is the position of the first occurrence of the character, or the length when it does not occur |
| `JsStrings.Split` | frontend/src/pages/Chat.tsx:31 | splitting yields at least one piece, and no piece contains the separator |
| `JsStrings.SplitThenJoin` | frontend/src/pages/Chat.tsx:31 | joining the pieces of a split with the separator gives back the original string |
| `JsStrings.JoinThenSplit` | frontend/src/pages/Chat.tsx:31 | splitting a join of separator-free pieces gives back the pieces |
| `JsStrings.SplitWithoutSeparator` | frontend/src/pages/Chat.tsx:31 | a string without the separator splits into itself alone |
| `JsStrings.SplitHead` | frontend/src/pages/Chat.tsx:31 | a separator-free head followed by the separator becomes the first piece, and the rest is split on its own |
| `ChatPage.GetInitials` | frontend/src/pages/Chat.tsx:30-35 | the initials are never longer than two characters |
| `ChatPage.InitialsOfOneWord` | frontend/src/pages/Chat.tsx:31-34 | a name without a space gives its first character, and the empty name gives the empty string |
| `ChatPage.InitialsOfTwoWords` | frontend/src/pages/Chat.tsx:30-35 | two space-separated words give the first character of each, and any further words are ignored |
| `ChatPage.InitialsWithDoubledSpace` | frontend/src/pages/Chat.tsx:31-34 | after a doubled space the second word is empty, so only the first word's character remains |
| `ChatPage.FailureToast` | frontend/src/pages/Chat.tsx:61-65 | the error toast is never empty. It is the rate-limit advice for status 429. For any other status it is the server's message when that is non-empty, and "Failed to send message." when the message is missing or empty |
| `ChatPage.ChatView.constructor` | frontend/src/pages/Chat.tsx:26-27 | the page starts with no messages and not typing |
| `ChatPage.ChatView.BeginSubmit` | frontend/src/pages/Chat.tsx:44-54 | input that is all white space changes nothing and sends nothing. Otherwise the box is cleared, exactly one user message with the trimmed text is appended at the end, typing turns on, and the trimmed text is sent |
| `ChatPage.ChatView.FinishSubmit` | frontend/src/pages/Chat.tsx:56-68 | a delivered transcript replaces the list. A failure keeps the list, including the optimistic message, and yields the error toast for its status and server message, while a delivered transcript yields no toast. Typing is off afterwards either way |
| `ChatPage.ChatView.HandleSubmit` | frontend/src/pages/Chat.tsx:44-69 | the whole submit. Blank input changes nothing. Otherwise the box ends cleared and typing off, and the list is the server's transcript on success or the old list plus the trimmed user message on failure. Only a failure yields an error toast, the one `FailureToast` gives |
| `ChatPage.ChatView.HandleDeleteChats` | frontend/src/pages/Chat.tsx:80-90 | when the delete request resolves, which it does on any status-200 answer, the list is emptied and the toast says "Deleted Chats Successfully". When it is rejected the list is unchanged and the toast says "Deleting chats failed" |
| `ChatPage.DeleteWhenSaveFails` | backend/src/controllers/chat-controllers.ts:80-87 | when saving the cleared record fails, the server's 200 "ERROR" answer passes the status-200 test of `deleteUserChats`, so the page empties its list and reports success while the stored transcript is unchanged |

## Left out

- The Gemini client and its configuration (`backend/src/config/gemini-config.ts`) are a foreign library and an environment variable. The model call is the parameter `complete`, and any exception it raises, including from reading the reply text, is its `Failure`.
- Mongoose (`User.findById`, `user.save`) is database I/O. The collection is the map `users`. Lookup and save errors are arguments. A record holds only its id and its chats; the other user fields are not part of this model.
- Authentication and JWT handling: the caller id is a given argument.
- `message` from the request body is taken to be a string. The code would also interpolate `undefined` or a non-string value into the prompt.
- Concurrent requests for the same user (load-then-append races) are not handled by the code and are not modelled. Every handler runs as one atomic step.
- The chat subdocument ids that Mongoose adds to each stored turn and returns in `chats`.
- `frontend/src/helpers/api-communicator.ts`: the HTTP wrappers are represented only by their outcome (`SendResult`, the `resolved` flag). The status-200 test of `deleteUserChats` (resolve exactly on status 200) is written inline in `DeleteWhenSaveFails`.
- The page's loading of the transcript on login (`Chat.tsx` lines 93-106), the redirect to the login page, the auto-scroll, the loading toasts and all rendering. The rendering files `HeroIntro.tsx`, `Signup.tsx`, `ChatItem.tsx`, `Header.tsx` and `Home.tsx` are not part of this model.
- `ChatPage.ChatView.HandleSubmit`: the state in which the optimistic message is shown while the request is pending is stated by `BeginSubmit`, not by this composed method.
- `ChatPage.GetInitials`: strings are modelled as sequences of Unicode scalar values, while JavaScript indexes UTF-16 code units. When a word starts with a character outside the Basic Multilingual Plane (for example the name "😀 Bob"), the model keeps the whole character, while the source's `[0]` keeps only the first half of its surrogate pair. The bound of two characters likewise counts code points, not JavaScript `length`.
- `JsStrings.Join`: its contract states only that the empty array joins to "" and that the result is at least as long as each piece; it does not say where the pieces occur. The exact layout of the joined text is stated by `JoinSnoc` and by the split/join round trips.
- Caller ids are taken to be the canonical id strings that the token issuer writes. `ChatService.FindById` is an exact-string lookup in the map, not the ObjectId cast that `User.findById` performs. The code itself does not assume this: another spelling of a registered id (the upper-case hex form, say) finds the record in the source, so `generateChatCompletion` appends to it and `sendChatsToUser` and `deleteChats` answer 401 "Permissions didn't match". The model answers 401 "User not registered OR Token malfunctioned" for such an id in every handler.
