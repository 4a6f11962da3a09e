# ChatAI conversation core in Dafny

A model of the conversation core of the ChatAI web application: a Next.js chat front end over a
MongoDB store that relays each user turn to a language model and streams the answer back.

The model covers four parts:

- **The browser session** (`ChatContext`, a class `ChatSession`). It holds:
  - the conversation list and the active chat's messages;
  - the temporary-to-store id upgrade and its flag, and the loading flag;
  - every request the session puts on the network, oldest first.
- **The chat relay** (`ChatRoute`). It resolves or creates the conversation and may persist the
  user's turn. It answers with a text stream whose `x-chat-id` header names the conversation. When
  generation ends, it updates the assistant record or creates one.
- **The collection endpoints** (`ConversationsRoute`): list newest first, create, clear.
- **The two schemas** (`MessageModel`, `ConversationModel`) and the store that enforces them
  (`Store`, a class over both collections).

The handlers of four components sit on top: `ChatContainer`, `MessageBubble`, `MessageInput` and
`Sidebar`.

Each stateful operation is specified by a function on a value snapshot (`Session`, `Db`). The
class method is proved to move its fields exactly as that function says. The properties are then
lemmas about the functions:

- what a send appends and what it posts;
- that the streamed text is the concatenation of the fragments;
- the failure marker;
- the id upgrade;
- regeneration;
- the user-record and count accounting on the server;
- idempotent finalisation;
- the newest-first listing;
- the recent/older partition.

Supporting modules:

- `Wrappers`: `Option` and `Result`.
- `Seqs`: JavaScript's `filter`, conditional `map` and `findIndex`.
- `Text`: `trim`, the 30-character title, `Date.now().toString()`, the temporary-id test,
  `toLowerCase`/`includes`, and fragment concatenation.
- `Protocol`: the client's messages, requests and replies.

Modelling choices:

- **Clock readings and fresh ids are parameters.** `tUser`, `tChat`, `tAssistant`, `now` and
  `newId` stand for the clock and for the id the store would assign.
- **Network answers arrive explicitly.** They come as a `Reply` argument, or as a separate
  `Apply…` call for the list and detail fetches.
- **Store failures are named.** A `Fault` / `FinishFault` / `StoreFault` / `ClearFault` argument
  says which store call throws.
- **The schema is enforced by the store.**
  - `Store.CreateMessage` and `Store.SaveMessage` write only documents that pass
    `ValidateMessage`, which requires a non-empty `content`. This is why a finalise with empty
    completion text stores nothing.
  - `Store.CreateConversation` writes only documents that pass `CreateConversation`, which rejects
    an empty title.
- **Messages are an insertion-ordered sequence, not a map.** `Message.findOne` returns the first
  match in natural order, and the collection can hold several records with one client id.

## Model

| member | source | states |
|---|---|---|
| Seqs.Filter | context/ChatContext.js:260-262 | `filter`: an element is kept iff it was present and passes; never longer |
| Seqs.FilterConcat | components/Sidebar.jsx:213-220 | filtering keeps the original order: a filter of `a + b` is the filter of `a` then of `b` |
| Seqs.FilterAll | context/ChatContext.js:260-262 | a filter that every element passes returns the list unchanged |
| Seqs.FilterPartition | components/Sidebar.jsx:213-220 | two complementary filters together hold every element exactly as often as the list |
| Seqs.MapWhere | context/ChatContext.js:74-76 | the conditional `map`: length kept; selected elements transformed, others untouched |
| Seqs.FindFirst | context/ChatContext.js:229 | `findIndex`: the first satisfying index, and none exactly when no element satisfies |
| Text.TrimStart | context/ChatContext.js:186 | leading whitespace removed: a suffix, not starting with whitespace, and all removed characters whitespace |
| Text.TrimEnd | context/ChatContext.js:186 | trailing whitespace removed: a prefix, not ending with whitespace, and all removed characters whitespace |
| Text.BlankIffAllWhitespace | components/MessageInput.jsx:10 | `!s.trim()` holds exactly when every character is JavaScript whitespace |
| Text.TrimTrimmed | components/Sidebar.jsx:50-51 | trimming is idempotent |
| Text.DerivedTitle | context/ChatContext.js:194 | content of at most 30 characters is the title itself; longer content gives the first 30 characters plus `'...'` |
| Text.DecimalString | context/ChatContext.js:189 | `Date.now().toString()` is a non-empty string of decimal digits |
| Text.DecimalStringInjective | context/ChatContext.js:189-211 | distinct clock readings give distinct ids |
| Text.DecimalStringLength | context/ChatContext.js:124 | a rendering has at most k digits exactly when the number is below 10^k |
| Text.ClockIdIsTemporary | context/ChatContext.js:124 | an id made from a clock reading below 10^19 passes the temporary-id test |
| Text.DurableIdIsNotTemporary | context/ChatContext.js:124 | a 24-character store id never passes the temporary-id test |
| Text.LowerChar | context/ChatContext.js:261 | ASCII lower-casing: upper-case letters map to lower case, other characters are unchanged |
| Text.ToLower | context/ChatContext.js:261 | lower-casing keeps the length, leaves no ASCII upper-case letter and keeps every other character |
| Text.ContainsIff | context/ChatContext.js:261 | `includes` holds exactly when the needle occurs at some index |
| Text.ConcatAppend | context/ChatContext.js:168 | accumulating two batches of fragments gives the concatenation of the two texts |
| Text.ConcatStep | context/ChatContext.js:168 | after fragment k the accumulated text is the text before it plus fragment k |
| MessageModel.ParseRole | models/Message.js:10-14 | a stored role is exactly one of `user`, `assistant`, `system`; anything else is rejected |
| MessageModel.ParseRoleName | models/Message.js:10-14 | every role reads back as itself |
| MessageModel.ValidateMessage | models/Message.js:1-30 | a document is accepted iff `conversationId` is present, `content` is a non-empty string and the role is in the enumeration; fields are copied; `createdAt` defaults to now; rejections name the failing paths |
| MessageModel.RevalidateRecord | models/Message.js:15-18 | re-saving a record succeeds exactly when its content is non-empty, and then leaves it unchanged |
| ConversationModel.PreSave | models/Conversation.js:32-34 | every save sets `updatedAt` to now and changes nothing else |
| ConversationModel.CreateConversation | models/Conversation.js:1-37 | `title` is required and defaults to `'New Chat'`; `userId` is optional; the count starts at 0; all three times are the creation time |
| Protocol.Delivered | app/api/chat/route.js:88-96 | a text stream reaches the client as a streaming reply with the `x-chat-id` header and its fragments, unbroken; an error reply carries its status, no header, and streams only if that status is ok |
| Store.FindMessage | app/api/chat/route.js:57-60 | `findOne({conversationId, id})`: the first matching record, and none exactly when no record matches |
| Store.ClientIdCountZero | app/api/chat/route.js:57-62 | no record with the client id exists exactly when the lookup finds none |
| Store.CountAppend | app/api/chat/route.js:33-45 | storing a record adds one to its conversation's count of records, and to its client id's count |
| Store.ClientIdCountAppendOther | app/api/chat/route.js:71-77 | storing a record under another conversation or client id leaves a client-id count unchanged |
| Store.CountOverwrite | app/api/chat/route.js:63-65 | overwriting a record in place keeps every conversation's count of records |
| Store.ClientIdCountOverwrite | app/api/chat/route.js:63-65 | overwriting a record in place keeps every client-id count |
| Store.UnreferencedCount | app/api/chat/route.js:26-28 | a fresh conversation id has no records |
| Store.AppendBumpedAgree | app/api/chat/route.js:42-45 | storing a record and incrementing its conversation's `messageCount` keeps counts equal to stored records |
| Store.CreatedAgree | models/Conversation.js:26-29 | a new conversation with count 0 keeps counts equal to stored records |
| Store.Store.constructor | models/Message.js:1-30 | the store starts empty |
| Store.Store.CreateConversation | models/Conversation.js:1-37 | `Conversation.create` writes the validated document under the fresh id, or nothing when the schema rejects it |
| Store.Store.CreateMessage | models/Message.js:1-30 | `Message.create` appends the validated record, or nothing when the schema rejects it |
| Store.Store.IncrementCount | app/api/chat/route.js:42-45 | `$inc messageCount` and `lastMessageAt` on the conversation, and `updatedAt` when asked; the save hook does not run |
| Store.Store.SaveMessage | app/api/chat/route.js:63-65 | overwrites content and `createdAt` of one record in place when the new content is non-empty |
| Store.Store.DeleteAllConversations | app/api/conversations/route.js:43 | empties the conversation collection |
| Store.Store.DeleteAllMessages | app/api/conversations/route.js:44 | empties the message collection |
| ChatRoute.LastMessage | app/api/chat/route.js:14 | the last message of the request, absent for an empty list |
| ChatRoute.Resolve | app/api/chat/route.js:19-22 | a truthy `chatId` the store holds resolves; a failing lookup is read as not found |
| ChatRoute.HandlePost | app/api/chat/route.js:10-97 | the handler's store writes and response are exactly those of the request specification `Post` |
| ChatRoute.OnFinish | app/api/chat/route.js:52-85 | finalisation writes exactly what `Finish` specifies, for the concatenated completion |
| ChatRoute.PostReusesResolved | app/api/chat/route.js:19-29 | a resolving `chatId` creates no conversation, and the stream reports that id |
| ChatRoute.PostCreatesConversation | app/api/chat/route.js:24-29 | otherwise exactly one conversation is created under the new id, titled from the last message; its count is 1 if the turn is saved and 0 if not; the stream reports it |
| ChatRoute.PostPersistsUserTurn | app/api/chat/route.js:31-46 | `saveUserMessage` defaulting to true: exactly one `user` record with the last message's content and client id is stored, and the count goes up by 1 |
| ChatRoute.PostSkipsUserTurn | app/api/chat/route.js:32 | with `saveUserMessage: false` no record is stored, no existing conversation changes, and a resolved request writes nothing |
| ChatRoute.PostResponseShape | app/api/chat/route.js:88-96 | the answer is a 500 error, or the completion stream whose `x-chat-id` names the resolved or created conversation, which is stored |
| ChatRoute.PostFaultIs500 | app/api/chat/route.js:93-96 | a store call that throws before the stream is returned gives status 500 |
| ChatRoute.PostKeepsCountsAgree | app/api/chat/route.js:31-46 | if counts equal stored records before a request, they still do after it, unless the `$inc` throws |
| ChatRoute.FinishUpdatesInPlace | app/api/chat/route.js:56-67 | when a record with the assistant id exists in the conversation, its content and `createdAt` are overwritten; nothing is added and no count changes |
| ChatRoute.FinishCreatesRecord | app/api/chat/route.js:70-84 | otherwise one assistant record with that client id is added, and the count, `lastMessageAt` and `updatedAt` are bumped |
| ChatRoute.FinishExistingAddsNothing | app/api/chat/route.js:56-67 | once a record with the assistant id exists, finalising never adds a record or changes a count |
| ChatRoute.FinishTwice | app/api/chat/route.js:56-77 | finalising twice with one assistant id adds nothing the second time; starting from none, exactly one such record results |
| ChatRoute.FinishKeepsCountsAgree | app/api/chat/route.js:70-84 | finalising keeps counts equal to stored records, unless the `$inc` throws |
| ConversationsRoute.MostRecentExists | app/api/conversations/route.js:10 | a non-empty set of conversations has a most recently updated one |
| ConversationsRoute.ExtractStep | app/api/conversations/route.js:10-16 | moving a most recent remaining conversation to the end of the listing keeps the listing ordered, distinct and faithful |
| ConversationsRoute.List | app/api/conversations/route.js:6-23 | GET lists every conversation exactly once, as its record with `id`, by `updatedAt` descending; a store failure gives 500 |
| ConversationsRoute.RequestedTitle | app/api/conversations/route.js:30 | `body.title \|\| 'New Chat'`: a missing or empty title becomes `'New Chat'` |
| ConversationsRoute.Create | app/api/conversations/route.js:25-37 | POST adds exactly one conversation under the new id with the requested title and count 0, or writes nothing and gives 500 |
| ConversationsRoute.ClearAll | app/api/conversations/route.js:39-50 | DELETE gives 200 exactly when both deletes succeed, and then both collections are empty and no message lookup finds anything; a failure gives 500; a failure in the second call leaves the conversations deleted and the messages kept; whichever call fails, counts that agreed with the stored messages still agree |
| ChatContext.WithContentTargets | context/ChatContext.js:244-248 | a content update touches only the messages with that id and sets exactly their content |
| ChatContext.WithRatingTargets | context/ChatContext.js:250-254 | a metadata update merges only the rating into the messages with that id |
| ChatContext.WithErrorMarkerTargets | context/ChatContext.js:175-179 | on failure the marker is appended to the target's existing content; nothing else changes |
| ChatContext.WithoutMessageTargets | context/ChatContext.js:256-258 | deleting removes exactly the messages with that id and keeps the rest in order |
| ChatContext.WithContentTwice | context/ChatContext.js:170-172 | of two content writes to one id only the second remains |
| ChatContext.WithContentOnlyLast | context/ChatContext.js:170-172 | writing the id that only the final message holds changes only that message |
| ChatContext.ErrorMarkerOnlyLast | context/ChatContext.js:177-179 | the same for the failure marker |
| ChatContext.IngestedIsConcat | context/ChatContext.js:161-172 | after k ≥ 1 fragments the assistant message holds the concatenation of those fragments; no other message changes; length and order are kept |
| ChatContext.IngestedLength | context/ChatContext.js:163-173 | reading the stream keeps the number of messages |
| ChatContext.SelectNothingClears | context/ChatContext.js:35-38 | selecting null empties the active messages and clears the upgrade flag |
| ChatContext.SelectDurableFetches | context/ChatContext.js:26-33 | selecting a 24-character id fetches its details, unless it was just upgraded to; then the flag is cleared instead |
| ChatContext.SelectOtherKeepsMessages | context/ChatContext.js:24-34 | selecting any other non-empty id fetches nothing and keeps the messages |
| ChatContext.PayloadChatId | context/ChatContext.js:124-125 | a temporary id is sent as an absent `chatId`; any other id is sent as is |
| ChatContext.ReceivedSettles | context/ChatContext.js:138-183 | whatever the reply, loading ends, no further request is sent and the message count is kept |
| ChatContext.FailureMarksMessage | context/ChatContext.js:138-143 | a rejected fetch, a non-ok status, a missing body or a null chat id appends the marker to the assistant message and changes nothing else but loading |
| ChatContext.UpgradeRepoints | context/ChatContext.js:145-157 | for any assistant id, with a temporary chat id and an `x-chat-id` header, exactly the entries holding the temporary id get the server id (length kept), the server id becomes current, no request is added, and a 24-character server id clears the flag instead of fetching |
| ChatContext.DurableIdKept | context/ChatContext.js:124-157 | an id of 20 or more characters is never rewritten: list, selection and flag are kept |
| ChatContext.BlankSendIgnored | context/ChatContext.js:186 | whitespace-only content changes no state and sends no request |
| ChatContext.SendStartsChat | context/ChatContext.js:192-205 | with no active chat, exactly one conversation is prepended and selected, titled by the 30-character rule, and the messages become the user message (plus the placeholder for a user send) |
| ChatContext.SendIssuesOneRequest | context/ChatContext.js:210-224 | a user send sends exactly one request: the earlier messages plus the user message, without the placeholder; a new chat's temporary id is sent as absent |
| ChatContext.ReceivedFillsLast | context/ChatContext.js:159-179 | a complete stream puts the concatenated fragments into the final message; a read that breaks after its fragments leaves that text plus the marker; a failure before the body appends the marker to its old content; the earlier messages stay |
| ChatContext.SentBeforeReply | context/ChatContext.js:192-219 | before the reply, the chat holds its earlier messages, then the user message, then the empty placeholder |
| ChatContext.PlaceholderIdFresh | context/ChatContext.js:189-211 | the placeholder's id differs from the user message's id |
| ChatContext.SentFillsLast | context/ChatContext.js:185-226 | a send ends with loading off and with the earlier messages and the user message followed by the placeholder filled as the reply allows: streamed text, text plus marker, or marker |
| ChatContext.SendFillsPlaceholder | context/ChatContext.js:185-226 | after a send: the earlier messages, the user message, then the assistant message holding the concatenated text on a complete stream, that text plus the marker when the read breaks, and only the marker when the reply fails before its body; loading is off |
| ChatContext.RegenerateIgnored | context/ChatContext.js:229-233 | an absent id, or one whose first holder is not an assistant message, changes nothing |
| ChatContext.RegeneratedMessages | context/ChatContext.js:228-241 | the regenerated message list is the in-place `''` reset of that id followed by the stream's write of the concatenated text, the marker appended on failure |
| ChatContext.RegenerateRequest | context/ChatContext.js:228-241 | regenerating an assistant message sends the messages strictly before it with `saveUserMessage: false` and keeps the list's length; messages with other ids are kept; the messages with that id end with the streamed text on a clean stream, the text plus the marker when the read breaks, and only the marker when the reply fails before its body (the `''` reset is overwritten or prefixed) |
| ChatContext.RenameTargets | context/ChatContext.js:73-88 | rename changes only the matching entries' titles, sends the PATCH, and refetches the list on failure |
| ChatContext.DeleteTargets | context/ChatContext.js:90-106 | delete removes exactly the entries with that id, keeps the others, and clears selection and messages iff it was current |
| ChatContext.ClearAllEmpties | context/ChatContext.js:108-119 | clear-all empties list, selection and messages, and sends the DELETE |
| ChatContext.NewChatClears | context/ChatContext.js:66-71 | new chat: no selection, no messages, empty query, reset counter plus one, list untouched |
| ChatContext.FilteredMatches | context/ChatContext.js:260-262 | an entry is shown iff the lower-cased query occurs in its lower-cased title |
| ChatContext.EmptyQueryShowsAll | context/ChatContext.js:260-262 | the empty query shows the whole list in order |
| ChatContext.ActiveChat | context/ChatContext.js:264 | the first entry with the current id, and none when nothing is selected or no entry has it |
| ChatContext.ChatSession.constructor | context/ChatContext.js:9-20 | the initial state, with the list fetched on mount |
| ChatContext.ChatSession.RunSelectionEffect | context/ChatContext.js:23-39 | the selection effect, as `SelectionEffect` |
| ChatContext.ChatSession.Settle | context/ChatContext.js:23-39 | the effect runs only when the id changed |
| ChatContext.ChatSession.SetCurrentChatId | context/ChatContext.js:11 | `setCurrentChatId` followed by its effect |
| ChatContext.ChatSession.ApplyConversations | context/ChatContext.js:41-51 | an ok list reply replaces the list; anything else changes nothing |
| ChatContext.ChatSession.ApplyChatDetails | context/ChatContext.js:53-64 | an ok detail reply replaces the messages; anything else changes nothing |
| ChatContext.ChatSession.CreateNewChat | context/ChatContext.js:66-71 | moves the state as `NewChatStarted` |
| ChatContext.ChatSession.RenameChat | context/ChatContext.js:73-88 | moves the state as `RenamedChat` |
| ChatContext.ChatSession.DeleteChat | context/ChatContext.js:90-106 | moves the state as `DeletedChat` |
| ChatContext.ChatSession.ClearAllChats | context/ChatContext.js:108-119 | moves the state as `ClearedAll` |
| ChatContext.ChatSession.OpenStream | context/ChatContext.js:121-136 | loading on, and the request sent unless the chat id is null |
| ChatContext.ChatSession.ReceiveStream | context/ChatContext.js:138-182 | the read loop: after each fragment the assistant message holds all text so far (loop invariant); the end state is as `Received` |
| ChatContext.ChatSession.StreamResponse | context/ChatContext.js:121-183 | the whole stream, as `Streamed` |
| ChatContext.ChatSession.Submit | context/ChatContext.js:186-219 | the synchronous part of a send, as `Submitted` |
| ChatContext.ChatSession.AddMessage | context/ChatContext.js:185-226 | a send, as `Sent` |
| ChatContext.ChatSession.RegenerateChatResponse | context/ChatContext.js:228-242 | regeneration, as `Regenerated` |
| ChatContext.ChatSession.UpdateMessage | context/ChatContext.js:244-248 | only the messages' content for that id changes |
| ChatContext.ChatSession.UpdateMessageRating | context/ChatContext.js:250-254 | only the rating for that id changes |
| ChatContext.ChatSession.DeleteMessage | context/ChatContext.js:256-258 | only the messages with that id are removed |
| ChatContext.ChatSession.SetSearchQuery | context/ChatContext.js:12 | only the query changes |
| ChatContainer.RegenerateTarget | components/ChatContainer.jsx:20-31 | nothing for an empty chat; an explicit id as given; otherwise the last message iff it is an assistant message |
| ChatContainer.HandleRegenerate | components/ChatContainer.jsx:20-31 | an empty chat is left exactly as it is; with no target nothing changes; otherwise the target is regenerated in the current chat |
| ChatContainer.RegenerateLast | components/ChatContainer.jsx:26-29 | without an id, a last assistant message is regenerated from the messages before it, the earlier messages stay, and it ends with the streamed text or, on an early failure, the marker; a last message of another role leaves the chat alone |
| ChatContainer.HandleSendIsUserTurn | components/ChatContainer.jsx:41-43 | a send always uses role `'user'`: the earlier messages, the user message, then the placeholder; the request posts the user message without the placeholder |
| ChatContainer.ActionsFollowSend | components/ChatContainer.jsx:159-161 | while a send awaits its reply the last bubble is the empty placeholder and shows no actions, earlier non-user messages keep them; after the stream every non-user message shows them and no user message does |
| ChatContainer.ThinkingWhileWaiting | components/ChatContainer.jsx:164 | "Thinking..." shows between a send and its first text |
| ChatContainer.ThinkingEndsWithText | components/ChatContainer.jsx:164 | once the streamed text is non-empty it hides, though loading continues |
| ChatContainer.NoThinkingAfterStream | components/ChatContainer.jsx:164 | after the stream, whatever the reply, it is hidden |
| MessageBubble.LikeToggle | components/MessageBubble.jsx:66-69 | `'liked'` becomes null, any other rating becomes `'liked'` |
| MessageBubble.DislikeToggle | components/MessageBubble.jsx:71-74 | `'disliked'` becomes null, any other rating becomes `'disliked'` |
| MessageBubble.LikeTwice | components/MessageBubble.jsx:66-69 | liking twice restores a like and otherwise ends with no rating; liking a disliked message likes it |
| MessageBubble.DislikeTwice | components/MessageBubble.jsx:71-74 | disliking twice restores a dislike and otherwise ends with no rating |
| MessageBubble.Bubble.constructor | components/MessageBubble.jsx:36-42 | not editing, draft is the content, not copied, menu closed |
| MessageBubble.Bubble.EditStart | components/MessageBubble.jsx:51-54 | the draft becomes the current content and editing starts |
| MessageBubble.Bubble.EditChange | components/MessageBubble.jsx:106 | only the draft changes |
| MessageBubble.Bubble.EditSave | components/MessageBubble.jsx:56-59 | the draft is written to this message id and editing ends |
| MessageBubble.Bubble.EditCancel | components/MessageBubble.jsx:61-64 | editing ends, the draft resets to the content, the session is untouched |
| MessageBubble.Bubble.Like | components/MessageBubble.jsx:66-69 | merges only the toggled like rating into this message |
| MessageBubble.Bubble.Dislike | components/MessageBubble.jsx:71-74 | merges only the toggled dislike rating into this message |
| MessageBubble.Bubble.OpenMenu | components/MessageBubble.jsx:76-78 | the menu opens |
| MessageBubble.Bubble.CloseMenu | components/MessageBubble.jsx:80-82 | the menu closes |
| MessageBubble.Bubble.Delete | components/MessageBubble.jsx:84-87 | this message id is removed from the chat and the menu closes |
| MessageBubble.Bubble.Copy | components/MessageBubble.jsx:44-49 | the copied flag is raised and the menu closes |
| MessageBubble.Bubble.CopyTimerFires | components/MessageBubble.jsx:47 | the copied flag drops |
| MessageInput.InputBox.constructor | components/MessageInput.jsx:7 | the input starts empty |
| MessageInput.InputBox.Change | components/MessageInput.jsx:47 | the input becomes the typed value |
| MessageInput.InputBox.HandleSend | components/MessageInput.jsx:9-14 | blank input is never sent and is kept; other input is sent exactly as typed and the box becomes `''` |
| MessageInput.InputBox.HandleKeyDown | components/MessageInput.jsx:16-21 | Enter without Shift attempts a send; Shift+Enter and other keys send nothing and change nothing |
| Sidebar.PartitionExact | components/Sidebar.jsx:206-220 | every conversation falls in exactly one of recent and older |
| Sidebar.UndatedPlacement | components/Sidebar.jsx:206-216 | a missing date is recent; an unparseable date counts as time 0; a date is recent iff after the cutoff |
| Sidebar.PartitionKeepsOrder | components/Sidebar.jsx:213-220 | both groups keep the list's order |
| Sidebar.ChatActionsFollowSelection | components/Sidebar.jsx:295 | after a chat is selected the list is unchanged and exactly the chats with that id show delete/edit, none while a rename is open |
| Sidebar.SidebarState.constructor | components/Sidebar.jsx:29-32 | search closed, nothing being renamed, empty draft, dialog closed |
| Sidebar.SidebarState.SelectChat | components/Sidebar.jsx:34-38 | ignored while a rename is open; otherwise selects the chat |
| Sidebar.SidebarState.EditStart | components/Sidebar.jsx:40-44 | the rename opens on this chat with its title as the draft |
| Sidebar.SidebarState.EditTitleChange | components/Sidebar.jsx:271 | only the draft changes |
| Sidebar.SidebarState.RenameSubmit | components/Sidebar.jsx:46-54 | a non-blank draft renames to the trimmed draft; either way editing ends and the draft becomes `''` |
| Sidebar.SidebarState.RenameKeyDown | components/Sidebar.jsx:56-63 | Enter submits; Escape ends editing without renaming; other keys change nothing |
| Sidebar.SidebarState.DeleteClick | components/Sidebar.jsx:65-68 | deletes that chat |
| Sidebar.SidebarState.ClearAllClick | components/Sidebar.jsx:70-72 | only opens the dialog |
| Sidebar.SidebarState.ConfirmClear | components/Sidebar.jsx:74-78 | clears all chats and closes the dialog |
| Sidebar.SidebarState.CancelClear | components/Sidebar.jsx:80-82 | closes the dialog without clearing |
| Sidebar.SidebarState.OpenSearch | components/Sidebar.jsx:137 | the search box opens |
| Sidebar.SidebarState.CloseSearch | components/Sidebar.jsx:177-180 | the search box closes and the query becomes `''` |

## Left out

- Rendering, layout, styling, drawers, `theme.js`, `app/page.js` and `app/layout.js`: presentation only. `scrollToBottom` and the random suggestion are left out for the same reason.
- The detail endpoint `app/api/conversations/[id]/route.js` (GET, PATCH, DELETE) is not part of this model. The session only records the requests it sends there.
- The language-model call `streamText` is a foreign call. Its output is an arbitrary fragment sequence, and the final text is their concatenation. `maxDuration` is left out.
- `fetch`, `Response` and `TextDecoder` are left out. Fragments arrive as decoded strings. A reply is a status, an optional `x-chat-id` header and an optional body. The body may reject after its fragments.
- `dbConnect`, ObjectId parsing and casting are left out. A malformed `chatId` shows up only as a lookup that fails to "not found". Store ids, `_id`, `__v` and error message texts are abstract.
- Request-body parsing (`req.json()`) is left out: each handler takes its body already parsed.
- Concurrency is left out:
  - `onFinish` runs as a separate step after the response;
  - concurrent finalises, which could duplicate records, are not modelled;
  - React's batching and stale closures are not modelled;
  - effects run at the point in the operation where React would run them.
  - A list or detail reply that arrives after the selection has moved on is not modelled.
- `Date` values are abstract. Times are integers in milliseconds. `new Date().toISOString()` takes the same clock reading as the id next to it. The Sidebar's `Date.parse` becomes the `Timestamp` cases.
- `addMessageToCurrentChat`'s optional third argument is not modelled. The component code never passes it, so the active chat is always `currentChatId`.
- `updateMessageMetadata` is modelled for the only metadata the code passes, `{rating}`. The unused `chatId` arguments of it and of `deleteMessage` are dropped.
- `navigator.clipboard` and the 2-second timer are left out. `Copy` raises the flag, and `CopyTimerFires` is the timer's callback.
- Sidebar's mobile `onClose`, and the blur that also submits the rename field, are left out. The new-chat button that also closes the search box is left out too: it is `CreateNewChat` plus closing the box.
- Text.LooksNumeric: `!isNaN(chatId)` is modelled for decimal numerals and the empty string only. JavaScript's `Number` also accepts signs, decimals, exponents, hexadecimal and surrounding whitespace. Clock ids and 24-character store ids are classified exactly as in JavaScript.
- Text.LowerChar: `toLowerCase` is modelled for ASCII letters only.
- ChatContext.SendIssuesOneRequest: stated for clock readings below 10^19 ms. A larger reading gives a 20-digit id that is not temporary.
- ChatContainer.HandleSendIsUserTurn: stated for clock readings below 10^19 ms, for the same reason as `ChatContext.SendIssuesOneRequest`, whose request clause it reuses.
- Text.DerivedTitle: lengths are counted in Unicode code points, while JavaScript's `length` and `slice` count UTF-16 code units. Titles therefore differ when the first message holds characters outside the Basic Multilingual Plane, such as emoji: 16 emoji are 32 units, which JavaScript cuts to 15 emoji plus `...` and the model keeps whole. A cut through a surrogate pair cannot be written as a Dafny string.
- ChatContext.SendStartsChat: its title clauses use `Text.DerivedTitle`, so they share its code-point counting.
- ChatRoute.PostCreatesConversation: its title clause uses `Text.DerivedTitle`, so it shares its code-point counting.
- ChatRoute.SavesUserTurn: `saveUserMessage` is an optional boolean, so only an explicit `false` skips the save. The route tests it for truthiness, so `null`, `0` or `""` would skip it too. The client only ever sends `false` or leaves the field out.
- Sidebar.SidebarState.RenameSubmit and Sidebar.SidebarState.RenameKeyDown require a rename in progress. The field they handle exists only while one is.
- ConversationsRoute.List: conversations with equal `updatedAt` may be listed in any order. MongoDB's tie order is not modelled.
