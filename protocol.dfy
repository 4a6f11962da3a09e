/**
 * What travels between the browser session and the chat relay: the messages and conversation
 * summaries the client holds, the request body it posts, the response the relay produces and
 * the reply the client's `fetch` observes.
 */
module Protocol {
  import opened Wrappers
  import opened MessageModel

  /** A message's rating; `null` and a missing rating behave the same everywhere. */
  datatype Rating = Unrated | Liked | Disliked

  /** A message as the client holds and sends it: `{id, role, content, createdAt, rating}`. */
  datatype ChatMessage = ChatMessage(id: string, role: Role, content: string, createdAt: int, rating: Rating)

  /** A `createdAt` as the sidebar sees it: missing or empty, not a parseable date, or a time. */
  datatype Timestamp = NoTimestamp | Unparseable | At(ms: int)

  /** An entry of the conversation list. */
  datatype ChatSummary = ChatSummary(id: string, title: string, createdAt: Timestamp)

  /** The JSON body of `POST /api/chat`; an `undefined` field is absent. */
  datatype ChatRequest = ChatRequest(
    messages: seq<ChatMessage>,
    chatId: Option<string>,
    assistantMessageId: Option<string>,
    saveUserMessage: Option<bool>)

  /** A request the client puts on the network. */
  datatype Request =
    | ListConversations                       // GET /api/conversations
    | GetConversation(id: string)             // GET /api/conversations/:id
    | SendChat(body: ChatRequest)             // POST /api/chat
    | RenameConversation(id: string, title: string)  // PATCH /api/conversations/:id
    | DeleteConversation(id: string)          // DELETE /api/conversations/:id
    | DeleteAllConversations                  // DELETE /api/conversations

  /** What the relay answers: a text stream carrying the `x-chat-id` header, or a JSON error. */
  datatype Response =
    | TextStream(chatId: string, fragments: seq<string>)
    | JsonError(status: int)

  /** A response body as read chunk by chunk; `breaks` means the read after the last chunk rejects. */
  datatype Body = Body(fragments: seq<string>, breaks: bool)

  /** What `fetch` yields: a rejection, or a status with its `x-chat-id` header and body. */
  datatype Reply =
    | NetworkFailure
    | Reply(status: int, chatIdHeader: Option<string>, body: Option<Body>)

  /** `response.ok`. */
  predicate IsOkStatus(status: int) {
    200 <= status <= 299
  }

  /** A reply the client reads as a stream: an ok status with a body. */
  predicate Streams(r: Reply) {
    r.Reply? && IsOkStatus(r.status) && r.body.Some?
  }

  /** The reply a relay response becomes when it reaches the client unbroken. */
  function Delivered(resp: Response): (r: Reply)
    ensures Streams(r) <==> (resp.TextStream? || IsOkStatus(resp.status))
    ensures resp.JsonError? ==> r.Reply? && r.status == resp.status && r.chatIdHeader.None?
    ensures resp.TextStream? ==> r.chatIdHeader == Some(resp.chatId) && r.body == Some(Body(resp.fragments, false))
  {
    match resp
    case TextStream(id, fragments) => Reply(200, Some(id), Some(Body(fragments, false)))
    case JsonError(status) => Reply(status, None, Some(Body(["{\"error\":...}"], false)))
  }
}
