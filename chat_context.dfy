/**
 * The browser-side chat session of context/ChatContext.js: the conversation list, the active
 * chat and its messages, the id-upgrade flag and the loading flag, together with the requests
 * the session puts on the network.
 *
 * Every operation is specified by a function on a `Session` snapshot; the `ChatSession` class
 * carries the same state in fields and each method is proved to move it as its function says.
 * React's state updates and effects are taken in the order the code issues them, one operation
 * at a time; a network answer is an explicit argument or a separate `Apply…` call.
 */
module ChatContext {
  import opened Wrappers
  import opened Seqs
  import opened Text
  import opened MessageModel
  import opened Protocol

  /** What a failed stream appends to the assistant message. */
  const ErrorMarker: string := "\n[Error generating response]"

  /** The length of a store id; only chats with such an id are fetched on selection. */
  const DurableIdLength: nat := 24

  /** A JavaScript-truthy optional string: present and not empty. */
  predicate Truthy(id: Option<string>) {
    id.Some? && id.value != ""
  }

  /** The session state, plus `outbox`: every request sent so far, oldest first. */
  datatype Session = Session(
    conversations: seq<ChatSummary>,
    currentMessages: seq<ChatMessage>,
    currentChatId: Option<string>,
    searchQuery: string,
    chatResetTrigger: nat,
    isLoading: bool,
    wasIdUpgraded: bool,
    outbox: seq<Request>)

  // ----- Per-element updates of the two lists -----

  function HasMessageId(id: string): ChatMessage -> bool {
    (m: ChatMessage) => m.id == id
  }

  function LacksMessageId(id: string): ChatMessage -> bool {
    (m: ChatMessage) => m.id != id
  }

  function HasChatId(id: string): ChatSummary -> bool {
    (c: ChatSummary) => c.id == id
  }

  function LacksChatId(id: string): ChatSummary -> bool {
    (c: ChatSummary) => c.id != id
  }

  /** `prev.map(m => m.id === id ? {...m, content} : m)`. */
  function WithContent(ms: seq<ChatMessage>, id: string, content: string): seq<ChatMessage> {
    MapWhere(ms, HasMessageId(id), (m: ChatMessage) => m.(content := content))
  }

  /** `prev.map(m => m.id === id ? {...m, rating} : m)`. */
  function WithRating(ms: seq<ChatMessage>, id: string, rating: Rating): seq<ChatMessage> {
    MapWhere(ms, HasMessageId(id), (m: ChatMessage) => m.(rating := rating))
  }

  /** The catch branch of the stream: the marker appended to each message with this id. */
  function WithErrorMarker(ms: seq<ChatMessage>, id: string): seq<ChatMessage> {
    MapWhere(ms, HasMessageId(id), (m: ChatMessage) => m.(content := m.content + ErrorMarker))
  }

  /** `prev.filter(m => m.id !== id)`. */
  function WithoutMessage(ms: seq<ChatMessage>, id: string): seq<ChatMessage> {
    Filter(ms, LacksMessageId(id))
  }

  /** `prev.map(chat => chat.id === id ? {...chat, title} : chat)`. */
  function Renamed(cs: seq<ChatSummary>, id: string, title: string): seq<ChatSummary> {
    MapWhere(cs, HasChatId(id), (c: ChatSummary) => c.(title := title))
  }

  /** The id upgrade: every entry holding `from` now holds `to`. */
  function Repointed(cs: seq<ChatSummary>, from: string, to: string): seq<ChatSummary> {
    MapWhere(cs, HasChatId(from), (c: ChatSummary) => c.(id := to))
  }

  /** `prev.filter(c => c.id !== id)`. */
  function WithoutChat(cs: seq<ChatSummary>, id: string): seq<ChatSummary> {
    Filter(cs, LacksChatId(id))
  }

  /** `after` is `before` with at most the messages carrying `id` changed, and those only in content or rating. */
  predicate OnlyTargetChanged(before: seq<ChatMessage>, after: seq<ChatMessage>, id: string) {
    && |after| == |before|
    && forall i :: 0 <= i < |before| ==>
         && after[i].id == before[i].id && after[i].role == before[i].role
         && after[i].createdAt == before[i].createdAt
         && (before[i].id != id ==> after[i] == before[i])
  }

  /** Editing a message's content touches only that message and sets exactly its content. */
  lemma WithContentTargets(ms: seq<ChatMessage>, id: string, content: string)
    ensures OnlyTargetChanged(ms, WithContent(ms, id, content), id)
    ensures forall i :: 0 <= i < |ms| && ms[i].id == id ==> WithContent(ms, id, content)[i] == ms[i].(content := content)
  {
  }

  /** A rating change merges only the rating into the message with this id. */
  lemma WithRatingTargets(ms: seq<ChatMessage>, id: string, rating: Rating)
    ensures OnlyTargetChanged(ms, WithRating(ms, id, rating), id)
    ensures forall i :: 0 <= i < |ms| && ms[i].id == id ==> WithRating(ms, id, rating)[i] == ms[i].(rating := rating)
  {
  }

  /** A failure keeps the text streamed so far and appends the marker to it. */
  lemma WithErrorMarkerTargets(ms: seq<ChatMessage>, id: string)
    ensures OnlyTargetChanged(ms, WithErrorMarker(ms, id), id)
    ensures forall i :: 0 <= i < |ms| && ms[i].id == id ==>
              WithErrorMarker(ms, id)[i] == ms[i].(content := ms[i].content + ErrorMarker)
  {
  }

  /** Deleting a message removes exactly the messages with that id and keeps the others in order. */
  lemma WithoutMessageTargets(ms: seq<ChatMessage>, id: string)
    ensures forall m :: m in WithoutMessage(ms, id) <==> m in ms && m.id != id
    ensures |WithoutMessage(ms, id)| + |Filter(ms, HasMessageId(id))| == |ms|
    ensures forall a, b :: Filter(a + b, LacksMessageId(id)) == WithoutMessage(a, id) + WithoutMessage(b, id)
  {
    FilterPartition(ms, LacksMessageId(id), HasMessageId(id));
    forall a, b {
      FilterConcat(a, b, LacksMessageId(id));
    }
  }

  /** Setting the same message's content twice leaves only the second write. */
  lemma WithContentTwice(ms: seq<ChatMessage>, id: string, a: string, b: string)
    ensures WithContent(WithContent(ms, id, a), id, b) == WithContent(ms, id, b)
  {
    var once := WithContent(ms, id, a);
    assert forall i :: 0 <= i < |ms| ==> WithContent(once, id, b)[i] == WithContent(ms, id, b)[i];
  }

  /** Writing the content of an id that only the final message carries changes only that message. */
  lemma WithContentOnlyLast(base: seq<ChatMessage>, last: ChatMessage, content: string)
    requires forall m :: m in base ==> m.id != last.id
    ensures WithContent(base + [last], last.id, content) == base + [last.(content := content)]
  {
    var r := WithContent(base + [last], last.id, content);
    assert forall i :: 0 <= i < |base| ==> (base + [last])[i] == base[i];
    assert forall i :: 0 <= i < |base| ==> r[i] == base[i];
  }

  /** The same for the failure marker. */
  lemma ErrorMarkerOnlyLast(base: seq<ChatMessage>, last: ChatMessage)
    requires forall m :: m in base ==> m.id != last.id
    ensures WithErrorMarker(base + [last], last.id) == base + [last.(content := last.content + ErrorMarker)]
  {
    var r := WithErrorMarker(base + [last], last.id);
    assert forall i :: 0 <= i < |base| ==> (base + [last])[i] == base[i];
    assert forall i :: 0 <= i < |base| ==> r[i] == base[i];
  }

  /**
   * The messages after the stream loop has read `fragments` one by one: each read sets the
   * assistant message's content to everything accumulated so far.
   */
  function Ingested(ms: seq<ChatMessage>, aid: string, fragments: seq<string>): seq<ChatMessage>
    decreases |fragments|
  {
    if fragments == [] then ms
    else WithContent(Ingested(ms, aid, fragments[..|fragments| - 1]), aid, Concat(fragments))
  }

  /**
   * After any positive number of fragments the assistant message holds their concatenation and
   * no other message has changed.
   */
  lemma {:induction false} IngestedIsConcat(ms: seq<ChatMessage>, aid: string, fragments: seq<string>)
    requires fragments != []
    ensures Ingested(ms, aid, fragments) == WithContent(ms, aid, Concat(fragments))
    ensures OnlyTargetChanged(ms, Ingested(ms, aid, fragments), aid)
    decreases |fragments|
  {
    var init := fragments[..|fragments| - 1];
    if init != [] {
      IngestedIsConcat(ms, aid, init);
      WithContentTwice(ms, aid, Concat(init), Concat(fragments));
    }
    WithContentTargets(ms, aid, Concat(fragments));
  }

  /** Reading the stream keeps the number of messages. */
  lemma IngestedLength(ms: seq<ChatMessage>, aid: string, fragments: seq<string>)
    ensures |Ingested(ms, aid, fragments)| == |ms|
  {
    if fragments != [] {
      IngestedIsConcat(ms, aid, fragments);
    }
  }

  // ----- Selection -----

  /** The effect of lines 23-39, run after the current chat id changed. */
  function SelectionEffect(s: Session): Session {
    if !Truthy(s.currentChatId) then s.(currentMessages := [], wasIdUpgraded := false)
    else if |s.currentChatId.value| != DurableIdLength then s
    else if s.wasIdUpgraded then s.(wasIdUpgraded := false)
    else s.(outbox := s.outbox + [GetConversation(s.currentChatId.value)])
  }

  /** The effect runs only when the id differs from `prevId`, the one it last ran for. */
  function Settled(s: Session, prevId: Option<string>): Session {
    if s.currentChatId == prevId then s else SelectionEffect(s)
  }

  /** `setCurrentChatId(id)` followed by the effect. */
  function Selected(s: Session, id: Option<string>): Session {
    Settled(s.(currentChatId := id), s.currentChatId)
  }

  /** Selecting nothing (null or the empty id) empties the active messages and clears the flag. */
  lemma SelectNothingClears(s: Session, id: Option<string>)
    requires !Truthy(id) && id != s.currentChatId
    ensures Selected(s, id).currentMessages == [] && !Selected(s, id).wasIdUpgraded
    ensures Selected(s, id).outbox == s.outbox && Selected(s, id).currentChatId == id
  {
  }

  /** Selecting a new store id fetches its details, unless it is the id just upgraded to. */
  lemma SelectDurableFetches(s: Session, id: string)
    requires |id| == DurableIdLength && Some(id) != s.currentChatId
    ensures !s.wasIdUpgraded ==> Selected(s, Some(id)).outbox == s.outbox + [GetConversation(id)]
    ensures s.wasIdUpgraded ==> Selected(s, Some(id)).outbox == s.outbox && !Selected(s, Some(id)).wasIdUpgraded
    ensures Selected(s, Some(id)).currentMessages == s.currentMessages
  {
  }

  /** Selecting any other non-empty id fetches nothing and keeps the messages. */
  lemma SelectOtherKeepsMessages(s: Session, id: string)
    requires id != "" && |id| != DurableIdLength
    ensures Selected(s, Some(id)) == s.(currentChatId := Some(id))
  {
  }

  // ----- Streaming -----

  /** `isTempId ? undefined : chatId`. */
  function PayloadChatId(chatId: string): (r: Option<string>)
    ensures r.None? <==> IsTemporaryId(chatId)
    ensures r.Some? ==> r.value == chatId
  {
    if IsTemporaryId(chatId) then None else Some(chatId)
  }

  /** The synchronous start of `streamResponse`: loading on, and the request sent unless `chatId` is null. */
  function Opened(s: Session, chatId: Option<string>, payload: seq<ChatMessage>, aid: string, save: Option<bool>): Session {
    var loading := s.(isLoading := true);
    if chatId.None? then loading
    else loading.(outbox := loading.outbox + [SendChat(ChatRequest(payload, PayloadChatId(chatId.value), Some(aid), save))])
  }

  /** The reply promotes a temporary chat id to the id in its `x-chat-id` header. */
  predicate Upgrades(chatId: string, reply: Reply) {
    Streams(reply) && IsTemporaryId(chatId) && Truthy(reply.chatIdHeader)
  }

  /** The state after the upgrade step, when it applies. */
  function Upgraded(s: Session, chatId: string, reply: Reply): Session {
    if Upgrades(chatId, reply) then
      var server := reply.chatIdHeader.value;
      Selected(s.(conversations := Repointed(s.conversations, chatId, server), wasIdUpgraded := true), Some(server))
    else s
  }

  /**
   * The rest of `streamResponse` once the reply is in: a null chat id, a rejected fetch, a
   * non-ok status or a missing body marks the assistant message as failed; otherwise the id is
   * upgraded if needed, the fragments are read and a read that rejects marks the message too.
   * Loading ends in every case.
   */
  function Received(s: Session, chatId: Option<string>, aid: string, reply: Reply): Session {
    if chatId.None? || !Streams(reply) then
      s.(currentMessages := WithErrorMarker(s.currentMessages, aid), isLoading := false)
    else
      var up := Upgraded(s, chatId.value, reply);
      var body := reply.body.value;
      var read := Ingested(up.currentMessages, aid, body.fragments);
      up.(currentMessages := if body.breaks then WithErrorMarker(read, aid) else read, isLoading := false)
  }

  /** The whole of `streamResponse`. */
  function Streamed(s: Session, chatId: Option<string>, payload: seq<ChatMessage>, aid: string, save: Option<bool>, reply: Reply): Session {
    Received(Opened(s, chatId, payload, aid, save), chatId, aid, reply)
  }

  /** A stream ends with loading off and sends no further request, whatever the reply. */
  lemma ReceivedSettles(s: Session, chatId: Option<string>, aid: string, reply: Reply)
    ensures !Received(s, chatId, aid, reply).isLoading
    ensures Received(s, chatId, aid, reply).outbox == s.outbox
    ensures |Received(s, chatId, aid, reply).currentMessages| == |s.currentMessages|
    ensures Received(s, chatId, aid, reply).searchQuery == s.searchQuery
  {
    if chatId.Some? && Streams(reply) {
      IngestedLength(Upgraded(s, chatId.value, reply).currentMessages, aid, reply.body.value.fragments);
    }
  }

  /**
   * A failure before the body is read appends the marker to the assistant message and changes
   * neither the list nor the selection.
   */
  lemma FailureMarksMessage(s: Session, chatId: Option<string>, aid: string, reply: Reply)
    requires chatId.None? || !Streams(reply)
    ensures Received(s, chatId, aid, reply) ==
              s.(currentMessages := WithErrorMarker(s.currentMessages, aid), isLoading := false)
  {
  }

  /**
   * The upgrade: the entries holding the temporary id, and only those, carry the server id, the
   * list keeps its length, the server id becomes current, and when it is a store id its
   * selection clears the flag instead of fetching.
   */
  lemma UpgradeRepoints(s: Session, chatId: string, aid: string, reply: Reply)
    requires Upgrades(chatId, reply)
    ensures var server := reply.chatIdHeader.value;
      var r := Received(s, Some(chatId), aid, reply);
      && r.conversations == Repointed(s.conversations, chatId, server)
      && |r.conversations| == |s.conversations|
      && (forall i :: 0 <= i < |s.conversations| ==>
            (s.conversations[i].id == chatId ==> r.conversations[i] == s.conversations[i].(id := server))
            && (s.conversations[i].id != chatId ==> r.conversations[i] == s.conversations[i]))
      && r.currentChatId == Some(server)
      && r.outbox == s.outbox
      && (|server| == DurableIdLength && Some(server) != s.currentChatId ==> !r.wasIdUpgraded)
  {
  }

  /** A chat id that is not temporary, such as a 24-character store id, is never rewritten. */
  lemma DurableIdKept(s: Session, chatId: string, aid: string, reply: Reply)
    requires |chatId| >= 20
    ensures Received(s, Some(chatId), aid, reply).conversations == s.conversations
    ensures Received(s, Some(chatId), aid, reply).currentChatId == s.currentChatId
    ensures Received(s, Some(chatId), aid, reply).wasIdUpgraded == s.wasIdUpgraded
  {
  }

  // ----- Sending -----

  /** The message the user typed, stamped with the clock reading `tUser`. */
  function UserMessage(role: Role, content: string, tUser: nat): ChatMessage {
    ChatMessage(DecimalString(tUser), role, content, tUser, Unrated)
  }

  /** The empty assistant message the stream fills; its id is one past the clock reading. */
  function Placeholder(tAssistant: nat): ChatMessage {
    ChatMessage(DecimalString(tAssistant + 1), Assistant, "", tAssistant, Unrated)
  }

  /** The conversation created locally when no chat is active. */
  function NewChat(content: string, tChat: nat): ChatSummary {
    ChatSummary(DecimalString(tChat), DerivedTitle(content), At(tChat))
  }

  /** The chat a send goes to: the active one, or the temporary id minted for it. */
  function SendChatId(s: Session, tChat: nat): string {
    if Truthy(s.currentChatId) then s.currentChatId.value else DecimalString(tChat)
  }

  /** The synchronous part of a non-blank send: the new chat if needed, the user message, the placeholder. */
  function Submitted(s: Session, role: Role, content: string, tUser: nat, tChat: nat, tAssistant: nat): Session {
    var userMsg := UserMessage(role, content, tUser);
    var posted :=
      if !Truthy(s.currentChatId) then
        s.(conversations := [NewChat(content, tChat)] + s.conversations,
           currentChatId := Some(DecimalString(tChat)),
           currentMessages := [userMsg])
      else s.(currentMessages := s.currentMessages + [userMsg]);
    if role == User then posted.(currentMessages := posted.currentMessages + [Placeholder(tAssistant)]) else posted
  }

  /** `addMessageToCurrentChat(role, content)` with clock readings `tUser`, `tChat`, `tAssistant`. */
  function Sent(s: Session, role: Role, content: string, tUser: nat, tChat: nat, tAssistant: nat, reply: Reply): Session {
    if IsBlank(content) then s
    else
      var posted := Submitted(s, role, content, tUser, tChat, tAssistant);
      if role != User then Settled(posted, s.currentChatId)
      else
        var chatId := Some(SendChatId(s, tChat));
        var aid := DecimalString(tAssistant + 1);
        var started := Opened(posted, chatId, s.currentMessages + [UserMessage(role, content, tUser)], aid, None);
        Received(Settled(started, s.currentChatId), chatId, aid, reply)
  }

  /** Blank content changes nothing and sends nothing. */
  lemma BlankSendIgnored(s: Session, role: Role, content: string, tUser: nat, tChat: nat, tAssistant: nat, reply: Reply)
    requires forall i :: 0 <= i < |content| ==> IsJsWhitespace(content[i])
    ensures Sent(s, role, content, tUser, tChat, tAssistant, reply) == s
  {
    BlankIffAllWhitespace(content);
  }

  /**
   * With no active chat, a send prepends exactly one conversation, titled from the content,
   * selects it and starts the message list afresh.
   */
  lemma SendStartsChat(s: Session, role: Role, content: string, tUser: nat, tChat: nat, tAssistant: nat)
    requires !IsBlank(content) && !Truthy(s.currentChatId)
    ensures var r := Submitted(s, role, content, tUser, tChat, tAssistant);
      && r.conversations == [NewChat(content, tChat)] + s.conversations
      && r.currentChatId == Some(DecimalString(tChat))
      && r.currentMessages == [UserMessage(role, content, tUser)] + (if role == User then [Placeholder(tAssistant)] else [])
      && (|content| <= TitleLength ==> r.conversations[0].title == content)
      && (|content| > TitleLength ==> r.conversations[0].title == content[..TitleLength] + "...")
  {
    var t := DerivedTitle(content);
    if |content| > TitleLength {
      assert t == t[..TitleLength] + t[TitleLength..];
    }
  }

  /**
   * A non-blank user send with readings below `10^19` ms sends exactly one request: the
   * messages held before the call plus the user message, without the placeholder, addressed
   * to the active store id or, for a temporary chat, to no chat.
   */
  lemma SendIssuesOneRequest(s: Session, content: string, tUser: nat, tChat: nat, tAssistant: nat, reply: Reply)
    requires !IsBlank(content) && tChat < Pow10(19)
    ensures var chatId := SendChatId(s, tChat);
      Sent(s, User, content, tUser, tChat, tAssistant, reply).outbox ==
        s.outbox + [SendChat(ChatRequest(s.currentMessages + [UserMessage(User, content, tUser)],
                                         PayloadChatId(chatId), Some(DecimalString(tAssistant + 1)), None))]
    ensures !Truthy(s.currentChatId) ==> PayloadChatId(SendChatId(s, tChat)).None?
  {
    var chatId := SendChatId(s, tChat);
    var aid := DecimalString(tAssistant + 1);
    var posted := Submitted(s, User, content, tUser, tChat, tAssistant);
    var started := Opened(posted, Some(chatId), s.currentMessages + [UserMessage(User, content, tUser)], aid, None);
    if !Truthy(s.currentChatId) {
      ClockIdIsTemporary(tChat);
      assert Settled(started, s.currentChatId) == started;
    }
    ReceivedSettles(Settled(started, s.currentChatId), Some(chatId), aid, reply);
  }

  /** The messages a send builds on: the active chat's, or none for a new chat. */
  function SendBase(s: Session): seq<ChatMessage> {
    if Truthy(s.currentChatId) then s.currentMessages else []
  }

  /**
   * A reply read to the end leaves the messages before the assistant message alone and puts
   * the concatenated fragments into it; a read that breaks after its fragments leaves that text
   * plus the marker; a reply that fails before the body leaves it holding its old content plus
   * the marker.
   */
  lemma ReceivedFillsLast(s: Session, chatId: string, base: seq<ChatMessage>, last: ChatMessage, reply: Reply)
    requires s.currentMessages == base + [last]
    requires forall m :: m in base ==> m.id != last.id
    ensures var r := Received(s, Some(chatId), last.id, reply);
      && (Streams(reply) && !reply.body.value.breaks ==>
            r.currentMessages == base + [last.(content := if reply.body.value.fragments == [] then last.content
                                                          else Concat(reply.body.value.fragments))])
      && (Streams(reply) && reply.body.value.breaks ==>
            r.currentMessages == base + [last.(content := (if reply.body.value.fragments == [] then last.content
                                                           else Concat(reply.body.value.fragments)) + ErrorMarker)])
      && (!Streams(reply) ==> r.currentMessages == base + [last.(content := last.content + ErrorMarker)])
  {
    if !Streams(reply) {
      ErrorMarkerOnlyLast(base, last);
    } else {
      var up := Upgraded(s, chatId, reply);
      assert up.currentMessages == base + [last];
      var fragments := reply.body.value.fragments;
      if fragments != [] {
        IngestedIsConcat(base + [last], last.id, fragments);
        WithContentOnlyLast(base, last, Concat(fragments));
        ErrorMarkerOnlyLast(base, last.(content := Concat(fragments)));
      } else {
        ErrorMarkerOnlyLast(base, last);
      }
    }
  }

  /** Before the reply is in, a user send holds the earlier messages, the user message and the placeholder. */
  lemma SentBeforeReply(s: Session, content: string, tUser: nat, tChat: nat, tAssistant: nat)
    ensures var started := Opened(Submitted(s, User, content, tUser, tChat, tAssistant), Some(SendChatId(s, tChat)),
                                  s.currentMessages + [UserMessage(User, content, tUser)], DecimalString(tAssistant + 1), None);
      Settled(started, s.currentChatId).currentMessages == SendBase(s) + [UserMessage(User, content, tUser), Placeholder(tAssistant)]
  {
  }

  /** The placeholder's id differs from the user message's, since the clock does not run backwards. */
  lemma PlaceholderIdFresh(role: Role, content: string, tUser: nat, tAssistant: nat)
    requires tUser <= tAssistant
    ensures UserMessage(role, content, tUser).id != Placeholder(tAssistant).id
  {
    if DecimalString(tUser) == DecimalString(tAssistant + 1) {
      DecimalStringInjective(tUser, tAssistant + 1);
    }
  }

  /** A non-blank user send is the reply handling applied to the state right after the request. */
  lemma SentUnfolds(s: Session, content: string, tUser: nat, tChat: nat, tAssistant: nat, reply: Reply)
    requires !IsBlank(content)
    ensures var started := Opened(Submitted(s, User, content, tUser, tChat, tAssistant), Some(SendChatId(s, tChat)),
                                  s.currentMessages + [UserMessage(User, content, tUser)], DecimalString(tAssistant + 1), None);
      Sent(s, User, content, tUser, tChat, tAssistant, reply) ==
        Received(Settled(started, s.currentChatId), Some(SendChatId(s, tChat)), DecimalString(tAssistant + 1), reply)
  {
  }

  /**
   * A user send ends with loading off and with the earlier messages and the user message
   * followed by the placeholder as `ReceivedFillsLast` leaves it.
   */
  lemma SentFillsLast(s: Session, content: string, tUser: nat, tChat: nat, tAssistant: nat, reply: Reply)
    requires !IsBlank(content) && tUser <= tAssistant
    requires forall m :: m in s.currentMessages ==> m.id != DecimalString(tAssistant + 1)
    ensures var r := Sent(s, User, content, tUser, tChat, tAssistant, reply);
      var base := SendBase(s) + [UserMessage(User, content, tUser)];
      var ph := Placeholder(tAssistant);
      && !r.isLoading
      && (Streams(reply) && !reply.body.value.breaks ==>
            r.currentMessages == base + [ph.(content := if reply.body.value.fragments == [] then ph.content
                                                        else Concat(reply.body.value.fragments))])
      && (Streams(reply) && reply.body.value.breaks ==>
            r.currentMessages == base + [ph.(content := (if reply.body.value.fragments == [] then ph.content
                                                         else Concat(reply.body.value.fragments)) + ErrorMarker)])
      && (!Streams(reply) ==> r.currentMessages == base + [ph.(content := ph.content + ErrorMarker)])
  {
    var user := UserMessage(User, content, tUser);
    var ph := Placeholder(tAssistant);
    PlaceholderIdFresh(User, content, tUser, tAssistant);
    var base := SendBase(s) + [user];
    assert forall m :: m in base ==> m.id != ph.id;
    var chatId := SendChatId(s, tChat);
    var started := Opened(Submitted(s, User, content, tUser, tChat, tAssistant), Some(chatId),
                          s.currentMessages + [user], ph.id, None);
    var settled := Settled(started, s.currentChatId);
    SentBeforeReply(s, content, tUser, tChat, tAssistant);
    assert settled.currentMessages == base + [ph];
    SentUnfolds(s, content, tUser, tChat, tAssistant, reply);
    ReceivedSettles(settled, Some(chatId), ph.id, reply);
    ReceivedFillsLast(settled, chatId, base, ph, reply);
  }

  /**
   * A user send whose reply streams `fragments` to the end leaves the earlier messages, then the
   * user message, then the assistant message holding the concatenated fragments; a read that
   * breaks after its fragments leaves that text followed by the error marker; a reply that
   * fails before the body leaves the assistant message holding only the error marker. The
   * assistant id is fresh because the clock does not run backwards.
   */
  lemma SendFillsPlaceholder(s: Session, content: string, tUser: nat, tChat: nat, tAssistant: nat, reply: Reply)
    requires !IsBlank(content) && tUser <= tAssistant
    requires forall m :: m in s.currentMessages ==> m.id != DecimalString(tAssistant + 1)
    ensures var r := Sent(s, User, content, tUser, tChat, tAssistant, reply);
      && !r.isLoading
      && (Streams(reply) && !reply.body.value.breaks ==>
            r.currentMessages == SendBase(s) + [UserMessage(User, content, tUser),
                                                Placeholder(tAssistant).(content := Concat(reply.body.value.fragments))])
      && (Streams(reply) && reply.body.value.breaks ==>
            r.currentMessages == SendBase(s) + [UserMessage(User, content, tUser),
                                                Placeholder(tAssistant).(content := Concat(reply.body.value.fragments) + ErrorMarker)])
      && (!Streams(reply) ==>
            r.currentMessages == SendBase(s) + [UserMessage(User, content, tUser),
                                                Placeholder(tAssistant).(content := ErrorMarker)])
  {
    var user := UserMessage(User, content, tUser);
    var ph := Placeholder(tAssistant);
    var base := SendBase(s) + [user];
    SentFillsLast(s, content, tUser, tChat, tAssistant, reply);
    if Streams(reply) {
      var text := Concat(reply.body.value.fragments);
      assert reply.body.value.fragments == [] ==> text == ph.content;
      assert base + [ph.(content := text)] == SendBase(s) + [user, ph.(content := text)];
      assert base + [ph.(content := text + ErrorMarker)] == SendBase(s) + [user, ph.(content := text + ErrorMarker)];
    } else {
      assert ph.content + ErrorMarker == ErrorMarker;
      assert base + [ph.(content := ErrorMarker)] == SendBase(s) + [user, ph.(content := ErrorMarker)];
    }
  }

  // ----- Regenerating -----

  /** `regenerateChatResponse(chatId, messageId)`. */
  function Regenerated(s: Session, chatId: Option<string>, messageId: string, reply: Reply): Session {
    match FindFirst(s.currentMessages, HasMessageId(messageId))
    case None => s
    case Some(i) =>
      if s.currentMessages[i].role != Assistant then s
      else
        var cleared := s.(currentMessages := WithContent(s.currentMessages, messageId, ""));
        Streamed(cleared, chatId, s.currentMessages[..i], messageId, Some(false), reply)
  }

  /** A message id that is absent, or whose first holder is not an assistant message, changes nothing. */
  lemma RegenerateIgnored(s: Session, chatId: Option<string>, messageId: string, reply: Reply)
    requires (forall m :: m in s.currentMessages ==> m.id != messageId)
          || (exists i :: 0 <= i < |s.currentMessages| && s.currentMessages[i].id == messageId
                && s.currentMessages[i].role != Assistant
                && forall j :: 0 <= j < i ==> s.currentMessages[j].id != messageId)
    ensures Regenerated(s, chatId, messageId, reply) == s
  {
    var found := FindFirst(s.currentMessages, HasMessageId(messageId));
    if found.Some? {
      var i :| 0 <= i < |s.currentMessages| && s.currentMessages[i].id == messageId
                && s.currentMessages[i].role != Assistant
                && forall j :: 0 <= j < i ==> s.currentMessages[j].id != messageId;
      assert found.value == i;
    }
  }

  /**
   * The messages after regenerating the assistant message at `i` (its id's first holder): every
   * message with that id is first reset to `''` and then receives the stream exactly as a send's
   * placeholder does.
   */
  lemma RegeneratedMessages(s: Session, chatId: string, i: nat, reply: Reply)
    requires i < |s.currentMessages| && s.currentMessages[i].role == Assistant
    requires forall j :: 0 <= j < i ==> s.currentMessages[j].id != s.currentMessages[i].id
    ensures var ms := s.currentMessages;
      var id := ms[i].id;
      Regenerated(s, Some(chatId), id, reply).currentMessages ==
        if !Streams(reply) then WithErrorMarker(WithContent(ms, id, ""), id)
        else if reply.body.value.breaks then WithErrorMarker(WithContent(ms, id, Concat(reply.body.value.fragments)), id)
        else WithContent(ms, id, Concat(reply.body.value.fragments))
  {
    var ms := s.currentMessages;
    var id := ms[i].id;
    var found := FindFirst(ms, HasMessageId(id));
    assert HasMessageId(id)(ms[i]);
    assert found == Some(i);
    var cleared := s.(currentMessages := WithContent(ms, id, ""));
    var started := Opened(cleared, Some(chatId), ms[..i], id, Some(false));
    assert Regenerated(s, Some(chatId), id, reply) == Received(started, Some(chatId), id, reply);
    if Streams(reply) {
      var up := Upgraded(started, chatId, reply);
      assert up.currentMessages == cleared.currentMessages;
      var fragments := reply.body.value.fragments;
      if fragments == [] {
        WithContentTwice(ms, id, "", "");
      } else {
        IngestedIsConcat(cleared.currentMessages, id, fragments);
        WithContentTwice(ms, id, "", Concat(fragments));
      }
    }
  }

  /**
   * Regenerating the assistant message at `i` (its id's first holder) sends the messages
   * strictly before it with `saveUserMessage: false` and keeps the list's length. Every message
   * with another id is kept; every message with that id ends holding the new text on a clean
   * stream, the new text and the marker when the read breaks, and only the marker when the
   * reply fails before its body.
   */
  lemma RegenerateRequest(s: Session, chatId: string, i: nat, reply: Reply)
    requires i < |s.currentMessages| && s.currentMessages[i].role == Assistant
    requires forall j :: 0 <= j < i ==> s.currentMessages[j].id != s.currentMessages[i].id
    ensures var ms := s.currentMessages;
      var id := ms[i].id;
      var r := Regenerated(s, Some(chatId), id, reply);
      && r.outbox == s.outbox + [SendChat(ChatRequest(ms[..i], PayloadChatId(chatId), Some(id), Some(false)))]
      && |r.currentMessages| == |ms|
      && !r.isLoading
      && (forall k :: 0 <= k < |ms| && ms[k].id != id ==> r.currentMessages[k] == ms[k])
      && (Streams(reply) && !reply.body.value.breaks ==>
            forall k :: 0 <= k < |ms| && ms[k].id == id ==>
              r.currentMessages[k] == ms[k].(content := Concat(reply.body.value.fragments)))
      && (Streams(reply) && reply.body.value.breaks ==>
            forall k :: 0 <= k < |ms| && ms[k].id == id ==>
              r.currentMessages[k] == ms[k].(content := Concat(reply.body.value.fragments) + ErrorMarker))
      && (!Streams(reply) ==>
            forall k :: 0 <= k < |ms| && ms[k].id == id ==> r.currentMessages[k] == ms[k].(content := ErrorMarker))
  {
    var ms := s.currentMessages;
    var id := ms[i].id;
    var found := FindFirst(ms, HasMessageId(id));
    assert HasMessageId(id)(ms[i]);
    assert found == Some(i);
    var cleared := s.(currentMessages := WithContent(ms, id, ""));
    var started := Opened(cleared, Some(chatId), ms[..i], id, Some(false));
    ReceivedSettles(started, Some(chatId), id, reply);
    RegeneratedMessages(s, chatId, i, reply);
    if !Streams(reply) {
      assert forall k :: 0 <= k < |ms| && ms[k].id == id ==> "" + ErrorMarker == ErrorMarker;
    }
  }

  // ----- The conversation list -----

  /** `createNewChat`: no selection, no query, no messages, and the reset counter advanced. */
  function NewChatStarted(s: Session): Session {
    Settled(s.(currentChatId := None, searchQuery := "", currentMessages := [],
               chatResetTrigger := s.chatResetTrigger + 1), s.currentChatId)
  }

  /** The request a failing client call adds: the list is fetched again. */
  function Refetch(fails: bool): seq<Request> {
    if fails then [ListConversations] else []
  }

  /** `renameChat(id, title)`; `fails` means the PATCH rejects. */
  function RenamedChat(s: Session, id: string, title: string, fails: bool): Session {
    s.(conversations := Renamed(s.conversations, id, title),
       outbox := s.outbox + [RenameConversation(id, title)] + Refetch(fails))
  }

  /** `deleteChat(id)`; `fails` means the DELETE rejects. */
  function DeletedChat(s: Session, id: string, fails: bool): Session {
    var kept := s.(conversations := WithoutChat(s.conversations, id),
                   outbox := s.outbox + [DeleteConversation(id)] + Refetch(fails));
    if s.currentChatId == Some(id) then Settled(kept.(currentChatId := None, currentMessages := []), s.currentChatId)
    else kept
  }

  /** `clearAllChats()`; `fails` means the DELETE rejects. */
  function ClearedAll(s: Session, fails: bool): Session {
    Settled(s.(conversations := [], currentChatId := None, currentMessages := [],
               outbox := s.outbox + [DeleteAllConversations] + Refetch(fails)), s.currentChatId)
  }

  /** Renaming changes only the matching entries' titles. */
  lemma RenameTargets(s: Session, id: string, title: string, fails: bool)
    ensures var r := RenamedChat(s, id, title, fails);
      && |r.conversations| == |s.conversations|
      && (forall i :: 0 <= i < |s.conversations| ==>
            r.conversations[i] == if s.conversations[i].id == id then s.conversations[i].(title := title) else s.conversations[i])
      && r.currentMessages == s.currentMessages && r.currentChatId == s.currentChatId
      && r.outbox == s.outbox + [RenameConversation(id, title)] + Refetch(fails)
  {
  }

  /**
   * Deleting removes exactly the entries with that id, keeps the others in order, and clears
   * the selection and the messages exactly when that chat was current.
   */
  lemma DeleteTargets(s: Session, id: string, fails: bool)
    ensures var r := DeletedChat(s, id, fails);
      && (forall c :: c in r.conversations <==> c in s.conversations && c.id != id)
      && |r.conversations| + |Filter(s.conversations, HasChatId(id))| == |s.conversations|
      && (s.currentChatId == Some(id) ==> r.currentChatId == None && r.currentMessages == [])
      && (s.currentChatId != Some(id) ==> r.currentChatId == s.currentChatId && r.currentMessages == s.currentMessages)
      && r.outbox == s.outbox + [DeleteConversation(id)] + Refetch(fails)
  {
    FilterPartition(s.conversations, LacksChatId(id), HasChatId(id));
  }

  /** Clearing empties the list, the selection and the messages. */
  lemma ClearAllEmpties(s: Session, fails: bool)
    ensures var r := ClearedAll(s, fails);
      r.conversations == [] && r.currentChatId == None && r.currentMessages == []
      && r.outbox == s.outbox + [DeleteAllConversations] + Refetch(fails)
  {
  }

  /** A new chat leaves nothing selected, no messages and an empty query. */
  lemma NewChatClears(s: Session)
    ensures var r := NewChatStarted(s);
      && r.currentChatId == None && r.currentMessages == [] && r.searchQuery == ""
      && r.chatResetTrigger == s.chatResetTrigger + 1
      && r.conversations == s.conversations && r.outbox == s.outbox
  {
  }

  /** The search filter: the entries whose lower-cased title contains the lower-cased query. */
  function TitleMatches(query: string): ChatSummary -> bool {
    (c: ChatSummary) => Contains(ToLower(c.title), ToLower(query))
  }

  /** `filteredConversations`. */
  function Filtered(cs: seq<ChatSummary>, query: string): seq<ChatSummary> {
    Filter(cs, TitleMatches(query))
  }

  /** An entry is shown exactly when the query occurs in its title, ignoring ASCII case. */
  lemma FilteredMatches(cs: seq<ChatSummary>, query: string)
    ensures forall c :: c in Filtered(cs, query) <==>
              c in cs && exists i :: OccursAt(ToLower(c.title), ToLower(query), i)
  {
    forall c: ChatSummary {
      ContainsIff(ToLower(c.title), ToLower(query));
    }
  }

  /** The empty query shows the whole list in its order. */
  lemma EmptyQueryShowsAll(cs: seq<ChatSummary>)
    ensures Filtered(cs, "") == cs
  {
    FilterAll(cs, TitleMatches(""));
  }

  /** `activeChat`: the first entry whose id is the current one. */
  function ActiveChat(cs: seq<ChatSummary>, currentChatId: Option<string>): (r: Option<ChatSummary>)
    ensures r.Some? ==> currentChatId.Some? && r.value in cs && r.value.id == currentChatId.value
    ensures r.None? <==> currentChatId.None? || forall c :: c in cs ==> c.id != currentChatId.value
  {
    if currentChatId.None? then None
    else match FindFirst(cs, HasChatId(currentChatId.value))
      case None => None
      case Some(i) => Some(cs[i])
  }

  /** The session as a class: React's state hooks become fields the methods assign. */
  class ChatSession {
    var conversations: seq<ChatSummary>
    var currentMessages: seq<ChatMessage>
    var currentChatId: Option<string>
    var searchQuery: string
    var chatResetTrigger: nat
    var isLoading: bool
    var wasIdUpgraded: bool
    var outbox: seq<Request>

    function State(): Session
      reads this
    {
      Session(conversations, currentMessages, currentChatId, searchQuery, chatResetTrigger,
              isLoading, wasIdUpgraded, outbox)
    }

    /** The initial state; mounting fetches the conversation list. */
    constructor ()
      ensures State() == Session([], [], None, "", 0, false, false, [ListConversations])
    {
      conversations := [];
      currentMessages := [];
      currentChatId := None;
      searchQuery := "";
      chatResetTrigger := 0;
      isLoading := false;
      wasIdUpgraded := false;
      outbox := [ListConversations];
    }

    /** The selection effect. */
    method RunSelectionEffect()
      modifies this
      ensures State() == SelectionEffect(old(State()))
    {
      if !Truthy(currentChatId) {
        currentMessages := [];
        wasIdUpgraded := false;
      } else if |currentChatId.value| == DurableIdLength {
        if wasIdUpgraded {
          wasIdUpgraded := false;
        } else {
          outbox := outbox + [GetConversation(currentChatId.value)];
        }
      }
    }

    /** Runs the effect if the id moved away from `prevId`. */
    method Settle(prevId: Option<string>)
      modifies this
      ensures State() == Settled(old(State()), prevId)
    {
      if currentChatId != prevId {
        RunSelectionEffect();
      }
    }

    /** `setCurrentChatId(id)`. */
    method SetCurrentChatId(id: Option<string>)
      modifies this
      ensures State() == Selected(old(State()), id)
    {
      var prev := currentChatId;
      currentChatId := id;
      Settle(prev);
    }

    /** The answer to `fetchConversations`: the list when the reply was ok, else nothing. */
    method ApplyConversations(reply: Option<seq<ChatSummary>>)
      modifies this
      ensures State() == if reply.Some? then old(State()).(conversations := reply.value) else old(State())
    {
      if reply.Some? {
        conversations := reply.value;
      }
    }

    /** The answer to `fetchChatDetails`: the messages when the reply was ok, else nothing. */
    method ApplyChatDetails(reply: Option<seq<ChatMessage>>)
      modifies this
      ensures State() == if reply.Some? then old(State()).(currentMessages := reply.value) else old(State())
    {
      if reply.Some? {
        currentMessages := reply.value;
      }
    }

    method CreateNewChat()
      modifies this
      ensures State() == NewChatStarted(old(State()))
    {
      var prev := currentChatId;
      currentChatId := None;
      searchQuery := "";
      currentMessages := [];
      chatResetTrigger := chatResetTrigger + 1;
      Settle(prev);
    }

    method RenameChat(id: string, title: string, fails: bool)
      modifies this
      ensures State() == RenamedChat(old(State()), id, title, fails)
    {
      conversations := Renamed(conversations, id, title);
      outbox := outbox + [RenameConversation(id, title)] + Refetch(fails);
    }

    method DeleteChat(id: string, fails: bool)
      modifies this
      ensures State() == DeletedChat(old(State()), id, fails)
    {
      var prev := currentChatId;
      conversations := WithoutChat(conversations, id);
      outbox := outbox + [DeleteConversation(id)] + Refetch(fails);
      if prev == Some(id) {
        currentChatId := None;
        currentMessages := [];
        Settle(prev);
      }
    }

    method ClearAllChats(fails: bool)
      modifies this
      ensures State() == ClearedAll(old(State()), fails)
    {
      var prev := currentChatId;
      conversations := [];
      currentChatId := None;
      currentMessages := [];
      outbox := outbox + [DeleteAllConversations] + Refetch(fails);
      Settle(prev);
    }

    /** The start of `streamResponse`, up to the `fetch` call. */
    method OpenStream(chatId: Option<string>, payload: seq<ChatMessage>, aid: string, save: Option<bool>)
      modifies this
      ensures State() == Opened(old(State()), chatId, payload, aid, save)
    {
      isLoading := true;
      if chatId.Some? {
        outbox := outbox + [SendChat(ChatRequest(payload, PayloadChatId(chatId.value), Some(aid), save))];
      }
    }

    /** The rest of `streamResponse`: the upgrade, the read loop, the catch and the finally. */
    method ReceiveStream(chatId: Option<string>, aid: string, reply: Reply)
      modifies this
      ensures State() == Received(old(State()), chatId, aid, reply)
    {
      if chatId.None? || !Streams(reply) {
        currentMessages := WithErrorMarker(currentMessages, aid);
        isLoading := false;
        return;
      }
      if Upgrades(chatId.value, reply) {
        var server := reply.chatIdHeader.value;
        conversations := Repointed(conversations, chatId.value, server);
        wasIdUpgraded := true;
        SetCurrentChatId(Some(server));
      }
      ghost var up := State();
      var fragments := reply.body.value.fragments;
      var base := currentMessages;
      var accumulated := "";
      var k := 0;
      while k < |fragments|
        invariant 0 <= k <= |fragments|
        invariant accumulated == Concat(fragments[..k])
        invariant currentMessages == Ingested(base, aid, fragments[..k])
        invariant State() == up.(currentMessages := currentMessages)
      {
        ConcatStep(fragments, k);
        assert fragments[..k + 1][..k] == fragments[..k];
        accumulated := accumulated + fragments[k];
        currentMessages := WithContent(currentMessages, aid, accumulated);
        k := k + 1;
      }
      assert fragments[..k] == fragments;
      if reply.body.value.breaks {
        currentMessages := WithErrorMarker(currentMessages, aid);
      }
      isLoading := false;
    }

    /** `streamResponse(chatId, payload, aid, options)`. */
    method StreamResponse(chatId: Option<string>, payload: seq<ChatMessage>, aid: string, save: Option<bool>, reply: Reply)
      modifies this
      ensures State() == Streamed(old(State()), chatId, payload, aid, save, reply)
    {
      OpenStream(chatId, payload, aid, save);
      ReceiveStream(chatId, aid, reply);
    }

    /** The synchronous part of a non-blank send. */
    method Submit(role: Role, content: string, tUser: nat, tChat: nat, tAssistant: nat)
      modifies this
      ensures State() == Submitted(old(State()), role, content, tUser, tChat, tAssistant)
    {
      var userMsg := UserMessage(role, content, tUser);
      if !Truthy(currentChatId) {
        conversations := [NewChat(content, tChat)] + conversations;
        currentChatId := Some(DecimalString(tChat));
        currentMessages := [userMsg];
      } else {
        currentMessages := currentMessages + [userMsg];
      }
      if role == User {
        currentMessages := currentMessages + [Placeholder(tAssistant)];
      }
    }

    /** `addMessageToCurrentChat(role, content)`; `tUser`, `tChat`, `tAssistant` are the clock readings. */
    method AddMessage(role: Role, content: string, tUser: nat, tChat: nat, tAssistant: nat, reply: Reply)
      modifies this
      ensures State() == Sent(old(State()), role, content, tUser, tChat, tAssistant, reply)
    {
      if IsBlank(content) {
        return;
      }
      var prev := currentChatId;
      var before := currentMessages;
      var chatId := SendChatId(State(), tChat);
      Submit(role, content, tUser, tChat, tAssistant);
      if role != User {
        Settle(prev);
        return;
      }
      var aid := DecimalString(tAssistant + 1);
      OpenStream(Some(chatId), before + [UserMessage(role, content, tUser)], aid, None);
      Settle(prev);
      ReceiveStream(Some(chatId), aid, reply);
    }

    /** `regenerateChatResponse(chatId, messageId)`. */
    method RegenerateChatResponse(chatId: Option<string>, messageId: string, reply: Reply)
      modifies this
      ensures State() == Regenerated(old(State()), chatId, messageId, reply)
    {
      var found := FindFirst(currentMessages, HasMessageId(messageId));
      if found.None? {
        return;
      }
      var i := found.value;
      if currentMessages[i].role != Assistant {
        return;
      }
      var history := currentMessages[..i];
      currentMessages := WithContent(currentMessages, messageId, "");
      StreamResponse(chatId, history, messageId, Some(false), reply);
    }

    /** `updateMessageInCurrentChat(msgId, content)`. */
    method UpdateMessage(msgId: string, content: string)
      modifies this
      ensures State() == old(State()).(currentMessages := WithContent(old(currentMessages), msgId, content))
    {
      currentMessages := WithContent(currentMessages, msgId, content);
    }

    /** `updateMessageMetadata(chatId, msgId, {rating})`. */
    method UpdateMessageRating(msgId: string, rating: Rating)
      modifies this
      ensures State() == old(State()).(currentMessages := WithRating(old(currentMessages), msgId, rating))
    {
      currentMessages := WithRating(currentMessages, msgId, rating);
    }

    /** `deleteMessage(chatId, msgId)`. */
    method DeleteMessage(msgId: string)
      modifies this
      ensures State() == old(State()).(currentMessages := WithoutMessage(old(currentMessages), msgId))
    {
      currentMessages := WithoutMessage(currentMessages, msgId);
    }

    method SetSearchQuery(query: string)
      modifies this
      ensures State() == old(State()).(searchQuery := query)
    {
      searchQuery := query;
    }
  }
}
