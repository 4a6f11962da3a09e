/**
 * The decisions components/ChatContainer.jsx makes over the session: which message a
 * "Regenerate" click regenerates, the role a send uses, which bubble is last, and when the
 * "Thinking..." line shows.
 */
module ChatContainer {
  import opened Wrappers
  import opened Text
  import opened MessageModel
  import opened Protocol
  import opened ChatContext
  import opened MessageBubble

  /**
   * The message `handleRegenerate(messageId)` regenerates: nothing in an empty chat; the given
   * id when it is truthy; otherwise the last message, provided it is an assistant message.
   */
  function RegenerateTarget(ms: seq<ChatMessage>, messageId: Option<string>): (r: Option<string>)
    ensures ms == [] ==> r.None?
    ensures ms != [] && Truthy(messageId) ==> r == messageId
    ensures ms != [] && !Truthy(messageId) ==>
              (r.Some? <==> ms[|ms| - 1].role == Assistant) && (r.Some? ==> r.value == ms[|ms| - 1].id)
  {
    if ms == [] then None
    else if Truthy(messageId) then messageId
    else if ms[|ms| - 1].role == Assistant then Some(ms[|ms| - 1].id)
    else None
  }

  /** `handleRegenerate(messageId)`: regenerates the target in the current chat, or does nothing. */
  function HandleRegenerate(s: Session, messageId: Option<string>, reply: Reply): (r: Session)
    ensures s.currentMessages == [] ==> r == s
    ensures RegenerateTarget(s.currentMessages, messageId).None? ==> r == s
    ensures RegenerateTarget(s.currentMessages, messageId).Some? ==>
              r == Regenerated(s, s.currentChatId, RegenerateTarget(s.currentMessages, messageId).value, reply)
  {
    match RegenerateTarget(s.currentMessages, messageId)
    case None => s
    case Some(id) => Regenerated(s, s.currentChatId, id, reply)
  }

  /**
   * Without an id, a chat ending in an assistant message (the only holder of its id) has that
   * message regenerated from the messages before it: the earlier messages stay, and the last
   * one ends holding the new text, or the marker when the reply fails before its body. A chat
   * ending otherwise is left alone.
   */
  lemma RegenerateLast(s: Session, chatId: string, reply: Reply)
    requires s.currentMessages != [] && s.currentChatId == Some(chatId)
    ensures var ms := s.currentMessages;
      var last := ms[|ms| - 1];
      && (last.role != Assistant ==> HandleRegenerate(s, None, reply) == s)
      && (last.role == Assistant && (forall j :: 0 <= j < |ms| - 1 ==> ms[j].id != last.id) ==>
            var r := HandleRegenerate(s, None, reply);
            && r.outbox == s.outbox + [SendChat(ChatRequest(ms[..|ms| - 1], PayloadChatId(chatId), Some(last.id), Some(false)))]
            && |r.currentMessages| == |ms|
            && r.currentMessages[..|ms| - 1] == ms[..|ms| - 1]
            && (Streams(reply) && !reply.body.value.breaks ==>
                  r.currentMessages[|ms| - 1] == last.(content := Concat(reply.body.value.fragments)))
            && (!Streams(reply) ==> r.currentMessages[|ms| - 1] == last.(content := ErrorMarker)))
  {
    var ms := s.currentMessages;
    if ms[|ms| - 1].role == Assistant && (forall j :: 0 <= j < |ms| - 1 ==> ms[j].id != ms[|ms| - 1].id) {
      RegenerateRequest(s, chatId, |ms| - 1, reply);
      var r := HandleRegenerate(s, None, reply);
      assert r == Regenerated(s, Some(chatId), ms[|ms| - 1].id, reply);
      assert forall k :: 0 <= k < |ms| - 1 ==> r.currentMessages[k] == ms[k];
      assert r.currentMessages[..|ms| - 1] == ms[..|ms| - 1];
    }
  }

  /** `handleSend(text)`: always a send with role `'user'`. */
  function HandleSend(s: Session, text: string, tUser: nat, tChat: nat, tAssistant: nat, reply: Reply): Session {
    Sent(s, User, text, tUser, tChat, tAssistant, reply)
  }

  /**
   * A non-blank send through the container puts a user-role message and then an empty
   * assistant placeholder after the chat's earlier messages, and posts them without the placeholder.
   */
  lemma HandleSendIsUserTurn(s: Session, text: string, tUser: nat, tChat: nat, tAssistant: nat, reply: Reply)
    requires !IsBlank(text) && tChat < Pow10(19)
    ensures Submitted(s, User, text, tUser, tChat, tAssistant).currentMessages ==
              SendBase(s) + [UserMessage(User, text, tUser), Placeholder(tAssistant)]
    ensures HandleSend(s, text, tUser, tChat, tAssistant, reply).outbox ==
              s.outbox + [SendChat(ChatRequest(s.currentMessages + [UserMessage(User, text, tUser)],
                                               PayloadChatId(SendChatId(s, tChat)), Some(DecimalString(tAssistant + 1)), None))]
  {
    SentBeforeReply(s, text, tUser, tChat, tAssistant);
    SendIssuesOneRequest(s, text, tUser, tChat, tAssistant, reply);
  }

  /** `index === messages.length - 1`. */
  predicate IsLast(ms: seq<ChatMessage>, index: nat) {
    index == |ms| - 1
  }

  /** The "Thinking..." line: loading, and no assistant text yet at the end of the chat. */
  predicate ShowThinking(ms: seq<ChatMessage>, isLoading: bool) {
    isLoading && (ms == [] || ms[|ms| - 1].role != Assistant || |ms[|ms| - 1].content| == 0)
  }

  /** Between a user send and its reply the line shows: loading is on and the placeholder is empty. */
  lemma ThinkingWhileWaiting(s: Session, content: string, tUser: nat, tChat: nat, tAssistant: nat)
    ensures var started := Opened(Submitted(s, User, content, tUser, tChat, tAssistant), Some(SendChatId(s, tChat)),
                                  s.currentMessages + [UserMessage(User, content, tUser)], DecimalString(tAssistant + 1), None);
      ShowThinking(Settled(started, s.currentChatId).currentMessages, Settled(started, s.currentChatId).isLoading)
  {
    SentBeforeReply(s, content, tUser, tChat, tAssistant);
  }

  /** Once the streamed text is non-empty the line hides, though loading is still on. */
  lemma ThinkingEndsWithText(base: seq<ChatMessage>, placeholder: ChatMessage, fragments: seq<string>)
    requires placeholder.role == Assistant && Concat(fragments) != ""
    requires forall m :: m in base ==> m.id != placeholder.id
    ensures !ShowThinking(Ingested(base + [placeholder], placeholder.id, fragments), true)
  {
    IngestedIsConcat(base + [placeholder], placeholder.id, fragments);
    WithContentOnlyLast(base, placeholder, Concat(fragments));
  }

  /**
   * The action row during a user send: while the reply is awaited the last bubble is the empty
   * placeholder and offers no actions, while every earlier non-user message keeps them; once
   * the stream ends every non-user message, the answered one included, offers them again.
   */
  lemma ActionsFollowSend(s: Session, content: string, tUser: nat, tChat: nat, tAssistant: nat, reply: Reply)
    requires !IsBlank(content)
    ensures var started := Opened(Submitted(s, User, content, tUser, tChat, tAssistant), Some(SendChatId(s, tChat)),
                                  s.currentMessages + [UserMessage(User, content, tUser)], DecimalString(tAssistant + 1), None);
      var w := Settled(started, s.currentChatId);
      var ms := w.currentMessages;
      && ms != [] && ms[|ms| - 1] == Placeholder(tAssistant)
      && !ShowActions(ms[|ms| - 1].role, IsLast(ms, |ms| - 1), w.isLoading)
      && (forall i :: 0 <= i < |ms| - 1 ==> (ShowActions(ms[i].role, IsLast(ms, i), w.isLoading) <==> ms[i].role != User))
    ensures var r := Sent(s, User, content, tUser, tChat, tAssistant, reply);
      forall i :: 0 <= i < |r.currentMessages| ==>
        (ShowActions(r.currentMessages[i].role, IsLast(r.currentMessages, i), r.isLoading) <==> r.currentMessages[i].role != User)
  {
    var started := Opened(Submitted(s, User, content, tUser, tChat, tAssistant), Some(SendChatId(s, tChat)),
                          s.currentMessages + [UserMessage(User, content, tUser)], DecimalString(tAssistant + 1), None);
    var w := Settled(started, s.currentChatId);
    SentBeforeReply(s, content, tUser, tChat, tAssistant);
    SentUnfolds(s, content, tUser, tChat, tAssistant, reply);
    ReceivedSettles(w, Some(SendChatId(s, tChat)), DecimalString(tAssistant + 1), reply);
  }

  /** After the stream, whatever the reply, the line is gone. */
  lemma NoThinkingAfterStream(s: Session, chatId: Option<string>, aid: string, reply: Reply)
    ensures !ShowThinking(Received(s, chatId, aid, reply).currentMessages, Received(s, chatId, aid, reply).isLoading)
  {
    ReceivedSettles(s, chatId, aid, reply);
  }
}
