/**
 * The relay behind `POST /api/chat` (app/api/chat/route.js): it resolves or creates the
 * conversation, optionally persists the user's turn, answers with the model's text stream and
 * the `x-chat-id` header, and when generation ends finalises the assistant turn by updating the
 * record with the client's id or creating one.
 *
 * The model call is an opaque fragment sequence `completion` whose concatenation is the final
 * text. The finalise step, which runs after the response, is the separate `OnFinish`.
 */
module ChatRoute {
  import opened Wrappers
  import opened Text
  import opened MessageModel
  import opened ConversationModel
  import opened Protocol
  import opened Store

  /** The store call that throws in a request, if any. */
  datatype Fault =
    | NoFault
    | ConnectFails               // dbConnect()
    | LookupFails                // Conversation.findById, whose rejection is caught
    | ConversationCreateFails    // Conversation.create
    | UserMessageCreateFails     // Message.create for the user's turn
    | CountUpdateFails           // the $inc after the user's turn

  /** The store call that throws while finalising, if any. */
  datatype FinishFault =
    | FinishCleanly
    | FinishConnectFails         // dbConnect()
    | FindFails                  // Message.findOne
    | WriteFails                 // existing.save() or Message.create
    | FinishCountFails           // the $inc after a new assistant record

  /** The relay's answer together with the store it leaves behind. */
  datatype PostOutcome = PostOutcome(db: Db, response: Response)

  /** `saveUserMessage = true`: only an explicit `false` skips the user's turn. */
  predicate SavesUserTurn(req: ChatRequest) {
    req.saveUserMessage != Some(false)
  }

  /** `messages[messages.length - 1]`, undefined for an empty list. */
  function LastMessage(req: ChatRequest): (r: Option<ChatMessage>)
    ensures r.Some? <==> |req.messages| > 0
    ensures r.Some? ==> r.value == req.messages[|req.messages| - 1]
  {
    if |req.messages| == 0 then None else Some(req.messages[|req.messages| - 1])
  }

  /**
   * The existing conversation the request continues: a truthy `chatId` that the store holds;
   * a failing lookup reads as not found.
   */
  function Resolve(db: Db, req: ChatRequest, fault: Fault): (r: Option<string>)
    ensures r.Some? <==> (req.chatId.Some? && req.chatId.value != "" && fault != LookupFails
                          && req.chatId.value in db.conversations)
    ensures r.Some? ==> r == req.chatId
  {
    if req.chatId.Some? && req.chatId.value != "" && fault != LookupFails && req.chatId.value in db.conversations
    then req.chatId else None
  }

  /** The document created when no conversation resolves: titled from the last message. */
  function NewConversationDraft(last: ChatMessage): ConversationDraft {
    ConversationDraft(None, Some(DerivedTitle(last.content)))
  }

  /** The document the user's turn is persisted as. */
  function UserTurnDraft(convId: string, last: ChatMessage, now: int): MessageDraft {
    MessageDraft(Some(convId), Some("user"), Some(last.content), Some(last.id), Some(now))
  }

  /** The specification of one request (app/api/chat/route.js:10-97), before finalisation. */
  function Post(db: Db, req: ChatRequest, newId: string, now: int, completion: seq<string>, fault: Fault): PostOutcome {
    if fault == ConnectFails then PostOutcome(db, JsonError(500))
    else
      var found := Resolve(db, req, fault);
      var last := LastMessage(req);
      if found.None? && (last.None? || fault == ConversationCreateFails
                         || ConversationModel.CreateConversation(NewConversationDraft(last.value), now).Err?) then
        PostOutcome(db, JsonError(500))
      else
        var convId := if found.Some? then found.value else newId;
        var db1 := if found.Some? then db
                   else db.(conversations := db.conversations[newId :=
                              ConversationModel.CreateConversation(NewConversationDraft(last.value), now).value]);
        if !SavesUserTurn(req) then PostOutcome(db1, TextStream(convId, completion))
        else if last.None? || fault == UserMessageCreateFails
                || ValidateMessage(UserTurnDraft(convId, last.value, now), now).Err? then
          PostOutcome(db1, JsonError(500))
        else
          var db2 := db1.(messages := db1.messages + [ValidateMessage(UserTurnDraft(convId, last.value, now), now).value]);
          if fault == CountUpdateFails then PostOutcome(db2, JsonError(500))
          else PostOutcome(db2.(conversations := Bumped(db2.conversations, convId, now, false)),
                           TextStream(convId, completion))
  }

  /** The specification of the `onFinish` callback (app/api/chat/route.js:52-85). */
  function Finish(db: Db, convId: string, assistantId: Option<string>, text: string, now: int, fault: FinishFault): Db {
    var lookup := assistantId.Some? && assistantId.value != "";
    if fault == FinishConnectFails || (lookup && fault == FindFails) then db
    else
      var existing := if lookup then FindMessage(db.messages, convId, assistantId.value) else None;
      if existing.Some? then
        var k := existing.value;
        if fault == WriteFails || text == "" then db
        else db.(messages := db.messages[k := db.messages[k].(content := text, createdAt := now)])
      else
        var draft := MessageDraft(Some(convId), Some("assistant"), Some(text), assistantId, Some(now));
        if fault == WriteFails || ValidateMessage(draft, now).Err? then db
        else
          var db1 := db.(messages := db.messages + [ValidateMessage(draft, now).value]);
          if fault == FinishCountFails then db1
          else db1.(conversations := Bumped(db1.conversations, convId, now, true))
  }

  /** The request handler. `newId` is the id the store would give a new conversation. */
  method HandlePost(store: Store, req: ChatRequest, newId: string, now: int, completion: seq<string>, fault: Fault)
    returns (response: Response)
    requires newId !in store.conversations
    modifies store
    ensures store.State() == Post(old(store.State()), req, newId, now, completion, fault).db
    ensures response == Post(old(store.State()), req, newId, now, completion, fault).response
  {
    if fault == ConnectFails {
      return JsonError(500);
    }
    var found := Resolve(store.State(), req, fault);
    var last := LastMessage(req);
    var convId: string;
    if found.Some? {
      convId := found.value;
    } else {
      if last.None? || fault == ConversationCreateFails {
        return JsonError(500);
      }
      var created := store.CreateConversation(newId, NewConversationDraft(last.value), now);
      if !created {
        return JsonError(500);
      }
      convId := newId;
    }
    if SavesUserTurn(req) {
      if last.None? || fault == UserMessageCreateFails {
        return JsonError(500);
      }
      var saved := store.CreateMessage(UserTurnDraft(convId, last.value, now), now);
      if !saved {
        return JsonError(500);
      }
      if fault == CountUpdateFails {
        return JsonError(500);
      }
      store.IncrementCount(convId, now, false);
    }
    response := TextStream(convId, completion);
  }

  /** The `onFinish` callback for the conversation the request resolved to. */
  method OnFinish(store: Store, convId: string, assistantId: Option<string>, completion: seq<string>, now: int, fault: FinishFault)
    modifies store
    ensures store.State() == Finish(old(store.State()), convId, assistantId, Concat(completion), now, fault)
  {
    var text := Concat(completion);
    if fault == FinishConnectFails {
      return;
    }
    if assistantId.Some? && assistantId.value != "" {
      if fault == FindFails {
        return;
      }
      var existing := FindMessage(store.messages, convId, assistantId.value);
      if existing.Some? {
        if fault == WriteFails {
          return;
        }
        var saved := store.SaveMessage(existing.value, text, now);
        return;
      }
    }
    if fault == WriteFails {
      return;
    }
    var created := store.CreateMessage(MessageDraft(Some(convId), Some("assistant"), Some(text), assistantId, Some(now)), now);
    if !created || fault == FinishCountFails {
      return;
    }
    store.IncrementCount(convId, now, true);
  }

  /** The request went through all its store writes: no fault except a lookup read as "not found". */
  predicate Unfaulted(fault: Fault) {
    fault == NoFault || fault == LookupFails
  }

  /** The conversation a successful request reports: the resolved one, or the one it created. */
  function ReportedId(db: Db, req: ChatRequest, newId: string, fault: Fault): string {
    var found := Resolve(db, req, fault);
    if found.Some? then found.value else newId
  }

  /**
   * A request whose `chatId` resolves reuses that conversation: no conversation is created,
   * and a streamed answer carries that id in `x-chat-id`.
   */
  lemma PostReusesResolved(db: Db, req: ChatRequest, newId: string, now: int, completion: seq<string>, fault: Fault)
    requires fault != ConnectFails && Resolve(db, req, fault).Some?
    ensures Post(db, req, newId, now, completion, fault).db.conversations.Keys == db.conversations.Keys
    ensures Post(db, req, newId, now, completion, fault).response.TextStream? ==>
              Post(db, req, newId, now, completion, fault).response == TextStream(req.chatId.value, completion)
  {
  }

  /**
   * Without a resolvable `chatId`, a request with a non-empty last message creates exactly one
   * conversation, under the new id, titled from that message, and reports it in `x-chat-id`.
   */
  lemma PostCreatesConversation(db: Db, req: ChatRequest, newId: string, now: int, completion: seq<string>, fault: Fault)
    requires Unfaulted(fault) && newId !in db.conversations
    requires Resolve(db, req, fault).None? && |req.messages| > 0 && LastMessage(req).value.content != ""
    ensures var o := Post(db, req, newId, now, completion, fault);
      && o.db.conversations.Keys == db.conversations.Keys + {newId}
      && o.db.conversations[newId].title == DerivedTitle(LastMessage(req).value.content)
      && o.db.conversations[newId].messageCount == (if SavesUserTurn(req) then 1 else 0)
      && o.response == TextStream(newId, completion)
  {
    var draft := NewConversationDraft(LastMessage(req).value);
    assert DerivedTitle(LastMessage(req).value.content) != "";
    assert ConversationModel.CreateConversation(draft, now).Ok?;
    if SavesUserTurn(req) {
      assert ValidateMessage(UserTurnDraft(newId, LastMessage(req).value, now), now).Ok?;
    }
  }

  /**
   * With `saveUserMessage` left out or true, an unfaulted request with a non-empty last message
   * stores exactly one `user` record carrying that message's content and client id, and adds 1
   * to the conversation's `messageCount`.
   */
  lemma PostPersistsUserTurn(db: Db, req: ChatRequest, newId: string, now: int, completion: seq<string>, fault: Fault)
    requires Unfaulted(fault) && newId !in db.conversations && SavesUserTurn(req)
    requires |req.messages| > 0 && LastMessage(req).value.content != ""
    ensures var o := Post(db, req, newId, now, completion, fault);
      var id := ReportedId(db, req, newId, fault);
      var last := LastMessage(req).value;
      && o.db.messages == db.messages + [MessageRecord(id, User, last.content, Some(last.id), now)]
      && id in o.db.conversations
      && o.db.conversations[id].messageCount
         == (if id in db.conversations then db.conversations[id].messageCount else 0) + 1
      && o.response == TextStream(id, completion)
  {
    var last := LastMessage(req).value;
    var id := ReportedId(db, req, newId, fault);
    assert DerivedTitle(last.content) != "";
    assert ValidateMessage(UserTurnDraft(id, last, now), now).Ok?;
  }

  /**
   * With `saveUserMessage: false` no message is stored and no count changes; when the
   * conversation resolves the store is left exactly as it was.
   */
  lemma PostSkipsUserTurn(db: Db, req: ChatRequest, newId: string, now: int, completion: seq<string>, fault: Fault)
    requires !SavesUserTurn(req) && newId !in db.conversations
    ensures var o := Post(db, req, newId, now, completion, fault);
      && o.db.messages == db.messages
      && (forall id :: id in db.conversations ==> id in o.db.conversations && o.db.conversations[id] == db.conversations[id])
      && (Resolve(db, req, fault).Some? ==> o.db == db)
  {
  }

  /**
   * What the relay answers: a 500 JSON error, or the model's fragments with `x-chat-id` naming a
   * stored conversation, the resolved one or the created one.
   */
  lemma PostResponseShape(db: Db, req: ChatRequest, newId: string, now: int, completion: seq<string>, fault: Fault)
    ensures var o := Post(db, req, newId, now, completion, fault);
      && (o.response.JsonError? ==> o.response.status == 500)
      && (o.response.TextStream? ==>
            o.response.chatId == ReportedId(db, req, newId, fault)
            && o.response.chatId in o.db.conversations
            && o.response.fragments == completion)
  {
  }

  /** Any store call that throws before the stream is returned yields the 500 path. */
  lemma PostFaultIs500(db: Db, req: ChatRequest, newId: string, now: int, completion: seq<string>, fault: Fault)
    requires fault == ConnectFails
             || ((fault == UserMessageCreateFails || fault == CountUpdateFails) && SavesUserTurn(req))
             || (fault == ConversationCreateFails && Resolve(db, req, fault).None?)
    ensures Post(db, req, newId, now, completion, fault).response == JsonError(500)
  {
  }

  /**
   * Message-count accounting for a request: when every conversation's count matches its stored
   * messages before, it still does after, unless the count update itself throws.
   */
  lemma PostKeepsCountsAgree(db: Db, req: ChatRequest, newId: string, now: int, completion: seq<string>, fault: Fault)
    requires CountsAgree(db) && Unreferenced(db, newId) && fault != CountUpdateFails
    ensures CountsAgree(Post(db, req, newId, now, completion, fault).db)
  {
    var found := Resolve(db, req, fault);
    var last := LastMessage(req);
    if fault != ConnectFails && !(found.None? && (last.None? || fault == ConversationCreateFails
                                  || ConversationModel.CreateConversation(NewConversationDraft(last.value), now).Err?)) {
      var convId := if found.Some? then found.value else newId;
      var db1 := if found.Some? then db
                 else db.(conversations := db.conversations[newId :=
                            ConversationModel.CreateConversation(NewConversationDraft(last.value), now).value]);
      if found.None? {
        CreatedAgree(db, newId, ConversationModel.CreateConversation(NewConversationDraft(last.value), now).value);
      }
      if SavesUserTurn(req) && last.Some? && fault != UserMessageCreateFails
         && ValidateMessage(UserTurnDraft(convId, last.value, now), now).Ok? {
        var rec := ValidateMessage(UserTurnDraft(convId, last.value, now), now).value;
        AppendBumpedAgree(db1, rec, now, false);
      }
    }
  }

  /**
   * Finalising when this conversation already holds a record with the assistant id overwrites
   * that record's content and time in place: no record is added and no count changes.
   */
  lemma FinishUpdatesInPlace(db: Db, convId: string, assistantId: string, text: string, now: int)
    requires assistantId != "" && text != ""
    requires FindMessage(db.messages, convId, assistantId).Some?
    ensures var k := FindMessage(db.messages, convId, assistantId).value;
      var r := Finish(db, convId, Some(assistantId), text, now, FinishCleanly);
      && r.conversations == db.conversations
      && r.messages == db.messages[k := db.messages[k].(content := text, createdAt := now)]
  {
  }

  /**
   * Finalising otherwise creates exactly one assistant record with the client id, adds 1 to the
   * count and sets `lastMessageAt` and `updatedAt`.
   */
  lemma FinishCreatesRecord(db: Db, convId: string, assistantId: Option<string>, text: string, now: int)
    requires text != ""
    requires assistantId.Some? && assistantId.value != "" ==> FindMessage(db.messages, convId, assistantId.value).None?
    ensures var r := Finish(db, convId, assistantId, text, now, FinishCleanly);
      && r.messages == db.messages + [MessageRecord(convId, Assistant, text, assistantId, now)]
      && r.conversations == Bumped(db.conversations, convId, now, true)
  {
  }

  /** Once a record with the assistant id exists, finalising never adds a record or changes a count. */
  lemma {:induction false} FinishExistingAddsNothing(db: Db, convId: string, assistantId: string, text: string, now: int, fault: FinishFault)
    requires assistantId != "" && ClientIdCount(db.messages, convId, assistantId) > 0
    ensures var r := Finish(db, convId, Some(assistantId), text, now, fault);
      && |r.messages| == |db.messages|
      && r.conversations == db.conversations
      && ClientIdCount(r.messages, convId, assistantId) == ClientIdCount(db.messages, convId, assistantId)
  {
    var r := Finish(db, convId, Some(assistantId), text, now, fault);
    var existing := FindMessage(db.messages, convId, assistantId);
    if r != db {
      var k := existing.value;
      ClientIdCountOverwrite(db.messages, k, db.messages[k].(content := text, createdAt := now), convId, assistantId);
    }
  }

  /**
   * Update-or-create is idempotent: finalising twice with the same assistant id leaves as many
   * records, and the same counts, as finalising once; starting from none, a clean finalise with
   * text leaves exactly one record with that id, and a second one keeps it at one.
   */
  lemma {:induction false} FinishTwice(db: Db, convId: string, assistantId: string, text1: string, text2: string,
                                       now1: int, now2: int, fault2: FinishFault)
    requires assistantId != "" && text1 != ""
    ensures var once := Finish(db, convId, Some(assistantId), text1, now1, FinishCleanly);
      var twice := Finish(once, convId, Some(assistantId), text2, now2, fault2);
      && |twice.messages| == |once.messages|
      && twice.conversations == once.conversations
      && ClientIdCount(twice.messages, convId, assistantId) == ClientIdCount(once.messages, convId, assistantId)
      && (ClientIdCount(db.messages, convId, assistantId) == 0 ==> ClientIdCount(twice.messages, convId, assistantId) == 1)
  {
    var once := Finish(db, convId, Some(assistantId), text1, now1, FinishCleanly);
    var existing := FindMessage(db.messages, convId, assistantId);
    if existing.Some? {
      ClientIdCountOverwrite(db.messages, existing.value,
        db.messages[existing.value].(content := text1, createdAt := now1), convId, assistantId);
    } else {
      var rec := MessageRecord(convId, Assistant, text1, Some(assistantId), now1);
      assert once.messages == db.messages + [rec];
      CountAppend(db.messages, rec, convId);
    }
    FinishExistingAddsNothing(once, convId, assistantId, text2, now2, fault2);
  }

  /**
   * Message-count accounting for finalisation: matching counts stay matching, unless the count
   * update after a new record throws.
   */
  lemma FinishKeepsCountsAgree(db: Db, convId: string, assistantId: Option<string>, text: string, now: int, fault: FinishFault)
    requires CountsAgree(db) && fault != FinishCountFails
    ensures CountsAgree(Finish(db, convId, assistantId, text, now, fault))
  {
    var r := Finish(db, convId, assistantId, text, now, fault);
    if |r.messages| == |db.messages| + 1 {
      var rec := r.messages[|db.messages|];
      AppendBumpedAgree(db, rec, now, true);
    } else if r != db {
      var k := FindMessage(db.messages, convId, assistantId.value).value;
      forall id | id in r.conversations
        ensures r.conversations[id].messageCount == CountIn(r.messages, id)
      {
        CountOverwrite(db.messages, k, db.messages[k].(content := text, createdAt := now), id);
      }
    }
  }
}
