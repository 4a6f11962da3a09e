/**
 * The document store behind the relay: the `conversations` collection keyed by store id and the
 * `messages` collection in insertion order, with the Mongoose calls the routes make on them.
 * A message's position in the sequence stands for its store key; `findOne` returns the first
 * match in that order.
 */
module Store {
  import opened Wrappers
  import opened Seqs
  import opened MessageModel
  import opened ConversationModel

  /** Both collections as one value. */
  datatype Db = Db(conversations: map<string, ConversationRecord>, messages: seq<MessageRecord>)

  /** The number of stored messages that belong to conversation `c`. */
  function CountIn(ms: seq<MessageRecord>, c: string): nat {
    if ms == [] then 0
    else CountIn(ms[..|ms| - 1], c) + (if ms[|ms| - 1].conversationId == c then 1 else 0)
  }

  /** `m` is a message of conversation `c` carrying client id `cid`. */
  predicate HoldsClientId(m: MessageRecord, c: string, cid: string) {
    m.conversationId == c && m.clientId == Some(cid)
  }

  /** The number of stored messages of conversation `c` with client id `cid`. */
  function ClientIdCount(ms: seq<MessageRecord>, c: string, cid: string): nat {
    if ms == [] then 0
    else ClientIdCount(ms[..|ms| - 1], c, cid) + (if HoldsClientId(ms[|ms| - 1], c, cid) then 1 else 0)
  }

  /** No record carries the client id exactly when the count is zero. */
  lemma {:induction false} ClientIdCountZero(ms: seq<MessageRecord>, c: string, cid: string)
    ensures ClientIdCount(ms, c, cid) == 0 <==> forall j :: 0 <= j < |ms| ==> !HoldsClientId(ms[j], c, cid)
  {
    if ms != [] {
      var init := ms[..|ms| - 1];
      ClientIdCountZero(init, c, cid);
      assert forall j :: 0 <= j < |init| ==> init[j] == ms[j];
    }
  }

  /** `Message.findOne({conversationId: c, id: cid})`: the first matching record, if any. */
  function FindMessage(ms: seq<MessageRecord>, c: string, cid: string): (r: Option<nat>)
    ensures r.Some? ==> r.value < |ms| && HoldsClientId(ms[r.value], c, cid)
    ensures r.Some? ==> forall j :: 0 <= j < r.value ==> !HoldsClientId(ms[j], c, cid)
    ensures r.None? <==> ClientIdCount(ms, c, cid) == 0
  {
    ClientIdCountZero(ms, c, cid);
    FindFirst(ms, (m: MessageRecord) => HoldsClientId(m, c, cid))
  }

  /** Appending one record adds one to the count of its own conversation only. */
  lemma CountAppend(ms: seq<MessageRecord>, m: MessageRecord, c: string)
    ensures CountIn(ms + [m], c) == CountIn(ms, c) + (if m.conversationId == c then 1 else 0)
    ensures ClientIdCount(ms + [m], c, m.clientId.GetOr("")) ==
            ClientIdCount(ms, c, m.clientId.GetOr("")) + (if HoldsClientId(m, c, m.clientId.GetOr("")) then 1 else 0)
  {
    assert (ms + [m])[..|ms|] == ms;
  }

  /** Appending a record with another key leaves a client-id count unchanged. */
  lemma ClientIdCountAppendOther(ms: seq<MessageRecord>, m: MessageRecord, c: string, cid: string)
    requires !HoldsClientId(m, c, cid)
    ensures ClientIdCount(ms + [m], c, cid) == ClientIdCount(ms, c, cid)
  {
    assert (ms + [m])[..|ms|] == ms;
  }

  /** Rewriting a record in place without moving it to another conversation keeps every count. */
  lemma {:induction false} CountOverwrite(ms: seq<MessageRecord>, k: nat, m: MessageRecord, c: string)
    requires k < |ms| && m.conversationId == ms[k].conversationId
    ensures CountIn(ms[k := m], c) == CountIn(ms, c)
  {
    var n := |ms| - 1;
    if k < n {
      assert ms[k := m][..n] == ms[..n][k := m];
      CountOverwrite(ms[..n], k, m, c);
    } else {
      assert ms[k := m][..n] == ms[..n];
    }
  }

  /** Rewriting a record in place without changing its keys keeps every client-id count. */
  lemma {:induction false} ClientIdCountOverwrite(ms: seq<MessageRecord>, k: nat, m: MessageRecord, c: string, cid: string)
    requires k < |ms| && m.conversationId == ms[k].conversationId && m.clientId == ms[k].clientId
    ensures ClientIdCount(ms[k := m], c, cid) == ClientIdCount(ms, c, cid)
  {
    var n := |ms| - 1;
    if k < n {
      assert ms[k := m][..n] == ms[..n][k := m];
      ClientIdCountOverwrite(ms[..n], k, m, c, cid);
    } else {
      assert ms[k := m][..n] == ms[..n];
    }
  }

  /** Every conversation's `messageCount` equals the number of its stored messages. */
  ghost predicate CountsAgree(db: Db) {
    forall id :: id in db.conversations ==> db.conversations[id].messageCount == CountIn(db.messages, id)
  }

  /** No stored message belongs to conversation `id`: what a freshly minted store id satisfies. */
  predicate Unreferenced(db: Db, id: string) {
    id !in db.conversations && forall j :: 0 <= j < |db.messages| ==> db.messages[j].conversationId != id
  }

  /** A conversation without messages has count zero. */
  lemma {:induction false} UnreferencedCount(ms: seq<MessageRecord>, id: string)
    requires forall j :: 0 <= j < |ms| ==> ms[j].conversationId != id
    ensures CountIn(ms, id) == 0
  {
    if ms != [] {
      UnreferencedCount(ms[..|ms| - 1], id);
    }
  }

  /**
   * `findByIdAndUpdate(id, {$inc: {messageCount: 1}, lastMessageAt: now})`, also setting
   * `updatedAt` when `touchUpdatedAt`; an unknown id matches nothing. The update bypasses the
   * save hook.
   */
  function Bumped(convs: map<string, ConversationRecord>, id: string, now: int, touchUpdatedAt: bool): map<string, ConversationRecord> {
    if id in convs then
      var c := convs[id];
      convs[id := c.(messageCount := c.messageCount + 1, lastMessageAt := now,
                     updatedAt := if touchUpdatedAt then now else c.updatedAt)]
    else convs
  }

  /** Storing a record and bumping its conversation's count keeps every count in step. */
  lemma {:induction false} AppendBumpedAgree(db: Db, rec: MessageRecord, now: int, touchUpdatedAt: bool)
    requires CountsAgree(db)
    ensures CountsAgree(Db(Bumped(db.conversations, rec.conversationId, now, touchUpdatedAt), db.messages + [rec]))
  {
    var convs := Bumped(db.conversations, rec.conversationId, now, touchUpdatedAt);
    forall id | id in convs
      ensures convs[id].messageCount == CountIn(db.messages + [rec], id)
    {
      CountAppend(db.messages, rec, id);
    }
  }

  /** A new conversation with count 0 under an unreferenced id keeps every count in step. */
  lemma CreatedAgree(db: Db, id: string, c: ConversationRecord)
    requires CountsAgree(db) && Unreferenced(db, id) && c.messageCount == 0
    ensures CountsAgree(db.(conversations := db.conversations[id := c]))
  {
    UnreferencedCount(db.messages, id);
  }

  /** The two collections, updated in place by the route handlers. */
  class Store {
    var conversations: map<string, ConversationRecord>
    var messages: seq<MessageRecord>

    /** Both collections as a value. */
    function State(): Db
      reads this
    {
      Db(conversations, messages)
    }

    /** An empty store. */
    constructor ()
      ensures State() == Db(map[], [])
    {
      conversations := map[];
      messages := [];
    }

    /** `Conversation.create(d)` under the fresh store id `id`; false when the schema rejects `d`. */
    method CreateConversation(id: string, d: ConversationDraft, now: int) returns (ok: bool)
      requires id !in conversations
      modifies this`conversations
      ensures ok == ConversationModel.CreateConversation(d, now).Ok?
      ensures conversations == if ok then old(conversations)[id := ConversationModel.CreateConversation(d, now).value]
                               else old(conversations)
    {
      var r := ConversationModel.CreateConversation(d, now);
      ok := r.Ok?;
      if ok {
        conversations := conversations[id := r.value];
      }
    }

    /** `Message.create(d)`; false when the schema rejects `d`. */
    method CreateMessage(d: MessageDraft, now: int) returns (ok: bool)
      modifies this`messages
      ensures ok == ValidateMessage(d, now).Ok?
      ensures messages == if ok then old(messages) + [ValidateMessage(d, now).value] else old(messages)
    {
      var r := ValidateMessage(d, now);
      ok := r.Ok?;
      if ok {
        messages := messages + [r.value];
      }
    }

    /** The `$inc` update of a conversation's count and activity times. */
    method IncrementCount(id: string, now: int, touchUpdatedAt: bool)
      modifies this`conversations
      ensures conversations == Bumped(old(conversations), id, now, touchUpdatedAt)
    {
      conversations := Bumped(conversations, id, now, touchUpdatedAt);
    }

    /**
     * `existing.content = content; existing.createdAt = now; existing.save()` on record `k`;
     * the save re-runs the schema, which refuses empty content.
     */
    method SaveMessage(k: nat, content: string, now: int) returns (ok: bool)
      requires k < |messages|
      modifies this`messages
      ensures ok == (content != "")
      ensures messages == if ok then old(messages)[k := old(messages)[k].(content := content, createdAt := now)]
                          else old(messages)
    {
      var updated := messages[k].(content := content, createdAt := now);
      RevalidateRecord(updated, now);
      var r := ValidateMessage(DraftOf(updated), now);
      ok := r.Ok?;
      if ok {
        messages := messages[k := r.value];
      }
    }

    /** `Conversation.deleteMany({})`. */
    method DeleteAllConversations()
      modifies this`conversations
      ensures conversations == map[]
    {
      conversations := map[];
    }

    /** `Message.deleteMany({})`. */
    method DeleteAllMessages()
      modifies this`messages
      ensures messages == []
    {
      messages := [];
    }
  }
}
