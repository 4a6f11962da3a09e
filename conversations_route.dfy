/**
 * The collection endpoints of app/api/conversations/route.js: `GET` lists every conversation,
 * most recently updated first; `POST` creates one; `DELETE` clears both collections.
 */
module ConversationsRoute {
  import opened Wrappers
  import opened ConversationModel
  import opened Store

  /** A conversation as the list endpoint returns it: the record with `id` in place of `_id`. */
  datatype ConversationView = ConversationView(
    id: string,
    userId: Option<string>,
    title: string,
    createdAt: int,
    updatedAt: int,
    lastMessageAt: int,
    messageCount: int)

  /** The store call that throws in a handler, if any. */
  datatype StoreFault = Healthy | ConnectFails | OperationFails

  /** The body and status of `GET`. */
  datatype ListReply = Listed(conversations: seq<ConversationView>) | ListFailed(status: int)

  /** The body and status of `POST`. */
  datatype CreateReply = Created(conversation: ConversationView) | CreateFailed(status: int)

  /** The store call that throws in `DELETE`, if any. */
  datatype ClearFault = ClearsCleanly | ClearConnectFails | ConversationsDeleteFails | MessagesDeleteFails

  /** `{...conv.toObject(), id: conv._id.toString(), _id: undefined}`. */
  function ViewOf(id: string, c: ConversationRecord): ConversationView {
    ConversationView(id, c.userId, c.title, c.createdAt, c.updatedAt, c.lastMessageAt, c.messageCount)
  }

  /** `sort({updatedAt: -1})`: no entry is more recently updated than one before it. */
  predicate NewestFirst(vs: seq<ConversationView>) {
    forall i, j :: 0 <= i < j < |vs| ==> vs[i].updatedAt >= vs[j].updatedAt
  }

  /** No conversation is listed twice. */
  predicate DistinctIds(vs: seq<ConversationView>) {
    forall i, j :: 0 <= i < j < |vs| ==> vs[i].id != vs[j].id
  }

  /** The ids a list shows. */
  function IdsOf(vs: seq<ConversationView>): set<string> {
    set i | 0 <= i < |vs| :: vs[i].id
  }

  /** Some key of `keys` holds a conversation updated no earlier than any other in `keys`. */
  lemma {:induction false} MostRecentExists(convs: map<string, ConversationRecord>, keys: set<string>)
    requires keys != {} && keys <= convs.Keys
    ensures exists k :: k in keys && forall k2 :: k2 in keys ==> convs[k2].updatedAt <= convs[k].updatedAt
    decreases |keys|
  {
    var x :| x in keys;
    var rest := keys - {x};
    if rest != {} {
      MostRecentExists(convs, rest);
      var y :| y in rest && forall k2 :: k2 in rest ==> convs[k2].updatedAt <= convs[y].updatedAt;
      if convs[x].updatedAt > convs[y].updatedAt {
        assert forall k2 :: k2 in keys ==> convs[k2].updatedAt <= convs[x].updatedAt;
      } else {
        assert forall k2 :: k2 in keys ==> convs[k2].updatedAt <= convs[y].updatedAt;
      }
    } else {
      assert keys == {x};
    }
  }

  /**
   * The state of the selection in `GET`: `vs` lists, newest first and each once, the
   * conversations of `convs` outside `remaining`, and none in `remaining` is newer than a listed one.
   */
  predicate Extracted(convs: map<string, ConversationRecord>, vs: seq<ConversationView>, remaining: set<string>) {
    && IdsOf(vs) + remaining == convs.Keys
    && IdsOf(vs) !! remaining
    && DistinctIds(vs) && NewestFirst(vs)
    && (forall i :: 0 <= i < |vs| ==> vs[i].id in convs && vs[i] == ViewOf(vs[i].id, convs[vs[i].id]))
    && (forall i, k :: 0 <= i < |vs| && k in remaining ==> convs[k].updatedAt <= vs[i].updatedAt)
  }

  /** Moving a most recent remaining conversation to the end of the list keeps `Extracted`. */
  lemma {:induction false} ExtractStep(convs: map<string, ConversationRecord>, vs: seq<ConversationView>, remaining: set<string>, k: string)
    requires Extracted(convs, vs, remaining)
    requires k in remaining && forall k2 :: k2 in remaining ==> convs[k2].updatedAt <= convs[k].updatedAt
    ensures Extracted(convs, vs + [ViewOf(k, convs[k])], remaining - {k})
  {
    var v := ViewOf(k, convs[k]);
    var ws := vs + [v];
    assert forall i :: 0 <= i < |vs| ==> ws[i] == vs[i];
    assert ws[|vs|] == v;
    assert IdsOf(ws) == IdsOf(vs) + {k} by {
      forall x | x in IdsOf(ws) ensures x in IdsOf(vs) + {k} {
        var i :| 0 <= i < |ws| && ws[i].id == x;
        if i < |vs| { assert vs[i].id == x; }
      }
      forall x | x in IdsOf(vs) + {k} ensures x in IdsOf(ws) {
        if x == k { assert ws[|vs|].id == x; } else {
          var i :| 0 <= i < |vs| && vs[i].id == x;
          assert ws[i].id == x;
        }
      }
    }
    assert DistinctIds(ws) by {
      forall i, j | 0 <= i < j < |ws| ensures ws[i].id != ws[j].id {
        if j == |vs| {
          assert vs[i].id in IdsOf(vs);
        }
      }
    }
  }

  /**
   * `GET`: every stored conversation exactly once, projected to its view and ordered by
   * `updatedAt` descending; a store failure gives status 500. Conversations updated at the same
   * moment may come in any order.
   */
  method List(store: Store, fault: StoreFault) returns (r: ListReply)
    ensures fault != Healthy ==> r == ListFailed(500)
    ensures fault == Healthy ==> r.Listed?
    ensures r.Listed? ==> NewestFirst(r.conversations) && DistinctIds(r.conversations)
    ensures r.Listed? ==> IdsOf(r.conversations) == store.conversations.Keys
    ensures r.Listed? ==> forall i :: 0 <= i < |r.conversations| ==>
              r.conversations[i].id in store.conversations
              && r.conversations[i] == ViewOf(r.conversations[i].id, store.conversations[r.conversations[i].id])
  {
    if fault != Healthy {
      return ListFailed(500);
    }
    var convs := store.conversations;
    var remaining := convs.Keys;
    var vs: seq<ConversationView> := [];
    while remaining != {}
      invariant Extracted(convs, vs, remaining)
      decreases |remaining|
    {
      MostRecentExists(convs, remaining);
      var k :| k in remaining && forall k2 :: k2 in remaining ==> convs[k2].updatedAt <= convs[k].updatedAt;
      ExtractStep(convs, vs, remaining, k);
      vs := vs + [ViewOf(k, convs[k])];
      remaining := remaining - {k};
    }
    r := Listed(vs);
  }

  /** `body.title || 'New Chat'`: a missing or empty title becomes the default one. */
  function RequestedTitle(title: Option<string>): (r: string)
    ensures r != ""
    ensures title.Some? && title.value != "" ==> r == title.value
    ensures title.None? || title.value == "" ==> r == DefaultTitle
  {
    if title.Some? && title.value != "" then title.value else DefaultTitle
  }

  /**
   * `POST`: exactly one new conversation under the store's fresh id `newId`, titled as asked or
   * `'New Chat'`; a store failure gives status 500 and writes nothing.
   */
  method Create(store: Store, title: Option<string>, newId: string, now: int, fault: StoreFault) returns (r: CreateReply)
    requires newId !in store.conversations
    modifies store
    ensures fault != Healthy ==> r == CreateFailed(500) && store.State() == old(store.State())
    ensures fault == Healthy ==>
      && store.messages == old(store.messages)
      && store.conversations.Keys == old(store.conversations.Keys) + {newId}
      && (forall id :: id in old(store.conversations) ==> store.conversations[id] == old(store.conversations[id]))
      && store.conversations[newId].title == RequestedTitle(title)
      && store.conversations[newId].messageCount == 0
      && r == Created(ViewOf(newId, store.conversations[newId]))
  {
    if fault != Healthy {
      return CreateFailed(500);
    }
    var ok := store.CreateConversation(newId, ConversationDraft(None, Some(RequestedTitle(title))), now);
    r := Created(ViewOf(newId, store.conversations[newId]));
  }

  /**
   * `DELETE`: clears the conversation collection, then the message collection, and answers
   * `{success: true}` (200); a failing call stops there and gives status 500. Whichever call
   * fails, no count ever disagrees with the stored messages afterwards, though a failure after
   * the first call leaves messages whose conversation is gone; after a 200 no lookup of an
   * assistant record finds anything.
   */
  method ClearAll(store: Store, fault: ClearFault) returns (status: int)
    modifies store
    ensures fault == ClearsCleanly ==> status == 200 && store.State() == Db(map[], [])
    ensures fault == ClearConnectFails || fault == ConversationsDeleteFails ==>
              status == 500 && store.State() == old(store.State())
    ensures fault == MessagesDeleteFails ==>
              status == 500 && store.conversations == map[] && store.messages == old(store.messages)
    ensures status == 200 <==> fault == ClearsCleanly
    ensures CountsAgree(old(store.State())) ==> CountsAgree(store.State())
    ensures status == 200 ==> forall c, cid :: FindMessage(store.messages, c, cid).None?
  {
    if fault == ClearConnectFails || fault == ConversationsDeleteFails {
      return 500;
    }
    store.DeleteAllConversations();
    if fault == MessagesDeleteFails {
      return 500;
    }
    store.DeleteAllMessages();
    status := 200;
  }
}
