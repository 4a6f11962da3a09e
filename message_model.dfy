/**
 * The stored message record (models/Message.js): its fields, the closed role enumeration and
 * the schema check a document must pass before it is written.
 */
module MessageModel {
  import opened Wrappers

  /** The three roles the schema's enumeration admits. */
  datatype Role = User | Assistant | System

  /** The string a role is stored as. */
  function RoleName(r: Role): string {
    match r
    case User => "user"
    case Assistant => "assistant"
    case System => "system"
  }

  /** Reads a stored role string; anything outside the enumeration has no role. */
  function ParseRole(s: string): (r: Option<Role>)
    ensures r.Some? ==> RoleName(r.value) == s
    ensures r.None? ==> forall role :: RoleName(role) != s
  {
    if s == "user" then Some(User)
    else if s == "assistant" then Some(Assistant)
    else if s == "system" then Some(System)
    else None
  }

  /** Every role survives being stored as its name and read back. */
  lemma ParseRoleName(r: Role)
    ensures ParseRole(RoleName(r)) == Some(r)
  {
  }

  /** A message as the collection holds it: `id` is the client-assigned id, not the store's key. */
  datatype MessageRecord = MessageRecord(
    conversationId: string,
    role: Role,
    content: string,
    clientId: Option<string>,
    createdAt: int)

  /** A document handed to `Message.create`, each field possibly missing. */
  datatype MessageDraft = MessageDraft(
    conversationId: Option<string>,
    role: Option<string>,
    content: Option<string>,
    clientId: Option<string>,
    createdAt: Option<int>)

  /**
   * A required String field: present and, as Mongoose's required check for strings demands,
   * not the empty string.
   */
  predicate RequiredString(v: Option<string>) {
    v.Some? && v.value != ""
  }

  /** The paths the schema rejects in `d`. */
  function MessageErrors(d: MessageDraft): set<string> {
    (if d.conversationId.None? then {"conversationId"} else {})
    + (if !RequiredString(d.role) || ParseRole(d.role.value).None? then {"role"} else {})
    + (if !RequiredString(d.content) then {"content"} else {})
  }

  /**
   * The schema applied to a draft: a record when every required field is present and the role
   * is in the enumeration, the set of failing paths otherwise; `createdAt` defaults to `now`.
   */
  function ValidateMessage(d: MessageDraft, now: int): (r: Result<MessageRecord, set<string>>)
    ensures r.Ok? <==> d.conversationId.Some? && RequiredString(d.content)
                       && d.role.Some? && ParseRole(d.role.value).Some?
    ensures r.Ok? ==> (r.value.conversationId == d.conversationId.value
                       && RoleName(r.value.role) == d.role.value
                       && r.value.content == d.content.value
                       && r.value.clientId == d.clientId
                       && r.value.createdAt == d.createdAt.GetOr(now))
    ensures r.Err? ==> (r.error != {}
                        && ("conversationId" in r.error <==> d.conversationId.None?)
                        && ("content" in r.error <==> !RequiredString(d.content)))
  {
    var errors := MessageErrors(d);
    if errors == {} then
      Ok(MessageRecord(d.conversationId.value, ParseRole(d.role.value).value, d.content.value,
                       d.clientId, d.createdAt.GetOr(now)))
    else
      Err(errors)
  }

  /** The draft that writes exactly `m` back. */
  function DraftOf(m: MessageRecord): MessageDraft {
    MessageDraft(Some(m.conversationId), Some(RoleName(m.role)), Some(m.content), m.clientId, Some(m.createdAt))
  }

  /** A record passes the schema again exactly when its content is non-empty, and is then unchanged. */
  lemma RevalidateRecord(m: MessageRecord, now: int)
    ensures ValidateMessage(DraftOf(m), now) == (if m.content == "" then Err({"content"}) else Ok(m))
  {
    var d := DraftOf(m);
    ParseRoleName(m.role);
    assert RoleName(m.role) != "";
    if m.content == "" {
      assert MessageErrors(d) == {"content"};
    } else {
      assert MessageErrors(d) == {};
    }
  }
}
