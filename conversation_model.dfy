/**
 * The stored conversation record (models/Conversation.js): fields, defaults and the pre-save
 * hook that stamps `updatedAt`.
 */
module ConversationModel {
  import opened Wrappers

  /** A conversation as the collection holds it; times are milliseconds since the epoch. */
  datatype ConversationRecord = ConversationRecord(
    userId: Option<string>,
    title: string,
    createdAt: int,
    updatedAt: int,
    lastMessageAt: int,
    messageCount: int)

  /** A document handed to `Conversation.create`: the callers in this system set at most the title. */
  datatype ConversationDraft = ConversationDraft(userId: Option<string>, title: Option<string>)

  /** The schema's default title. */
  const DefaultTitle: string := "New Chat"

  /**
   * The `pre('save')` hook: every save stamps `updatedAt` with the current time and changes
   * nothing else.
   */
  function PreSave(c: ConversationRecord, now: int): (r: ConversationRecord)
    ensures r.updatedAt == now
    ensures r.(updatedAt := c.updatedAt) == c
  {
    c.(updatedAt := now)
  }

  /**
   * `Conversation.create(d)`: defaults fill the missing title and the timestamps, the count
   * starts at 0, the required title must be a non-empty string, and the save hook runs.
   */
  function CreateConversation(d: ConversationDraft, now: int): (r: Result<ConversationRecord, set<string>>)
    ensures r.Ok? <==> d.title != Some("")
    ensures r.Err? ==> r.error == {"title"}
    ensures r.Ok? ==> r.value.title == d.title.GetOr(DefaultTitle) && r.value.userId == d.userId
    ensures r.Ok? ==> r.value.messageCount == 0
    ensures r.Ok? ==> r.value.createdAt == now && r.value.updatedAt == now && r.value.lastMessageAt == now
  {
    var title := d.title.GetOr(DefaultTitle);
    if title == "" then Err({"title"})
    else Ok(PreSave(ConversationRecord(d.userId, title, now, now, now, 0), now))
  }
}
