/**
 * One message as components/MessageBubble.jsx shows it: the rating toggles, when the action
 * row shows, and the edit, delete and copy handlers with the bubble's own local state.
 */
module MessageBubble {
  import opened MessageModel
  import opened Protocol
  import opened ChatContext

  /** `rating === 'liked' ? null : 'liked'`. */
  function LikeToggle(r: Rating): (n: Rating)
    ensures n == Unrated <==> r == Liked
    ensures n != Unrated ==> n == Liked
  {
    if r == Liked then Unrated else Liked
  }

  /** `rating === 'disliked' ? null : 'disliked'`. */
  function DislikeToggle(r: Rating): (n: Rating)
    ensures n == Unrated <==> r == Disliked
    ensures n != Unrated ==> n == Disliked
  {
    if r == Disliked then Unrated else Disliked
  }

  /** Pressing like twice returns to no rating; like after dislike moves straight to liked. */
  lemma LikeTwice(r: Rating)
    ensures LikeToggle(LikeToggle(r)) == (if r == Liked then Liked else Unrated)
    ensures LikeToggle(Disliked) == Liked
  {
  }

  /** Pressing dislike twice returns to no rating. */
  lemma DislikeTwice(r: Rating)
    ensures DislikeToggle(DislikeToggle(r)) == (if r == Disliked then Disliked else Unrated)
  {
  }

  /** `showActions`: never on a user message, and not on the last message while loading. */
  predicate ShowActions(role: Role, isLast: bool, isLoading: bool) {
    !(isLast && isLoading) && role != User
  }

  /** A bubble's local state; `menuOpen` stands for a non-null `anchorEl`. */
  class Bubble {
    var isEditing: bool
    var editContent: string
    var isCopied: bool
    var menuOpen: bool

    constructor (message: ChatMessage)
      ensures !isEditing && editContent == message.content && !isCopied && !menuOpen
    {
      isEditing := false;
      editContent := message.content;
      isCopied := false;
      menuOpen := false;
    }

    /** `handleEditStart`: the draft starts from the message's current content. */
    method EditStart(message: ChatMessage)
      modifies this
      ensures isEditing && editContent == message.content
      ensures isCopied == old(isCopied) && menuOpen == old(menuOpen)
    {
      editContent := message.content;
      isEditing := true;
    }

    /** `onChange` of the edit field. */
    method EditChange(value: string)
      modifies this
      ensures editContent == value
      ensures isEditing == old(isEditing) && isCopied == old(isCopied) && menuOpen == old(menuOpen)
    {
      editContent := value;
    }

    /** `handleEditSave`: the draft becomes this message's content and editing ends. */
    method EditSave(message: ChatMessage, session: ChatSession)
      modifies this, session
      ensures session.State() == old(session.State()).(currentMessages := WithContent(old(session.currentMessages), message.id, old(editContent)))
      ensures !isEditing && editContent == old(editContent)
      ensures isCopied == old(isCopied) && menuOpen == old(menuOpen)
    {
      session.UpdateMessage(message.id, editContent);
      isEditing := false;
    }

    /** `handleEditCancel`: editing ends and the draft is reset; the session is not touched. */
    method EditCancel(message: ChatMessage)
      modifies this
      ensures !isEditing && editContent == message.content
      ensures isCopied == old(isCopied) && menuOpen == old(menuOpen)
    {
      isEditing := false;
      editContent := message.content;
    }

    /** `handleLike`. */
    method Like(message: ChatMessage, session: ChatSession)
      modifies session
      ensures session.State() == old(session.State()).(currentMessages := WithRating(old(session.currentMessages), message.id, LikeToggle(message.rating)))
    {
      session.UpdateMessageRating(message.id, LikeToggle(message.rating));
    }

    /** `handleDislike`. */
    method Dislike(message: ChatMessage, session: ChatSession)
      modifies session
      ensures session.State() == old(session.State()).(currentMessages := WithRating(old(session.currentMessages), message.id, DislikeToggle(message.rating)))
    {
      session.UpdateMessageRating(message.id, DislikeToggle(message.rating));
    }

    method OpenMenu()
      modifies this
      ensures menuOpen
      ensures isEditing == old(isEditing) && editContent == old(editContent) && isCopied == old(isCopied)
    {
      menuOpen := true;
    }

    method CloseMenu()
      modifies this
      ensures !menuOpen
      ensures isEditing == old(isEditing) && editContent == old(editContent) && isCopied == old(isCopied)
    {
      menuOpen := false;
    }

    /** `handleDelete`: this message leaves the chat and the menu closes. */
    method Delete(message: ChatMessage, session: ChatSession)
      modifies this, session
      ensures session.State() == old(session.State()).(currentMessages := WithoutMessage(old(session.currentMessages), message.id))
      ensures !menuOpen
      ensures isEditing == old(isEditing) && editContent == old(editContent) && isCopied == old(isCopied)
    {
      session.DeleteMessage(message.id);
      CloseMenu();
    }

    /** `handleCopy`: the copied flag goes up and the menu closes. */
    method Copy()
      modifies this
      ensures isCopied && !menuOpen
      ensures isEditing == old(isEditing) && editContent == old(editContent)
    {
      isCopied := true;
      CloseMenu();
    }

    /** The timer that ends the copied indication. */
    method CopyTimerFires()
      modifies this
      ensures !isCopied
      ensures isEditing == old(isEditing) && editContent == old(editContent) && menuOpen == old(menuOpen)
    {
      isCopied := false;
    }
  }
}
