/**
 * The conversation list of components/Sidebar.jsx: selecting, renaming and clearing chats, the
 * search box, and the split of the list into recent and older chats.
 */
module Sidebar {
  import opened Wrappers
  import opened Seqs
  import opened Text
  import opened Protocol
  import opened ChatContext

  /** A key press in the rename field. */
  datatype RenameKey = Enter | Escape | OtherKey

  /** Seven days in milliseconds. */
  const Week: int := 7 * 24 * 60 * 60 * 1000

  /** `getSafeTime`: a missing or unparseable date counts as time 0. */
  function SafeTime(t: Timestamp): int {
    match t
    case NoTimestamp => 0
    case Unparseable => 0
    case At(ms) => ms
  }

  /** The test of the "recent" filter: no date, or created after the cutoff. */
  function IsRecent(cutoff: int): ChatSummary -> bool {
    (c: ChatSummary) => c.createdAt.NoTimestamp? || SafeTime(c.createdAt) > cutoff
  }

  /** The test of the "older" filter: a date, at or before the cutoff. */
  function IsOlder(cutoff: int): ChatSummary -> bool {
    (c: ChatSummary) => !c.createdAt.NoTimestamp? && SafeTime(c.createdAt) <= cutoff
  }

  /** `sevenDaysAgo`, from the clock reading `now`. */
  function SevenDaysAgo(now: int): int {
    now - Week
  }

  function RecentChats(cs: seq<ChatSummary>, cutoff: int): seq<ChatSummary> {
    Filter(cs, IsRecent(cutoff))
  }

  function OlderChats(cs: seq<ChatSummary>, cutoff: int): seq<ChatSummary> {
    Filter(cs, IsOlder(cutoff))
  }

  /**
   * The two groups split the list: every entry lands in exactly one of them, so together they
   * hold each entry as often as the list does.
   */
  lemma PartitionExact(cs: seq<ChatSummary>, cutoff: int)
    ensures multiset(RecentChats(cs, cutoff)) + multiset(OlderChats(cs, cutoff)) == multiset(cs)
    ensures |RecentChats(cs, cutoff)| + |OlderChats(cs, cutoff)| == |cs|
    ensures forall c :: c in cs ==> (c in RecentChats(cs, cutoff) <==> c !in OlderChats(cs, cutoff))
  {
    FilterPartition(cs, IsRecent(cutoff), IsOlder(cutoff));
  }

  /** A chat without a date is recent; one with an unparseable date is dated at time 0. */
  lemma UndatedPlacement(c: ChatSummary, cs: seq<ChatSummary>, cutoff: int)
    requires c in cs
    ensures c.createdAt.NoTimestamp? ==> c in RecentChats(cs, cutoff)
    ensures c.createdAt.Unparseable? ==> (c in RecentChats(cs, cutoff) <==> 0 > cutoff)
    ensures c.createdAt.At? ==> (c in RecentChats(cs, cutoff) <==> c.createdAt.ms > cutoff)
  {
  }

  /** Both groups keep the list's order: filtering a concatenation filters each part in turn. */
  lemma PartitionKeepsOrder(a: seq<ChatSummary>, b: seq<ChatSummary>, cutoff: int)
    ensures RecentChats(a + b, cutoff) == RecentChats(a, cutoff) + RecentChats(b, cutoff)
    ensures OlderChats(a + b, cutoff) == OlderChats(a, cutoff) + OlderChats(b, cutoff)
  {
    FilterConcat(a, b, IsRecent(cutoff));
    FilterConcat(a, b, IsOlder(cutoff));
  }

  /** The delete and edit buttons: on the selected chat only, and not while a rename is open. */
  predicate ShowChatActions(chat: ChatSummary, currentChatId: Option<string>, editingChatId: Option<string>) {
    Some(chat.id) == currentChatId && !Truthy(editingChatId)
  }

  /**
   * After clicking a chat, the list is unchanged and exactly the chats with the clicked id offer
   * actions, unless a rename is open, when none does.
   */
  lemma ChatActionsFollowSelection(s: Session, id: string, editingChatId: Option<string>)
    ensures var r := Selected(s, Some(id));
      && r.conversations == s.conversations
      && forall i :: 0 <= i < |r.conversations| ==>
           (ShowChatActions(r.conversations[i], r.currentChatId, editingChatId) <==>
              r.conversations[i].id == id && !Truthy(editingChatId))
  {
  }

  /** The sidebar's own state. */
  class SidebarState {
    var isSearchOpen: bool
    var editingChatId: Option<string>
    var editTitle: string
    var openClearDialog: bool

    constructor ()
      ensures !isSearchOpen && editingChatId == None && editTitle == "" && !openClearDialog
    {
      isSearchOpen := false;
      editingChatId := None;
      editTitle := "";
      openClearDialog := false;
    }

    /** `handleSelectChat(id)`: ignored while a rename is open. */
    method SelectChat(session: ChatSession, id: string)
      modifies session
      ensures Truthy(editingChatId) ==> session.State() == old(session.State())
      ensures !Truthy(editingChatId) ==> session.State() == Selected(old(session.State()), Some(id))
    {
      if Truthy(editingChatId) {
        return;
      }
      session.SetCurrentChatId(Some(id));
    }

    /** `handleEditStart(e, chat)`: the rename field opens on this chat with its title. */
    method EditStart(chat: ChatSummary)
      modifies this
      ensures editingChatId == Some(chat.id) && editTitle == chat.title
      ensures isSearchOpen == old(isSearchOpen) && openClearDialog == old(openClearDialog)
    {
      editingChatId := Some(chat.id);
      editTitle := chat.title;
    }

    /** `onChange` of the rename field. */
    method EditTitleChange(value: string)
      modifies this
      ensures editTitle == value
      ensures editingChatId == old(editingChatId)
      ensures isSearchOpen == old(isSearchOpen) && openClearDialog == old(openClearDialog)
    {
      editTitle := value;
    }

    /**
     * `handleRenameSubmit`: a non-blank draft renames the chat being edited to the trimmed
     * draft; either way the rename field closes and the draft empties. `fails` is whether the
     * PATCH request rejects.
     */
    method RenameSubmit(session: ChatSession, fails: bool)
      requires editingChatId.Some?
      modifies this, session
      ensures IsBlank(old(editTitle)) ==> session.State() == old(session.State())
      ensures !IsBlank(old(editTitle)) ==>
                session.State() == RenamedChat(old(session.State()), old(editingChatId).value, Trim(old(editTitle)), fails)
      ensures editingChatId == None && editTitle == ""
      ensures isSearchOpen == old(isSearchOpen) && openClearDialog == old(openClearDialog)
    {
      if !IsBlank(editTitle) {
        session.RenameChat(editingChatId.value, Trim(editTitle), fails);
      }
      editingChatId := None;
      editTitle := "";
    }

    /** `handleRenameKeyDown`: Enter submits; Escape closes the field without renaming. */
    method RenameKeyDown(session: ChatSession, key: RenameKey, fails: bool)
      requires editingChatId.Some?
      modifies this, session
      ensures key == Enter && !IsBlank(old(editTitle)) ==>
                session.State() == RenamedChat(old(session.State()), old(editingChatId).value, Trim(old(editTitle)), fails)
      ensures key != Enter || IsBlank(old(editTitle)) ==> session.State() == old(session.State())
      ensures key == Enter ==> editingChatId == None && editTitle == ""
      ensures key == Escape ==> editingChatId == None && editTitle == old(editTitle)
      ensures key == OtherKey ==> editingChatId == old(editingChatId) && editTitle == old(editTitle)
      ensures isSearchOpen == old(isSearchOpen) && openClearDialog == old(openClearDialog)
    {
      if key == Enter {
        RenameSubmit(session, fails);
      } else if key == Escape {
        editingChatId := None;
      }
    }

    /** `handleDeleteClick(e, chatId)`. */
    method DeleteClick(session: ChatSession, chatId: string, fails: bool)
      modifies session
      ensures session.State() == DeletedChat(old(session.State()), chatId, fails)
    {
      session.DeleteChat(chatId, fails);
    }

    /** `handleClearAllClick`: only opens the dialog. */
    method ClearAllClick()
      modifies this
      ensures openClearDialog
      ensures isSearchOpen == old(isSearchOpen) && editingChatId == old(editingChatId) && editTitle == old(editTitle)
    {
      openClearDialog := true;
    }

    /** `handleConfirmClear`: clears every chat and closes the dialog. */
    method ConfirmClear(session: ChatSession, fails: bool)
      modifies this, session
      ensures session.State() == ClearedAll(old(session.State()), fails)
      ensures !openClearDialog
      ensures isSearchOpen == old(isSearchOpen) && editingChatId == old(editingChatId) && editTitle == old(editTitle)
    {
      session.ClearAllChats(fails);
      openClearDialog := false;
    }

    /** `handleCancelClear`: closes the dialog; the session is not touched. */
    method CancelClear()
      modifies this
      ensures !openClearDialog
      ensures isSearchOpen == old(isSearchOpen) && editingChatId == old(editingChatId) && editTitle == old(editTitle)
    {
      openClearDialog := false;
    }

    /** The search button. */
    method OpenSearch()
      modifies this
      ensures isSearchOpen
      ensures editingChatId == old(editingChatId) && editTitle == old(editTitle) && openClearDialog == old(openClearDialog)
    {
      isSearchOpen := true;
    }

    /** Closing the search box also empties the query. */
    method CloseSearch(session: ChatSession)
      modifies this, session
      ensures !isSearchOpen && session.State() == old(session.State()).(searchQuery := "")
      ensures editingChatId == old(editingChatId) && editTitle == old(editTitle) && openClearDialog == old(openClearDialog)
    {
      isSearchOpen := false;
      session.SetSearchQuery("");
    }
  }
}
