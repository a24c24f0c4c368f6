/**
 * The widgets of the chat interface, reduced to what they do to the session
 * state: the sidebar's pinned/recent split, and the buttons whose callbacks
 * write a key of the session dictionary. A click is passed in as the button
 * that was pressed during this run (at most one per run); drawing is not modelled.
 */
module UiComponents {
  import opened Wrappers
  import opened ChatStore
  import opened SessionState

  // ---------------------------------------------------------------------------
  // Sidebar: pinned and recent lists

  /** The chats whose pinned flag is set, in list order. */
  function PinnedChats(chats: seq<ChatRecord>): (r: seq<ChatRecord>)
    ensures |r| <= |chats|
  {
    if chats == [] then []
    else (if chats[0].pinned then [chats[0]] else []) + PinnedChats(chats[1..])
  }

  /** The chats whose pinned flag is clear, in list order. */
  function RecentChats(chats: seq<ChatRecord>): (r: seq<ChatRecord>)
    ensures |r| <= |chats|
  {
    if chats == [] then []
    else (if !chats[0].pinned then [chats[0]] else []) + RecentChats(chats[1..])
  }

  /** The pinned list holds exactly the pinned chats of the input. */
  lemma {:induction false} PinnedMembers(chats: seq<ChatRecord>)
    ensures forall c :: c in PinnedChats(chats) <==> c in chats && c.pinned
  {
    if chats != [] {
      PinnedMembers(chats[1..]);
      assert chats == [chats[0]] + chats[1..];
    }
  }

  /** The recent list holds exactly the unpinned chats of the input. */
  lemma {:induction false} RecentMembers(chats: seq<ChatRecord>)
    ensures forall c :: c in RecentChats(chats) <==> c in chats && !c.pinned
  {
    if chats != [] {
      RecentMembers(chats[1..]);
      assert chats == [chats[0]] + chats[1..];
    }
  }

  /** The pinned list keeps the input order: splitting a concatenation splits each part. */
  lemma {:induction false} PinnedKeepsOrder(a: seq<ChatRecord>, b: seq<ChatRecord>)
    ensures PinnedChats(a + b) == PinnedChats(a) + PinnedChats(b)
  {
    if a == [] {
      assert a + b == b;
    } else {
      var head := if a[0].pinned then [a[0]] else [];
      assert (a + b)[0] == a[0] && (a + b)[1..] == a[1..] + b;
      assert PinnedChats(a + b) == head + PinnedChats(a[1..] + b);
      PinnedKeepsOrder(a[1..], b);
      assert PinnedChats(a) == head + PinnedChats(a[1..]);
      assert head + (PinnedChats(a[1..]) + PinnedChats(b)) == (head + PinnedChats(a[1..])) + PinnedChats(b);
    }
  }

  /** The recent list keeps the input order: splitting a concatenation splits each part. */
  lemma {:induction false} RecentKeepsOrder(a: seq<ChatRecord>, b: seq<ChatRecord>)
    ensures RecentChats(a + b) == RecentChats(a) + RecentChats(b)
  {
    if a == [] {
      assert a + b == b;
    } else {
      var head := if !a[0].pinned then [a[0]] else [];
      assert (a + b)[0] == a[0] && (a + b)[1..] == a[1..] + b;
      assert RecentChats(a + b) == head + RecentChats(a[1..] + b);
      RecentKeepsOrder(a[1..], b);
      assert RecentChats(a) == head + RecentChats(a[1..]);
      assert head + (RecentChats(a[1..]) + RecentChats(b)) == (head + RecentChats(a[1..])) + RecentChats(b);
    }
  }

  /** The two lists together hold every chat of the input, as often as it occurs there. */
  lemma {:induction false} SplitIsPartition(chats: seq<ChatRecord>)
    ensures multiset(PinnedChats(chats)) + multiset(RecentChats(chats)) == multiset(chats)
  {
    if chats != [] {
      var rest := chats[1..];
      SplitIsPartition(rest);
      assert chats == [chats[0]] + rest;
      assert multiset(chats) == multiset{chats[0]} + multiset(rest);
      if chats[0].pinned {
        assert PinnedChats(chats) == [chats[0]] + PinnedChats(rest);
        assert RecentChats(chats) == RecentChats(rest);
      } else {
        assert PinnedChats(chats) == PinnedChats(rest);
        assert RecentChats(chats) == [chats[0]] + RecentChats(rest);
      }
    }
  }

  /** No chat is drawn in both lists. */
  lemma SplitIsDisjoint(chats: seq<ChatRecord>)
    ensures forall c :: !(c in PinnedChats(chats) && c in RecentChats(chats))
  {
    PinnedMembers(chats);
    RecentMembers(chats);
  }

  // ---------------------------------------------------------------------------
  // Sidebar item buttons

  datatype ItemButton = LoadButton | SidebarPinButton | MenuButton

  /** A click on one button of the sidebar entry of a chat. */
  datatype ItemClick = ItemClick(id: ChatId, button: ItemButton)

  /** The one key each sidebar button writes. */
  function ItemKey(b: ItemButton): (k: Key)
    ensures b == LoadButton <==> k == ActiveChatId
    ensures b == SidebarPinButton <==> k == PinChat
    ensures b == MenuButton <==> k == ShowMenuFor
  {
    match b
    case LoadButton => ActiveChatId
    case SidebarPinButton => PinChat
    case MenuButton => ShowMenuFor
  }

  /** The sidebar entry of one chat: each of its three buttons sets exactly one key to the chat's id. */
  method RenderChatItem(st: Session, chat: ChatRecord, click: Option<ItemButton>)
    modifies st
    ensures click.None? ==> st.vars == old(st.vars)
    ensures click == Some(LoadButton) ==> st.vars == old(st.vars)[ActiveChatId := IdVal(chat.id)]
    ensures click == Some(SidebarPinButton) ==> st.vars == old(st.vars)[PinChat := IdVal(chat.id)]
    ensures click == Some(MenuButton) ==> st.vars == old(st.vars)[ShowMenuFor := IdVal(chat.id)]
  {
    if click == Some(LoadButton) {
      st.vars := st.vars[ActiveChatId := IdVal(chat.id)];
    }
    if click == Some(SidebarPinButton) {
      st.vars := st.vars[PinChat := IdVal(chat.id)];
    }
    if click == Some(MenuButton) {
      st.vars := st.vars[ShowMenuFor := IdVal(chat.id)];
    }
  }

  /** Some chat in the list has this id, so its sidebar entry is drawn. */
  ghost predicate Listed(chats: seq<ChatRecord>, id: ChatId)
  {
    exists c :: c in chats && c.id == id
  }

  /** The session after a sidebar click, if the clicked chat is among those drawn. */
  ghost function AfterItemClick(vars: Vars, shown: seq<ChatRecord>, click: Option<ItemClick>): (r: Vars)
    ensures click.Some? && Listed(shown, click.value.id) ==>
              && r.Keys == vars.Keys + {ItemKey(click.value.button)}
              && r[ItemKey(click.value.button)] == IdVal(click.value.id)
              && forall k :: k in vars && k != ItemKey(click.value.button) ==> r[k] == vars[k]
    ensures !(click.Some? && Listed(shown, click.value.id)) ==> r == vars
  {
    if click.Some? && Listed(shown, click.value.id)
    then vars[ItemKey(click.value.button) := IdVal(click.value.id)]
    else vars
  }

  function ClickFor(click: Option<ItemClick>, chat: ChatRecord): Option<ItemButton>
  {
    if click.Some? && click.value.id == chat.id then Some(click.value.button) else None
  }

  /** Draws one list of sidebar entries; only the entry of the clicked chat reacts. */
  method RenderChatItems(st: Session, chats: seq<ChatRecord>, click: Option<ItemClick>)
    modifies st
    ensures st.vars == AfterItemClick(old(st.vars), chats, click)
  {
    ghost var start := st.vars;
    for i := 0 to |chats|
      invariant st.vars == AfterItemClick(start, chats[..i], click)
    {
      assert chats[..i + 1] == chats[..i] + [chats[i]];
      RenderChatItem(st, chats[i], ClickFor(click, chats[i]));
    }
    assert chats[..|chats|] == chats;
  }

  /**
   * The chat-history sidebar: pinned chats, then the rest. A click on an entry
   * writes its key exactly when the clicked chat is in the list.
   */
  method SidebarChatHistoryUi(st: Session, chatList: seq<ChatRecord>, click: Option<ItemClick>)
    modifies st
    ensures st.vars == AfterItemClick(old(st.vars), chatList, click)
  {
    PinnedMembers(chatList);
    RecentMembers(chatList);
    var pinned := PinnedChats(chatList);
    RenderChatItems(st, pinned, click);
    var recent := RecentChats(chatList);
    RenderChatItems(st, recent, click);
    if click.Some? && Listed(chatList, click.value.id) {
      var c :| c in chatList && c.id == click.value.id;
      assert c in pinned || c in recent;
    }
  }

  // ---------------------------------------------------------------------------
  // The chat options modal

  datatype ModalButton = EditTitleButton | DeleteButton | PinButton | CloseButton

  /** What a modal button does to the session: Edit, Delete and Pin each mark the chat for that action; Close drops the menu. */
  function ModalEffect(vars: Vars, chatId: Value, click: Option<ModalButton>): (r: Vars)
    ensures click.None? ==> r == vars
    ensures click == Some(EditTitleButton) ==> r == vars[EditTitleFor := chatId]
    ensures click == Some(DeleteButton) ==> r == vars[DeleteChat := chatId]
    ensures click == Some(PinButton) ==> r == vars[PinChat := chatId]
    ensures click == Some(CloseButton) ==>
              r.Keys == vars.Keys - {ShowMenuFor} && forall k :: k in r ==> r[k] == vars[k]
    ensures click == Some(CloseButton) && ShowMenuFor !in vars ==> r == vars
    ensures WellTyped(vars) && (chatId.Null? || chatId.IdVal?) ==> WellTyped(r)
    ensures Initialised(vars) ==> Initialised(r)
    ensures Get(r, ActiveChatId) == Get(vars, ActiveChatId) && Get(r, Paused) == Get(vars, Paused)
  {
    match click
    case None => vars
    case Some(EditTitleButton) => vars[EditTitleFor := chatId]
    case Some(DeleteButton) => vars[DeleteChat := chatId]
    case Some(PinButton) => vars[PinChat := chatId]
    case Some(CloseButton) => vars - {ShowMenuFor}
  }

  method ChatOptionsModal(st: Session, chatId: Value, click: Option<ModalButton>)
    modifies st
    ensures st.vars == ModalEffect(old(st.vars), chatId, click)
  {
    if click == Some(EditTitleButton) {
      st.vars := st.vars[EditTitleFor := chatId];
    }
    if click == Some(DeleteButton) {
      st.vars := st.vars[DeleteChat := chatId];
    }
    if click == Some(PinButton) {
      st.vars := st.vars[PinChat := chatId];
    }
    if click == Some(CloseButton) {
      st.vars := st.vars - {ShowMenuFor};
    }
  }

  // ---------------------------------------------------------------------------
  // The input row and the pause button

  /** The pause button: paused becomes the negation of its current value, a missing value reading as False. */
  function PauseToggled(vars: Vars): (r: Vars)
    ensures r.Keys == vars.Keys + {Paused}
    ensures forall k :: k in vars && k != Paused ==> r[k] == vars[k]
    ensures Truthy(r[Paused]) == !Truthy(GetOr(vars, Paused, Flag(false)))
    ensures WellTyped(vars) ==> WellTyped(r)
  {
    vars[Paused := Flag(!Truthy(GetOr(vars, Paused, Flag(false))))]
  }

  /** Two presses restore the pause state: exactly, when it was a stored boolean; otherwise it reads as False. */
  lemma PausePressedTwice(vars: Vars)
    ensures Truthy(PauseToggled(PauseToggled(vars))[Paused]) == Truthy(GetOr(vars, Paused, Flag(false)))
    ensures Paused in vars && vars[Paused].Flag? ==> PauseToggled(PauseToggled(vars)) == vars
    ensures Paused !in vars ==> PauseToggled(PauseToggled(vars)) == vars[Paused := Flag(false)]
  {
  }

  /** The input row: returns what is in the text box; the pause button toggles the pause flag. */
  method UserInputUi(st: Session, text: string, pauseClicked: bool) returns (userInput: string)
    modifies st
    ensures userInput == text
    ensures st.vars == if pauseClicked then PauseToggled(old(st.vars)) else old(st.vars)
  {
    userInput := text;
    if pauseClicked {
      st.vars := PauseToggled(st.vars);
    }
  }

  // ---------------------------------------------------------------------------
  // Message buttons under the displayed chat

  datatype MessageButton = EditMessageButton | CopyButton | PinMessageButton

  /** What a message button does: Edit marks the chat for edit mode, Pin marks it for pinning, Copy writes nothing. */
  function MessageEffect(vars: Vars, id: ChatId, click: Option<MessageButton>): (r: Vars)
    ensures click.None? || click == Some(CopyButton) ==> r == vars
    ensures click == Some(EditMessageButton) ==> r == vars[EditMode := IdVal(id)]
    ensures click == Some(PinMessageButton) ==> r == vars[PinChat := IdVal(id)]
    ensures WellTyped(vars) ==> WellTyped(r)
  {
    match click
    case Some(EditMessageButton) => vars[EditMode := IdVal(id)]
    case Some(PinMessageButton) => vars[PinChat := IdVal(id)]
    case _ => vars
  }

  /** One message of the displayed chat with its edit, copy and pin buttons. */
  method ChatMessageUi(st: Session, id: ChatId, click: Option<MessageButton>)
    modifies st
    ensures st.vars == MessageEffect(old(st.vars), id, click)
  {
    if click == Some(EditMessageButton) {
      st.vars := st.vars[EditMode := IdVal(id)];
    }
    if click == Some(PinMessageButton) {
      st.vars := st.vars[PinChat := IdVal(id)];
    }
  }
}
