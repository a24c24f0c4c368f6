# EduMate session-state model

EduMate is a Streamlit study assistant. Each user action re-runs `app.py`
from top to bottom against two pieces of state: the per-browser session
dictionary `st.session_state` and the persistent chat store `ChatHistory`.
This project models that state machine in Dafny and proves what each block
of the script and each widget does to it.

- `chat_store.dfy` (module `ChatStore`): the chat store as the script uses
  it. It is a map from id to record with a counter that hands out fresh ids.
  The pure operations (`Insert`, `Find`, `FlipPin`, `Remove`, `Retitle`,
  `Listing`) specify the methods of the `ChatHistory` class, whose field
  `db` the script changes in place.
- `session_state.dfy` (module `SessionState`): the session dictionary as a
  `map<Key, Value>` held in the class `Session`. It also holds Python
  truthiness, `dict.get` and the defaults that the top of the script fills in.
- `ui_components.dfy` (module `UiComponents`): the sidebar's pinned/recent
  split as pure functions. It also holds the session writes of the widgets:
  sidebar entry buttons, the chat options modal, the input row with its
  pause button, and the message buttons.
- `app.dfy` (module `App`): the script itself.
  - Each block is a method on a `Session` and a `ChatHistory`.
  - `Run` is one whole run for one user `Event`. A run ends at the bottom
    of the script, at `st.rerun()` (`Rerun`), or with an uncaught
    exception (`Fault`).
  - `TopStep` is a function that specifies the top half of the script:
    initialisation, the sidebar and the menu-action block.

The model follows the code in one place where the code behaves oddly.
Deleting a chat from its options menu does not close the menu
(app.py:66-72 never touches `show_menu_for`). Pressing Pin/Unpin in that
menu then reads `["pinned"]` from the `None` that `get_chat` returns for the
deleted chat, and the run raises. `App.PinInMenuOfDeletedChatFaults` proves
that this sequence ends in `Fault` from any session that has no pending pin
or delete.

Two more behaviours are kept as written:
- A `pin_chat` set from the sidebar or from a message button is handled only
  while some chat menu is open (app.py:52-65). Until then no record's pin
  flag changes (`App.RunStep`).
- Save stores whatever the title box holds, the empty string included
  (`App.TitleSaved`).

`edit_mode` is written by the message edit button, but nothing in the script
reads it.

## Model

| member | source | states |
|---|---|---|
| ChatStore.Find | app.py:109-111 | An absent id gives None, which the script treats as "no chat". A present id gives exactly the record filed under it, and that record carries the id. |
| ChatStore.Insert | app.py:97-102 | Create files one new record under an id never used before, with exactly the given title, question, answer and pin flag. Every existing record is unchanged and the store stays well formed. |
| ChatStore.FlipPin | app.py:55 | Toggling flips the pinned flag of that record only. The set of ids is unchanged. A missing id changes nothing. |
| ChatStore.Remove | app.py:67 | Delete removes exactly that id. Every other record is unchanged and the id counter is kept. |
| ChatStore.Retitle | app.py:76 | A title update changes that record's title alone. Its id, question, answer and pin flag are unchanged, and so is every other record. |
| ChatStore.ListBelow | app.py:49 | The records with id below n, each exactly as filed in the table. No record below n is missing. |
| ChatStore.ListBelowDescending | app.py:49 | The partial listing is in strictly decreasing id order, so no id appears twice. |
| ChatStore.Listing | app.py:49 | get_all_chats lists only records of the table, every record, newest first, with no id repeated. |
| ChatStore.ListBelowCount | app.py:49 | The partial listing has exactly as many entries as there are ids in use below n. |
| ChatStore.ListingCount | app.py:49 | The listing has exactly as many entries as the table has records. |
| ChatStore.InsertThenFind | app.py:97-104 | Looking up a newly created id gives back the record as created, and the table grows by exactly one. |
| ChatStore.FlipPinTwice | app.py:55 | Toggling a pin twice restores the store. |
| ChatStore.RemoveThenFind | app.py:67 | After a delete the id cannot be found. A second delete changes nothing. |
| ChatStore.RemovedIdNotReused | app.py:67 | A create right after deleting an id does not hand that id out again. Neither does a create on any later well-formed store whose id counter has not gone back. |
| ChatStore.ChatHistory.constructor | app.py:14 | The store object starts from the persisted table. |
| ChatStore.ChatHistory.CreateChat | app.py:97-102 | The returned id was not in use, and the table becomes Insert of the old table. |
| ChatStore.ChatHistory.GetChat | app.py:110 | Returns Find on the current table. |
| ChatStore.ChatHistory.GetAllChats | app.py:49 | Returns Listing of the current table. |
| ChatStore.ChatHistory.TogglePin | app.py:55 | The table becomes FlipPin of the old table. |
| ChatStore.ChatHistory.DeleteChat | app.py:67 | The table becomes Remove of the old table. |
| ChatStore.ChatHistory.UpdateChat | app.py:76 | The table becomes Retitle of the old table. |
| SessionState.WithDefaultsOn | app.py:33-44 | Initialising a given set of keys keeps every present key. It adds each missing key of the set with its default, and no other key. |
| SessionState.Fill | app.py:33-44 | One `if key not in st.session_state` guard: a present key leaves the session exactly as it was; a missing key is added with the given value and nothing else changes. |
| SessionState.FillAddsDefault | app.py:33-44 | One more guarded assignment with a key's default initialises exactly one more key. |
| SessionState.WithDefaults | app.py:33-44 | Initialisation keeps every present key. It adds each missing initialised key with its default: the chat list for history, False for paused, None otherwise. The result has all initialised keys and stays well typed. |
| SessionState.FillsAreDefaults | app.py:33-44 | The six guarded assignments, applied in order, give exactly WithDefaults. |
| SessionState.InitIdempotent | app.py:33-44 | Once every initialised key is present, initialisation changes nothing, whatever the store holds by then. |
| SessionState.Session.constructor | app.py:33 | A new browser session starts with an empty dictionary. |
| UiComponents.PinnedChats | logic/ui_components.py:32 | The pinned list is no longer than the chat list. |
| UiComponents.RecentChats | logic/ui_components.py:38 | The recent list is no longer than the chat list. |
| UiComponents.PinnedMembers | logic/ui_components.py:32 | A chat is in the pinned list exactly when it is in the input and its pinned flag is set. |
| UiComponents.RecentMembers | logic/ui_components.py:38 | A chat is in the recent list exactly when it is in the input and its pinned flag is clear. |
| UiComponents.PinnedKeepsOrder | logic/ui_components.py:32 | The pinned filter distributes over concatenation, so it keeps the input order. |
| UiComponents.RecentKeepsOrder | logic/ui_components.py:38 | The recent filter distributes over concatenation, so it keeps the input order. |
| UiComponents.SplitIsPartition | logic/ui_components.py:29-42 | The multisets of the two lists add up to the multiset of the input. |
| UiComponents.SplitIsDisjoint | logic/ui_components.py:32-38 | No chat appears in both lists. |
| UiComponents.ItemKey | logic/ui_components.py:45-56 | Load writes active_chat_id, the sidebar pin writes pin_chat and the menu button writes show_menu_for, each in both directions. |
| UiComponents.RenderChatItem | logic/ui_components.py:45-56 | Each sidebar button sets exactly its one key to the chat's id. With no click, nothing changes. |
| UiComponents.AfterItemClick | logic/ui_components.py:45-56 | A click on an entry drawn in the sidebar writes its one key (active_chat_id, pin_chat or show_menu_for) to the chat's id, adds no other key and changes no other key. A click on a chat not drawn, or no click, leaves the session as it was. |
| UiComponents.RenderChatItems | logic/ui_components.py:35-36 | Drawing a list of entries applies the click exactly when the clicked chat is in that list. |
| UiComponents.SidebarChatHistoryUi | logic/ui_components.py:29-42 | Drawing the pinned list and then the recent list applies the click exactly when the clicked chat is in the input list. |
| UiComponents.ModalEffect | logic/ui_components.py:59-72 | Edit, Delete and Pin set edit_title_for, delete_chat and pin_chat to the modal's chat id. Close removes show_menu_for, and is a no-op when it is absent. Nothing else changes. An initialised session stays initialised, and active_chat_id and paused are never touched. |
| UiComponents.ChatOptionsModal | logic/ui_components.py:59-72 | The session becomes ModalEffect of the old session. |
| UiComponents.PauseToggled | logic/ui_components.py:85-86 | paused becomes the negation of its value, a missing value reading as False. No other key changes. |
| UiComponents.PausePressedTwice | logic/ui_components.py:85-86 | Two presses restore a stored boolean exactly. A missing flag ends up stored as False. |
| UiComponents.UserInputUi | logic/ui_components.py:75-88 | Returns the text box's contents. The pause button, when pressed, toggles paused. |
| UiComponents.MessageEffect | logic/ui_components.py:7-26 | Edit sets edit_mode to the chat id and Pin sets pin_chat to it. Copy writes nothing. |
| UiComponents.ChatMessageUi | logic/ui_components.py:7-26 | The session becomes MessageEffect of the old session. |
| App.InitSessionState | app.py:33-44 | The session becomes WithDefaults of the old session and the current listing. |
| App.PendingId | app.py:54-55 | A set pending key holds a chat id. |
| App.PinHandled | app.py:54-65 | The pending record's flag is flipped and no other record changes. If the record still exists, pin_chat is cleared and the run reruns. If it is gone, the run raises and the session is left as it was. The session stays initialised and well typed, paused is untouched, the store stays well formed and a valid active id stays valid. |
| App.DeleteHandled | app.py:66-72 | The pending record is gone and delete_chat is cleared. active_chat_id becomes None exactly when it held the deleted id. No other key changes, show_menu_for included, and the run reruns. The session stays initialised and well typed, the store well formed, and a valid active id stays valid. |
| App.TitleSaved | app.py:73-79 | Only the pending record's title changes, to the text given (even ""). edit_title_for is cleared and the run reruns. The session stays initialised and well typed, paused is untouched, the store stays well formed and a valid active id stays valid. |
| App.MenuStep | app.py:52-79 | With no menu open nothing happens. The session stays initialised and well typed, the store well formed and no record is created. paused is untouched. A valid active id stays valid. The store changes only when the run reruns or raises, and the id counter never moves. |
| App.HandleMenuActions | app.py:52-79 | The session, store and outcome are exactly MenuStep of the old ones. |
| App.ExtractText | app.py:89-93 | A file of MIME type application/pdf goes to the PDF extractor; any other file goes to the image extractor. |
| App.SaveStep | app.py:97-106 | One new unpinned record with the given fields under an id not in use. No old record changes and the id counter does not go back. history becomes the new listing, active_chat_id the new id, no other key changes, and the run reruns. The new active id resolves. |
| App.SaveAndActivate | app.py:97-106 | The session, store and outcome are exactly SaveStep of the old ones, and the returned id is the new active id. |
| App.SummarizeDocument | app.py:88-106 | The session, store and outcome are exactly SaveStep with title "Document Summary", question "Summarize this document" and the summary of ExtractText as answer. The returned id is the new active chat. |
| App.ActiveChat | app.py:109-111 | The shown chat exists exactly when the active id is set and its record exists, and it is that record. A dangling id shows nothing. |
| App.Displayed | app.py:108-127 | With a chat shown, a message button of that chat has MessageEffect on the session; otherwise the session is unchanged. active_chat_id and paused are untouched, and the session stays initialised and well typed. |
| App.DisplayActiveChat | app.py:108-127 | Returns ActiveChat, and the session becomes Displayed of the old session. |
| App.AutoTitle | app.py:141 | An input of at most 25 characters is its own title. A longer one gives its first 25 characters followed by "...", 28 in all. A title never exceeds 28. |
| App.InputStep | app.py:130-149 | Paused: no record is created, and Resume clears the flag and reruns. Not paused: the pause button toggles the flag. A non-empty question adds exactly one record: question = input, answer = the response, title = AutoTitle, unpinned. That record becomes the active chat and the run reruns. An empty input changes nothing more. The id counter never goes back and a valid active id stays valid. |
| App.HandleChatInput | app.py:130-149 | The session, store and outcome are exactly InputStep of the old ones. A record id is returned exactly when the old session was not paused and the input is not empty, and it is the new active id. |
| App.SidebarKeepsSession | app.py:47-49 | A sidebar click keeps a valid active id valid and never touches paused. Only the menu button changes show_menu_for. The session stays initialised and well typed. |
| App.TopStep | app.py:33-79 | The top half keeps the session initialised and well typed and the store well formed. It creates no record and keeps a valid active id valid. It preserves paused (missing reads as False). With no menu open and no menu click it continues with the store unchanged. The id counter never moves. |
| App.RunTop | app.py:33-79 | The script's top half leaves exactly the state and outcome TopStep gives. |
| App.BottomStep | app.py:84-149 | Summarize is SaveStep of the summary. Otherwise the active-chat pane (Displayed) and then the input area (InputStep) run. No existing record changes and the id counter never goes back. A new record appears only for Summarize or for a non-empty question while not paused. |
| App.RunBottom | app.py:84-149 | The session, store and outcome are exactly BottomStep of the old ones. |
| App.RunStep | app.py:33-149 | One run is TopStep, then BottomStep unless the top reran or raised. It keeps the session well typed and the active chat resolvable, and the id counter never goes back. Records are created only by Summarize or a non-empty question asked while not paused. With no menu open, no pin flag changes. |
| App.Run | app.py:33-149 | The session, store and outcome are exactly RunStep of the old ones. |
| App.AskStoresQuestion | app.py:135-149 | With no menu open and not paused, a non-empty question reruns with exactly one new record under a fresh id: the auto-title, the question, its answer, unpinned. That record is the active chat. |
| App.ResumeClearsPause | app.py:130-134 | With no menu open and paused, Resume sets paused to False, changes no record and reruns. |
| App.Runs | app.py:33-149 | Any sequence of runs, each starting from what the previous one left, keeps the session well typed and the store well formed. |
| App.CounterNeverGoesBack | app.py:97-102 | However many runs follow, the id counter is never lower than before. |
| App.UsedIdNeverReused | app.py:140-145 | An id in use before any sequence of runs, deleted since or not, is never handed out by a create after them. |
| App.MenuButtonOpensMenu | logic/ui_components.py:55-56 | The sidebar menu button of a listed chat, with no pin or delete pending, opens the menu on that chat. The run continues and the store is unchanged. |
| App.DeleteLeavesMenuOpen | app.py:66-72 | Delete in a menu open on a chat removes the chat and reruns, but show_menu_for still holds the deleted id. |
| App.PinInMenuOfMissingChatFaults | app.py:54-59 | Pin/Unpin in a menu open on a chat that is no longer stored raises. |
| App.PinInMenuOfDeletedChatFaults | app.py:52-72 | Open a chat's menu (the run continues), press Delete (the record is gone, the menu stays open on it, the run reruns), then press Pin/Unpin: the run raises. |

## Left out

- Streamlit rendering is not modelled: page config, CSS, headers, columns, spinners, toasts and the `st.modal` container. A toast has no effect on state. `st.rerun()` is the end of one run (`Rerun`), and the run it triggers is the next event.
- The widget runtime is not modelled. A widget's value is an input of the run in which it fires: a button press is an `Event`, and the text box holds text only in an `Ask` event (its text); every other event has an empty box.
- App.DisplayActiveChat: the question pane and the answer pane both key their buttons `edit-{id}`, `copy-{id}` and `pin-{id}` by the same chat id (logic/ui_components.py:16,20,24). Streamlit refuses a second widget with a key already used in the run, so with a chat shown the second call (app.py:120) raises. The model draws both panes with the same click and continues.
- App.RunBottom: because of that duplicate-key error, a run with a chat shown never reaches the input area in the real app. The model goes on to the input area after the pane.
- App.HandleChatInput: the text box (key `user_input`, logic/ui_components.py:78) keeps its contents across runs, `st.rerun()` (app.py:149) included, and app.py:136-149 reads it on every run that is not paused. The model has a non-empty box only in an `Ask` event; every other event is modelled with an empty box. So any unpaused run that shows no chat and reaches app.py:136 with text still in the box (a pause run, a sidebar pin or menu run, a modal run) stores that text again in the app but not in the model. A run that shows a chat raises at app.py:120 before the box is read (see App.DisplayActiveChat above).
- App.BottomStep: passes the box's text only for `Ask` and the empty string for every other event (see App.HandleChatInput above), and goes on to the input area after the active-chat pane although with a chat shown the app raises at app.py:120 (see App.DisplayActiveChat above).
- App.RunStep: its clause that new records come only from `Ask` or Summarize rests on the empty box of every other event; in the app a leftover box stores a question on any unpaused run that reaches app.py:136. With a chat shown the app raises at app.py:120 instead of reaching the input area, which the model does.
- App.Run: equals App.RunStep and shares both gaps: the box is empty outside `Ask`, and a shown chat does not raise at app.py:120.
- App.AskStoresQuestion: holds in the model whether or not a chat is shown; in the app, with a chat shown, the run raises at app.py:120 before the question is read.
- App.ResumeClearsPause: holds in the model whether or not a chat is shown; in the app, with a chat shown, the run raises at app.py:120 before the Resume button (app.py:131) is drawn, so Resume can be pressed only while no chat is shown.
- The answering model (`answer_question`) is an opaque function from question to answer. logic/qna.py is not part of this model, and it does not define the name app.py:7 imports.
- The summariser and the PDF and image text extractors are opaque functions. logic/summarizer.py and logic/utils.py are not part of this model.
- The MIME type dispatch (app.py:89-93) is the two-way choice the script makes: PDF or anything else. The uploader's accepted extensions are not modelled.
- logic/chat_history.py is not part of this model. Its operations are modelled as the script uses them:
  - `get_chat` returns None for a missing id (app.py:111 tests for that).
  - `toggle_pin`, `update_chat` and `delete_chat` on a missing id change nothing. A second Delete in a menu left open on a deleted chat (app.py:66-72) reaches `delete_chat` with a missing id.
  - Ids are fresh and never reused.
  - `get_all_chats` lists newest first; the order it really uses is not shown.
  - Database initialisation (app.py:14) is the constructor.
- Timestamps (`created_at`, `updated_at`) and uuid generation are not modelled. Ids are natural numbers from a counter, and the message panes' timestamps are not shown.
- `attach_mode` (logic/ui_components.py:82-83) is set but nothing reads it, so it is not modelled.
- Python strings are sequences of characters. `len` and slicing count code points, and the model counts elements of `seq<char>`.
- UiComponents.PinnedChats: its own contract states only the length bound. Membership is stated by PinnedMembers and order by PinnedKeepsOrder.
- UiComponents.RecentChats: its own contract states only the length bound. Membership is stated by RecentMembers and order by RecentKeepsOrder.
