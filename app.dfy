/**
 * The application script. Each user action (a button press, a text entry)
 * makes the script run once from top to bottom against the session
 * dictionary and the chat store; a call to st.rerun() ends that run, and the
 * run it triggers is the next event (Idle). The answering and summarising
 * models and the text extractors are opaque functions passed in.
 */
module App {
  import opened Wrappers
  import opened ChatStore
  import opened SessionState
  import opened UiComponents

  type Bytes = seq<bv8>

  /** An uploaded document: its MIME type and its contents. */
  datatype UploadedFile = UploadedFile(mimeType: string, content: Bytes)

  /** The collaborators the script calls but this model does not look into. */
  datatype Collaborators = Collaborators(
    extractPdf: Bytes -> string,
    extractImage: Bytes -> string,
    summarize: string -> string,
    answer: string -> string)

  /** The one user action that starts a run; Idle is a run with no widget fired. */
  datatype Event =
    | Idle
    | SidebarClick(click: ItemClick)
    | ModalClick(modalButton: ModalButton)
    | SaveTitle(newTitle: string)
    | SummarizeClick(file: UploadedFile)
    | MessageClick(messageId: ChatId, messageButton: MessageButton)
    | ResumeClick
    | PauseClick
    | Ask(text: string)

  /** How a run ends: at the bottom of the script, by st.rerun(), or by an uncaught exception. */
  datatype Outcome = Continue | Rerun | Fault

  /** The displayed chat, if any, still exists: the invariant a single session keeps. */
  ghost predicate ActiveResolves(vars: Vars, db: Store)
  {
    match Get(vars, ActiveChatId)
    case IdVal(id) => id in db.chats
    case _ => true
  }

  /** Session initialisation: a key that is missing gets its default, a present key is left alone. */
  method InitSessionState(st: Session, history: ChatHistory)
    requires WellFormed(history.db)
    modifies st
    ensures st.vars == WithDefaults(old(st.vars), Listing(history.db))
  {
    ghost var snapshot := Listing(history.db);
    ghost var v0 := st.vars;
    if History !in st.vars {
      var chats := history.GetAllChats();
      st.vars := st.vars[History := Chats(chats)];
    }
    ghost var v1 := st.vars;
    assert v1 == Fill(v0, History, Default(History, snapshot));
    if ActiveChatId !in st.vars {
      st.vars := st.vars[ActiveChatId := Null];
    }
    ghost var v2 := st.vars;
    assert v2 == Fill(v1, ActiveChatId, Null);
    if Paused !in st.vars {
      st.vars := st.vars[Paused := Flag(false)];
    }
    ghost var v3 := st.vars;
    assert v3 == Fill(v2, Paused, Flag(false));
    if EditMode !in st.vars {
      st.vars := st.vars[EditMode := Null];
    }
    ghost var v4 := st.vars;
    assert v4 == Fill(v3, EditMode, Null);
    if EditTitleFor !in st.vars {
      st.vars := st.vars[EditTitleFor := Null];
    }
    ghost var v5 := st.vars;
    assert v5 == Fill(v4, EditTitleFor, Null);
    if ShowMenuFor !in st.vars {
      st.vars := st.vars[ShowMenuFor := Null];
    }
    assert st.vars == Fill(v5, ShowMenuFor, Null);
    FillsAreDefaults(v0, snapshot);
  }

  /** What one block of the script leaves behind: the session, the store and how the run goes on. */
  datatype Step = Step(vars: Vars, db: Store, outcome: Outcome)

  /** The id a pending-action key holds once it is set. */
  function PendingId(vars: Vars, k: Key): (id: ChatId)
    requires WellTyped(vars) && Truthy(Get(vars, k)) && k != Paused && k != History
    ensures vars[k] == IdVal(id)
  {
    vars[k].id
  }

  /**
   * A pending pin: the record's flag is toggled, then its new flag is read for
   * the notice. If the record is gone the read raises and the request stays pending;
   * otherwise the request is cleared and the script reruns.
   */
  function PinHandled(vars: Vars, db: Store): (r: Step)
    requires WellTyped(vars) && Truthy(Get(vars, PinChat))
    ensures r.db == FlipPin(db, PendingId(vars, PinChat))
    ensures PendingId(vars, PinChat) in db.chats ==> r.outcome == Rerun && r.vars == vars[PinChat := Null]
    ensures PendingId(vars, PinChat) !in db.chats ==> r.outcome == Fault && r.vars == vars
    ensures WellTyped(r.vars) && (Initialised(vars) ==> Initialised(r.vars))
    ensures Get(r.vars, Paused) == Get(vars, Paused)
    ensures WellFormed(db) ==> WellFormed(r.db)
    ensures ActiveResolves(vars, db) ==> ActiveResolves(r.vars, r.db)
  {
    var id := PendingId(vars, PinChat);
    var db' := FlipPin(db, id);
    match Find(db', id)
    case None => Step(vars, db', Fault)
    case Some(_) => Step(vars[PinChat := Null], db', Rerun)
  }

  /**
   * A pending delete: the record is removed, the active chat is dropped exactly
   * when it was that record, and the request is cleared. The open menu is left as it is.
   */
  function DeleteHandled(vars: Vars, db: Store): (r: Step)
    requires WellTyped(vars) && Truthy(Get(vars, DeleteChat))
    ensures var id := PendingId(vars, DeleteChat);
            && r.db == Remove(db, id) && Find(r.db, id).None?
            && r.outcome == Rerun
            && r.vars.Keys == vars.Keys
            && r.vars[DeleteChat] == Null
            && (ActiveChatId in vars ==>
                  r.vars[ActiveChatId] == if vars[ActiveChatId] == IdVal(id) then Null else vars[ActiveChatId])
            && forall k :: k in vars && k != DeleteChat && k != ActiveChatId ==> r.vars[k] == vars[k]
    ensures WellTyped(r.vars) && (Initialised(vars) ==> Initialised(r.vars))
    ensures Get(r.vars, Paused) == Get(vars, Paused)
    ensures WellFormed(db) ==> WellFormed(r.db)
    // the active chat is dropped with its record, so it never dangles
    ensures ActiveResolves(vars, db) ==> ActiveResolves(r.vars, r.db)
  {
    var id := PendingId(vars, DeleteChat);
    var cleared := if Get(vars, ActiveChatId) == vars[DeleteChat] then vars[ActiveChatId := Null] else vars;
    Step(cleared[DeleteChat := Null], Remove(db, id), Rerun)
  }

  /** Save on a pending title edit: only that record's title changes, to whatever the text box holds, even "". */
  function TitleSaved(vars: Vars, db: Store, newTitle: string): (r: Step)
    requires WellTyped(vars) && Truthy(Get(vars, EditTitleFor))
    ensures r.db == Retitle(db, PendingId(vars, EditTitleFor), newTitle)
    ensures r.outcome == Rerun && r.vars == vars[EditTitleFor := Null]
    ensures WellTyped(r.vars) && (Initialised(vars) ==> Initialised(r.vars))
    ensures Get(r.vars, Paused) == Get(vars, Paused)
    ensures WellFormed(db) ==> WellFormed(r.db)
    ensures ActiveResolves(vars, db) ==> ActiveResolves(r.vars, r.db)
  {
    Step(vars[EditTitleFor := Null], Retitle(db, PendingId(vars, EditTitleFor), newTitle), Rerun)
  }

  /**
   * The menu-action block. Nothing happens unless a chat menu is open; then the
   * modal's click is applied first, and of a pending pin, delete and title edit
   * the first one set is carried out.
   */
  function MenuStep(vars: Vars, db: Store, modalClick: Option<ModalButton>, save: Option<string>): (r: Step)
    requires Initialised(vars) && WellTyped(vars) && WellFormed(db)
    ensures Initialised(r.vars) && WellTyped(r.vars) && WellFormed(r.db)
    ensures !Truthy(Get(vars, ShowMenuFor)) ==> r == Step(vars, db, Continue)
    ensures r.db.chats.Keys <= db.chats.Keys && r.vars[Paused] == vars[Paused]
    ensures ActiveResolves(vars, db) ==> ActiveResolves(r.vars, r.db)
    ensures r.outcome == Continue ==> r.db == db
    ensures r.db.nextId == db.nextId
  {
    if !Truthy(Get(vars, ShowMenuFor)) then Step(vars, db, Continue)
    else
      var m := ModalEffect(vars, vars[ShowMenuFor], modalClick);
      if Truthy(Get(m, PinChat)) then PinHandled(m, db)
      else if Truthy(Get(m, DeleteChat)) then DeleteHandled(m, db)
      else if Truthy(Get(m, EditTitleFor)) && save.Some? then TitleSaved(m, db, save.value)
      else Step(m, db, Continue)
  }

  method HandleMenuActions(st: Session, history: ChatHistory, modalClick: Option<ModalButton>, save: Option<string>)
    returns (outcome: Outcome)
    requires Initialised(st.vars) && WellTyped(st.vars) && WellFormed(history.db)
    modifies st, history
    ensures Step(st.vars, history.db, outcome) == MenuStep(old(st.vars), old(history.db), modalClick, save)
  {
    outcome := Continue;
    if !Truthy(Get(st.vars, ShowMenuFor)) {
      return;
    }
    ChatOptionsModal(st, st.vars[ShowMenuFor], modalClick);
    if Truthy(Get(st.vars, PinChat)) {
      var id := st.vars[PinChat].id;
      history.TogglePin(id);
      var rec := history.GetChat(id);
      if rec.None? {
        outcome := Fault;
        return;
      }
      st.vars := st.vars[PinChat := Null];
      outcome := Rerun;
      return;
    }
    if Truthy(Get(st.vars, DeleteChat)) {
      var id := st.vars[DeleteChat].id;
      history.DeleteChat(id);
      if st.vars[ActiveChatId] == st.vars[DeleteChat] {
        st.vars := st.vars[ActiveChatId := Null];
      }
      st.vars := st.vars[DeleteChat := Null];
      outcome := Rerun;
      return;
    }
    if Truthy(Get(st.vars, EditTitleFor)) && save.Some? {
      history.UpdateChat(st.vars[EditTitleFor].id, save.value);
      st.vars := st.vars[EditTitleFor := Null];
      outcome := Rerun;
    }
  }

  /** The text of an uploaded document: the PDF extractor for a PDF, the image extractor for anything else. */
  function ExtractText(file: UploadedFile, tools: Collaborators): (text: string)
    ensures file.mimeType == "application/pdf" ==> text == tools.extractPdf(file.content)
    ensures file.mimeType != "application/pdf" ==> text == tools.extractImage(file.content)
  {
    if file.mimeType == "application/pdf" then tools.extractPdf(file.content) else tools.extractImage(file.content)
  }

  /**
   * The tail both creating flows share: store a new unpinned record, refresh
   * the session's copy of the chat list, make the new record the active chat
   * and rerun.
   */
  function SaveStep(vars: Vars, db: Store, title: string, question: string, answer: string): (r: Step)
    requires WellTyped(vars) && WellFormed(db)
    ensures WellTyped(r.vars) && WellFormed(r.db) && db.nextId <= r.db.nextId && r.outcome == Rerun
    ensures Initialised(vars) ==> Initialised(r.vars)
    ensures ActiveChatId in r.vars && r.vars[ActiveChatId].IdVal?
    ensures var id := r.vars[ActiveChatId].id;
            && id !in db.chats
            && r.db.chats.Keys == db.chats.Keys + {id}
            && r.db.chats[id] == ChatRecord(id, title, question, answer, false)
            && r.vars == vars[History := Chats(Listing(r.db))][ActiveChatId := IdVal(id)]
    ensures forall k :: k in db.chats ==> r.db.chats[k] == db.chats[k]
    ensures ActiveResolves(r.vars, r.db)
  {
    var c := Insert(db, title, question, answer, false);
    Step(vars[History := Chats(Listing(c.db))][ActiveChatId := IdVal(c.id)], c.db, Rerun)
  }

  method SaveAndActivate(st: Session, history: ChatHistory, title: string, question: string, answer: string)
    returns (chatId: ChatId)
    requires WellTyped(st.vars) && WellFormed(history.db)
    modifies st, history
    ensures Step(st.vars, history.db, Rerun) == SaveStep(old(st.vars), old(history.db), title, question, answer)
    ensures st.vars[ActiveChatId] == IdVal(chatId)
  {
    chatId := history.CreateChat(title, question, answer, false);
    var chats := history.GetAllChats();
    st.vars := st.vars[History := Chats(chats)];
    st.vars := st.vars[ActiveChatId := IdVal(chatId)];
  }

  /** Summarize: stores one new record holding the document's summary and makes it the active chat. */
  method SummarizeDocument(st: Session, history: ChatHistory, file: UploadedFile, tools: Collaborators)
    returns (chatId: ChatId)
    requires WellTyped(st.vars) && WellFormed(history.db)
    modifies st, history
    ensures Step(st.vars, history.db, Rerun)
            == SaveStep(old(st.vars), old(history.db), "Document Summary", "Summarize this document",
                        tools.summarize(ExtractText(file, tools)))
    ensures st.vars[ActiveChatId] == IdVal(chatId)
  {
    var text := ExtractText(file, tools);
    var summary := tools.summarize(text);
    chatId := SaveAndActivate(st, history, "Document Summary", "Summarize this document", summary);
  }

  /** The chat the main pane shows: the active id's record, or nothing when there is no active id or its record is gone. */
  function ActiveChat(vars: Vars, db: Store): (r: Option<ChatRecord>)
    ensures r.Some? <==> Get(vars, ActiveChatId).IdVal? && Get(vars, ActiveChatId).id in db.chats
    ensures r.Some? ==> r.value == db.chats[Get(vars, ActiveChatId).id]
    ensures WellFormed(db) && r.Some? ==> r.value.id == Get(vars, ActiveChatId).id
  {
    var active := Get(vars, ActiveChatId);
    if Truthy(active) && active.IdVal? then Find(db, active.id) else None
  }

  /** The session after the active-chat pane: only a message button of the shown chat writes to it. */
  function Displayed(vars: Vars, db: Store, click: Option<(ChatId, MessageButton)>): (r: Vars)
    ensures var shown := ActiveChat(vars, db);
            if shown.Some? && click.Some? && click.value.0 == shown.value.id
            then r == MessageEffect(vars, shown.value.id, Some(click.value.1))
            else r == vars
    ensures Get(r, ActiveChatId) == Get(vars, ActiveChatId) && Get(r, Paused) == Get(vars, Paused)
    ensures Initialised(vars) ==> Initialised(r)
    ensures WellTyped(vars) ==> WellTyped(r)
  {
    match ActiveChat(vars, db)
    case Some(chat) =>
      if click.Some? && click.value.0 == chat.id then MessageEffect(vars, chat.id, Some(click.value.1)) else vars
    case None => vars
  }

  /**
   * Shows the active chat's question and answer, each with its message buttons;
   * a dangling active id shows nothing and raises nothing.
   */
  method DisplayActiveChat(st: Session, history: ChatHistory, click: Option<(ChatId, MessageButton)>)
    returns (shown: Option<ChatRecord>)
    requires WellFormed(history.db)
    modifies st
    ensures shown == ActiveChat(old(st.vars), history.db)
    ensures st.vars == Displayed(old(st.vars), history.db, click)
  {
    shown := None;
    var active := Get(st.vars, ActiveChatId);
    if Truthy(active) && active.IdVal? {
      shown := history.GetChat(active.id);
      if shown.Some? {
        var button := if click.Some? && click.value.0 == shown.value.id then Some(click.value.1) else None;
        // the question and the answer carry the same three buttons, keyed by the chat id
        ChatMessageUi(st, shown.value.id, button);
        ChatMessageUi(st, shown.value.id, button);
      }
    }
  }

  /** The title of a typed question: its first 25 characters, followed by "..." when it is longer than 25. */
  function AutoTitle(input: string): (title: string)
    ensures |input| <= 25 ==> title == input
    ensures |input| > 25 ==> |title| == 28 && title[..25] == input[..25] && title[25..] == "..."
    ensures |title| <= 28
  {
    if |input| > 25 then input[..25] + "..." else input
  }

  /**
   * The input area. Paused: only Resume is offered, which clears the flag.
   * Not paused: the pause button toggles the flag, and a non-empty question is
   * answered and stored as a new record that becomes the active chat.
   */
  function InputStep(vars: Vars, db: Store, resumeClicked: bool, pauseClicked: bool, text: string,
                     tools: Collaborators): (r: Step)
    requires Initialised(vars) && WellTyped(vars) && WellFormed(db)
    ensures Initialised(r.vars) && WellTyped(r.vars) && WellFormed(r.db) && db.nextId <= r.db.nextId
    ensures ActiveResolves(vars, db) ==> ActiveResolves(r.vars, r.db)
    ensures forall id :: id in r.db.chats && id !in db.chats ==> !Truthy(vars[Paused]) && text != ""
    ensures Truthy(vars[Paused]) ==>
              && r.db == db
              && (resumeClicked ==> r.outcome == Rerun && r.vars == vars[Paused := Flag(false)])
              && (!resumeClicked ==> r.outcome == Continue && r.vars == vars)
    ensures !Truthy(vars[Paused]) ==>
              var afterPause := if pauseClicked then PauseToggled(vars) else vars;
              && (text == "" ==> r == Step(afterPause, db, Continue))
              && (text != "" ==>
                    && r.outcome == Rerun && r.vars[ActiveChatId].IdVal?
                    && var id := r.vars[ActiveChatId].id;
                    && id !in db.chats
                    && r.db.chats.Keys == db.chats.Keys + {id}
                    && r.db.chats[id] == ChatRecord(id, AutoTitle(text), text, tools.answer(text), false)
                    && (forall k :: k in db.chats ==> r.db.chats[k] == db.chats[k])
                    && r.vars == afterPause[History := Chats(Listing(r.db))][ActiveChatId := IdVal(id)])
  {
    if Truthy(vars[Paused]) then
      if resumeClicked then Step(vars[Paused := Flag(false)], db, Rerun) else Step(vars, db, Continue)
    else
      var afterPause := if pauseClicked then PauseToggled(vars) else vars;
      if text == "" then Step(afterPause, db, Continue)
      else SaveStep(afterPause, db, AutoTitle(text), text, tools.answer(text))
  }

  method HandleChatInput(st: Session, history: ChatHistory, resumeClicked: bool, pauseClicked: bool, text: string,
                         tools: Collaborators)
    returns (outcome: Outcome, created: Option<ChatId>)
    requires Initialised(st.vars) && WellTyped(st.vars) && WellFormed(history.db)
    modifies st, history
    ensures Step(st.vars, history.db, outcome)
            == InputStep(old(st.vars), old(history.db), resumeClicked, pauseClicked, text, tools)
    ensures created.Some? <==> !Truthy(old(st.vars)[Paused]) && text != ""
    ensures created.Some? ==> st.vars[ActiveChatId] == IdVal(created.value)
  {
    outcome, created := Continue, None;
    if Truthy(st.vars[Paused]) {
      if resumeClicked {
        st.vars := st.vars[Paused := Flag(false)];
        outcome := Rerun;
      }
    } else {
      var userInput := UserInputUi(st, text, pauseClicked);
      if userInput != "" {
        var response := tools.answer(userInput);
        var title := AutoTitle(userInput);
        var chatId := SaveAndActivate(st, history, title, userInput, response);
        outcome, created := Rerun, Some(chatId);
      }
    }
  }

  /** A sidebar click sets the active chat only to a listed chat, and never touches the pause flag. */
  lemma SidebarKeepsSession(vars: Vars, db: Store, chats: seq<ChatRecord>, click: Option<ItemClick>)
    requires forall i :: 0 <= i < |chats| ==> chats[i].id in db.chats
    ensures ActiveResolves(vars, db) ==> ActiveResolves(AfterItemClick(vars, chats, click), db)
    ensures Get(AfterItemClick(vars, chats, click), Paused) == Get(vars, Paused)
    ensures !(click.Some? && click.value.button == MenuButton) ==>
              Get(AfterItemClick(vars, chats, click), ShowMenuFor) == Get(vars, ShowMenuFor)
    ensures Initialised(vars) ==> Initialised(AfterItemClick(vars, chats, click))
    ensures WellTyped(vars) ==> WellTyped(AfterItemClick(vars, chats, click))
  {
    if click.Some? && Listed(chats, click.value.id) {
      var c :| c in chats && c.id == click.value.id;
      var i :| 0 <= i < |chats| && chats[i] == c;
    }
  }

  function SidebarClickOf(ev: Event): Option<ItemClick>
  {
    if ev.SidebarClick? then Some(ev.click) else None
  }

  function ModalClickOf(ev: Event): Option<ModalButton>
  {
    if ev.ModalClick? then Some(ev.modalButton) else None
  }

  function SaveOf(ev: Event): Option<string>
  {
    if ev.SaveTitle? then Some(ev.newTitle) else None
  }

  function MessageClickOf(ev: Event): Option<(ChatId, MessageButton)>
  {
    if ev.MessageClick? then Some((ev.messageId, ev.messageButton)) else None
  }

  /**
   * The top of a run as a function of the session and store it starts from:
   * the session defaults are filled in, the sidebar click (if any) takes
   * effect, then the menu-action block runs.
   */
  ghost function TopStep(vars: Vars, db: Store, ev: Event): (r: Step)
    requires WellTyped(vars) && WellFormed(db)
    ensures Initialised(r.vars) && WellTyped(r.vars) && WellFormed(r.db)
    ensures ActiveResolves(vars, db) ==> ActiveResolves(r.vars, r.db)
    ensures r.db.chats.Keys <= db.chats.Keys && r.db.nextId == db.nextId
    ensures Truthy(r.vars[Paused]) == Truthy(GetOr(vars, Paused, Flag(false)))
    ensures !Truthy(Get(vars, ShowMenuFor)) && !(ev.SidebarClick? && ev.click.button == MenuButton) ==>
              r.outcome == Continue && r.db == db
  {
    var listing := Listing(db);
    var filled := WithDefaults(vars, listing);
    SidebarKeepsSession(filled, db, listing, SidebarClickOf(ev));
    MenuStep(AfterItemClick(filled, listing, SidebarClickOf(ev)), db, ModalClickOf(ev), SaveOf(ev))
  }

  /** The top of a run: initialise the session, draw the sidebar, then the menu-action block. */
  method RunTop(st: Session, history: ChatHistory, ev: Event) returns (outcome: Outcome)
    requires WellTyped(st.vars) && WellFormed(history.db)
    modifies st, history
    ensures Step(st.vars, history.db, outcome) == TopStep(old(st.vars), old(history.db), ev)
  {
    InitSessionState(st, history);
    var chatList := history.GetAllChats();
    SidebarChatHistoryUi(st, chatList, SidebarClickOf(ev));
    SidebarKeepsSession(WithDefaults(old(st.vars), chatList), history.db, chatList, SidebarClickOf(ev));
    outcome := HandleMenuActions(st, history, ModalClickOf(ev), SaveOf(ev));
  }

  /**
   * The rest of a run as a function of the state the top leaves: Summarize
   * stores the document's summary; otherwise the active chat is drawn and
   * then the input area runs.
   */
  ghost function BottomStep(vars: Vars, db: Store, ev: Event, tools: Collaborators): (r: Step)
    requires Initialised(vars) && WellTyped(vars) && WellFormed(db)
    ensures Initialised(r.vars) && WellTyped(r.vars) && WellFormed(r.db) && db.nextId <= r.db.nextId
    ensures ActiveResolves(vars, db) ==> ActiveResolves(r.vars, r.db)
    ensures forall id :: id in db.chats ==> id in r.db.chats && r.db.chats[id] == db.chats[id]
    ensures forall id :: id in r.db.chats && id !in db.chats ==>
              (ev.Ask? && ev.text != "" && !Truthy(vars[Paused])) || ev.SummarizeClick?
  {
    if ev.SummarizeClick? then
      SaveStep(vars, db, "Document Summary", "Summarize this document", tools.summarize(ExtractText(ev.file, tools)))
    else
      InputStep(Displayed(vars, db, MessageClickOf(ev)), db, ev.ResumeClick?, ev.PauseClick?,
                if ev.Ask? then ev.text else "", tools)
  }

  /** The rest of a run: the upload block, the active chat, and the input area. */
  method RunBottom(st: Session, history: ChatHistory, ev: Event, tools: Collaborators) returns (outcome: Outcome)
    requires Initialised(st.vars) && WellTyped(st.vars) && WellFormed(history.db)
    modifies st, history
    ensures Step(st.vars, history.db, outcome) == BottomStep(old(st.vars), old(history.db), ev, tools)
  {
    if ev.SummarizeClick? {
      var chatId := SummarizeDocument(st, history, ev.file, tools);
      outcome := Rerun;
      return;
    }
    var shown := DisplayActiveChat(st, history, MessageClickOf(ev));
    var created;
    outcome, created := HandleChatInput(st, history, ev.ResumeClick?, ev.PauseClick?, if ev.Ask? then ev.text else "", tools);
  }

  /**
   * One run of the script for one user action: the top half, then, unless it
   * reran or raised, the bottom half.
   */
  ghost function RunStep(vars: Vars, db: Store, ev: Event, tools: Collaborators): (r: Step)
    requires WellTyped(vars) && WellFormed(db)
    ensures Initialised(r.vars) && WellTyped(r.vars) && WellFormed(r.db)
    // the id counter never goes back, so no id is ever handed out twice
    ensures db.nextId <= r.db.nextId
    // within one session the active chat never dangles
    ensures ActiveResolves(vars, db) ==> ActiveResolves(r.vars, r.db)
    // records are created only by a typed question while not paused, or by Summarize
    ensures forall id :: id in r.db.chats && id !in db.chats ==>
              (ev.Ask? && ev.text != "" && !Truthy(GetOr(vars, Paused, Flag(false)))) || ev.SummarizeClick?
    // a pin requested outside a chat menu waits: no record's pin flag changes until a menu is open
    ensures !Truthy(Get(vars, ShowMenuFor)) && !(ev.SidebarClick? && ev.click.button == MenuButton) ==>
              forall id :: id in db.chats && id in r.db.chats ==> r.db.chats[id].pinned == db.chats[id].pinned
  {
    var top := TopStep(vars, db, ev);
    if top.outcome != Continue then top else BottomStep(top.vars, top.db, ev, tools)
  }

  /**
   * One run of the script for one user action, stopping early where the
   * script calls st.rerun() or raises.
   */
  method Run(st: Session, history: ChatHistory, ev: Event, tools: Collaborators) returns (outcome: Outcome)
    requires WellTyped(st.vars) && WellFormed(history.db)
    modifies st, history
    ensures Step(st.vars, history.db, outcome) == RunStep(old(st.vars), old(history.db), ev, tools)
  {
    outcome := RunTop(st, history, ev);
    if outcome != Continue {
      return;
    }
    outcome := RunBottom(st, history, ev, tools);
  }

  /**
   * A question typed while no menu is open and the chat is not paused is
   * stored as exactly one new record, with its auto-title and answer, and
   * becomes the active chat.
   */
  lemma AskStoresQuestion(vars: Vars, db: Store, text: string, tools: Collaborators)
    requires WellTyped(vars) && WellFormed(db) && text != ""
    requires !Truthy(Get(vars, ShowMenuFor)) && !Truthy(GetOr(vars, Paused, Flag(false)))
    ensures var r := RunStep(vars, db, Ask(text), tools);
            && r.outcome == Rerun && ActiveChatId in r.vars && r.vars[ActiveChatId].IdVal?
            && var id := r.vars[ActiveChatId].id;
            && id !in db.chats && r.db.chats.Keys == db.chats.Keys + {id}
            && r.db.chats[id] == ChatRecord(id, AutoTitle(text), text, tools.answer(text), false)
  {
    var top := TopStep(vars, db, Ask(text));
    assert top.outcome == Continue && top.db == db && !Truthy(top.vars[Paused]);
    assert Displayed(top.vars, db, None) == top.vars;
  }

  /** Resume, pressed while paused and no menu is open, clears the flag, stores nothing and reruns. */
  lemma ResumeClearsPause(vars: Vars, db: Store, tools: Collaborators)
    requires WellTyped(vars) && WellFormed(db)
    requires !Truthy(Get(vars, ShowMenuFor)) && Truthy(GetOr(vars, Paused, Flag(false)))
    ensures var r := RunStep(vars, db, ResumeClick, tools);
            r.outcome == Rerun && r.vars[Paused] == Flag(false) && r.db == db
  {
    var top := TopStep(vars, db, ResumeClick);
    assert top.outcome == Continue && top.db == db && Truthy(top.vars[Paused]);
    assert Displayed(top.vars, db, None) == top.vars;
  }

  /** A session's successive runs, one per event, each starting from what the previous one left. */
  ghost function Runs(vars: Vars, db: Store, evs: seq<Event>, tools: Collaborators): (r: Step)
    requires WellTyped(vars) && WellFormed(db)
    ensures WellTyped(r.vars) && WellFormed(r.db)
    decreases |evs|
  {
    if evs == [] then Step(vars, db, Continue)
    else
      var first := RunStep(vars, db, evs[0], tools);
      Runs(first.vars, first.db, evs[1..], tools)
  }

  /** However many runs follow, the id counter never goes back. */
  lemma {:induction false} CounterNeverGoesBack(vars: Vars, db: Store, evs: seq<Event>, tools: Collaborators)
    requires WellTyped(vars) && WellFormed(db)
    ensures db.nextId <= Runs(vars, db, evs, tools).db.nextId
    decreases |evs|
  {
    if evs != [] {
      var first := RunStep(vars, db, evs[0], tools);
      CounterNeverGoesBack(first.vars, first.db, evs[1..], tools);
    }
  }

  /** An id in use before some runs, deleted since or not, is never handed out by a create after them. */
  lemma UsedIdNeverReused(vars: Vars, db: Store, evs: seq<Event>, tools: Collaborators, id: ChatId,
                          title: string, question: string, answer: string, pinned: bool)
    requires WellTyped(vars) && WellFormed(db) && id in db.chats
    ensures Insert(Runs(vars, db, evs, tools).db, title, question, answer, pinned).id != id
  {
    CounterNeverGoesBack(vars, db, evs, tools);
    RemovedIdNotReused(db, id, Runs(vars, db, evs, tools).db, title, question, answer, pinned);
  }

  /** The sidebar's menu button opens the menu on its chat; with no pin or delete pending, nothing else happens. */
  lemma MenuButtonOpensMenu(vars: Vars, db: Store, id: ChatId)
    requires WellTyped(vars) && WellFormed(db) && id in db.chats
    requires !Truthy(Get(vars, PinChat)) && !Truthy(Get(vars, DeleteChat))
    ensures var r := TopStep(vars, db, SidebarClick(ItemClick(id, MenuButton)));
            && r.outcome == Continue && r.db == db && InitKeys <= r.vars.Keys
            && r.vars[ShowMenuFor] == IdVal(id) && !Truthy(Get(r.vars, PinChat)) && !Truthy(Get(r.vars, DeleteChat))
  {
    var listing := Listing(db);
    assert db.chats[id] in listing;
    var filled := WithDefaults(vars, listing);
    assert Listed(listing, id);
    var v := filled[ShowMenuFor := IdVal(id)];
    assert AfterItemClick(filled, listing, Some(ItemClick(id, MenuButton))) == v;
    assert ModalEffect(v, v[ShowMenuFor], None) == v;
    assert !Truthy(Get(v, PinChat)) && !Truthy(Get(v, DeleteChat));
    assert MenuStep(v, db, None, None) == Step(v, db, Continue);
  }

  /** Delete in an open menu removes the chat and reruns, but leaves the menu open on the deleted chat. */
  lemma DeleteLeavesMenuOpen(vars: Vars, db: Store, id: ChatId)
    requires WellTyped(vars) && WellFormed(db) && InitKeys <= vars.Keys
    requires vars[ShowMenuFor] == IdVal(id) && !Truthy(Get(vars, PinChat))
    ensures var r := TopStep(vars, db, ModalClick(DeleteButton));
            && r.outcome == Rerun && id !in r.db.chats && InitKeys <= r.vars.Keys
            && r.vars[ShowMenuFor] == IdVal(id) && !Truthy(Get(r.vars, PinChat))
  {
    InitIdempotent(vars, Listing(db));
    assert AfterItemClick(WithDefaults(vars, Listing(db)), Listing(db), None) == vars;
    var m := vars[DeleteChat := IdVal(id)];
    assert ModalEffect(vars, vars[ShowMenuFor], Some(DeleteButton)) == m;
    assert MenuStep(vars, db, Some(DeleteButton), None) == DeleteHandled(m, db);
  }

  /** Pin/Unpin in a menu whose chat no longer exists reads the flag of a missing record, and the run raises. */
  lemma PinInMenuOfMissingChatFaults(vars: Vars, db: Store, id: ChatId)
    requires WellTyped(vars) && WellFormed(db) && InitKeys <= vars.Keys
    requires vars[ShowMenuFor] == IdVal(id) && id !in db.chats
    ensures TopStep(vars, db, ModalClick(PinButton)).outcome == Fault
  {
    InitIdempotent(vars, Listing(db));
    assert AfterItemClick(WithDefaults(vars, Listing(db)), Listing(db), None) == vars;
    var m := vars[PinChat := IdVal(id)];
    assert ModalEffect(vars, vars[ShowMenuFor], Some(PinButton)) == m;
    assert MenuStep(vars, db, Some(PinButton), None) == PinHandled(m, db);
  }

  /**
   * Deleting a chat from its options menu leaves the menu open on the deleted
   * chat; pressing Pin/Unpin there asks for the pinned flag of a record that is
   * gone, and the run raises. Three runs of the script's top, from any session
   * with no pin or delete pending and any store holding the chat: open its menu
   * from the sidebar, press Delete, then press Pin/Unpin. The Idle run that
   * Delete's st.rerun() triggers is left out of the chain: with no pin or
   * delete pending and no text typed it changes nothing that the Pin/Unpin
   * run depends on.
   */
  lemma PinInMenuOfDeletedChatFaults(vars: Vars, db: Store, id: ChatId)
    requires WellTyped(vars) && WellFormed(db) && id in db.chats
    requires !Truthy(Get(vars, PinChat)) && !Truthy(Get(vars, DeleteChat))
    ensures var r1 := TopStep(vars, db, SidebarClick(ItemClick(id, MenuButton)));
            var r2 := TopStep(r1.vars, r1.db, ModalClick(DeleteButton));
            var r3 := TopStep(r2.vars, r2.db, ModalClick(PinButton));
            && r1.outcome == Continue
            && r2.outcome == Rerun && id !in r2.db.chats && Get(r2.vars, ShowMenuFor) == IdVal(id)
            && r3.outcome == Fault
  {
    MenuButtonOpensMenu(vars, db, id);
    var r1 := TopStep(vars, db, SidebarClick(ItemClick(id, MenuButton)));
    DeleteLeavesMenuOpen(r1.vars, r1.db, id);
    var r2 := TopStep(r1.vars, r1.db, ModalClick(DeleteButton));
    PinInMenuOfMissingChatFaults(r2.vars, r2.db, id);
  }
}
