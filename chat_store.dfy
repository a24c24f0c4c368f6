/**
 * The chat history store, as the application script uses it: a table of chat
 * records keyed by id. The persistence layer itself is not part of this model;
 * the store is an abstract map with a counter that supplies fresh ids.
 */
module ChatStore {
  import opened Wrappers

  type ChatId = nat

  /** One persisted exchange: a question (or synthesized prompt) and its answer. */
  datatype ChatRecord = ChatRecord(id: ChatId, title: string, question: string, answer: string, pinned: bool)

  /** The chat table, plus the next id the store will hand out. */
  datatype Store = Store(chats: map<ChatId, ChatRecord>, nextId: ChatId)

  /** Every record is filed under its own id, and every id in use lies below the counter. */
  ghost predicate WellFormed(db: Store)
  {
    forall id :: id in db.chats ==> db.chats[id].id == id && id < db.nextId
  }

  /** get_chat: a point lookup; an absent id is an expected outcome, not an error. */
  function Find(db: Store, id: ChatId): (r: Option<ChatRecord>)
    ensures r.None? <==> id !in db.chats
    ensures r.Some? ==> r.value == db.chats[id]
    ensures WellFormed(db) && r.Some? ==> r.value.id == id
  {
    if id in db.chats then Some(db.chats[id]) else None
  }

  datatype Created = Created(db: Store, id: ChatId)

  /** create_chat: files a new record under an id never used before and returns that id. */
  function Insert(db: Store, title: string, question: string, answer: string, pinned: bool): (r: Created)
    requires WellFormed(db)
    ensures WellFormed(r.db)
    ensures r.id !in db.chats && db.nextId <= r.id < r.db.nextId
    ensures r.db.chats.Keys == db.chats.Keys + {r.id}
    ensures r.db.chats[r.id] == ChatRecord(r.id, title, question, answer, pinned)
    ensures forall k :: k in db.chats ==> r.db.chats[k] == db.chats[k]
  {
    var id := db.nextId;
    Created(Store(db.chats[id := ChatRecord(id, title, question, answer, pinned)], id + 1), id)
  }

  /** toggle_pin: flips the pinned flag of one record; a missing id leaves the table as it is. */
  function FlipPin(db: Store, id: ChatId): (r: Store)
    ensures r.chats.Keys == db.chats.Keys && r.nextId == db.nextId
    ensures forall k :: k in db.chats && k != id ==> r.chats[k] == db.chats[k]
    ensures id in db.chats ==> r.chats[id] == db.chats[id].(pinned := !db.chats[id].pinned)
    ensures WellFormed(db) ==> WellFormed(r)
  {
    if id in db.chats then Store(db.chats[id := db.chats[id].(pinned := !db.chats[id].pinned)], db.nextId)
    else db
  }

  /** delete_chat: removes one record for good; its id is never handed out again. */
  function Remove(db: Store, id: ChatId): (r: Store)
    ensures r.chats.Keys == db.chats.Keys - {id} && r.nextId == db.nextId
    ensures forall k :: k in r.chats ==> r.chats[k] == db.chats[k]
    ensures WellFormed(db) ==> WellFormed(r)
  {
    Store(db.chats - {id}, db.nextId)
  }

  /** update_chat(id, title=...): a partial update of the title alone; a missing id changes nothing. */
  function Retitle(db: Store, id: ChatId, title: string): (r: Store)
    ensures r.chats.Keys == db.chats.Keys && r.nextId == db.nextId
    ensures forall k :: k in db.chats && k != id ==> r.chats[k] == db.chats[k]
    ensures id in db.chats ==> r.chats[id].title == title
    ensures id in db.chats ==> r.chats[id].id == db.chats[id].id && r.chats[id].question == db.chats[id].question
                               && r.chats[id].answer == db.chats[id].answer && r.chats[id].pinned == db.chats[id].pinned
    ensures WellFormed(db) ==> WellFormed(r)
  {
    if id in db.chats then Store(db.chats[id := db.chats[id].(title := title)], db.nextId)
    else db
  }

  /** The records whose ids lie below n, highest id first. */
  function ListBelow(db: Store, n: nat): (r: seq<ChatRecord>)
    requires WellFormed(db)
    ensures forall i :: 0 <= i < |r| ==> r[i].id < n && r[i].id in db.chats && db.chats[r[i].id] == r[i]
    ensures forall id :: id in db.chats && id < n ==> db.chats[id] in r
    decreases n
  {
    if n == 0 then []
    else if n - 1 in db.chats then [db.chats[n - 1]] + ListBelow(db, n - 1)
    else ListBelow(db, n - 1)
  }

  /** Putting a record in front of a descending run of smaller ids keeps it descending. */
  lemma ConsDescending(top: ChatRecord, rest: seq<ChatRecord>)
    requires forall i :: 0 <= i < |rest| ==> rest[i].id < top.id
    requires forall i, j :: 0 <= i < j < |rest| ==> rest[i].id > rest[j].id
    ensures forall i, j :: 0 <= i < j < |[top] + rest| ==> ([top] + rest)[i].id > ([top] + rest)[j].id
  {
    var r := [top] + rest;
    forall i, j | 0 <= i < j < |r|
      ensures r[i].id > r[j].id
    {
      assert r[j] == rest[j - 1];
      if i > 0 {
        assert r[i] == rest[i - 1];
      }
    }
  }

  /** The partial listing is in strictly decreasing id order. */
  lemma {:induction false} ListBelowDescending(db: Store, n: nat)
    requires WellFormed(db)
    ensures forall i, j :: 0 <= i < j < |ListBelow(db, n)| ==> ListBelow(db, n)[i].id > ListBelow(db, n)[j].id
  {
    if n > 0 {
      ListBelowDescending(db, n - 1);
      if n - 1 in db.chats {
        ConsDescending(db.chats[n - 1], ListBelow(db, n - 1));
      }
    }
  }

  /**
   * get_all_chats: every record exactly once and nothing else, newest first.
   * (Ids grow with creation, so descending ids list the most recently created first.)
   */
  function Listing(db: Store): (r: seq<ChatRecord>)
    requires WellFormed(db)
    ensures forall i :: 0 <= i < |r| ==> r[i].id in db.chats && db.chats[r[i].id] == r[i]
    ensures forall id :: id in db.chats ==> db.chats[id] in r
    ensures forall i, j :: 0 <= i < j < |r| ==> r[i].id > r[j].id
  {
    ListBelowDescending(db, db.nextId);
    ListBelow(db, db.nextId)
  }

  /** The ids in use below n. */
  ghost function IdsBelow(db: Store, n: nat): (ids: set<ChatId>)
    ensures forall id :: id in ids <==> id in db.chats && id < n
  {
    if n == 0 then {}
    else if n - 1 in db.chats then IdsBelow(db, n - 1) + {n - 1}
    else IdsBelow(db, n - 1)
  }

  lemma {:induction false} ListBelowCount(db: Store, n: nat)
    requires WellFormed(db)
    ensures |ListBelow(db, n)| == |IdsBelow(db, n)|
  {
    if n > 0 {
      ListBelowCount(db, n - 1);
      var below := IdsBelow(db, n - 1);
      if n - 1 in db.chats {
        assert |ListBelow(db, n)| == 1 + |ListBelow(db, n - 1)|;
        assert IdsBelow(db, n) == below + {n - 1};
        assert n - 1 !in below;
        assert |below + {n - 1}| == |below| + 1;
      } else {
        assert ListBelow(db, n) == ListBelow(db, n - 1);
        assert IdsBelow(db, n) == below;
      }
    }
  }

  /** The listing has exactly as many entries as the table has records: no duplicates, no phantoms. */
  lemma ListingCount(db: Store)
    requires WellFormed(db)
    ensures |Listing(db)| == |db.chats|
  {
    ListBelowCount(db, db.nextId);
    assert IdsBelow(db, db.nextId) == db.chats.Keys;
  }

  /** A created record can be found with exactly the fields it was created with. */
  lemma InsertThenFind(db: Store, title: string, question: string, answer: string, pinned: bool)
    requires WellFormed(db)
    ensures var c := Insert(db, title, question, answer, pinned);
            Find(c.db, c.id) == Some(ChatRecord(c.id, title, question, answer, pinned))
            && |c.db.chats| == |db.chats| + 1
  {
    var c := Insert(db, title, question, answer, pinned);
    assert c.db.chats.Keys == db.chats.Keys + {c.id};
  }

  /** Toggling a pin twice restores the table. */
  lemma FlipPinTwice(db: Store, id: ChatId)
    ensures FlipPin(FlipPin(db, id), id) == db
  {
  }

  /** After a delete the record is absent, and a second delete changes nothing. */
  lemma RemoveThenFind(db: Store, id: ChatId)
    ensures Find(Remove(db, id), id).None?
    ensures Remove(Remove(db, id), id) == Remove(db, id)
  {
  }

  /**
   * A deleted id is never handed out again: not by the create straight after
   * the delete, nor by a create on any later store whose counter has not gone back.
   */
  lemma RemovedIdNotReused(db: Store, id: ChatId, later: Store, title: string, question: string, answer: string,
                           pinned: bool)
    requires WellFormed(db) && id in db.chats
    requires WellFormed(later) && db.nextId <= later.nextId
    ensures Insert(Remove(db, id), title, question, answer, pinned).id != id
    ensures Insert(later, title, question, answer, pinned).id != id
  {
  }

  /** The store object the script calls into: each operation replaces the table as its function says. */
  class ChatHistory {
    var db: Store

    constructor (persisted: Store)
      requires WellFormed(persisted)
      ensures db == persisted
    {
      db := persisted;
    }

    method CreateChat(title: string, question: string, answer: string, pinned: bool) returns (id: ChatId)
      requires WellFormed(db)
      modifies this
      ensures id !in old(db).chats
      ensures Insert(old(db), title, question, answer, pinned) == Created(db, id)
    {
      var c := Insert(db, title, question, answer, pinned);
      db, id := c.db, c.id;
    }

    method GetChat(id: ChatId) returns (r: Option<ChatRecord>)
      ensures r == Find(db, id)
    {
      r := Find(db, id);
    }

    method GetAllChats() returns (r: seq<ChatRecord>)
      requires WellFormed(db)
      ensures r == Listing(db)
    {
      r := Listing(db);
    }

    method TogglePin(id: ChatId)
      modifies this
      ensures db == FlipPin(old(db), id)
    {
      db := FlipPin(db, id);
    }

    method DeleteChat(id: ChatId)
      modifies this
      ensures db == Remove(old(db), id)
    {
      db := Remove(db, id);
    }

    method UpdateChat(id: ChatId, title: string)
      modifies this
      ensures db == Retitle(old(db), id, title)
    {
      db := Retitle(db, id, title);
    }
  }
}
