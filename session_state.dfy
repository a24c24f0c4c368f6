/**
 * The per-session key/value state the script and its widgets share.
 * It is a dictionary: whether a key is present matters (initialisation only
 * fills absent keys, the options modal's Close removes a key), and reads with
 * a default see a missing key as None.
 */
module SessionState {
  import opened ChatStore

  datatype Key = History | ActiveChatId | Paused | EditMode | EditTitleFor | ShowMenuFor | PinChat | DeleteChat

  /** A stored value: None, a chat id, a boolean, or a snapshot of the chat list. */
  datatype Value = Null | IdVal(id: ChatId) | Flag(b: bool) | Chats(list: seq<ChatRecord>)

  type Vars = map<Key, Value>

  /** Python truthiness of a stored value; chat ids are non-empty strings, hence always true. */
  predicate Truthy(v: Value)
  {
    match v
    case Null => false
    case IdVal(_) => true
    case Flag(b) => b
    case Chats(list) => |list| > 0
  }

  /** dict.get(key, default) */
  function GetOr(vars: Vars, k: Key, default: Value): Value
  {
    if k in vars then vars[k] else default
  }

  /** dict.get(key): a missing key reads as None. */
  function Get(vars: Vars, k: Key): Value
  {
    GetOr(vars, k, Null)
  }

  /** The kind of value each key ever holds. */
  predicate Fits(k: Key, v: Value)
  {
    match k
    case History => v.Chats?
    case Paused => v.Flag?
    case _ => v.Null? || v.IdVal?
  }

  ghost predicate WellTyped(vars: Vars)
  {
    forall k :: k in vars ==> Fits(k, vars[k])
  }

  /** The keys the script initialises at the top of every run. */
  const InitKeys: set<Key> := {History, ActiveChatId, Paused, EditMode, EditTitleFor, ShowMenuFor}

  /** The keys the script reads as attributes, which therefore must be present after initialisation. */
  ghost predicate Initialised(vars: Vars)
  {
    History in vars && ActiveChatId in vars && Paused in vars && EditMode in vars && EditTitleFor in vars
  }

  /** The initial value the script gives a key that is missing. */
  function Default(k: Key, snapshot: seq<ChatRecord>): Value
  {
    match k
    case History => Chats(snapshot)
    case Paused => Flag(false)
    case _ => Null
  }

  /** The session with the given keys initialised: each that is missing gets its default; present keys are kept. */
  function WithDefaultsOn(vars: Vars, snapshot: seq<ChatRecord>, keys: set<Key>): (r: Vars)
    ensures r.Keys == vars.Keys + keys
    ensures forall k :: k in vars ==> r[k] == vars[k]
    ensures forall k :: k in keys && k !in vars ==> r[k] == Default(k, snapshot)
  {
    map k | k in vars.Keys + keys :: if k in vars then vars[k] else Default(k, snapshot)
  }

  /** Session initialisation: each initialised key that is missing gets its default; present keys are kept. */
  function WithDefaults(vars: Vars, snapshot: seq<ChatRecord>): (r: Vars)
    ensures r.Keys == vars.Keys + InitKeys
    ensures forall k :: k in vars ==> r[k] == vars[k]
    ensures forall k :: k in InitKeys && k !in vars ==> r[k] == Default(k, snapshot)
    ensures Initialised(r) && (WellTyped(vars) ==> WellTyped(r))
  {
    WithDefaultsOn(vars, snapshot, InitKeys)
  }

  /** One guarded initialisation: a missing key gets v; a present key leaves the session as it is. */
  function Fill(vars: Vars, k: Key, v: Value): (r: Vars)
    ensures k in vars ==> r == vars
    ensures k !in vars ==> r == vars[k := v]
  {
    if k in vars then vars else vars[k := v]
  }

  /** One more guarded assignment initialises one more key. */
  lemma FillAddsDefault(vars: Vars, snapshot: seq<ChatRecord>, keys: set<Key>, k: Key, keys': set<Key>)
    requires keys' == keys + {k}
    ensures Fill(WithDefaultsOn(vars, snapshot, keys), k, Default(k, snapshot)) == WithDefaultsOn(vars, snapshot, keys')
  {
    var before := WithDefaultsOn(vars, snapshot, keys);
    var after := WithDefaultsOn(vars, snapshot, keys');
    assert Fill(before, k, Default(k, snapshot)).Keys == after.Keys;
  }

  /** The first three guarded assignments initialise the chat list, the active chat and the pause flag. */
  lemma FirstFills(vars: Vars, snapshot: seq<ChatRecord>)
    ensures Fill(Fill(Fill(vars, History, Default(History, snapshot)), ActiveChatId, Null), Paused, Flag(false))
            == WithDefaultsOn(vars, snapshot, {History, ActiveChatId, Paused})
  {
    var s0 := vars;
    assert s0 == WithDefaultsOn(vars, snapshot, {});
    var s1 := Fill(s0, History, Default(History, snapshot));
    assert s1 == WithDefaultsOn(vars, snapshot, {History}) by {
      FillAddsDefault(vars, snapshot, {}, History, {History});
    }
    var s2 := Fill(s1, ActiveChatId, Null);
    assert s2 == WithDefaultsOn(vars, snapshot, {History, ActiveChatId}) by {
      FillAddsDefault(vars, snapshot, {History}, ActiveChatId, {History, ActiveChatId});
    }
    FillAddsDefault(vars, snapshot, {History, ActiveChatId}, Paused, {History, ActiveChatId, Paused});
  }

  /** The last three guarded assignments initialise the edit and menu markers. */
  lemma LastFills(vars: Vars, snapshot: seq<ChatRecord>)
    ensures Fill(Fill(Fill(WithDefaultsOn(vars, snapshot, {History, ActiveChatId, Paused}), EditMode, Null), EditTitleFor, Null), ShowMenuFor, Null)
            == WithDefaults(vars, snapshot)
  {
    var s3 := WithDefaultsOn(vars, snapshot, {History, ActiveChatId, Paused});
    var s4 := Fill(s3, EditMode, Null);
    assert s4 == WithDefaultsOn(vars, snapshot, {History, ActiveChatId, Paused, EditMode}) by {
      FillAddsDefault(vars, snapshot, {History, ActiveChatId, Paused}, EditMode, {History, ActiveChatId, Paused, EditMode});
    }
    var s5 := Fill(s4, EditTitleFor, Null);
    assert s5 == WithDefaultsOn(vars, snapshot, {History, ActiveChatId, Paused, EditMode, EditTitleFor}) by {
      FillAddsDefault(vars, snapshot, {History, ActiveChatId, Paused, EditMode}, EditTitleFor, {History, ActiveChatId, Paused, EditMode, EditTitleFor});
    }
    FillAddsDefault(vars, snapshot, {History, ActiveChatId, Paused, EditMode, EditTitleFor}, ShowMenuFor, InitKeys);
  }

  /** The script's six guarded assignments, in order, give the initialised session. */
  lemma FillsAreDefaults(vars: Vars, snapshot: seq<ChatRecord>)
    ensures Fill(Fill(Fill(Fill(Fill(Fill(vars, History, Default(History, snapshot)), ActiveChatId, Null),
              Paused, Flag(false)), EditMode, Null), EditTitleFor, Null), ShowMenuFor, Null)
            == WithDefaults(vars, snapshot)
  {
    FirstFills(vars, snapshot);
    LastFills(vars, snapshot);
  }

  /** Once every initialised key is present, initialisation changes nothing, whatever the chat list is by then. */
  lemma InitIdempotent(vars: Vars, snapshot: seq<ChatRecord>)
    requires InitKeys <= vars.Keys
    ensures WithDefaults(vars, snapshot) == vars
  {
  }

  /** st.session_state: one mutable dictionary per browser session. */
  class Session {
    var vars: Vars

    /** A new session starts with no keys at all. */
    constructor ()
      ensures vars == map[]
    {
      vars := map[];
    }
  }
}
