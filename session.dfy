/**
 * The front end's per-browser session store and the manager that reads and writes its
 * ten well-known keys. The store (Streamlit's session state) is a plain key/value map.
 */
module Session {
  import opened Values

  const AuthenticatedKey: string := "authenticated"
  const UserIdKey: string := "user_id"
  const UserEmailKey: string := "user_email"
  const UserNameKey: string := "user_name"
  const AccessTokenKey: string := "access_token"
  const IdTokenKey: string := "id_token"
  const RefreshTokenKey: string := "refresh_token"
  const PreferencesKey: string := "user_preferences"
  const ChatHistoryKey: string := "chat_history"
  const AgentSessionIdKey: string := "agent_session_id"

  type State = map<string, Value>

  /** The defaults `init` writes, in the order it writes them. */
  const Defaults: seq<(string, Value)> :=
    [(AuthenticatedKey, Bool(false)), (UserIdKey, Null), (UserEmailKey, Null), (UserNameKey, Null),
     (AccessTokenKey, Null), (IdTokenKey, Null), (RefreshTokenKey, Null), (PreferencesKey, Map([])),
     (ChatHistoryKey, List([])), (AgentSessionIdKey, Null)]

  /** No key appears twice in a table of defaults. */
  predicate DistinctKeys(items: seq<(string, Value)>)
  {
    forall i, j :: 0 <= i < j < |items| ==> items[i].0 != items[j].0
  }

  /** `session_state.get(key)`: None when the key is absent. */
  function Lookup(s: State, key: string): Value
  {
    if key in s then s[key] else Null
  }

  /** The loop of `init`: each default is written only when its key is absent. */
  function FillMissing(s: State, items: seq<(string, Value)>): State
    decreases |items|
  {
    if items == [] then s
    else FillMissing(if items[0].0 in s then s else s[items[0].0 := items[0].1], items[1..])
  }

  /** The store after `init`. */
  function Initialized(s: State): State
  {
    FillMissing(s, Defaults)
  }

  /** Filling never overwrites: a key already present keeps its value. */
  lemma {:induction false} FillMissingKeeps(s: State, items: seq<(string, Value)>, key: string)
    requires key in s
    ensures key in FillMissing(s, items) && FillMissing(s, items)[key] == s[key]
    decreases |items|
  {
    if items != [] {
      FillMissingKeeps(if items[0].0 in s then s else s[items[0].0 := items[0].1], items[1..], key);
    }
  }

  /** Filling adds nothing but the table's keys. */
  lemma {:induction false} FillMissingOnlyTableKeys(s: State, items: seq<(string, Value)>, key: string)
    requires key in FillMissing(s, items)
    ensures key in s || exists i :: 0 <= i < |items| && items[i].0 == key
    decreases |items|
  {
    if items != [] {
      var next := if items[0].0 in s then s else s[items[0].0 := items[0].1];
      FillMissingOnlyTableKeys(next, items[1..], key);
      if key !in s && key != items[0].0 {
        var i :| 0 <= i < |items[1..]| && items[1..][i].0 == key;
        assert items[i + 1].0 == key;
      }
    }
  }

  /** A key the store lacks takes the table's value for it. */
  lemma {:induction false} FillMissingDefault(s: State, items: seq<(string, Value)>, i: nat)
    requires DistinctKeys(items) && i < |items| && items[i].0 !in s
    ensures items[i].0 in FillMissing(s, items) && FillMissing(s, items)[items[i].0] == items[i].1
    decreases |items|
  {
    var next := if items[0].0 in s then s else s[items[0].0 := items[0].1];
    if i == 0 {
      FillMissingKeeps(next, items[1..], items[0].0);
    } else {
      assert items[1..][i - 1] == items[i];
      FillMissingDefault(next, items[1..], i - 1);
    }
  }

  /** When every key of the table is present, filling changes nothing. */
  lemma {:induction false} FillMissingNoop(s: State, items: seq<(string, Value)>)
    requires forall i :: 0 <= i < |items| ==> items[i].0 in s
    ensures FillMissing(s, items) == s
    decreases |items|
  {
    if items != [] {
      assert forall i :: 0 <= i < |items[1..]| ==> items[1..][i] == items[i + 1];
      FillMissingNoop(s, items[1..]);
    }
  }

  /** Filling puts every key of the table in the store. */
  lemma {:induction false} FillMissingCovers(s: State, items: seq<(string, Value)>, i: nat)
    requires i < |items|
    ensures items[i].0 in FillMissing(s, items)
    decreases |items|
  {
    var next := if items[0].0 in s then s else s[items[0].0 := items[0].1];
    if i == 0 {
      FillMissingKeeps(next, items[1..], items[0].0);
    } else {
      assert items[1..][i - 1] == items[i];
      FillMissingCovers(next, items[1..], i - 1);
    }
  }

  /**
   * `init` keeps every value already stored, gives each absent default key its default,
   * adds no other key, and running it twice is the same as running it once.
   */
  lemma InitSpec(s: State)
    ensures forall key :: key in s ==> key in Initialized(s) && Initialized(s)[key] == s[key]
    ensures forall i :: 0 <= i < |Defaults| && Defaults[i].0 !in s
              ==> Defaults[i].0 in Initialized(s) && Initialized(s)[Defaults[i].0] == Defaults[i].1
    ensures forall key :: key in Initialized(s) ==> key in s || exists i :: 0 <= i < |Defaults| && Defaults[i].0 == key
    ensures Initialized(Initialized(s)) == Initialized(s)
  {
    forall key | key in s
      ensures key in Initialized(s) && Initialized(s)[key] == s[key]
    {
      FillMissingKeeps(s, Defaults, key);
    }
    forall i | 0 <= i < |Defaults| && Defaults[i].0 !in s
      ensures Defaults[i].0 in Initialized(s) && Initialized(s)[Defaults[i].0] == Defaults[i].1
    {
      FillMissingDefault(s, Defaults, i);
    }
    forall key | key in Initialized(s)
      ensures key in s || exists i :: 0 <= i < |Defaults| && Defaults[i].0 == key
    {
      FillMissingOnlyTableKeys(s, Defaults, key);
    }
    forall i | 0 <= i < |Defaults|
      ensures Defaults[i].0 in Initialized(s)
    {
      FillMissingCovers(s, Defaults, i);
    }
    FillMissingNoop(Initialized(s), Defaults);
  }

  /** The store after `login`: the flag and the six identity and token keys are written. */
  function LoggedIn(s: State, userId: Value, email: Value, name: Value,
                    accessToken: Value, idToken: Value, refreshToken: Value): State
  {
    s[AuthenticatedKey := Bool(true)][UserIdKey := userId][UserEmailKey := email][UserNameKey := name]
     [AccessTokenKey := accessToken][IdTokenKey := idToken][RefreshTokenKey := refreshToken]
  }

  /** The store after `logout`: all ten keys written back to their defaults. */
  function LoggedOut(s: State): State
  {
    s[AuthenticatedKey := Bool(false)][UserIdKey := Null][UserEmailKey := Null][UserNameKey := Null]
     [AccessTokenKey := Null][IdTokenKey := Null][RefreshTokenKey := Null][PreferencesKey := Map([])]
     [ChatHistoryKey := List([])][AgentSessionIdKey := Null]
  }

  /** `is_authenticated`: the stored flag, False when there is none. */
  function Authenticated(s: State): Value
  {
    if AuthenticatedKey in s then s[AuthenticatedKey] else Bool(false)
  }

  /** `get_user_info`: exactly the three identity fields, None where absent. */
  function UserInfo(s: State): Entries
  {
    [("user_id", Lookup(s, UserIdKey)), ("email", Lookup(s, UserEmailKey)), ("name", Lookup(s, UserNameKey))]
  }

  /** One chat message as the history stores it. */
  function ChatMessage(role: Value, content: Value): Value
  {
    Map([("role", role), ("content", content)])
  }

  /** `get_chat_history`: the stored history, an empty list when there is none. */
  function ChatHistory(s: State): Value
  {
    if ChatHistoryKey in s then s[ChatHistoryKey] else List([])
  }

  /**
   * The store after `add_chat_message`: the history is created empty when absent and the
   * message appended to it; a stored history that is not a list has no `append`.
   */
  function WithMessage(s: State, role: Value, content: Value): (r: Result<State>)
  {
    var history := ChatHistory(s);
    if history.List? then Ok(s[ChatHistoryKey := List(history.items + [ChatMessage(role, content)])])
    else Err("'" + TypeName(history) + "' object has no attribute 'append'")
  }

  /** `login` authenticates and records who signed in, and touches nothing else. */
  lemma LoginSpec(s: State, userId: Value, email: Value, name: Value,
                  accessToken: Value, idToken: Value, refreshToken: Value)
    ensures Authenticated(LoggedIn(s, userId, email, name, accessToken, idToken, refreshToken)) == Bool(true)
    ensures UserInfo(LoggedIn(s, userId, email, name, accessToken, idToken, refreshToken))
            == [("user_id", userId), ("email", email), ("name", name)]
    ensures Lookup(LoggedIn(s, userId, email, name, accessToken, idToken, refreshToken), IdTokenKey) == idToken
    ensures forall key :: key !in {AuthenticatedKey, UserIdKey, UserEmailKey, UserNameKey,
                                   AccessTokenKey, IdTokenKey, RefreshTokenKey}
              ==> Lookup(LoggedIn(s, userId, email, name, accessToken, idToken, refreshToken), key) == Lookup(s, key)
  {
  }

  /** `logout` writes every default key with its default value. */
  lemma LoggedOutWritesDefaults(s: State)
    ensures forall i :: 0 <= i < |Defaults| ==> Defaults[i].0 in LoggedOut(s) && LoggedOut(s)[Defaults[i].0] == Defaults[i].1
  {
    forall i | 0 <= i < |Defaults|
      ensures Defaults[i].0 in LoggedOut(s) && LoggedOut(s)[Defaults[i].0] == Defaults[i].1
    {
      assert i == 0 || i == 1 || i == 2 || i == 3 || i == 4 || i == 5 || i == 6 || i == 7 || i == 8 || i == 9;
    }
  }

  /** `init` on an empty store writes exactly the default table. */
  lemma InitializedEmpty()
    ensures forall i :: 0 <= i < |Defaults| ==> Defaults[i].0 in Initialized(map[]) && Initialized(map[])[Defaults[i].0] == Defaults[i].1
  {
    assert DistinctKeys(Defaults);
    forall i | 0 <= i < |Defaults|
      ensures Defaults[i].0 in Initialized(map[]) && Initialized(map[])[Defaults[i].0] == Defaults[i].1
    {
      FillMissingDefault(map[], Defaults, i);
    }
  }

  /** `logout` writes back, for every key `init` knows, exactly the value `init` would write into an empty store. */
  lemma LogoutRestoresDefaults(s: State)
    ensures forall i :: 0 <= i < |Defaults| ==> Lookup(LoggedOut(s), Defaults[i].0) == Lookup(Initialized(map[]), Defaults[i].0)
    ensures Authenticated(LoggedOut(s)) == Bool(false)
    ensures ChatHistory(LoggedOut(s)) == List([])
    ensures Initialized(LoggedOut(s)) == LoggedOut(s)
  {
    LoggedOutWritesDefaults(s);
    InitializedEmpty();
    FillMissingNoop(LoggedOut(s), Defaults);
  }

  /** Adding a message appends exactly that message at the end of the history and changes no other key. */
  lemma AddChatMessageSpec(s: State, role: Value, content: Value)
    ensures WithMessage(s, role, content).Ok? <==> ChatHistory(s).List?
    ensures WithMessage(s, role, content).Ok? ==>
              ChatHistory(WithMessage(s, role, content).value) == List(ChatHistory(s).items + [ChatMessage(role, content)])
    ensures WithMessage(s, role, content).Ok? ==>
              forall key :: key != ChatHistoryKey ==> Lookup(WithMessage(s, role, content).value, key) == Lookup(s, key)
    ensures ChatHistoryKey !in s ==> ChatHistory(WithMessage(s, role, content).value) == List([ChatMessage(role, content)])
  {
  }

  /** The store of one browser session and the manager's operations on it. */
  class SessionManager {
    var state: State

    /** Importing the module initialises whatever store the browser session already has. */
    constructor (existing: State)
      ensures state == Initialized(existing)
    {
      state := existing;
      new;
      Init();
    }

    /** Writes each default whose key is absent, in the table's order. */
    method Init()
      modifies this
      ensures state == Initialized(old(state))
    {
      var i := 0;
      while i < |Defaults|
        invariant 0 <= i <= |Defaults|
        invariant FillMissing(state, Defaults[i..]) == Initialized(old(state))
      {
        var (key, defaultValue) := Defaults[i];
        assert Defaults[i..][1..] == Defaults[i + 1..];
        if key !in state {
          state := state[key := defaultValue];
        }
        i := i + 1;
      }
    }

    method Get(key: string, default: Value) returns (v: Value)
      ensures key in state ==> v == state[key]
      ensures key !in state ==> v == default
    {
      v := if key in state then state[key] else default;
    }

    method Set(key: string, value: Value)
      modifies this
      ensures state == old(state)[key := value]
    {
      state := state[key := value];
    }

    method IsAuthenticated() returns (r: Value)
      ensures r == Authenticated(state)
      ensures AuthenticatedKey !in state ==> r == Bool(false)
    {
      r := Get(AuthenticatedKey, Bool(false));
    }

    method Login(userId: Value, email: Value, name: Value, accessToken: Value, idToken: Value, refreshToken: Value)
      modifies this
      ensures state == LoggedIn(old(state), userId, email, name, accessToken, idToken, refreshToken)
    {
      state := state[AuthenticatedKey := Bool(true)];
      state := state[UserIdKey := userId];
      state := state[UserEmailKey := email];
      state := state[UserNameKey := name];
      state := state[AccessTokenKey := accessToken];
      state := state[IdTokenKey := idToken];
      state := state[RefreshTokenKey := refreshToken];
    }

    method Logout()
      modifies this
      ensures state == LoggedOut(old(state))
    {
      state := state[AuthenticatedKey := Bool(false)];
      state := state[UserIdKey := Null];
      state := state[UserEmailKey := Null];
      state := state[UserNameKey := Null];
      state := state[AccessTokenKey := Null];
      state := state[IdTokenKey := Null];
      state := state[RefreshTokenKey := Null];
      state := state[PreferencesKey := Map([])];
      state := state[ChatHistoryKey := List([])];
      state := state[AgentSessionIdKey := Null];
    }

    method GetUserId() returns (r: Value)
      ensures r == Lookup(state, UserIdKey)
    {
      r := Get(UserIdKey, Null);
    }

    method GetUserEmail() returns (r: Value)
      ensures r == Lookup(state, UserEmailKey)
    {
      r := Get(UserEmailKey, Null);
    }

    method GetUserName() returns (r: Value)
      ensures r == Lookup(state, UserNameKey)
    {
      r := Get(UserNameKey, Null);
    }

    method GetAccessToken() returns (r: Value)
      ensures r == Lookup(state, AccessTokenKey)
    {
      r := Get(AccessTokenKey, Null);
    }

    method GetIdToken() returns (r: Value)
      ensures r == Lookup(state, IdTokenKey)
    {
      r := Get(IdTokenKey, Null);
    }

    method SetPreferences(preferences: Value)
      modifies this
      ensures state == old(state)[PreferencesKey := preferences]
    {
      state := state[PreferencesKey := preferences];
    }

    method GetPreferences() returns (r: Value)
      ensures PreferencesKey in state ==> r == state[PreferencesKey]
      ensures PreferencesKey !in state ==> r == Map([])
    {
      r := Get(PreferencesKey, Map([]));
    }

    /** Appends one message to the history in place, creating the history first when absent. */
    method AddChatMessage(role: Value, content: Value) returns (failure: Option<string>)
      modifies this
      ensures WithMessage(old(state), role, content).Ok? ==> failure == None && state == WithMessage(old(state), role, content).value
      ensures WithMessage(old(state), role, content).Err? ==> failure == Some(WithMessage(old(state), role, content).error)
      ensures failure.Some? ==> state == old(state)
    {
      if ChatHistoryKey !in state {
        state := state[ChatHistoryKey := List([])];
      }
      var history := state[ChatHistoryKey];
      if !history.List? {
        return Some("'" + TypeName(history) + "' object has no attribute 'append'");
      }
      state := state[ChatHistoryKey := List(history.items + [ChatMessage(role, content)])];
      failure := None;
    }

    method GetChatHistory() returns (r: Value)
      ensures r == ChatHistory(state)
    {
      r := Get(ChatHistoryKey, List([]));
    }

    method ClearChatHistory()
      modifies this
      ensures state == old(state)[ChatHistoryKey := List([])]
    {
      state := state[ChatHistoryKey := List([])];
    }

    method SetAgentSessionId(sessionId: Value)
      modifies this
      ensures state == old(state)[AgentSessionIdKey := sessionId]
    {
      state := state[AgentSessionIdKey := sessionId];
    }

    method GetAgentSessionId() returns (r: Value)
      ensures r == Lookup(state, AgentSessionIdKey)
    {
      r := Get(AgentSessionIdKey, Null);
    }

    method GetUserInfo() returns (r: Entries)
      ensures r == UserInfo(state)
    {
      var userId := GetUserId();
      var email := GetUserEmail();
      var name := GetUserName();
      r := [("user_id", userId), ("email", email), ("name", name)];
    }
  }
}
