/** The auth store (`useAuthStore`): three in-memory fields mirrored into
    three `localStorage` keys by `initialize`, `login` and `logout`.

    Each action is specified twice: by a function on an `AppState` value
    (the "effect"), and by a method of the class `Store` that performs the
    same steps in place and is proved to end in the effect of its old state. */
module AuthStore {
  import opened Wrappers
  import opened Json
  import opened WebStorage

  const AuthTokenKey: string := "authToken"
  const IsAuthenticatedKey: string := "isAuthenticated"
  const UserKey: string := "user"
  const SessionKeys: set<string> := {AuthTokenKey, IsAuthenticatedKey, UserKey}

  /** The store's state: `isAuthenticated` and `user` hold whatever
      `JSON.parse` gave back, `token` is the raw stored string. */
  datatype Session = Session(isAuthenticated: Json, token: string, user: Json)

  /** The store together with the page's `localStorage`. */
  datatype AppState = AppState(session: Session, storage: Items)

  /** The state the store is created with. */
  function DefaultSession(): (s: Session) {
    Session(JBool(false), "", JNull)
  }

  /** The session invariant: authenticated exactly when there is a token and
      a user. Nothing in the store enforces it. */
  predicate Consistent(s: Session) {
    Truthy(s.isAuthenticated) <==> (s.token != "" && s.user != JNull)
  }

  /** `stored ? JSON.parse(stored) : fallback`, where a parse error is caught
      and replaced by `fallback`. */
  function ParseStored(items: Items, key: string, json: Codec, fallback: Json): (v: Json)
    ensures key !in items ==> v == fallback
    ensures key in items && items[key] == "" ==> v == fallback
    ensures key in items && json.parse(items[key]).None? ==> v == fallback
    ensures key in items && items[key] != "" && json.parse(items[key]).Some? ==>
              v == json.parse(items[key]).value
  {
    if key in items && items[key] != "" then
      match json.parse(items[key])
      case Some(parsed) => parsed
      case None => fallback
    else
      fallback
  }

  /** `localStorage.getItem('authToken')` is truthy. */
  predicate HasToken(items: Items) {
    AuthTokenKey in items && items[AuthTokenKey] != ""
  }

  /** The session `initialize` reads back from a storage table. */
  function Loaded(items: Items, json: Codec): (s: Session)
    ensures SessionKeys !! items.Keys ==> s == DefaultSession()
    ensures AuthTokenKey in items ==> s.token == items[AuthTokenKey]
    ensures AuthTokenKey !in items ==> s.token == ""
    ensures IsAuthenticatedKey in items && items[IsAuthenticatedKey] != ""
              && json.parse(items[IsAuthenticatedKey]).Some? ==>
              s.isAuthenticated == json.parse(items[IsAuthenticatedKey]).value
    ensures (IsAuthenticatedKey !in items || items[IsAuthenticatedKey] == ""
              || json.parse(items[IsAuthenticatedKey]).None?) ==>
              s.isAuthenticated == JBool(false)
    ensures UserKey in items && items[UserKey] != "" && json.parse(items[UserKey]).Some? ==>
              s.user == json.parse(items[UserKey]).value
    ensures (UserKey !in items || items[UserKey] == "" || json.parse(items[UserKey]).None?) ==>
              s.user == JNull
  {
    Session(
      ParseStored(items, IsAuthenticatedKey, json, JBool(false)),
      if AuthTokenKey in items then items[AuthTokenKey] else "",
      ParseStored(items, UserKey, json, JNull))
  }

  /** The in-memory session is what a reload would read back from storage. */
  predicate Mirrored(st: AppState, json: Codec) {
    Loaded(st.storage, json) == st.session
  }

  /** `initialize()`: only reads storage. */
  function InitializeEffect(st: AppState, json: Codec): (r: AppState)
    ensures r.storage == st.storage
    ensures Mirrored(r, json)
    ensures SessionKeys !! st.storage.Keys ==> r.session == DefaultSession()
  {
    AppState(Loaded(st.storage, json), st.storage)
  }

  /** `login(token, user)`: sets the three fields and writes the three keys. */
  function LoginEffect(st: AppState, token: string, user: Json, json: Codec): (r: AppState)
    ensures Truthy(r.session.isAuthenticated) && r.session.token == token && r.session.user == user
    ensures r.storage.Keys == st.storage.Keys + SessionKeys
    ensures r.storage[AuthTokenKey] == token
    ensures r.storage[IsAuthenticatedKey] == json.stringify(JBool(true))
    ensures r.storage[UserKey] == json.stringify(user)
    ensures forall k :: k in st.storage && k !in SessionKeys ==> r.storage[k] == st.storage[k]
  {
    AppState(
      Session(JBool(true), token, user),
      st.storage[AuthTokenKey := token]
                [IsAuthenticatedKey := json.stringify(JBool(true))]
                [UserKey := json.stringify(user)])
  }

  /** `logout()`: resets the three fields and removes the three keys. */
  function LogoutEffect(st: AppState): (r: AppState)
    ensures r.session == DefaultSession()
    ensures r.storage.Keys == st.storage.Keys - SessionKeys
    ensures forall k :: k in r.storage ==> r.storage[k] == st.storage[k]
  {
    AppState(DefaultSession(), st.storage - SessionKeys)
  }

  /** Logging out twice is logging out once. */
  lemma LogoutIdempotent(st: AppState)
    ensures LogoutEffect(LogoutEffect(st)) == LogoutEffect(st)
  {
  }

  /** A reload after `login(token, user)` restores the same session, for any
      token (an empty one is stored as "" and read back through `|| ''`). */
  lemma LoginThenInitialize(st: AppState, token: string, user: Json, json: Codec)
    requires Lawful(json)
    ensures InitializeEffect(LoginEffect(st, token, user, json), json)
         == LoginEffect(st, token, user, json)
  {
  }

  /** A reload after `logout()` finds the default session. */
  lemma LogoutThenInitialize(st: AppState, json: Codec)
    ensures InitializeEffect(LogoutEffect(st), json) == LogoutEffect(st)
  {
  }

  /** An unparsable stored flag reads as `false`; token and user are read as
      if the flag were not there at all. */
  lemma CorruptFlagFallsBack(items: Items, text: string, json: Codec)
    requires json.parse(text).None?
    ensures Loaded(items[IsAuthenticatedKey := text], json)
         == Loaded(items, json).(isAuthenticated := JBool(false))
  {
  }

  /** An unparsable stored user reads as `null`; flag and token are read as
      if the user were not there at all. */
  lemma CorruptUserFallsBack(items: Items, text: string, json: Codec)
    requires json.parse(text).None?
    ensures Loaded(items[UserKey := text], json)
         == Loaded(items, json).(user := JNull)
  {
  }

  /** The store's three actions, for reasoning about any sequence of them. */
  datatype Action = Initialize | Login(token: string, user: Json) | Logout

  function Apply(st: AppState, action: Action, json: Codec): (r: AppState) {
    match action
    case Initialize => InitializeEffect(st, json)
    case Login(token, user) => LoginEffect(st, token, user, json)
    case Logout => LogoutEffect(st)
  }

  function Run(st: AppState, actions: seq<Action>, json: Codec): (r: AppState)
    decreases |actions|
  {
    if actions == [] then st else Run(Apply(st, actions[0], json), actions[1..], json)
  }

  /** Every action leaves memory and storage agreeing, whatever came before. */
  lemma ApplyMirrors(st: AppState, action: Action, json: Codec)
    requires Lawful(json)
    ensures Mirrored(Apply(st, action, json), json)
  {
  }

  /** Running actions one sequence after another is running the concatenation. */
  lemma {:induction false} RunAppend(st: AppState, first: seq<Action>, second: seq<Action>, json: Codec)
    ensures Run(st, first + second, json) == Run(Run(st, first, json), second, json)
    decreases |first|
  {
    if first == [] {
      assert first + second == second;
    } else {
      assert (first + second)[0] == first[0];
      assert (first + second)[1..] == first[1..] + second;
      RunAppend(Apply(st, first[0], json), first[1..], second, json);
    }
  }

  /** A mirrored state stays mirrored through any sequence of actions. */
  lemma {:induction false} RunKeepsMirrored(st: AppState, actions: seq<Action>, json: Codec)
    requires Lawful(json) && Mirrored(st, json)
    ensures Mirrored(Run(st, actions, json), json)
    decreases |actions|
  {
    if actions != [] {
      ApplyMirrors(st, actions[0], json);
      RunKeepsMirrored(Apply(st, actions[0], json), actions[1..], json);
    }
  }

  /** Whatever actions ran before, a final `logout()` leaves the default
      session, none of the three keys, and every other key as it was. */
  lemma EndsLoggedOut(st: AppState, actions: seq<Action>, json: Codec)
    ensures Run(st, actions + [Logout], json).session == DefaultSession()
    ensures SessionKeys !! Run(st, actions + [Logout], json).storage.Keys
    ensures Run(st, actions + [Logout], json) == LogoutEffect(Run(st, actions, json))
  {
    RunAppend(st, actions, [Logout], json);
  }

  /** The auth store object. `storage` is the page's `localStorage` and
      `json` the page's JSON facility. */
  class Store {
    var isAuthenticated: Json
    var token: string
    var user: Json
    const storage: LocalStorage
    const json: Codec

    function Current(): (r: AppState)
      reads this, storage
    {
      AppState(Session(isAuthenticated, token, user), storage.items)
    }

    constructor (storage: LocalStorage, json: Codec)
      ensures this.storage == storage
      ensures this.json.stringify == json.stringify && this.json.parse == json.parse
      ensures Current() == AppState(DefaultSession(), storage.items)
    {
      this.storage := storage;
      this.json := json;
      isAuthenticated := JBool(false);
      token := "";
      user := JNull;
    }

    method Initialize()
      modifies this
      ensures Current() == InitializeEffect(old(Current()), json)
    {
      var storedIsAuthenticated := storage.GetItem(IsAuthenticatedKey);
      if storedIsAuthenticated.Some? && storedIsAuthenticated.value != "" {
        match json.parse(storedIsAuthenticated.value)
        case Some(v) => isAuthenticated := v;
        case None => isAuthenticated := JBool(false);  // the parse error is caught
      } else {
        isAuthenticated := JBool(false);
      }

      var storedToken := storage.GetItem(AuthTokenKey);
      token := if storedToken.Some? && storedToken.value != "" then storedToken.value else "";

      var storedUser := storage.GetItem(UserKey);
      if storedUser.Some? && storedUser.value != "" {
        match json.parse(storedUser.value)
        case Some(v) => user := v;
        case None => user := JNull;  // the parse error is caught
      } else {
        user := JNull;
      }
    }

    method Login(token: string, user: Json)
      modifies this, storage
      ensures Current() == LoginEffect(old(Current()), token, user, json)
    {
      this.isAuthenticated := JBool(true);
      this.token := token;
      this.user := user;

      storage.SetItem(AuthTokenKey, token);
      storage.SetItem(IsAuthenticatedKey, json.stringify(JBool(true)));
      storage.SetItem(UserKey, json.stringify(user));
    }

    method Logout()
      modifies this, storage
      ensures Current() == LogoutEffect(old(Current()))
    {
      isAuthenticated := JBool(false);
      token := "";
      user := JNull;

      storage.RemoveItem(AuthTokenKey);
      storage.RemoveItem(IsAuthenticatedKey);
      storage.RemoveItem(UserKey);
    }
  }
}
