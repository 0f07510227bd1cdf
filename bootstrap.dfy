/** Application start: `initializeAuthStore` re-validates the stored token
    against `/me`, and the app is mounted once that has settled. */
module Bootstrap {
  import opened Wrappers
  import opened Json
  import opened WebStorage
  import opened AuthStore
  import opened Http
  import AuthService

  /** The state `initializeAuthStore()` settles in, given what the GET of
      `/me` settles with (consulted only when a token is stored). */
  function BootstrapOutcome(st: AppState, me: Reply<Json>, json: Codec): (r: AppState)
    ensures !HasToken(st.storage) ==> r == LogoutEffect(st)
    ensures HasToken(st.storage) && me.Ok? && Truthy(me.data) ==>
              r == LoginEffect(st, st.storage[AuthTokenKey], me.data, json)
    ensures HasToken(st.storage) && me.Ok? && !Truthy(me.data) ==> r == LogoutEffect(st)
    ensures HasToken(st.storage) && me.Err? ==> r == LogoutEffect(st)
    ensures Consistent(r.session)
  {
    var loaded := InitializeEffect(st, json);
    if HasToken(loaded.storage) then
      var token := loaded.storage[AuthTokenKey];
      match me
      case Ok(user) =>
        if Truthy(user) then LoginEffect(loaded, token, user, json) else LogoutEffect(loaded)
      case Err(_) => LogoutEffect(loaded)
    else
      LogoutEffect(loaded)
  }

  /** Whatever stale session `initialize()` loaded, bootstrap ends with
      memory and storage agreeing and the session invariant holding. */
  lemma BootstrapSettles(st: AppState, me: Reply<Json>, json: Codec)
    requires Lawful(json)
    ensures Mirrored(BootstrapOutcome(st, me, json), json)
    ensures Consistent(BootstrapOutcome(st, me, json).session)
  {
  }

  /** Bootstrap leaves the same state as `fetchUserFromToken()` run after
      `initialize()`: it is that function's logic written out a second time,
      with the error swallowed instead of rethrown. */
  lemma BootstrapIsFetchUser(st: AppState, me: Reply<Json>, json: Codec)
    ensures BootstrapOutcome(st, me, json)
         == AuthService.FetchUserOutcome(InitializeEffect(st, json), me, json).after
  {
  }

  /** The Vue app, reduced to the auth state each mount rendered with. */
  class App {
    var mounts: seq<Session>

    constructor ()
      ensures mounts == []
    {
      mounts := [];
    }

    /** `app.mount('#app')`: renders with the store as it is now. */
    method Mount(store: Store)
      modifies this
      ensures mounts == old(mounts) + [store.Current().session]
    {
      mounts := mounts + [store.Current().session];
    }
  }

  method InitializeAuthStore(store: Store, me: Reply<Json>)
    modifies store, store.storage
    ensures store.Current() == BootstrapOutcome(old(store.Current()), me, store.json)
  {
    store.Initialize();
    var token := store.storage.GetItem(AuthTokenKey);

    if token.Some? && token.value != "" {
      match me
      case Ok(user) =>
        if Truthy(user) {
          store.Login(token.value, user);
        } else {
          store.Logout();
        }
      case Err(_) =>
        // the failure is logged and swallowed
        store.Logout();
    } else {
      store.Logout();
    }
  }

  /** `initializeAuthStore().finally(() => app.mount('#app'))`: the app is
      mounted exactly once, after the session has settled. */
  method Start(store: Store, app: App, me: Reply<Json>)
    modifies store, store.storage, app
    ensures store.Current() == BootstrapOutcome(old(store.Current()), me, store.json)
    ensures app.mounts == old(app.mounts) + [store.Current().session]
    ensures Consistent(app.mounts[|app.mounts| - 1])
  {
    InitializeAuthStore(store, me);
    app.Mount(store);
  }
}
