/** The auth service: `login`, `fetchUserFromToken` and `logout`, each an
    HTTP request whose settled reply is an input, followed by auth store and
    `localStorage` updates and, for the first two, an error message. */
module AuthService {
  import opened Wrappers
  import opened Json
  import opened WebStorage
  import opened AuthStore
  import opened Http

  const LoginFailedMessage: string := "An error occurred during login"
  const TokenNotFoundMessage: string := "Token not found"
  const UserNotFoundMessage: string := "User not found"
  const FetchFailedMessage: string := "Failed to fetch user"

  /** The `{ token, user }` pair in a successful login reply. */
  datatype Credentials = Credentials(token: string, user: Json)

  /** The state a call leaves behind and what its promise settles with. */
  datatype Outcome<T> = Outcome(after: AppState, result: Result<T>)

  /** `message || fallback`: the message a `catch` block rethrows. */
  function ErrorMessage(error: Error, fallback: string): (m: string)
    ensures m == Text(error) || m == fallback
    ensures Text(error) != "" ==> m == Text(error)
    ensures fallback != "" ==> m != ""
  {
    if Text(error) != "" then Text(error) else fallback
  }

  /** `login(email, password)` once the POST to `/login` has settled. */
  function LoginOutcome(st: AppState, reply: Reply<Credentials>, json: Codec): (o: Outcome<Credentials>)
    ensures reply.Ok? ==> o.result == Success(reply.data)
    ensures reply.Ok? ==> o.after == LoginEffect(st, reply.data.token, reply.data.user, json)
    ensures reply.Err? ==> o.after == st
    ensures reply.Err? ==> o.result == Failure(ErrorMessage(reply.error, LoginFailedMessage))
    ensures o.result.Failure? ==> o.result.message != ""
  {
    match reply
    case Ok(credentials) =>
      // the service's own setItem('authToken'), then the store's login
      var written := AppState(st.session, st.storage[AuthTokenKey := credentials.token]);
      Outcome(LoginEffect(written, credentials.token, credentials.user, json), Success(credentials))
    case Err(error) =>
      Outcome(st, Failure(ErrorMessage(error, LoginFailedMessage)))
  }

  /** `fetchUserFromToken()` once the GET of `/me` (if one is made) has settled. */
  function FetchUserOutcome(st: AppState, reply: Reply<Json>, json: Codec): (o: Outcome<Json>)
    ensures !HasToken(st.storage) ==> o == Outcome(LogoutEffect(st), Failure(TokenNotFoundMessage))
    ensures HasToken(st.storage) && reply.Ok? && Truthy(reply.data) ==>
              o == Outcome(LoginEffect(st, st.storage[AuthTokenKey], reply.data, json), Success(reply.data))
    ensures HasToken(st.storage) && reply.Ok? && !Truthy(reply.data) ==>
              o == Outcome(LogoutEffect(st), Failure(UserNotFoundMessage))
    ensures HasToken(st.storage) && reply.Err? ==>
              o == Outcome(LogoutEffect(st), Failure(ErrorMessage(reply.error, FetchFailedMessage)))
    ensures o.result.Failure? ==> o.after == LogoutEffect(st) && o.result.message != ""
  {
    if !HasToken(st.storage) then
      Outcome(LogoutEffect(st), Failure(TokenNotFoundMessage))
    else
      var token := st.storage[AuthTokenKey];
      match reply
      case Ok(user) =>
        if Truthy(user) then
          Outcome(LoginEffect(st, token, user, json), Success(user))
        else
          // logout, then the rethrown 'User not found' is caught again and logs out once more
          LogoutIdempotent(st);
          Outcome(LogoutEffect(LogoutEffect(st)),
                  Failure(ErrorMessage(PlainError(UserNotFoundMessage), FetchFailedMessage)))
      case Err(error) =>
        Outcome(LogoutEffect(st), Failure(ErrorMessage(error, FetchFailedMessage)))
  }

  /** `logout()` once the POST to `/logout` (if one is made) has settled, as
      the code is written: a rejected POST skips the clearing altogether. */
  function LogoutOutcome(st: AppState, post: Reply<()>): (r: AppState)
    ensures !HasToken(st.storage) || post.Ok? ==> r == LogoutEffect(st)
    ensures HasToken(st.storage) && post.Err? ==> r == st
  {
    if HasToken(st.storage) && post.Err? then
      st
    else
      var cleared := LogoutEffect(st);
      AppState(cleared.session, cleared.storage - {AuthTokenKey})
  }

  /** `logout()` as it is meant to behave: the POST's failure is logged and
      the session is cleared all the same. */
  function ClearingLogoutOutcome(st: AppState, post: Reply<()>): (r: AppState)
    ensures r == LogoutEffect(st)
    ensures r.session == DefaultSession() && SessionKeys !! r.storage.Keys
  {
    var cleared := LogoutEffect(st);
    AppState(cleared.session, cleared.storage - {AuthTokenKey})
  }

  /** The logged-in user clicks "log out", and the POST is rejected: the
      session is still authenticated and the token is still stored. */
  lemma FailedLogoutKeepsSession(json: Codec)
    ensures var st := LoginEffect(AppState(DefaultSession(), map[]), "abc", JObject(map[]), json);
            var after := LogoutOutcome(st, Err(AxiosError(None)));
            Truthy(after.session.isAuthenticated) && after.storage[AuthTokenKey] == "abc"
            && after != ClearingLogoutOutcome(st, Err(AxiosError(None)))
  {
  }

  /** Every service call leaves memory and storage agreeing when they agreed
      before: the store's own actions are the only writers. */
  lemma ServicesKeepMirrored(st: AppState, login: Reply<Credentials>, me: Reply<Json>, post: Reply<()>, json: Codec)
    requires Lawful(json) && Mirrored(st, json)
    ensures Mirrored(LoginOutcome(st, login, json).after, json)
    ensures Mirrored(FetchUserOutcome(st, me, json).after, json)
    ensures Mirrored(LogoutOutcome(st, post), json)
  {
  }

  method Login(store: Store, reply: Reply<Credentials>) returns (result: Result<Credentials>)
    modifies store, store.storage
    ensures Outcome(store.Current(), result) == LoginOutcome(old(store.Current()), reply, store.json)
  {
    match reply
    case Ok(credentials) =>
      store.storage.SetItem(AuthTokenKey, credentials.token);
      store.Login(credentials.token, credentials.user);
      result := Success(credentials);
    case Err(AxiosError(apiMessage)) =>
      var message := if apiMessage.Some? && apiMessage.value != "" then apiMessage.value else LoginFailedMessage;
      result := Failure(message);
    case Err(PlainError(message)) =>
      result := Failure(if message != "" then message else LoginFailedMessage);
  }

  method FetchUserFromToken(store: Store, reply: Reply<Json>) returns (result: Result<Json>)
    modifies store, store.storage
    ensures Outcome(store.Current(), result) == FetchUserOutcome(old(store.Current()), reply, store.json)
  {
    var token := store.storage.GetItem(AuthTokenKey);
    if token.None? || token.value == "" {
      store.Logout();
      return Failure(TokenNotFoundMessage);
    }

    // try
    var thrown: Error;
    match reply {
      case Ok(user) =>
        if Truthy(user) {
          store.Login(token.value, user);
          return Success(user);
        }
        store.Logout();
        thrown := PlainError(UserNotFoundMessage);
      case Err(error) =>
        thrown := error;
    }

    // catch
    match thrown {
      case AxiosError(apiMessage) =>
        var message := if apiMessage.Some? && apiMessage.value != "" then apiMessage.value else FetchFailedMessage;
        store.Logout();
        result := Failure(message);
      case PlainError(message) =>
        store.Logout();
        result := Failure(if message != "" then message else FetchFailedMessage);
    }
  }

  method Logout(store: Store, post: Reply<()>)
    modifies store, store.storage
    ensures store.Current() == LogoutOutcome(old(store.Current()), post)
  {
    var token := store.storage.GetItem(AuthTokenKey);
    if token.Some? && token.value != "" && post.Err? {
      // the rejected POST lands in the catch, which only logs
      return;
    }
    store.Logout();
    store.storage.RemoveItem(AuthTokenKey);
  }

  /** `logout()` with the clearing moved out of the `try`. */
  method ClearingLogout(store: Store, post: Reply<()>)
    modifies store, store.storage
    ensures store.Current() == ClearingLogoutOutcome(old(store.Current()), post)
  {
    store.Logout();
    store.storage.RemoveItem(AuthTokenKey);
  }
}
