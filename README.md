# Money Tracker session layer, in Dafny

This project models the session logic of the Money Tracker web front-end. It covers four parts:

- the auth store (`useAuthStore`). It holds `isAuthenticated`, `token` and `user` in memory and mirrors them into `localStorage` under `authToken`, `isAuthenticated` and `user`. Its actions are `initialize`, `login` and `logout`.
- the auth service. Its calls are `login`, `fetchUserFromToken` and `logout`. Each is an HTTP request followed by store and storage updates and, for the first two, an error message.
- the router's route table and its `beforeEach` guard.
- application start (`initializeAuthStore`). It re-validates the stored token against `/me` and mounts the app once the session has settled.

## Layout

- `wrappers.dfy`: `Option` and `Result` (a settled promise, or a thrown `Error` reduced to its message).
- `json.dfy`: the JSON value `JSON.parse` returns, and JavaScript truthiness.
  - The JSON facility is a `Codec`: two functions, `stringify` and `parse`.
  - Nothing is assumed about them. The lemmas that need the round-trip law take `Lawful(json)` as a hypothesis: `parse(stringify(v)) == Some(v)`, and `stringify(v)` is never empty.
  - JSON values are countable (numbers are canonical decimals), so a codec that meets the law can exist.
- `web_storage.dfy`: `localStorage` as a class over a `map<string, string>`.
- `auth_store.dfy`: the store.
  - A value `AppState` pairs the store's `Session` with the storage table.
  - Each action has an effect function on `AppState`: `InitializeEffect`, `LoginEffect` and `LogoutEffect`.
  - The class `Store` performs the same steps in place. Each method is proved to end in the effect of its old state.
  - `Mirrored` says the in-memory session is what a reload would read back. `Consistent` says authenticated ⇔ non-empty token and a user.
- `http.dfy`: how an axios request settles, taken as an input. It is the body's `data`, an axios error (whose envelope `message` may be absent), or another `Error`.
- `auth_service.dfy`: the three service calls. Each has an outcome function and a method proved against it.
- `router.dfy`: the route table, the guard decision, and `BeforeEach`. `BeforeEach` sets `document.title` and calls `next` once.
- `bootstrap.dfy`: `initializeAuthStore` and the mount that follows it.

## Model

| member | source | states |
|---|---|---|
| `AuthStore.Store.constructor` | src/stores/auth.ts:5-9 | the store starts unauthenticated, with an empty token and a null user |
| `AuthStore.Store.Initialize` | src/stores/auth.ts:11-29 | the new state is `InitializeEffect` of the old one; storage is not written |
| `AuthStore.Store.Login` | src/stores/auth.ts:30-38 | the new state is `LoginEffect` of the old one |
| `AuthStore.Store.Logout` | src/stores/auth.ts:39-47 | the new state is `LogoutEffect` of the old one |
| `AuthStore.ParseStored` | src/stores/auth.ts:12-18 | a missing key, an empty stored text, or a text that does not parse yields the fallback value; a non-empty text that parses yields the parsed value |
| `AuthStore.Loaded` | src/stores/auth.ts:11-29 | the flag and the user are the parsed stored values when the stored text is non-empty and parses, and `false`/`null` otherwise; the token is the raw stored string, or "" when absent; storage without the three keys loads the default session |
| `AuthStore.InitializeEffect` | src/stores/auth.ts:11-29 | storage is unchanged; memory then mirrors storage; with none of the three keys the session is the default |
| `AuthStore.LoginEffect` | src/stores/auth.ts:30-38 | the session is authenticated with the given token and user; `authToken` is the token, `isAuthenticated` is `stringify(true)`, `user` is `stringify(user)`; the key set gains exactly the three keys and every other key keeps its value |
| `AuthStore.LogoutEffect` | src/stores/auth.ts:39-47 | the session is the default; exactly the three keys are removed; every other key keeps its value |
| `AuthStore.LogoutIdempotent` | src/stores/auth.ts:39-47 | logging out twice leaves the same state and storage as logging out once |
| `AuthStore.LoginThenInitialize` | src/stores/auth.ts:11-38 | under the JSON round-trip law, `initialize` after `login(t, u)` restores the same state, for every `t` including the empty one |
| `AuthStore.LogoutThenInitialize` | src/stores/auth.ts:11-47 | `initialize` after `logout` reads back the default session |
| `AuthStore.CorruptFlagFallsBack` | src/stores/auth.ts:12-18 | a stored flag that fails to parse reads as `false`, and the token and user read as if it were absent |
| `AuthStore.CorruptUserFallsBack` | src/stores/auth.ts:22-28 | a stored user that fails to parse reads as `null`, and the flag and token read as if it were absent |
| `AuthStore.ApplyMirrors` | src/stores/auth.ts:11-47 | under the round-trip law, each store action leaves memory mirroring storage, whatever state it started from |
| `AuthStore.RunKeepsMirrored` | src/stores/auth.ts:11-47 | under the round-trip law, any sequence of store actions keeps memory mirroring storage |
| `AuthStore.EndsLoggedOut` | src/stores/auth.ts:39-47 | any action sequence followed by `logout` ends in the default session with none of the three keys; that is `LogoutEffect` of the state before it |
| `AuthService.ErrorMessage` | src/services/auth.ts:18-25 | the rethrown message is the error's own (envelope or `Error`) message when non-empty, otherwise the fallback; it is never empty when the fallback is not |
| `AuthService.LoginOutcome` | src/services/auth.ts:6-26 | on success the store holds the returned token and user, `authToken` is that token, and the pair is returned; on failure state and storage are unchanged and the error message follows `ErrorMessage` with 'An error occurred during login' |
| `AuthService.FetchUserOutcome` | src/services/auth.ts:28-61 | no token: logout and 'Token not found', with the reply ignored; a truthy user: `login(token, user)` and the user is returned; a falsy user: logout and 'User not found'; a failed request: logout and the envelope message or 'Failed to fetch user' |
| `AuthService.LogoutOutcome` | src/services/auth.ts:63-79 | with no token or a successful POST, the session and the three keys are cleared; with a token and a rejected POST, state and storage are unchanged |
| `AuthService.ClearingLogoutOutcome` | src/services/auth.ts:63-79 | the intended logout: the session is cleared and the three keys are removed, whatever the POST's outcome |
| `AuthService.FailedLogoutKeepsSession` | src/services/auth.ts:67-78 | a logged-in session with token "abc" whose logout POST is rejected stays authenticated with `authToken` "abc" |
| `AuthService.ServicesKeepMirrored` | src/services/auth.ts:6-79 | under the round-trip law, each service call keeps memory mirroring storage |
| `AuthService.Login` | src/services/auth.ts:6-26 | the new state and the returned result are `LoginOutcome` of the old state and the reply |
| `AuthService.FetchUserFromToken` | src/services/auth.ts:28-61 | the new state and the returned result are `FetchUserOutcome` of the old state and the reply |
| `AuthService.Logout` | src/services/auth.ts:63-79 | the new state is `LogoutOutcome` of the old state and the POST's outcome |
| `AuthService.ClearingLogout` | src/services/auth.ts:63-79 | the new state is `ClearingLogoutOutcome` of the old state |
| `Router.Decide` | src/router/index.ts:60-69 | redirect to `login` iff the route requires auth and the user is not authenticated; redirect to `dashboard` iff it does not and the user is; proceed iff the two agree; a missing `requiresAuth` counts as false |
| `Router.FindRoute` | src/router/index.ts:9-40 | a route found by name is in the table and has that name; none is found only when no route has it |
| `Router.CatchAllIsPublic` | src/router/index.ts:34-39 | the catch-all route has no `requiresAuth`: authenticated users go to `dashboard`, others proceed |
| `Router.ProtectedRoutes` | src/router/index.ts:9-40 | exactly `dashboard`, `accounts` and `settings` require authentication |
| `Router.RedirectSettles` | src/router/index.ts:60-69 | a redirect names a route of the table, and the guard proceeds on it with the same authentication flag, so there is no redirect loop |
| `Router.BeforeEach` | src/router/index.ts:50-70 | the title becomes the target's title followed by `TitleSuffix` (a separator bar and "Money Tracker"); `next` is called exactly once, with `Decide`; the store and storage are unchanged |
| `Bootstrap.BootstrapOutcome` | src/main.ts:25-50 | no stored token: logged out; `/me` gives a user: `login(token, user)`; `/me` gives no user or fails: logged out; the session invariant holds in every case |
| `Bootstrap.BootstrapSettles` | src/main.ts:25-50 | under the round-trip law, bootstrap ends with memory mirroring storage and the session invariant holding, whatever stale values `initialize` loaded |
| `Bootstrap.BootstrapIsFetchUser` | src/main.ts:25-50 | bootstrap leaves the same state as `fetchUserFromToken` run after `initialize` |
| `Bootstrap.InitializeAuthStore` | src/main.ts:25-50 | the new state is `BootstrapOutcome` of the old state and the `/me` reply; a failure is not propagated |
| `Bootstrap.Start` | src/main.ts:54-56 | the app is mounted exactly once, after bootstrap settles, and renders a session that satisfies the invariant |

## Left out

- HTTP transport is not modelled: axios, URLs, headers, request bodies and response parsing. Each request is replaced by the reply it settles with, so the service `login` takes no email or password.
- A login reply whose `data.data` is null or undefined makes the destructuring throw a `TypeError`. That is one more `PlainError` reply, not a separate case.
- A login reply whose `data.data` lacks `token` or `user` is not modelled. Such a reply destructures without throwing. The code then stores the text "undefined" under `authToken` and resolves logged in with an undefined token or user. `Credentials` holds a string token and a JSON user, so it cannot express an undefined field.
- The internals of `JSON.stringify` and `JSON.parse` are not modelled. They are an unknown `Codec`, and the round-trip law is a hypothesis of the lemmas that need it. The model does not construct a codec that satisfies the law.
- A JSON number is an exact decimal in canonical form (`Number`), not a double. Negative zero, NaN and the infinities are not represented. Decimals that are not doubles are kept exact, where JavaScript would round them. An envelope `message` that is not a string is not modelled; messages are strings.
- Pinia reactivity and store lookup are not modelled: the store is one object passed to the code that uses it. The page's `localStorage` is the store's `storage` field, reached by the services through it.
- vue-router history, `scrollBehavior`, merging of nested route `meta`, and the title of a route without one are not modelled. Every route in the table has a title.
- `setupAuthRefreshListener` (src/utils/auth.ts) is left out: it is browser event wiring that reloads the page when another tab removes the token.
- The loading store (src/stores/loading.ts) is left out: it is one boolean setter.
- `console.error` logging, CSS and plugin imports are left out. Of `app.mount`, only the session it renders with is kept.
- Promise scheduling is not modelled. The store actions are `async` but never await, so they are sequential steps. `localStorage` exceptions (quota, disabled storage) are not modelled.
- The model follows the code in three places where one might expect otherwise:
  - The service `logout` clears the session only when there is no token or the POST succeeds (see Findings).
  - A non-axios error in `login` keeps its own message before the default.
  - `initialize` stores whatever `JSON.parse` returns, not necessarily a boolean.

## Findings

| source | as written | input that shows it | evidently intended | confidence | as-written member | corrected member |
|---|---|---|---|---|---|---|
| src/services/auth.ts:67-78 | `authStore.logout()` and `removeItem('authToken')` run inside the `try` after the awaited POST, so a rejected POST skips both | logged in with `authToken` "abc"; the POST to `/logout` is rejected | the failure is only logged and the session is cleared regardless | medium, not executed | `AuthService.FailedLogoutKeepsSession` | `AuthService.ClearingLogoutOutcome` |
