# Session state machine of the Skyjo front-end

This project models the authentication core of a browser front-end for the
card game Skyjo. It covers two parts. The first is the `UserProvider` context,
which holds the signed-in user, a `loading` flag, the last status message and
the bearer token kept in browser storage under the key `authToken`. The second
is the `ProtectedRoute` guard in front of the `/game` pages.

Modules:

- `Wrappers`: the `Option` datatype used for the nullable fields.
- `Session`: the provider's state (`State`), the request outcome datatype
  (`Outcome`: `Ok(payload)`, `Rejected(errorText)` or `TransportError`) and its
  five operations. These are `verifyToken`, `login`, `register`,
  `logout`/`handleLogout` and `resetMessage`, plus the derived
  `isAuthenticated` and the render gate `!loading && children`. Every
  asynchronous operation is split into `Begin` (`setLoading(true)`) and a pure
  settle function, and the operation is their composition.
- `Route`: the guard's three-way decision (placeholder, children, or a
  redirect to `/auth/login`).
- `Lifecycle`: sequences of calls after mounting. It proves that the calls
  keep the invariant "a user implies a stored token" and never leave `loading`
  set. It also proves that they follow the Anonymous/Authenticated lifecycle
  diagram, and that the last successful login or register determines the
  session.
- `App`: the tree in `src/main.tsx`, where the provider wraps the router and
  the guard protects `/game`. It proves that guarded content appears exactly
  when a user is signed in and nothing is loading.

In these places the code behaves differently from what a reader might expect;
the model follows the code:

- On a failed login or register the code leaves `user` as it was. It does not
  clear it, so a signed-in user whose new login attempt fails stays signed in
  (`Session.FailedAuthChangesOnlyMessage`).
- `if (token)` and `errorData.error || fallback` test JavaScript truthiness. An
  empty stored token counts as no token, and an empty server error text falls
  back to the generic text (`Session.Truthy`).
- A rejected token at start-up runs `handleLogout`, so the context's message
  becomes the success-type text "Déconnexion réussie!"
  (`Session.VerifyFailureIsLogout`). Whether any view displays it depends on
  the consumers, which are not part of this model.
- `verifyToken` is not part of the context value. It runs only in the mount
  effect (`Lifecycle.Mount`), so traces of later calls contain no verification.
- The provider renders no children while `loading` is true, and it wraps the
  whole router. As a result, the guard's loading placeholder can never appear
  on screen (`App.ProtectedScreen`).

## Model

| member | source | states |
|---|---|---|
| Session.Initial | src/context/UserContext.tsx:36-38 | at mount nobody is signed in, loading is true, there is no message, the storage slot keeps its earlier content, and children are withheld |
| Session.Begin | src/context/UserContext.tsx:76 | starting an operation sets loading, which withholds the children, and changes no other field |
| Session.ErrorText | src/context/UserContext.tsx:93 | the error text is never empty; it is the server's text exactly when that text is a non-empty string, otherwise the fallback |
| Session.HandleLogout | src/context/UserContext.tsx:148-152 | logout removes the token, signs the user out and sets the success message "Déconnexion réussie!"; loading is untouched |
| Session.Logout | src/context/UserContext.tsx:143-145 | `logout` has no failure path and always ends with no token, nobody signed in and the logout success message, leaving loading untouched |
| Session.ResetMessage | src/context/UserContext.tsx:155-157 | clears the message and leaves user, token and loading as they were |
| Session.VerifySettle | src/context/UserContext.tsx:45-66 | without a truthy token the state is unchanged apart from loading; with one, an ok answer sets the user and keeps token and message, and any failure is a logout; loading ends false |
| Session.VerifyToken | src/context/UserContext.tsx:43-67 | after verification loading is false and children render; with a truthy token the user is signed in exactly when the answer was ok, an ok answer keeps the token and leaves the message untouched, and a failure equals a logout |
| Session.AuthSettle | src/context/UserContext.tsx:83-103 | success is returned exactly on an ok answer, which writes the returned token and user and sets the success text; a failure keeps token and user and sets an error message (server text or fallback, fallback on transport error); loading ends false |
| Session.Login | src/context/UserContext.tsx:75-104 | login returns true exactly on an ok answer, and exactly when the message is a success; an ok answer stores the token and user and shows "Connexion réussie!"; a failure writes no token and keeps the user, with the server's non-empty error or the connection fallback; loading ends false |
| Session.Register | src/context/UserContext.tsx:107-140 | the same as login with "Inscription réussie!" and the registration fallback text |
| Session.AuthenticatedIffUser | src/context/UserContext.tsx:162 | `isAuthenticated` holds exactly when a user is present |
| Session.LogoutIdempotent | src/context/UserContext.tsx:143-152 | logging out twice gives the same state as logging out once |
| Session.ResetMessageIdempotent | src/context/UserContext.tsx:155-157 | resetting twice equals resetting once, and resetting never changes whether someone is signed in |
| Session.VerifyFailureIsLogout | src/context/UserContext.tsx:58-64 | with a truthy token, a non-ok answer or a thrown exception during verification ends in the logout state with loading cleared |
| Session.VerifyWithoutTokenIgnoresOutcome | src/context/UserContext.tsx:45-46 | without a truthy token no request is made: the result does not depend on any answer |
| Session.LoginOkForgetsPriorState | src/context/UserContext.tsx:83-89 | a successful login produces the same state from any prior state |
| Session.RegisterOkForgetsPriorState | src/context/UserContext.tsx:122-127 | a successful register produces the same state from any prior state |
| Session.FailedAuthChangesOnlyMessage | src/context/UserContext.tsx:90-100 | a failed login or register changes only the message and clears loading |
| Route.Guard | src/components/ProtectedRoute.tsx:7-13 | placeholder while loading; otherwise children when authenticated, else a redirect to `/auth/login`; children exactly when not loading and authenticated |
| Route.LoadingHidesAuthentication | src/components/ProtectedRoute.tsx:9-11 | while loading, the guard's output does not depend on the authentication status |
| Lifecycle.Step | src/context/UserContext.tsx:160-169 | each exposed call follows the lifecycle diagram between settled phases, keeps "user implies token", leaves loading settled, and changes the token only by clearing it on logout or by writing the token of a successful login or register |
| Lifecycle.Mount | src/context/UserContext.tsx:69-72 | after the mount effect loading is false and the state is consistent; the user is signed in exactly when a truthy stored token was verified ok, and then the message is still empty; a failed verification deletes the token; with no token the state is the initial one, settled |
| Lifecycle.RunAppend | src/context/UserContext.tsx:160-169 | running one more call after a sequence is one more step |
| Lifecycle.RunPreservesConsistent | src/context/UserContext.tsx:83-152 | no sequence of calls reaches a state with a user but no stored token |
| Lifecycle.RunStaysSettled | src/context/UserContext.tsx:101-103 | from a settled state no sequence of calls leaves loading set |
| Lifecycle.ReachableInvariant | src/context/UserContext.tsx:36-169 | every state reachable after mounting is settled and consistent |
| Lifecycle.LastSuccessfulAuthWins | src/context/UserContext.tsx:83-89 | after any history, a successful login or register leaves the state that call alone produces, with the returned user and token |
| Lifecycle.NoSuccessNoTokenWrite | src/context/UserContext.tsx:86 | without a successful login or register the stored token is never replaced by a new value, only kept or deleted |
| App.ProtectedScreen | src/main.tsx:82-85 | a guarded page under the provider is blank exactly while loading, shows its content exactly when a user is signed in and nothing loads, otherwise redirects to login, and never shows the guard's placeholder |
| App.InFlightShowsNothing | src/context/UserContext.tsx:173 | while an operation is in flight the guarded content is not shown |
| App.ReachableProtectedScreen | src/components/ProtectedRoute.tsx:7-13 | in every reachable state a guarded page shows something, and shows its content exactly when a user is signed in, who is then backed by a stored token |

## Left out

- The network and JSON: `fetch`, its URLs and headers, and `response.json()`
  are replaced by the `Outcome` the caller supplies. A body that fails to parse
  is a `TransportError`, because it lands in the `catch`. The credentials and
  registration values only shape the request, so they are not parameters.
- Browser storage as I/O: the `authToken` slot is one optional string field.
- Payload shapes: a missing `token`, `id` or `username` field in a response,
  or an `error` field that is not a string, is not modelled. The model assumes
  well-typed bodies.
- Concurrency: React state batching, effect scheduling, and interleavings of
  operations (a login racing a logout, or a late update after unmount) are not
  modelled. Each operation is one atomic `Begin` followed by its settle step.
- Logging: `console.log` and `console.error` calls are not modelled.
- Other screens: the login and register forms, the header, the game page
  stub and the rest of the routing table are user-interface wiring and are
  not modelled. Only the guard placed in front of `/game` is kept.
- Session.AuthSettle: does not model an ok login or register body without a
  `user` object. In that case `localStorage.setItem` at
  src/context/UserContext.tsx:86 (or 124) stores the new token, and only then
  does reading `data.user.id` throw into the `catch`. The call returns false
  with the fallback error and an unchanged user, but the new token stays in
  storage. This is the one source path where a failure writes a token; the
  model's `Outcome` has no case for it.
- Lifecycle.NoSuccessNoTokenWrite: holds only for well-formed ok bodies. The
  token written before the `data.user` access throws, described in the line
  above, is the exception.
- App.ProtectedScreen, App.ReachableProtectedScreen: both assume that the
  `useUser` hook the guard reads `loading` and `isAuthenticated` through
  returns the provider's context value unchanged. The hook file
  (src/hooks/User) is not part of this model. Its shape is uncertain, because
  src/components/nav/Header.tsx reads `isAuthentified` and `userName` from the
  same hook, and neither name exists in the context type.
- Session.HandleLogout, Session.Logout, Session.VerifyToken, Lifecycle.Mount:
  browser storage calls are taken never to throw. If `removeItem` at
  src/context/UserContext.tsx:149 throws, `logout()` throws to its caller and
  leaves user and message unchanged. Without that assumption `verifyToken`
  can also leave loading set, because its `setLoading(false)` at src/context/UserContext.tsx:66 is not in
  a `finally`. `localStorage.getItem` at line 45 is outside the `try`, and the
  `removeItem` of `handleLogout` (line 149) runs inside the `catch`. If either
  throws, the returned promise rejects with loading still true, and the gate
  at line 173 keeps hiding the router. Login and register clear loading in a
  `finally`, so they are unaffected.
- Lifecycle.RunPreservesConsistent, Lifecycle.ReachableInvariant, Lifecycle.NoSuccessNoTokenWrite, App.ReachableProtectedScreen:
  the `authToken` slot is taken to be written only by this provider instance.
  Browser storage is shared by every tab of the same origin, and the provider
  does not listen for `storage` events. A logout or login in another tab, or
  cleared site data, can remove or replace the token while this tab still
  holds its user. That breaks "a user implies a stored token" and "the token
  is never replaced without a successful call".
