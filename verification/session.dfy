/** The session state machine of `UserProvider`: the signed-in user, the
    `authToken` slot of the browser's durable storage, the loading flag and
    the last status message, with the five transitions the provider exposes.

    Each network request (`fetch` followed by `response.json()`) is replaced by
    an `Outcome` the caller supplies, and each asynchronous operation by a
    `Begin` step (the `setLoading(true)` it starts with) followed by a pure
    settle step that computes everything the operation does after the await. */
module Session {
  import opened Wrappers

  /** The authenticated identity, `{ id, username }`. */
  datatype User = User(id: string, username: string)

  datatype MessageKind = Success | Error

  /** The status message shown to the user, `{ type, text }`. */
  datatype Message = Message(kind: MessageKind, text: string)

  /** Everything the provider holds. `token` is the single storage slot kept
      under the key `authToken`; `None` is a missing key. */
  datatype State = State(
    user: Option<User>,
    token: Option<string>,
    loading: bool,
    message: Option<Message>)

  /** What a request yields as the provider sees it: an ok response whose body
      parsed, a non-ok response whose body carried (or did not carry) an
      `error` text, or an exception thrown by `fetch` or by `response.json()`. */
  datatype Outcome<T> = Ok(payload: T) | Rejected(errorText: Option<string>) | TransportError

  /** The body of an ok login or register response, `{ token, user }`. */
  datatype AuthPayload = AuthPayload(token: string, user: User)

  /** The result of login and register: the new state and the boolean the
      returned promise resolves to. */
  datatype Reply = Reply(state: State, success: bool)

  const LoginSuccessText := "Connexion réussie!"
  const LoginFallbackText := "Une erreur s'est produite lors de la connexion."
  const RegisterSuccessText := "Inscription réussie!"
  const RegisterFallbackText := "Une erreur s'est produite lors de l'inscription."
  const LogoutSuccessText := "Déconnexion réussie!"

  /** The derived `isAuthenticated` value: `!!user`. It is never stored. */
  predicate IsAuthenticated(s: State) {
    s.user.Some?
  }

  /** The provider's render gate `!loading && children`. */
  predicate RendersChildren(s: State) {
    !s.loading
  }

  /** The JavaScript truth value of a `string | null` or an optional string
      field, as tested by `if (token)` and by `errorData.error || …`: a
      missing value and the empty string are both false. */
  predicate Truthy(t: Option<string>) {
    t.Some? && t.value != ""
  }

  /** The text shown after a failed request, `errorData.error || fallback`:
      the server's text when it is a non-empty string, the fallback otherwise. */
  function ErrorText(server: Option<string>, fallback: string): (t: string)
    requires fallback != ""
    ensures t != ""
    ensures t == fallback || server == Some(t)
    ensures Truthy(server) <==> server == Some(t)
  {
    if Truthy(server) then server.value else fallback
  }

  /** The state when the provider mounts: nobody signed in, loading, no
      message, and whatever the storage slot held from an earlier visit. */
  function Initial(stored: Option<string>): (s: State)
    ensures !IsAuthenticated(s) && s.loading && s.message == None
    ensures s.token == stored
    ensures !RendersChildren(s)
  {
    State(None, stored, true, None)
  }

  /** `setLoading(true)`, the first statement of every asynchronous operation. */
  function Begin(s: State): (r: State)
    ensures r.loading && !RendersChildren(r)
    ensures r.user == s.user && r.token == s.token && r.message == s.message
  {
    s.(loading := true)
  }

  /** `handleLogout`: removes the token from storage, forgets the user and
      announces the logout. Nothing else is touched. */
  function HandleLogout(s: State): (r: State)
    ensures r.token == None && !IsAuthenticated(r)
    ensures r.message == Some(Message(Success, LogoutSuccessText))
    ensures r.loading == s.loading
  {
    s.(token := None, user := None, message := Some(Message(Success, LogoutSuccessText)))
  }

  /** `logout`, which only delegates to `handleLogout`; it never fails. */
  function Logout(s: State): (r: State)
    ensures r.token == None && !IsAuthenticated(r)
    ensures r.message == Some(Message(Success, LogoutSuccessText))
    ensures r.loading == s.loading
  {
    HandleLogout(s)
  }

  /** `resetMessage`: clears the message and nothing else. */
  function ResetMessage(s: State): (r: State)
    ensures r.message == None
    ensures r.user == s.user && r.token == s.token && r.loading == s.loading
  {
    s.(message := None)
  }

  /** Everything `verifyToken` does after `setLoading(true)`. Without a truthy
      token no request is made and `outcome` is not consulted; with one, an
      ok response sets the user from `{ id, username }` and any failure (a
      non-ok status or a thrown exception) runs `handleLogout`. The loading
      flag is cleared on every path. */
  function VerifySettle(s: State, outcome: Outcome<User>): (r: State)
    ensures !r.loading
    ensures !Truthy(s.token) ==> r == s.(loading := false)
    ensures Truthy(s.token) && outcome.Ok? ==>
              r.user == Some(outcome.payload) && r.token == s.token && r.message == s.message
    ensures Truthy(s.token) && !outcome.Ok? ==> r == HandleLogout(s).(loading := false)
  {
    if !Truthy(s.token) then
      s.(loading := false)
    else
      match outcome
      case Ok(u) => s.(user := Some(u), loading := false)
      case _ => HandleLogout(s).(loading := false)
  }

  /** `verifyToken` as a whole. */
  function VerifyToken(s: State, outcome: Outcome<User>): (r: State)
    ensures !r.loading && RendersChildren(r)
    ensures !Truthy(s.token) ==> r.user == s.user && r.token == s.token && r.message == s.message
    ensures Truthy(s.token) ==> (IsAuthenticated(r) <==> outcome.Ok?)
    ensures Truthy(s.token) && outcome.Ok? ==>
              r.user == Some(outcome.payload) && r.token == s.token && r.message == s.message
    ensures Truthy(s.token) && !outcome.Ok? ==> r == HandleLogout(s).(loading := false)
  {
    VerifySettle(Begin(s), outcome)
  }

  /** The part shared by `login` and `register` after `setLoading(true)`: on
      an ok response the token is written to storage, the user is set from
      `data.user`, a success message is shown and the promise resolves to
      true; on a non-ok response or an exception only an error message is set
      and the promise resolves to false. The `finally` clears loading. */
  function AuthSettle(s: State, outcome: Outcome<AuthPayload>, successText: string, fallback: string): (r: Reply)
    requires fallback != ""
    ensures !r.state.loading
    ensures r.success <==> outcome.Ok?
    ensures outcome.Ok? ==>
              r.state.token == Some(outcome.payload.token)
              && r.state.user == Some(outcome.payload.user)
              && r.state.message == Some(Message(Success, successText))
    ensures !outcome.Ok? ==>
              r.state.token == s.token && r.state.user == s.user
              && r.state.message.Some? && r.state.message.value.kind == Error
    ensures outcome.Rejected? ==>
              r.state.message == Some(Message(Error, ErrorText(outcome.errorText, fallback)))
    ensures outcome.TransportError? ==> r.state.message == Some(Message(Error, fallback))
  {
    match outcome
    case Ok(p) =>
      Reply(State(Some(p.user), Some(p.token), false, Some(Message(Success, successText))), true)
    case Rejected(text) =>
      Reply(s.(loading := false, message := Some(Message(Error, ErrorText(text, fallback)))), false)
    case TransportError =>
      Reply(s.(loading := false, message := Some(Message(Error, fallback))), false)
  }

  /** `login(email, password)`. The credentials only shape the request, whose
      answer is `outcome`, so they are not parameters here. */
  function Login(s: State, outcome: Outcome<AuthPayload>): (r: Reply)
    ensures !r.state.loading
    ensures r.success <==> outcome.Ok?
    ensures r.success <==> r.state.message.Some? && r.state.message.value.kind == Success
    ensures outcome.Ok? ==>
              r.state.token == Some(outcome.payload.token)
              && r.state.user == Some(outcome.payload.user)
              && r.state.message == Some(Message(Success, LoginSuccessText))
    ensures !outcome.Ok? ==> r.state.token == s.token && r.state.user == s.user
    ensures outcome.Rejected? && Truthy(outcome.errorText) ==>
              r.state.message == Some(Message(Error, outcome.errorText.value))
    ensures outcome.TransportError? || (outcome.Rejected? && !Truthy(outcome.errorText)) ==>
              r.state.message == Some(Message(Error, LoginFallbackText))
  {
    AuthSettle(Begin(s), outcome, LoginSuccessText, LoginFallbackText)
  }

  /** `register(values)`: the same contract as `login` with its own texts. */
  function Register(s: State, outcome: Outcome<AuthPayload>): (r: Reply)
    ensures !r.state.loading
    ensures r.success <==> outcome.Ok?
    ensures r.success <==> r.state.message.Some? && r.state.message.value.kind == Success
    ensures outcome.Ok? ==>
              r.state.token == Some(outcome.payload.token)
              && r.state.user == Some(outcome.payload.user)
              && r.state.message == Some(Message(Success, RegisterSuccessText))
    ensures !outcome.Ok? ==> r.state.token == s.token && r.state.user == s.user
    ensures outcome.Rejected? && Truthy(outcome.errorText) ==>
              r.state.message == Some(Message(Error, outcome.errorText.value))
    ensures outcome.TransportError? || (outcome.Rejected? && !Truthy(outcome.errorText)) ==>
              r.state.message == Some(Message(Error, RegisterFallbackText))
  {
    AuthSettle(Begin(s), outcome, RegisterSuccessText, RegisterFallbackText)
  }

  /** `isAuthenticated` is exactly the presence of a user, in every state.
      This lemma only unfolds `IsAuthenticated`; that the value is derived
      and never stored comes from `State` having no field for it. */
  lemma AuthenticatedIffUser(s: State)
    ensures IsAuthenticated(s) <==> s.user != None
  {
  }

  /** Logging out twice leaves the same state as logging out once. */
  lemma LogoutIdempotent(s: State)
    ensures Logout(Logout(s)) == Logout(s)
  {
  }

  /** Clearing the message twice is the same as clearing it once, and it
      never changes whether somebody is signed in. */
  lemma ResetMessageIdempotent(s: State)
    ensures ResetMessage(ResetMessage(s)) == ResetMessage(s)
    ensures IsAuthenticated(ResetMessage(s)) == IsAuthenticated(s)
  {
  }

  /** A failed verification ends exactly where a logout ends, except that
      loading is cleared. */
  lemma VerifyFailureIsLogout(s: State, outcome: Outcome<User>)
    requires Truthy(s.token) && !outcome.Ok?
    ensures VerifyToken(s, outcome) == Logout(s).(loading := false)
  {
  }

  /** Without a truthy token verification makes no request: its result does
      not depend on the outcome supplied. */
  lemma VerifyWithoutTokenIgnoresOutcome(s: State, o1: Outcome<User>, o2: Outcome<User>)
    requires !Truthy(s.token)
    ensures VerifyToken(s, o1) == VerifyToken(s, o2)
  {
  }

  /** A successful login overwrites every field of the state, so its result
      reflects only that login, whatever came before it. */
  lemma LoginOkForgetsPriorState(s1: State, s2: State, p: AuthPayload)
    ensures Login(s1, Ok(p)) == Login(s2, Ok(p))
  {
  }

  /** The same holds of a successful register. */
  lemma RegisterOkForgetsPriorState(s1: State, s2: State, p: AuthPayload)
    ensures Register(s1, Ok(p)) == Register(s2, Ok(p))
  {
  }

  /** A failed login or register may change only the message and the loading
      flag: the rest of the state is the one before the call. */
  lemma FailedAuthChangesOnlyMessage(s: State, outcome: Outcome<AuthPayload>)
    requires !outcome.Ok?
    ensures Login(s, outcome).state == s.(loading := false, message := Login(s, outcome).state.message)
    ensures Register(s, outcome).state == s.(loading := false, message := Register(s, outcome).state.message)
  {
  }
}
