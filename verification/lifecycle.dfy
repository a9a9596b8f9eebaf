/** Sequences of provider operations. After the mount-time verification the
    provider exposes `login`, `register`, `logout` and `resetMessage`; each is
    taken here as one atomic step (its `Begin` followed by its settle step). */
module Lifecycle {
  import opened Wrappers
  import opened Session

  datatype AuthOp = LoginOp | RegisterOp

  /** One call a consumer makes through the context, with the answer of the
      request it issues where it issues one. */
  datatype Event =
    | Auth(op: AuthOp, outcome: Outcome<AuthPayload>)
    | LogoutCall
    | ResetCall

  /** The three phases of the session lifecycle: `Unknown` while an operation
      is loading, then `Anonymous` or `Authenticated` by the presence of a user. */
  datatype Phase = Unknown | Anonymous | Authenticated

  function PhaseOf(s: State): Phase {
    if s.loading then Unknown
    else if IsAuthenticated(s) then Authenticated
    else Anonymous
  }

  /** Presence of a user implies presence of a stored token. The converse is
      not required: a stale token may sit in storage with nobody signed in. */
  predicate Consistent(s: State) {
    s.user.Some? ==> s.token.Some?
  }

  /** The lifecycle diagram between settled phases: a successful login or
      register leads to `Authenticated`, a logout to `Anonymous`, and a
      failed request or a message reset stays where it was. */
  predicate AllowedEdge(e: Event, from: Phase, to: Phase) {
    match e
    case Auth(_, o) => to == (if o.Ok? then Authenticated else from)
    case LogoutCall => to == Anonymous
    case ResetCall => to == from
  }

  /** A successful login or register, the only events that write the token. */
  predicate WritesToken(e: Event) {
    e.Auth? && e.outcome.Ok?
  }

  /** The provider's response to one call. */
  function Step(s: State, e: Event): (r: State)
    ensures !s.loading ==> AllowedEdge(e, PhaseOf(s), PhaseOf(r))
    ensures e.Auth? ==> !r.loading
    ensures !e.Auth? ==> r.loading == s.loading
    ensures Consistent(s) ==> Consistent(r)
    ensures r.token == s.token || r.token == None
            || (WritesToken(e) && r.token == Some(e.outcome.payload.token))
    ensures r.token == None && s.token != None ==> e == LogoutCall
  {
    match e
    case Auth(LoginOp, o) => Login(s, o).state
    case Auth(RegisterOp, o) => Register(s, o).state
    case LogoutCall => Logout(s)
    case ResetCall => ResetMessage(s)
  }

  /** The state after the calls `es`, in order. */
  function Run(s: State, es: seq<Event>): State
    decreases |es|
  {
    if es == [] then s else Run(Step(s, es[0]), es[1..])
  }

  /** The provider right after its mount effect: `verifyToken` run on the
      initial state, with whatever the storage slot held. */
  function Mount(stored: Option<string>, verify: Outcome<User>): (s: State)
    ensures !s.loading && Consistent(s)
    ensures IsAuthenticated(s) <==> Truthy(stored) && verify.Ok?
    ensures Truthy(stored) && verify.Ok? ==>
              s.user == Some(verify.payload) && s.token == stored && s.message == None
    ensures Truthy(stored) && !verify.Ok? ==>
              s.token == None && s.message == Some(Message(Success, LogoutSuccessText))
    ensures !Truthy(stored) ==> s == State(None, stored, false, None)
  {
    VerifyToken(Initial(stored), verify)
  }

  /** A state the provider can be in once mounted. */
  function Reachable(stored: Option<string>, verify: Outcome<User>, es: seq<Event>): State {
    Run(Mount(stored, verify), es)
  }

  /** Running one more call is one more step. */
  lemma {:induction false} RunAppend(s: State, es: seq<Event>, e: Event)
    ensures Run(s, es + [e]) == Step(Run(s, es), e)
    decreases |es|
  {
    if es == [] {
      assert es + [e] == [e];
    } else {
      assert (es + [e])[1..] == es[1..] + [e];
      RunAppend(Step(s, es[0]), es[1..], e);
    }
  }

  /** Every sequence of calls keeps a signed-in user backed by a stored token. */
  lemma {:induction false} RunPreservesConsistent(s: State, es: seq<Event>)
    requires Consistent(s)
    ensures Consistent(Run(s, es))
    decreases |es|
  {
    if es != [] {
      RunPreservesConsistent(Step(s, es[0]), es[1..]);
    }
  }

  /** From a settled state every sequence of calls ends settled: no operation
      leaves loading stuck. */
  lemma {:induction false} RunStaysSettled(s: State, es: seq<Event>)
    requires !s.loading
    ensures !Run(s, es).loading
    decreases |es|
  {
    if es != [] {
      RunStaysSettled(Step(s, es[0]), es[1..]);
    }
  }

  /** Every state reachable after mounting is settled and consistent. */
  lemma ReachableInvariant(stored: Option<string>, verify: Outcome<User>, es: seq<Event>)
    ensures !Reachable(stored, verify, es).loading
    ensures Consistent(Reachable(stored, verify, es))
    ensures PhaseOf(Reachable(stored, verify, es)) != Unknown
  {
    RunStaysSettled(Mount(stored, verify), es);
    RunPreservesConsistent(Mount(stored, verify), es);
  }

  /** Whatever calls came before, a successful login or register leaves the
      session that call alone produces: the last completed one wins. */
  lemma LastSuccessfulAuthWins(s: State, es: seq<Event>, op: AuthOp, p: AuthPayload)
    ensures Run(s, es + [Auth(op, Ok(p))]) == Step(Initial(None), Auth(op, Ok(p)))
    ensures Run(s, es + [Auth(op, Ok(p))]).user == Some(p.user)
    ensures Run(s, es + [Auth(op, Ok(p))]).token == Some(p.token)
  {
    RunAppend(s, es, Auth(op, Ok(p)));
    if op == LoginOp {
      LoginOkForgetsPriorState(Run(s, es), Initial(None), p);
    } else {
      RegisterOkForgetsPriorState(Run(s, es), Initial(None), p);
    }
  }

  /** A run that contains no successful login or register never writes a
      token: the slot either keeps its value or has been cleared. */
  lemma {:induction false} NoSuccessNoTokenWrite(s: State, es: seq<Event>)
    requires forall i :: 0 <= i < |es| ==> !WritesToken(es[i])
    ensures Run(s, es).token == s.token || Run(s, es).token == None
    decreases |es|
  {
    if es != [] {
      assert !WritesToken(es[0]);
      NoSuccessNoTokenWrite(Step(s, es[0]), es[1..]);
      if Run(s, es).token != None {
        assert Run(Step(s, es[0]), es[1..]).token == Step(s, es[0]).token;
      }
    }
  }
}
