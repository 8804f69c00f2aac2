/** The authentication provider: the held reducer state, the one-shot
    initialisation latch, the best-effort session-storage flag, and the
    operations `initialize`, `signIn`, `signUp` and `signOut`, each driven by
    the outcome of one identity-provider call. */
module AuthProviderModel {
  import opened Results
  import opened AuthReducer

  /** The only messages the provider's callers ever see. */
  const SIGN_IN_ERROR: string := "Please check your email and password"
  const SIGN_UP_ERROR: string := "There was an error signing up"

  /** The session probe normalised to user-or-absent: a probe that rejects
      (no session, expired session, network error) means no user. */
  function SessionUser<U>(probe: Outcome<U>): (user: Option<U>)
  {
    match probe
    case Ok(u) => Some(u)
    case Fail => None
  }

  class AuthProvider<U> {
    /** The state held by the reducer hook. */
    var state: AuthState<U>
    /** The latch `initialized.current`. */
    var initialized: bool
    /** Whether session storage holds `authenticated` = `'true'`. */
    var storageFlag: bool

    /** Every action dispatched so far, in order. */
    ghost var dispatched: seq<Action<U>>
    /** True while the startup probe has been issued and has not settled. */
    ghost var probePending: bool
    /** How many times the startup probe has been issued. */
    ghost var probeCalls: nat

    /** The held state is the reducer run over the dispatched actions from the
        initial state; every dispatch site sends a user with `SIGN_IN`; the probe
        is issued once the latch is set and never again; exactly one
        `INITIALIZE` has been dispatched once the probe has settled, none before. */
    ghost predicate Valid()
      reads this
    {
      state == ReduceAll(InitialState(), dispatched) &&
      AllWellFormed(dispatched) &&
      (probePending ==> initialized) &&
      probeCalls == (if initialized then 1 else 0) &&
      InitializeCount(dispatched) == (if initialized && !probePending then 1 else 0)
    }

    constructor (stored: bool)
      ensures Valid()
      ensures state == InitialState() && dispatched == []
      ensures !initialized && !probePending && probeCalls == 0
      ensures storageFlag == stored
    {
      state := InitialState();
      initialized := false;
      storageFlag := stored;
      dispatched := [];
      probePending := false;
      probeCalls := 0;
    }

    /** What holds of the provider between operations. */
    lemma ValidConsequences()
      requires Valid()
      ensures Consistent(state)
      ensures state.isLoading <==> !initialized || probePending
      ensures InitializeCount(dispatched) <= 1
      ensures probeCalls <= 1
    {
      ConsistentAlongTrace(InitialState(), dispatched);
      LoadingUntilFirstInitialize(dispatched);
    }

    /** The reducer hook's `dispatch`: replace the held state by the reducer's result. */
    method Dispatch(a: Action<U>)
      requires state == ReduceAll(InitialState(), dispatched)
      modifies this`state, this`dispatched
      ensures state == ReduceAll(InitialState(), dispatched)
      ensures dispatched == old(dispatched) + [a]
      ensures state == Reduce(old(state), a)
      ensures InitializeCount(dispatched) ==
        InitializeCount(old(dispatched)) + (if a.kind == INITIALIZE then 1 else 0)
    {
      ReduceAllSnoc(InitialState(), dispatched, a);
      InitializeCountAppend(dispatched, [a]);
      state := Reduce(state, a);
      dispatched := dispatched + [a];
    }

    /** `initialize` up to its `await`: test the latch, set it, issue the probe. */
    method BeginInitialize() returns (started: bool)
      requires Valid()
      modifies this`initialized, this`probePending, this`probeCalls
      ensures Valid()
      ensures started == !old(initialized)
      ensures initialized
      ensures probePending == (old(probePending) || started)
      ensures probeCalls == old(probeCalls) + (if started then 1 else 0)
    {
      if initialized {
        return false;
      }
      initialized := true;
      probeCalls := probeCalls + 1;
      probePending := true;
      started := true;
    }

    /** `initialize` after its probe settles: dispatch one `INITIALIZE`, with the
        user when the probe resolved and without a payload when it rejected. */
    method CompleteInitialize(probe: Outcome<U>)
      requires Valid() && probePending
      modifies this`state, this`dispatched, this`probePending
      ensures Valid()
      ensures !probePending
      ensures dispatched == old(dispatched) + [Action(INITIALIZE, SessionUser(probe))]
      ensures state == Reduce(old(state), Action(INITIALIZE, SessionUser(probe)))
      ensures !state.isLoading
      ensures probe.Ok? ==> state.isAuthenticated && state.user == Some(probe.value)
      ensures probe.Fail? ==> state.isAuthenticated == old(state.isAuthenticated) && state.user == old(state.user)
    {
      var isAuthenticated := false;
      if probe.Ok? {
        isAuthenticated := true;
        Dispatch(Action(INITIALIZE, Some(probe.value)));
      }
      if !isAuthenticated {
        Dispatch(Action(INITIALIZE, None));
      }
      probePending := false;
    }

    /** The whole `initialize` call when its probe settles before anything else happens.
        Only the first call has an effect; later ones return at once. It never rejects. */
    method Initialize(probe: Outcome<U>)
      requires Valid()
      modifies this`state, this`dispatched, this`initialized, this`probePending, this`probeCalls
      ensures Valid()
      ensures initialized
      ensures old(initialized) ==>
        state == old(state) && dispatched == old(dispatched) &&
        probePending == old(probePending) && probeCalls == old(probeCalls)
      ensures !old(initialized) ==>
        dispatched == old(dispatched) + [Action(INITIALIZE, SessionUser(probe))] &&
        state == Reduce(old(state), Action(INITIALIZE, SessionUser(probe))) &&
        !probePending && probeCalls == 1
    {
      var started := BeginInitialize();
      if started {
        CompleteInitialize(probe);
      }
    }

    /** `signIn`: a rejected sign-in rejects with the one credentials message and
        changes nothing; a resolved one dispatches `SIGN_IN` with the user and then
        tries to set the storage flag, a failed write being swallowed. */
    method SignIn(response: Outcome<U>, write: Outcome<()>) returns (c: Completion)
      requires Valid()
      modifies this`state, this`dispatched, this`storageFlag
      ensures Valid()
      ensures response.Fail? ==>
        c == Rejected(SIGN_IN_ERROR) &&
        state == old(state) && dispatched == old(dispatched) && storageFlag == old(storageFlag)
      ensures response.Ok? ==>
        c == Fulfilled &&
        dispatched == old(dispatched) + [Action(SIGN_IN, Some(response.value))] &&
        state == Reduce(old(state), Action(SIGN_IN, Some(response.value))) &&
        state.isAuthenticated && state.user == Some(response.value) &&
        state.isLoading == old(state.isLoading) &&
        storageFlag == (old(storageFlag) || write.Ok?)
    {
      if response.Fail? {
        return Rejected(SIGN_IN_ERROR);
      }
      var user := response.value;
      Dispatch(Action(SIGN_IN, Some(user)));
      if write.Ok? {
        storageFlag := true;
      }
      c := Fulfilled;
    }

    /** `signUp`: a resolved registration dispatches `SIGN_IN` with the new user;
        a rejected one rejects with the one sign-up message and changes nothing. */
    method SignUp(response: Outcome<U>) returns (c: Completion)
      requires Valid()
      modifies this`state, this`dispatched
      ensures Valid()
      ensures response.Fail? ==>
        c == Rejected(SIGN_UP_ERROR) && state == old(state) && dispatched == old(dispatched)
      ensures response.Ok? ==>
        c == Fulfilled &&
        dispatched == old(dispatched) + [Action(SIGN_IN, Some(response.value))] &&
        state == Reduce(old(state), Action(SIGN_IN, Some(response.value))) &&
        state.isAuthenticated && state.user == Some(response.value) &&
        state.isLoading == old(state.isLoading)
    {
      match response
      case Fail =>
        c := Rejected(SIGN_UP_ERROR);
      case Ok(user) =>
        Dispatch(Action(SIGN_IN, Some(user)));
        c := Fulfilled;
    }

    /** `signOut`: whatever the identity provider answers, dispatch `SIGN_OUT`;
        never reject. */
    method SignOut(response: Outcome<()>) returns (c: Completion)
      requires Valid()
      modifies this`state, this`dispatched
      ensures Valid()
      ensures c == Fulfilled
      ensures dispatched == old(dispatched) + [Action(SIGN_OUT, None)]
      ensures state == Reduce(old(state), Action(SIGN_OUT, None))
      ensures !state.isAuthenticated && state.user.None?
      ensures state.isLoading == old(state.isLoading)
    {
      Dispatch(Action(SIGN_OUT, None));
      c := Fulfilled;
    }
  }

  /** A later `initialize`, made after the first one's probe has settled, finds the
      latch set: one probe and one `INITIALIZE` in all, and session storage untouched. */
  method InitializeTwice<U>(p: AuthProvider<U>, first: Outcome<U>, second: Outcome<U>)
    requires p.Valid() && !p.initialized
    modifies p`state, p`dispatched, p`initialized, p`probePending, p`probeCalls
    ensures p.Valid()
    ensures p.storageFlag == old(p.storageFlag)
    ensures p.dispatched == old(p.dispatched) + [Action(INITIALIZE, SessionUser(first))]
    ensures p.probeCalls == 1 && InitializeCount(p.dispatched) == 1
  {
    p.Initialize(first);
    p.Initialize(second);
    p.ValidConsequences();
  }

  /** A second `initialize` that arrives while the first one's probe is still pending
      (as when a strict development mode runs the mount effect twice) does nothing:
      when the first probe settles, its `INITIALIZE` is the only one, and session
      storage is untouched. */
  method InitializeWhilePending<U>(p: AuthProvider<U>, first: Outcome<U>, second: Outcome<U>)
    requires p.Valid() && !p.initialized
    modifies p`state, p`dispatched, p`initialized, p`probePending, p`probeCalls
    ensures p.Valid()
    ensures p.storageFlag == old(p.storageFlag)
    ensures p.dispatched == old(p.dispatched) + [Action(INITIALIZE, SessionUser(first))]
    ensures p.probeCalls == 1 && InitializeCount(p.dispatched) == 1
    ensures !p.state.isLoading
  {
    var started := p.BeginInitialize();
    p.Initialize(second);
    p.CompleteInitialize(first);
    p.ValidConsequences();
  }
}
