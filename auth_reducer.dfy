/** The authentication reducer: the record `{isAuthenticated, isLoading, user}`,
    the three handled action types and the pure transition function, together
    with what holds along any trace of dispatched actions. */
module AuthReducer {
  import opened Results

  /** The action types of the transition table. */
  const INITIALIZE: string := "INITIALIZE"
  const SIGN_IN: string := "SIGN_IN"
  const SIGN_OUT: string := "SIGN_OUT"

  /** The state held by the provider. `U` is the identity provider's user
      record, which the reducer never looks into. */
  datatype AuthState<U> = AuthState(isAuthenticated: bool, isLoading: bool, user: Option<U>)

  /** A dispatched action `{type, payload}`; an action without a payload has `None`. */
  datatype Action<U> = Action(kind: string, payload: Option<U>)

  /** The state the provider starts from. */
  function InitialState<U>(): (s: AuthState<U>)
  {
    AuthState(false, true, None)
  }

  /** True when the transition table has a handler for this action type. */
  predicate IsHandled(kind: string)
  {
    kind == INITIALIZE || kind == SIGN_IN || kind == SIGN_OUT
  }

  /** The intended invariant: the session is authenticated exactly when a user is held.
      The `SIGN_IN` handler does not keep it for an absent payload. */
  predicate Consistent<U>(s: AuthState<U>)
  {
    s.isAuthenticated == s.user.Some?
  }

  /** What the provider's dispatch sites guarantee: a `SIGN_IN` always carries a user. */
  predicate WellFormed<U>(a: Action<U>)
  {
    a.kind == SIGN_IN ==> a.payload.Some?
  }

  predicate AllWellFormed<U>(t: seq<Action<U>>)
  {
    forall i :: 0 <= i < |t| ==> WellFormed(t[i])
  }

  /** The `INITIALIZE` handler: loading ends; a present user also authenticates,
      an absent one leaves the authentication fields as they were. */
  function HandleInitialize<U>(s: AuthState<U>, payload: Option<U>): (r: AuthState<U>)
    ensures !r.isLoading
    ensures payload.Some? ==> r.isAuthenticated && r.user == payload
    ensures payload.None? ==> r.isAuthenticated == s.isAuthenticated && r.user == s.user
    ensures Consistent(s) ==> Consistent(r)
  {
    match payload
    case Some(_) => s.(isAuthenticated := true, isLoading := false, user := payload)
    case None => s.(isLoading := false)
  }

  /** The `SIGN_IN` handler: authenticated with whatever payload came, loading untouched. */
  function HandleSignIn<U>(s: AuthState<U>, payload: Option<U>): (r: AuthState<U>)
    ensures r.isAuthenticated && r.user == payload
    ensures r.isLoading == s.isLoading
    ensures Consistent(r) <==> payload.Some?
  {
    s.(isAuthenticated := true, user := payload)
  }

  /** The `SIGN_OUT` handler: unauthenticated with no user, loading untouched. */
  function HandleSignOut<U>(s: AuthState<U>): (r: AuthState<U>)
    ensures !r.isAuthenticated && r.user.None?
    ensures r.isLoading == s.isLoading
    ensures Consistent(r)
  {
    s.(isAuthenticated := false, user := None)
  }

  /** The reducer: look the action type up in the table; an unknown type is a no-op. */
  function Reduce<U>(s: AuthState<U>, a: Action<U>): (r: AuthState<U>)
    ensures !IsHandled(a.kind) ==> r == s
    ensures r.isLoading <==> s.isLoading && a.kind != INITIALIZE
    ensures Consistent(s) && WellFormed(a) ==> Consistent(r)
  {
    if a.kind == INITIALIZE then HandleInitialize(s, a.payload)
    else if a.kind == SIGN_IN then HandleSignIn(s, a.payload)
    else if a.kind == SIGN_OUT then HandleSignOut(s)
    else s
  }

  /** The state after dispatching the actions of `t` in order, starting from `s`. */
  function ReduceAll<U>(s: AuthState<U>, t: seq<Action<U>>): (r: AuthState<U>)
    decreases |t|
  {
    if t == [] then s else ReduceAll(Reduce(s, t[0]), t[1..])
  }

  /** How many `INITIALIZE` actions a trace holds. */
  function InitializeCount<U>(t: seq<Action<U>>): (n: nat)
    decreases |t|
  {
    if t == [] then 0
    else (if t[0].kind == INITIALIZE then 1 else 0) + InitializeCount(t[1..])
  }

  /** Dispatching two traces one after the other is dispatching their concatenation. */
  lemma {:induction false} ReduceAllAppend<U>(s: AuthState<U>, t1: seq<Action<U>>, t2: seq<Action<U>>)
    ensures ReduceAll(s, t1 + t2) == ReduceAll(ReduceAll(s, t1), t2)
    decreases |t1|
  {
    if t1 == [] {
      assert t1 + t2 == t2;
    } else {
      assert (t1 + t2)[0] == t1[0];
      assert (t1 + t2)[1..] == t1[1..] + t2;
      ReduceAllAppend(Reduce(s, t1[0]), t1[1..], t2);
    }
  }

  /** Dispatching one more action applies the reducer once more to the state reached. */
  lemma ReduceAllSnoc<U>(s: AuthState<U>, t: seq<Action<U>>, a: Action<U>)
    ensures ReduceAll(s, t + [a]) == Reduce(ReduceAll(s, t), a)
  {
    ReduceAllAppend(s, t, [a]);
    assert [a][1..] == [];
  }

  /** Counting `INITIALIZE` actions is additive over concatenation. */
  lemma {:induction false} InitializeCountAppend<U>(t1: seq<Action<U>>, t2: seq<Action<U>>)
    ensures InitializeCount(t1 + t2) == InitializeCount(t1) + InitializeCount(t2)
    decreases |t1|
  {
    if t1 == [] {
      assert t1 + t2 == t2;
    } else {
      assert (t1 + t2)[0] == t1[0];
      assert (t1 + t2)[1..] == t1[1..] + t2;
      InitializeCountAppend(t1[1..], t2);
    }
  }

  /** After any trace, the state is still loading exactly when it was loading at the
      start and the trace holds no `INITIALIZE`. */
  lemma {:induction false} LoadingIffNoInitialize<U>(s: AuthState<U>, t: seq<Action<U>>)
    ensures ReduceAll(s, t).isLoading <==> s.isLoading && InitializeCount(t) == 0
    decreases |t|
  {
    if t != [] {
      LoadingIffNoInitialize(Reduce(s, t[0]), t[1..]);
    }
  }

  /** Once a prefix of a trace has ended loading, every longer prefix has too:
      no transition sets `isLoading` back to true. */
  lemma LoadingStaysFalse<U>(s: AuthState<U>, t: seq<Action<U>>, i: nat, j: nat)
    requires i <= j <= |t|
    requires !ReduceAll(s, t[..i]).isLoading
    ensures !ReduceAll(s, t[..j]).isLoading
  {
    assert t[..j] == t[..i] + t[i..j];
    ReduceAllAppend(s, t[..i], t[i..j]);
    LoadingIffNoInitialize(ReduceAll(s, t[..i]), t[i..j]);
  }

  /** From the initial state, loading lasts exactly until the first `INITIALIZE`. */
  lemma LoadingUntilFirstInitialize<U>(t: seq<Action<U>>)
    ensures ReduceAll(InitialState<U>(), t).isLoading <==> InitializeCount(t) == 0
  {
    LoadingIffNoInitialize(InitialState<U>(), t);
  }

  /** The invariant survives any trace whose `SIGN_IN` actions all carry a user. */
  lemma {:induction false} ConsistentAlongTrace<U>(s: AuthState<U>, t: seq<Action<U>>)
    requires Consistent(s) && AllWellFormed(t)
    ensures Consistent(ReduceAll(s, t))
    decreases |t|
  {
    if t != [] {
      assert WellFormed(t[0]);
      assert AllWellFormed(t[1..]) by {
        forall i | 0 <= i < |t[1..]| ensures WellFormed(t[1..][i]) {
          assert t[1..][i] == t[i + 1];
        }
      }
      ConsistentAlongTrace(Reduce(s, t[0]), t[1..]);
    }
  }

  /** From the initial state, the invariant holds after every step of such a trace. */
  lemma ConsistentAfterEveryStep<U>(t: seq<Action<U>>)
    requires AllWellFormed(t)
    ensures forall i :: 0 <= i <= |t| ==> Consistent(ReduceAll(InitialState<U>(), t[..i]))
  {
    forall i | 0 <= i <= |t| ensures Consistent(ReduceAll(InitialState<U>(), t[..i])) {
      assert AllWellFormed(t[..i]) by {
        forall k | 0 <= k < i ensures WellFormed(t[..i][k]) {
          assert t[..i][k] == t[k];
        }
      }
      ConsistentAlongTrace(InitialState<U>(), t[..i]);
    }
  }

  /** The condition on `SIGN_IN` payloads cannot be dropped: a `SIGN_IN` without
      a user authenticates while holding no user. */
  lemma SignInWithoutUserBreaksConsistency<U>(s: AuthState<U>)
    ensures !Consistent(Reduce(s, Action(SIGN_IN, None)))
  {
  }
}
