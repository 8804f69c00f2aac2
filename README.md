# Authentication state machine (auth context)

This project models the client-side authentication context of an admin front end and proves properties about it. The context holds one record, `{isAuthenticated, isLoading, user}`. A reducer changes that record in response to three kinds of action: `INITIALIZE`, `SIGN_IN` and `SIGN_OUT`. The provider offers four asynchronous operations:

- `initialize` sits behind a one-shot latch.
- `signIn`, `signUp` and `signOut` each map one identity-provider call onto a dispatch and, on failure, onto an error the caller sees.

Files:

- `results.dfy` (module `Results`): `Option`, `Outcome` and `Completion`.
  - `Option` is a payload that is either present or absent. `None` covers `null`, `undefined` and every other falsy value.
  - `Outcome` is how a remote call settles: `Ok(value)` or `Fail`.
  - `Completion` is how one of the provider's promises settles: `Fulfilled`, or `Rejected(message)`.
- `auth_reducer.dfy` (module `AuthReducer`): the pure part.
  - It holds the state record `AuthState<U>`, where the user type `U` is a type parameter the model never looks into.
  - It holds the action record `Action<U>` (`kind`, `payload`), the initial state, the three handlers and `Reduce`.
  - It holds `ReduceAll`, which applies a trace of actions in order, plus the lemmas about traces: loading ends exactly at the first `INITIALIZE` and never comes back, and `isAuthenticated == user.Some?` holds after every step.
- `auth_provider.dfy` (module `AuthProviderModel`): the stateful part, a class `AuthProvider<U>`.
  - Its real fields are the held `state`, the latch `initialized` and the session-storage flag `storageFlag`.
  - Its ghost fields are the log of dispatched actions, whether the startup probe is pending, and how many probes have been issued.
  - `Valid()` ties `state` to `ReduceAll(InitialState(), dispatched)`. It also says the probe is issued at most once, and that exactly one `INITIALIZE` has been dispatched once the probe has settled (none before).

Each identity-provider call is a method parameter of type `Outcome`: `Auth.currentAuthenticatedUser`, `Auth.signIn`, `Auth.signUp`, `Auth.signOut`. So is the `sessionStorage.setItem` write. The email, name and password arguments are passed only to the identity provider, so the model uses just the outcome of that call.

`initialize` suspends at its `await`, so it is split into two methods:

- `BeginInitialize` covers lines 68-77, up to the `await`: it tests and sets the latch and issues the probe.
- `CompleteInitialize` covers lines 77-92, after the probe settles: it dispatches.

`Initialize` runs the two in sequence. `InitializeWhilePending` shows that a second call made between the two steps has no effect.

The intended invariant is `isAuthenticated == (user present)` after every transition. The `SIGN_IN` handler (lines 36-44) does not keep it for an absent payload: it sets `isAuthenticated` to true whatever the payload is. So the invariant is proved only for traces whose `SIGN_IN` actions carry a user (`AllWellFormed`), and `SignInWithoutUserBreaksConsistency` shows that this condition is needed. Every dispatch site in the provider meets the condition, so `Valid()` includes it.

## Model

| member | source | states |
|---|---|---|
| AuthReducer.HandleInitialize | src/contexts/auth-context.js:19-34 | `INITIALIZE` always clears `isLoading`. A present payload sets `isAuthenticated` and makes the payload the user. An absent payload leaves `isAuthenticated` and `user` as they were. The handler preserves the invariant. |
| AuthReducer.HandleSignIn | src/contexts/auth-context.js:36-44 | `SIGN_IN` sets `isAuthenticated` and makes the payload the user, and leaves `isLoading` unchanged. The result is consistent exactly when the payload is present. |
| AuthReducer.HandleSignOut | src/contexts/auth-context.js:45-51 | `SIGN_OUT` clears `isAuthenticated` and the user, and leaves `isLoading` unchanged. The result is always consistent. |
| AuthReducer.Reduce | src/contexts/auth-context.js:54-55 | Any action type other than the three handled ones returns the state unchanged. After the step, `isLoading` holds exactly when it held before and the action is not `INITIALIZE`. A consistent state stays consistent under an action whose `SIGN_IN` payload is present. |
| AuthReducer.LoadingIffNoInitialize | src/contexts/auth-context.js:18-55 | After any trace, the state is loading exactly when it was loading at the start and the trace holds no `INITIALIZE`. |
| AuthReducer.LoadingStaysFalse | src/contexts/auth-context.js:18-55 | Once a prefix of a trace has left loading, every longer prefix has too: no transition sets `isLoading` back to true. |
| AuthReducer.LoadingUntilFirstInitialize | src/contexts/auth-context.js:12-55 | Starting from the initial state `{false, true, null}`, a trace is still loading exactly when it contains no `INITIALIZE`. |
| AuthReducer.ConsistentAlongTrace | src/contexts/auth-context.js:18-55 | A consistent state stays consistent along any trace whose `SIGN_IN` actions all carry a user. |
| AuthReducer.ConsistentAfterEveryStep | src/contexts/auth-context.js:12-55 | Starting from the initial state, `isAuthenticated == user.Some?` holds after every prefix of such a trace. |
| AuthReducer.SignInWithoutUserBreaksConsistency | src/contexts/auth-context.js:36-44 | A `SIGN_IN` without a payload leaves the state authenticated with no user, so the condition on `SIGN_IN` payloads cannot be dropped. |
| AuthProviderModel.AuthProvider.constructor | src/contexts/auth-context.js:63-64 | The provider starts in the initial state with the latch unset, nothing dispatched, no probe issued, and the storage flag as given. |
| AuthProviderModel.AuthProvider.ValidConsequences | src/contexts/auth-context.js:63-93 | Between operations, the held state is consistent. It is loading exactly while the startup probe has not been issued or has not yet settled. At most one `INITIALIZE` has been dispatched and at most one probe issued. |
| AuthProviderModel.AuthProvider.Dispatch | src/contexts/auth-context.js:63 | `dispatch` replaces the held state by the reducer's result and appends the action to the trace, so the state stays the reducer run over the trace from the initial state. |
| AuthProviderModel.AuthProvider.BeginInitialize | src/contexts/auth-context.js:66-77 | If the latch is set, the call returns without effect. Otherwise it sets the latch before the probe can settle, issues exactly one probe, and leaves the state untouched. |
| AuthProviderModel.AuthProvider.CompleteInitialize | src/contexts/auth-context.js:74-92 | When the probe settles, exactly one `INITIALIZE` is dispatched: with the user if the probe resolved, with no payload if it rejected. Loading ends. A rejection leaves the authentication fields as they were. |
| AuthProviderModel.AuthProvider.Initialize | src/contexts/auth-context.js:66-93 | The first call dispatches one `INITIALIZE` carrying the probe's user or no payload. Every later call changes nothing. It never rejects. |
| AuthProviderModel.AuthProvider.SignIn | src/contexts/auth-context.js:103-120 | If the provider rejects, the call rejects with 'Please check your email and password', dispatches nothing, and leaves the state and the storage flag as they were. If the provider resolves, it dispatches `SIGN_IN` with the user (authenticated, loading unchanged) and fulfils. The storage flag is then set if the write succeeds and otherwise left as it was. |
| AuthProviderModel.AuthProvider.SignUp | src/contexts/auth-context.js:122-140 | If the provider resolves, the call dispatches `SIGN_IN` with the returned user and fulfils. If it rejects, the call rejects with 'There was an error signing up' and nothing changes. |
| AuthProviderModel.AuthProvider.SignOut | src/contexts/auth-context.js:143-152 | Whatever the identity provider answers, the call dispatches `SIGN_OUT`, leaves the state unauthenticated with no user, and fulfils. |
| AuthProviderModel.InitializeTwice | src/contexts/auth-context.js:66-93 | A later `initialize`, made after the first one's probe has settled, finds the latch set. In all, one probe is issued and one `INITIALIZE` dispatched, carrying the first probe's result, and the session-storage flag is untouched. |
| AuthProviderModel.InitializeWhilePending | src/contexts/auth-context.js:66-101 | An `initialize` that arrives while the first probe is still pending has no effect; this is the case of a strict development mode running the mount effect (lines 95-101) twice. When that probe settles, its `INITIALIZE` is the only one, loading has ended, and the session-storage flag is untouched. |

## Left out

- Identity-provider behaviour (`Auth.currentAuthenticatedUser`, `Auth.signIn`, `Auth.signUp`, `Auth.signOut`) is a remote service. Each call is only an `Outcome` parameter, and the arguments sent to it (email, name, password and the sign-up request object) are not modelled.
- `AuthProviderModel.AuthProvider.SignUp` takes the `user` field of the sign-up response as always present, as the identity provider supplies it. A response without that field would dispatch a `SIGN_IN` with no user; `SignInWithoutUserBreaksConsistency` shows the effect of that.
- `window.sessionStorage` is browser I/O. It is reduced to one boolean, telling whether `authenticated` holds `'true'`, plus a write outcome that may fail.
- React machinery is UI plumbing; the model keeps only its effect, a mutable held state and a latch. This covers `createContext`, `useReducer` subscriber notification, `useRef`, `useEffect`, the JSX tree, `AuthConsumer`, `useAuthContext` and `PropTypes`.
- Error objects and `console.error`/`console.log` diagnostics are not modelled. Only the message a caller sees is kept.
- Concurrent interleaving of `signIn`, `signUp` and `signOut` is not modelled: each runs as one atomic step, and the last one to complete wins. Only `initialize` is split at its `await`, because the latch depends on that point.
- Action types that JavaScript objects inherit from their prototype (for example `toString`) are not modelled. The table lookup of line 55 would find those names, but every dispatch site uses one of the three handled types, and the reducer takes an unknown type as a no-op.
- The unused `currentConfig` import is not modelled.
