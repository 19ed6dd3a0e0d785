/** The authentication context (apps/web/src/providers/Auth.tsx): choosing a
    provider, the `session`, `user` and `isLoading` state cells and the two
    mount effects that drive them, the context value with its seven bound
    operations, and the hook that reads the context.

    The effects are asynchronous in the source. Here every completion is an
    explicit event, applied in whatever order the caller chooses; an event
    that cannot occur in the current state (a getSession completion with no
    call outstanding, a change notification with no listener registered, a
    second mount) leaves the state as it is. */
module Auth {
  import opened Js

  datatype User = User(id: string, email: string)
  datatype Session = Session(accessToken: string, user: Option<User>)
  datatype AuthError = AuthError(message: string, status: int)

  /** An authentication provider object; only its identity matters here. */
  datatype Provider = Provider(id: nat)

  datatype Window = Window(origin: string)

  /** What the default provider's constructor does with its redirect URL:
      build a provider or throw (for instance when configuration is missing). */
  datatype Construction = Constructed(provider: Provider) | ConstructorThrew(reason: string)

  /** The redirect URL given to the default provider: the window's origin in
      a browser, undefined elsewhere. */
  function RedirectUrl(window: Option<Window>): (url: Option<string>)
    ensures url.Some? <==> window.Some?
    ensures url.Some? ==> url.value == window.value.origin
  {
    if window.Some? then Some(window.value.origin) else None
  }

  /** createDefaultAuthProvider: never throws; a throwing constructor gives null. */
  function CreateDefaultAuthProvider(window: Option<Window>, construct: Option<string> -> Construction)
    : (r: Option<Provider>)
    ensures r.None? <==> construct(RedirectUrl(window)).ConstructorThrew?
    ensures r.Some? ==> construct(RedirectUrl(window)) == Constructed(r.value)
  {
    match construct(RedirectUrl(window))
    case Constructed(p) => Some(p)
    case ConstructorThrew(_) => None
  }

  /** `customAuthProvider || createDefaultAuthProvider()`: a supplied provider
      always wins; without one the default is used, or null when its
      constructor throws. */
  function SelectProvider(custom: Option<Provider>, window: Option<Window>,
                          construct: Option<string> -> Construction): (r: Option<Provider>)
    ensures custom.Some? ==> r == custom
    ensures custom.None? && construct(RedirectUrl(window)).ConstructorThrew? ==> r == None
    ensures custom.None? && construct(RedirectUrl(window)).Constructed? ==>
              r == Some(construct(RedirectUrl(window)).provider)
  {
    if custom.Some? then custom else CreateDefaultAuthProvider(window, construct)
  }

  // ---------------------------------------------------------------------
  // The state cells and what the effects do to them

  datatype Phase = Rendered | Mounted | Unmounted

  /** The three state cells, plus what the component has asked of the
      provider: getSession calls made and whether one is still outstanding,
      listeners registered, whether one is registered now, and unsubscribe
      calls made. */
  datatype AuthState = AuthState(
    session: Option<Session>, user: Option<User>, isLoading: bool,
    phase: Phase,
    getSessionCalls: nat, pending: bool,
    subscriptions: nat, listening: bool, unsubscribes: nat)

  /** The state after the first render, before any effect has run. */
  function Initial(): AuthState {
    AuthState(None, None, true, Rendered, 0, false, 0, false, 0)
  }

  /** Both mount effects: without a provider only isLoading is cleared;
      with one, getSession is called and a listener is registered. */
  function MountEffects(st: AuthState, provider: Option<Provider>): (r: AuthState)
    // a second mount does nothing
    ensures st.phase != Rendered ==> r == st
    // mounting touches neither the session nor the user, and unsubscribes nothing
    ensures st.phase == Rendered ==>
              && r.phase == Mounted && r.session == st.session && r.user == st.user
              && r.unsubscribes == st.unsubscribes
    // without a provider, loading ends and the backend is not contacted
    ensures st.phase == Rendered && provider.None? ==>
              && !r.isLoading && r.pending == st.pending && r.listening == st.listening
              && r.getSessionCalls == st.getSessionCalls && r.subscriptions == st.subscriptions
    // with one, one getSession call is outstanding and one listener is registered
    ensures st.phase == Rendered && provider.Some? ==>
              && r.isLoading == st.isLoading && r.pending && r.listening
              && r.getSessionCalls == st.getSessionCalls + 1 && r.subscriptions == st.subscriptions + 1
  {
    if st.phase != Rendered then st
    else if provider.None? then st.(phase := Mounted, isLoading := false)
    else st.(phase := Mounted, getSessionCalls := st.getSessionCalls + 1, pending := true,
             subscriptions := st.subscriptions + 1, listening := true)
  }

  /** getSession resolves: the session is replaced, the user only when the
      session has one, and loading ends. There is no still-mounted check. */
  function SessionResolved(st: AuthState, s: Option<Session>): (r: AuthState)
    ensures !st.pending ==> r == st
    ensures st.pending ==>
              && r.session == s && !r.pending && !r.isLoading
              && r.user == (if s.Some? && s.value.user.Some? then s.value.user else st.user)
    // neither the phase nor the listener nor any call count changes
    ensures r.phase == st.phase && r.listening == st.listening
    ensures r.getSessionCalls == st.getSessionCalls && r.subscriptions == st.subscriptions
    ensures r.unsubscribes == st.unsubscribes
  {
    if !st.pending then st
    else st.(session := s,
             user := if s.Some? && s.value.user.Some? then s.value.user else st.user,
             pending := false, isLoading := false)
  }

  /** getSession throws: the error is logged and loading ends. */
  function SessionFailed(st: AuthState): (r: AuthState)
    ensures !st.pending ==> r == st
    // only the outstanding call and the loading flag change
    ensures st.pending ==> r == st.(pending := false, isLoading := false)
  {
    if !st.pending then st else st.(pending := false, isLoading := false)
  }

  /** The registered listener receives a new session (or null). */
  function Changed(st: AuthState, s: Option<Session>): (r: AuthState)
    ensures !st.listening ==> r == st
    // session and user are both replaced; loading and the calls are untouched
    ensures st.listening ==>
              r == st.(session := s, user := if s.Some? then s.value.user else None)
  {
    if !st.listening then st
    else st.(session := s, user := if s.Some? then s.value.user else None)
  }

  /** Unmount: the listener effect's cleanup calls unsubscribe; with no
      provider there is no cleanup. */
  function Teardown(st: AuthState): (r: AuthState)
    ensures st.phase != Mounted ==> r == st
    // the registered listener, if any, is unsubscribed exactly once
    ensures st.phase == Mounted ==>
              && r.phase == Unmounted && !r.listening
              && r.unsubscribes == st.unsubscribes + (if st.listening then 1 else 0)
    // the state cells and the outstanding call are left as they are
    ensures r.session == st.session && r.user == st.user && r.isLoading == st.isLoading
    ensures r.pending == st.pending && r.getSessionCalls == st.getSessionCalls
    ensures r.subscriptions == st.subscriptions
  {
    if st.phase != Mounted then st
    else if st.listening then st.(phase := Unmounted, listening := false, unsubscribes := st.unsubscribes + 1)
    else st.(phase := Unmounted)
  }

  datatype Event =
    | Mount
    | GetSessionResolved(session: Option<Session>)
    | GetSessionThrew
    | AuthStateChange(session: Option<Session>)
    | Unmount

  /** The lifecycle order Rendered, Mounted, Unmounted. */
  function Rank(p: Phase): nat {
    match p
    case Rendered => 0
    case Mounted => 1
    case Unmounted => 2
  }

  /** An event that delivers a session to the component. */
  predicate DeliversSession(e: Event) {
    e.GetSessionResolved? || e.AuthStateChange?
  }

  /** One event. Only mount and unmount move the phase, and only forward;
      only a delivered session changes the session or the user; no count of
      calls made ever goes down. */
  function Step(st: AuthState, provider: Option<Provider>, e: Event): (r: AuthState)
    ensures r.phase != st.phase ==> (e.Mount? || e.Unmount?) && Rank(r.phase) == Rank(st.phase) + 1
    ensures (r.session != st.session || r.user != st.user) ==> DeliversSession(e)
    ensures r.getSessionCalls >= st.getSessionCalls && r.subscriptions >= st.subscriptions
    ensures r.unsubscribes >= st.unsubscribes
  {
    match e
    case Mount => MountEffects(st, provider)
    case GetSessionResolved(s) => SessionResolved(st, s)
    case GetSessionThrew => SessionFailed(st)
    case AuthStateChange(s) => Changed(st, s)
    case Unmount => Teardown(st)
  }

  /** The state after applying the events in order. */
  function Run(st: AuthState, provider: Option<Provider>, events: seq<Event>): (r: AuthState)
    ensures Rank(r.phase) >= Rank(st.phase)
    ensures r.getSessionCalls >= st.getSessionCalls && r.subscriptions >= st.subscriptions
    ensures r.unsubscribes >= st.unsubscribes
    // events that deliver no session leave the session and the user alone
    ensures (forall i :: 0 <= i < |events| ==> !DeliversSession(events[i])) ==>
              r.session == st.session && r.user == st.user
    decreases |events|
  {
    if events == [] then st
    else
      assert forall i :: 0 <= i < |events| - 1 ==> events[1..][i] == events[i + 1];
      Run(Step(st, provider, events[0]), provider, events[1..])
  }

  /** What holds in every state reachable from Initial() with a fixed provider. */
  ghost predicate Wellformed(st: AuthState, provider: Option<Provider>) {
    // loading lasts until the component has mounted and getSession has finished
    && st.isLoading == (st.phase == Rendered || st.pending)
    // getSession is called once, at mount, and only with a provider
    && st.getSessionCalls == (if st.phase == Rendered || provider.None? then 0 else 1)
    && (st.pending ==> st.getSessionCalls == 1)
    // a listener is registered exactly when getSession is called
    && st.subscriptions == st.getSessionCalls
    && st.listening == (provider.Some? && st.phase == Mounted)
    // teardown unsubscribes the listener that was registered, once
    && st.unsubscribes == (if provider.Some? && st.phase == Unmounted then 1 else 0)
    // nothing sets the session before mount, or at all without a provider
    && (st.phase == Rendered || provider.None? ==> st.session.None? && st.user.None? && !st.pending)
  }

  lemma InitialWellformed(provider: Option<Provider>)
    ensures Wellformed(Initial(), provider)
  {
  }

  lemma StepPreservesWellformed(st: AuthState, provider: Option<Provider>, e: Event)
    requires Wellformed(st, provider)
    ensures Wellformed(Step(st, provider, e), provider)
  {
  }

  lemma {:induction false} RunPreservesWellformed(st: AuthState, provider: Option<Provider>, events: seq<Event>)
    requires Wellformed(st, provider)
    ensures Wellformed(Run(st, provider, events), provider)
    decreases |events|
  {
    if events != [] {
      StepPreservesWellformed(st, provider, events[0]);
      RunPreservesWellformed(Step(st, provider, events[0]), provider, events[1..]);
    }
  }

  /** Once mounted, the component never returns to the first-render phase. */
  lemma {:induction false} RunLeavesRendered(st: AuthState, provider: Option<Provider>, events: seq<Event>)
    requires Mount in events || st.phase != Rendered
    ensures Run(st, provider, events).phase != Rendered
    decreases |events|
  {
    if events != [] {
      var next := Step(st, provider, events[0]);
      assert next.phase != Rendered || Mount in events[1..];
      RunLeavesRendered(next, provider, events[1..]);
    }
  }

  /** Without a provider: after mounting, loading is over; whatever happens,
      getSession is never called, no listener is registered, nothing is
      unsubscribed, and session and user stay null. */
  lemma NoProviderNeverContactsBackend(events: seq<Event>)
    ensures var st := Run(Initial(), None, events);
            && st.getSessionCalls == 0 && st.subscriptions == 0 && st.unsubscribes == 0
            && st.session.None? && st.user.None?
            && (Mount in events ==> !st.isLoading)
  {
    InitialWellformed(None);
    RunPreservesWellformed(Initial(), None, events);
    if Mount in events {
      RunLeavesRendered(Initial(), None, events);
    }
  }

  /** With a provider, loading ends whether getSession resolves or throws; a
      throw leaves session and user as they were; a resolved value replaces
      the session but sets the user only when the session carries one. */
  lemma GetSessionOutcomes(st: AuthState, s: Option<Session>)
    requires st.pending
    ensures var r := SessionResolved(st, s);
            && !r.isLoading && r.session == s
            && r.user == (if s.Some? && s.value.user.Some? then s.value.user else st.user)
    ensures var r := SessionFailed(st);
            && !r.isLoading && r.session == st.session && r.user == st.user
  {
  }

  /** The user cell, when set, is the user of the current session. */
  predicate UserMatchesSession(st: AuthState) {
    st.user.Some? ==> st.session.Some? && st.session.value.user == st.user
  }

  /** A change notification always leaves user and session agreeing. */
  lemma ChangeRestoresAgreement(st: AuthState, s: Option<Session>)
    requires st.listening
    ensures UserMatchesSession(Changed(st, s))
  {
  }

  /** A getSession result keeps user and session agreeing exactly when no
      user was set or the result carries a user. */
  lemma ResolvedAgreement(st: AuthState, s: Option<Session>)
    requires st.pending && UserMatchesSession(st)
    ensures UserMatchesSession(SessionResolved(st, s)) <==> (st.user.None? || (s.Some? && s.value.user.Some?))
  {
  }

  function ChangeEvents(sessions: seq<Option<Session>>): (events: seq<Event>)
    ensures |events| == |sessions|
    ensures forall i :: 0 <= i < |sessions| ==> events[i] == AuthStateChange(sessions[i])
  {
    if sessions == [] then [] else [AuthStateChange(sessions[0])] + ChangeEvents(sessions[1..])
  }

  /** Successive change notifications are last-write-wins, and the listener
      stays registered. */
  lemma {:induction false} ChangesAreLastWriteWins(st: AuthState, provider: Option<Provider>,
                                                   sessions: seq<Option<Session>>)
    requires st.listening && sessions != []
    ensures var r := Run(st, provider, ChangeEvents(sessions));
            var last := sessions[|sessions| - 1];
            && r.listening && r.session == last
            && r.user == (if last.Some? then last.value.user else None)
            && UserMatchesSession(r)
    decreases |sessions|
  {
    var events := ChangeEvents(sessions);
    var next := Step(st, provider, events[0]);
    assert events[1..] == ChangeEvents(sessions[1..]);
    if |sessions| > 1 {
      ChangesAreLastWriteWins(next, provider, sessions[1..]);
      assert sessions[1..][|sessions[1..]| - 1] == sessions[|sessions| - 1];
    } else {
      assert events[1..] == [];
    }
  }

  /** Running three events is stepping through them. */
  lemma RunThree(st: AuthState, provider: Option<Provider>, e1: Event, e2: Event, e3: Event)
    ensures Run(st, provider, [e1, e2, e3])
         == Step(Step(Step(st, provider, e1), provider, e2), provider, e3)
  {
    var s1 := Step(st, provider, e1);
    var s2 := Step(s1, provider, e2);
    assert [e1, e2, e3][1..] == [e2, e3];
    assert [e2, e3][1..] == [e3];
    assert [e3][1..] == [];
    calc {
      Run(st, provider, [e1, e2, e3]);
      Run(s1, provider, [e2, e3]);
      Run(s2, provider, [e3]);
      Run(Step(s2, provider, e3), provider, []);
    }
  }

  const SomeUser := User("u-1", "ada@example.com")
  const SignedIn := Session("token-1", Some(SomeUser))
  const SomeProvider := Option<Provider>.Some(Provider(1))

  /** A null getSession result does not clear the user: after a change
      notification signs the user in and a late getSession resolves with
      null, the user cell is still set while the session is null, so
      isAuthenticated is false with a user present. */
  lemma NullSessionKeepsUser()
    ensures var st := Run(Initial(), SomeProvider, [Mount, AuthStateChange(Some(SignedIn)), GetSessionResolved(None)]);
            && st.user == Some(SomeUser) && st.session.None?
            && !UserMatchesSession(st) && !ValueOf(st, SomeProvider).isAuthenticated
  {
    RunThree(Initial(), SomeProvider, Mount, AuthStateChange(Some(SignedIn)), GetSessionResolved(None));
  }

  /** A getSession completion that arrives after a change notification
      overwrites it: the last notification does not win against it. */
  lemma LateGetSessionOverwritesChange()
    ensures var st := Run(Initial(), SomeProvider, [Mount, AuthStateChange(None), GetSessionResolved(Some(SignedIn))]);
            st.session == Some(SignedIn) && st.user == Some(SomeUser)
  {
    RunThree(Initial(), SomeProvider, Mount, AuthStateChange(None), GetSessionResolved(Some(SignedIn)));
  }

  /** There is no still-mounted guard: a getSession result that arrives after
      unmount still calls the setters, so the modelled cells change. React
      discards those updates, so no render shows them. */
  lemma CompletionAfterTeardownApplies()
    ensures var st := Run(Initial(), SomeProvider, [Mount, Unmount, GetSessionResolved(Some(SignedIn))]);
            && st.phase == Unmounted && st.unsubscribes == 1
            && st.session == Some(SignedIn) && !st.isLoading
  {
    RunThree(Initial(), SomeProvider, Mount, Unmount, GetSessionResolved(Some(SignedIn)));
  }

  // ---------------------------------------------------------------------
  // The context value

  datatype Credentials = Credentials(email: string, password: string)

  /** Partial<User>. */
  datatype UserAttributes = UserAttributes(id: Option<string>, email: Option<string>)

  /** The seven bound operations and their arguments. */
  datatype Operation =
    | SignIn(credentials: Credentials)
    | SignUp(credentials: Credentials)
    | SignInWithGoogle
    | SignOut
    | ResetPassword(email: string)
    | UpdatePassword(newPassword: string)
    | UpdateUser(attributes: UserAttributes)

  /** The three shapes the operations resolve to. */
  datatype OperationResult =
    | UserAndSession(user: Option<User>, session: Option<Session>, error: Option<AuthError>)
    | ErrorOnly(error: Option<AuthError>)
    | UserOnly(user: Option<User>, error: Option<AuthError>)

  const AuthDisabled := AuthError("Auth disabled", 500)

  /** The result shape the context's type gives each operation. */
  predicate HasShapeOf(r: OperationResult, op: Operation) {
    match op
    case SignIn(_) => r.UserAndSession?
    case SignUp(_) => r.UserAndSession?
    case SignInWithGoogle => r.UserAndSession?
    case SignOut => r.ErrorOnly?
    case ResetPassword(_) => r.ErrorOnly?
    case UpdatePassword(_) => r.ErrorOnly?
    case UpdateUser(_) => r.UserOnly?
  }

  /** Calling a bound operation of the context: with a provider it is the
      provider's own method; without one it resolves to the "Auth disabled"
      error, with user and session null where the shape has them. */
  function Invoke(provider: Option<Provider>, backend: (Provider, Operation) -> OperationResult,
                  op: Operation): (r: OperationResult)
    ensures provider.Some? ==> r == backend(provider.value, op)
    ensures provider.None? ==>
              && HasShapeOf(r, op) && r.error == Some(AuthDisabled)
              && (r.UserAndSession? ==> r.user.None? && r.session.None?)
              && (r.UserOnly? ==> r.user.None?)
  {
    if provider.Some? then backend(provider.value, op)
    else match op
      case SignIn(_) => UserAndSession(None, None, Some(AuthDisabled))
      case SignUp(_) => UserAndSession(None, None, Some(AuthDisabled))
      case SignInWithGoogle => UserAndSession(None, None, Some(AuthDisabled))
      case SignOut => ErrorOnly(Some(AuthDisabled))
      case ResetPassword(_) => ErrorOnly(Some(AuthDisabled))
      case UpdatePassword(_) => ErrorOnly(Some(AuthDisabled))
      case UpdateUser(_) => UserOnly(None, Some(AuthDisabled))
  }

  /** The context value: the state cells, the derived flag, and the provider
      that the bound operations go to (see Invoke). */
  datatype ContextValue = ContextValue(
    session: Option<Session>, user: Option<User>, isLoading: bool,
    isAuthenticated: bool, provider: Option<Provider>)

  function ValueOf(st: AuthState, provider: Option<Provider>): (v: ContextValue)
    ensures v.isAuthenticated <==> st.session.Some? && st.session.value.user.Some?
    ensures v.session == st.session && v.user == st.user && v.isLoading == st.isLoading
    ensures v.provider == provider
  {
    ContextValue(st.session, st.user, st.isLoading,
                 st.session.Some? && st.session.value.user.Some?, provider)
  }

  /** While the user cell holds exactly the session's user (as every change
      notification leaves it), being authenticated is having a user. */
  lemma AuthenticatedIffUser(st: AuthState, provider: Option<Provider>)
    requires st.user == (if st.session.Some? then st.session.value.user else None)
    ensures ValueOf(st, provider).isAuthenticated <==> st.user.Some?
  {
  }

  datatype ContextRead = Context(value: ContextValue) | Thrown(message: string)

  const OutsideProviderMessage := "useAuthContext must be used within an AuthProvider"

  /** useAuthContext: the context value inside an AuthProvider, a throw outside. */
  function UseAuthContext(context: Option<ContextValue>): (r: ContextRead)
    ensures r.Thrown? <==> context.None?
    ensures r.Thrown? ==> r.message == OutsideProviderMessage
    ensures r.Context? ==> r.value == context.value
  {
    if context.None? then Thrown(OutsideProviderMessage) else Context(context.value)
  }

  // ---------------------------------------------------------------------
  // The component instance

  /** One mounted AuthProvider component: its chosen provider and its state
      cells. Each method is one event. */
  class AuthProvider {
    const provider: Option<Provider>
    var session: Option<Session>
    var user: Option<User>
    var isLoading: bool
    var phase: Phase
    var getSessionCalls: nat
    var pending: bool
    var subscriptions: nat
    var listening: bool
    var unsubscribes: nat

    function State(): AuthState
      reads this
    {
      AuthState(session, user, isLoading, phase, getSessionCalls, pending, subscriptions, listening, unsubscribes)
    }

    ghost predicate Valid()
      reads this
    {
      Wellformed(State(), provider)
    }

    /** The first render: the provider is chosen and the cells take their
        initial values. */
    constructor (customAuthProvider: Option<Provider>, window: Option<Window>,
                 construct: Option<string> -> Construction)
      ensures provider == SelectProvider(customAuthProvider, window, construct)
      ensures State() == Initial() && Valid()
      ensures session.None? && user.None? && isLoading
    {
      provider := SelectProvider(customAuthProvider, window, construct);
      session, user, isLoading := None, None, true;
      phase := Rendered;
      getSessionCalls, pending := 0, false;
      subscriptions, listening, unsubscribes := 0, false, 0;
      InitialWellformed(SelectProvider(customAuthProvider, window, construct));
    }

    method Mount()
      requires Valid()
      modifies this
      ensures Valid() && State() == MountEffects(old(State()), provider)
    {
      if phase == Rendered {
        phase := Mounted;
        // the session effect
        if provider.None? {
          isLoading := false;
        } else {
          getSessionCalls := getSessionCalls + 1;
          pending := true;
        }
        // the listener effect
        if provider.Some? {
          subscriptions := subscriptions + 1;
          listening := true;
        }
      }
      StepPreservesWellformed(old(State()), provider, Event.Mount);
    }

    method CompleteGetSession(currentSession: Option<Session>)
      requires Valid()
      modifies this
      ensures Valid() && State() == SessionResolved(old(State()), currentSession)
    {
      if pending {
        session := currentSession;
        if currentSession.Some? && currentSession.value.user.Some? {
          user := currentSession.value.user;
        }
        pending := false;
        isLoading := false;
      }
      StepPreservesWellformed(old(State()), provider, GetSessionResolved(currentSession));
    }

    method FailGetSession()
      requires Valid()
      modifies this
      ensures Valid() && State() == SessionFailed(old(State()))
    {
      if pending {
        pending := false;
        isLoading := false;
      }
      StepPreservesWellformed(old(State()), provider, GetSessionThrew);
    }

    method NotifyAuthStateChange(newSession: Option<Session>)
      requires Valid()
      modifies this
      ensures Valid() && State() == Changed(old(State()), newSession)
      ensures old(listening) ==> UserMatchesSession(State())
    {
      if listening {
        session := newSession;
        user := if newSession.Some? then newSession.value.user else None;
      }
      StepPreservesWellformed(old(State()), provider, AuthStateChange(newSession));
    }

    method Unmount()
      requires Valid()
      modifies this
      ensures Valid() && State() == Teardown(old(State()))
    {
      if phase == Mounted {
        phase := Unmounted;
        if listening {
          listening := false;
          unsubscribes := unsubscribes + 1;
        }
      }
      StepPreservesWellformed(old(State()), provider, Event.Unmount);
    }

    function Value(): (v: ContextValue)
      reads this
      ensures v == ValueOf(State(), provider)
    {
      ContextValue(session, user, isLoading, session.Some? && session.value.user.Some?, provider)
    }
  }
}
