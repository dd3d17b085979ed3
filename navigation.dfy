/**
 * The root component: six state flags, the fixed-priority choice of the one
 * screen to render, and the callbacks handed to the screens.
 */
module Navigation {
  import opened Js

  /**
   * The client-side user object. `age` is kept as the text the forms hold.
   * A user from the login reply carries `id` and `email`; the profile form does not.
   */
  datatype User = User(username: string, language: string, age: string, gender: string,
                       id: Option<int>, email: Option<string>)

  /** The six `useState` flags of `App`; `user` is `null`/`undefined` when `None`. */
  datatype NavState = NavState(user: Option<User>, isAdmin: bool, showRegister: bool,
                               showUpdate: bool, showFeedback: bool, showAdminLogin: bool)

  datatype Screen = AdminDashboard | AdminLogin | UserRegister | UserLogin | UpdateProfile | Feedback | Chat

  function Initial(): NavState {
    NavState(None, false, false, false, false, false)
  }

  /** The render chain: every screen is characterised by the flags that select it. */
  function Render(s: NavState): (r: Screen)
    ensures r == AdminDashboard <==> s.isAdmin
    ensures r == AdminLogin <==> !s.isAdmin && s.user.None? && s.showAdminLogin
    ensures r == UserRegister <==> !s.isAdmin && s.user.None? && !s.showAdminLogin && s.showRegister
    ensures r == UserLogin <==> !s.isAdmin && s.user.None? && !s.showAdminLogin && !s.showRegister
    ensures r == UpdateProfile <==> !s.isAdmin && s.user.Some? && s.showUpdate
    ensures r == Feedback <==> !s.isAdmin && s.user.Some? && !s.showUpdate && s.showFeedback
    ensures r == Chat <==> !s.isAdmin && s.user.Some? && !s.showUpdate && !s.showFeedback
  {
    if s.isAdmin then AdminDashboard
    else if s.user.None? then
      if s.showAdminLogin then AdminLogin
      else if s.showRegister then UserRegister
      else UserLogin
    else if s.showUpdate then UpdateProfile
    else if s.showFeedback then Feedback
    else Chat
  }

  /** The admin-login entry button exists exactly on the three unauthenticated screens. */
  function AdminButtonShown(s: NavState): (r: bool)
    ensures r <==> Render(s) in {AdminLogin, UserRegister, UserLogin}
  {
    s.user.None? && !s.isAdmin
  }

  /** The callbacks that some screen actually invokes. */
  datatype Event =
    | ShowRegister             // Login: onSwitch
    | LoggedIn(u: Option<User>) // Login: onLogin(res.data.user)
    | ShowLogin                // Register: onSwitch
    | Registered(u: Option<User>) // Register: onRegister(res.data.user)
    | AdminBack                // AdminLogin: onBack
    | AdminLoggedIn            // AdminLogin: onLogin
    | OpenAdminLogin           // the header button
    | Updated(form: User)      // Update: onUpdate(formData)
    | UpdateCancelled          // Update: onCancel
    | FeedbackClosed           // Feedback: onBack
    | Logout                   // ChatBox: onLogout
    | OpenUpdate               // ChatBox: onUpdateProfile
    | OpenFeedback             // ChatBox: onFeedback

  /** The flag assignments each callback performs. */
  function Step(s: NavState, e: Event): NavState {
    match e
    case ShowRegister => s.(showRegister := true)
    case LoggedIn(u) => s.(user := u)
    case ShowLogin => s.(showRegister := false)
    case Registered(u) => s.(user := u)
    case AdminBack => s.(showAdminLogin := false)
    case AdminLoggedIn => s.(isAdmin := true)
    case OpenAdminLogin => s.(showAdminLogin := true)
    case Updated(u) => s.(user := Some(u), showUpdate := false)
    case UpdateCancelled => s.(showUpdate := false)
    case FeedbackClosed => s.(showFeedback := false)
    case Logout => s.(user := None)
    case OpenUpdate => s.(showUpdate := true)
    case OpenFeedback => s.(showFeedback := true)
  }

  /**
   * The screen that owns a callback is rendered. A callback that runs at
   * once on a click fires only then; one that runs after an awaited reply
   * was at least requested from there (see `Send` below).
   */
  predicate Enabled(s: NavState, e: Event) {
    match e
    case ShowRegister | LoggedIn(_) => Render(s) == UserLogin
    case ShowLogin | Registered(_) => Render(s) == UserRegister
    case AdminBack | AdminLoggedIn => Render(s) == AdminLogin
    case OpenAdminLogin => AdminButtonShown(s)
    case Updated(_) | UpdateCancelled => Render(s) == UpdateProfile
    case FeedbackClosed => Render(s) == Feedback
    case Logout | OpenUpdate | OpenFeedback => Render(s) == Chat
  }

  function Run(s: NavState, es: seq<Event>): NavState
    decreases |es|
  {
    if es == [] then s else Run(Step(s, es[0]), es[1..])
  }

  /** Every event of `es` is enabled in the state it is applied to. */
  predicate Trace(s: NavState, es: seq<Event>)
    decreases |es|
  {
    es == [] || (Enabled(s, es[0]) && Trace(Step(s, es[0]), es[1..]))
  }

  /** What holds of every state reachable from the initial one. */
  predicate Consistent(s: NavState) {
    && (s.user.None? ==> !s.showUpdate && !s.showFeedback)
    && !(s.showUpdate && s.showFeedback)
  }

  lemma StepConsistent(s: NavState, e: Event)
    requires Consistent(s) && Enabled(s, e)
    ensures Consistent(Step(s, e))
  {
  }

  lemma {:induction false} TraceConsistent(s: NavState, es: seq<Event>)
    requires Consistent(s) && Trace(s, es)
    ensures Consistent(Run(s, es))
    decreases |es|
  {
    if es != [] {
      StepConsistent(s, es[0]);
      TraceConsistent(Step(s, es[0]), es[1..]);
    }
  }

  /**
   * The callbacks only an awaited reply runs: the login, register, admin-login
   * and update replies. App's setters outlive the screen that holds them, so
   * such a callback runs on whatever screen is shown when the reply arrives.
   */
  predicate NeedsReply(e: Event) {
    e.LoggedIn? || e.Registered? || e.AdminLoggedIn? || e.Updated?
  }

  /** The flags together with the reply still outstanding, if any. */
  datatype Config = Config(nav: NavState, pending: Option<Event>)

  function InitialConfig(): Config {
    Config(Initial(), None)
  }

  /**
   * What can happen next: a click handled at once on its own screen, a
   * request sent from a screen whose reply will run one of its callbacks,
   * or that reply arriving, whatever screen is shown by then.
   */
  datatype Action = Fire(e: Event) | Send(e: Event) | Arrive

  /**
   * A reply-only callback never fires at once, and one request is in flight
   * at a time. The feedback screen's `onBack` is both the back link's click
   * and the callback after the submit's reply.
   */
  predicate Allowed(c: Config, a: Action) {
    match a
    case Fire(e) => Enabled(c.nav, e) && !NeedsReply(e)
    case Send(e) => Enabled(c.nav, e) && (NeedsReply(e) || e == FeedbackClosed) && c.pending.None?
    case Arrive => c.pending.Some?
  }

  function Advance(c: Config, a: Action): Config {
    match a
    case Fire(e) => Config(Step(c.nav, e), c.pending)
    case Send(e) => Config(c.nav, Some(e))
    case Arrive =>
      match c.pending
      case Some(e) => Config(Step(c.nav, e), None)
      case None => c
  }

  function RunSchedule(c: Config, acts: seq<Action>): Config
    decreases |acts|
  {
    if acts == [] then c else RunSchedule(Advance(c, acts[0]), acts[1..])
  }

  /** Every action of `acts` is allowed in the configuration it is applied to. */
  predicate Schedule(c: Config, acts: seq<Action>)
    decreases |acts|
  {
    acts == [] || (Allowed(c, acts[0]) && Schedule(Advance(c, acts[0]), acts[1..]))
  }

  /**
   * Consistent flags; the outstanding reply is one a request can await; and an
   * outstanding login or register reply was sent from a logged-out screen,
   * which nothing but a reply can leave for a user's.
   */
  predicate ConfigInvariant(c: Config) {
    && Consistent(c.nav)
    && (c.pending.Some? ==> NeedsReply(c.pending.value) || c.pending.value == FeedbackClosed)
    && (c.pending.Some? && (c.pending.value.LoggedIn? || c.pending.value.Registered?) ==> c.nav.user.None?)
  }

  lemma AdvanceKeepsInvariant(c: Config, a: Action)
    requires ConfigInvariant(c) && Allowed(c, a)
    ensures ConfigInvariant(Advance(c, a))
  {
    match a
    case Fire(e) =>
      StepConsistent(c.nav, e);
    case Send(e) =>
    case Arrive =>
  }

  lemma {:induction false} ScheduleKeepsInvariant(c: Config, acts: seq<Action>)
    requires ConfigInvariant(c) && Schedule(c, acts)
    ensures ConfigInvariant(RunSchedule(c, acts))
    decreases |acts|
  {
    if acts != [] {
      AdvanceKeepsInvariant(c, acts[0]);
      ScheduleKeepsInvariant(Advance(c, acts[0]), acts[1..]);
    }
  }

  /**
   * Every reachable state is consistent, replies arriving late included: the
   * profile and feedback screens are never flagged without a user, nor both at once.
   */
  lemma ReachableConsistent(acts: seq<Action>)
    requires Schedule(InitialConfig(), acts)
    ensures Consistent(RunSchedule(InitialConfig(), acts).nav)
  {
    ScheduleKeepsInvariant(InitialConfig(), acts);
  }

  /**
   * An update reply that arrives after Cancel and Logout still runs `onUpdate`:
   * the chat is shown for the submitted form's data although nobody is logged in.
   */
  lemma LateUpdateAfterLogout(u: User, form: User)
    ensures Schedule(InitialConfig(), LateUpdateActions(u, form))
    ensures RunSchedule(InitialConfig(), LateUpdateActions(u, form)).nav.user == Some(form)
    ensures Render(RunSchedule(InitialConfig(), LateUpdateActions(u, form)).nav) == Chat
  {
    var acts := LateUpdateActions(u, form);
    var c0 := InitialConfig();
    var c1 := Advance(c0, Send(LoggedIn(Some(u))));
    var c2 := Advance(c1, Arrive);
    var c3 := Advance(c2, Fire(OpenUpdate));
    var c4 := Advance(c3, Send(Updated(form)));
    var c5 := Advance(c4, Fire(UpdateCancelled));
    var c6 := Advance(c5, Fire(Logout));
    var c7 := Advance(c6, Arrive);
    assert Render(c0.nav) == UserLogin && Render(c2.nav) == Chat && Render(c3.nav) == UpdateProfile;
    assert Render(c5.nav) == Chat && Render(c6.nav) == UserLogin && c6.pending == Some(Updated(form));
    assert Schedule(c7, []) && RunSchedule(c7, []) == c7;
    assert Schedule(c6, [Arrive]) && RunSchedule(c6, [Arrive]) == c7;
    assert Schedule(c5, [Fire(Logout), Arrive]) && RunSchedule(c5, [Fire(Logout), Arrive]) == c7;
    assert Schedule(c4, acts[4..]) && RunSchedule(c4, acts[4..]) == c7;
    assert Schedule(c3, acts[3..]) && RunSchedule(c3, acts[3..]) == c7;
    assert Schedule(c2, acts[2..]) && RunSchedule(c2, acts[2..]) == c7;
    assert Schedule(c1, acts[1..]) && RunSchedule(c1, acts[1..]) == c7;
  }

  /** Log in, open the profile, submit it, cancel, log out, then the reply arrives. */
  function LateUpdateActions(u: User, form: User): seq<Action> {
    [Send(LoggedIn(Some(u))), Arrive, Fire(OpenUpdate), Send(Updated(form)),
     Fire(UpdateCancelled), Fire(Logout), Arrive]
  }

  /**
   * With two requests in flight the flags can become inconsistent: a register
   * reply, which carries no user, arriving on the profile screen of a user who
   * logged in meanwhile leaves `showUpdate` set with no user.
   */
  lemma OverlappingRepliesBreakConsistency(u: User)
    ensures !Consistent(Run(Initial(), [ShowRegister, ShowLogin, LoggedIn(Some(u)), OpenUpdate, Registered(None)]))
  {
    var s0 := Initial();
    var s3 := Step(Step(Step(s0, ShowRegister), ShowLogin), LoggedIn(Some(u)));
    var s5 := Step(Step(s3, OpenUpdate), Registered(None));
    assert Run(s5, []) == s5;
    assert Run(Step(s3, OpenUpdate), [Registered(None)]) == s5;
    assert Run(s3, [OpenUpdate, Registered(None)]) == s5;
    assert Run(Step(Step(s0, ShowRegister), ShowLogin), [LoggedIn(Some(u)), OpenUpdate, Registered(None)]) == s5;
    assert Run(Step(s0, ShowRegister), [ShowLogin, LoggedIn(Some(u)), OpenUpdate, Registered(None)]) == s5;
  }

  /** The dashboard owns no callback: only a reply requested earlier can still arrive while it is shown. */
  lemma DashboardHasNoCallbacks(s: NavState, e: Event)
    requires Render(s) == AdminDashboard
    ensures !Enabled(s, e)
  {
  }

  /** No event clears `isAdmin`, so once the dashboard is shown it stays shown. */
  lemma {:induction false} AdminIsFinal(s: NavState, es: seq<Event>)
    requires s.isAdmin
    ensures Run(s, es).isAdmin && Render(Run(s, es)) == AdminDashboard
    decreases |es|
  {
    if es != [] {
      AdminIsFinal(Step(s, es[0]), es[1..]);
    }
  }

  /** A login that returns a user leaves the login screen for the chat. */
  lemma LoginLandsOnChat(s: NavState, u: User)
    requires Consistent(s) && Render(s) == UserLogin
    ensures Render(Step(s, LoggedIn(Some(u)))) == Chat
  {
  }

  /** The register reply carries no user, so the register screen stays shown. */
  lemma RegisterWithoutUserStays(s: NavState)
    requires Render(s) == UserRegister
    ensures Step(s, Registered(None)) == s
    ensures Render(Step(s, Registered(None))) == UserRegister
  {
  }

  /**
   * Logout clears only `user`; the next screen is chosen by the register and
   * admin-login flags it leaves behind.
   */
  lemma LogoutScreen(s: NavState)
    requires Render(s) == Chat
    ensures Step(s, Logout) == s.(user := None)
    ensures Render(Step(s, Logout)) ==
      (if s.showAdminLogin then AdminLogin else if s.showRegister then UserRegister else UserLogin)
  {
  }

  /** A successful update installs the submitted data and returns to the chat. */
  lemma UpdateReturnsToChat(s: NavState, u: User)
    requires Consistent(s) && Render(s) == UpdateProfile
    ensures Step(s, Updated(u)).user == Some(u)
    ensures Render(Step(s, Updated(u))) == Chat
    ensures Render(Step(s, UpdateCancelled)) == Chat
    ensures Step(s, UpdateCancelled).user == s.user
  {
  }

  /** Admin login sets `isAdmin` and leaves `showAdminLogin` set. */
  lemma AdminLoginKeepsFlag(s: NavState)
    requires Render(s) == AdminLogin
    ensures Step(s, AdminLoggedIn).showAdminLogin
    ensures Render(Step(s, AdminLoggedIn)) == AdminDashboard
  {
  }

  /** The six flags of `App`, set in place by its callbacks. */
  class App {
    var user: Option<User>
    var isAdmin: bool
    var showRegister: bool
    var showUpdate: bool
    var showFeedback: bool
    var showAdminLogin: bool

    function Current(): NavState
      reads this
    {
      NavState(user, isAdmin, showRegister, showUpdate, showFeedback, showAdminLogin)
    }

    constructor ()
      ensures Current() == Initial()
    {
      user := None;
      isAdmin := false;
      showRegister := false;
      showUpdate := false;
      showFeedback := false;
      showAdminLogin := false;
    }

    /** Login `onSwitch`. */
    method ShowRegister()
      modifies this
      ensures Current() == Step(old(Current()), Event.ShowRegister)
    {
      showRegister := true;
    }

    /** Login `onLogin`. */
    method OnLogin(u: Option<User>)
      modifies this
      ensures Current() == Step(old(Current()), LoggedIn(u))
    {
      user := u;
    }

    /** Register `onSwitch`. */
    method ShowLogin()
      modifies this
      ensures Current() == Step(old(Current()), Event.ShowLogin)
    {
      showRegister := false;
    }

    /** Register `onRegister`. */
    method OnRegister(u: Option<User>)
      modifies this
      ensures Current() == Step(old(Current()), Registered(u))
    {
      user := u;
    }

    /** AdminLogin `onBack`. */
    method OnAdminBack()
      modifies this
      ensures Current() == Step(old(Current()), AdminBack)
    {
      showAdminLogin := false;
    }

    /** AdminLogin `onLogin`. */
    method OnAdminLogin()
      modifies this
      ensures Current() == Step(old(Current()), AdminLoggedIn)
    {
      isAdmin := true;
    }

    /** The admin-login button in the header. */
    method OpenAdminLogin()
      modifies this
      ensures Current() == Step(old(Current()), Event.OpenAdminLogin)
    {
      showAdminLogin := true;
    }

    /** Update `onUpdate`. */
    method OnUpdate(u: User)
      modifies this
      ensures Current() == Step(old(Current()), Updated(u))
    {
      user := Some(u);
      showUpdate := false;
    }

    /** Update `onCancel`. */
    method OnCancelUpdate()
      modifies this
      ensures Current() == Step(old(Current()), UpdateCancelled)
    {
      showUpdate := false;
    }

    /** Feedback `onBack`. */
    method OnFeedbackBack()
      modifies this
      ensures Current() == Step(old(Current()), FeedbackClosed)
    {
      showFeedback := false;
    }

    /** ChatBox `onLogout`. */
    method OnLogout()
      modifies this
      ensures Current() == Step(old(Current()), Logout)
    {
      user := None;
    }

    /** ChatBox `onUpdateProfile`. */
    method OnUpdateProfile()
      modifies this
      ensures Current() == Step(old(Current()), OpenUpdate)
    {
      showUpdate := true;
    }

    /** ChatBox `onFeedback`. */
    method OnFeedback()
      modifies this
      ensures Current() == Step(old(Current()), OpenFeedback)
    {
      showFeedback := true;
    }
  }
}
