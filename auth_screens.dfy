/**
 * The unauthenticated and profile screens: user login, admin login,
 * registration and profile update. Every request's reply is an input.
 */
module AuthScreens {
  import opened Js
  import opened Strings
  import opened Storage
  import opened Navigation

  // ---------------------------------------------------------------- Login

  /** The login request's reply: `res.data.token`, `res.data.user`, or a rejection. */
  datatype LoginOutcome =
    | LoginReplied(token: Option<string>, user: Option<User>)
    | LoginFailed(failure: Failure)

  class LoginScreen {
    var message: string

    constructor ()
      ensures message == ""
    {
      message := "";
    }

    /**
     * `handleSubmit`: clear the message; a reply with a token stores it under
     * "token" and hands the reply's user to `onLogin`; otherwise set a message
     * and change nothing else.
     */
    method HandleSubmit(outcome: LoginOutcome, store: LocalStore, app: App)
      modifies this, store, app
      ensures outcome.LoginReplied? && Truthy(outcome.token) ==>
        && message == ""
        && store.entries == old(store.entries)[TokenKey := Text(outcome.token.value)]
        && app.Current() == Step(old(app.Current()), LoggedIn(outcome.user))
      ensures outcome.LoginReplied? && !Truthy(outcome.token) ==>
        && message == "Invalid login details."
        && store.entries == old(store.entries)
        && app.Current() == old(app.Current())
      ensures outcome.LoginFailed? ==>
        && message == FailureMessage("Login failed. ", outcome.failure)
        && store.entries == old(store.entries)
        && app.Current() == old(app.Current())
      ensures AdminTokenKey in store.entries <==> AdminTokenKey in old(store.entries)
      ensures AdminTokenKey in store.entries ==> store.entries[AdminTokenKey] == old(store.entries[AdminTokenKey])
    {
      message := "";
      match outcome
      case LoginReplied(token, user) =>
        if Truthy(token) {
          store.SetItem(TokenKey, Text(token.value));
          app.OnLogin(user);
        } else {
          message := "Invalid login details.";
        }
      case LoginFailed(failure) =>
        message := FailureMessage("Login failed. ", failure);
    }
  }

  // ---------------------------------------------------------- Admin login

  /** The admin login request's reply: `res.data.success`, `res.data.token`, or a rejection. */
  datatype AdminLoginOutcome =
    | AdminReplied(success: bool, token: Option<string>)
    | AdminFailed(failure: Failure)

  class AdminLoginScreen {
    var message: string

    constructor ()
      ensures message == ""
    {
      message := "";
    }

    /**
     * `handleSubmit`: a truthy `success` stores the reply's token under
     * "adminToken" and calls `onLogin`; the message is not cleared first.
     */
    method HandleSubmit(outcome: AdminLoginOutcome, store: LocalStore, app: App)
      modifies this, store, app
      ensures outcome.AdminReplied? && outcome.success ==>
        && message == old(message)
        && store.entries == old(store.entries)[AdminTokenKey := Text(Stringified(outcome.token))]
        && app.Current() == Step(old(app.Current()), AdminLoggedIn)
      ensures outcome.AdminReplied? && !outcome.success ==>
        && message == "Invalid admin credentials"
        && store.entries == old(store.entries)
        && app.Current() == old(app.Current())
      ensures outcome.AdminFailed? ==>
        && message == FailureMessage("Login failed. ", outcome.failure)
        && store.entries == old(store.entries)
        && app.Current() == old(app.Current())
      ensures TokenKey in store.entries <==> TokenKey in old(store.entries)
      ensures TokenKey in store.entries ==> store.entries[TokenKey] == old(store.entries[TokenKey])
    {
      match outcome
      case AdminReplied(success, token) =>
        if success {
          store.SetItem(AdminTokenKey, Text(Stringified(token)));
          app.OnAdminLogin();
        } else {
          message := "Invalid admin credentials";
        }
      case AdminFailed(failure) =>
        message := FailureMessage("Login failed. ", failure);
    }

    /** The back button calls `onBack` and nothing else. */
    method Back(app: App)
      modifies app
      ensures app.Current() == Step(old(app.Current()), AdminBack)
      ensures app.Current() == old(app.Current()).(showAdminLogin := false)
    {
      app.OnAdminBack();
    }
  }

  // ------------------------------------------------------------- Register

  datatype RegisterField = Username | Email | Password | Language | Age | Gender

  /** The register form: every field is the text of its input. */
  datatype RegisterForm = RegisterForm(username: string, email: string, password: string,
                                       language: string, age: string, gender: string)

  function Field(f: RegisterForm, name: RegisterField): string {
    match name
    case Username => f.username
    case Email => f.email
    case Password => f.password
    case Language => f.language
    case Age => f.age
    case Gender => f.gender
  }

  /** `{ ...form, [name]: value }`: only the named field changes. */
  function WithField(f: RegisterForm, name: RegisterField, value: string): (r: RegisterForm)
    ensures Field(r, name) == value
    ensures forall other :: other != name ==> Field(r, other) == Field(f, other)
  {
    match name
    case Username => f.(username := value)
    case Email => f.(email := value)
    case Password => f.(password := value)
    case Language => f.(language := value)
    case Age => f.(age := value)
    case Gender => f.(gender := value)
  }

  const InitialRegisterForm: RegisterForm := RegisterForm("", "", "", "English", "", "")

  lemma InitialRegisterFields(name: RegisterField)
    ensures Field(InitialRegisterForm, name) == if name == Language then "English" else ""
  {
  }

  /**
   * `parseInt(s, 10)`: skip leading whitespace, take an optional sign and the
   * longest run of decimal digits; `None` is `NaN` (no digits), which the
   * request body serialises as `null`.
   */
  function ParseInt(s: string): Option<int> {
    var t := TrimStart(s);
    var negative := t != [] && t[0] == '-';
    var u := if t != [] && (t[0] == '-' || t[0] == '+') then t[1..] else t;
    var k := LeadingDigits(u);
    var magnitude: int := DigitsValue(u[..k]);
    if k == 0 then None else Some(if negative then -magnitude else magnitude)
  }

  /** A decimal number, optionally followed by text that does not start with a digit, parses to itself. */
  lemma ParseIntOfDecimal(n: nat, rest: string)
    requires rest == [] || !IsDigit(rest[0])
    ensures ParseInt(Decimal(n) + rest) == Some(n)
  {
    var d := Decimal(n);
    var s := d + rest;
    assert s[0] == d[0] && IsDigit(s[0]);
    assert "" + s == s;
    TrimStartPadded("", s);
    assert TrimStart(s) == s;
    assert s[0] != '-' && s[0] != '+';
    LeadingDigitsOfDigits(d, rest);
    assert s[..LeadingDigits(s)] == d;
    DecimalValue(n);
  }

  /** An empty or non-numeric age field parses to `NaN`. */
  lemma ParseIntWithoutDigits(s: string)
    requires s == [] || (!IsDigit(s[0]) && !IsSpace(s[0]) && s[0] != '-' && s[0] != '+')
    ensures ParseInt(s) == None
  {
  }

  /** The register request body: the form with `age` replaced by `parseInt(age, 10)`. */
  datatype RegisterPayload = RegisterPayload(username: string, email: string, password: string,
                                             language: string, age: Option<int>, gender: string)

  function Payload(f: RegisterForm): (p: RegisterPayload)
    ensures p.age == ParseInt(f.age)
    ensures p.username == f.username && p.email == f.email && p.password == f.password
    ensures p.language == f.language && p.gender == f.gender
  {
    RegisterPayload(f.username, f.email, f.password, f.language, ParseInt(f.age), f.gender)
  }

  /** The register reply: `res.data.message`, `res.data.user`, or a rejection. */
  datatype RegisterOutcome =
    | RegisterReplied(message: Option<string>, user: Option<User>)
    | RegisterFailed(failure: Failure)

  /** What the server's register endpoint returns: a message and no user. */
  const ServerRegisterReply: RegisterOutcome := RegisterReplied(Some("User registered successfully"), None)

  class RegisterScreen {
    var form: RegisterForm
    var message: string

    constructor ()
      ensures form == InitialRegisterForm && message == ""
    {
      form := InitialRegisterForm;
      message := "";
    }

    /** `handleChange`. */
    method HandleChange(name: RegisterField, value: string)
      modifies this
      ensures form == WithField(old(form), name, value)
      ensures message == old(message)
    {
      form := WithField(form, name, value);
    }

    /**
     * `handleSubmit`: send the payload; on a reply show its message (or the
     * default) and pass its user to `onRegister`; on a rejection show the
     * failure. No token is written: the store is not an argument.
     */
    method HandleSubmit(outcome: RegisterOutcome, app: App) returns (request: RegisterPayload)
      modifies this, app
      ensures request == Payload(old(form))
      ensures form == old(form)
      ensures outcome.RegisterReplied? ==>
        && message == OrElse(outcome.message, "Registered successfully!")
        && app.Current() == Step(old(app.Current()), Registered(outcome.user))
      ensures outcome.RegisterFailed? ==>
        && message == FailureMessage("Registration failed. ", outcome.failure)
        && app.Current() == old(app.Current())
    {
      request := Payload(form);
      match outcome
      case RegisterReplied(msg, user) =>
        message := OrElse(msg, "Registered successfully!");
        app.OnRegister(user);
      case RegisterFailed(failure) =>
        message := FailureMessage("Registration failed. ", failure);
    }
  }

  /** The server's reply leaves the register screen shown, with the server's message. */
  lemma ServerReplyKeepsRegisterScreen(s: NavState)
    requires Render(s) == UserRegister
    ensures OrElse(ServerRegisterReply.message, "Registered successfully!") == "User registered successfully"
    ensures Render(Step(s, Registered(ServerRegisterReply.user))) == UserRegister
  {
  }

  /** A rejection carrying a server detail shows it after the prefix. */
  lemma RegisterFailureText(detail: string, errMessage: string)
    requires detail != ""
    ensures FailureMessage("Registration failed. ", Failure(Some(detail), errMessage)) == "Registration failed. " + detail
  {
  }

  // --------------------------------------------------------------- Update

  datatype ProfileField = ProfileUsername | ProfileLanguage | ProfileAge | ProfileGender

  function ProfileValue(u: User, name: ProfileField): string {
    match name
    case ProfileUsername => u.username
    case ProfileLanguage => u.language
    case ProfileAge => u.age
    case ProfileGender => u.gender
  }

  /** `{ ...prev, [name]: value }` on the profile form. */
  function WithProfileField(u: User, name: ProfileField, value: string): (r: User)
    ensures ProfileValue(r, name) == value
    ensures forall other :: other != name ==> ProfileValue(r, other) == ProfileValue(u, other)
    ensures r.id == u.id && r.email == u.email
  {
    match name
    case ProfileUsername => u.(username := value)
    case ProfileLanguage => u.(language := value)
    case ProfileAge => u.(age := value)
    case ProfileGender => u.(gender := value)
  }

  /** The four profile fields of the user, and nothing else. */
  function ProfileForm(u: User): (r: User)
    ensures forall name :: ProfileValue(r, name) == ProfileValue(u, name)
    ensures r.id.None? && r.email.None?
  {
    User(u.username, u.language, u.age, u.gender, None, None)
  }

  /** The update request: the form as body and the bearer header built from "token". */
  datatype UpdateRequest = UpdateRequest(body: User, authorization: string)

  class UpdateScreen {
    var formData: User

    constructor (user: User)
      ensures formData == ProfileForm(user)
    {
      formData := ProfileForm(user);
    }

    /** `handleChange`. */
    method HandleChange(name: ProfileField, value: string)
      modifies this
      ensures formData == WithProfileField(old(formData), name, value)
    {
      formData := WithProfileField(formData, name, value);
    }

    /** `handleUpdate`: on success `onUpdate` receives exactly the submitted form. */
    method HandleUpdate(succeeded: bool, store: LocalStore, app: App) returns (request: UpdateRequest)
      modifies app
      ensures request == UpdateRequest(formData, Bearer(store.Token(TokenKey)))
      ensures succeeded ==> app.Current() == Step(old(app.Current()), Updated(formData))
      ensures !succeeded ==> app.Current() == old(app.Current())
    {
      var token := store.Token(TokenKey);
      request := UpdateRequest(formData, Bearer(token));
      if succeeded {
        app.OnUpdate(formData);
      }
    }
  }
}
