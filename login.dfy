/**
 * The login page: the prefill from saved credentials, the guard against
 * empty fields, the remember-me storage, the error text shown when a login
 * fails, and the effect that greets the user and redirects by role.
 */
module Login {
  import opened Js
  import opened AuthSlice

  const UsernameKey := "username"
  const PasswordKey := "password"
  const MissingCredentialsText := "Username dan password wajib diisi!"
  const WelcomePrefix := "Selamat datang kembali, "

  /** The browser's local storage: string keys to string values. */
  class LocalStorage {
    var items: map<string, string>

    constructor (initial: map<string, string>)
      ensures items == initial
    {
      items := initial;
    }

    /** `getItem`: the stored value, or `None` for null. */
    method GetItem(key: string) returns (v: Option<string>)
      ensures v.Some? <==> key in items
      ensures v.Some? ==> v.value == items[key]
    {
      if key in items {
        v := Some(items[key]);
      } else {
        v := None;
      }
    }

    method SetItem(key: string, value: string)
      modifies this
      ensures items == old(items)[key := value]
    {
      items := items[key := value];
    }

    method RemoveItem(key: string)
      modifies this
      ensures items == old(items) - {key}
    {
      items := items - {key};
    }
  }

  /**
   * Storage after a successful login: with remember-me the two credentials
   * are stored, without it both keys are removed; no other key changes.
   */
  function Remember(items: map<string, string>, rememberMe: bool, username: string, password: string): (r: map<string, string>)
    ensures rememberMe ==> UsernameKey in r && r[UsernameKey] == username
    ensures rememberMe ==> PasswordKey in r && r[PasswordKey] == password
    ensures !rememberMe ==> UsernameKey !in r && PasswordKey !in r
    ensures forall k :: k != UsernameKey && k != PasswordKey ==> (k in r <==> k in items)
    ensures forall k :: k in r && k != UsernameKey && k != PasswordKey ==> r[k] == items[k]
  {
    if rememberMe then items[UsernameKey := username][PasswordKey := password]
    else items - {UsernameKey} - {PasswordKey}
  }

  /** The saved credentials, used only when both are stored and neither is empty. */
  function Prefill(items: map<string, string>): (r: Option<(string, string)>)
    ensures r.Some? <==>
      UsernameKey in items && PasswordKey in items && items[UsernameKey] != "" && items[PasswordKey] != ""
    ensures r.Some? ==> r.value == (items[UsernameKey], items[PasswordKey])
  {
    if UsernameKey in items && PasswordKey in items && items[UsernameKey] != "" && items[PasswordKey] != "" then
      Some((items[UsernameKey], items[PasswordKey]))
    else None
  }

  /**
   * What remember-me stores is what the next visit prefills, and after a
   * login without remember-me nothing is prefilled.
   */
  lemma RememberThenPrefill(items: map<string, string>, username: string, password: string)
    requires username != "" && password != ""
    ensures Prefill(Remember(items, true, username, password)) == Some((username, password))
    ensures Prefill(Remember(items, false, username, password)).None?
  {
  }

  /**
   * The error text of a failed login: a string as it is, otherwise its
   * `msg`, otherwise its `message` (each only when truthy), otherwise the
   * generic text.
   */
  function ErrorText(error: JsValue): (t: JsValue)
    ensures error.Str? ==> t == error
    ensures !error.Str? && Truthy(OptProp(error, "msg")) ==> t == OptProp(error, "msg")
    ensures !error.Str? && !Truthy(OptProp(error, "msg")) && Truthy(OptProp(error, "message")) ==>
      t == OptProp(error, "message")
    ensures !error.Str? && !Truthy(OptProp(error, "msg")) && !Truthy(OptProp(error, "message")) ==>
      t == Str(LoginFailedText)
    ensures error != Str("") ==> Truthy(t)
  {
    if error.Str? then error
    else if Truthy(OptProp(error, "msg")) then OptProp(error, "msg")
    else if Truthy(OptProp(error, "message")) then OptProp(error, "message")
    else Str(LoginFailedText)
  }

  /** What `unwrap()` throws for a refused login: the rejected value, or the serialized error. */
  function UnwrapError(st: Settled): JsValue
  {
    match st
    case Fulfilled(_) => Undefined
    case RejectedWithValue(v) => v
    case Threw(e) => e
  }

  /** A refusal the slice already turned into a string is shown unchanged. */
  lemma RejectionShownVerbatim(reply: Reply, thrown: JsValue)
    requires LoginThunk(reply, thrown).RejectedWithValue?
    ensures ErrorText(UnwrapError(LoginThunk(reply, thrown))) == LoginThunk(reply, thrown).value
    ensures reply.error.response.None? ==> ErrorText(UnwrapError(LoginThunk(reply, thrown))) == Str(NoServerText)
  {
  }

  /** The home page of a role: admins and superadmins, users, and no navigation for any other role. */
  function RouteForRole(role: JsValue): (r: Option<string>)
    ensures r == Some("/dashboard") <==> role == Str("admin") || role == Str("superadmin")
    ensures r == Some("/userdashboard") <==> role == Str("user")
    ensures r.None? <==> role != Str("admin") && role != Str("superadmin") && role != Str("user")
  {
    if role == Str("admin") || role == Str("superadmin") then Some("/dashboard")
    else if role == Str("user") then Some("/userdashboard")
    else None
  }

  /** `user.data || user`: the user record, inside a `data` wrapper or not. */
  function UserData(user: JsValue): JsValue
  {
    Or(OptProp(user, "data"), user)
  }

  /** The greeting: `Selamat datang kembali, ${userData.name}`. */
  function WelcomeText(user: JsValue): string
  {
    WelcomePrefix + ToJsString(OptProp(UserData(user), "name"))
  }

  datatype Alert =
    | Warning(text: string)
    | LoginFailed(reason: JsValue)
    | Welcome(text: string)

  /** What the session effect does: where it navigates, what it shows, and whether it resets the session. */
  datatype EffectOutcome = EffectOutcome(nav: Option<string>, alerts: seq<Alert>, resets: bool)

  /**
   * The effect on the session values of one render: greet and redirect after
   * a success, report an error the user's own login caused. Both branches
   * read the values of that render.
   */
  function SessionEffect(s: Session, manual: bool): (r: EffectOutcome)
    ensures Consistent(s) ==> |r.alerts| <= 1
    ensures r.resets <==> (s.isSuccess && Truthy(s.user)) || (s.isError && manual)
    ensures s.isSuccess && Truthy(s.user) ==>
      r.nav == RouteForRole(OptProp(UserData(s.user), "role")) && r.alerts != [] && r.alerts[0] == Welcome(WelcomeText(s.user))
    ensures !(s.isSuccess && Truthy(s.user)) ==> r.nav.None?
    ensures s.isError && manual ==> r.alerts != [] && r.alerts[|r.alerts| - 1] == LoginFailed(ErrorText(s.message))
    ensures s.isError && manual && !(s.isSuccess && Truthy(s.user)) ==> r.alerts == [LoginFailed(ErrorText(s.message))]
    ensures !r.resets ==> r == EffectOutcome(None, [], false)
  {
    var greeted := s.isSuccess && Truthy(s.user);
    var ud := UserData(s.user);
    var success :=
      if greeted then [Welcome(WelcomeText(s.user))] else [];
    var failure := if s.isError && manual then [LoginFailed(ErrorText(s.message))] else [];
    EffectOutcome(if greeted then RouteForRole(OptProp(ud, "role")) else None, success + failure, greeted || (s.isError && manual))
  }

  /** An accepted login whose user has the admin role ends on the dashboard with one greeting. */
  lemma AdminLoginGoesToDashboard(s: Session, status: int, body: JsValue, thrown: JsValue)
    requires Truthy(body)
    requires OptProp(UserData(body), "role") == Str("admin")
    ensures var e := SessionEffect(Run(s, DispatchLogin(Ok(status, body), thrown)), true);
      e.nav == Some("/dashboard") && |e.alerts| == 1 && e.alerts[0].Welcome? && e.resets
  {
    LoginOutcome(s, Ok(status, body), thrown);
    RunTwo(s, LoginPending, LoginSettledAction(LoginThunk(Ok(status, body), thrown)));
  }

  /**
   * When a refused login reaches the effect, it shows the same text the
   * catch block of the submit handler shows.
   */
  lemma EffectAgreesWithCatch(s: Session, reply: Reply, thrown: JsValue)
    requires LoginThunk(reply, thrown).RejectedWithValue?
    ensures SessionEffect(Run(s, DispatchLogin(reply, thrown)), true).alerts
      == [LoginFailed(ErrorText(UnwrapError(LoginThunk(reply, thrown))))]
  {
    RunTwo(s, LoginPending, LoginSettledAction(LoginThunk(reply, thrown)));
  }

  /** The page's component state. */
  class LoginPage {
    var username: string
    var password: string
    var rememberMe: bool
    var isManualLogin: bool

    constructor ()
      ensures username == "" && password == "" && !rememberMe && !isManualLogin
    {
      username, password, rememberMe, isManualLogin := "", "", false, false;
    }

    /** The mount effect: prefill both fields and tick remember-me from saved credentials. */
    method PrefillEffect(storage: LocalStorage)
      modifies this`username, this`password, this`rememberMe
      ensures Prefill(storage.items).Some? ==>
        (username, password) == Prefill(storage.items).value && rememberMe
      ensures Prefill(storage.items).None? ==>
        username == old(username) && password == old(password) && rememberMe == old(rememberMe)
    {
      var savedUsername := storage.GetItem(UsernameKey);
      var savedPassword := storage.GetItem(PasswordKey);
      if savedUsername.Some? && savedUsername.value != "" && savedPassword.Some? && savedPassword.value != "" {
        username := savedUsername.value;
        password := savedPassword.value;
        rememberMe := true;
      }
    }

    /** Writes or removes the saved credentials after a successful login. */
    method StoreCredentials(storage: LocalStorage)
      modifies storage
      ensures storage.items == Remember(old(storage.items), rememberMe, username, password)
    {
      if rememberMe {
        storage.SetItem(UsernameKey, username);
        storage.SetItem(PasswordKey, password);
      } else {
        storage.RemoveItem(UsernameKey);
        storage.RemoveItem(PasswordKey);
      }
    }

    /**
     * The submit handler, with the login reply as input. Empty fields only
     * warn; otherwise the login is dispatched, and its outcome either updates
     * the storage or shows the error and resets the session.
     */
    method HandleLogin(auth: AuthStore, storage: LocalStorage, reply: Reply, thrown: JsValue) returns (alert: Option<Alert>)
      modifies this`isManualLogin, auth, storage
      ensures username == "" || password == "" ==>
        && alert == Some(Warning(MissingCredentialsText))
        && auth.State() == old(auth.State())
        && storage.items == old(storage.items)
        && isManualLogin == old(isManualLogin)
      ensures username != "" && password != "" && reply.Ok? ==>
        && alert.None?
        && auth.State() == Run(old(auth.State()), DispatchLogin(reply, thrown))
        && storage.items == Remember(old(storage.items), rememberMe, username, password)
        && isManualLogin
      ensures username != "" && password != "" && reply.Failed? ==>
        && alert == Some(LoginFailed(ErrorText(UnwrapError(LoginThunk(reply, thrown)))))
        && auth.State() == Initial
        && storage.items == old(storage.items)
        && !isManualLogin
    {
      if username == "" || password == "" {
        return Some(Warning(MissingCredentialsText));
      }
      isManualLogin := true;
      ghost var s0 := auth.State();
      auth.Dispatch(Action.LoginPending);
      var settled := LoginThunk(reply, thrown);
      auth.Dispatch(LoginSettledAction(settled));
      RunTwo(s0, Action.LoginPending, LoginSettledAction(settled));
      if settled.Fulfilled? {
        StoreCredentials(storage);
        alert := None;
      } else {
        alert := Some(LoginFailed(ErrorText(UnwrapError(settled))));
        auth.Dispatch(Action.Reset);
        isManualLogin := false;
      }
    }

    /** The session effect, run on the store's current values. */
    method AuthEffect(auth: AuthStore) returns (nav: Option<string>, alerts: seq<Alert>)
      modifies this`isManualLogin, auth
      ensures nav == SessionEffect(old(auth.State()), old(isManualLogin)).nav
      ensures alerts == SessionEffect(old(auth.State()), old(isManualLogin)).alerts
      ensures SessionEffect(old(auth.State()), old(isManualLogin)).resets ==> auth.State() == Initial && !isManualLogin
      ensures !SessionEffect(old(auth.State()), old(isManualLogin)).resets ==>
        auth.State() == old(auth.State()) && isManualLogin == old(isManualLogin)
    {
      var isSuccess, isError, user, message, manual := auth.isSuccess, auth.isError, auth.user, auth.message, isManualLogin;
      ghost var effect := SessionEffect(auth.State(), manual);
      nav, alerts := None, [];
      if isSuccess && Truthy(user) {
        var userData := UserData(user);
        alerts := [Welcome(WelcomeText(user))];
        nav := RouteForRole(OptProp(userData, "role"));
        auth.Dispatch(Action.Reset);
        isManualLogin := false;
      }
      if isError && manual {
        alerts := alerts + [LoginFailed(ErrorText(message))];
        auth.Dispatch(Action.Reset);
        isManualLogin := false;
      }
      assert nav == effect.nav;
      assert alerts == effect.alerts;
    }
  }
}
