/** The login page (frontend/src/components/Login.jsx): its form, what a
    successful login writes to storage and where it goes next, and the
    request interceptor that attaches the stored token to every request. */
module Login {
  import opened Common
  import App

  /** `roleRedirect`. */
  const ROLE_REDIRECT: map<string, string> := map[
    "Admin" := "/admin-dashboard",
    "Manager" := "/manager-dashboard",
    "Employee" := "/employee-dashboard"]

  /** `navigate(roleRedirect[user.role] || "/")`: a known role's dashboard,
      the login page for any other role. */
  function NavigationTarget(role: string): (path: string)
    ensures role in ROLE_REDIRECT ==> path == ROLE_REDIRECT[role]
    ensures role !in ROLE_REDIRECT ==> path == "/"
    ensures role == "Admin" ==> path == "/admin-dashboard"
    ensures role == "Manager" ==> path == "/manager-dashboard"
    ensures role == "Employee" ==> path == "/employee-dashboard"
  {
    if role in ROLE_REDIRECT then ROLE_REDIRECT[role] else "/"
  }

  /** The login page and the router shell send every role to the same dashboard. */
  lemma RoleMapsAgree(role: string)
    ensures App.RedirectPath(Str(role)).Some? <==> role in ROLE_REDIRECT
    ensures role in ROLE_REDIRECT ==> App.RedirectPath(Str(role)) == Some(NavigationTarget(role))
  {
  }

  /** The user of a login reply, as the page reads it. */
  datatype LoggedInUser = LoggedInUser(id: Id, name: string, email: string, role: string)

  function UserJson(u: LoggedInUser): (v: Json)
    ensures Get(v, "role") == Str(u.role) && Get(v, "name") == Str(u.name)
  {
    Obj(map["id" := Num(u.id), "name" := Str(u.name), "email" := Str(u.email), "role" := Str(u.role)])
  }

  /** The browser state the login page touches. */
  class Browser {
    var storage: App.Storage
    var location: string

    constructor (storage: App.Storage)
      ensures this.storage == storage && location == "/"
    {
      this.storage := storage;
      location := "/";
    }

    /** The success path of `handleLogin`: store the token and the user (the
        user as JSON text, which parses back to itself), then go to the role's
        dashboard. */
    method HandleLogin(token: string, user: LoggedInUser)
      modifies this
      ensures storage == App.Storage(Some(token), Some(App.Parsed(UserJson(user))))
      ensures location == NavigationTarget(user.role)
    {
      storage := App.Storage(Some(token), Some(App.Parsed(UserJson(user))));
      location := NavigationTarget(user.role);
    }
  }

  /** The header value the interceptor attaches, if any. */
  function Authorization(s: App.Storage): (h: Option<string>)
    ensures h.Some? <==> App.HasToken(s)
    ensures h.Some? ==> h.value == "Bearer " + s.token.value
  {
    if App.HasToken(s) then Some("Bearer " + s.token.value) else None
  }

  /** An outgoing request's configuration; the interceptor edits its headers. */
  class RequestConfig {
    var headers: map<string, string>

    constructor (headers: map<string, string>)
      ensures this.headers == headers
    {
      this.headers := headers;
    }
  }

  /** The request interceptor: with a stored token, `Authorization` becomes
      `Bearer <token>`; otherwise the configuration is returned untouched.
      The same object is handed back. */
  method Intercept(config: RequestConfig, s: App.Storage) returns (out: RequestConfig)
    modifies config
    ensures out == config
    ensures App.HasToken(s) ==> config.headers == old(config.headers)["Authorization" := "Bearer " + s.token.value]
    ensures !App.HasToken(s) ==> config.headers == old(config.headers)
  {
    var h := Authorization(s);
    if h.Some? {
      config.headers := config.headers["Authorization" := h.value];
    }
    out := config;
  }

  /** The login form's state. */
  class LoginForm {
    var formData: map<string, string>

    constructor ()
      ensures formData == map["email" := "", "password" := ""]
    {
      formData := map["email" := "", "password" := ""];
    }

    /** `handleChange`: only the named field changes. */
    method HandleChange(name: string, value: string)
      modifies this
      ensures formData == old(formData)[name := value]
      ensures forall k | k in old(formData) && k != name :: k in formData && formData[k] == old(formData)[k]
    {
      formData := formData[name := value];
    }
  }
}
