/** POST of app/api/auth/login/route.ts: the demo credential check and the
    session cookie it sets. */
module LoginRoute {
  import opened Wrappers
  import opened Js
  import Middleware

  const DefaultEmail := "demo@factory.com"
  const DefaultPassword := "demo1234"
  const InvalidCredentials := "Invalid credentials"
  const SessionCookie := "session"
  const SessionValue := "demo-session"
  /** 60 * 60 * 8 seconds. */
  const EightHours := 28800

  /** The environment variables the handler reads. */
  datatype Env = Env(demoEmail: Option<string>, demoPassword: Option<string>, nodeEnv: Option<string>)

  /** `res.cookies.set("session", "demo-session", {...})` */
  datatype Cookie = Cookie(
    name: string,
    value: string,
    httpOnly: bool,
    sameSite: string,
    secure: bool,
    path: string,
    maxAge: int)

  /** 401 with an error, 200 with the cookie, or the 500 that destructuring a null body causes. */
  datatype LoginResponse = Unauthorized(error: string) | LoggedIn(cookie: Cookie) | Crash

  /** `value || fallback` on an environment variable. */
  function OrDefault(v: Option<string>, fallback: string): (r: string)
    ensures v.Some? && v.value != "" ==> r == v.value
    ensures v.None? || v.value == "" ==> r == fallback
  {
    if v.Some? && v.value != "" then v.value else fallback
  }

  function DemoEmail(env: Env): string {
    OrDefault(env.demoEmail, DefaultEmail)
  }

  function DemoPassword(env: Env): string {
    OrDefault(env.demoPassword, DefaultPassword)
  }

  /** The handler for a parsed body. */
  function Login(body: Json, env: Env): (r: LoginResponse)
    ensures r.Crash? <==> body == JNull
    ensures r.Unauthorized? ==> r.error == InvalidCredentials
    ensures r.LoggedIn? <==>
      body != JNull
      && Member(body, "email") == Some(JStr(DemoEmail(env)))
      && Member(body, "password") == Some(JStr(DemoPassword(env)))
    ensures r.LoggedIn? ==>
      && r.cookie.name == SessionCookie && r.cookie.value == SessionValue
      && r.cookie.httpOnly && r.cookie.sameSite == "lax" && r.cookie.path == "/"
      && r.cookie.maxAge == 8 * 60 * 60
      && (r.cookie.secure <==> env.nodeEnv == Some("production"))
  {
    if body == JNull then Crash
    else if Member(body, "email") != Some(JStr(DemoEmail(env)))
         || Member(body, "password") != Some(JStr(DemoPassword(env))) then
      Unauthorized(InvalidCredentials)
    else
      LoggedIn(Cookie(SessionCookie, SessionValue, true, "lax", env.nodeEnv == Some("production"), "/", EightHours))
  }

  /** With the variables unset or empty, the defaults log in and anything else is refused. */
  lemma DefaultCredentials(env: Env, email: string, password: string)
    requires env.demoEmail.None? || env.demoEmail == Some("")
    requires env.demoPassword.None? || env.demoPassword == Some("")
    ensures Login(JObj(map["email" := JStr(email), "password" := JStr(password)]), env).LoggedIn? <==>
      email == DefaultEmail && password == DefaultPassword
  {
    var body := JObj(map["email" := JStr(email), "password" := JStr(password)]);
    assert Member(body, "email") == Some(JStr(email));
    assert Member(body, "password") == Some(JStr(password));
  }

  /** A password sent as a number never matches: the comparison is strict. */
  lemma NumericPasswordRefused(env: Env, email: Json, n: real)
    ensures Login(JObj(map["email" := email, "password" := JNum(n)]), env) == Unauthorized(InvalidCredentials)
  {
    assert Member(JObj(map["email" := email, "password" := JNum(n)]), "password") == Some(JNum(n));
  }

  /** The cookie set on login is a session the middleware lets through everywhere. */
  lemma LoginCookieIsASession(body: Json, env: Env, pathname: string)
    requires Login(body, env).LoggedIn?
    ensures Middleware.Decide(pathname, Some(Login(body, env).cookie.value)) == Middleware.Next
  {
    Middleware.SessionNeverRedirected(pathname, Some(Login(body, env).cookie.value));
  }
}
