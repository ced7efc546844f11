/**
 * The admin login route: a request body with a password is checked against
 * the configured admin password and, on success, a session cookie is set.
 */
module AdminLogin {
  import opened Common
  import Admin

  /** The `password` member of the JSON body: absent, a string, or some other
      JSON value (which is never equal to the configured string). */
  datatype PasswordField = Missing | Text(s: string) | NonString(truthy: bool)

  /** `request.json()` either threw (malformed body, or a body that cannot be
      destructured) or gave the password member. */
  datatype LoginBody = Unreadable | Readable(password: PasswordField)

  /** `!password` in JavaScript. */
  predicate Falsy(p: PasswordField)
  {
    p.Missing? || p == Text("") || p == NonString(false)
  }

  datatype LoginReply = LoginReply(status: nat, error: Option<string>, session: Option<Admin.Cookie>)

  const PasswordRequired: string := "Password required"
  const InvalidPassword: string := "Invalid password"
  const LoginFailed: string := "Login failed"

  /** `POST`: 400 for a missing or empty password, 401 when it does not
      verify (including when no admin password is configured), 200 with the
      new session cookie otherwise, and 500 for anything thrown on the way
      (`sessionThrows` says whether setting the cookie threw). */
  function Login(body: LoginBody, adminPassword: Option<string>, uuid: seq<Admin.CodeUnit>, now: nat,
                 nodeEnv: Option<string>, sessionThrows: bool): (r: LoginReply)
    ensures r.status == 400 <==> body.Readable? && Falsy(body.password)
    ensures r.status == 400 ==> r.error == Some(PasswordRequired)
    ensures r.status == 401 <==> (body.Readable? && !Falsy(body.password) &&
      !(body.password.Text? && Admin.VerifyAdminPassword(body.password.s, adminPassword)))
    ensures r.status == 401 ==> r.error == Some(InvalidPassword)
    ensures r.status == 200 <==> (body.Readable? && body.password.Text? && body.password.s != "" &&
      Truthy(adminPassword) && body.password.s == adminPassword.value && !sessionThrows)
    ensures r.status == 200 ==> r.error.None? && r.session == Some(Admin.SessionCookie(uuid, now, nodeEnv))
    ensures r.status != 200 ==> r.session.None?
    ensures r.status == 500 <==> body.Unreadable? || (r.status != 400 && r.status != 401 && sessionThrows)
    ensures r.status == 500 ==> r.error == Some(LoginFailed)
    ensures r.status in {200, 400, 401, 500}
  {
    match body
    case Unreadable => LoginReply(500, Some(LoginFailed), None)
    case Readable(password) =>
      if Falsy(password) then LoginReply(400, Some(PasswordRequired), None)
      else if !(password.Text? && Admin.VerifyAdminPassword(password.s, adminPassword)) then
        LoginReply(401, Some(InvalidPassword), None)
      else if sessionThrows then LoginReply(500, Some(LoginFailed), None)
      else LoginReply(200, None, Some(Admin.SessionCookie(uuid, now, nodeEnv)))
  }

  /** Without a configured admin password no request ever logs in. */
  lemma NoAdminPasswordNoLogin(body: LoginBody, uuid: seq<Admin.CodeUnit>, now: nat, nodeEnv: Option<string>,
                               sessionThrows: bool)
    ensures Login(body, None, uuid, now, nodeEnv, sessionThrows).status != 200
    ensures Login(body, Some(""), uuid, now, nodeEnv, sessionThrows).status != 200
  {
  }

  /** A successful login leaves a jar in which the admin session verifies. */
  lemma LoginGrantsSession(body: LoginBody, adminPassword: Option<string>, uuid: seq<Admin.CodeUnit>, now: nat,
                           nodeEnv: Option<string>, jar: map<string, string>)
    requires Login(body, adminPassword, uuid, now, nodeEnv, false).status == 200
    ensures Admin.HasAdminSession(Admin.SetCookie(jar, Login(body, adminPassword, uuid, now, nodeEnv, false).session.value))
  {
    Admin.SessionLifecycle(jar, uuid, now, nodeEnv);
  }
}
