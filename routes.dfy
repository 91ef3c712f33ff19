/**
 * The route handlers of app/auth/routes.py as methods of one object holding
 * what they read and change: the browser's session map, the user records and
 * the logged-in identity. Each handler makes its conditional writes and
 * deletes in the order the source does, and is proved to produce exactly the
 * transition of its counterpart in AuthFlow, whose contract states what the
 * handler promises.
 */
module Routes {
  import opened Wrappers
  import Authy
  import opened AuthFlow

  class AuthRoutes {
    /** The application configuration the Authy adapter reads. */
    const config: Authy.Config
    /** The Flask session of one browser. */
    var session: Session
    /** The user table, keyed by username. */
    var users: map<string, User>
    /** Who Flask-Login has logged in, if anyone. */
    var login: Option<Identity>

    /** The object's fields as a value of AuthFlow's state. */
    function Snapshot(): State
      reads this
    {
      State(session, users, login)
    }

    /** A fresh browser: empty session, nobody logged in. */
    constructor (config: Authy.Config, users: map<string, User>)
      ensures this.config == config
      ensures Snapshot() == State(map[], users, None)
      ensures !Authenticated(Snapshot())
    {
      this.config := config;
      this.session := map[];
      this.users := users;
      this.login := None;
    }

    predicate IsAuthenticated()
      reads this
    {
      Authenticated(Snapshot())
    }

    method Login(form: Option<LoginForm>, next: Option<string>, netloc: string -> string)
      returns (out: Outcome)
      modifies this`session, this`login
      ensures Transition(Snapshot(), out) == LoginStep(old(Snapshot()), form, next, netloc)
    {
      if IsAuthenticated() {
        return Redirect(MainIndex);
      }
      if form.None? {
        return RenderForm;
      }
      var user := Lookup(Snapshot(), form.value.username);
      if user.None? || !form.value.passwordOk {
        return RedirectToLogin;
      }
      var nextPage := NextPage(next, netloc);
      if user.value.authyId.Some? {
        session := session[UsernameKey := Text(form.value.username)];
        return RedirectToCheck2fa(nextPage, RememberArg(form.value.rememberMe));
      }
      login := Some(Identity(form.value.username, form.value.rememberMe));
      return Redirect(nextPage);
    }

    method Enable2fa(submitted: bool, now: int, sign: Authy.Payload -> string) returns (out: Outcome)
      modifies this`session
      ensures Transition(Snapshot(), out) == Enable2faStep(old(Snapshot()), config, submitted, now, sign)
    {
      if !IsAuthenticated() {
        return LoginRequired;
      }
      if !submitted {
        return RenderForm;
      }
      var jwt := sign(Authy.RegistrationPayload(config, users[login.value.username].id, now));
      session := session[RegistrationJwtKey := Text(jwt)];
      return RenderRegistrationQr;
    }

    method Enable2faQrcode() returns (out: Outcome)
      modifies this`session
      ensures Transition(Snapshot(), out) == Enable2faQrcodeStep(old(Snapshot()))
    {
      if !IsAuthenticated() {
        return LoginRequired;
      }
      var jwt := if RegistrationJwtKey in session then Some(session[RegistrationJwtKey]) else None;
      if jwt.None? || jwt.value == Null || jwt.value.text == "" {
        return Abort(400);
      }
      session := session - {RegistrationJwtKey};
      return QrImage(Authy.QrUri(jwt.value.text));
    }

    method Enable2faPoll(resp: Authy.ProviderResponse<Authy.Registration>) returns (out: Outcome)
      modifies this`users
      ensures Transition(Snapshot(), out) == Enable2faPollStep(old(Snapshot()), resp)
    {
      if !IsAuthenticated() {
        return LoginRequired;
      }
      var registration := Authy.RegistrationStatus(resp);
      if registration.status == "completed" {
        if registration.authyId.None? {
          return ServerError;
        }
        var name := login.value.username;
        users := users[name := users[name].(authyId := registration.authyId)];
      }
      return Json(registration.status);
    }

    method Disable2fa(submitted: bool, resp: Authy.ProviderResponse<()>) returns (out: Outcome)
      modifies this`users
      ensures Transition(Snapshot(), out) == Disable2faStep(old(Snapshot()), submitted, resp)
    {
      if !IsAuthenticated() {
        return LoginRequired;
      }
      if !submitted {
        return RenderForm;
      }
      var name := login.value.username;
      if Authy.DeleteUser(resp) {
        users := users[name := users[name].(authyId := None)];
      }
      return RedirectToUserPage(name);
    }

    method Check2fa(nextArg: Option<string>, remoteAddr: string, resp: Authy.ProviderResponse<string>)
      returns (out: Outcome)
      modifies this`session
      ensures Transition(Snapshot(), out) == Check2faStep(old(Snapshot()), nextArg, remoteAddr, resp)
    {
      if UsernameKey !in session {
        return ServerError;
      }
      var username := session[UsernameKey];
      var user := if username.Text? then Lookup(Snapshot(), username.text) else None;
      if user.None? {
        return ServerError;
      }
      var request := Authy.PushRequestFor(user.value.authyId, username.text, remoteAddr);
      session := session[PushUuidKey := UuidValue(Authy.PushUuid(resp))];
      return RenderCheck2fa(nextArg, request);
    }

    method Check2faPoll(rememberArg: Option<string>, resp: Authy.ProviderResponse<string>)
      returns (out: Outcome)
      modifies this`session, this`login
      ensures Transition(Snapshot(), out) == Check2faPollStep(old(Snapshot()), rememberArg, resp)
    {
      if PushUuidKey !in session {
        return ServerError;
      }
      var pushStatus := Authy.PushStatus(resp);
      if pushStatus == "approved" {
        if UsernameKey !in session {
          return ServerError;
        }
        var username := session[UsernameKey];
        session := session - {UsernameKey};
        session := session - {PushUuidKey};
        var user := if username.Text? then Lookup(Snapshot(), username.text) else None;
        var remember := RememberFromArg(rememberArg);
        if user.None? {
          return ServerError;
        }
        login := Some(Identity(username.text, remember));
      }
      return Json(pushStatus);
    }
  }
}
