/**
 * The two-factor login and enrollment flow of app/auth/routes.py, as one
 * transition function per route handler. A state is the browser's session
 * map, the user records (keyed by username, the column the handlers look
 * users up by) and the logged-in identity with its remember flag. Each
 * function returns the new state and the handler's outcome; its ensures say
 * which session keys and which user fields change, which stay, and who is
 * logged in afterwards. The handlers in routes.dfy are proved to compute
 * exactly these transitions.
 */
module AuthFlow {
  import opened Wrappers
  import Authy

  // ---------------------------------------------------------------------
  // State
  // ---------------------------------------------------------------------

  /** The session keys the flow uses. */
  const UsernameKey: string := "username"
  const PushUuidKey: string := "authy_push_uuid"
  const RegistrationJwtKey: string := "registration_jwt"

  /** A session value: a string, or Python's None. */
  datatype SessionValue = Text(text: string) | Null

  type Session = map<string, SessionValue>

  /** A user record: its primary key and its optional Authy id. */
  datatype User = User(id: int, authyId: Option<Authy.AuthyId>)

  /** Who `login_user` logged in, and with which remember choice. */
  datatype Identity = Identity(username: string, remember: bool)

  datatype State = State(session: Session, users: map<string, User>, login: Option<Identity>)

  /** `current_user.is_authenticated`: a logged-in identity whose record exists. */
  predicate Authenticated(s: State) {
    s.login.Some? && s.login.value.username in s.users
  }

  function CurrentName(s: State): string
    requires Authenticated(s)
  {
    s.login.value.username
  }

  /** `User.query.filter_by(username=...).first()`. */
  function Lookup(s: State, username: string): Option<User> {
    if username in s.users then Some(s.users[username]) else None
  }

  /** `a` and `b` hold the same keys with the same values outside `keys`. */
  ghost predicate SameExcept(a: Session, b: Session, keys: set<string>) {
    forall k :: k !in keys ==> (k in a <==> k in b) && (k in a ==> a[k] == b[k])
  }

  /** The records of `a` and `b` agree for every user but `name`. */
  ghost predicate OtherUsersUnchanged(a: map<string, User>, b: map<string, User>, name: string) {
    a.Keys == b.Keys && forall n :: n in a && n != name ==> a[n] == b[n]
  }

  // ---------------------------------------------------------------------
  // Outcomes
  // ---------------------------------------------------------------------

  /** Where a login redirect goes: the index page or a caller-supplied URL. */
  datatype Target = MainIndex | Url(url: string)

  /** The response a handler produces, without its rendering. */
  datatype Outcome =
    | LoginRequired                                  // `@login_required` sent the client to log in
    | RenderForm                                     // the handler's form, not (validly) submitted
    | Redirect(target: Target)
    | RedirectToLogin                                // invalid username or password
    | RedirectToCheck2fa(next: Target, remember: string)
    | RedirectToUserPage(username: string)
    | RenderRegistrationQr                           // the page that shows the QR code
    | RenderCheck2fa(nextArg: Option<string>, push: Authy.PushRequest)
    | QrImage(uri: string)                           // the SVG encoding `uri`
    | Abort(code: int)
    | Json(status: string)
    | ServerError                                    // an uncaught KeyError or AttributeError

  datatype Transition = Transition(after: State, out: Outcome)

  /** The submitted login form; `passwordOk` is the result of `user.check_password`. */
  datatype LoginForm = LoginForm(username: string, passwordOk: bool, rememberMe: bool)

  // ---------------------------------------------------------------------
  // login
  // ---------------------------------------------------------------------

  /**
   * The redirect target after a successful password check. `netloc` stands
   * for `url_parse(next).netloc`.
   */
  function NextPage(next: Option<string>, netloc: string -> string): (t: Target)
    ensures t.Url? <==> next.Some? && next.value != "" && netloc(next.value) == ""
    ensures t.Url? ==> t.url == next.value
  {
    if next.None? || next.value == "" || netloc(next.value) != "" then MainIndex else Url(next.value)
  }

  /** How the login form's remember choice is passed on to the poll. */
  function RememberArg(rememberMe: bool): (arg: string)
    ensures arg == "1" || arg == "0"
    ensures arg == "1" <==> rememberMe
  {
    if rememberMe then "1" else "0"
  }

  /** `request.args.get('remember', '0') == '1'`. */
  function RememberFromArg(arg: Option<string>): (remember: bool)
    ensures remember <==> arg == Some("1")
  {
    arg.GetOr("0") == "1"
  }

  lemma RememberRoundTrip(rememberMe: bool)
    ensures RememberFromArg(Some(RememberArg(rememberMe))) == rememberMe
    ensures !RememberFromArg(None)
  {
  }

  function LoginStep(s: State, form: Option<LoginForm>, next: Option<string>,
                     netloc: string -> string): (t: Transition)
    // an authenticated user, or no valid form: nothing happens
    ensures Authenticated(s) ==> t == Transition(s, Redirect(MainIndex))
    ensures !Authenticated(s) && form.None? ==> t == Transition(s, RenderForm)
    // an unknown user or a wrong password: nothing written, nobody logged in
    ensures !Authenticated(s) && form.Some? && Lookup(s, form.value.username).None?
            ==> t == Transition(s, RedirectToLogin)
    ensures !Authenticated(s) && form.Some? && !form.value.passwordOk
            ==> t == Transition(s, RedirectToLogin)
    // the user has 2FA: remember who is pending, log nobody in
    ensures !Authenticated(s) && form.Some? && form.value.passwordOk && form.value.username in s.users
            && s.users[form.value.username].authyId.Some?
            ==> && UsernameKey in t.after.session
                && t.after.session[UsernameKey] == Text(form.value.username)
                && SameExcept(s.session, t.after.session, {UsernameKey})
                && t.after.users == s.users && t.after.login == s.login
                && !Authenticated(t.after)
                && t.out == RedirectToCheck2fa(NextPage(next, netloc), RememberArg(form.value.rememberMe))
    // the user has no 2FA: logged in at once, session untouched
    ensures !Authenticated(s) && form.Some? && form.value.passwordOk && form.value.username in s.users
            && s.users[form.value.username].authyId.None?
            ==> && t.after.session == s.session && t.after.users == s.users
                && t.after.login == Some(Identity(form.value.username, form.value.rememberMe))
                && Authenticated(t.after)
                && t.out == Redirect(NextPage(next, netloc))
  {
    if Authenticated(s) then Transition(s, Redirect(MainIndex))
    else if form.None? then Transition(s, RenderForm)
    else
      var f := form.value;
      var user := Lookup(s, f.username);
      if user.None? || !f.passwordOk then Transition(s, RedirectToLogin)
      else
        var target := NextPage(next, netloc);
        if user.value.authyId.Some? then
          Transition(s.(session := s.session[UsernameKey := Text(f.username)]),
                     RedirectToCheck2fa(target, RememberArg(f.rememberMe)))
        else
          Transition(s.(login := Some(Identity(f.username, f.rememberMe))), Redirect(target))
  }

  // ---------------------------------------------------------------------
  // enable_2fa, enable_2fa_qrcode, enable_2fa_poll
  // ---------------------------------------------------------------------

  function Enable2faStep(s: State, config: Authy.Config, submitted: bool, now: int,
                         sign: Authy.Payload -> string): (t: Transition)
    ensures !Authenticated(s) ==> t == Transition(s, LoginRequired)
    ensures Authenticated(s) && !submitted ==> t == Transition(s, RenderForm)
    ensures Authenticated(s) && submitted
            ==> && RegistrationJwtKey in t.after.session
                && t.after.session[RegistrationJwtKey]
                   == Text(sign(Authy.RegistrationPayload(config, s.users[CurrentName(s)].id, now)))
                && SameExcept(s.session, t.after.session, {RegistrationJwtKey})
                && t.after.users == s.users && t.after.login == s.login
                && t.out == RenderRegistrationQr
  {
    if !Authenticated(s) then Transition(s, LoginRequired)
    else if !submitted then Transition(s, RenderForm)
    else
      var jwt := sign(Authy.RegistrationPayload(config, s.users[CurrentName(s)].id, now));
      Transition(s.(session := s.session[RegistrationJwtKey := Text(jwt)]), RenderRegistrationQr)
  }

  /** The token `session.get('registration_jwt')` yields when it is truthy. */
  function PendingJwt(session: Session): (jwt: Option<string>)
    ensures jwt.Some? <==> RegistrationJwtKey in session && session[RegistrationJwtKey].Text?
                           && session[RegistrationJwtKey].text != ""
    ensures jwt.Some? ==> session[RegistrationJwtKey] == Text(jwt.value)
  {
    if RegistrationJwtKey in session && session[RegistrationJwtKey].Text?
       && session[RegistrationJwtKey].text != ""
    then Some(session[RegistrationJwtKey].text) else None
  }

  function Enable2faQrcodeStep(s: State): (t: Transition)
    ensures !Authenticated(s) ==> t == Transition(s, LoginRequired)
    // no pending token: 400, nothing changes
    ensures Authenticated(s) && PendingJwt(s.session).None? ==> t == Transition(s, Abort(400))
    // a pending token: it is removed, and its QR code returned
    ensures Authenticated(s) && PendingJwt(s.session).Some?
            ==> && RegistrationJwtKey !in t.after.session
                && SameExcept(s.session, t.after.session, {RegistrationJwtKey})
                && t.after.users == s.users && t.after.login == s.login
                && t.out == QrImage(Authy.QrUri(PendingJwt(s.session).value))
  {
    if !Authenticated(s) then Transition(s, LoginRequired)
    else
      var jwt := PendingJwt(s.session);
      if jwt.None? then Transition(s, Abort(400))
      else Transition(s.(session := s.session - {RegistrationJwtKey}), QrImage(Authy.QrUri(jwt.value)))
  }

  function Enable2faPollStep(s: State, resp: Authy.ProviderResponse<Authy.Registration>): (t: Transition)
    ensures !Authenticated(s) ==> t == Transition(s, LoginRequired)
    // any status but "completed": echoed, nothing changes
    ensures Authenticated(s) && Authy.RegistrationStatus(resp).status != "completed"
            ==> t == Transition(s, Json(Authy.RegistrationStatus(resp).status))
    // "completed" with an id: the current user's authy_id becomes that id
    ensures Authenticated(s) && Authy.RegistrationStatus(resp).status == "completed"
            && Authy.RegistrationStatus(resp).authyId.Some?
            ==> && CurrentName(s) in t.after.users
                && t.after.users[CurrentName(s)].authyId == Authy.RegistrationStatus(resp).authyId
                && t.after.users[CurrentName(s)].id == s.users[CurrentName(s)].id
                && OtherUsersUnchanged(s.users, t.after.users, CurrentName(s))
                && t.after.session == s.session && t.after.login == s.login
                && t.out == Json("completed")
    // "completed" without an id: KeyError before anything is written
    ensures Authenticated(s) && Authy.RegistrationStatus(resp).status == "completed"
            && Authy.RegistrationStatus(resp).authyId.None?
            ==> t == Transition(s, ServerError)
  {
    if !Authenticated(s) then Transition(s, LoginRequired)
    else
      var registration := Authy.RegistrationStatus(resp);
      if registration.status == "completed" then
        if registration.authyId.None? then Transition(s, ServerError)
        else
          var name := CurrentName(s);
          var users := s.users[name := s.users[name].(authyId := registration.authyId)];
          Transition(s.(users := users), Json(registration.status))
      else Transition(s, Json(registration.status))
  }

  // ---------------------------------------------------------------------
  // disable_2fa
  // ---------------------------------------------------------------------

  function Disable2faStep(s: State, submitted: bool, resp: Authy.ProviderResponse<()>): (t: Transition)
    ensures !Authenticated(s) ==> t == Transition(s, LoginRequired)
    ensures Authenticated(s) && !submitted ==> t == Transition(s, RenderForm)
    ensures Authenticated(s) && submitted ==> t.out == RedirectToUserPage(CurrentName(s))
    // the provider refused: nothing changes
    ensures Authenticated(s) && submitted && !resp.ok ==> t.after == s
    // the provider deleted the user: authy_id is cleared and nothing else changes
    ensures Authenticated(s) && submitted && resp.ok
            ==> && CurrentName(s) in t.after.users
                && t.after.users[CurrentName(s)].authyId.None?
                && t.after.users[CurrentName(s)].id == s.users[CurrentName(s)].id
                && OtherUsersUnchanged(s.users, t.after.users, CurrentName(s))
                && t.after.session == s.session && t.after.login == s.login
  {
    if !Authenticated(s) then Transition(s, LoginRequired)
    else if !submitted then Transition(s, RenderForm)
    else
      var name := CurrentName(s);
      if !Authy.DeleteUser(resp) then Transition(s, RedirectToUserPage(name))
      else
        var users := s.users[name := s.users[name].(authyId := None)];
        Transition(s.(users := users), RedirectToUserPage(name))
  }

  // ---------------------------------------------------------------------
  // check_2fa, check_2fa_poll
  // ---------------------------------------------------------------------

  /** The user `session['username']` names, when the key is there and the user exists. */
  function PendingUser(session: Session, users: map<string, User>): (name: Option<string>)
    ensures name.Some? <==> UsernameKey in session && session[UsernameKey].Text?
                            && session[UsernameKey].text in users
    ensures name.Some? ==> session[UsernameKey] == Text(name.value) && name.value in users
  {
    if UsernameKey in session && session[UsernameKey].Text? && session[UsernameKey].text in users
    then Some(session[UsernameKey].text) else None
  }

  /** How a push uuid (or None) is stored in the session. */
  function UuidValue(uuid: Option<string>): SessionValue {
    if uuid.Some? then Text(uuid.value) else Null
  }

  function Check2faStep(s: State, nextArg: Option<string>, remoteAddr: string,
                        resp: Authy.ProviderResponse<string>): (t: Transition)
    // no pending username, or no such user: an exception, nothing written
    ensures PendingUser(s.session, s.users).None? ==> t == Transition(s, ServerError)
    // otherwise a push is sent to that user and its uuid (maybe None) is stored
    ensures PendingUser(s.session, s.users).Some?
            ==> var name := PendingUser(s.session, s.users).value;
                && PushUuidKey in t.after.session
                && t.after.session[PushUuidKey] == UuidValue(Authy.PushUuid(resp))
                && (t.after.session[PushUuidKey] == Null <==> !resp.ok)
                && SameExcept(s.session, t.after.session, {PushUuidKey})
                && t.after.users == s.users && t.after.login == s.login
                && t.out == RenderCheck2fa(nextArg, Authy.PushRequestFor(s.users[name].authyId, name, remoteAddr))
  {
    var name := PendingUser(s.session, s.users);
    if name.None? then Transition(s, ServerError)
    else
      var user := s.users[name.value];
      var request := Authy.PushRequestFor(user.authyId, name.value, remoteAddr);
      var uuid := Authy.PushUuid(resp);
      Transition(s.(session := s.session[PushUuidKey := UuidValue(uuid)]), RenderCheck2fa(nextArg, request))
  }

  function Check2faPollStep(s: State, rememberArg: Option<string>,
                            resp: Authy.ProviderResponse<string>): (t: Transition)
    // polling without a pushed request: an exception, nothing changes
    ensures PushUuidKey !in s.session ==> t == Transition(s, ServerError)
    // any status but "approved": echoed, nothing changes
    ensures PushUuidKey in s.session && Authy.PushStatus(resp) != "approved"
            ==> t == Transition(s, Json(Authy.PushStatus(resp)))
    ensures PushUuidKey in s.session && Authy.PushStatus(resp) == "approved" && UsernameKey !in s.session
            ==> t == Transition(s, ServerError)
    // "approved": both keys go, and the pending user is logged in
    ensures PushUuidKey in s.session && Authy.PushStatus(resp) == "approved" && UsernameKey in s.session
            ==> && UsernameKey !in t.after.session && PushUuidKey !in t.after.session
                && SameExcept(s.session, t.after.session, {UsernameKey, PushUuidKey})
                && t.after.users == s.users
    ensures PushUuidKey in s.session && Authy.PushStatus(resp) == "approved"
            && PendingUser(s.session, s.users).Some?
            ==> && t.after.login == Some(Identity(PendingUser(s.session, s.users).value, RememberFromArg(rememberArg)))
                && Authenticated(t.after)
                && t.out == Json("approved")
    // "approved" for a user that no longer exists: login_user fails after the deletions
    ensures PushUuidKey in s.session && Authy.PushStatus(resp) == "approved" && UsernameKey in s.session
            && PendingUser(s.session, s.users).None?
            ==> t.after.login == s.login && t.out == ServerError
  {
    if PushUuidKey !in s.session then Transition(s, ServerError)
    else
      var status := Authy.PushStatus(resp);
      if status != "approved" then Transition(s, Json(status))
      else if UsernameKey !in s.session then Transition(s, ServerError)
      else
        var name := PendingUser(s.session, s.users);
        var session := s.session - {UsernameKey, PushUuidKey};
        if name.None? then Transition(s.(session := session), ServerError)
        else
          Transition(State(session, s.users, Some(Identity(name.value, RememberFromArg(rememberArg)))),
                     Json(status))
  }
}
