/**
 * Properties of the flow that span several requests: the registration token
 * is good for one QR code, polls that see no decision change nothing, a
 * pending login is consumed by its approval, and the full enrollment and
 * two-factor login sequences end in the states the handlers promise.
 */
module AuthScenarios {
  import opened Wrappers
  import Authy
  import opened AuthFlow

  // ---------------------------------------------------------------------
  // Enrollment
  // ---------------------------------------------------------------------

  /** The token in the session yields one QR code; a request right after it aborts. */
  lemma QrCodeSingleUse(s: State)
    requires Authenticated(s) && PendingJwt(s.session).Some?
    ensures var first := Enable2faQrcodeStep(s);
            && first.out == QrImage(Authy.QrUri(PendingJwt(s.session).value))
            && Enable2faQrcodeStep(first.after) == Transition(first.after, Abort(400))
  {
  }

  /** Enabling stores a token whose QR code is the one the next request returns. */
  lemma EnableThenQrCode(s: State, config: Authy.Config, now: int, sign: Authy.Payload -> string)
    requires Authenticated(s)
    ensures var jwt := sign(Authy.RegistrationPayload(config, s.users[CurrentName(s)].id, now));
            var qr := Enable2faQrcodeStep(Enable2faStep(s, config, true, now, sign).after);
            && (jwt != "" ==> qr.out == QrImage(Authy.QrUri(jwt)) && RegistrationJwtKey !in qr.after.session)
            && (jwt == "" ==> qr.out == Abort(400))
  {
  }

  /** A registration poll that is not "completed" can be repeated with no effect. */
  lemma RegistrationPollIdempotent(s: State, resp: Authy.ProviderResponse<Authy.Registration>)
    requires Authenticated(s) && Authy.RegistrationStatus(resp).status != "completed"
    ensures var first := Enable2faPollStep(s, resp);
            && first.after == s
            && Enable2faPollStep(first.after, resp) == first
  {
  }

  /** A provider failure during enrollment reads as "pending" and touches no user record. */
  lemma RegistrationPollProviderFailure(s: State, resp: Authy.ProviderResponse<Authy.Registration>)
    requires Authenticated(s) && !resp.ok
    ensures Enable2faPollStep(s, resp) == Transition(s, Json("pending"))
  {
  }

  /**
   * Enabling, fetching the QR code and a "completed" poll leave the user with
   * the provider's id, so the next password login for that user asks for a push.
   */
  lemma EnrollmentEnablesSecondFactor(s: State, config: Authy.Config, now: int,
                                      sign: Authy.Payload -> string,
                                      resp: Authy.ProviderResponse<Authy.Registration>,
                                      later: State, form: LoginForm, next: Option<string>,
                                      netloc: string -> string)
    requires Authenticated(s)
    requires resp.ok && resp.content.status == "completed" && resp.content.authyId.Some?
    requires var enrolled := Enable2faPollStep(Enable2faQrcodeStep(Enable2faStep(s, config, true, now, sign).after).after, resp).after;
             later.users == enrolled.users && !Authenticated(later)
    requires form.username == CurrentName(s) && form.passwordOk
    ensures later.users[CurrentName(s)].authyId == resp.content.authyId
    ensures LoginStep(later, Some(form), next, netloc).out.RedirectToCheck2fa?
    ensures !Authenticated(LoginStep(later, Some(form), next, netloc).after)
  {
    var name := CurrentName(s);
    var t1 := Enable2faStep(s, config, true, now, sign);
    var t2 := Enable2faQrcodeStep(t1.after);
    assert Authenticated(t2.after) && CurrentName(t2.after) == name;
    var t3 := Enable2faPollStep(t2.after, resp);
    assert t3.after.users[name].authyId == resp.content.authyId;
  }

  /** Disabling with the provider's confirmation lets the next login skip the push. */
  lemma DisableRestoresDirectLogin(s: State, resp: Authy.ProviderResponse<()>,
                                   later: State, form: LoginForm, next: Option<string>,
                                   netloc: string -> string)
    requires Authenticated(s) && resp.ok
    requires later.users == Disable2faStep(s, true, resp).after.users && !Authenticated(later)
    requires form.username == CurrentName(s) && form.passwordOk
    ensures LoginStep(later, Some(form), next, netloc).after.login == Some(Identity(form.username, form.rememberMe))
  {
  }

  // ---------------------------------------------------------------------
  // Two-factor login
  // ---------------------------------------------------------------------

  /** The state after the client polls check_2fa_poll once per response, in order. */
  function PollAll(s: State, rememberArg: Option<string>, resps: seq<Authy.ProviderResponse<string>>): State
    decreases |resps|
  {
    if resps == [] then s
    else PollAll(Check2faPollStep(s, rememberArg, resps[0]).after, rememberArg, resps[1..])
  }

  /** Any number of polls that are not approved leave everything as it was. */
  lemma {:induction false} UndecidedPollsChangeNothing(s: State, rememberArg: Option<string>,
                                                      resps: seq<Authy.ProviderResponse<string>>)
    requires forall i :: 0 <= i < |resps| ==> Authy.PushStatus(resps[i]) != "approved"
    ensures PollAll(s, rememberArg, resps) == s
    decreases |resps|
  {
    if resps != [] {
      assert Check2faPollStep(s, rememberArg, resps[0]).after == s;
      UndecidedPollsChangeNothing(s, rememberArg, resps[1..]);
    }
  }

  /**
   * An approval consumes the pending login: the user is logged in once, and
   * a repeated poll finds no push uuid and fails without changing anything.
   */
  lemma ApprovalConsumesPendingLogin(s: State, rememberArg: Option<string>,
                                     approved: Authy.ProviderResponse<string>,
                                     again: Authy.ProviderResponse<string>)
    requires PushUuidKey in s.session && PendingUser(s.session, s.users).Some?
    requires Authy.PushStatus(approved) == "approved"
    ensures var first := Check2faPollStep(s, rememberArg, approved);
            && first.after.login == Some(Identity(PendingUser(s.session, s.users).value, RememberFromArg(rememberArg)))
            && Check2faPollStep(first.after, rememberArg, again) == Transition(first.after, ServerError)
  {
  }

  /**
   * A push uuid left in the session by an earlier attempt survives a new
   * password login, because login writes only `username`. A poll right after
   * that login checks the old push, and its approval logs in the new user.
   */
  lemma StalePushApprovesNewLogin(s: State, form: LoginForm, next: Option<string>,
                                  netloc: string -> string, rememberArg: Option<string>,
                                  approved: Authy.ProviderResponse<string>)
    requires !Authenticated(s) && PushUuidKey in s.session
    requires form.passwordOk && form.username in s.users && s.users[form.username].authyId.Some?
    requires Authy.PushStatus(approved) == "approved"
    ensures var loggedIn := LoginStep(s, Some(form), next, netloc);
            && PushUuidKey in loggedIn.after.session
            && loggedIn.after.session[PushUuidKey] == s.session[PushUuidKey]
            && Check2faPollStep(loggedIn.after, rememberArg, approved).after.login
               == Some(Identity(form.username, RememberFromArg(rememberArg)))
  {
    LoginLeavesUserPending(s, form, next, netloc);
  }

  /** A concrete case: the push of an attempt as "a" logs in "b". */
  lemma StalePushExample(netloc: string -> string)
    ensures var s := State(map[PushUuidKey := Text("uuid-of-a")],
                           map["a" := User(1, Some(11)), "b" := User(2, Some(22))], None);
            var loggedIn := LoginStep(s, Some(LoginForm("b", true, false)), None, netloc);
            Check2faPollStep(loggedIn.after, None, Authy.ProviderResponse(true, "approved")).after.login
              == Some(Identity("b", false))
  {
    var s := State(map[PushUuidKey := Text("uuid-of-a")],
                   map["a" := User(1, Some(11)), "b" := User(2, Some(22))], None);
    StalePushApprovesNewLogin(s, LoginForm("b", true, false), None, netloc, None,
                              Authy.ProviderResponse(true, "approved"));
  }

  /** A password login for a user with an Authy id leaves that user pending. */
  lemma LoginLeavesUserPending(s: State, form: LoginForm, next: Option<string>, netloc: string -> string)
    requires !Authenticated(s)
    requires form.passwordOk && form.username in s.users && s.users[form.username].authyId.Some?
    ensures var t := LoginStep(s, Some(form), next, netloc);
            && PendingUser(t.after.session, t.after.users) == Some(form.username)
            && t.after.users == s.users && t.after.login == s.login
            && t.out == RedirectToCheck2fa(NextPage(next, netloc), RememberArg(form.rememberMe))
  {
  }

  /** Sending the push keeps the pending user and records a push uuid entry. */
  lemma PushKeepsUserPending(s: State, nextArg: Option<string>, remoteAddr: string,
                             resp: Authy.ProviderResponse<string>)
    requires PendingUser(s.session, s.users).Some?
    ensures var t := Check2faStep(s, nextArg, remoteAddr, resp);
            && PendingUser(t.after.session, t.after.users) == PendingUser(s.session, s.users)
            && PushUuidKey in t.after.session
            && t.after.users == s.users && t.after.login == s.login
            && t.out.RenderCheck2fa? && t.out.push.secondsToExpire == 120
  {
    var t := Check2faStep(s, nextArg, remoteAddr, resp);
    assert t.after.session[UsernameKey] == s.session[UsernameKey];
  }

  /**
   * The whole second-factor path: a password login for a user with an Authy
   * id, the push page, any number of undecided polls, then an approval. Only
   * the approval logs the user in, with the remember choice from the login
   * form, and it leaves no pending-login key in the session.
   *
   * `check_2fa` hands only `next` to its page, so the `remember` argument of
   * the polls is assumed here to be the one in the check_2fa URL that login
   * redirected to, copied into the poll by the client. A poll without it
   * logs the user in with remember off, whatever the form said.
   */
  lemma TwoFactorLogin(s: State, form: LoginForm, next: Option<string>, netloc: string -> string,
                       nextArg: Option<string>, remoteAddr: string,
                       pushResp: Authy.ProviderResponse<string>,
                       undecided: seq<Authy.ProviderResponse<string>>,
                       approved: Authy.ProviderResponse<string>)
    requires !Authenticated(s)
    requires form.passwordOk && form.username in s.users && s.users[form.username].authyId.Some?
    requires forall i :: 0 <= i < |undecided| ==> Authy.PushStatus(undecided[i]) != "approved"
    requires Authy.PushStatus(approved) == "approved"
    ensures var loggedIn := LoginStep(s, Some(form), next, netloc);
            var rememberArg := Some(loggedIn.out.remember);
            var pushed := Check2faStep(loggedIn.after, nextArg, remoteAddr, pushResp);
            var waiting := PollAll(pushed.after, rememberArg, undecided);
            var done := Check2faPollStep(waiting, rememberArg, approved);
            && loggedIn.out.RedirectToCheck2fa?
            && !Authenticated(loggedIn.after) && !Authenticated(pushed.after) && !Authenticated(waiting)
            && pushed.out.RenderCheck2fa? && pushed.out.push.secondsToExpire == 120
            && done.after.login == Some(Identity(form.username, form.rememberMe))
            && UsernameKey !in done.after.session && PushUuidKey !in done.after.session
            && done.after.users == s.users
            && done.out == Json("approved")
  {
    var loggedIn := LoginStep(s, Some(form), next, netloc);
    LoginLeavesUserPending(s, form, next, netloc);
    RememberRoundTrip(form.rememberMe);
    var rememberArg := Some(loggedIn.out.remember);
    var pushed := Check2faStep(loggedIn.after, nextArg, remoteAddr, pushResp);
    PushKeepsUserPending(loggedIn.after, nextArg, remoteAddr, pushResp);
    UndecidedPollsChangeNothing(pushed.after, rememberArg, undecided);
    ApprovalConsumesPendingLogin(pushed.after, rememberArg, approved, approved);
  }
}
