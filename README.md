# Two-factor login and enrollment flow of microblog-authy, in Dafny

This project models the authentication blueprint of microblog-authy, a Flask
application whose logins can need a second factor. The second factor is
delegated to Authy: the provider sends a push approval to the user's phone,
and a user enrolls by scanning a QR code.

The model covers two source files:

- **`app/auth/authy.py`**, the adapter to the provider (module `Authy`). It
  builds the registration JWT payload, the URI the QR code encodes and the
  push request. It maps each provider response `ProviderResponse(ok, content)`
  to the value the routes use:
  - a failed registration lookup becomes `{'status': 'pending'}`;
  - a failed push send becomes None;
  - a failed status lookup becomes `'error'`;
  - a deletion reports `resp.ok()`.

  Python's `str(user_id)` is in module `Decimal`, together with its inverse,
  so the model can show that the payload identifies the user.
- **`app/auth/routes.py`**, the route handlers `login`, `enable_2fa`,
  `enable_2fa_qrcode`, `enable_2fa_poll`, `disable_2fa`, `check_2fa` and
  `check_2fa_poll`. Together they form a small state machine over three things:
  - the browser's session map, with the keys `username`, `authy_push_uuid`
    and `registration_jwt`;
  - the user records and their optional `authy_id`;
  - the logged-in identity and its remember flag.

  Module `AuthFlow` gives one transition function per handler. Its
  postconditions say which session keys and user fields change, which stay
  the same, and who is logged in afterwards. Class `Routes.AuthRoutes` holds
  the same state in mutable fields (`session`, `users`, `login`). Its methods
  make the handlers' writes and deletes in order. Each method is proved to
  produce exactly its `AuthFlow` transition. Module `AuthScenarios` proves
  properties that cover several requests:
  - a registration token is good for one QR code;
  - polls that see no decision change nothing;
  - an approval consumes the pending login;
  - full enrollment leads to a second-factor login;
  - a full second-factor login ends with exactly that user logged in.

Failures the source code does not catch are the outcome `ServerError`. These
are:

- a `KeyError` when a session key is indexed with `[]`;
- an `AttributeError` when a lookup finds no user;
- a `KeyError` when `enable_2fa_poll` gets a `'completed'` registration that
  has no `authy_id` key.

Behaviour of the code worth noting:

- **A push status of `'error'`.** The code keeps the session as it is. It does
  not clear the pending login.
- **A `check_2fa_poll` with no pending state.** `session['authy_push_uuid']`
  raises a `KeyError` (HTTP 500). It does not abort with a client error.
- **The enrollment poll looks for no pending state.** `enable_2fa_poll` reads
  no session key. It asks the provider about the current user whether or not a
  registration token was ever issued, and it never fails for a missing one.
- **A push uuid survives a new password login.** `login` writes only
  `session['username']`, so an `authy_push_uuid` left by an earlier attempt in
  the same browser stays in the session. A `check_2fa_poll` sent right after
  the new login checks that old push. If the old push was approved, the user
  who just entered a password is logged in without a push of their own
  (`AuthScenarios.StalePushApprovesNewLogin`).
- **`check_2fa_poll` when the pending user has been removed.** Both session
  keys are already deleted when `login_user(None)` fails. Flask still saves the
  session on the error response, so the model keeps the deletions.
- **An empty `registration_jwt` or `next` value.** Python treats an empty string
  as false. An empty `registration_jwt` causes a 400 and is not deleted. An
  empty `next` falls back to the index page.

## Model

| member | source | states |
|---|---|---|
| `Decimal.NatToString` | app/auth/authy.py:25 | decimal text of a natural number is non-empty, all digits, and starts with '0' only for zero |
| `Decimal.IntToString` | app/auth/authy.py:25 | `str(int)` starts with '-' exactly for negative numbers |
| `Decimal.IntToStringRoundTrip` | app/auth/authy.py:25 | parsing `str(i)` gives back `i` |
| `Decimal.IntToStringInjective` | app/auth/authy.py:25 | two ids have the same text only if they are equal |
| `Decimal.NatToStringOfParse` | app/auth/authy.py:25 | digit text without a leading zero is exactly the decimal text of its value |
| `Decimal.ParseIntOnlyCanonical` | app/auth/authy.py:25 | the parser accepts only texts `str` writes: a text that reads as `i` is `str(i)`, so a payload's `custom_user_id` is exactly `str(user_id)` |
| `Authy.RegistrationPayload` | app/auth/authy.py:11-28 | `iss` is the configured app name; `exp - iat == expires_in`, with `iat` = now; the context's `custom_user_id` parses back to the user id; `authy_app_id` is the configured app id |
| `Authy.DefaultPayloadLifetime` | app/auth/authy.py:11-23 | without `expires_in` the token expires 300 seconds after issue |
| `Authy.PayloadIdentifiesUser` | app/auth/authy.py:21-27 | payloads for different users at the same instant differ |
| `Authy.QrUri` | app/auth/authy.py:40 | the QR text is exactly the prefix `authy://account?token=` followed by the token |
| `Authy.QrUriRoundTrip` | app/auth/authy.py:40 | the token can be read back from the QR text |
| `Authy.QrTokenInverse` | app/auth/authy.py:40 | every text carrying a token is the QR text of that token |
| `Authy.RegistrationStatus` | app/auth/authy.py:58-62 | a failed response gives status 'pending' and no `authy_id`; a successful one gives the provider's registration unchanged |
| `Authy.CompletedOnlyFromProvider` | app/auth/authy.py:60-62 | status 'completed' comes out if and only if the response is ok and the provider reported 'completed' |
| `Authy.DeleteUser` | app/auth/authy.py:72-74 | deletion is reported successful if and only if the response is ok |
| `Authy.PushRequestFor` | app/auth/authy.py:85-93 | the push goes to the user's authy id, with the fixed message, a 120-second expiry, and exactly the details Username and IP Address |
| `Authy.PushUuid` | app/auth/authy.py:94-96 | a uuid is returned if and only if the response is ok, and it is the provider's uuid; otherwise None |
| `Authy.PushStatus` | app/auth/authy.py:107-110 | a failed response gives 'error'; an ok one gives the provider's status verbatim |
| `Authy.ApprovedOnlyFromProvider` | app/auth/authy.py:107-110 | 'approved' comes out if and only if the provider answered ok with 'approved' |
| `AuthFlow.NextPage` | app/auth/routes.py:25-27 | the redirect goes to `next` if and only if it is present, non-empty and has an empty netloc; otherwise to the index |
| `AuthFlow.RememberArg` | app/auth/routes.py:32 | the remember choice goes out as '1' when set and '0' otherwise |
| `AuthFlow.RememberFromArg` | app/auth/routes.py:166 | remember is on if and only if the `remember` argument is present and equal to '1' (default '0') |
| `AuthFlow.RememberRoundTrip` | app/auth/routes.py:30-32 | the argument written by login is read back by the poll as the original choice; a missing argument means off |
| `AuthFlow.LoginStep` | app/auth/routes.py:16-34 | an authenticated user, an unsubmitted form, an unknown user or a bad password change nothing; with an authy id, only `session['username']` is set, nobody is logged in, and the redirect carries `next` and remember '1'/'0'; without one, the user is logged in with the remember choice and the session is unchanged |
| `AuthFlow.Enable2faStep` | app/auth/routes.py:94-100 | on a submitted form, `registration_jwt` becomes the signed payload for the current user's id and no other key changes |
| `AuthFlow.PendingJwt` | app/auth/routes.py:106-107 | a token is pending if and only if `registration_jwt` holds a non-empty string |
| `AuthFlow.Enable2faQrcodeStep` | app/auth/routes.py:105-116 | with no pending token the request aborts with 400 and nothing changes; otherwise the key is deleted, nothing else changes, and the QR of that token is returned |
| `AuthFlow.Enable2faPollStep` | app/auth/routes.py:121-130 | for any status other than 'completed', the status is returned and nothing changes; on 'completed', the current user's `authy_id` becomes the provider's id and nothing else changes; 'completed' without an id raises an exception before any write |
| `AuthFlow.Disable2faStep` | app/auth/routes.py:135-145 | on a submitted form, `authy_id` becomes None if the provider confirms the deletion; if not, nothing changes; either way a redirect to the user's page |
| `AuthFlow.PendingUser` | app/auth/routes.py:150-151 | the pending user exists if and only if `session['username']` is a string naming an existing user |
| `AuthFlow.Check2faStep` | app/auth/routes.py:149-154 | with no pending user, a server error and nothing written; otherwise `authy_push_uuid` is set to the send result (None when the send failed), no other key changes, and the push request for that user is returned |
| `AuthFlow.Check2faPollStep` | app/auth/routes.py:158-170 | with no push uuid, a server error and no change; any status other than 'approved' is echoed and changes nothing; 'approved' deletes both `username` and `authy_push_uuid` and logs in the user named by the old `session['username']`, with remember taken from the argument |
| `Routes.AuthRoutes.Login` | app/auth/routes.py:16-34 | the handler's new fields and outcome are exactly `LoginStep`'s; it never touches user records |
| `Routes.AuthRoutes.Enable2fa` | app/auth/routes.py:94-100 | new session and outcome are exactly `Enable2faStep`'s; only the session may change |
| `Routes.AuthRoutes.Enable2faQrcode` | app/auth/routes.py:105-116 | new session and outcome are exactly `Enable2faQrcodeStep`'s; only the session may change |
| `Routes.AuthRoutes.Enable2faPoll` | app/auth/routes.py:121-130 | new user records and outcome are exactly `Enable2faPollStep`'s; only user records may change |
| `Routes.AuthRoutes.Disable2fa` | app/auth/routes.py:135-145 | new user records and outcome are exactly `Disable2faStep`'s; only user records may change |
| `Routes.AuthRoutes.Check2fa` | app/auth/routes.py:149-154 | new session and outcome are exactly `Check2faStep`'s; only the session may change |
| `Routes.AuthRoutes.Check2faPoll` | app/auth/routes.py:158-170 | new session, identity and outcome are exactly `Check2faPollStep`'s |
| `AuthScenarios.QrCodeSingleUse` | app/auth/routes.py:106-112 | a QR request that succeeds is followed by one that aborts with 400 and changes nothing |
| `AuthScenarios.EnableThenQrCode` | app/auth/routes.py:97-112 | after enabling, the next QR request returns the QR of the freshly signed token and removes it (or aborts if the signer gave an empty string) |
| `AuthScenarios.RegistrationPollIdempotent` | app/auth/routes.py:122-130 | a registration poll whose status is not 'completed' changes nothing, so repeating it gives the same result |
| `AuthScenarios.RegistrationPollProviderFailure` | app/auth/authy.py:60-61 | when the provider fails, the enrollment poll answers 'pending' and changes nothing |
| `AuthScenarios.EnrollmentEnablesSecondFactor` | app/auth/routes.py:122-125 | enable, then QR, then a 'completed' poll stores the provider's id; the user's next password login is sent to the push check and logs nobody in |
| `AuthScenarios.DisableRestoresDirectLogin` | app/auth/routes.py:138-143 | after a confirmed disable, the user's next password login logs them in directly |
| `AuthScenarios.UndecidedPollsChangeNothing` | app/auth/routes.py:159-170 | any sequence of login polls whose statuses are not 'approved' leaves the state as it was |
| `AuthScenarios.ApprovalConsumesPendingLogin` | app/auth/routes.py:159-167 | an approval logs in the pending user; a repeated poll then finds no push uuid and fails without changing anything |
| `AuthScenarios.LoginLeavesUserPending` | app/auth/routes.py:28-32 | a password login for a user with an authy id leaves exactly that user pending, with users and identity unchanged |
| `AuthScenarios.PushKeepsUserPending` | app/auth/routes.py:150-152 | sending the push keeps the pending user, records a push uuid entry and uses a 120-second request |
| `AuthScenarios.TwoFactorLogin` | app/auth/routes.py:148-170 | login, then push, then any number of undecided polls, then an approval: nobody is logged in before the approval; afterwards the user is logged in with the form's remember choice, both pending keys are gone, and the user records are unchanged; the polls are assumed to carry the `remember` argument of the check_2fa URL, which the client copies, since `check_2fa` passes only `next` to its page |
| `AuthScenarios.StalePushApprovesNewLogin` | app/auth/routes.py:28-29 | a push uuid from an earlier attempt survives a new password login unchanged, and an approved poll right after it logs in the newly entered user |
| `AuthScenarios.StalePushExample` | app/auth/routes.py:159-167 | with the uuid of a push for "a" in the session, a login as "b" followed by an approved poll logs in "b" |

## Left out

- Rendering in Flask: templates, `flash` messages, `redirect`/`url_for` URLs, `jsonify`, and the QR response's headers. The outcome datatype names only the response kind and its data. The session map holds only `username`, `authy_push_uuid` and `registration_jwt`: the `_flashes` entry that `flash` writes into the Flask session is not in it, so "nothing changes" in a contract is about those three keys.
- The check_2fa page's script that polls `check_2fa_poll`. The `remember` argument of a poll is an input; whether the page copies it from the check_2fa URL is not modelled.
- `register`, `logout`, `reset_password_request` and `reset_password`. They only pass data through to the database and to email.
- Password hashing. The result of `user.check_password` is an input (`LoginForm.passwordOk`), and form validation is an input (`submitted`, or `None` for the login form).
- Database access. `User.query.filter_by(username=...).first()` is a lookup in a map keyed by username, so usernames are taken to be unique. `db.session.commit()` is taken to succeed.
- Flask-Login internals. The logged-in identity is kept as a username with its remember flag. `login_user`'s own session keys and remember cookie are not modelled. Users are assumed active, so `login_user` always logs the user in.
- The network calls of `AuthyApiClient`. Each provider call is an input response. The model does not record the uuid that `check_2fa_poll` sends to the status lookup, or the authy id that `disable_2fa` sends to the delete call.
- Signing the JWT, which happens in a foreign library. `enable_2fa` takes the signer as a function parameter.
- Drawing the QR image. The outcome carries the URI the image encodes.
- The clock. `time.time()` returns a float; the model takes `now` as an integer.
- `url_parse(next).netloc`, which is passed in as a function.
- The registration dict is modelled as its `status` and its optional `authy_id`. The model assumes `status` is present and is a string. A missing `authy_id` is not told apart from a null one; the model treats both as missing.
- Concurrent requests. The code has no guard against duplicate polls, so none is modelled.
- Expiry of the registration token on the provider's side, and expiry of the push. The code does not enforce either.
