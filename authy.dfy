/**
 * The adapter between the login flow and the Authy second-factor provider
 * (app/auth/authy.py). Every provider call is reduced to the response it
 * returns, `ProviderResponse(ok, content)`; what is modelled is how each
 * adapter turns that response into the value the routes consume, and the
 * requests and payloads the adapters build.
 */
module Authy {
  import opened Wrappers
  import Decimal

  /** The identifier Authy assigns to a user who completed registration. */
  type AuthyId = int

  /**
   * The application settings the modelled adapters read from the
   * configuration. The production API key is used only by the API client and
   * the JWT signer, which are not modelled, so it is not a field here.
   */
  datatype Config = Config(appName: string, appId: string)

  /** A reply of the provider's API client: `resp.ok()` and its decoded content. */
  datatype ProviderResponse<C> = ProviderResponse(ok: bool, content: C)

  /** Validity window of a registration token, in seconds (the `expires_in` default). */
  const DefaultExpiresIn: int := 5 * 60

  /** Lifetime of a push approval request, in seconds. */
  const PushSecondsToExpire: int := 120

  const PushMessage: string := "Login requested for Microblog."
  const UsernameDetail: string := "Username"
  const IpAddressDetail: string := "IP Address"
  const QrUriPrefix: string := "authy://account?token="

  // ---------------------------------------------------------------------
  // Registration token (get_registration_jwt), before signing
  // ---------------------------------------------------------------------

  datatype Context = Context(customUserId: string, authyAppId: string)

  /** The claims of the registration JWT. */
  datatype Payload = Payload(iss: string, iat: int, exp: int, context: Context)

  /**
   * The payload `get_registration_jwt` signs for user `userId` at time `now`.
   * Signing it is not modelled: callers pass a signer.
   */
  function RegistrationPayload(config: Config, userId: int, now: int,
                               expiresIn: int := DefaultExpiresIn): (p: Payload)
    ensures p.iss == config.appName
    ensures p.iat == now && p.exp - p.iat == expiresIn
    ensures Decimal.ParseInt(p.context.customUserId) == Some(userId)
    ensures p.context.authyAppId == config.appId
  {
    Decimal.IntToStringRoundTrip(userId);
    Payload(config.appName, now, now + expiresIn,
            Context(Decimal.IntToString(userId), config.appId))
  }

  /** Called without `expires_in`, the token is valid for five minutes. */
  lemma DefaultPayloadLifetime(config: Config, userId: int, now: int)
    ensures RegistrationPayload(config, userId, now).exp == now + 300
  {
  }

  /** Different users get different payloads at the same instant. */
  lemma PayloadIdentifiesUser(config: Config, u1: int, u2: int, now: int)
    requires u1 != u2
    ensures RegistrationPayload(config, u1, now) != RegistrationPayload(config, u2, now)
  {
    Decimal.IntToStringInjective(u1, u2);
  }

  // ---------------------------------------------------------------------
  // QR code (get_qrcode): the URI it encodes
  // ---------------------------------------------------------------------

  /** The text the registration QR code encodes for token `jwt`. */
  function QrUri(jwt: string): (uri: string)
    ensures |uri| == |QrUriPrefix| + |jwt|
    ensures uri[..|QrUriPrefix|] == QrUriPrefix && uri[|QrUriPrefix|..] == jwt
  {
    QrUriPrefix + jwt
  }

  /** What Authy's app reads from a scanned URI: the token after the prefix. */
  function QrToken(uri: string): Option<string> {
    if |uri| >= |QrUriPrefix| && uri[..|QrUriPrefix|] == QrUriPrefix
    then Some(uri[|QrUriPrefix|..]) else None
  }

  lemma QrUriRoundTrip(jwt: string)
    ensures QrToken(QrUri(jwt)) == Some(jwt)
  {
  }

  /** Every URI holding a token is the URI of exactly that token. */
  lemma QrTokenInverse(uri: string)
    ensures QrToken(uri).Some? ==> QrUri(QrToken(uri).value) == uri
  {
    if QrToken(uri).Some? {
      assert uri == uri[..|QrUriPrefix|] + uri[|QrUriPrefix|..];
    }
  }

  // ---------------------------------------------------------------------
  // Registration status (get_registration_status)
  // ---------------------------------------------------------------------

  /**
   * The provider's `registration` dict: its `status` and, when present, its
   * `authy_id` (None stands for a dict without that key).
   */
  datatype Registration = Registration(status: string, authyId: Option<AuthyId>)

  const PendingRegistration: Registration := Registration("pending", None)

  /** A failed lookup reads as "still pending"; a successful one is passed on as is. */
  function RegistrationStatus(resp: ProviderResponse<Registration>): (r: Registration)
    ensures !resp.ok ==> r.status == "pending" && r.authyId == None
    ensures resp.ok ==> r == resp.content
  {
    if !resp.ok then PendingRegistration else resp.content
  }

  /** Registration is reported complete only when the provider says so. */
  lemma CompletedOnlyFromProvider(resp: ProviderResponse<Registration>)
    ensures RegistrationStatus(resp).status == "completed"
            <==> resp.ok && resp.content.status == "completed"
  {
  }

  // ---------------------------------------------------------------------
  // Deleting a user (delete_user)
  // ---------------------------------------------------------------------

  /** Whether the provider confirmed the deletion. */
  function DeleteUser(resp: ProviderResponse<()>): (deleted: bool)
    ensures deleted <==> resp.ok
  {
    resp.ok
  }

  // ---------------------------------------------------------------------
  // Push authentication (send_push_authentication,
  // check_push_authentication_status)
  // ---------------------------------------------------------------------

  /** The one-touch request sent to the provider. */
  datatype PushRequest = PushRequest(authyId: Option<AuthyId>, message: string,
                                     details: map<string, string>, secondsToExpire: int)

  /** The request `send_push_authentication` makes for a user seen from `remoteAddr`. */
  function PushRequestFor(authyId: Option<AuthyId>, username: string, remoteAddr: string): (req: PushRequest)
    ensures req.authyId == authyId && req.message == PushMessage
    ensures req.secondsToExpire == PushSecondsToExpire
    ensures req.details.Keys == {UsernameDetail, IpAddressDetail}
    ensures req.details[UsernameDetail] == username && req.details[IpAddressDetail] == remoteAddr
  {
    PushRequest(authyId, PushMessage,
                map[UsernameDetail := username, IpAddressDetail := remoteAddr],
                PushSecondsToExpire)
  }

  /** The uuid of the sent request, or None when the provider refused it. */
  function PushUuid(resp: ProviderResponse<string>): (uuid: Option<string>)
    ensures uuid.Some? <==> resp.ok
    ensures uuid.Some? ==> uuid.value == resp.content
  {
    if !resp.ok then None else Some(resp.content)
  }

  /** The approval status: "error" for a failed lookup, else the provider's word. */
  function PushStatus(resp: ProviderResponse<string>): (status: string)
    ensures !resp.ok ==> status == "error"
    ensures resp.ok ==> status == resp.content
  {
    if !resp.ok then "error" else resp.content
  }

  /** Only the provider can approve a login: a failed lookup never reads as "approved". */
  lemma ApprovedOnlyFromProvider(resp: ProviderResponse<string>)
    ensures PushStatus(resp) == "approved" <==> resp.ok && resp.content == "approved"
  {
  }
}
