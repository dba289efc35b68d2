/** The admin access gate of the backend (the `adminAuth` middleware): it takes a
    bearer token from the request headers, has it verified as a signed token, and
    lets the request through only when the decoded payload is the configured admin
    email followed by the configured admin password.

    The signature check is not modelled: it is an oracle `verify(token, secret)`
    that either decodes the token to a payload or throws with a message. Writing a
    JSON response and calling `next()` are modelled by the returned `Outcome`. */
module AdminAuth {
  import opened JsValues

  /** The scheme prefix removed from an `Authorization` header; matched case-sensitively. */
  const BearerPrefix: string := "Bearer "

  /** The message of every rejection the gate decides itself. */
  const NotAuthorized: string := "Not Authorized"

  /** The two request headers the gate reads; each is absent (`undefined`) or a string. */
  datatype Headers = Headers(token: Option<string>, authorization: Option<string>)

  /** The three environment variables the gate reads; each may be unset. */
  datatype Env = Env(jwtSecret: Option<string>, adminEmail: Option<string>, adminPassword: Option<string>)

  /** A decoded token payload: a string or an object, never a number. */
  type Payload = v: Value | !v.NaN? witness Str("")

  /** What the token verifier does with a token: return the decoded payload, or
      throw an error carrying a message. */
  datatype Verification = Decoded(payload: Payload) | Thrown(message: string)

  /** The verifier, given the token and the configured secret. */
  type Verifier = (string, Option<string>) -> Verification

  /** The gate's single effect: call the next handler, or answer
      `{ success: false, message }` and stop. */
  datatype Outcome = Next | Reject(message: string)

  /** The `token` local variable once the headers have been read: the `token`
      header if it is truthy; otherwise, when the `Authorization` header is
      truthy, that header with a leading `"Bearer "` removed, or the header
      unchanged when it has no such prefix; otherwise the `token` header as it was
      (absent or empty). */
  function ExtractToken(h: Headers): (token: Option<string>)
    ensures token ==
      if Truthy(h.token) || !Truthy(h.authorization) then h.token
      else if BearerPrefix <= h.authorization.value then Some(h.authorization.value[7..])
      else h.authorization
  {
    if !Truthy(h.token) && Truthy(h.authorization) then
      var authHeader := h.authorization.value;
      if StartsWith(authHeader, BearerPrefix) then Some(Substring(authHeader, |BearerPrefix|))
      else Some(authHeader)
    else
      h.token
  }

  /** A payload the gate accepts, stated without the JavaScript operators: a string
      equal to the admin email followed by the admin password, where an unset
      variable reads as the text `"undefined"` and at least one of the two is set. */
  predicate IsAdminPayload(payload: Value, env: Env) {
    (env.adminEmail.Some? || env.adminPassword.Some?) &&
    payload == Str(ToJsString(env.adminEmail) + ToJsString(env.adminPassword))
  }

  /** The value the payload is compared with, `ADMIN_EMAIL + ADMIN_PASSWORD`: a
      payload is strictly equal to it exactly when it is the admin payload. */
  function AdminSignature(env: Env): (sig: Value)
    ensures forall payload :: StrictEquals(payload, sig) <==> IsAdminPayload(payload, env)
  {
    Plus(env.adminEmail, env.adminPassword)
  }

  /** The verdict of the gate on one request. Without a usable token it rejects with
      "Not Authorized"; a verifier error is passed on as the rejection message; a
      decoded payload other than the admin payload is rejected with "Not Authorized";
      and `Next` is reached exactly when the token decodes to the admin payload. */
  function Gate(h: Headers, env: Env, verify: Verifier): (o: Outcome)
    ensures !Truthy(ExtractToken(h)) ==> o == Reject(NotAuthorized)
    ensures (Truthy(ExtractToken(h)) && verify(ExtractToken(h).value, env.jwtSecret).Thrown?) ==>
      o == Reject(verify(ExtractToken(h).value, env.jwtSecret).message)
    ensures (Truthy(ExtractToken(h)) && verify(ExtractToken(h).value, env.jwtSecret).Decoded? &&
             !IsAdminPayload(verify(ExtractToken(h).value, env.jwtSecret).payload, env)) ==>
      o == Reject(NotAuthorized)
    ensures o == Next <==>
      Truthy(ExtractToken(h)) && verify(ExtractToken(h).value, env.jwtSecret).Decoded? &&
      IsAdminPayload(verify(ExtractToken(h).value, env.jwtSecret).payload, env)
  {
    var token := ExtractToken(h);
    if !Truthy(token) then
      Reject(NotAuthorized)
    else
      match verify(token.value, env.jwtSecret)
      case Thrown(message) => Reject(message)
      case Decoded(payload) =>
        if !StrictEquals(payload, AdminSignature(env)) then Reject(NotAuthorized)
        else Next
  }

  // ---------------------------------------------------------------------------
  // Token extraction

  /** A truthy `token` header wins: the `Authorization` header is not looked at. */
  lemma TokenHeaderTakesPrecedence(h: Headers, other: Option<string>)
    requires Truthy(h.token)
    ensures ExtractToken(h) == h.token
    ensures ExtractToken(Headers(h.token, other)) == ExtractToken(h)
  {
  }

  /** Without a usable `token` header, an `Authorization` header that begins with
      `"Bearer "` yields exactly the text after those seven characters. */
  lemma BearerPrefixStripped(h: Headers)
    requires !Truthy(h.token)
    requires h.authorization.Some? && BearerPrefix <= h.authorization.value
    ensures ExtractToken(h) == Some(h.authorization.value[7..])
    ensures BearerPrefix + ExtractToken(h).value == h.authorization.value
  {
  }

  /** Without a usable `token` header, a non-empty `Authorization` header that does
      not begin with `"Bearer "` is the token, verbatim. */
  lemma NonBearerKeptVerbatim(h: Headers)
    requires !Truthy(h.token)
    requires Truthy(h.authorization) && !(BearerPrefix <= h.authorization.value)
    ensures ExtractToken(h) == h.authorization
  {
  }

  /** The prefix is case-sensitive: a lower-case scheme is kept as part of the token. */
  lemma LowerCaseSchemeKept()
    ensures ExtractToken(Headers(None, Some("bearer x"))) == Some("bearer x")
  {
  }

  /** A client that sends `Authorization: Bearer <t>` and no usable `token` header
      has `t` extracted, whatever `t` is. */
  lemma BearerRoundTrip(tokenHeader: Option<string>, t: string)
    requires !Truthy(tokenHeader)
    ensures ExtractToken(Headers(tokenHeader, Some(BearerPrefix + t))) == Some(t)
  {
  }

  /** Without a truthy header of either kind there is no usable token. */
  lemma NoHeadersNoToken(h: Headers)
    requires !Truthy(h.token) && !Truthy(h.authorization)
    ensures !Truthy(ExtractToken(h))
  {
  }

  // ---------------------------------------------------------------------------
  // The verdict

  /** Without a usable token the request is rejected with "Not Authorized", and the
      verifier is not consulted: the verdict is the same for every verifier. */
  lemma NoTokenRejected(h: Headers, env: Env, verify: Verifier, other: Verifier)
    requires !Truthy(ExtractToken(h))
    ensures Gate(h, env, verify) == Reject(NotAuthorized)
    ensures Gate(h, env, other) == Gate(h, env, verify)
  {
  }

  /** `Authorization: Bearer ` with nothing after the prefix leaves an empty token,
      which is rejected. */
  lemma BareBearerRejected(tokenHeader: Option<string>, env: Env, verify: Verifier)
    requires !Truthy(tokenHeader)
    ensures Gate(Headers(tokenHeader, Some(BearerPrefix)), env, verify) == Reject(NotAuthorized)
  {
  }

  /** A user token, whose payload is an object, never opens the admin gate. */
  lemma ObjectPayloadRejected(h: Headers, env: Env, verify: Verifier)
    requires Truthy(ExtractToken(h))
    requires verify(ExtractToken(h).value, env.jwtSecret).Decoded?
    requires verify(ExtractToken(h).value, env.jwtSecret).payload.Object?
    ensures Gate(h, env, verify) == Reject(NotAuthorized)
  {
  }

  /** With neither admin variable set the expected value is `NaN`, which equals
      nothing: no request gets through. */
  lemma UnsetCredentialsLockOut(h: Headers, env: Env, verify: Verifier)
    requires env.adminEmail.None? && env.adminPassword.None?
    ensures Gate(h, env, verify) != Next
  {
  }

  /** With only the password set, the expected payload is the text `"undefined"`
      followed by the password. */
  lemma UnsetEmailReadsUndefined(h: Headers, env: Env, verify: Verifier)
    requires env.adminEmail.None? && env.adminPassword.Some?
    requires Truthy(ExtractToken(h))
    requires verify(ExtractToken(h).value, env.jwtSecret) == Decoded(Str("undefined" + env.adminPassword.value))
    ensures Gate(h, env, verify) == Next
  {
  }
}
