/** The host backend's local token check: decoding with the shared secret, the bearer
    dependency and the current-user helper, all reporting failures as an unauthorized error.
    The PyJWT decoder is outside the model; `decode` gives its outcome for a token. */
module AuthService {
  import opened Common

  /** The exceptions PyJWT's decoder raises. An expired signature is a subclass of the
      invalid-token error; every other decoding failure is an invalid-token error as well. */
  datatype JwtFailure = ExpiredSignature | OtherInvalidToken(cause: string)

  /** What decoding a token gave: its payload, or one of the decoder's exceptions. */
  datatype JwtDecode = DecodedPayload(payload: Json) | DecodeFailed(failure: JwtFailure)

  /** Whether an exception is caught by a handler for PyJWT's invalid-token error. */
  predicate IsInvalidTokenError(f: JwtFailure) {
    f.ExpiredSignature? || f.OtherInvalidToken?
  }

  const InvalidToken := "Invalid token."
  const TokenExpired := "Token is expired."
  const NoPayload := "Unable to retrieve token payload"

  /** `verify_jwt` as written: the invalid-token handler comes first and also catches expired
      signatures, so the expiry handler after it is never reached. */
  function VerifyJwtAsWritten(d: JwtDecode): (r: Result<bool>)
    ensures d.DecodeFailed? ==> r == Err(Unauthorized(InvalidToken))
    ensures d.DecodedPayload? ==> r == (if Truthy(d.payload) then Ok(true) else Err(Unauthorized(NoPayload)))
  {
    match d
    case DecodeFailed(f) =>
      if IsInvalidTokenError(f) then Err(Unauthorized(InvalidToken))
      else if f.ExpiredSignature? then Err(Unauthorized(TokenExpired))
      else Err(Unhandled("uncaught decoder exception"))
    case DecodedPayload(payload) =>
      if Truthy(payload) then Ok(true) else Err(Unauthorized(NoPayload))
  }

  /** No decoding outcome makes the function as written report an expired token: an expired
      token is reported as invalid. */
  lemma {:induction false} ExpiryMessageUnreachable(d: JwtDecode)
    ensures VerifyJwtAsWritten(d) != Err(Unauthorized(TokenExpired))
    ensures VerifyJwtAsWritten(DecodeFailed(ExpiredSignature)) == Err(Unauthorized(InvalidToken))
  {
    assert IsInvalidTokenError(ExpiredSignature);
  }

  /** `verify_jwt` with the handlers in the intended order: expired tokens are reported as
      expired, every other decoding failure as invalid, an empty payload as missing. */
  function VerifyJwt(d: JwtDecode): (r: Result<bool>)
    ensures d == DecodeFailed(ExpiredSignature) <==> r == Err(Unauthorized(TokenExpired))
    ensures d.DecodeFailed? && d.failure.OtherInvalidToken? <==> r == Err(Unauthorized(InvalidToken))
    ensures r.Ok? <==> d.DecodedPayload? && Truthy(d.payload)
    ensures r.Ok? ==> r.value
    ensures r.Err? ==> r.error.Unauthorized?
  {
    match d
    case DecodeFailed(ExpiredSignature) => Err(Unauthorized(TokenExpired))
    case DecodeFailed(OtherInvalidToken(_)) => Err(Unauthorized(InvalidToken))
    case DecodedPayload(payload) =>
      if Truthy(payload) then Ok(true) else Err(Unauthorized(NoPayload))
  }

  /** Both versions agree on every outcome except the expired signature. */
  lemma {:induction false} CorrectionOnlyChangesExpiry(d: JwtDecode)
    requires d != DecodeFailed(ExpiredSignature)
    ensures VerifyJwt(d) == VerifyJwtAsWritten(d)
  {
    match d
    case DecodeFailed(f) =>
      assert IsInvalidTokenError(f);
    case DecodedPayload(_) =>
  }

  /** The credentials the bearer scheme extracted from the Authorization header. */
  datatype Credentials = Credentials(scheme: string, credentials: string)

  /** `JWTBearer.__call__`: missing credentials and a scheme other than exactly "Bearer" are
      refused; a token that fails `verify_jwt` (as written) propagates its error, so an expired
      token is reported as invalid; the "Invalid token or expired token." branch would need a
      false verification, which never happens. Otherwise the token itself is returned. */
  function JwtBearer(credentials: Option<Credentials>, decode: string -> JwtDecode): (r: Result<string>)
    ensures credentials.None? ==> r == Err(Unauthorized("Invalid authorization code."))
    ensures credentials.Some? && credentials.value.scheme != "Bearer" ==> r == Err(Unauthorized("Invalid authentication scheme."))
    ensures credentials.Some? && credentials.value.scheme == "Bearer" ==>
      && (r.Ok? <==> VerifyJwtAsWritten(decode(credentials.value.credentials)).Ok?)
      && (r.Ok? ==> r.value == credentials.value.credentials)
      && (r.Err? ==> r == Err(VerifyJwtAsWritten(decode(credentials.value.credentials)).error))
    ensures credentials.Some? && credentials.value.scheme == "Bearer" && decode(credentials.value.credentials) == DecodeFailed(ExpiredSignature) ==>
      r == Err(Unauthorized(InvalidToken))
    ensures r != Err(Unauthorized("Invalid token or expired token.")) && r != Err(Unauthorized(TokenExpired))
  {
    match credentials
    case None => Err(Unauthorized("Invalid authorization code."))
    case Some(c) =>
      if c.scheme != "Bearer" then Err(Unauthorized("Invalid authentication scheme."))
      else match VerifyJwtAsWritten(decode(c.credentials))
        case Err(e) => Err(e)
        case Ok(valid) =>
          if !valid then Err(Unauthorized("Invalid token or expired token."))
          else Ok(c.credentials)
  }

  /** `get_current_user`: an empty token is refused before anything is decoded; otherwise the
      result of `verify_jwt` as written, which reports an expired token as invalid. */
  function GetCurrentUser(credentials: Credentials, decode: string -> JwtDecode): (r: Result<bool>)
    ensures credentials.credentials == "" ==> r == Err(Unauthorized("Missing token"))
    ensures credentials.credentials != "" ==> r == VerifyJwtAsWritten(decode(credentials.credentials))
    ensures credentials.credentials != "" && decode(credentials.credentials) == DecodeFailed(ExpiredSignature) ==>
      r == Err(Unauthorized(InvalidToken))
    ensures r.Ok? ==> r.value
  {
    if credentials.credentials == "" then Err(Unauthorized("Missing token"))
    else VerifyJwtAsWritten(decode(credentials.credentials))
  }
}
