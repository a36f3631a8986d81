/** The user-management service's endpoints: issuing a token for valid credentials,
    verifying a presented token, and turning the service's exceptions into HTTP responses.
    The JWT codec of the service is outside the model: `sign` is what signing returns for a
    username and `decode` what decoding a token gives. */
module UserMgmt {
  import opened Common
  import opened UserStore

  const WrongCredentials := "Wrong login credentials!"
  const InvalidOrExpired := "Invalid or expired JWT token."

  /** What the decoder of the service gives for a token: a payload, or an exception. */
  datatype DecodeOutcome = Decoded(payload: Json) | DecodeRaised(cause: string)

  /** A JSON response with its status code. */
  datatype Response = Response(status: int, body: Json)

  /** `POST /token`: the signed token for the username when the credentials are stored,
      otherwise a failed authentication. */
  method CreateToken(db: UserDb, user: User, sign: string -> Json) returns (r: Result<Json>)
    ensures r.Ok? <==> Matches(db.users, user)
    ensures r.Ok? ==> r.value == sign(user.username)
    ensures r.Err? ==> r.error == FailedAuthentification(WrongCredentials)
  {
    var ok := db.CheckUser(user);
    if ok {
      r := Ok(sign(user.username));
    } else {
      r := Err(FailedAuthentification(WrongCredentials));
    }
  }

  /** `verify_jwt_token`: the payload when decoding gives a truthy one; nothing when decoding
      raises or gives a falsy value. */
  function VerifyJwtToken(token: string, decode: string -> DecodeOutcome): (p: Option<Json>)
    ensures p.Some? <==> decode(token).Decoded? && Truthy(decode(token).payload)
    ensures p.Some? ==> p.value == decode(token).payload
  {
    match decode(token)
    case DecodeRaised(_) => None
    case Decoded(payload) => if Truthy(payload) then Some(payload) else None
  }

  /** The body of a successful verification. */
  function ValidBody(payload: Json): Json {
    JObject(map["valid" := JBool(true), "payload" := payload])
  }

  /** `GET /verify-token`: `{"valid": true, "payload": ...}` exactly when the token yields a
      payload, otherwise a failed authentication. */
  function VerifyJwt(token: string, decode: string -> DecodeOutcome): (r: Result<Json>)
    ensures r.Ok? <==> VerifyJwtToken(token, decode).Some?
    ensures r.Ok? ==> r.value == ValidBody(VerifyJwtToken(token, decode).value)
    ensures r.Err? ==> r.error == FailedAuthentification(InvalidOrExpired)
  {
    match VerifyJwtToken(token, decode)
    case Some(payload) => Ok(ValidBody(payload))
    case None => Err(FailedAuthentification(InvalidOrExpired))
  }

  /** The two registered exception handlers: failed authentication is a 401 and an invalid
      argument a 400, each with the exception's message; any other exception has no handler. */
  function HandleError(e: Error): (resp: Option<Response>)
    ensures resp.Some? <==> e.FailedAuthentification? || e.InvalidArgument?
    ensures resp.Some? ==> resp.value.body == JObject(map["message" := JStr(e.message)])
    ensures resp.Some? ==> resp.value.status == (if e.FailedAuthentification? then 401 else 400)
  {
    match e
    case FailedAuthentification(m) => Some(Response(401, JObject(map["message" := JStr(m)])))
    case InvalidArgument(m) => Some(Response(400, JObject(map["message" := JStr(m)])))
    case _ => None
  }

  /** The token a `POST /token` response carries under "access_token", if it is a string. */
  function AccessToken(response: Json): Option<string> {
    if response.JObject? && "access_token" in response.fields && response.fields["access_token"].JStr?
    then Some(response.fields["access_token"].s)
    else None
  }

  /** What the service's JWT codec is relied on for: every response `sign` builds carries a
      token, and decoding that token gives back a non-empty payload. */
  ghost predicate SignedTokensDecode(sign: string -> Json, decode: string -> DecodeOutcome) {
    forall name :: AccessToken(sign(name)).Some?
      && decode(AccessToken(sign(name)).value).Decoded?
      && Truthy(decode(AccessToken(sign(name)).value).payload)
  }

  /** The round trip of the service: against a freshly created store, a login obtains a token
      exactly for the default credentials, and presenting the issued token to
      `GET /verify-token` gives `{"valid": true, "payload": ...}`; any other login is refused
      with "Wrong login credentials!" and nothing is verified. */
  method IssuedTokenVerifies(user: User, sign: string -> Json, decode: string -> DecodeOutcome)
    returns (issued: Result<Json>, verified: Option<Result<Json>>)
    requires SignedTokensDecode(sign, decode)
    ensures issued.Ok? <==> user == DefaultUser
    ensures issued.Err? ==> issued == Err(FailedAuthentification(WrongCredentials)) && verified == None
    ensures issued.Ok? ==>
      && issued.value == sign(user.username)
      && verified == Some(Ok(ValidBody(decode(AccessToken(sign(user.username)).value).payload)))
  {
    var db := new UserDb();
    issued := CreateToken(db, user, sign);
    DefaultStoreAcceptsOnlyDefault(user);
    if issued.Err? {
      return issued, None;
    }
    var token := AccessToken(issued.value);
    verified := Some(VerifyJwt(token.value, decode));
  }

  /** Any token whose decoding raises, or yields an empty payload, is refused with a 401. */
  lemma {:induction false} UnreadableTokenIsUnauthorized(token: string, decode: string -> DecodeOutcome)
    requires decode(token).DecodeRaised? || !Truthy(decode(token).payload)
    ensures HandleError(VerifyJwt(token, decode).error) == Some(Response(401, JObject(map["message" := JStr(InvalidOrExpired)])))
  {
  }
}
