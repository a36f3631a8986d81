/** The JWT prototype: a module-level user list that sign-up appends to, tokens whose payload
    carries the user id and an expiry 600 seconds after signing, decoding that checks the
    expiry against the clock, and a bearer check answering 403. The wall clock is an integer
    parameter; the HS256 codec is modelled as a token value that records its claims and the
    key it was signed with. */
module ApiSecurity {
  import opened Common

  const JwtSecret := "secret"
  /** Seconds a freshly signed token stays valid. */
  const TokenLifetime := 600

  /** The claims of a token; `expires` is absent in a token that was not signed here. */
  datatype Claims = Claims(userId: string, expires: Option<int>)

  /** A token as the codec sees it: claims signed with a key, or text that does not decode. */
  datatype Token = Signed(claims: Claims, key: string) | Unreadable(text: string)

  /** `{"access_token": token}`. */
  datatype TokenResponse = TokenResponse(accessToken: Token)

  /** What `decode_jwt` returns: the payload, `None` for an expired one, `{}` on any error. */
  datatype Decoded = Payload(claims: Claims) | NoPayload | EmptyPayload

  /** `sign_jwt`: the user id and an expiry `TokenLifetime` seconds from now, signed with the
      module secret. */
  function SignJwt(userId: string, now: int): (t: TokenResponse)
    ensures t.accessToken.Signed? && t.accessToken.key == JwtSecret
    ensures t.accessToken.claims == Claims(userId, Some(now + TokenLifetime))
  {
    TokenResponse(Signed(Claims(userId, Some(now + TokenLifetime)), JwtSecret))
  }

  /** `decode_jwt`: a token signed with the secret yields its payload while the expiry is not
      earlier than now (inclusive), `None` once it is; a bad signature, an unreadable token or
      a payload without expiry gives `{}`. */
  function DecodeJwt(token: Token, now: int): (d: Decoded)
    ensures d.Payload? <==> token.Signed? && token.key == JwtSecret && token.claims.expires.Some? && token.claims.expires.value >= now
    ensures d.Payload? ==> d.claims == token.claims
    ensures d.NoPayload? <==> token.Signed? && token.key == JwtSecret && token.claims.expires.Some? && token.claims.expires.value < now
  {
    match token
    case Unreadable(_) => EmptyPayload
    case Signed(claims, key) =>
      if key != JwtSecret || claims.expires.None? then EmptyPayload
      else if claims.expires.value >= now then Payload(claims)
      else NoPayload
  }

  /** Python's truth value of a decoded result: only a payload dict is non-empty. */
  predicate DecodedTruthy(d: Decoded) {
    d.Payload?
  }

  /** `JWTBearer.verify_jwt`: valid exactly when the decoded result is truthy. */
  function VerifyJwt(token: Token, now: int): (valid: bool)
    ensures valid <==> token.Signed? && token.key == JwtSecret && token.claims.expires.Some? && now <= token.claims.expires.value
  {
    DecodedTruthy(DecodeJwt(token, now))
  }

  /** A token signed at time `t` is accepted up to and including `t + 600`, and refused after. */
  lemma {:induction false} SignedTokenLifetime(userId: string, t: int, now: int)
    ensures VerifyJwt(SignJwt(userId, t).accessToken, now) <==> now <= t + TokenLifetime
  {
    var token := SignJwt(userId, t).accessToken;
    assert token.claims.expires == Some(t + TokenLifetime);
  }

  /** The credentials the bearer scheme extracted from the Authorization header. */
  datatype Credentials = Credentials(scheme: string, token: Token)

  /** `JWTBearer.__call__`: 403 for missing credentials, for a scheme other than exactly
      "Bearer", and for a token that does not verify; otherwise the token itself. */
  function JwtBearer(credentials: Option<Credentials>, now: int): (r: Result<Token>)
    ensures credentials.None? ==> r == Err(HttpError(403, "Invalid authorization code."))
    ensures credentials.Some? && credentials.value.scheme != "Bearer" ==> r == Err(HttpError(403, "Invalid authentication scheme."))
    ensures credentials.Some? && credentials.value.scheme == "Bearer" ==>
      r == (if VerifyJwt(credentials.value.token, now) then Ok(credentials.value.token)
            else Err(HttpError(403, "Invalid token or expired token.")))
  {
    match credentials
    case None => Err(HttpError(403, "Invalid authorization code."))
    case Some(c) =>
      if c.scheme != "Bearer" then Err(HttpError(403, "Invalid authentication scheme."))
      else if !VerifyJwt(c.token, now) then Err(HttpError(403, "Invalid token or expired token."))
      else Ok(c.token)
  }

  /** The reply of the login endpoint: a token, or the error dictionary. */
  datatype LoginReply = LoggedIn(response: TokenResponse) | LoginRefused(error: string)

  const WrongLogin := "Wrong login details!"

  /** Growing the list never withdraws a match. */
  lemma {:induction false} MatchesGrow(users: seq<User>, user: User, data: User)
    requires Matches(users, data)
    ensures Matches(users + [user], data)
  {
    var i :| 0 <= i < |users| && users[i].username == data.username && users[i].password == data.password;
    assert (users + [user])[i] == users[i];
  }

  /** The last record appended always matches itself. */
  lemma {:induction false} MatchesAppended(users: seq<User>, user: User)
    ensures Matches(users + [user], user)
  {
    assert (users + [user])[|users|] == user;
  }

  /** The prototype application with its module-level user list. */
  class PrototypeApi {
    var users: seq<User>

    constructor()
      ensures users == []
    {
      users := [];
    }

    /** `check_user`: exact equality on both fields against some listed user. */
    method CheckUser(data: User) returns (ok: bool)
      ensures ok <==> Matches(users, data)
    {
      for i := 0 to |users|
        invariant forall j :: 0 <= j < i ==> users[j].username != data.username || users[j].password != data.password
      {
        if users[i].username == data.username && users[i].password == data.password {
          return true;
        }
      }
      return false;
    }

    /** `POST /user/signup`: appends the user unconditionally and returns a token for its
        username. Every match that held before still holds, and the new user now matches. */
    method CreateUser(user: User, now: int) returns (resp: TokenResponse)
      modifies this
      ensures users == old(users) + [user]
      ensures resp == SignJwt(user.username, now)
      ensures Matches(users, user)
      ensures forall data :: Matches(old(users), data) ==> Matches(users, data)
    {
      MatchesAppended(users, user);
      forall data | Matches(users, data)
        ensures Matches(users + [user], data)
      {
        MatchesGrow(users, user, data);
      }
      users := users + [user];
      resp := SignJwt(user.username, now);
    }

    /** `POST /user/login` as written: on a match it reads an `email` field the user schema
        does not have, so every successful login raises instead of returning a token. */
    method UserLoginAsWritten(user: User, now: int) returns (r: Result<LoginReply>)
      ensures Matches(users, user) ==> r == Err(Unhandled("'UserSchema' object has no attribute 'email'"))
      ensures !Matches(users, user) ==> r == Ok(LoginRefused(WrongLogin))
    {
      var ok := CheckUser(user);
      if ok {
        r := Err(Unhandled("'UserSchema' object has no attribute 'email'"));
      } else {
        r := Ok(LoginRefused(WrongLogin));
      }
    }

    /** `POST /user/login` as intended: a token for the username on a match, the error
        dictionary otherwise; a failed login never raises. */
    method UserLogin(user: User, now: int) returns (reply: LoginReply)
      ensures reply.LoggedIn? <==> Matches(users, user)
      ensures reply.LoggedIn? ==> reply.response == SignJwt(user.username, now)
      ensures reply.LoginRefused? ==> reply.error == WrongLogin
    {
      var ok := CheckUser(user);
      if ok {
        reply := LoggedIn(SignJwt(user.username, now));
      } else {
        reply := LoginRefused(WrongLogin);
      }
    }
  }

  /** Sign-up followed by login with the same credentials, at any later moment: the intended
      login issues a token that passes the bearer check for the next 600 seconds, while the
      login as written raises for exactly these credentials. */
  method SignupThenLogin(user: User, signedUpAt: int, loginAt: int, checkedAt: int)
    returns (asWritten: Result<LoginReply>, intended: LoginReply)
    ensures asWritten.Err?
    ensures intended == LoggedIn(SignJwt(user.username, loginAt))
    ensures JwtBearer(Some(Credentials("Bearer", intended.response.accessToken)), checkedAt).Ok? <==> checkedAt <= loginAt + TokenLifetime
  {
    var api := new PrototypeApi();
    var _ := api.CreateUser(user, signedUpAt);
    asWritten := api.UserLoginAsWritten(user, loginAt);
    intended := api.UserLogin(user, loginAt);
    SignedTokenLifetime(user.username, loginAt, checkedAt);
  }
}
