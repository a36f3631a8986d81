/** The training hub's client of the user-management service: where the service is reached
    (from the running stage and whether the process runs inside a container), obtaining a
    token, and verifying one remotely. `send` stands for the HTTP library: the outcome of
    sending a request. */
module TrainHubSecurity {
  import opened Common

  /** The module-level constants computed once from the environment. */
  datatype UserMgmtConfig = UserMgmtConfig(stage: string, port: nat, baseUrl: string, tokenEndpoint: string, verifyEndpoint: string)

  /** The stage defaults to "dev"; the production stage uses port 8083 and every other stage
      8003; inside a container the service is addressed by its container name. */
  function LoadConfig(env: map<string, string>, inDocker: bool): (c: UserMgmtConfig)
    ensures c.stage == EnvGet(env, "RUNNING_STAGE", "dev")
    ensures c.port == 8083 <==> c.stage == "prod"
    ensures c.port == 8003 <==> c.stage != "prod"
    ensures inDocker ==> c.baseUrl == "http://ml_user_mgmt_" + c.stage + ":" + NatToString(c.port)
    ensures !inDocker ==> c.baseUrl == "http://localhost:" + NatToString(c.port)
    ensures c.tokenEndpoint == c.baseUrl + "/token" && c.verifyEndpoint == c.baseUrl + "/verify-token"
  {
    var stage := EnvGet(env, "RUNNING_STAGE", "dev");
    var port := if stage == "prod" then 8083 else 8003;
    var base := if inDocker then "http://ml_user_mgmt_" + stage + ":" + NatToString(port)
                else "http://localhost:" + NatToString(port);
    UserMgmtConfig(stage, port, base, base + "/token", base + "/verify-token")
  }

  /** Outside a container and with no stage set, the service is the local development one. */
  lemma DefaultIsLocalDevelopment()
    ensures LoadConfig(map[], false).tokenEndpoint == "http://localhost:8003/token"
  {
    assert NatToString(8003) == "8003" by {
      assert NatToString(8) == "8";
      assert NatToString(80) == "80";
      assert NatToString(800) == "800";
    }
  }

  /** The token request: the credentials as a JSON body, no headers. */
  function TokenRequest(c: UserMgmtConfig, username: string, password: string): Request {
    Request("POST", c.tokenEndpoint, map[], Some(JObject(map["username" := JStr(username), "password" := JStr(password)])))
  }

  /** The verification request: a GET carrying the token as a bearer credential. */
  function VerifyRequest(c: UserMgmtConfig, token: string): Request {
    Request("GET", c.verifyEndpoint, BearerHeader(token), None)
  }

  /** `issue_jwt_token`: any status other than 200 is a 401 "Invalid credentials"; on 200 the
      body's "access_token", or null when the body has none. Transport errors are not caught. */
  function IssueJwtToken(c: UserMgmtConfig, username: string, password: string, send: Request -> Fetch): (r: Result<Json>)
    ensures
      var f := send(TokenRequest(c, username, password));
      && (f.TransportFailed? ==> r == Err(Unhandled(f.cause)))
      && (f.Fetched? && f.response.status != 200 ==> r == Err(HttpError(401, "Invalid credentials")))
      && (r.Ok? <==> f.Fetched? && f.response.status == 200 && f.response.body.Some? && f.response.body.value.JObject?)
      && (r.Ok? ==> r.value == JsonGet(f.response.body.value, "access_token", JNull).value)
  {
    match send(TokenRequest(c, username, password))
    case TransportFailed(cause) => Err(Unhandled(cause))
    case Fetched(resp) =>
      if resp.status != 200 then Err(HttpError(401, "Invalid credentials"))
      else match DecodeBody(resp)
        case Err(e) => Err(e)
        case Ok(body) => JsonGet(body, "access_token", JNull)
  }

  /** `verify_jwt_with_user_mgmt`: the token is sent as "Bearer <token>"; any status other
      than 200 (an unavailable service included) is a 401 "Invalid token"; on 200 the body. */
  function VerifyJwtWithUserMgmt(c: UserMgmtConfig, token: string, send: Request -> Fetch): (r: Result<Json>)
    ensures
      var f := send(VerifyRequest(c, token));
      && VerifyRequest(c, token).headers["Authorization"] == "Bearer " + token
      && (f.TransportFailed? ==> r == Err(Unhandled(f.cause)))
      && (f.Fetched? && f.response.status != 200 ==> r == Err(HttpError(401, "Invalid token")))
      && (r.Ok? <==> f.Fetched? && f.response.status == 200 && f.response.body.Some?)
      && (r.Ok? ==> r.value == f.response.body.value)
  {
    match send(VerifyRequest(c, token))
    case TransportFailed(cause) => Err(Unhandled(cause))
    case Fetched(resp) =>
      if resp.status != 200 then Err(HttpError(401, "Invalid token"))
      else DecodeBody(resp)
  }

  /** `get_current_user`: an empty token is a 401 "Missing token" and no request is sent;
      otherwise the remote verification. */
  function GetCurrentUser(c: UserMgmtConfig, token: string, send: Request -> Fetch): (r: Result<Json>)
    ensures token == "" ==> r == Err(HttpError(401, "Missing token"))
    ensures token != "" ==> r == VerifyJwtWithUserMgmt(c, token, send)
  {
    if token == "" then Err(HttpError(401, "Missing token"))
    else VerifyJwtWithUserMgmt(c, token, send)
  }
}
