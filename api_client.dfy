/** The web front end's client of the two back-end services: where they are reached, the
    endpoint of each call, the bearer header of the authenticated calls, and how each
    response status becomes a value or an HTTP error. `send` stands for the HTTP library. */
module ApiClient {
  import opened Common

  /** The module-level constants computed once from the environment. */
  datatype ClientConfig = ClientConfig(stage: string, hostBackendPort: nat, trainHubPort: nat, hostBackendUrl: string, trainHubUrl: string)

  /** The stage defaults to "dev"; production uses ports 8080 and 8082, every other stage
      8000 and 8002; inside a container each service is addressed by its container name. */
  function LoadConfig(env: map<string, string>, inDocker: bool): (c: ClientConfig)
    ensures c.stage == EnvGet(env, "RUNNING_STAGE", "dev")
    ensures c.stage == "prod" ==> c.hostBackendPort == 8080 && c.trainHubPort == 8082
    ensures c.stage != "prod" ==> c.hostBackendPort == 8000 && c.trainHubPort == 8002
    ensures inDocker ==>
      && c.hostBackendUrl == "http://ml_host_backend_" + c.stage + ":" + NatToString(c.hostBackendPort)
      && c.trainHubUrl == "http://ml_train_hub_" + c.stage + ":" + NatToString(c.trainHubPort)
    ensures !inDocker ==>
      && c.hostBackendUrl == "http://localhost:" + NatToString(c.hostBackendPort)
      && c.trainHubUrl == "http://localhost:" + NatToString(c.trainHubPort)
  {
    var stage := EnvGet(env, "RUNNING_STAGE", "dev");
    var hostPort := if stage == "prod" then 8080 else 8000;
    var hubPort := if stage == "prod" then 8082 else 8002;
    if inDocker then
      ClientConfig(stage, hostPort, hubPort,
        "http://ml_host_backend_" + stage + ":" + NatToString(hostPort),
        "http://ml_train_hub_" + stage + ":" + NatToString(hubPort))
    else
      ClientConfig(stage, hostPort, hubPort,
        "http://localhost:" + NatToString(hostPort),
        "http://localhost:" + NatToString(hubPort))
  }

  function RegisterModelUrl(c: ClientConfig, modelName: string): string {
    c.trainHubUrl + "/models/" + modelName + "/register"
  }

  function ListModelsUrl(c: ClientConfig): string {
    c.hostBackendUrl + "/api/models"
  }

  function GetModelUrl(c: ClientConfig, modelName: string): string {
    c.hostBackendUrl + "/api/models/" + modelName
  }

  function PredictUrl(c: ClientConfig, modelName: string): string {
    c.hostBackendUrl + "/api/models/" + modelName + "/predict"
  }

  function LoginUrl(c: ClientConfig): string {
    c.hostBackendUrl + "/api/models/login"
  }

  /** Registration goes to the training hub; listing, lookup, prediction and login all sit
      below the host backend's model collection. */
  lemma {:induction false} EndpointsSitUnderTheirService(c: ClientConfig, modelName: string)
    ensures StartsWith(RegisterModelUrl(c, modelName), c.trainHubUrl + "/models/")
    ensures StartsWith(GetModelUrl(c, modelName), ListModelsUrl(c) + "/")
    ensures StartsWith(PredictUrl(c, modelName), GetModelUrl(c, modelName) + "/")
    ensures StartsWith(LoginUrl(c), ListModelsUrl(c) + "/")
  {
    var models := ListModelsUrl(c) + "/";
    assert GetModelUrl(c, modelName) == models + modelName;
    assert GetModelUrl(c, modelName)[..|models|] == models;
    assert PredictUrl(c, modelName) == GetModelUrl(c, modelName) + "/" + "predict";
    assert PredictUrl(c, modelName)[..|GetModelUrl(c, modelName) + "/"|] == GetModelUrl(c, modelName) + "/";
    assert LoginUrl(c) == models + "login";
    assert LoginUrl(c)[..|models|] == models;
    var hub := c.trainHubUrl + "/models/";
    assert RegisterModelUrl(c, modelName) == hub + (modelName + "/register");
    assert RegisterModelUrl(c, modelName)[..|hub|] == hub;
  }

  /** The request body of a registration. */
  function RegistrationBody(modelFilepath: string, modelName: string, classNames: seq<string>, experimentName: string, maxNum: int): Json {
    JObject(map[
      "model_filepath" := JStr(modelFilepath),
      "model_name" := JStr(modelName),
      "class_names" := JList(seq(|classNames|, i requires 0 <= i < |classNames| => JStr(classNames[i]))),
      "experiment_name" := JStr(experimentName),
      "max_num" := JInt(maxNum)])
  }

  function LoginRequest(c: ClientConfig, username: string, password: string): Request {
    Request("POST", LoginUrl(c), map[], Some(JObject(map["username" := JStr(username), "password" := JStr(password)])))
  }

  function RegisterRequest(c: ClientConfig, token: string, modelFilepath: string, modelName: string, classNames: seq<string>, experimentName: string, maxNum: int): Request {
    Request("POST", RegisterModelUrl(c, modelName), BearerHeader(token), Some(RegistrationBody(modelFilepath, modelName, classNames, experimentName, maxNum)))
  }

  function ListRequest(c: ClientConfig, token: string): Request {
    Request("GET", ListModelsUrl(c), BearerHeader(token), None)
  }

  function GetModelRequest(c: ClientConfig, token: string, modelName: string): Request {
    Request("GET", GetModelUrl(c, modelName), BearerHeader(token), None)
  }

  function PredictRequest(c: ClientConfig, token: string, modelName: string, data: Json): Request {
    Request("POST", PredictUrl(c, modelName), BearerHeader(token), Some(data))
  }

  /** Every authenticated call sends "Authorization: Bearer <token>" and nothing else as
      header; the login sends no header at all. */
  lemma {:induction false} AuthenticatedCallsCarryBearer(c: ClientConfig, token: string, modelName: string, data: Json,
    modelFilepath: string, classNames: seq<string>, experimentName: string, maxNum: int, username: string, password: string)
    ensures forall req :: req in [RegisterRequest(c, token, modelFilepath, modelName, classNames, experimentName, maxNum),
                                  ListRequest(c, token), GetModelRequest(c, token, modelName), PredictRequest(c, token, modelName, data)]
              ==> req.headers == map["Authorization" := "Bearer " + token]
    ensures LoginRequest(c, username, password).headers == map[]
  {
  }

  /** How a call other than login answers: the decoded body on status 200, a 400 whose
      detail is `prefix` followed by the response text on any other status, and the
      transport's exception unchanged. */
  predicate AnswerMapped(f: Fetch, r: Result<Json>, prefix: string) {
    && (f.TransportFailed? ==> r == Err(Unhandled(f.cause)))
    && (f.Fetched? && f.response.status != 200 ==> r == Err(HttpError(400, prefix + f.response.text)))
    && (r.Ok? <==> f.Fetched? && f.response.status == 200 && f.response.body.Some?)
    && (r.Ok? ==> r.value == f.response.body.value)
  }

  function Checked(f: Fetch, prefix: string): (r: Result<Json>)
    ensures AnswerMapped(f, r, prefix)
  {
    match f
    case TransportFailed(cause) => Err(Unhandled(cause))
    case Fetched(resp) =>
      if resp.status != 200 then Err(HttpError(400, prefix + resp.text))
      else DecodeBody(resp)
  }

  /** `login`: any status other than 200 is a 401 "Invalid credentials"; on 200 the body's
      "access_token", or null when the body has none. */
  function Login(c: ClientConfig, username: string, password: string, send: Request -> Fetch): (r: Result<Json>)
    ensures
      var f := send(LoginRequest(c, username, password));
      && (f.TransportFailed? ==> r == Err(Unhandled(f.cause)))
      && (f.Fetched? && f.response.status != 200 ==> r == Err(HttpError(401, "Invalid credentials")))
      && (r.Ok? <==> f.Fetched? && f.response.status == 200 && f.response.body.Some? && f.response.body.value.JObject?)
      && (r.Ok? ==> r.value == JsonGet(f.response.body.value, "access_token", JNull).value)
  {
    match send(LoginRequest(c, username, password))
    case TransportFailed(cause) => Err(Unhandled(cause))
    case Fetched(resp) =>
      if resp.status != 200 then Err(HttpError(401, "Invalid credentials"))
      else match DecodeBody(resp)
        case Err(e) => Err(e)
        case Ok(body) => JsonGet(body, "access_token", JNull)
  }

  /** `register_model`. */
  function RegisterModel(c: ClientConfig, token: string, modelFilepath: string, modelName: string, classNames: seq<string>, experimentName: string, maxNum: int, send: Request -> Fetch): (r: Result<Json>)
    ensures AnswerMapped(send(RegisterRequest(c, token, modelFilepath, modelName, classNames, experimentName, maxNum)), r, "Failed to register model: ")
  {
    Checked(send(RegisterRequest(c, token, modelFilepath, modelName, classNames, experimentName, maxNum)), "Failed to register model: ")
  }

  /** `list_models`: on 200 the body's "models", or an empty list when it has none. */
  function ListModels(c: ClientConfig, token: string, send: Request -> Fetch): (r: Result<Json>)
    ensures
      var f := send(ListRequest(c, token));
      && (f.TransportFailed? ==> r == Err(Unhandled(f.cause)))
      && (f.Fetched? && f.response.status != 200 ==> r == Err(HttpError(400, "Failed to list models: " + f.response.text)))
      && (r.Ok? <==> f.Fetched? && f.response.status == 200 && f.response.body.Some? && f.response.body.value.JObject?)
      && (r.Ok? ==> var fields := f.response.body.value.fields;
                    r.value == if "models" in fields then fields["models"] else JList([]))
  {
    match Checked(send(ListRequest(c, token)), "Failed to list models: ")
    case Err(e) => Err(e)
    case Ok(body) => JsonGet(body, "models", JList([]))
  }

  /** `get_model`. */
  function GetModel(c: ClientConfig, token: string, modelName: string, send: Request -> Fetch): (r: Result<Json>)
    ensures AnswerMapped(send(GetModelRequest(c, token, modelName)), r, "Failed to get model " + modelName + ": ")
  {
    Checked(send(GetModelRequest(c, token, modelName)), "Failed to get model " + modelName + ": ")
  }

  /** `predict`. */
  function Predict(c: ClientConfig, token: string, modelName: string, data: Json, send: Request -> Fetch): (r: Result<Json>)
    ensures AnswerMapped(send(PredictRequest(c, token, modelName, data)), r, "Prediction failed for model " + modelName + ": ")
  {
    Checked(send(PredictRequest(c, token, modelName, data)), "Prediction failed for model " + modelName + ": ")
  }
}
