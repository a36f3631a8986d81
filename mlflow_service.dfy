/** The host backend's HTTP client for the registry service: configuration from the
    environment, the two request URLs, and how each response becomes a value or an error. */
module MlflowService {
  import opened Common

  const ConfigMissing := "MLFLOW_HOST or MLFLOW_PORT environment variable not set."
  const ListFailurePrefix := "Failed to fetch models summary from MLFlow: "
  const SingleFailurePrefix := "Failed to fetch model summary from MLFlow: "

  /** Both variables are present and non-empty. */
  predicate ConfigOk(env: map<string, string>) {
    "MLFLOW_HOST" in env && env["MLFLOW_HOST"] != "" && "MLFLOW_PORT" in env && env["MLFLOW_PORT"] != ""
  }

  /** `get_mlflow_host_and_port`: a missing or empty variable is an invalid argument. */
  function GetMlflowHostAndPort(env: map<string, string>): (r: Result<(string, string)>)
    ensures r.Ok? <==> ConfigOk(env)
    ensures r.Ok? ==> r.value == (env["MLFLOW_HOST"], env["MLFLOW_PORT"])
    ensures r.Err? ==> r.error == InvalidArgument(ConfigMissing)
  {
    if "MLFLOW_HOST" !in env || env["MLFLOW_HOST"] == "" || "MLFLOW_PORT" !in env || env["MLFLOW_PORT"] == ""
    then Err(InvalidArgument(ConfigMissing))
    else Ok((env["MLFLOW_HOST"], env["MLFLOW_PORT"]))
  }

  function ModelsUrl(host: string, port: string): string {
    "http://" + host + ":" + port + "/models"
  }

  function ModelUrl(host: string, port: string, modelName: string): string {
    "http://" + host + ":" + port + "/models/" + modelName
  }

  /** The statuses for which `raise_for_status` raises. */
  predicate IsHttpError(status: int) {
    400 <= status < 600
  }

  /** The text of the exception `raise_for_status` raises (without the reason phrase). */
  function HttpErrorText(status: int, url: string): string
    requires IsHttpError(status)
  {
    NatToString(status) + (if status < 500 then " Client Error" else " Server Error") + " for url: " + url
  }

  /** A dict with a "models" key is unwrapped; any other payload is returned as it is. */
  function UnwrapModels(data: Json): Json {
    if data.JObject? && "models" in data.fields then data.fields["models"] else data
  }

  /** `list_all_models_from_mlflow`: the configuration check sits outside the try, so its error
      is never wrapped; every failure of the request itself becomes an MLFlow error. `get` is
      the HTTP GET, as a function of the URL. */
  function ListAllModelsFromMlflow(env: map<string, string>, get: string -> Fetch): (r: Result<Json>)
    ensures !ConfigOk(env) ==> r == Err(InvalidArgument(ConfigMissing))
    ensures ConfigOk(env) ==>
      var f := get(ModelsUrl(env["MLFLOW_HOST"], env["MLFLOW_PORT"]));
      && (r.Ok? <==> f.Fetched? && !IsHttpError(f.response.status) && f.response.body.Some?)
      && (r.Ok? ==> r.value == UnwrapModels(f.response.body.value))
      && (r.Err? ==> r.error.MLFlow? && StartsWith(r.error.message, ListFailurePrefix))
  {
    match GetMlflowHostAndPort(env)
    case Err(e) => Err(e)
    case Ok((host, port)) =>
      var url := ModelsUrl(host, port);
      match get(url)
      case TransportFailed(cause) => Err(MLFlow(ListFailurePrefix + cause))
      case Fetched(response) =>
        if IsHttpError(response.status) then Err(MLFlow(ListFailurePrefix + HttpErrorText(response.status, url)))
        else match DecodeBody(response)
          case Err(e) => Err(MLFlow(ListFailurePrefix + e.message))
          case Ok(data) => Ok(UnwrapModels(data))
  }

  /** `get_single_model_summary_from_mlflow`: a 404 is checked before `raise_for_status`, a
      falsy body is also "not found", the not-found error passes through unwrapped and every
      other failure becomes an MLFlow error. */
  function GetSingleModelSummaryFromMlflow(env: map<string, string>, modelName: string, get: string -> Fetch): (r: Result<Json>)
    ensures !ConfigOk(env) ==> r == Err(InvalidArgument(ConfigMissing))
    ensures ConfigOk(env) ==>
      var f := get(ModelUrl(env["MLFLOW_HOST"], env["MLFLOW_PORT"], modelName));
      && (r == Err(ModelNotFound("Model '" + modelName + "' not found")) <==>
            f.Fetched? && (f.response.status == 404 ||
              (!IsHttpError(f.response.status) && f.response.body.Some? && !Truthy(f.response.body.value))))
      && (r.Ok? <==>
            f.Fetched? && !IsHttpError(f.response.status) && f.response.body.Some? && Truthy(f.response.body.value))
      && (r.Ok? ==> r.value == f.response.body.value)
      && (r.Err? && !r.error.ModelNotFound? ==> r.error.MLFlow? && StartsWith(r.error.message, SingleFailurePrefix))
  {
    match GetMlflowHostAndPort(env)
    case Err(e) => Err(e)
    case Ok((host, port)) =>
      var url := ModelUrl(host, port, modelName);
      match get(url)
      case TransportFailed(cause) => Err(MLFlow(SingleFailurePrefix + cause))
      case Fetched(response) =>
        if response.status == 404 then Err(ModelNotFound("Model '" + modelName + "' not found"))
        else if IsHttpError(response.status) then Err(MLFlow(SingleFailurePrefix + HttpErrorText(response.status, url)))
        else match DecodeBody(response)
          case Err(e) => Err(MLFlow(SingleFailurePrefix + e.message))
          case Ok(data) =>
            if !Truthy(data) then Err(ModelNotFound("Model '" + modelName + "' not found"))
            else Ok(data)
  }
}
