# Covid-19 prediction MLOps services — a Dafny model of the core

This project models the decision logic of the services that train, register, serve and
protect the Covid-19 X-ray classifiers:

- the training hub's access to the model registry (MLflow): logging and registering a run,
  finding the model file among a run's artifacts, and assembling and listing model records;
- the host backend's registry client, its Google Drive model download (two variants) and
  its model service (catalogue lookup, cached download, four-class prediction);
- token authentication across the services: the user-management service's credential store
  and endpoints, the JWT prototype, the host backend's local token check, and the HTTP
  clients of the training hub and of the web front end;
- the shared logging package: formatter choice and idempotent root-logger initialisation.

Every outside system is an input of the model rather than something it performs. The
registry's contents are values, and so are HTTP responses (`Fetch`), Drive folder listings
(`Listing`), JWT decoding outcomes, the environment (`map<string, string>`), the container
marker (`bool`), the wall clock (an integer) and image decoding (`bool`). Where an operation
starts downloads, the model returns the sequence of download calls instead of performing
them.

Objects that the source changes in place are classes:
- `UserStore.UserDb`, the credential store;
- `ApiSecurity.PrototypeApi`, the prototype's growable user list;
- `Microlog.RootLogger`, the root logger.

Loops in the source are methods with loop invariants, each proved against a specification
function or a first-match specification. Members that read or allocate one of the stores
(`UserMgmt.CreateToken`, `UserMgmt.IssuedTokenVerifies`, `ApiSecurity.SignupThenLogin`) are
methods as well; everything else consists of functions and lemmas.

Modules, one per source file: `Common` (shared vocabulary), `MlflowUtil`, `MlflowService`,
`GoogleDriveService`, `ModelsService`, `ModelsPackageService`, `UserStore`, `UserMgmt`,
`ApiSecurity`, `AuthService`, `TrainHubSecurity`, `ApiClient`, `Microlog`.

Some behaviour of the code worth knowing before reading the contracts:
- the "latest" version of a model is the first one the version search returns, not the one
  with the greatest version number (`MlflowUtil.LatestIsFirstListedNotGreatest`);
- the clients of the user-management service have no service-unavailable outcome of their
  own: every status other than 200 becomes a 401, and transport errors propagate unchanged;
- the training hub's registration endpoints and evaluation are empty in the code, so no
  registration pipeline is modelled;
- the host backend's bearer check and current-user helper call `verify_jwt` as written,
  so they report an expired token as invalid (see "Findings").

## Model

| member | source | states |
|---|---|---|
| MlflowUtil.TrackingUri | services/ml_train_hub/app/mlflow_util.py:19-26 | the prod tracking server (port 8081) exactly when RUNNING_STAGE is "prod", the dev server (8001) otherwise, including when unset |
| MlflowUtil.FindModelChoice | services/ml_train_hub/app/mlflow_util.py:108-116 | the search finds a file iff some top-level directory lists an entry ending in ".keras", and then it is the first such entry of the first such directory |
| MlflowUtil.ModelPathIsFirstNestedModel | services/ml_train_hub/app/mlflow_util.py:108-120 | the path is the artifact URI joined with the first matching nested entry of the first directory that has one; otherwise ModelNotFoundInArtifacts with the run id |
| MlflowUtil.GetModelPath | services/ml_train_hub/app/mlflow_util.py:100-120 | the nested loops with early return compute exactly the specified search result |
| MlflowUtil.DepthIsBounded | services/ml_train_hub/app/mlflow_util.py:108-116 | a ".keras" file at the top level or two levels down is not found |
| MlflowUtil.NestedDirectoryPassesSuffixTest | services/ml_train_hub/app/mlflow_util.py:110-113 | the suffix test applies to nested directories as well as files |
| MlflowUtil.SearchModelVersions | services/ml_train_hub/app/mlflow_util.py:161 | the search returns only versions of the named model, never more than the registry holds, and is empty iff the registry has none |
| MlflowUtil.SearchReturnsEveryVersion | services/ml_train_hub/app/mlflow_util.py:161 | every version of the named model the registry lists is returned |
| MlflowUtil.SearchReturnsNoExtra | services/ml_train_hub/app/mlflow_util.py:161 | each version is returned at most as often as the registry lists it |
| MlflowUtil.SearchKeepsRegistryOrder | services/ml_train_hub/app/mlflow_util.py:161-166 | the first result, the one taken as latest, is the first version of the model in registry order |
| MlflowUtil.GetMlflowModel | services/ml_train_hub/app/mlflow_util.py:146-198 | ModelNotFound when no version exists; an error of the model-path search is returned unchanged; otherwise the record of the first returned version with the queried name, its version, status and timestamps, the run's model path, params (or none) and metrics, and the run's ids |
| MlflowUtil.LatestIsFirstListedNotGreatest | services/ml_train_hub/app/mlflow_util.py:161-166 | with versions 1 then 2 listed, the record reports version 1 |
| MlflowUtil.ListMlflowModels | services/ml_train_hub/app/mlflow_util.py:201-224 | the loop yields the collected records when every model has a latest version, and the unprotected index error otherwise |
| MlflowUtil.CollectedBound | services/ml_train_hub/app/mlflow_util.py:209-224 | at most one record per registered model |
| MlflowUtil.CollectedExactlyResolvable | services/ml_train_hub/app/mlflow_util.py:211-222 | a model's record is listed iff its lookup succeeds; failing lookups are skipped |
| MlflowUtil.CollectedAllResolvable | services/ml_train_hub/app/mlflow_util.py:209-224 | when every lookup succeeds the list holds one record per model, in registry order |
| MlflowUtil.CollectedAppend | services/ml_train_hub/app/mlflow_util.py:211-222 | collecting a concatenation collects the parts in order |
| MlflowUtil.RunName | services/ml_train_hub/app/mlflow_util.py:72 | the run name is 19 characters, "run_", eight date digits, "_", six time digits |
| MlflowUtil.RunNameFields | services/ml_train_hub/app/mlflow_util.py:72 | year, month, day, hour, minute and second sit at fixed positions of the run name |
| MlflowUtil.RunNameRoundTrip | services/ml_train_hub/app/mlflow_util.py:72 | the timestamp can be read back from the run name unchanged |
| MlflowUtil.RestoreDeleted | services/ml_train_hub/app/mlflow_util.py:55-60 | a deleted experiment of that name becomes active with the same id; every other experiment, and a store without a deleted one, is unchanged |
| MlflowUtil.RestoreIdempotent | services/ml_train_hub/app/mlflow_util.py:58-59 | restoring twice is restoring once |
| MlflowUtil.LogMlflowExperiment | services/ml_train_hub/app/mlflow_util.py:30-97 | a restore failure raises RegisterModel before anything changes; a failure of a logging call raises RegisterModel and leaves what the calls before it did: the restore, the experiment created by set_experiment, and a run ended as failed holding exactly the params and metrics logged before the failing call; success appends a finished run named from the clock, with params, metrics and the "model" artifact, to an active experiment, and creates a new model version only when registering |
| MlflowService.GetMlflowHostAndPort | services/ml_host_backend/app/services/mlflow_service.py:14-22 | both variables, or InvalidArgument when either is missing or empty |
| MlflowService.ListAllModelsFromMlflow | services/ml_host_backend/app/services/mlflow_service.py:25-38 | configuration errors pass unwrapped; the GET of ".../models" succeeds iff it returns a non-error status with JSON, a "models" key is unwrapped, and every other failure is an MLFlow error with its prefix |
| MlflowService.GetSingleModelSummaryFromMlflow | services/ml_host_backend/app/services/mlflow_service.py:41-61 | the GET of ".../models/<name>" gives ModelNotFound for a 404 or a falsy body, the body when truthy, and an MLFlow error for every other failure |
| GoogleDriveService.CheckListing | services/ml_host_backend/app/services/google_drive_service.py:35-58 | a listing exception is a service error, an empty or missing list is "folder empty", otherwise the list |
| GoogleDriveService.FirstWithPath | services/ml_host_backend/app/services/google_drive_service.py:71-75 | the first entry whose path equals the requested name exactly |
| GoogleDriveService.DownloadOutcome | services/ml_host_backend/app/services/google_drive_service.py:61-103 | no match: ModelNotFound and no download; a match: one download of the first match's id into "./data/models/<name>", returning that path or a download error |
| GoogleDriveService.DownloadModelFromGoogleDrive | services/ml_host_backend/app/services/google_drive_service.py:61-103 | the for/break search computes the specified outcome and download trace |
| ModelsService.SummaryNames | services/ml_host_backend/app/services/models_service.py:155 | a name is listed exactly when some catalogue entry carries it, with one name per entry; the model-name test of prediction and of the summary lookup is therefore a test against the catalogue |
| ModelsService.ShowSummaryOfSingleModel | services/ml_host_backend/app/services/models_service.py:129-141 | the first catalogue entry with that name, and "Model not found" iff no entry carries it |
| ModelsService.LoadModelFromGoogleDrive | services/ml_host_backend/app/services/models_service.py:76-112 | the same exact-name search, download and error mapping as the Drive service; success returns "./data/models/<file>" after exactly one download |
| ModelsService.ArgMax | services/ml_host_backend/app/services/models_service.py:178 | an index of a maximal score, and the first one when scores tie |
| ModelsService.PredictImageClassification4Classes | services/ml_host_backend/app/services/models_service.py:143-183 | an undecodable image is refused before the model name is checked; an unknown name is refused before any file access; "<name>.keras" is downloaded only when missing and a download error propagates; with the file available, a load error propagates, empty scores, an argmax beyond the classes and a length mismatch each raise their error, and one score per class always succeeds with the class of the first highest score |
| ModelsPackageService.FirstContaining | services/ml_host_backend/app/models/service.py:55-59 | the first file whose name contains the requested name |
| ModelsPackageService.LoadOutcome | services/ml_host_backend/app/models/service.py:43-77 | no match: ModelNotFound and no download; a match: one download of the first match's id into "./models/<name>", returning that path or a download error |
| ModelsPackageService.LoadModelFromGoogleDrive | services/ml_host_backend/app/models/service.py:43-77 | the for/break substring search computes the specified outcome and download trace |
| ModelsPackageService.ExactNameIsNeverMissing | services/ml_host_backend/app/models/service.py:55-63 | a listed file named exactly as requested is never reported missing |
| ModelsPackageService.FirstPartialMatchWins | services/ml_host_backend/app/models/service.py:55-59 | an earlier partial match is chosen over a later exact match |
| UserStore.UserDb.constructor | services/ml_user_mgmt/app/user_db.py:10-17 | the store starts with exactly user123/pass123 |
| UserStore.UserDb.CheckUser | services/ml_user_mgmt/app/user_db.py:19-23 | true iff some stored user equals the data on both fields; the store is unchanged |
| UserStore.DefaultStoreAcceptsOnlyDefault | services/ml_user_mgmt/app/user_db.py:11-23 | the initial store accepts exactly user123/pass123; a wrong password or unknown user is refused |
| UserMgmt.CreateToken | services/ml_user_mgmt/app/main.py:60-69 | the signed token for the username iff the credentials are stored, otherwise "Wrong login credentials!" |
| UserMgmt.VerifyJwtToken | services/ml_user_mgmt/app/main.py:72-78 | the payload iff decoding gives a truthy one; nothing when decoding raises or is falsy |
| UserMgmt.VerifyJwt | services/ml_user_mgmt/app/main.py:81-91 | {"valid": true, "payload"} iff a payload is found, otherwise "Invalid or expired JWT token." |
| UserMgmt.HandleError | services/ml_user_mgmt/app/main.py:30-45 | failed authentication is a 401, invalid argument a 400, each with the message; no other exception is handled |
| UserMgmt.IssuedTokenVerifies | services/ml_user_mgmt/app/main.py:60-91 | on a fresh store a login gets a token iff it uses the default credentials, and that token then verifies as valid with its payload, given a codec whose signed tokens decode; any other login is refused and nothing is verified |
| UserMgmt.UnreadableTokenIsUnauthorized | services/ml_user_mgmt/app/main.py:72-91 | an undecodable or empty token ends in a 401 with "Invalid or expired JWT token." |
| ApiSecurity.SignJwt | prototyping/api_security.py:32-35 | the token carries the user id and an expiry 600 seconds after now, signed with the secret |
| ApiSecurity.DecodeJwt | prototyping/api_security.py:38-47 | the payload iff correctly signed and expiry >= now; None iff correctly signed and expired; {} otherwise |
| ApiSecurity.VerifyJwt | prototyping/api_security.py:71-80 | valid iff the token is correctly signed and now is not after its expiry |
| ApiSecurity.SignedTokenLifetime | prototyping/api_security.py:32-47 | a token signed at t is valid exactly for now <= t + 600 |
| ApiSecurity.JwtBearer | prototyping/api_security.py:54-69 | 403 with distinct details for missing credentials, a scheme other than "Bearer", and a token that does not verify; otherwise the token |
| ApiSecurity.MatchesGrow | prototyping/api_security.py:21-25 | appending a user never withdraws a match |
| ApiSecurity.MatchesAppended | prototyping/api_security.py:96-99 | an appended user matches its own credentials |
| ApiSecurity.PrototypeApi.constructor | prototyping/api_security.py:13 | the prototype's user list starts empty |
| ApiSecurity.PrototypeApi.CheckUser | prototyping/api_security.py:21-25 | true iff some listed user equals the data on both fields |
| ApiSecurity.PrototypeApi.CreateUser | prototyping/api_security.py:96-99 | the user is appended, a token for its username is returned, the new user matches and every earlier match still holds |
| ApiSecurity.PrototypeApi.UserLoginAsWritten | prototyping/api_security.py:102-106 | matching credentials raise an attribute error; others get "Wrong login details!" |
| ApiSecurity.PrototypeApi.UserLogin | prototyping/api_security.py:102-106 | a token for the username iff the credentials match, otherwise "Wrong login details!" |
| ApiSecurity.SignupThenLogin | prototyping/api_security.py:96-106 | after sign-up, the login as written raises, the intended login issues a token, and that token passes the bearer check for 600 seconds |
| AuthService.VerifyJwtAsWritten | services/ml_host_backend/app/services/auth_service.py:14-26 | every decoding failure, an expired one included, is "Invalid token."; an empty payload is refused; otherwise true |
| AuthService.ExpiryMessageUnreachable | services/ml_host_backend/app/services/auth_service.py:17-22 | no outcome yields "Token is expired." |
| AuthService.VerifyJwt | services/ml_host_backend/app/services/auth_service.py:14-26 | expired is "Token is expired.", any other decoding failure "Invalid token.", an empty payload refused; the result is never false |
| AuthService.CorrectionOnlyChangesExpiry | services/ml_host_backend/app/services/auth_service.py:14-26 | both versions agree except on an expired signature |
| AuthService.JwtBearer | services/ml_host_backend/app/services/auth_service.py:33-44 | missing credentials and a non-"Bearer" scheme are refused, an error of `verify_jwt` as written propagates (an expired token is "Invalid token."), neither "Invalid token or expired token." nor "Token is expired." ever occurs, otherwise the token |
| AuthService.GetCurrentUser | services/ml_host_backend/app/services/auth_service.py:47-54 | an empty token is "Missing token" without decoding; otherwise `verify_jwt` as written, so an expired token is "Invalid token.", and the result is never false |
| TrainHubSecurity.LoadConfig | services/ml_train_hub/app/security.py:21-35 | stage defaults to "dev"; port 8083 iff prod, else 8003; container or localhost base URL; "/token" and "/verify-token" endpoints |
| TrainHubSecurity.DefaultIsLocalDevelopment | services/ml_train_hub/app/security.py:21-35 | with no stage outside a container the token endpoint is http://localhost:8003/token |
| TrainHubSecurity.IssueJwtToken | services/ml_train_hub/app/security.py:39-49 | non-200 is a 401 "Invalid credentials"; a 200 gives the body's access_token (or null); transport errors propagate |
| TrainHubSecurity.VerifyJwtWithUserMgmt | services/ml_train_hub/app/security.py:52-62 | sends "Bearer <token>"; every non-200, an unavailable service included, is a 401 "Invalid token"; a 200 gives the body |
| TrainHubSecurity.GetCurrentUser | services/ml_train_hub/app/security.py:65-71 | an empty token is a 401 "Missing token" with no request; otherwise the remote verification |
| ApiClient.LoadConfig | streamlit/api_client.py:21-36 | stage defaults to "dev"; ports 8080/8082 for prod, else 8000/8002; container or localhost base URLs |
| ApiClient.EndpointsSitUnderTheirService | streamlit/api_client.py:41-45 | registration sits under the training hub's models; get, predict and login sit under the host backend's "/api/models" |
| ApiClient.AuthenticatedCallsCarryBearer | streamlit/api_client.py:69-123 | register, list, get and predict send exactly "Authorization: Bearer <token>"; login sends no header |
| ApiClient.Checked | streamlit/api_client.py:82-89 | a 200 gives the body; any other status a 400 whose detail is the prefix and the response text |
| ApiClient.Login | streamlit/api_client.py:48-58 | non-200 is a 401 "Invalid credentials"; a 200 gives the body's access_token (or null) |
| ApiClient.RegisterModel | streamlit/api_client.py:61-89 | 400 "Failed to register model: <text>" on non-200, otherwise the body |
| ApiClient.ListModels | streamlit/api_client.py:92-102 | 400 "Failed to list models: <text>" on non-200, otherwise the body's "models" or an empty list |
| ApiClient.GetModel | streamlit/api_client.py:105-119 | 400 "Failed to get model <name>: <text>" on non-200, otherwise the body |
| ApiClient.Predict | streamlit/api_client.py:122-138 | 400 "Prediction failed for model <name>: <text>" on non-200, otherwise the body |
| Microlog.GetStreamHandler | packages/microlog/handlers/stream_handler.py:11-22 | "pretty" or "json" (lower-cased) select the formatter of an unmarked stream handler; anything else raises InvalidEnv with the lower-cased value |
| Microlog.FormatDefaultsAndCase | packages/microlog/handlers/stream_handler.py:12-18 | an unset format is pretty; "JSON" selects the JSON formatter |
| Microlog.InitLoggerSpec | packages/microlog/config.py:7-21 | an unknown level raises before any change; otherwise level set, propagation off, and a marked stream handler appended only when none is attached |
| Microlog.InitKeepsHandlersAndAddsOurs | packages/microlog/config.py:14-21 | after success the package's handler is attached and earlier handlers are kept in order |
| Microlog.InitIdempotent | packages/microlog/config.py:7-21 | a second identical initialisation changes nothing |
| Microlog.ExactlyOneOfOurs | packages/microlog/config.py:14-19 | from no handler of its own, one initialisation leaves exactly one, and any further initialisation keeps it at one |
| Microlog.CountOursZero | packages/microlog/config.py:14-16 | no marked stream handler counted iff none attached |
| Microlog.RootLogger.constructor | packages/microlog/config.py:9 | the initial root logger: WARNING, propagating, no handlers |
| Microlog.RootLogger.InitLogger | packages/microlog/config.py:7-21 | the method changes the root logger exactly as the specification function says |

## Left out

- Network, registry, Drive, file system and clock access are not performed; their results are inputs of the model (see above).
- The HS256 signature computation of PyJWT and the user-management service's token handler (`jwt_handler`) are not part of this model: the codec is an input function, and in the prototype a token value records its claims and key.
- FastAPI's own bearer extraction (`HTTPBearer` with automatic errors, which every bearer dependency uses) is outside the model: the credentials it extracted, or their absence, are an input. Before any of the modelled bodies runs, that base class refuses with its own error a missing header, an empty scheme or token ("Not authenticated"), and every scheme that is not "bearer" in any letter case ("Invalid authentication credentials"). This applies to ApiSecurity.JwtBearer, AuthService.JwtBearer, AuthService.GetCurrentUser and UserMgmt.UnreadableTokenIsUnauthorized, whose branches describe direct calls of the functions. In the running service, "Invalid authorization code." and "Missing token" are never reached, an empty token never reaches `verify_jwt`, and "Invalid authentication scheme." is reached only for letter-case variants such as "bearer".
- ApiSecurity.JwtBearer: the missing-credentials branch and a non-"Bearer" scheme other than a letter-case variant are taken by the bearer base class before this body runs.
- AuthService.JwtBearer: the missing-credentials branch and a non-"Bearer" scheme other than a letter-case variant are taken by the bearer base class before this body runs.
- AuthService.GetCurrentUser: the empty-token branch ("Missing token") is taken by the bearer base class before this body runs.
- UserMgmt.UnreadableTokenIsUnauthorized: an empty token is refused by the bearer base class before `verify_jwt` decodes it; the lemma's empty-payload case is about a decodable token with an empty payload.
- Image decoding, grayscale conversion, resizing and normalisation are reduced to "decodes or not"; Keras loading and inference are an input returning scores.
- ModelsService.PredictImageClassification4Classes: scores are kept as real numbers; the rounding to three decimals and conversion to strings in the table row are not modelled.
- The `timeout=10` of the registry client's requests, logging calls and the reason phrase of `raise_for_status` messages are not modelled.
- The lookup of an experiment by name and the model object passed to the logging are abstract: the logged run records the parameters and metrics, not the serialised model.
- MlflowUtil.LogMlflowExperiment: each logging call either completes or fails as a whole; a `log_model` that uploads the artifact and then fails to register it is not distinguished from one that fails before uploading.
- MlflowUtil.RestoreDeleted: the restored experiment is stated to be active with the same id rather than equal field by field, because the experiment has only these two fields.
- `list_summary_of_all_models` and `load_latest_model_version` (services/ml_host_backend/app/services/models_service.py:114-127) only return the static catalogue, which is an input of the model (`catalog`).
- Microlog.GetStreamHandler: case mapping is modelled for ASCII letters only; Python's `str.lower` also maps other Unicode letters, so a LOG_FORMAT with non-ASCII letters may give a different error text.
- Microlog.InitLoggerSpec: case mapping and repr quoting are modelled for ASCII only; Python's `str.upper` also maps other Unicode letters (a LOG_LEVEL such as "ınfo" becomes "INFO" and is accepted), and the ValueError quotes a name holding a single quote with double quotes.
- Microlog.RootLogger.InitLogger: inherits the ASCII-only case mapping and quoting of Microlog.InitLoggerSpec.
- The module-level `print` and the debugging `__main__` blocks, the static model catalogue contents (`meta`), the route wiring, the exception class modules and the formatters' output are not modelled.

## Findings

| source | as written | input that shows it | evidently intended | confidence | as-written member | corrected member |
|---|---|---|---|---|---|---|
| services/ml_host_backend/app/services/auth_service.py:17-22 | the handler for invalid tokens comes before the one for expired signatures, and PyJWT's expired-signature error is a kind of invalid-token error, so an expired token is reported as "Invalid token." | a correctly signed token whose expiry has passed | an expired token is reported as "Token is expired." | high, not executed | AuthService.VerifyJwtAsWritten | AuthService.VerifyJwt |
| prototyping/api_security.py:102-106 | a successful login signs `user.email`, a field the user schema does not have, so it raises instead of returning a token | sign up a user, then log in with the same username and password | the token is signed for the username, as at sign-up | high, not executed | ApiSecurity.PrototypeApi.UserLoginAsWritten | ApiSecurity.PrototypeApi.UserLogin |
