/** Shared vocabulary of the services: results and the exception taxonomy, JSON values with
    Python truthiness, HTTP responses, and the string operations the services use. */
module Common {

  datatype Option<+T> = None | Some(value: T)

  /** Every exception class of the services, each carrying its message. */
  datatype Error =
    | InvalidArgument(message: string)
    | ModelNotFound(message: string)
    | ModelNotFoundInArtifacts(message: string)
    | RegisterModel(message: string)
    | MLFlow(message: string)
    | GoogleDriveService(message: string)
    | GoogleDriveFolderEmpty(message: string)
    | GoogleDriveDownload(message: string)
    | Unauthorized(message: string)
    | FailedAuthentification(message: string)
    | InvalidEnv(message: string)
      /** FastAPI's HTTPException with a status code and a detail text. */
    | HttpError(status: int, detail: string)
      /** Any other exception that escapes unhandled (transport errors, IndexError, ...). */
    | Unhandled(message: string)

  datatype Result<+T> = Ok(value: T) | Err(error: Error)

  /** A decoded JSON document. */
  datatype Json =
    | JNull
    | JBool(b: bool)
    | JInt(i: int)
    | JStr(s: string)
    | JList(items: seq<Json>)
    | JObject(fields: map<string, Json>)

  /** Python's truth value of the decoded document. */
  predicate Truthy(j: Json) {
    match j
    case JNull => false
    case JBool(b) => b
    case JInt(i) => i != 0
    case JStr(s) => s != ""
    case JList(items) => items != []
    case JObject(fields) => |fields| != 0
  }

  /** `dict.get(key, default)` on a decoded body; any non-dict body has no `get`. */
  function JsonGet(j: Json, key: string, default: Json): Result<Json> {
    match j
    case JObject(fields) => Ok(if key in fields then fields[key] else default)
    case _ => Err(Unhandled("object has no attribute 'get'"))
  }

  /** A received HTTP response; `body` is None when the text is not valid JSON. */
  datatype HttpResponse = HttpResponse(status: int, text: string, body: Option<Json>)

  /** The outcome of one HTTP exchange: a response, or a transport-level exception. */
  datatype Fetch = Fetched(response: HttpResponse) | TransportFailed(cause: string)

  /** An outgoing HTTP request. */
  datatype Request = Request(verb: string, url: string, headers: map<string, string>, body: Option<Json>)

  /** `response.json()`: the decoded body, or the decoder's exception. */
  function DecodeBody(r: HttpResponse): Result<Json> {
    match r.body
    case Some(j) => Ok(j)
    case None => Err(Unhandled("Expecting value: response body is not JSON"))
  }

  /** The username/password record used by every credential store. */
  datatype User = User(username: string, password: string)

  /** Some stored user equals `data` on both fields. */
  predicate Matches(users: seq<User>, data: User) {
    exists i :: 0 <= i < |users| && users[i].username == data.username && users[i].password == data.password
  }

  /** `os.environ.get(name, default)`. */
  function EnvGet(env: map<string, string>, name: string, default: string): string {
    if name in env then env[name] else default
  }

  /** The header every authenticated call sends. */
  function BearerHeader(token: string): map<string, string> {
    map["Authorization" := "Bearer " + token]
  }

  predicate StartsWith(s: string, prefix: string) {
    |prefix| <= |s| && s[..|prefix|] == prefix
  }

  predicate EndsWith(s: string, suffix: string) {
    |suffix| <= |s| && s[|s| - |suffix|..] == suffix
  }

  /** `needle` occurs in `hay` starting at index `i`. */
  predicate OccursAt(hay: string, needle: string, i: int) {
    0 <= i && i + |needle| <= |hay| && hay[i..i + |needle|] == needle
  }

  /** Python's `needle in hay` on strings. */
  predicate Contains(hay: string, needle: string) {
    exists i | 0 <= i <= |hay| - |needle| :: OccursAt(hay, needle, i)
  }

  /** `posixpath.join(a, b)`. */
  function JoinPath(a: string, b: string): (r: string)
    ensures !StartsWith(b, "/") && !EndsWith(a, "/") && a != "" ==> r == a + "/" + b
  {
    if StartsWith(b, "/") then b
    else if a == "" || EndsWith(a, "/") then a + b
    else a + "/" + b
  }

  function DigitChar(d: nat): char
    requires d < 10
  {
    ('0' as int + d) as char
  }

  /** `str(n)` for a natural number. */
  function NatToString(n: nat): string {
    if n < 10 then [DigitChar(n)] else NatToString(n / 10) + [DigitChar(n % 10)]
  }

  function LowerChar(c: char): char {
    if 'A' <= c <= 'Z' then (c as int + 32) as char else c
  }

  function UpperChar(c: char): char {
    if 'a' <= c <= 'z' then (c as int - 32) as char else c
  }

  /** `str.lower()` on ASCII letters. */
  function ToLower(s: string): (r: string)
    ensures |r| == |s|
  {
    seq(|s|, i requires 0 <= i < |s| => LowerChar(s[i]))
  }

  /** `str.upper()` on ASCII letters. */
  function ToUpper(s: string): (r: string)
    ensures |r| == |s|
  {
    seq(|s|, i requires 0 <= i < |s| => UpperChar(s[i]))
  }
}
