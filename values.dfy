/** Values shared by the session client, the connection manager and the router:
    results and errors, the JSON documents the inference service returns, and
    the payload a job poll hands back. */
module Values {

  import Strings

  datatype Option<+T> = None | Some(value: T)

  /** An error raised somewhere in the adapter. Each variant stands for one
      exception the code raises (or lets escape) with the data its message shows. */
  datatype Error =
    | HttpStatus(endpoint: string, code: int)   // RuntimeError: unexpected status code from an endpoint
    | ConnectFailed(url: string)                // RuntimeError: 'users/me' liveness check failed
    | FetchFailed(url: string, code: int)       // RuntimeError: fetching a result document failed
    | MalformedReply(key: string)               // KeyError/TypeError reading a JSON reply or the parse result
    | PluginNotFound(plugin: string)            // load_plugin / get_adapter_class_by_name failed
    | NoThreadConnection                        // get_thread_connection found no connection for this thread
    | NoHandle                                  // connection.handle is None, so subscripting it fails
    | ParseFailed                               // 'infer_commands' missing from the parse result
    | ViewModeRejected                          // inference commands while in view mode
    | JobFailed(errorType: Json, detail: Json)      // job ended in ERROR with an error document
    | JobInternalError                          // job ended in ERROR with no error document
    | NotAMapping                               // `.get` called on an error payload that is not a dict
    | EmptyResult(sql: string)                  // job ended without a result
    | PollingNeverEnds                          // the poll loop is still waiting (see Router)
    | UnpackMismatch(expected: nat, got: nat)   // ValueError: a tuple of the wrong length unpacked

  datatype Result<+T> = Ok(value: T) | Err(error: Error) {
    predicate IsFailure() { Err? }

    function PropagateFailure<U>(): Result<U>
      requires Err?
    {
      Err(error)
    }

    function Extract(): T
      requires Ok?
    {
      value
    }
  }

  /** The status of an operation that returns nothing. */
  datatype Outcome = Pass | Fail(error: Error)

  /** A JSON document as decoded by `r.json()`. */
  datatype Json =
    | JNull
    | JBool(b: bool)
    | JNumber(n: int)
    | JString(s: string)
    | JArray(items: seq<Json>)
    | JObject(fields: map<string, Json>)

  /** Python truthiness of a decoded JSON value. */
  predicate Truthy(j: Json)
  {
    match j
    case JNull => false
    case JBool(b) => b
    case JNumber(n) => n != 0
    case JString(s) => s != []
    case JArray(items) => items != []
    case JObject(fields) => fields != map[]
  }

  /** `d.get(key, default)` on a JSON object. */
  function GetOr(fields: map<string, Json>, key: string, default: Json): (v: Json)
    ensures key in fields ==> v == fields[key]
    ensures key !in fields ==> v == default
  {
    if key in fields then fields[key] else default
  }

  /** Python's `str` of a decoded JSON scalar, as an f-string prints it.
      Arrays and objects are rendered by a marker only. */
  function Show(j: Json): string
  {
    match j
    case JNull => "None"
    case JBool(b) => if b then "True" else "False"
    case JNumber(n) => Strings.IntToString(n)
    case JString(s) => s
    case JArray(_) => "[...]"
    case JObject(_) => "{...}"
  }

  /** What a job poll returns besides the status: the bytes of a finished
      result, or the raw error document of a failed job. */
  datatype Payload = Content(bytes: seq<bv8>) | RawOutput(doc: Json)

  /** Python truthiness of the poll payload (`None`, empty bytes and empty
      documents are false). */
  predicate PayloadTruthy(p: Option<Payload>)
  {
    match p
    case None => false
    case Some(Content(bytes)) => bytes != []
    case Some(RawOutput(doc)) => Truthy(doc)
  }
}
