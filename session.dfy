/** The credentials of an `infer` profile and the client of the inference
    service (`InferCredentials` and `InferSession` in connections.py).
    The network is an oracle `http` that answers each request; what is modelled
    is which requests are made, which status codes are accepted, and what each
    call returns or raises. */
module Session {
  import opened Values
  import Strings

  /** The characters `strip("\"'")` removes. */
  const QuoteChars: set<char> := {'"', '\''}

  /** The nested `data_config`: which warehouse adapter to delegate to, and
      its own identity fields. */
  datatype DataConfig = DataConfig(adapterType: string, database: string, schema: string, project: string)

  /** An `infer` profile: service URL, principal, secret, and the delegate's configuration. */
  datatype Credentials = Credentials(url: string, username: string, apikey: string, dataConfig: DataConfig)

  /** `s.strip("\"'")`: the surrounding quote characters removed; removing
      them again changes nothing. */
  function StripQuotes(s: string): (p: string)
    ensures |p| <= |s|
    ensures p != [] ==> p[0] !in QuoteChars && p[|p| - 1] !in QuoteChars
    ensures Strings.Strip(p, QuoteChars) == p
  {
    Strings.StripIdempotent(s, QuoteChars);
    Strings.Strip(s, QuoteChars)
  }

  /** A name wrapped in any run of quote characters comes back bare. */
  lemma StripQuotesUnwraps(before: string, name: string, after: string)
    requires forall k :: 0 <= k < |before| ==> before[k] in QuoteChars
    requires forall k :: 0 <= k < |after| ==> after[k] in QuoteChars
    requires name != [] ==> name[0] !in QuoteChars && name[|name| - 1] !in QuoteChars
    ensures StripQuotes(before + name + after) == name
  {
    var s := before + name + after;
    assert s[|before|..|before| + |name|] == name;
    Strings.StripUnique(s, QuoteChars, |before|, |before| + |name|);
  }

  /** `project`, read through to the delegate configuration with the
      surrounding quote characters removed. */
  function Project(c: Credentials): (p: string)
    ensures |p| <= |c.dataConfig.project|
    ensures p != [] ==> p[0] !in QuoteChars && p[|p| - 1] !in QuoteChars
    ensures StripQuotes(p) == p
  {
    StripQuotes(c.dataConfig.project)
  }

  /** `project` as the credentials answer it when `data_config` is the dict it
      is declared as: the attribute read on the dict fails, the lookup falls
      back to the delegate's own credentials, and their project comes back
      with its quotes still on. Stripping it gives the intended `project`. */
  function ProjectAsWritten(c: Credentials): (p: string)
    ensures StripQuotes(p) == Project(c)
  {
    c.dataConfig.project
  }

  /** The as-written `project` agrees with the intended one exactly when the
      configured project has no quote character at either end. */
  lemma ProjectAsWrittenAgrees(c: Credentials)
    ensures var q := c.dataConfig.project;
      ProjectAsWritten(c) == Project(c) <==> (q != [] ==> q[0] !in QuoteChars && q[|q| - 1] !in QuoteChars)
  {
    var q := c.dataConfig.project;
    if q != [] ==> q[0] !in QuoteChars && q[|q| - 1] !in QuoteChars {
      assert [] + q + [] == q;
      StripQuotesUnwraps([], q, []);
    }
  }

  /** A quoted project, `"analytics"`, is reported with its quotes as
      written, and bare when stripped. */
  lemma QuotedProjectKeepsQuotes(c: Credentials)
    requires c.dataConfig.project == "\"analytics\""
    ensures ProjectAsWritten(c) == "\"analytics\""
    ensures Project(c) == "analytics"
  {
    assert "\"" + "analytics" + "\"" == c.dataConfig.project;
    StripQuotesUnwraps("\"", "analytics", "\"");
  }

  /** The identity the credentials report: the adapter type, the connection
      keys, and `database`, `schema` and `unique_field` read through to the
      delegate configuration. */
  lemma CredentialsIdentity(c: Credentials)
    ensures CredentialsType() == "infer"
    ensures ConnectionKeys() == ["database", "schema"]
    ensures Database(c) == c.dataConfig.database && Schema(c) == c.dataConfig.schema
    ensures UniqueField(c) == c.dataConfig.database
  {
  }

  function CredentialsType(): string { "infer" }

  function ConnectionKeys(): seq<string> { ["database", "schema"] }

  function Database(c: Credentials): string { c.dataConfig.database }

  function Schema(c: Credentials): string { c.dataConfig.schema }

  function UniqueField(c: Credentials): string { Database(c) }

  // ---------------------------------------------------------------------------
  // The Authorization header

  const TokenPrefix: string := "Token token=\""
  const EmailSeparator: string := "\",email="

  /** `Token token="<apikey>",email=<username>`. */
  function AuthHeader(apikey: string, username: string): string
  {
    TokenPrefix + apikey + EmailSeparator + username
  }

  /** The first index of `c` in `s`, or `|s|` when there is none. */
  function IndexOf(s: string, c: char): (i: nat)
    ensures i <= |s|
    ensures forall k :: 0 <= k < i ==> s[k] != c
    ensures i < |s| ==> s[i] == c
  {
    if s == [] then 0
    else if s[0] == c then 0
    else 1 + IndexOf(s[1..], c)
  }

  /** Reads the API key and the user back out of an Authorization header. */
  function ParseAuthHeader(h: string): Option<(string, string)>
  {
    if |h| < |TokenPrefix| || h[..|TokenPrefix|] != TokenPrefix then None
    else
      var rest := h[|TokenPrefix|..];
      var q := IndexOf(rest, '"');
      var tail := rest[q..];
      if |tail| < |EmailSeparator| || tail[..|EmailSeparator|] != EmailSeparator then None
      else Some((rest[..q], tail[|EmailSeparator|..]))
  }

  /** The header determines the key and the user, as long as the key holds no
      double quote (the header does not escape one). */
  lemma AuthHeaderRoundTrip(apikey: string, username: string)
    requires '"' !in apikey
    ensures ParseAuthHeader(AuthHeader(apikey, username)) == Some((apikey, username))
  {
    var h := AuthHeader(apikey, username);
    assert h[..|TokenPrefix|] == TokenPrefix;
    var rest := h[|TokenPrefix|..];
    assert rest == apikey + EmailSeparator + username;
    var q := IndexOf(rest, '"');
    assert rest[|apikey|] == '"';
    assert forall k :: 0 <= k < |apikey| ==> rest[k] == apikey[k];
    assert q == |apikey|;
    assert rest[..q] == apikey;
    var tail := rest[q..];
    assert tail == EmailSeparator + username;
    assert tail[..|EmailSeparator|] == EmailSeparator;
    assert tail[|EmailSeparator|..] == username;
  }

  /** Every header that parses is the header of what it parses to. */
  lemma ParseAuthHeaderSound(h: string, apikey: string, username: string)
    requires ParseAuthHeader(h) == Some((apikey, username))
    ensures '"' !in apikey
    ensures AuthHeader(apikey, username) == h
  {
    var rest := h[|TokenPrefix|..];
    var q := IndexOf(rest, '"');
    var tail := rest[q..];
    assert rest == rest[..q] + tail;
    assert tail == EmailSeparator + tail[|EmailSeparator|..];
    assert h == h[..|TokenPrefix|] + rest;
  }

  /** The headers every request of a session carries. */
  function Headers(c: Credentials): map<string, string>
  {
    map["Authorization" := AuthHeader(c.apikey, c.username), "Content-Type" := "application/json"]
  }

  // ---------------------------------------------------------------------------
  // Endpoints and accepted status codes

  /** `<url>/api/v1`, the base of every endpoint. */
  function ApiUrl(url: string): string
  {
    url + "/api/v1"
  }

  datatype Endpoint =
    | UsersMe
    | ParseSql
    | DatasetResults(datasetId: Json)
    | DbtRuns
    | DbtRunStatus(runId: Json)
    | Results(resultId: Json)
    | Datasets
    | Dataset(datasetId: Json)

  function Path(e: Endpoint): string
  {
    match e
    case UsersMe => "/users/me"
    case ParseSql => "/parse"
    case DatasetResults(id) => "/datasets/" + Show(id) + "/results"
    case DbtRuns => "/dbt_runs"
    case DbtRunStatus(id) => "/dbt_runs/" + Show(id)
    case Results(id) => "/results/" + Show(id)
    case Datasets => "/datasets"
    case Dataset(id) => "/datasets/" + Show(id)
  }

  /** The name the error message gives the endpoint. */
  function Name(e: Endpoint): string
  {
    match e
    case UsersMe => "users/me"
    case ParseSql => "parse"
    case DatasetResults(_) => "datasets/results"
    case DbtRuns => "dbt_runs"
    case DbtRunStatus(_) => "dbt_runs"
    case Results(_) => "results"
    case Datasets => "datasets"
    case Dataset(_) => "datasets"
  }

  /** Status codes an endpoint accepts: 200 everywhere, and 204 as well for
      the dataset deletion. */
  function Accepted(e: Endpoint): (codes: set<int>)
    ensures 200 in codes
    ensures codes <= {200, 204}
    ensures 204 in codes <==> e.Dataset?
  {
    if e.Dataset? then {200, 204} else {200}
  }

  datatype Verb = Get | Post | Delete

  /** One HTTP request as the session sends it. */
  datatype Request = Request(verb: Verb, url: string, headers: map<string, string>, body: Json)

  /** One HTTP reply: the status code, the decoded JSON body and the raw content. */
  datatype HttpReply = HttpReply(code: int, body: Json, content: seq<bv8>)

  /** A connected session: the service URL, the API base and the headers. */
  datatype Client = Client(baseurl: string, url: string, headers: map<string, string>)

  function EndpointUrl(s: Client, e: Endpoint): string
  {
    s.url + Path(e)
  }

  /** The request the session sends to an endpoint. */
  function RequestTo(s: Client, verb: Verb, e: Endpoint, body: Json): Request
  {
    Request(verb, EndpointUrl(s, e), s.headers, body)
  }

  /** Sends one request; a status the endpoint does not accept raises. */
  function Send(s: Client, verb: Verb, e: Endpoint, body: Json, http: Request -> HttpReply): (r: Result<HttpReply>)
    ensures r.Ok? <==> http(RequestTo(s, verb, e, body)).code in Accepted(e)
    ensures r.Ok? ==> r.value == http(RequestTo(s, verb, e, body))
    ensures r.Err? ==> r.error == HttpStatus(Name(e), http(RequestTo(s, verb, e, body)).code)
  {
    var reply := http(RequestTo(s, verb, e, body));
    if reply.code in Accepted(e) then Ok(reply) else Err(HttpStatus(Name(e), reply.code))
  }

  /** `body[key]` on a decoded reply; a missing key or a body that is not an object raises. */
  function Field(body: Json, key: string): (r: Result<Json>)
    ensures r.Ok? <==> body.JObject? && key in body.fields
    ensures r.Ok? ==> r.value == body.fields[key]
    ensures r.Err? ==> r.error == MalformedReply(key)
  {
    if body.JObject? && key in body.fields then Ok(body.fields[key]) else Err(MalformedReply(key))
  }

  /** Session construction: set the headers, then check liveness on `users/me`. */
  function Connect(c: Credentials, http: Request -> HttpReply): (r: Result<Client>)
    ensures var reply := http(Request(Get, ApiUrl(c.url) + "/users/me", Headers(c), JNull));
      && (r.Ok? <==> reply.code == 200)
      && (r.Ok? ==> r.value == Client(c.url, ApiUrl(c.url), Headers(c)))
      && (r.Err? ==> r.error == ConnectFailed(ApiUrl(c.url)))
  {
    var s := Client(c.url, ApiUrl(c.url), Headers(c));
    var reply := http(RequestTo(s, Get, UsersMe, JNull));
    if reply.code != 200 then Err(ConnectFailed(s.url)) else Ok(s)
  }

  /** Every endpoint request a session sends goes under `<url>/api/v1`, and
      every result fetch to `<url><path>`; both carry the credentials'
      Authorization header. */
  lemma SessionRequests(c: Credentials, http: Request -> HttpReply, verb: Verb, e: Endpoint, body: Json, path: Json)
    requires Connect(c, http).Ok?
    ensures var req := RequestTo(Connect(c, http).value, verb, e, body);
      && |ApiUrl(c.url)| <= |req.url| && req.url[..|ApiUrl(c.url)|] == ApiUrl(c.url)
      && req.headers["Authorization"] == AuthHeader(c.apikey, c.username)
    ensures var s := Connect(c, http).value;
      var fetch := Request(Get, s.baseurl + Show(path), s.headers, JNull);
      && fetch.url == c.url + Show(path)
      && fetch.headers["Authorization"] == AuthHeader(c.apikey, c.username)
      && (Fetch(s, path, http).Ok? <==> http(fetch).code == 200)
  {
    var s := Connect(c, http).value;
    assert EndpointUrl(s, e) == ApiUrl(c.url) + Path(e);
  }

  /** `parse`: POST the statement, return the `result` document. */
  function Parse(s: Client, sql: string, http: Request -> HttpReply): (r: Result<Json>)
    ensures var sent := Send(s, Post, ParseSql, JObject(map["q" := JString(sql)]), http);
      && (sent.Err? ==> r == Err(sent.error))
      && (sent.Ok? ==> r == Field(sent.value.body, "result"))
  {
    var reply :- Send(s, Post, ParseSql, JObject(map["q" := JString(sql)]), http);
    Field(reply.body, "result")
  }

  /** `single_dataset_run`: POST a query against one dataset, return the result id. */
  function SingleDatasetRun(s: Client, datasetId: Json, name: string, query: string, http: Request -> HttpReply): (r: Result<Json>)
    ensures var body := JObject(map["result" := JObject(map["name" := JString(name), "query" := JString(query)])]);
      var sent := Send(s, Post, DatasetResults(datasetId), body, http);
      && (sent.Err? ==> r == Err(sent.error))
      && (sent.Ok? ==> r == Field(sent.value.body, "id"))
  {
    var body := JObject(map["result" := JObject(map["name" := JString(name), "query" := JString(query)])]);
    var reply :- Send(s, Post, DatasetResults(datasetId), body, http);
    Field(reply.body, "id")
  }

  /** The `dbt_run` document: name (also the description), query and dataset manifest. */
  function RunDocument(name: string, query: string, datasets: Json): Json
  {
    JObject(map["dbt_run" := JObject(map["name" := JString(name), "description" := JString(name),
                                         "query" := JString(query), "datasets" := datasets])])
  }

  /** `dbt_run`: submit a job, return its id. */
  function DbtRun(s: Client, name: string, query: string, datasets: Json, http: Request -> HttpReply): (r: Result<Json>)
    ensures var sent := Send(s, Post, DbtRuns, RunDocument(name, query, datasets), http);
      && (sent.Err? ==> r == Err(sent.error))
      && (sent.Ok? ==> r == Field(sent.value.body, "id"))
  {
    var reply :- Send(s, Post, DbtRuns, RunDocument(name, query, datasets), http);
    Field(reply.body, "id")
  }

  /** Fetches a result document from `<baseurl><path>`; anything but 200 raises. */
  function Fetch(s: Client, path: Json, http: Request -> HttpReply): (r: Result<seq<bv8>>)
    ensures var reply := http(Request(Get, s.baseurl + Show(path), s.headers, JNull));
      && (r.Ok? <==> reply.code == 200)
      && (r.Ok? ==> r.value == reply.content)
      && (r.Err? ==> r.error == FetchFailed(s.baseurl + Show(path), reply.code))
  {
    var url := s.baseurl + Show(path);
    var reply := http(Request(Get, url, s.headers, JNull));
    if reply.code != 200 then Err(FetchFailed(url, reply.code)) else Ok(reply.content)
  }

  /** `get_dbt_result`: the job status and, for COMPLETED, the content behind
      `output_url`; for ERROR, the `raw_output` document; for any other status,
      no payload. It returns two values (see the router's poll loop). */
  function GetDbtResult(s: Client, runId: Json, http: Request -> HttpReply): (r: Result<(Json, Option<Payload>)>)
    ensures var sent := Send(s, Get, DbtRunStatus(runId), JNull, http);
      && (sent.Err? ==> r == Err(sent.error))
      && (r.Ok? ==> sent.Ok? && Field(sent.value.body, "status") == Ok(r.value.0))
      && (r.Ok? ==> (r.value.1.Some? <==> r.value.0 == JString("COMPLETED") || r.value.0 == JString("ERROR")))
      && (sent.Ok? ==> StatusReplyOutcome(s, sent.value.body, "output_url", true, http, r))
  {
    var reply :- Send(s, Get, DbtRunStatus(runId), JNull, http);
    var status :- Field(reply.body, "status");
    if status == JString("COMPLETED") then
      var path :- Field(reply.body, "output_url");
      var content :- Fetch(s, path, http);
      Ok((status, Some(Content(content))))
    else if status == JString("ERROR") then
      var raw :- Field(reply.body, "raw_output");
      Ok((status, Some(RawOutput(raw))))
    else
      Ok((status, None))
  }

  /** What a status call returns for an accepted reply `body`, case by case:
      a missing `status` raises; COMPLETED fetches the document behind
      `urlKey` (a missing key or a failed fetch raises); ERROR yields
      `raw_output` when `withError` (a missing key raises) and nothing
      otherwise; every other status yields no payload. */
  ghost predicate StatusReplyOutcome(s: Client, body: Json, urlKey: string, withError: bool,
                                     http: Request -> HttpReply, r: Result<(Json, Option<Payload>)>)
  {
    var status := Field(body, "status");
    && (status.Err? ==> r == Err(MalformedReply("status")))
    && (status == Ok(JString("COMPLETED")) ==>
          var path := Field(body, urlKey);
          && (path.Err? ==> r == Err(MalformedReply(urlKey)))
          && (path.Ok? ==>
                var fetched := Fetch(s, path.value, http);
                && (fetched.Err? ==> r == Err(fetched.error))
                && (fetched.Ok? ==> r == Ok((JString("COMPLETED"), Some(Content(fetched.value)))))))
    && (status == Ok(JString("ERROR")) && withError ==>
          var raw := Field(body, "raw_output");
          && (raw.Err? ==> r == Err(MalformedReply("raw_output")))
          && (raw.Ok? ==> r == Ok((JString("ERROR"), Some(RawOutput(raw.value))))))
    && (status.Ok? && status.value != JString("COMPLETED") && (withError ==> status.value != JString("ERROR")) ==>
          r == Ok((status.value, None)))
  }

  /** `get_result`: the status and, only for COMPLETED, the content behind
      `result_url`; ERROR and every other status carry no payload. */
  function GetResult(s: Client, resultId: Json, http: Request -> HttpReply): (r: Result<(Json, Option<Payload>)>)
    ensures var sent := Send(s, Get, Results(resultId), JNull, http);
      && (sent.Err? ==> r == Err(sent.error))
      && (r.Ok? ==> sent.Ok? && Field(sent.value.body, "status") == Ok(r.value.0))
      && (r.Ok? ==> (r.value.1.Some? <==> r.value.0 == JString("COMPLETED")))
      && (sent.Ok? ==> StatusReplyOutcome(s, sent.value.body, "result_url", false, http, r))
  {
    var reply :- Send(s, Get, Results(resultId), JNull, http);
    var status :- Field(reply.body, "status");
    if status == JString("COMPLETED") then
      var path :- Field(reply.body, "result_url");
      var content :- Fetch(s, path, http);
      Ok((status, Some(Content(content))))
    else
      Ok((status, None))
  }

  /** An accepted status reply returns exactly when it carries a `status`
      and, for COMPLETED, the result document can be fetched; a RUNNING job
      therefore always answers `(RUNNING, None)`. */
  lemma GetDbtResultSucceeds(s: Client, runId: Json, http: Request -> HttpReply)
    requires Send(s, Get, DbtRunStatus(runId), JNull, http).Ok?
    ensures var body := Send(s, Get, DbtRunStatus(runId), JNull, http).value.body;
      var status := Field(body, "status");
      GetDbtResult(s, runId, http).Ok? <==>
        && status.Ok?
        && (status.value == JString("COMPLETED") ==>
              Field(body, "output_url").Ok? && Fetch(s, Field(body, "output_url").value, http).Ok?)
        && (status.value == JString("ERROR") ==> Field(body, "raw_output").Ok?)
    ensures var body := Send(s, Get, DbtRunStatus(runId), JNull, http).value.body;
      Field(body, "status") == Ok(JString("RUNNING")) ==> GetDbtResult(s, runId, http) == Ok((JString("RUNNING"), None))
  {
  }

  /** `delete_dataset`: 200 and 204 both succeed. */
  function DeleteDataset(s: Client, datasetId: Json, http: Request -> HttpReply): (r: Outcome)
    ensures var code := http(RequestTo(s, Delete, Dataset(datasetId), JNull)).code;
      && (r.Pass? <==> code == 200 || code == 204)
      && (r.Fail? ==> r.error == HttpStatus("datasets", code))
  {
    match Send(s, Delete, Dataset(datasetId), JNull, http)
    case Ok(_) => Pass
    case Err(e) => Fail(e)
  }

  /** `create_dataset`: POST the named, encoded data, return the dataset id. */
  function CreateDataset(s: Client, name: string, query: string, data: string, http: Request -> HttpReply): (r: Result<Json>)
    ensures var body := JObject(map["dataset" := JObject(map["name" := JString(name), "description" := JString(query),
                                                            "source_file" := JObject(map["data" := JString(data)])])]);
      var sent := Send(s, Post, Datasets, body, http);
      && (sent.Err? ==> r == Err(sent.error))
      && (sent.Ok? ==> r == Field(sent.value.body, "id"))
  {
    var body := JObject(map["dataset" := JObject(map["name" := JString(name), "description" := JString(query),
                                                    "source_file" := JObject(map["data" := JString(data)])])]);
    var reply :- Send(s, Post, Datasets, body, http);
    Field(reply.body, "id")
  }
}
