/** The statement router of `InferAdapter.execute`: for one SQL string it
    either forwards it to the wrapped warehouse adapter, rejects it in view
    mode, or runs the inference workflow (load queries, dataset manifest, job
    submission, polling, result upload, outer-template rewrite, drop of the
    temporary relation).

    The inference session, the delegate adapter, the seed-based upload and
    `uuid4` are oracles (`Oracles`): each call takes its reply from them, and
    every call made is recorded, in order, in a trace of `Call`s. */
module Router {
  import opened Values
  import Strings
  import Session

  // ---------------------------------------------------------------------------
  // Values the router handles

  /** `str(uuid.uuid4()).replace("-", "")`: 32 lowercase hex digits, no dash. */
  predicate IsHexToken(t: string)
  {
    |t| == 32 && forall k :: 0 <= k < |t| ==> t[k] in "0123456789abcdef"
  }

  type Token = t: string | IsHexToken(t) witness "00000000000000000000000000000000"

  /** A table fetched by the delegate. */
  datatype Table = Table(rows: seq<seq<string>>)

  /** What the delegate's `execute` returns: the adapter response and the table. */
  datatype QueryResult = QueryResult(response: string, table: Table)

  /** The `base64` field of a manifest entry: the CSV of the table, base64-encoded. */
  datatype Encoded = Base64Csv(table: Table)

  /** One entry of the dataset manifest sent with the job. */
  datatype DatasetEntry = DatasetEntry(base64: Encoded, filename: string, tableQuery: string)

  datatype ParseError = ParseError(errorType: string, value: string)

  /** The `result` document of `/parse`: optional keys are `Option`s. */
  datatype ParsedSql = ParsedSql(
    errors: seq<ParseError>,
    inferCommands: Option<Json>,
    loadQueries: Option<seq<string>>,
    outer: Option<string>)

  datatype InfoEntry = InfoEntry(infoType: string, msg: string)

  /** One poll: status, payload and info lines. The loop unpacks three
      values, although `get_dbt_result` in connections.py returns two. */
  datatype PollReply = PollReply(status: Json, payload: Option<Payload>, info: seq<InfoEntry>)

  /** The relation `adapter.Relation.create` describes. */
  datatype Relation = Relation(database: string, schema: string, identifier: string, relationType: string)

  /** An external call the router makes. */
  datatype Call =
    | ParseCall(sql: string)                                              // session.parse
    | DelegateExecute(sql: string, autoBegin: bool, fetch: bool)          // adapter.execute
    | SubmitRun(name: string, query: string, datasets: seq<DatasetEntry>) // session.dbt_run
    | PollRun(runId: Json)                                                // session.get_dbt_result
    | UploadTable(name: string, payload: Payload)                         // upload_data_to_table
    | DropRelation(relation: Relation)                                    // adapter.drop_relation

  /** The replies of the outside world.
      `exec(k)` answers the k-th `execute` of the delegate, `token(k)` is the
      k-th `uuid4`; `polls` lists the successive poll replies (running off its
      end means the loop is still waiting). */
  datatype Oracles = Oracles(
    parse: Result<ParsedSql>,
    exec: nat -> Result<QueryResult>,
    submit: Result<Json>,
    polls: seq<Result<PollReply>>,
    token: nat -> Token,
    upload: Outcome,
    drop: Outcome)

  /** The calling thread's connection, as `execute` finds it. */
  datatype ThreadConnection = Absent | Present(hasHandle: bool)

  // ---------------------------------------------------------------------------
  // Names and the outer rewrite

  const Placeholder: string := "__INNER_SELECT__"

  function DatasetName(t: Token): string
  {
    "tmp_" + t
  }

  function TempTableName(t: Token): string
  {
    "tmp_infer_" + t
  }

  /** A dataset name is `tmp_` and 32 hex digits: 36 characters, no dash. */
  lemma DatasetNameShape(t: Token)
    ensures |DatasetName(t)| == 36 && DatasetName(t)[..4] == "tmp_"
    ensures forall k :: 4 <= k < 36 ==> DatasetName(t)[k] in "0123456789abcdef"
    ensures '-' !in DatasetName(t)
  {
    assert forall k :: 4 <= k < 36 ==> DatasetName(t)[k] == t[k - 4];
  }

  /** Distinct tokens give distinct names, and a dataset name never equals a
      temporary table name. */
  lemma NamesDistinct(t1: Token, t2: Token)
    ensures DatasetName(t1) == DatasetName(t2) <==> t1 == t2
    ensures TempTableName(t1) == TempTableName(t2) <==> t1 == t2
    ensures DatasetName(t1) != TempTableName(t2)
  {
    if DatasetName(t1) == DatasetName(t2) {
      assert t1 == DatasetName(t1)[4..];
    }
    if TempTableName(t1) == TempTableName(t2) {
      assert t1 == TempTableName(t1)[10..];
    }
  }

  /** `SELECT * FROM <schema>.<table>`. */
  function InnerSelect(schema: string, table: string): string
  {
    "SELECT * FROM " + schema + "." + table
  }

  /** `outer.replace("__INNER_SELECT__", "SELECT * FROM <schema>.<table>")`. */
  function OuterSql(outer: string, schema: string, table: string): string
  {
    Strings.ReplaceAll(outer, Placeholder, InnerSelect(schema, table))
  }

  /** The rewrite is a literal substitution: a template without the
      placeholder is executed as it is, and one with it gets the reference. */
  lemma OuterSqlSubstitutes(outer: string, schema: string, table: string)
    ensures !Strings.Contains(outer, Placeholder) ==> OuterSql(outer, schema, table) == outer
    ensures Strings.Contains(outer, Placeholder) ==>
      Strings.Contains(OuterSql(outer, schema, table), InnerSelect(schema, table))
  {
    if Strings.Contains(outer, Placeholder) {
      Strings.ReplaceAllInserts(outer, Placeholder, InnerSelect(schema, table));
    } else {
      Strings.ReplaceAllAbsent(outer, Placeholder, InnerSelect(schema, table));
    }
  }

  /** A template `<a>__INNER_SELECT__<b>` whose first placeholder follows `a`
      becomes `<a>SELECT * FROM <schema>.<table><b rewritten>`. */
  lemma OuterSqlAroundPlaceholder(a: string, b: string, schema: string, table: string)
    requires forall i: nat :: i < |a| ==> !Strings.OccursAt(a + Placeholder + b, Placeholder, i)
    ensures OuterSql(a + Placeholder + b, schema, table) == a + InnerSelect(schema, table) + OuterSql(b, schema, table)
  {
    Strings.ReplaceAllFirst(a, Placeholder, b, InnerSelect(schema, table));
  }

  /** The temporary relation: the generated table name in the delegate's
      database and schema, of type "table". */
  function TempRelation(cfg: Session.DataConfig, t: Token): Relation
  {
    Relation(cfg.database, cfg.schema, TempTableName(t), "table")
  }

  // ---------------------------------------------------------------------------
  // Load queries and the dataset manifest

  function LoadCall(query: string): Call
  {
    DelegateExecute(query, false, true)
  }

  function LoadCalls(queries: seq<string>): (calls: seq<Call>)
    ensures |calls| == |queries|
    ensures forall i :: 0 <= i < |queries| ==> calls[i] == LoadCall(queries[i])
  {
    seq(|queries|, i requires 0 <= i < |queries| => LoadCall(queries[i]))
  }

  /** The index of the first failing `execute` among the first `n`, or `n`. */
  function FirstFailed(exec: nat -> Result<QueryResult>, n: nat): (j: nat)
    ensures j <= n
    ensures forall i :: 0 <= i < j ==> exec(i).Ok?
    ensures j < n ==> exec(j).Err?
  {
    if n == 0 then 0
    else
      var j := FirstFailed(exec, n - 1);
      if j < n - 1 then j
      else if exec(n - 1).Err? then n - 1
      else n
  }

  /** The first failure is the one the contract describes, and no other. */
  lemma FirstFailedUnique(exec: nat -> Result<QueryResult>, n: nat, j: nat)
    requires j <= n
    requires forall i :: 0 <= i < j ==> exec(i).Ok?
    requires j < n ==> exec(j).Err?
    ensures FirstFailed(exec, n) == j
  {
    var f := FirstFailed(exec, n);
    assert f <= j;
    assert j <= f;
  }

  /** The manifest built from the load queries when each of them succeeded. */
  function Manifest(queries: seq<string>, env: Oracles): seq<DatasetEntry>
    requires forall i :: 0 <= i < |queries| ==> env.exec(i).Ok?
  {
    seq(|queries|, i requires 0 <= i < |queries| =>
      DatasetEntry(Base64Csv(env.exec(i).value.table), DatasetName(env.token(i)), queries[i]))
  }

  /** One manifest entry per load query, in order: its query, a `tmp_` name
      from a fresh token, and the encoded table that query returned. */
  lemma ManifestEntries(queries: seq<string>, env: Oracles)
    requires forall i :: 0 <= i < |queries| ==> env.exec(i).Ok?
    ensures |Manifest(queries, env)| == |queries|
    ensures forall i :: 0 <= i < |queries| ==>
      && Manifest(queries, env)[i].tableQuery == queries[i]
      && Manifest(queries, env)[i].filename == "tmp_" + env.token(i)
      && Manifest(queries, env)[i].base64 == Base64Csv(env.exec(i).value.table)
  {
  }

  /** The load loop: each query is executed in order; the first failure
      aborts, otherwise an entry is appended for each query. */
  method LoadDatasets(queries: seq<string>, env: Oracles) returns (r: Result<seq<DatasetEntry>>, calls: seq<Call>)
    ensures var j := FirstFailed(env.exec, |queries|);
      && (j < |queries| ==> r == Err(env.exec(j).error) && calls == LoadCalls(queries[..j + 1]))
      && (j == |queries| ==> r == Ok(Manifest(queries, env)) && calls == LoadCalls(queries))
  {
    var datasets: seq<DatasetEntry> := [];
    calls := [];
    for i := 0 to |queries|
      invariant forall k :: 0 <= k < i ==> env.exec(k).Ok?
      invariant calls == LoadCalls(queries[..i])
      invariant datasets == Manifest(queries[..i], env)
    {
      calls := calls + [LoadCall(queries[i])];
      assert queries[..i + 1] == queries[..i] + [queries[i]];
      var result := env.exec(i);
      if result.Err? {
        FirstFailedUnique(env.exec, |queries|, i);
        return Err(result.error), calls;
      }
      var name := DatasetName(env.token(i));
      datasets := datasets + [DatasetEntry(Base64Csv(result.value.table), name, queries[i])];
    }
    assert queries[..|queries|] == queries;
    FirstFailedUnique(env.exec, |queries|, |queries|);
    r := Ok(datasets);
  }

  // ---------------------------------------------------------------------------
  // Polling

  /** A poll reply that keeps the loop going: status STARTED or RUNNING. */
  predicate StillRunning(r: Result<PollReply>)
  {
    r.Ok? && (r.value.status == JString("STARTED") || r.value.status == JString("RUNNING"))
  }

  /** How many polls the loop makes. */
  function PollCount(polls: seq<Result<PollReply>>): (k: nat)
    ensures k <= |polls|
  {
    if polls == [] then 0
    else if StillRunning(polls[0]) then 1 + PollCount(polls[1..])
    else 1
  }

  /** What the loop ends with: the first reply that is not running (a failed
      poll raises), or `PollingNeverEnds` if every scripted reply was running. */
  function PollOutcome(polls: seq<Result<PollReply>>): Result<PollReply>
  {
    if polls == [] then Err(PollingNeverEnds)
    else if StillRunning(polls[0]) then PollOutcome(polls[1..])
    else polls[0]
  }

  /** The loop stops at the first reply that is not STARTED or RUNNING, and
      only there; every earlier reply was running. */
  lemma {:induction false} PollStopsAtFirstTerminal(polls: seq<Result<PollReply>>)
    ensures var k := PollCount(polls);
      || (PollOutcome(polls) == Err(PollingNeverEnds) && k == |polls|
          && forall i :: 0 <= i < k ==> StillRunning(polls[i]))
      || (1 <= k && PollOutcome(polls) == polls[k - 1] && !StillRunning(polls[k - 1])
          && forall i :: 0 <= i < k - 1 ==> StillRunning(polls[i]))
  {
    if polls != [] && StillRunning(polls[0]) {
      PollStopsAtFirstTerminal(polls[1..]);
      assert forall i :: 1 <= i < |polls| ==> polls[i] == polls[1..][i - 1];
    }
  }

  /** An item of the tuple a poll of the session returns. */
  datatype PollItem = StatusItem(status: Json) | PayloadItem(payload: Option<Payload>) | InfoItem(info: seq<InfoEntry>)

  /** `result_status, result, result_info = <tuple>`: a tuple that does not
      have three items raises before any of the names is bound. */
  function UnpackPoll(t: seq<PollItem>): (r: Result<PollReply>)
    ensures |t| != 3 ==> r == Err(UnpackMismatch(3, |t|))
    ensures r.Ok? ==> t == [StatusItem(r.value.status), PayloadItem(r.value.payload), InfoItem(r.value.info)]
  {
    if |t| != 3 then Err(UnpackMismatch(3, |t|))
    else match (t[0], t[1], t[2])
      case (StatusItem(s), PayloadItem(p), InfoItem(i)) => Ok(PollReply(s, p, i))
      case _ => Err(MalformedReply("poll"))
  }

  /** The tuple `get_dbt_result` returns as written: status and payload only. */
  function SessionPollTuple(reply: (Json, Option<Payload>)): seq<PollItem>
  {
    [StatusItem(reply.0), PayloadItem(reply.1)]
  }

  /** As written, every successful poll of the session fails to unpack: the
      loop raises on its first iteration, so no job result is ever used. */
  lemma SessionPollNeverUnpacks(s: Session.Client, runId: Json, http: Session.Request -> Session.HttpReply)
    requires Session.GetDbtResult(s, runId, http).Ok?
    ensures UnpackPoll(SessionPollTuple(Session.GetDbtResult(s, runId, http).value)) == Err(UnpackMismatch(3, 2))
  {
  }

  /** The tuple the loop expects: status, payload and the job's info lines. */
  function IntendedPollTuple(reply: (Json, Option<Payload>), info: seq<InfoEntry>): seq<PollItem>
  {
    [StatusItem(reply.0), PayloadItem(reply.1), InfoItem(info)]
  }

  /** With the info lines added, a successful poll unpacks into the status and
      payload `get_dbt_result` computed; this is the `PollReply` the loop uses. */
  lemma IntendedPollUnpacks(s: Session.Client, runId: Json, http: Session.Request -> Session.HttpReply, info: seq<InfoEntry>)
    requires Session.GetDbtResult(s, runId, http).Ok?
    ensures var reply := Session.GetDbtResult(s, runId, http).value;
      UnpackPoll(IntendedPollTuple(reply, info)) == Ok(PollReply(reply.0, reply.1, info))
  {
  }

  function PollCalls(runId: Json, k: nat): (calls: seq<Call>)
    ensures |calls| == k
    ensures forall i :: 0 <= i < k ==> calls[i] == PollRun(runId)
  {
    seq(k, _ => PollRun(runId))
  }

  /** The poll loop: poll, and go on while the status is STARTED or RUNNING. */
  method PollUntilDone(runId: Json, polls: seq<Result<PollReply>>) returns (last: Result<PollReply>, calls: seq<Call>)
    ensures last == PollOutcome(polls)
    ensures calls == PollCalls(runId, PollCount(polls))
  {
    var keepRunning := true;
    var i := 0;
    last := Err(PollingNeverEnds);
    calls := [];
    while keepRunning
      invariant i <= |polls|
      invariant calls == PollCalls(runId, i)
      invariant keepRunning ==> PollCount(polls) == i + PollCount(polls[i..])
      invariant keepRunning ==> PollOutcome(polls) == PollOutcome(polls[i..])
      invariant !keepRunning ==> PollCount(polls) == i && PollOutcome(polls) == last
      decreases |polls| - i
    {
      if i == |polls| {
        return Err(PollingNeverEnds), calls;
      }
      var reply := polls[i];
      assert polls[i..][1..] == polls[i + 1..];
      calls := calls + [PollRun(runId)];
      i := i + 1;
      if reply.Err? {
        return reply, calls;
      }
      last := reply;
      keepRunning := reply.value.status == JString("STARTED") || reply.value.status == JString("RUNNING");
    }
  }

  // ---------------------------------------------------------------------------
  // Classifying the terminal status

  /** The error of a job that ended in ERROR: its `type` (default
      'Unknown Internal Error') and its `error` (default ''), or an internal
      error when it gave no document. */
  function JobError(payload: Option<Payload>): Error
  {
    if !PayloadTruthy(payload) then JobInternalError
    else match payload.value
      case RawOutput(JObject(fields)) =>
        JobFailed(GetOr(fields, "type", JString("Unknown Internal Error")), GetOr(fields, "error", JString("")))
      case _ => NotAMapping
  }

  /** The payload to upload, or the error the terminal status raises:
      ERROR always raises, and so does any terminal status without a payload. */
  function Classify(sql: string, last: Result<PollReply>): (r: Result<Payload>)
    ensures r.Ok? <==> last.Ok? && last.value.status != JString("ERROR") && PayloadTruthy(last.value.payload)
    ensures r.Ok? ==> last.value.payload == Some(r.value)
    ensures last.Err? ==> r == last.PropagateFailure()
    ensures last.Ok? && last.value.status == JString("ERROR") ==> r == Err(JobError(last.value.payload))
    ensures last.Ok? && last.value.status != JString("ERROR") && !PayloadTruthy(last.value.payload) ==>
      r == Err(EmptyResult(sql))
  {
    match last
    case Err(e) => Err(e)
    case Ok(reply) =>
      if reply.status == JString("ERROR") then Err(JobError(reply.payload))
      else if !PayloadTruthy(reply.payload) then Err(EmptyResult(sql))
      else Ok(reply.payload.value)
  }

  /** The text of the exception a failed job raises. */
  function JobErrorMessage(e: Error): string
    requires e.JobFailed? || e.JobInternalError?
  {
    if e.JobFailed? then
      "Failed to run SQL-inf command: (" + Show(e.errorType) + ") " + Show(e.detail)
    else
      "Failed to run SQL-inf command: Internal Error"
  }

  /** A job that ended in ERROR with a non-empty error document reports its
      `type` and its `error` (or their defaults); with no document it reports
      an internal error. */
  lemma JobErrorReported(payload: Option<Payload>)
    ensures !PayloadTruthy(payload) ==>
      JobError(payload) == JobInternalError && Strings.Contains(JobErrorMessage(JobError(payload)), "Internal Error")
    ensures PayloadTruthy(payload) && payload.value.RawOutput? && payload.value.doc.JObject? ==>
      var fields := payload.value.doc.fields;
      var e := JobError(payload);
      && e == JobFailed(GetOr(fields, "type", JString("Unknown Internal Error")), GetOr(fields, "error", JString("")))
      && Strings.Contains(JobErrorMessage(e), Show(e.errorType))
      && Strings.Contains(JobErrorMessage(e), Show(e.detail))
  {
    var e := JobError(payload);
    if !PayloadTruthy(payload) {
      var m := JobErrorMessage(e);
      assert m[31..45] == "Internal Error";
      assert Strings.OccursAt(m, "Internal Error", 31);
    } else if payload.value.RawOutput? && payload.value.doc.JObject? {
      var m := JobErrorMessage(e);
      var prefix := "Failed to run SQL-inf command: (";
      var t := Show(e.errorType);
      var d := Show(e.detail);
      assert m == prefix + t + ") " + d;
      assert m[|prefix|..|prefix| + |t|] == t;
      assert Strings.OccursAt(m, t, |prefix|);
      assert m[|prefix| + |t| + 2..] == d;
      assert Strings.OccursAt(m, d, |prefix| + |t| + 2);
    }
  }

  // ---------------------------------------------------------------------------
  // The routing specification

  /** What `execute` does with `sql`, as a relation between the oracles, the
      result and the trace of calls. */
  ghost predicate RouteSpec(sql: string, autoBegin: bool, fetch: bool, conn: ThreadConnection, viewMode: bool,
                            cfg: Session.DataConfig, env: Oracles, out: Result<QueryResult>, trace: seq<Call>)
  {
    match conn
    // no thread connection: a nested execution, forwarded verbatim without parsing
    case Absent => out == env.exec(0) && trace == [DelegateExecute(sql, autoBegin, fetch)]
    case Present(hasHandle) =>
      if !hasHandle then out == Err(NoHandle) && trace == []
      else |trace| >= 1 && trace[0] == ParseCall(sql) && ParsedSpec(sql, autoBegin, fetch, viewMode, cfg, env, out, trace[1..])
  }

  /** After `parse`: parse errors are only logged; a missing `infer_commands`
      raises; no inference commands means passthrough; view mode rejects. */
  ghost predicate ParsedSpec(sql: string, autoBegin: bool, fetch: bool, viewMode: bool,
                             cfg: Session.DataConfig, env: Oracles, out: Result<QueryResult>, calls: seq<Call>)
  {
    match env.parse
    case Err(e) => out == Err(e) && calls == []
    case Ok(p) =>
      if p.inferCommands.None? then out == Err(ParseFailed) && calls == []
      else if !Truthy(p.inferCommands.value) then out == env.exec(0) && calls == [DelegateExecute(sql, autoBegin, fetch)]
      else if viewMode then out == Err(ViewModeRejected) && calls == []
      else if p.loadQueries.None? then out == Err(MalformedReply("load_queries")) && calls == []
      else InferenceSpec(sql, p.loadQueries.value, p.outer, cfg, env, out, calls)
  }

  /** The load queries run in order; the first failure aborts; otherwise
      exactly one job is submitted with `sql` and the full manifest. */
  ghost predicate InferenceSpec(sql: string, queries: seq<string>, outer: Option<string>,
                                cfg: Session.DataConfig, env: Oracles, out: Result<QueryResult>, calls: seq<Call>)
  {
    var j := FirstFailed(env.exec, |queries|);
    if j < |queries| then out == Err(env.exec(j).error) && calls == LoadCalls(queries[..j + 1])
    else
      var submitted := LoadCalls(queries) + [SubmitRun("dbt_run", sql, Manifest(queries, env))];
      |calls| >= |submitted| && calls[..|submitted|] == submitted
      && JobSpec(sql, |queries|, outer, cfg, env, out, calls[|submitted|..])
  }

  /** After the submission: the polls, then the terminal status decides. */
  ghost predicate JobSpec(sql: string, n: nat, outer: Option<string>,
                          cfg: Session.DataConfig, env: Oracles, out: Result<QueryResult>, calls: seq<Call>)
  {
    match env.submit
    case Err(e) => out == Err(e) && calls == []
    case Ok(runId) =>
      var k := PollCount(env.polls);
      |calls| >= k && calls[..k] == PollCalls(runId, k)
      && ResultSpec(sql, n, outer, cfg, env, Classify(sql, PollOutcome(env.polls)), out, calls[k..])
  }

  /** With a payload: upload it under `tmp_infer_<token>`, execute the
      rewritten outer template, and only if that succeeded drop the table. */
  ghost predicate ResultSpec(sql: string, n: nat, outer: Option<string>, cfg: Session.DataConfig, env: Oracles,
                             payload: Result<Payload>, out: Result<QueryResult>, calls: seq<Call>)
  {
    match payload
    case Err(e) => out == Err(e) && calls == []
    case Ok(p) =>
      var table := TempTableName(env.token(n));
      var upload := UploadTable(table, p);
      if env.upload.Fail? then out == Err(env.upload.error) && calls == [upload]
      else if outer.None? then out == Err(MalformedReply("outer")) && calls == [upload]
      else
        var rewritten := DelegateExecute(OuterSql(outer.value, cfg.schema, table), false, true);
        if env.exec(n).Err? then out == env.exec(n) && calls == [upload, rewritten]
        else
          && calls == [upload, rewritten, DropRelation(TempRelation(cfg, env.token(n)))]
          && out == (if env.drop.Fail? then Err(env.drop.error) else env.exec(n))
  }

  // ---------------------------------------------------------------------------
  // The router

  /** Uploads the job's result, executes the rewritten outer template and,
      if that succeeded, drops the temporary table. */
  method HandleResult(sql: string, n: nat, outer: Option<string>, cfg: Session.DataConfig, env: Oracles,
                      payload: Result<Payload>) returns (out: Result<QueryResult>, calls: seq<Call>)
    ensures ResultSpec(sql, n, outer, cfg, env, payload, out, calls)
  {
    if payload.Err? {
      return Err(payload.error), [];
    }
    var table := TempTableName(env.token(n));
    calls := [UploadTable(table, payload.value)];
    if env.upload.Fail? {
      return Err(env.upload.error), calls;
    }
    if outer.None? {
      return Err(MalformedReply("outer")), calls;
    }
    var outerSql := OuterSql(outer.value, cfg.schema, table);
    calls := calls + [DelegateExecute(outerSql, false, true)];
    var outerResult := env.exec(n);
    if outerResult.Err? {
      return outerResult, calls;
    }
    var relation := Relation(cfg.database, cfg.schema, table, "table");
    calls := calls + [DropRelation(relation)];
    if env.drop.Fail? {
      return Err(env.drop.error), calls;
    }
    out := outerResult;
  }

  /** Polls the submitted job and handles its terminal status. */
  method RunJob(sql: string, n: nat, outer: Option<string>, cfg: Session.DataConfig, env: Oracles)
    returns (out: Result<QueryResult>, calls: seq<Call>)
    ensures JobSpec(sql, n, outer, cfg, env, out, calls)
  {
    if env.submit.Err? {
      return Err(env.submit.error), [];
    }
    var runId := env.submit.value;
    var last, pollCalls := PollUntilDone(runId, env.polls);
    var result := Classify(sql, last);
    var rest;
    out, rest := HandleResult(sql, n, outer, cfg, env, result);
    calls := pollCalls + rest;
    assert calls[..|pollCalls|] == pollCalls && calls[|pollCalls|..] == rest;
  }

  /** Runs the load queries, submits the job with the manifest, and runs it. */
  method RunInference(sql: string, queries: seq<string>, outer: Option<string>, cfg: Session.DataConfig, env: Oracles)
    returns (out: Result<QueryResult>, calls: seq<Call>)
    ensures InferenceSpec(sql, queries, outer, cfg, env, out, calls)
  {
    var datasets, loadCalls := LoadDatasets(queries, env);
    if datasets.Err? {
      return Err(datasets.error), loadCalls;
    }
    var submitted := loadCalls + [SubmitRun("dbt_run", sql, datasets.value)];
    var rest;
    out, rest := RunJob(sql, |queries|, outer, cfg, env);
    calls := submitted + rest;
    assert calls[..|submitted|] == submitted && calls[|submitted|..] == rest;
  }

  /** The decisions after `parse`: passthrough, view mode, or inference. */
  method RouteParsed(sql: string, autoBegin: bool, fetch: bool, viewMode: bool, cfg: Session.DataConfig, env: Oracles)
    returns (out: Result<QueryResult>, calls: seq<Call>)
    ensures ParsedSpec(sql, autoBegin, fetch, viewMode, cfg, env, out, calls)
  {
    if env.parse.Err? {
      return Err(env.parse.error), [];
    }
    var parsed := env.parse.value;
    // parse errors are only logged
    if parsed.inferCommands.None? {
      return Err(ParseFailed), [];
    }
    if !Truthy(parsed.inferCommands.value) {
      return env.exec(0), [DelegateExecute(sql, autoBegin, fetch)];
    }
    if viewMode {
      return Err(ViewModeRejected), [];
    }
    if parsed.loadQueries.None? {
      return Err(MalformedReply("load_queries")), [];
    }
    out, calls := RunInference(sql, parsed.loadQueries.value, parsed.outer, cfg, env);
  }

  /** Routes one statement (the body of `InferAdapter.execute` once the
      delegate adapter is known). */
  method Route(sql: string, autoBegin: bool, fetch: bool, conn: ThreadConnection, viewMode: bool,
               cfg: Session.DataConfig, env: Oracles) returns (out: Result<QueryResult>, trace: seq<Call>)
    ensures RouteSpec(sql, autoBegin, fetch, conn, viewMode, cfg, env, out, trace)
  {
    if conn.Absent? {
      // no thread connection: a nested execution
      return env.exec(0), [DelegateExecute(sql, autoBegin, fetch)];
    }
    if !conn.hasHandle {
      return Err(NoHandle), [];
    }
    var calls;
    out, calls := RouteParsed(sql, autoBegin, fetch, viewMode, cfg, env);
    trace := [ParseCall(sql)] + calls;
    assert trace[1..] == calls;
  }
}
