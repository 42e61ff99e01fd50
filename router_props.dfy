/** Properties of the routing specification: which branch is taken, which
    calls happen in which order, what is executed and what is dropped. */
module RouterProperties {
  import opened Values
  import opened Router
  import Session

  /** The statement reaches the inference workflow: a connection with a
      handle, a parse result whose `infer_commands` is non-empty, view mode
      off and a list of load queries. */
  ghost predicate Infers(conn: ThreadConnection, viewMode: bool, env: Oracles)
  {
    && conn == Present(true)
    && env.parse.Ok?
    && env.parse.value.inferCommands.Some?
    && Truthy(env.parse.value.inferCommands.value)
    && !viewMode
    && env.parse.value.loadQueries.Some?
  }

  function Queries(env: Oracles): seq<string>
    requires env.parse.Ok? && env.parse.value.loadQueries.Some?
  {
    env.parse.value.loadQueries.value
  }

  /** Without a thread connection, or when `infer_commands` is empty, the
      statement goes to the delegate verbatim and its result comes back
      unchanged; nothing else is called (not even `parse` without a
      connection). */
  lemma PassthroughForwardsVerbatim(sql: string, autoBegin: bool, fetch: bool, conn: ThreadConnection, viewMode: bool,
                                    cfg: Session.DataConfig, env: Oracles, out: Result<QueryResult>, trace: seq<Call>)
    requires RouteSpec(sql, autoBegin, fetch, conn, viewMode, cfg, env, out, trace)
    requires conn.Absent? || (conn == Present(true) && env.parse.Ok? && env.parse.value.inferCommands.Some?
                              && !Truthy(env.parse.value.inferCommands.value))
    ensures out == env.exec(0)
    ensures trace[|trace| - 1] == DelegateExecute(sql, autoBegin, fetch)
    ensures forall i :: 0 <= i < |trace| - 1 ==> trace[i] == ParseCall(sql)
    ensures conn.Absent? ==> trace == [DelegateExecute(sql, autoBegin, fetch)]
  {
    if conn.Present? {
      assert trace == [trace[0]] + trace[1..];
    }
  }

  /** The oracles other than `parse` agree. */
  ghost predicate SameServices(env1: Oracles, env2: Oracles)
  {
    && env1.exec == env2.exec && env1.submit == env2.submit && env1.polls == env2.polls
    && env1.token == env2.token && env1.upload == env2.upload && env1.drop == env2.drop
  }

  lemma JobSpecIgnoresParse(sql: string, n: nat, outer: Option<string>, cfg: Session.DataConfig,
                            env1: Oracles, env2: Oracles, out: Result<QueryResult>, calls: seq<Call>)
    requires SameServices(env1, env2)
    ensures JobSpec(sql, n, outer, cfg, env1, out, calls) <==> JobSpec(sql, n, outer, cfg, env2, out, calls)
  {
    var k := PollCount(env1.polls);
    if env1.submit.Ok? && k <= |calls| {
      var payload := Classify(sql, PollOutcome(env1.polls));
      assert ResultSpec(sql, n, outer, cfg, env1, payload, out, calls[k..]) <==>
             ResultSpec(sql, n, outer, cfg, env2, payload, out, calls[k..]);
    }
  }

  lemma InferenceSpecIgnoresParse(sql: string, queries: seq<string>, outer: Option<string>, cfg: Session.DataConfig,
                                  env1: Oracles, env2: Oracles, out: Result<QueryResult>, calls: seq<Call>)
    requires SameServices(env1, env2)
    ensures InferenceSpec(sql, queries, outer, cfg, env1, out, calls) <==>
            InferenceSpec(sql, queries, outer, cfg, env2, out, calls)
  {
    var m := |queries| + 1;
    if FirstFailed(env1.exec, |queries|) == |queries| && m <= |calls| {
      assert Manifest(queries, env1) == Manifest(queries, env2);
      JobSpecIgnoresParse(sql, |queries|, outer, cfg, env1, env2, out, calls[m..]);
    }
  }

  /** Parse errors are only logged: replacing them changes neither the
      result nor the calls. */
  lemma ParseErrorsOnlyLogged(sql: string, autoBegin: bool, fetch: bool, conn: ThreadConnection, viewMode: bool,
                              cfg: Session.DataConfig, env: Oracles, errors: seq<ParseError>,
                              out: Result<QueryResult>, trace: seq<Call>)
    requires env.parse.Ok?
    ensures RouteSpec(sql, autoBegin, fetch, conn, viewMode, cfg, env, out, trace) <==>
            RouteSpec(sql, autoBegin, fetch, conn, viewMode, cfg,
                      env.(parse := Ok(env.parse.value.(errors := errors))), out, trace)
  {
    var env2 := env.(parse := Ok(env.parse.value.(errors := errors)));
    var p := env.parse.value;
    if conn == Present(true) && |trace| >= 1 && p.loadQueries.Some? {
      InferenceSpecIgnoresParse(sql, p.loadQueries.value, p.outer, cfg, env, env2, out, trace[1..]);
    }
  }

  /** A parse result without `infer_commands` raises right after `parse`,
      whatever its errors. */
  lemma MissingCommandsRaise(sql: string, autoBegin: bool, fetch: bool, viewMode: bool,
                             cfg: Session.DataConfig, env: Oracles, out: Result<QueryResult>, trace: seq<Call>)
    requires RouteSpec(sql, autoBegin, fetch, Present(true), viewMode, cfg, env, out, trace)
    requires env.parse.Ok? && env.parse.value.inferCommands.None?
    ensures out == Err(ParseFailed) && trace == [ParseCall(sql)]
  {
    assert trace == [trace[0]] + trace[1..];
  }

  /** In view mode no load query runs and no job is submitted: the call
      after `parse` can only be the passthrough. */
  lemma ViewModeNeverSubmits(sql: string, autoBegin: bool, fetch: bool, conn: ThreadConnection,
                             cfg: Session.DataConfig, env: Oracles, out: Result<QueryResult>, trace: seq<Call>)
    requires RouteSpec(sql, autoBegin, fetch, conn, true, cfg, env, out, trace)
    ensures |trace| <= 2
    ensures forall i :: 0 <= i < |trace| ==> trace[i] == ParseCall(sql) || trace[i] == DelegateExecute(sql, autoBegin, fetch)
    ensures (conn == Present(true) && env.parse.Ok? && env.parse.value.inferCommands.Some?
             && Truthy(env.parse.value.inferCommands.value)) ==> out == Err(ViewModeRejected) && trace == [ParseCall(sql)]
  {
    if conn == Present(true) {
      assert trace == [trace[0]] + trace[1..];
    }
  }

  /** The calls after the submission: polls, then at most an upload, the
      outer execution and a drop. */
  lemma {:induction false} JobCalls(sql: string, n: nat, outer: Option<string>, cfg: Session.DataConfig, env: Oracles,
                                     out: Result<QueryResult>, calls: seq<Call>)
    requires JobSpec(sql, n, outer, cfg, env, out, calls)
    ensures forall i :: 0 <= i < |calls| ==> !calls[i].SubmitRun? && !calls[i].ParseCall?
    ensures forall i :: 0 <= i < |calls| && calls[i].PollRun? ==> i < PollCount(env.polls)
  {
    if env.submit.Ok? {
      var k := PollCount(env.polls);
      assert calls == calls[..k] + calls[k..];
      assert forall i :: k <= i < |calls| ==> calls[i] == calls[k..][i - k];
    }
  }

  /** On the inference path, when every load query succeeds: `parse`, the
      load queries in order, then exactly one submission carrying `sql` and
      the full manifest, and no further `parse` or submission afterwards. */
  lemma SubmitsOnceBeforePolling(sql: string, autoBegin: bool, fetch: bool, conn: ThreadConnection, viewMode: bool,
                                 cfg: Session.DataConfig, env: Oracles, out: Result<QueryResult>, trace: seq<Call>)
    requires RouteSpec(sql, autoBegin, fetch, conn, viewMode, cfg, env, out, trace)
    requires Infers(conn, viewMode, env)
    requires FirstFailed(env.exec, |Queries(env)|) == |Queries(env)|
    ensures var qs := Queries(env);
      && |trace| >= |qs| + 2
      && trace[..|qs| + 2] == [ParseCall(sql)] + LoadCalls(qs) + [SubmitRun("dbt_run", sql, Manifest(qs, env))]
      && (forall i :: |qs| + 2 <= i < |trace| ==> !trace[i].SubmitRun? && !trace[i].ParseCall?)
      && (forall i :: 0 <= i < |trace| && trace[i].PollRun? ==> |qs| + 2 <= i)
  {
    var qs := Queries(env);
    var submitted := LoadCalls(qs) + [SubmitRun("dbt_run", sql, Manifest(qs, env))];
    var rest := trace[1..][|submitted|..];
    assert trace[1..][..|submitted|] == submitted;
    assert trace[..|qs| + 2] == [ParseCall(sql)] + submitted by {
      assert trace[..|qs| + 2] == [trace[0]] + trace[1..][..|submitted|];
    }
    JobCalls(sql, |qs|, env.parse.value.outer, cfg, env, out, rest);
    assert forall i :: |qs| + 2 <= i < |trace| ==> trace[i] == rest[i - |qs| - 2];
  }

  /** If a load query fails, its error is raised after the queries up to
      and including it, and no job is submitted. */
  lemma LoadFailureAborts(sql: string, autoBegin: bool, fetch: bool, conn: ThreadConnection, viewMode: bool,
                          cfg: Session.DataConfig, env: Oracles, out: Result<QueryResult>, trace: seq<Call>)
    requires RouteSpec(sql, autoBegin, fetch, conn, viewMode, cfg, env, out, trace)
    requires Infers(conn, viewMode, env)
    requires FirstFailed(env.exec, |Queries(env)|) < |Queries(env)|
    ensures var j := FirstFailed(env.exec, |Queries(env)|);
      && out == Err(env.exec(j).error)
      && trace == [ParseCall(sql)] + LoadCalls(Queries(env)[..j + 1])
      && forall i :: 0 <= i < |trace| ==> !trace[i].SubmitRun? && !trace[i].PollRun?
  {
    assert trace == [trace[0]] + trace[1..];
  }

  /** A job that ends in ERROR raises its error, and nothing is uploaded or
      executed after the polls. */
  lemma ErrorStatusRaises(sql: string, autoBegin: bool, fetch: bool, conn: ThreadConnection, viewMode: bool,
                          cfg: Session.DataConfig, env: Oracles, out: Result<QueryResult>, trace: seq<Call>)
    requires RouteSpec(sql, autoBegin, fetch, conn, viewMode, cfg, env, out, trace)
    requires Infers(conn, viewMode, env)
    requires FirstFailed(env.exec, |Queries(env)|) == |Queries(env)|
    requires env.submit.Ok?
    requires PollOutcome(env.polls).Ok? && PollOutcome(env.polls).value.status == JString("ERROR")
    ensures out == Err(JobError(PollOutcome(env.polls).value.payload))
    ensures |trace| == |Queries(env)| + 2 + PollCount(env.polls)
    ensures forall i :: |Queries(env)| + 2 <= i < |trace| ==> trace[i] == PollRun(env.submit.value)
  {
    var qs := Queries(env);
    var submitted := LoadCalls(qs) + [SubmitRun("dbt_run", sql, Manifest(qs, env))];
    var rest := trace[1..][|submitted|..];
    var k := PollCount(env.polls);
    assert rest == rest[..k];
    assert forall i :: |qs| + 2 <= i < |trace| ==> trace[i] == rest[i - |qs| - 2];
  }

  /** The tail of a successful workflow: upload, outer execution, drop. */
  lemma ResultCalls(sql: string, n: nat, outer: Option<string>, cfg: Session.DataConfig, env: Oracles,
                    payload: Result<Payload>, out: Result<QueryResult>, calls: seq<Call>)
    requires ResultSpec(sql, n, outer, cfg, env, payload, out, calls)
    requires out.Ok?
    ensures payload.Ok? && env.upload.Pass? && env.drop.Pass? && outer.Some?
    ensures out == env.exec(n)
    ensures calls == [UploadTable(TempTableName(env.token(n)), payload.value),
                      DelegateExecute(OuterSql(outer.value, cfg.schema, TempTableName(env.token(n))), false, true),
                      DropRelation(Relation(cfg.database, cfg.schema, TempTableName(env.token(n)), "table"))]
  {
  }

  /** A successful inference returns the delegate's result for the rewritten
      outer template; its last three calls upload the job's payload to
      `tmp_infer_<token>`, execute the template with the placeholder
      replaced by a reference to that table, and drop that table (in the
      delegate's database and schema, as a "table"). */
  lemma SuccessDropsTempTable(sql: string, autoBegin: bool, fetch: bool, conn: ThreadConnection, viewMode: bool,
                              cfg: Session.DataConfig, env: Oracles, out: Result<QueryResult>, trace: seq<Call>)
    requires RouteSpec(sql, autoBegin, fetch, conn, viewMode, cfg, env, out, trace)
    requires Infers(conn, viewMode, env)
    requires out.Ok?
    ensures var n := |Queries(env)|;
      var table := TempTableName(env.token(n));
      && env.parse.value.outer.Some?
      && Classify(sql, PollOutcome(env.polls)).Ok?
      && out == env.exec(n)
      && |trace| >= 3
      && trace[|trace| - 3] == UploadTable(table, Classify(sql, PollOutcome(env.polls)).value)
      && trace[|trace| - 2] == DelegateExecute(OuterSql(env.parse.value.outer.value, cfg.schema, table), false, true)
      && trace[|trace| - 1] == DropRelation(Relation(cfg.database, cfg.schema, table, "table"))
  {
    var qs := Queries(env);
    var submitted := LoadCalls(qs) + [SubmitRun("dbt_run", sql, Manifest(qs, env))];
    var rest := trace[1..][|submitted|..];
    var k := PollCount(env.polls);
    var tail := rest[k..];
    ResultCalls(sql, |qs|, env.parse.value.outer, cfg, env, Classify(sql, PollOutcome(env.polls)), out, tail);
    assert trace[|trace| - 3..] == tail;
  }

  /** The calls of a submitted job: `parse`, the loads, the submission, the
      polls, then what the terminal status leads to. */
  lemma SubmittedTrace(sql: string, autoBegin: bool, fetch: bool, conn: ThreadConnection, viewMode: bool,
                       cfg: Session.DataConfig, env: Oracles, out: Result<QueryResult>, trace: seq<Call>)
    requires RouteSpec(sql, autoBegin, fetch, conn, viewMode, cfg, env, out, trace)
    requires Infers(conn, viewMode, env)
    requires FirstFailed(env.exec, |Queries(env)|) == |Queries(env)|
    requires env.submit.Ok?
    ensures var qs := Queries(env);
      var m := |qs| + 2 + PollCount(env.polls);
      && |trace| >= m
      && trace == [ParseCall(sql)] + LoadCalls(qs) + [SubmitRun("dbt_run", sql, Manifest(qs, env))]
                  + PollCalls(env.submit.value, PollCount(env.polls)) + trace[m..]
      && ResultSpec(sql, |qs|, env.parse.value.outer, cfg, env, Classify(sql, PollOutcome(env.polls)), out, trace[m..])
  {
    var qs := Queries(env);
    var outer := env.parse.value.outer;
    var calls := trace[1..];
    assert trace == [ParseCall(sql)] + calls;
    assert InferenceSpec(sql, qs, outer, cfg, env, out, calls);
    var submitted := LoadCalls(qs) + [SubmitRun("dbt_run", sql, Manifest(qs, env))];
    var rest := calls[|submitted|..];
    assert calls == submitted + rest;
    assert JobSpec(sql, |qs|, outer, cfg, env, out, rest);
    var k := PollCount(env.polls);
    assert rest == PollCalls(env.submit.value, k) + rest[k..];
    var m := |qs| + 2 + k;
    assert rest[k..] == trace[m..];
  }

  /** When the outer execution fails its error is raised and nothing is
      dropped: the temporary table is left behind. */
  lemma NoCleanupWhenOuterFails(sql: string, autoBegin: bool, fetch: bool, conn: ThreadConnection, viewMode: bool,
                                cfg: Session.DataConfig, env: Oracles, out: Result<QueryResult>, trace: seq<Call>)
    requires RouteSpec(sql, autoBegin, fetch, conn, viewMode, cfg, env, out, trace)
    requires Infers(conn, viewMode, env)
    requires FirstFailed(env.exec, |Queries(env)|) == |Queries(env)|
    requires env.submit.Ok? && Classify(sql, PollOutcome(env.polls)).Ok?
    requires env.upload.Pass? && env.parse.value.outer.Some?
    requires env.exec(|Queries(env)|).Err?
    ensures out == env.exec(|Queries(env)|)
    ensures trace[|trace| - 1] == DelegateExecute(OuterSql(env.parse.value.outer.value, cfg.schema,
                                                           TempTableName(env.token(|Queries(env)|))), false, true)
    ensures forall i :: 0 <= i < |trace| ==> !trace[i].DropRelation?
  {
    SubmittedTrace(sql, autoBegin, fetch, conn, viewMode, cfg, env, out, trace);
    var qs := Queries(env);
    var m := |qs| + 2 + PollCount(env.polls);
    var head := [ParseCall(sql)] + LoadCalls(qs) + [SubmitRun("dbt_run", sql, Manifest(qs, env))]
                + PollCalls(env.submit.value, PollCount(env.polls));
    var tail := trace[m..];
    var table := TempTableName(env.token(|qs|));
    assert tail == [UploadTable(table, Classify(sql, PollOutcome(env.polls)).value),
                    DelegateExecute(OuterSql(env.parse.value.outer.value, cfg.schema, table), false, true)];
    assert trace == head + tail;
    assert forall i :: 0 <= i < |head| ==> !head[i].DropRelation?;
  }

  lemma ResultSpecFunctional(sql: string, n: nat, outer: Option<string>, cfg: Session.DataConfig, env: Oracles,
                             payload: Result<Payload>, out1: Result<QueryResult>, calls1: seq<Call>,
                             out2: Result<QueryResult>, calls2: seq<Call>)
    requires ResultSpec(sql, n, outer, cfg, env, payload, out1, calls1)
    requires ResultSpec(sql, n, outer, cfg, env, payload, out2, calls2)
    ensures out1 == out2 && calls1 == calls2
  {
  }

  lemma JobSpecFunctional(sql: string, n: nat, outer: Option<string>, cfg: Session.DataConfig, env: Oracles,
                          out1: Result<QueryResult>, calls1: seq<Call>, out2: Result<QueryResult>, calls2: seq<Call>)
    requires JobSpec(sql, n, outer, cfg, env, out1, calls1)
    requires JobSpec(sql, n, outer, cfg, env, out2, calls2)
    ensures out1 == out2 && calls1 == calls2
  {
    if env.submit.Ok? {
      var k := PollCount(env.polls);
      ResultSpecFunctional(sql, n, outer, cfg, env, Classify(sql, PollOutcome(env.polls)), out1, calls1[k..], out2, calls2[k..]);
      assert calls1 == calls1[..k] + calls1[k..];
      assert calls2 == calls2[..k] + calls2[k..];
    }
  }

  lemma InferenceSpecFunctional(sql: string, queries: seq<string>, outer: Option<string>, cfg: Session.DataConfig,
                                env: Oracles, out1: Result<QueryResult>, calls1: seq<Call>,
                                out2: Result<QueryResult>, calls2: seq<Call>)
    requires InferenceSpec(sql, queries, outer, cfg, env, out1, calls1)
    requires InferenceSpec(sql, queries, outer, cfg, env, out2, calls2)
    ensures out1 == out2 && calls1 == calls2
  {
    if FirstFailed(env.exec, |queries|) == |queries| {
      var m := |queries| + 1;
      JobSpecFunctional(sql, |queries|, outer, cfg, env, out1, calls1[m..], out2, calls2[m..]);
      assert calls1 == calls1[..m] + calls1[m..];
      assert calls2 == calls2[..m] + calls2[m..];
    }
  }

  /** The specification leaves no choice: one result and one trace. */
  lemma RouteSpecFunctional(sql: string, autoBegin: bool, fetch: bool, conn: ThreadConnection, viewMode: bool,
                            cfg: Session.DataConfig, env: Oracles,
                            out1: Result<QueryResult>, trace1: seq<Call>, out2: Result<QueryResult>, trace2: seq<Call>)
    requires RouteSpec(sql, autoBegin, fetch, conn, viewMode, cfg, env, out1, trace1)
    requires RouteSpec(sql, autoBegin, fetch, conn, viewMode, cfg, env, out2, trace2)
    ensures out1 == out2 && trace1 == trace2
  {
    if conn == Present(true) {
      if Infers(conn, viewMode, env) {
        InferenceSpecFunctional(sql, Queries(env), env.parse.value.outer, cfg, env, out1, trace1[1..], out2, trace2[1..]);
      }
      assert trace1 == [trace1[0]] + trace1[1..];
      assert trace2 == [trace2[0]] + trace2[1..];
    }
  }

  /** With distinct tokens, the manifest's file names are pairwise distinct
      and none of them is the temporary table's name. */
  lemma ManifestNamesDistinct(queries: seq<string>, env: Oracles)
    requires forall i :: 0 <= i < |queries| ==> env.exec(i).Ok?
    requires forall i, j :: 0 <= i < j <= |queries| ==> env.token(i) != env.token(j)
    ensures forall i, j :: 0 <= i < j < |queries| ==>
      Manifest(queries, env)[i].filename != Manifest(queries, env)[j].filename
    ensures forall i :: 0 <= i < |queries| ==>
      Manifest(queries, env)[i].filename != TempTableName(env.token(|queries|))
  {
    forall i, j | 0 <= i < j < |queries|
      ensures Manifest(queries, env)[i].filename != Manifest(queries, env)[j].filename
    {
      NamesDistinct(env.token(i), env.token(j));
    }
    forall i | 0 <= i < |queries|
      ensures Manifest(queries, env)[i].filename != TempTableName(env.token(|queries|))
    {
      NamesDistinct(env.token(i), env.token(|queries|));
    }
  }
}
