# dbt-infer in Dafny

dbt-infer is a dbt adapter. It sits in front of a real warehouse adapter (the
*delegate*, e.g. BigQuery) and adds SQL-inf inference commands. Each statement
dbt executes is first sent to the inference service to be parsed. A statement
without inference commands is forwarded to the delegate unchanged. One with
inference commands runs a workflow:

1. Execute the load queries on the delegate.
2. Send their tables to the service as a dataset manifest and submit one job.
3. Poll the job until it leaves STARTED/RUNNING.
4. Upload its result to a temporary `tmp_infer_<token>` table.
5. Execute the outer template, with `__INNER_SELECT__` replaced by a
   reference to that table.
6. Drop the table.

The project models:

- `values.dfy`, module `Values`: results and errors, decoded JSON documents,
  Python truthiness and `dict.get`.
- `strings.dfy`, module `Strings`: Python's `str.strip(chars)` and
  `str.replace(old, new)`. Both are characterised and proved unique or
  substitutive.
- `session.dfy`, module `Session`: the `infer` credentials (identity
  accessors, quote stripping) and the `InferSession` client. The network is an
  oracle `http: Request -> HttpReply`. The model decides which requests are
  sent with which headers and URLs, which status codes each endpoint accepts,
  and what each call returns or raises. This includes the status → payload
  mapping of `get_dbt_result` and `get_result`.
- `connections.dfy`, module `Connections`: `open`/`close` of the connection
  manager as methods of a `Connection` class whose `state` and `handle` they
  update.
- `router.dfy`, module `Router`: the body of `InferAdapter.execute`.
  - The parse reply, the delegate's `execute`, the job submission, the poll
    replies, `uuid4`, the result upload and the drop are oracles
    (`Router.Oracles`).
  - The router records every external call, in order, in a trace.
  - The load loop and the poll loop are methods with loop invariants, proved
    against specification functions.
  - `Router.Route` is proved to satisfy `Router.RouteSpec`, a relation
    between the oracles, the result and the trace.
- `router_props.dfy`, module `RouterProperties`: what the routing
  specification implies. It covers passthrough, view mode, one submission
  before polling, ERROR handling, the outer rewrite, the drop, the missing
  cleanup, and that the specification is functional.
- `adapter.dfy`, module `Adapter`: the `InferAdapter` class. It holds the
  memoised delegate, the view-mode flag, the identity accessors,
  `list_schemas` and `execute`, which resolves the delegate and then routes.

The model follows the code in four places where a reader might expect
otherwise:

- When the outer execution fails, the temporary table is not dropped. There
  is no cleanup around that execution.
- `open` sets the state to open before building the handle. A failed `open`
  therefore leaves an open connection without a handle. A later `open`
  succeeds without building one, and `close` then fails on the missing
  handle.
- The poll loop unpacks three values, but `get_dbt_result` returns two. The
  router is modelled on the three-value poll reply that it expects (see
  Findings).
- The credentials' `project` is answered unstripped, through the
  `__getattr__` fallback, because `data_config` is a dict. The model keeps
  both the answered and the intended, stripped value (see Findings).

## Model

| member | source | states |
|---|---|---|
| Values.GetOr | dbt/adapters/infer/impl.py:156 | `d.get(key, default)`: the stored value when the key is present, the default otherwise |
| Strings.LStrip | dbt/adapters/infer/impl.py:230 | the result is a suffix of the input; every removed character is in the set; the result does not start with one |
| Strings.RStrip | dbt/adapters/infer/impl.py:230 | the result is a prefix of the input; every removed character is in the set; the result does not end with one |
| Strings.Strip | dbt/adapters/infer/impl.py:230 | `strip(chars)`: a slice of the input with only set characters removed at both ends, neither end of the result in the set |
| Strings.StripUnique | dbt/adapters/infer/impl.py:230 | any slice obtained by removing only set characters and not starting or ending with one is exactly the stripped string |
| Strings.StripIdempotent | dbt/adapters/infer/impl.py:230 | stripping twice equals stripping once |
| Strings.ReplaceAllAbsent | dbt/adapters/infer/impl.py:171-173 | `replace` leaves a string without the pattern unchanged |
| Strings.ReplaceAllInserts | dbt/adapters/infer/impl.py:171-173 | a string containing the pattern contains the replacement after `replace` |
| Strings.ReplaceAllFirst | dbt/adapters/infer/impl.py:171-173 | the first occurrence is replaced in place: `a + pat + b` becomes `a + rep + replace(b)` when `a + pat` holds no earlier occurrence |
| Strings.IntToString | dbt/adapters/infer/impl.py:156 | `str(int)`: a `-` exactly for negative numbers, then only decimal digits, whose value is the magnitude, without a leading zero except in `0` |
| Strings.NatToString | dbt/adapters/infer/impl.py:156 | `str` of a natural number: non-empty decimal digits that denote it, without a leading zero except in `0` |
| Session.StripQuotes | dbt/adapters/infer/connections.py:60 | `strip("\"'")`: no longer than the input, no quote at either end, a fixed point of stripping |
| Session.StripQuotesUnwraps | dbt/adapters/infer/connections.py:60 | a name wrapped in any runs of `"`/`'` comes back exactly as the bare name |
| Session.Project | dbt/adapters/infer/connections.py:59-60 | the intended `project`: the delegate config's project with the surrounding quotes removed, and stripping it again changes nothing |
| Session.ProjectAsWritten | dbt/adapters/infer/connections.py:45-60 | the `project` the credentials actually answer (through the `__getattr__` fallback) strips to the intended one |
| Session.ProjectAsWrittenAgrees | dbt/adapters/infer/connections.py:45-60 | the answered and the intended `project` agree exactly when the configured project has no quote at either end |
| Session.QuotedProjectKeepsQuotes | dbt/adapters/infer/connections.py:60 | a configured project `"analytics"` is answered with its quotes, while the intended value is `analytics` |
| Session.CredentialsIdentity | dbt/adapters/infer/connections.py:54-72 | type `infer`, connection keys `database`, `schema`; `database`, `schema` and `unique_field` read through to the delegate config |
| Session.AuthHeaderRoundTrip | dbt/adapters/infer/connections.py:80-81 | the header `Token token="<apikey>",email=<username>` gives back the API key and the user (for a key without `"`) |
| Session.ParseAuthHeaderSound | dbt/adapters/infer/connections.py:80-81 | every header that parses is exactly the header built from what it parses to |
| Session.Accepted | dbt/adapters/infer/connections.py:182 | every endpoint accepts 200; only the dataset deletion also accepts 204; nothing else is accepted |
| Session.Send | dbt/adapters/infer/connections.py:94-99 | a request succeeds iff the endpoint accepts the reply's code, returning that reply; otherwise it raises with the endpoint and the code |
| Session.Field | dbt/adapters/infer/connections.py:100 | `body[key]` succeeds iff the body is an object holding the key, and returns its value |
| Session.Connect | dbt/adapters/infer/connections.py:76-91 | the session checks `<url>/api/v1/users/me` with the auth headers; it exists iff that returns 200, with base URL `<url>` and API URL `<url>/api/v1` |
| Session.SessionRequests | dbt/adapters/infer/connections.py:78-89 | every endpoint request of a connected session starts with `<url>/api/v1`; the request a result fetch sends goes to `<url><path>` and succeeds iff it is answered 200; both carry the credentials' Authorization header |
| Session.Parse | dbt/adapters/infer/connections.py:93-100 | `parse` posts `{"q": sql}` and returns the reply's `result`, raising on a non-200 code |
| Session.SingleDatasetRun | dbt/adapters/infer/connections.py:102-113 | posts the named query against one dataset and returns the reply's `id`, raising on a non-200 code |
| Session.DbtRun | dbt/adapters/infer/connections.py:115-132 | posts the `dbt_run` document (name, description, query, datasets) and returns the reply's `id`, raising on a non-200 code |
| Session.Fetch | dbt/adapters/infer/connections.py:146-153 | a result document is fetched from `<baseurl><path>`; it succeeds iff the code is 200, with the raw content |
| Session.GetDbtResult | dbt/adapters/infer/connections.py:134-156 | a rejected code raises; otherwise, case by case: a missing `status` raises; COMPLETED yields the content fetched from `output_url` (a missing key or a failed fetch raises); ERROR yields `raw_output` (a missing key raises); every other status yields `(status, None)` |
| Session.GetDbtResultSucceeds | dbt/adapters/infer/connections.py:142-156 | an accepted reply returns iff it carries `status` and, for COMPLETED, the result can be fetched and, for ERROR, `raw_output` is present; a RUNNING reply always returns `(RUNNING, None)` |
| Session.GetResult | dbt/adapters/infer/connections.py:158-178 | a rejected code raises; otherwise a missing `status` raises; COMPLETED yields the content fetched from `result_url` (a missing key or a failed fetch raises); ERROR and every other status yield `(status, None)` |
| Session.DeleteDataset | dbt/adapters/infer/connections.py:180-187 | passes iff the code is 200 or 204, otherwise raises with that code |
| Session.CreateDataset | dbt/adapters/infer/connections.py:189-203 | posts the dataset document with the encoded data and returns the reply's `id`, raising on a non-200 code |
| Connections.SessionHandle.Close | dbt/adapters/infer/connections.py:205-206 | the session is closed afterwards |
| Connections.Connection.constructor | dbt/adapters/infer/connections.py:231-232 | a new connection is in its initial state without a handle |
| Connections.Connection.Open | dbt/adapters/infer/connections.py:231-246 | no-op when open; otherwise the state becomes open before anything can fail; a failure keeps the old handle; success stores exactly the new session and the resolved delegate class |
| Connections.Connection.Close | dbt/adapters/infer/connections.py:248-253 | on an open connection closes the session and moves to closed; any other state changes nothing; open without a handle raises |
| Connections.OpenCloseTwice | dbt/adapters/infer/connections.py:231-253 | open, open, close, close all pass, with states open, open, closed, closed and the handle kept |
| Connections.FailedOpenStaysOpen | dbt/adapters/infer/connections.py:236-253 | after a failed liveness check the connection stays open without a handle, a second open passes, and close raises |
| Router.DatasetNameShape | dbt/adapters/infer/impl.py:125 | a dataset name is `tmp_` followed by 32 hex digits, 36 characters, no dash |
| Router.NamesDistinct | dbt/adapters/infer/impl.py:125-165 | dataset and temp-table names are equal exactly when their tokens are, and a dataset name is never a temp-table name |
| Router.OuterSqlSubstitutes | dbt/adapters/infer/impl.py:170-173 | without the placeholder the outer template is executed as is; with it, the rewritten SQL contains `SELECT * FROM <schema>.<table>` |
| Router.OuterSqlAroundPlaceholder | dbt/adapters/infer/impl.py:170-173 | the first placeholder after a prefix is replaced by the table reference in place, the rest rewritten likewise |
| Router.LoadCalls | dbt/adapters/infer/impl.py:122-124 | one delegate execution per load query, in order, with `auto_begin` false and `fetch` true |
| Router.FirstFailed | dbt/adapters/infer/impl.py:122-124 | the index of the first failing load query: all before it succeeded, and it failed (or all succeeded) |
| Router.FirstFailedUnique | dbt/adapters/infer/impl.py:122-124 | the first failure is uniquely determined |
| Router.ManifestEntries | dbt/adapters/infer/impl.py:119-137 | one entry per load query, in order, with that query, the name `tmp_<token>`, and the encoded table it returned |
| Router.LoadDatasets | dbt/adapters/infer/impl.py:119-137 | the load loop stops at the first failing query, having executed exactly the queries up to it; otherwise it returns the full manifest after executing every query |
| Router.PollCount | dbt/adapters/infer/impl.py:147-150 | the loop polls at most as often as there are replies |
| Router.PollStopsAtFirstTerminal | dbt/adapters/infer/impl.py:147-150 | the loop ends at the first reply that is not STARTED/RUNNING, after only running replies, or is still waiting |
| Router.UnpackPoll | dbt/adapters/infer/impl.py:148 | unpacking a poll tuple into three names raises unless it has exactly status, payload and info |
| Router.SessionPollNeverUnpacks | dbt/adapters/infer/impl.py:148 | the two-value tuple `get_dbt_result` returns never unpacks into three names |
| Router.IntendedPollUnpacks | dbt/adapters/infer/impl.py:148 | a tuple with the info lines added unpacks into exactly the status and payload `get_dbt_result` computed |
| Router.PollCalls | dbt/adapters/infer/impl.py:147-148 | each iteration polls the submitted job's id |
| Router.PollUntilDone | dbt/adapters/infer/impl.py:142-150 | the poll loop makes exactly the polls its replies call for and ends with the first terminal reply |
| Router.Classify | dbt/adapters/infer/impl.py:152-161 | the payload is used iff the job did not end in ERROR and returned a non-empty payload; ERROR raises its error; other empty results raise with the SQL |
| Router.JobErrorReported | dbt/adapters/infer/impl.py:152-159 | an ERROR with a document reports its `type` (default `Unknown Internal Error`) and `error` (default empty) in the message; without one it reports `Internal Error` |
| Router.HandleResult | dbt/adapters/infer/impl.py:165-189 | the result phase meets its specification: upload to `tmp_infer_<token>`, the rewritten outer SQL, and the drop only after it succeeded |
| Router.RunJob | dbt/adapters/infer/impl.py:140-161 | the job phase meets its specification: the polls, then the classified terminal status |
| Router.RunInference | dbt/adapters/infer/impl.py:119-140 | the inference phase meets its specification: the loads, then exactly one submission with the manifest |
| Router.RouteParsed | dbt/adapters/infer/impl.py:104-122 | the decisions after `parse` meet their specification: missing commands raise, empty ones pass through, view mode rejects |
| Router.Route | dbt/adapters/infer/impl.py:96-189 | the router's result and calls are exactly those the routing specification determines |
| RouterProperties.PassthroughForwardsVerbatim | dbt/adapters/infer/impl.py:97-114 | with no thread connection or empty `infer_commands`, the statement is executed verbatim and that result returned; nothing else but `parse` is called, and not even that without a connection |
| RouterProperties.JobSpecIgnoresParse | dbt/adapters/infer/impl.py:140-189 | the job phase depends on the oracles other than `parse` only |
| RouterProperties.InferenceSpecIgnoresParse | dbt/adapters/infer/impl.py:119-189 | the inference workflow depends on the load queries, the template and the oracles other than `parse` only |
| RouterProperties.ParseErrorsOnlyLogged | dbt/adapters/infer/impl.py:105-108 | the parse errors change neither the result nor the calls |
| RouterProperties.MissingCommandsRaise | dbt/adapters/infer/impl.py:109-110 | a parse result without `infer_commands` raises right after `parse` |
| RouterProperties.ViewModeNeverSubmits | dbt/adapters/infer/impl.py:116-117 | in view mode no load query runs and no job is submitted; with inference commands it raises after `parse` |
| RouterProperties.JobCalls | dbt/adapters/infer/impl.py:140-189 | after the submission no further `parse` or submission happens, and polls come before everything else |
| RouterProperties.SubmitsOnceBeforePolling | dbt/adapters/infer/impl.py:119-150 | `parse`, the load queries in order, then exactly one submission with `sql` and the full manifest, before any poll |
| RouterProperties.LoadFailureAborts | dbt/adapters/infer/impl.py:120-124 | a failing load query raises after the queries up to it, and no job is submitted or polled |
| RouterProperties.ErrorStatusRaises | dbt/adapters/infer/impl.py:152-159 | a job ending in ERROR raises its job error; nothing follows the polls |
| RouterProperties.SubmittedTrace | dbt/adapters/infer/impl.py:119-161 | the calls of a submitted job are `parse`, loads, the submission, the polls, then the result handling |
| RouterProperties.NoCleanupWhenOuterFails | dbt/adapters/infer/impl.py:169-187 | when the rewritten outer SQL fails, its error is raised and no relation is dropped |
| RouterProperties.ResultCalls | dbt/adapters/infer/impl.py:165-187 | a successful result phase is upload, outer execution, drop, with the upload and the drop passing |
| RouterProperties.SuccessDropsTempTable | dbt/adapters/infer/impl.py:165-189 | success returns the delegate's result for the rewritten outer SQL, after uploading the payload to `tmp_infer_<token>`, and drops exactly that table in the delegate's database and schema, as a table |
| RouterProperties.ResultSpecFunctional | dbt/adapters/infer/impl.py:165-189 | the result phase determines one result and one list of calls |
| RouterProperties.JobSpecFunctional | dbt/adapters/infer/impl.py:140-189 | the job phase determines one result and one list of calls |
| RouterProperties.InferenceSpecFunctional | dbt/adapters/infer/impl.py:119-189 | the inference workflow determines one result and one list of calls |
| RouterProperties.RouteSpecFunctional | dbt/adapters/infer/impl.py:93-189 | for given replies there is exactly one result and one list of calls |
| RouterProperties.ManifestNamesDistinct | dbt/adapters/infer/impl.py:125-165 | with distinct tokens, manifest file names are pairwise distinct and differ from the temp table's name |
| Adapter.ThreadConnectionOf | dbt/adapters/infer/impl.py:97-103 | the connection is absent exactly when there is none, and has a handle exactly when one was stored |
| Adapter.DelegateAdapter.constructor | dbt/adapters/infer/impl.py:194 | the delegate is an instance of the class from the handle |
| Adapter.InferAdapter.constructor | dbt/adapters/infer/impl.py:31-35 | no delegate yet, view mode off |
| Adapter.InferAdapter.SetCreateViewMode | dbt/adapters/infer/impl.py:197-199 | the view-mode flag becomes the argument |
| Adapter.InferAdapter.GetDataAdapter | dbt/adapters/infer/impl.py:191-195 | once built, the same delegate is returned without looking at the connection; before that it is built from the handle's class, or the missing connection or handle raises |
| Adapter.InferAdapter.Project | dbt/adapters/infer/impl.py:229-230 | the delegate config's project with the surrounding quotes removed, a fixed point of stripping |
| Adapter.InferAdapter.ListSchemas | dbt/adapters/infer/impl.py:326-329 | the database name forwarded to the delegate is the argument with its surrounding quotes removed; through `get_data_adapter`, a built delegate is kept, otherwise one is built from the handle's class, and a missing connection or handle raises with no delegate built |
| Adapter.InferAdapter.Execute | dbt/adapters/infer/impl.py:93-189 | the delegate is resolved first: a built one is kept, a new one is of the handle's class, a failure raises before any call; then the result and calls are the routing specification's, with the current view mode |
| Adapter.IdentityMatchesCredentials | dbt/adapters/infer/impl.py:221-231 | the adapter's `database`, `schema` and `project` equal those of credentials with the same delegate config |
| Adapter.DelegateBuiltOnce | dbt/adapters/infer/impl.py:191-195 | two calls to `get_data_adapter` return the same delegate, whatever connection the second sees |
| Adapter.NestedExecutionNeedsDelegate | dbt/adapters/infer/impl.py:96-101 | on a fresh adapter, an execution without a thread connection raises before reaching the delegate |

## Left out

- HTTP transport: `requests.Session` is the oracle `http`. JSON decoding of a reply is taken as given (`HttpReply.body`).
- `upload_data_to_table` writes a seed file, loads a dbt manifest and runs `SeedTask`. It is the single outcome `Oracles.upload`. Writing a non-bytes payload (the raw output of a non-ERROR status) would fail inside it; that too is an outcome of the oracle.
- The CSV serialisation of a fetched table and its base64 encoding: `Router.Encoded` names the encoded table without computing it.
- `uuid4` and `sleep(3)`: tokens come from the oracle `token`, and cross-thread uniqueness is not modelled. `Router.ManifestNamesDistinct` assumes distinct tokens.
- Router.PollUntilDone: the poll replies are a finite list. Running off its end stands for a loop that never ends (`PollingNeverEnds`), not for an error the code raises.
- Dynamic forwarding through `__getattr__`, the `_available_` merge, the classmethod wrappers, and the one-line `connection_named("master")` forwarders. These call into the unseen delegate. `connection_named` scopes are not modelled.
- `get_source_module` / `load_plugin` plugin resolution: this is the `registry` parameter of `Connections.Connection.Open`. The environment-variable overrides in `InferCredentials.__init__` are not modelled either; the credentials hold the resulting values.
- Adapter.InferAdapter.Project: `dataConfig` stands for what `self.data_config` resolves to on the adapter. `InferAdapter` never sets that attribute, so the source finds it through `__getattr__` on the delegate, which is not part of this model. A `data_config` that is a plain dict (as the credentials declare) would likewise need item rather than attribute access; the model reads the fields directly.
- The quote policy passed to `Relation.create`, `exception_handler`, logging (including the logging of parse errors and info lines), and dbt's per-thread connection model.
- Session.Project / Session.CredentialsIdentity: `data_config` is a dict, so the attribute reads `self.data_config.project`, `.database` and `.schema` (dbt/adapters/infer/connections.py:56-60) raise inside `__getattribute__`, and Python answers through `__getattr__` (:45-52) with the delegate credentials' own field. The model takes those fields to be the configuration's. `Session.Project` is the intended, stripped value; what the code answers is `Session.ProjectAsWritten` (see Findings).
- RouterProperties.ParseErrorsOnlyLogged: parse errors (`Router.ParseError`) and job info lines (`Router.InfoEntry`) are typed records that always carry `type`/`value` and `type`/`msg`. In the source, an entry without those keys, or one that is not a dict, raises while being logged: at dbt/adapters/infer/impl.py:106-107, before any load query, and at :163, before the upload. The lemma holds for well-formed entries only.
- Values.Show: arrays and objects are rendered by a marker, not by Python's `str`. This applies inside an error document and also to the ids placed in endpoint paths and to the path appended in a result fetch.
- Values.Json: numbers are integers. A JSON float such as `0.0` or `1.5` cannot be represented, so its truthiness (dbt/adapters/infer/impl.py:111, :153, :160) and its rendering in the error message (:156) are not modelled.
- Router.ParsedSql: `load_queries` is either missing or a list of strings. In the source a string value would be executed one character at a time and `null` raises TypeError at dbt/adapters/infer/impl.py:122; neither is modelled.
- Router.ParsedSql: `outer` is either missing or a string. In the source a non-string `outer` raises AttributeError at dbt/adapters/infer/impl.py:171, after the upload at :167; the model raises only for a missing key.
- `begin`, `commit`, `cancel` and the other no-op or forwarding connection-manager methods.

## Findings

| source | as written | input that shows it | evidently intended | confidence | as-written member | corrected member |
|---|---|---|---|---|---|---|
| dbt/adapters/infer/impl.py:148 | the poll loop unpacks three names from `get_dbt_result`, which returns two values (dbt/adapters/infer/connections.py:156) | any poll answered with code 200 and a `status`, e.g. `{"status": "RUNNING"}` | `get_dbt_result` also returns the job's info lines, so the loop gets status, payload and info | high (not executed) | Router.SessionPollNeverUnpacks | Router.IntendedPollUnpacks |
| dbt/adapters/infer/connections.py:60 | `self.data_config.project.strip("\"'")` reads an attribute of the dict `data_config`; the read raises and `__getattr__` (:45-52) answers with the delegate credentials' unstripped project | a profile whose `data_config` has `project: '"analytics"'` | `project` comes back as `analytics`, the configured project with its quotes stripped | medium (not executed) | Session.QuotedProjectKeepsQuotes | Session.Project |
