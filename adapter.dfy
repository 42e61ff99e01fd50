/** `InferAdapter`: the dbt adapter that owns the inference workflow and
    delegates everything else to a warehouse adapter it builds lazily, once,
    from the thread connection's handle. */
module Adapter {
  import opened Values
  import Session
  import Connections
  import Router

  /** An instance of the delegate warehouse adapter (`data_adapter(config)`). */
  class DelegateAdapter {
    const adapterClass: Connections.AdapterClass

    constructor (cls: Connections.AdapterClass)
      ensures adapterClass == cls
    {
      adapterClass := cls;
    }
  }

  /** How `execute` sees the calling thread's connection. */
  function ThreadConnectionOf(conn: Connections.Connection?): (t: Router.ThreadConnection)
    reads conn
    ensures t.Absent? <==> conn == null
    ensures t.Present? ==> (t.hasHandle <==> conn.handle.Some?)
  {
    if conn == null then Router.Absent else Router.Present(conn.handle.Some?)
  }

  class InferAdapter {
    /** The delegate configuration the identity accessors read. */
    const dataConfig: Session.DataConfig
    /** The memoised delegate adapter; null until first needed. */
    var dataAdapter: DelegateAdapter?
    var createViewMode: bool

    constructor (cfg: Session.DataConfig)
      ensures dataConfig == cfg && dataAdapter == null && !createViewMode
    {
      dataConfig := cfg;
      dataAdapter := null;
      createViewMode := false;
    }

    /** `set_create_view_mode`: only the flag changes. */
    method SetCreateViewMode(viewMode: bool)
      modifies this`createViewMode
      ensures createViewMode == viewMode
    {
      createViewMode := viewMode;
    }

    /** `get_data_adapter`: the first successful call builds the delegate
        from the class in the thread connection's handle; every later call
        returns that same object without looking at the connection. */
    method GetDataAdapter(conn: Connections.Connection?) returns (r: Result<DelegateAdapter>)
      modifies this`dataAdapter
      ensures old(dataAdapter) != null ==> r == Ok(old(dataAdapter)) && dataAdapter == old(dataAdapter)
      ensures old(dataAdapter) == null && conn == null ==> r == Err(NoThreadConnection) && dataAdapter == null
      ensures old(dataAdapter) == null && conn != null && conn.handle.None? ==> r == Err(NoHandle) && dataAdapter == null
      ensures old(dataAdapter) == null && conn != null && conn.handle.Some? ==>
        r.Ok? && fresh(r.value) && r.value.adapterClass == conn.handle.value.dataAdapter
      ensures r.Ok? ==> dataAdapter == r.value
    {
      if dataAdapter == null {
        if conn == null {
          return Err(NoThreadConnection);
        }
        if conn.handle.None? {
          return Err(NoHandle);
        }
        dataAdapter := new DelegateAdapter(conn.handle.value.dataAdapter);
      }
      r := Ok(dataAdapter);
    }

    /** `database`, read through to the delegate configuration. */
    function Database(): string
    {
      dataConfig.database
    }

    /** `schema`, read through to the delegate configuration. */
    function Schema(): string
    {
      dataConfig.schema
    }

    /** `project`, read through to the delegate configuration with the
        surrounding quote characters removed. */
    function Project(): (p: string)
      ensures |p| <= |dataConfig.project|
      ensures p != [] ==> p[0] !in Session.QuoteChars && p[|p| - 1] !in Session.QuoteChars
      ensures Session.StripQuotes(p) == p
    {
      Session.StripQuotes(dataConfig.project)
    }

    /** `list_schemas`: forwards `database` to the delegate with its
        surrounding quote characters removed; returns what was forwarded. */
    method ListSchemas(database: string, conn: Connections.Connection?) returns (forwarded: Result<string>)
      modifies this`dataAdapter
      ensures old(dataAdapter) != null ==>
        forwarded == Ok(Session.StripQuotes(database)) && dataAdapter == old(dataAdapter)
      ensures old(dataAdapter) == null && conn != null && conn.handle.Some? ==>
        && forwarded == Ok(Session.StripQuotes(database))
        && dataAdapter != null && fresh(dataAdapter) && dataAdapter.adapterClass == conn.handle.value.dataAdapter
      ensures old(dataAdapter) == null && (conn == null || conn.handle.None?) ==>
        forwarded == Err(if conn == null then NoThreadConnection else NoHandle) && dataAdapter == null
    {
      var adapter := GetDataAdapter(conn);
      if adapter.Err? {
        return Err(adapter.error);
      }
      forwarded := Ok(Session.StripQuotes(database));
    }

    /** `execute`: resolve the delegate, then route the statement. The
        delegate's own configuration (its `database` and `schema`) is
        `dataConfig`. */
    method Execute(sql: string, autoBegin: bool, fetch: bool, conn: Connections.Connection?, env: Router.Oracles)
      returns (out: Result<Router.QueryResult>, trace: seq<Router.Call>)
      modifies this`dataAdapter
      ensures old(dataAdapter) != null ==> dataAdapter == old(dataAdapter)
      ensures old(dataAdapter) == null && conn != null && conn.handle.Some? ==>
        dataAdapter != null && fresh(dataAdapter) && dataAdapter.adapterClass == conn.handle.value.dataAdapter
      ensures old(dataAdapter) == null && (conn == null || conn.handle.None?) ==>
        dataAdapter == null && trace == [] && out == Err(if conn == null then NoThreadConnection else NoHandle)
      ensures old(dataAdapter) != null || (conn != null && conn.handle.Some?) ==>
        && dataAdapter != null
        && Router.RouteSpec(sql, autoBegin, fetch, ThreadConnectionOf(conn), createViewMode, dataConfig, env, out, trace)
    {
      var adapter := GetDataAdapter(conn);
      if adapter.Err? {
        return Err(adapter.error), [];
      }
      out, trace := Router.Route(sql, autoBegin, fetch, ThreadConnectionOf(conn), createViewMode, dataConfig, env);
    }
  }

  /** The adapter reports the same identity as credentials carrying the same
      delegate configuration. */
  lemma IdentityMatchesCredentials(a: InferAdapter, c: Session.Credentials)
    requires a.dataConfig == c.dataConfig
    ensures a.Database() == Session.Database(c)
    ensures a.Schema() == Session.Schema(c)
    ensures a.Project() == Session.Project(c)
  {
  }

  /** The delegate is built at most once: a second `get_data_adapter`
      returns the same object, whatever connection it is given. */
  method DelegateBuiltOnce(cfg: Session.DataConfig, conn: Connections.Connection, later: Connections.Connection?)
    returns (first: Result<DelegateAdapter>, second: Result<DelegateAdapter>)
    requires conn.handle.Some?
    ensures first.Ok? && second == first
    ensures first.value.adapterClass == conn.handle.value.dataAdapter
  {
    var a := new InferAdapter(cfg);
    first := a.GetDataAdapter(conn);
    second := a.GetDataAdapter(later);
  }

  /** A nested execution (no thread connection) needs the delegate already
      built: on a fresh adapter it fails before reaching the delegate. */
  method NestedExecutionNeedsDelegate(cfg: Session.DataConfig, sql: string, env: Router.Oracles)
    returns (out: Result<Router.QueryResult>, trace: seq<Router.Call>)
    ensures out == Err(NoThreadConnection) && trace == []
  {
    var a := new InferAdapter(cfg);
    out, trace := a.Execute(sql, false, false, null, env);
  }
}
