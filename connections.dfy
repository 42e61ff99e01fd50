/** The connection lifecycle of `InferConnectionManager`: `open` and `close`
    on a dbt connection whose handle bundles the inference session and the
    delegate adapter class. */
module Connections {
  import opened Values
  import opened Session

  /** The states a dbt connection can be in. */
  datatype ConnectionState = InitState | OpenState | ClosedState | FailState

  /** A warehouse adapter class, as the plugin registry resolves it by type name. */
  datatype AdapterClass = AdapterClass(name: string)

  /** A live `InferSession`: the connected session and whether it was closed. */
  class SessionHandle {
    const session: Client
    var closed: bool

    constructor (s: Client)
      ensures session == s && !closed
    {
      session := s;
      closed := false;
    }

    /** Releases the underlying HTTP session; closing twice is harmless. */
    method Close()
      modifies this
      ensures closed
    {
      closed := true;
    }
  }

  /** What `open` stores in `connection.handle`: exactly the session and the
      delegate adapter class. */
  datatype Handle = Handle(session: SessionHandle, dataAdapter: AdapterClass)

  class Connection {
    const credentials: Credentials
    var state: ConnectionState
    var handle: Option<Handle>

    constructor (c: Credentials)
      ensures credentials == c && state == InitState && handle == None
    {
      credentials := c;
      state := InitState;
      handle := None;
    }

    /** `open`: a no-op on an open connection. Otherwise the state becomes
        open FIRST; then the delegate class is resolved from the registry and
        the session is built (its liveness check may fail). Either failure
        leaves the state open and the handle as it was. */
    method Open(registry: string -> Option<AdapterClass>, http: Request -> HttpReply) returns (r: Outcome)
      modifies this
      ensures old(state) == OpenState ==> r == Pass && state == OpenState && handle == old(handle)
      ensures state == OpenState
      ensures old(state) != OpenState && registry(credentials.dataConfig.adapterType).None? ==>
        r == Fail(PluginNotFound(credentials.dataConfig.adapterType)) && handle == old(handle)
      ensures old(state) != OpenState && registry(credentials.dataConfig.adapterType).Some? && Connect(credentials, http).Err? ==>
        r == Fail(Connect(credentials, http).error) && handle == old(handle)
      ensures old(state) != OpenState && registry(credentials.dataConfig.adapterType).Some? && Connect(credentials, http).Ok? ==>
        && r == Pass
        && handle.Some? && fresh(handle.value.session)
        && handle.value.session.session == Connect(credentials, http).value
        && !handle.value.session.closed
        && handle.value.dataAdapter == registry(credentials.dataConfig.adapterType).value
    {
      if state == OpenState {
        return Pass;
      }
      state := OpenState;
      var adapterClass := registry(credentials.dataConfig.adapterType);
      if adapterClass.None? {
        return Fail(PluginNotFound(credentials.dataConfig.adapterType));
      }
      var session := Connect(credentials, http);
      if session.Err? {
        return Fail(session.error);
      }
      var live := new SessionHandle(session.value);
      handle := Some(Handle(live, adapterClass.value));
      r := Pass;
    }

    /** The session object `close` may touch. */
    function Sessions(): set<object>
      reads this
    {
      if handle.Some? then {handle.value.session} else {}
    }

    /** `close`: on an open connection, closes the session and moves to
        closed; on any other state nothing changes. An open connection whose
        handle was never built fails when the handle is subscripted. */
    method Close() returns (r: Outcome)
      modifies this, Sessions()
      ensures old(state) != OpenState ==> r == Pass && unchanged(this) && unchanged(old(Sessions()))
      ensures old(state) == OpenState && old(handle).None? ==> r == Fail(NoHandle) && unchanged(this)
      ensures old(state) == OpenState && old(handle).Some? ==>
        r == Pass && state == ClosedState && handle == old(handle) && handle.value.session.closed
    {
      if state == OpenState {
        if handle.None? {
          return Fail(NoHandle);
        }
        handle.value.session.Close();
        state := ClosedState;
      }
      r := Pass;
    }
  }

  /** Opening twice and closing twice: the second call of each succeeds and
      changes nothing. Returns the state after each of the four calls. */
  method OpenCloseTwice(c: Credentials, registry: string -> Option<AdapterClass>, http: Request -> HttpReply)
    returns (states: seq<ConnectionState>, outcomes: seq<Outcome>, sameHandle: bool)
    requires registry(c.dataConfig.adapterType).Some? && Connect(c, http).Ok?
    ensures states == [OpenState, OpenState, ClosedState, ClosedState]
    ensures outcomes == [Pass, Pass, Pass, Pass]
    ensures sameHandle
  {
    var conn := new Connection(c);
    var r1 := conn.Open(registry, http);
    var h := conn.handle;
    states := [conn.state];
    var r2 := conn.Open(registry, http);
    states := states + [conn.state];
    sameHandle := conn.handle == h;
    var r3 := conn.Close();
    states := states + [conn.state];
    var r4 := conn.Close();
    states := states + [conn.state];
    sameHandle := sameHandle && conn.handle == h;
    outcomes := [r1, r2, r3, r4];
  }

  /** A failed first `open` leaves the connection open without a handle: the
      next `open` reports success without building one, and `close` fails. */
  method FailedOpenStaysOpen(c: Credentials, registry: string -> Option<AdapterClass>, http: Request -> HttpReply)
    returns (first: Outcome, second: Outcome, closing: Outcome, state: ConnectionState, hasHandle: bool)
    requires registry(c.dataConfig.adapterType).Some? && Connect(c, http).Err?
    ensures first == Fail(Connect(c, http).error)
    ensures second == Pass
    ensures closing == Fail(NoHandle)
    ensures state == OpenState && !hasHandle
  {
    var conn := new Connection(c);
    first := conn.Open(registry, http);
    second := conn.Open(registry, http);
    closing := conn.Close();
    state := conn.state;
    hasHandle := conn.handle.Some?;
  }
}
