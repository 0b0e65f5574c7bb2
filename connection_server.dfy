/**
 * Hoa_Socket_Connection_Server: a server connection that binds, listens and
 * accepts one peer per `open`, and releases both handles on `close`.
 *
 * The platform calls are not modelled; each is a total function given by the
 * caller, so that every contract below holds whatever the platform answers:
 *   - stream_socket_server: a BindRequest gets a BindReply (a resource or
 *     `false`, with errno and errstr);
 *   - stream_socket_accept: a listening resource gets a connection or `false`;
 *   - fclose: a resource gets `true` or `false`.
 */
module ConnectionServer {
  import opened Wrappers
  import opened ServerFlags

  /** An opaque PHP stream resource. */
  type ResourceId = nat

  /** A PHP variable that holds a stream: `null`, `false`, or a resource. */
  datatype Handle = Null | False | Resource(id: ResourceId)

  /** The socket descriptor; the server only asks it for its transport. */
  datatype Socket = Socket(transport: string)

  /** A Hoa_Stream_Context; its getContext() is taken to be the value itself. */
  datatype StreamContext = StreamContext(id: string)

  /** The arguments of one stream_socket_server call. */
  datatype BindRequest = BindRequest(streamName: string, flag: Flag, context: Option<StreamContext>)

  /** What stream_socket_server returns, and what it writes to `$errno` and `$errstr`. */
  datatype BindReply = BindReply(server: Option<ResourceId>, errno: int, errstr: string)

  /** The handles the object owns: `_server`, and the parent's stream. */
  datatype ServerState = ServerState(server: Handle, stream: Handle)

  /** A platform result stored in a PHP variable: the resource, or `false`. */
  function HandleOf(result: Option<ResourceId>): Handle {
    match result
    case Some(id) => Resource(id)
    case None => False
  }

  /**
   * The effect and the outcome of `open` on a server whose resolved flag is
   * `flag`: bind with that flag, store the result in `_server`, fail with code
   * 0 or 1 if it is `false`, otherwise accept once on the stored handle and fail
   * with code 2 if that gives `false`. On success the accepted connection
   * becomes the parent's stream.
   */
  function OpenStep(flag: Flag, s: ServerState, streamName: string, context: Option<StreamContext>,
                    bind: BindRequest -> BindReply, accept: ResourceId -> Option<ResourceId>)
    : (o: (ServerState, Result<ResourceId, ConnectionException>))
    ensures var reply := bind(BindRequest(streamName, flag, context));
      // the bind result is stored whatever happens next
      && o.0.server == HandleOf(reply.server)
      // code 0: the bind failed and reported no errno
      && (o.1.Err? && o.1.error.Code() == 0 <==> reply.server.None? && reply.errno == 0)
      && (reply.server.None? && reply.errno == 0 ==> o.1 == Err(CannotJoin(streamName)))
      // code 1: the bind failed with an errno, which the exception carries with errstr
      && (o.1.Err? && o.1.error.Code() == 1 <==> reply.server.None? && reply.errno != 0)
      && (reply.server.None? && reply.errno != 0 ==> o.1 == Err(ServerError(reply.errno, reply.errstr)))
      // code 2: the bind succeeded and the accept on the stored handle failed
      && (o.1.Err? && o.1.error.Code() == 2 <==> reply.server.Some? && accept(reply.server.value).None?)
      // success: the accepted connection, accepted on the stored handle
      && (o.1.Ok? <==> reply.server.Some? && accept(reply.server.value).Some?)
      && (o.1.Ok? ==> o.0.server.Resource? && Some(o.1.value) == accept(o.0.server.id))
      && (o.1.Ok? ==> o.0.stream == Resource(o.1.value))
      && (o.1.Err? ==> o.0.stream == s.stream)
  {
    var reply := bind(BindRequest(streamName, flag, context));
    var server := HandleOf(reply.server);
    if server.False? then
      var failure := if reply.errno == 0 then CannotJoin(streamName) else ServerError(reply.errno, reply.errstr);
      (ServerState(server, s.stream), Err(failure))
    else
      var connection := accept(server.id);
      if connection.None? then
        (ServerState(server, s.stream), Err(NothingToAccept))
      else
        (ServerState(server, Resource(connection.value)), Ok(connection.value))
  }

  /**
   * What one `@fclose($h)` adds to the sum in `close`: 1 if it releases a
   * resource, 0 if it fails or `$h` is `null` or `false`.
   */
  function ReleaseCount(h: Handle, release: ResourceId -> bool): nat {
    if h.Resource? && release(h.id) then 1 else 0
  }

  /** The outcome of `close`: `(bool)` of the sum of the two fclose results. */
  function CloseResult(s: ServerState, release: ResourceId -> bool): (ok: bool)
    ensures ok <==> (s.server.Resource? && release(s.server.id)) || (s.stream.Resource? && release(s.stream.id))
  {
    ReleaseCount(s.server, release) + ReleaseCount(s.stream, release) != 0
  }

  class Server {
    /** The socket passed to the constructor, kept by the parent. */
    const socket: Socket
    /** The timeout passed to the parent; `open` does not use it. */
    const timeout: int
    /** The context ID passed to the parent. */
    const contextId: Option<string>
    /** The resolved flag, as the parent's getFlag() returns it. */
    const flag: Flag
    /** `_server`: the listening handle. */
    var server: Handle
    /** The parent's stream, as getStream() returns it. */
    var stream: Handle

    function State(): ServerState
      reads this
    {
      ServerState(server, stream)
    }

    /** `parent::__construct`: store the already resolved flag; no handle yet. */
    constructor Init(socket: Socket, timeout: int, flag: Flag, contextId: Option<string>)
      ensures this.socket == socket && this.timeout == timeout
      ensures this.flag == flag && this.contextId == contextId
      ensures server == Null && stream == Null
    {
      this.socket := socket;
      this.timeout := timeout;
      this.flag := flag;
      this.contextId := contextId;
      server := Null;
      stream := Null;
    }

    /**
     * `__construct`: resolve the flag for the socket's transport, then hand it
     * to the parent. The exception is thrown before the parent is reached.
     */
    static method New(socket: Socket, timeout: int := 30, flag: Flag := UNSPECIFIED,
                      contextId: Option<string> := None)
      returns (r: Result<Server, ConnectionException>)
      ensures r.Err? <==> ResolveFlag(socket.transport, flag).Err?
      ensures r.Err? ==> r.error == ResolveFlag(socket.transport, flag).error
      ensures r.Ok? ==> && fresh(r.value)
                        && r.value.flag == ResolveFlag(socket.transport, flag).value
                        && r.value.socket == socket && r.value.timeout == timeout
                        && r.value.contextId == contextId
                        && r.value.server == Null && r.value.stream == Null
    {
      var resolved := ResolveFlag(socket.transport, flag);
      if resolved.Err? {
        return Err(resolved.error);
      }
      var server := new Server.Init(socket, timeout, resolved.value, contextId);
      return Ok(server);
    }

    /**
     * `open`: bind with getFlag(), with or without the context, store the
     * result in `_server` before accepting on it, and return the accepted
     * connection, which the parent keeps as its stream.
     */
    method Open(streamName: string, context: Option<StreamContext>,
                bind: BindRequest -> BindReply, accept: ResourceId -> Option<ResourceId>)
      returns (r: Result<ResourceId, ConnectionException>)
      modifies this
      ensures (State(), r) == OpenStep(flag, old(State()), streamName, context, bind, accept)
    {
      var reply: BindReply;
      if context.None? {
        reply := bind(BindRequest(streamName, flag, None));
      } else {
        reply := bind(BindRequest(streamName, flag, Some(context.value)));
      }
      server := HandleOf(reply.server);

      if server.False? {
        if reply.errno == 0 {
          return Err(CannotJoin(streamName));
        } else {
          return Err(ServerError(reply.errno, reply.errstr));
        }
      }

      var connection := accept(server.id);
      if connection.None? {
        return Err(NothingToAccept);
      }
      stream := Resource(connection.value);
      return Ok(connection.value);
    }

    /**
     * `close`: release `_server` and the parent's stream, and report whether at
     * least one release succeeded. Neither handle is reset.
     */
    method Close(release: ResourceId -> bool) returns (ok: bool)
      ensures ok <==> (server.Resource? && release(server.id)) || (stream.Resource? && release(stream.id))
      ensures ok == CloseResult(State(), release)
    {
      var released := ReleaseCount(server, release) + ReleaseCount(stream, release);
      ok := released != 0;
    }

    /** isBinding(): the as-written query over getFlag(). */
    function Binding(): (r: Flag)
      ensures r == 0
    {
      IsBinding(flag)
    }

    /** isListening(): the as-written query over getFlag(). */
    function Listening(): (r: Flag)
      ensures r == 0
    {
      IsListening(flag)
    }
  }
}
