/**
 * The flag policy of Hoa_Socket_Connection_Server: how the constructor turns
 * a transport name and a requested flag into the flag handed to the parent
 * connection, and the two query methods over that flag.
 *
 * PHP integers are 64-bit two's complement, so a flag is a `bv64` and the
 * constructor's default `-1` is the all-ones word.
 */
module ServerFlags {
  import opened Wrappers

  type Flag = bv64

  /** STREAM_SERVER_BIND, as PHP defines it. */
  const BIND: Flag := 4

  /** STREAM_SERVER_LISTEN, as PHP defines it. */
  const LISTEN: Flag := 8

  /** The constructor's default argument `-1`: "no flag requested". */
  const UNSPECIFIED: Flag := 0xFFFF_FFFF_FFFF_FFFF

  /** Hoa_Socket_Connection_Exception, one constructor per place that throws it. */
  datatype ConnectionException =
    | ListenOnConnectionless                   // LISTEN requested for udp
    | CannotJoin(streamName: string)           // bind failed, no errno reported
    | ServerError(errno: int, errstr: string)  // bind failed with errno and message
    | NothingToAccept                          // accept failed (timed out)
  {
    /** The exception code the source passes. */
    function Code(): nat {
      match this
      case ListenOnConnectionless => 0
      case CannotJoin(_) => 0
      case ServerError(_, _) => 1
      case NothingToAccept => 2
    }
  }

  /**
   * The constructor's flag resolution. The default becomes BIND|LISTEN whatever
   * the transport; an explicit flag is masked to LISTEN for tcp, refused when it
   * asks udp to LISTEN and otherwise masked to BIND, and kept as it is for any
   * other transport (the switch has no default case).
   */
  function ResolveFlag(transport: string, flag: Flag): (r: Result<Flag, ConnectionException>)
    ensures flag == UNSPECIFIED ==> r == Ok(BIND | LISTEN)
    ensures flag != UNSPECIFIED && transport == "tcp" ==>
      && r.Ok?
      && (r.value == 0 || r.value == LISTEN)
      && (r.value == LISTEN <==> flag & LISTEN != 0)
    ensures flag != UNSPECIFIED && transport == "udp" ==>
      && (r.Err? <==> flag & LISTEN != 0)
      && (r.Err? ==> r.error == ListenOnConnectionless && r.error.Code() == 0)
      && (r.Ok? ==> (r.value == 0 || r.value == BIND) && (r.value == BIND <==> flag & BIND != 0))
    ensures flag != UNSPECIFIED && transport != "tcp" && transport != "udp" ==> r == Ok(flag)
  {
    if flag == UNSPECIFIED then
      Ok(BIND | LISTEN)
    else if transport == "tcp" then
      Ok(flag & LISTEN)
    else if transport == "udp" then
      if flag & LISTEN != 0 then Err(ListenOnConnectionless) else Ok(flag & BIND)
    else
      Ok(flag)
  }

  /** Construction fails exactly when udp is explicitly asked to LISTEN. */
  lemma ResolveFailsOnlyForUdpListen(transport: string, flag: Flag)
    ensures ResolveFlag(transport, flag).Err? <==>
      transport == "udp" && flag != UNSPECIFIED && flag & LISTEN != 0
  {
  }

  /** An explicitly resolved flag is a fixed point of the resolution. */
  lemma ResolveIdempotent(transport: string, flag: Flag)
    requires flag != UNSPECIFIED
    requires ResolveFlag(transport, flag).Ok?
    ensures ResolveFlag(transport, ResolveFlag(transport, flag).value) == ResolveFlag(transport, flag)
  {
  }

  /**
   * The default is not a fixed point: re-resolving tcp's default drops BIND,
   * and re-resolving udp's default is refused, because the default for udp
   * carries LISTEN.
   */
  lemma DefaultNotIdempotent()
    ensures ResolveFlag("tcp", UNSPECIFIED) == Ok(BIND | LISTEN)
    ensures ResolveFlag("tcp", BIND | LISTEN) == Ok(LISTEN)
    ensures ResolveFlag("udp", UNSPECIFIED) == Ok(BIND | LISTEN)
    ensures ResolveFlag("udp", BIND | LISTEN) == Err(ListenOnConnectionless)
  {
  }

  /** A udp server built with an explicit flag never carries LISTEN. */
  lemma ExplicitUdpNeverListens(flag: Flag)
    requires flag != UNSPECIFIED
    requires ResolveFlag("udp", flag).Ok?
    ensures !Listens(ResolveFlag("udp", flag).value)
  {
  }

  /**
   * isBinding as written: `(bool) $flag & self::BIND`. The cast binds tighter
   * than `&`, so the bit-and sees 0 or 1, and with BIND = 4 the answer is 0
   * for every flag.
   */
  function IsBinding(flag: Flag): (r: Flag)
    ensures r == 0
  {
    (if flag != 0 then 1 else 0) & BIND
  }

  /** isListening as written: `(bool) $flag & self::LISTEN`, 0 for every flag. */
  function IsListening(flag: Flag): (r: Flag)
    ensures r == 0
  {
    (if flag != 0 then 1 else 0) & LISTEN
  }

  /** What isBinding's documentation promises: the resolved flag holds BIND. */
  predicate Binds(flag: Flag) {
    flag & BIND != 0
  }

  /** What isListening's documentation promises: the resolved flag holds LISTEN. */
  predicate Listens(flag: Flag) {
    flag & LISTEN != 0
  }

  /**
   * With the default flag every server binds and listens, yet the methods as
   * written report neither.
   */
  lemma DefaultBindsAndListens(transport: string)
    ensures ResolveFlag(transport, UNSPECIFIED).Ok?
    ensures Binds(ResolveFlag(transport, UNSPECIFIED).value)
    ensures Listens(ResolveFlag(transport, UNSPECIFIED).value)
    ensures IsBinding(ResolveFlag(transport, UNSPECIFIED).value) == 0
    ensures IsListening(ResolveFlag(transport, UNSPECIFIED).value) == 0
  {
  }

  /** A tcp server given an explicit flag without LISTEN neither listens nor binds. */
  lemma ExplicitTcpWithoutListen(flag: Flag)
    requires flag != UNSPECIFIED && !Listens(flag)
    ensures ResolveFlag("tcp", flag) == Ok(0)
    ensures !Listens(ResolveFlag("tcp", flag).value)
    ensures !Binds(ResolveFlag("tcp", flag).value)
  {
  }
}
