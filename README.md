# Hoa_Socket_Connection_Server in Dafny

A model of `Hoa_Socket_Connection_Server`, the server side of Hoa's socket
connections (Framework/Library/Socket/Connection/Server.php). The class
resolves bind/listen flags from the socket's transport when it is built. It
binds and accepts one peer in `open` and releases its handles in `close`. It
also answers two queries about its flag.

- `wrappers.dfy`: `Option` and `Result`.
- `server_flags.dfy` (module `ServerFlags`): `BIND` (4) and `LISTEN` (8) as
  PHP defines them. Flags are `bv64`, PHP's 64-bit integers, so the default
  `-1` is the all-ones word `UNSPECIFIED`. The module also holds the
  exception codes, the constructor's flag resolution `ResolveFlag` and the two
  queries as written.
- `connection_server.dfy` (module `ConnectionServer`): the handles, the
  specification function `OpenStep` of `open`, and the class `Server` with
  fields `flag`, `server` (`_server`) and `stream` (the parent's stream).
  `Server.New` is the constructor, `Open` and `Close` are the two methods, and
  `Binding`/`Listening` are `isBinding`/`isListening`.
- `lifecycle.dfy` (module `Lifecycle`): any sequence of `open` and `close`
  calls, and what the handles are after it.

The platform calls `stream_socket_server`, `stream_socket_accept` and
`fclose` are total functions passed in by the caller. So every contract holds
whatever the platform answers. `getContext()` of a `Hoa_Stream_Context` is
modelled as the context value itself.

Assumptions about the parent `Hoa_Socket_Connection`, whose source is not part
of this model:
- `getFlag()` returns the flag given to `parent::__construct`. It never
  changes, so `Server.flag` is a `const`.
- `getStream()` returns the connection the last successful `open` returned.
  `Server.Open` stores it in `stream` itself, in place of the parent.
- Before any `open`, the parent's stream is `null`.

Three behaviours of the code differ from what a server socket is usually expected to do; the model follows the code:
- For udp, the default flag `-1` becomes `BIND|LISTEN`, the flag the
  constructor refuses when it is given explicitly. So "a udp server never
  carries LISTEN" holds only for explicit flags (`ExplicitUdpNeverListens`,
  `DefaultNotIdempotent`).
- `open` calls `stream_socket_accept` without a timeout argument, so the
  accept waits for PHP's `default_socket_timeout` setting, not for the
  constructor's timeout. `Server.timeout` is stored and never read.
- `close` returns true when at least one of the two releases succeeds, not
  when both do.

## Model

| member | source | states |
|---|---|---|
| `ServerFlags.ResolveFlag` | Framework/Library/Socket/Connection/Server.php:107-132 | The default `-1` gives `BIND\|LISTEN` for every transport. An explicit tcp flag gives 0 or `LISTEN`, `LISTEN` exactly when it was requested. An explicit udp flag fails with code 0 exactly when it holds `LISTEN`; otherwise it gives 0 or `BIND`, `BIND` exactly when it was requested. Any other transport keeps the flag unchanged. |
| `ServerFlags.ResolveFailsOnlyForUdpListen` | Framework/Library/Socket/Connection/Server.php:110-127 | Resolution fails if and only if the transport is udp and an explicit flag holds `LISTEN`. |
| `ServerFlags.ResolveIdempotent` | Framework/Library/Socket/Connection/Server.php:112-127 | Resolving an explicitly resolved flag again gives the same flag. |
| `ServerFlags.DefaultNotIdempotent` | Framework/Library/Socket/Connection/Server.php:110-126 | The default is not a fixed point. Re-resolving tcp's `BIND\|LISTEN` gives `LISTEN`. Udp's default also holds `LISTEN`, and re-resolving it is refused. |
| `ServerFlags.ExplicitUdpNeverListens` | Framework/Library/Socket/Connection/Server.php:119-126 | A udp server built with an explicit flag never holds `LISTEN`. |
| `ServerFlags.IsBinding` | Framework/Library/Socket/Connection/Server.php:196-199 | `(bool) flag & BIND` as written is 0 for every flag. |
| `ServerFlags.IsListening` | Framework/Library/Socket/Connection/Server.php:207-210 | `(bool) flag & LISTEN` as written is 0 for every flag. |
| `ServerFlags.DefaultBindsAndListens` | Framework/Library/Socket/Connection/Server.php:110-111 | With the default flag, every transport's resolved flag binds and listens. Yet `isBinding` and `isListening` as written both give 0. |
| `ServerFlags.ExplicitTcpWithoutListen` | Framework/Library/Socket/Connection/Server.php:115-117 | An explicit tcp flag without `LISTEN` resolves to 0, which neither listens nor binds. |
| `ConnectionServer.OpenStep` | Framework/Library/Socket/Connection/Server.php:143-176 | The bind gets the resolved flag, and its result is stored in `_server` whatever happens next. Code 0 is thrown exactly when the bind fails with errno 0, with the stream name. Code 1 is thrown exactly when the bind fails with a non-zero errno, carrying errno and errstr. Code 2 is thrown exactly when the bind succeeds and the accept on the stored handle fails. It succeeds exactly when both succeed, returning the connection accepted on `_server`. On failure the stream is unchanged. |
| `ConnectionServer.CloseResult` | Framework/Library/Socket/Connection/Server.php:185-188 | `close` is true if and only if `_server` or the stream is a resource whose release succeeds. |
| `ConnectionServer.Server.Init` | Framework/Library/Socket/Connection/Server.php:90 | The parent stores socket, timeout, resolved flag and context. `_server` starts as `null`. |
| `ConnectionServer.Server.New` | Framework/Library/Socket/Connection/Server.php:107-132 | Construction fails exactly when resolution fails, with the same exception; `parent::__construct` is then never reached and no object is handed to the caller. Otherwise it gives a fresh server holding the resolved flag and no handles. |
| `ConnectionServer.Server.Open` | Framework/Library/Socket/Connection/Server.php:143-176 | The new handles and the outcome are those of `OpenStep` for the object's flag. This holds with and without a context. |
| `ConnectionServer.Server.Close` | Framework/Library/Socket/Connection/Server.php:185-188 | The result is true if and only if at least one of `_server` and the stream is released. Neither handle changes. |
| `ConnectionServer.Server.Binding` | Framework/Library/Socket/Connection/Server.php:196-199 | `isBinding()` on any server is 0. |
| `ConnectionServer.Server.Listening` | Framework/Library/Socket/Connection/Server.php:207-210 | `isListening()` on any server is 0. |
| `Lifecycle.ClosesKeepState` | Framework/Library/Socket/Connection/Server.php:185-188 | Any number of `close` calls leaves `_server` and the stream as they were. |
| `Lifecycle.ServerIsLastBind` | Framework/Library/Socket/Connection/Server.php:143-161 | After a sequence of calls, `_server` holds what the last `open`'s bind returned. This holds whether its accept succeeded or not, and whatever closes follow. |
| `Lifecycle.OpenedServerNotNull` | Framework/Library/Socket/Connection/Server.php:90-161 | Once any `open` has been called, `_server` is never `null` again. |
| `Lifecycle.SecondCloseFails` | Framework/Library/Socket/Connection/Server.php:185-188 | `close` resets no handle, so a second `close` tries to release the same resources again. If the first released every resource and a released resource cannot be released again, the first reports true exactly when some handle was a resource, and the second reports false. |

## Findings

| source | as written | input that shows it | evidently intended | confidence | as-written member | corrected member |
|---|---|---|---|---|---|---|
| Framework/Library/Socket/Connection/Server.php:198 | `(bool) $this->getFlag() & self::BIND` casts the flag before the bit-and, so it computes `1 & 4` or `0 & 4` | the default flag `BIND\|LISTEN` (12): `isBinding()` gives 0 | `(bool) ($flag & BIND)`: true when the flag holds BIND, as the doc-comment says | high (PHP operator precedence); not executed | `ServerFlags.IsBinding` | `ServerFlags.Binds` |
| Framework/Library/Socket/Connection/Server.php:209 | `(bool) $this->getFlag() & self::LISTEN` computes `1 & 8` or `0 & 8` | the default flag `BIND\|LISTEN` (12): `isListening()` gives 0 | `(bool) ($flag & LISTEN)`: true when the flag holds LISTEN | high (PHP operator precedence); not executed | `ServerFlags.IsListening` | `ServerFlags.Listens` |

`DefaultBindsAndListens` shows both discrepancies on the default flag.
`ExplicitTcpWithoutListen`, `ExplicitUdpNeverListens` and
`DefaultBindsAndListens` state the intended properties in terms of the
corrected `Binds` and `Listens`. The class keeps `Binding` and `Listening` as
written.

## Left out

- Real socket behaviour (binding, listening, the blocking accept and its timeout, releasing a stream): operating-system I/O. Only the success or failure the platform reports is modelled, as function parameters.
- `Hoa_Stream_Context` and `getContext()`: an opaque options bag whose source is not part of this model. A context is an uninterpreted value.
- The parent `Hoa_Socket_Connection`: its source is not part of this model. How it stores the flag, timeout and stream, and how it drives `open`, are the assumptions listed above.
- Exception messages and their `%s`/`%d` substitution, and PHP's `@` error suppression: only the codes and payloads are modelled.
- The reference return of `&open`: it has no observable effect here.
- Non-integer flags and PHP's loose `==` between types: flags are integers, and transports are compared as strings.
- What `fclose` does to a handle that is already closed: the release function decides it for each resource.
- ReleaseCount: uses PHP 5/7 `fclose` semantics on `null` and `false` (a hidden warning and a false result). Under PHP 8 that call throws a TypeError that `@` does not suppress, so `close` before any `open`, or after a failed bind, would throw; the model does not capture that.
