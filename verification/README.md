# Bandwidth-limited TCP tunnel: lifecycle model

This project models the lifecycle engine of a bandwidth-limited TCP tunnel
(`app/tunnel.go`). The tunnel listens on a local address. For every
accepted socket it dials a fixed remote endpoint and relays bytes both ways.
Each byte is charged to a tunnel-wide limiter and to a per-connection
limiter.

The model removes the goroutines and channels and keeps the sequential
decisions behind them:

- **Control loop** (`ControlLoop`, `control_loop.dfy`). The `select` loop in
  `tunnelInternals.run` owns the active connections, the tunnel limiter and
  the default per-connection limit. It becomes a pure `Step(state, event)`
  over five events: `Accepted(dialOk)`, `AcceptFailed`, `Completed(id)`,
  `LimitsUpdate(limits)` and `Shutdown(pendingAccepted)`. When the loop
  returns, the deferred drain runs. `Run` folds a sequence of events.
- **Connection construction** (`Connections`, `connection.dfy`). This is
  `newConnection.create` as data. A failed dial yields no connection. A
  successful dial yields a connection whose limiter is set to the current
  default limit. Its two forwarding directions share the limiter list
  `[tunnel, connection]`.
- **Listener supervisor** (`ListenerSupervisor`, `supervisor.dfy`). The
  goroutine started by `CreateTunnel` has three phases: `HasListener`,
  `NoListener` and `Stopped`. Its inputs are the loop's result, the retry
  tick with the outcome of the re-listen, and shutdown.
- **Tunnel** (`Tunnels`, `tunnel.dfy`). This composes the supervisor and the
  loop under one event stream. It also models `CreateTunnel`'s first
  listen. The composition uses the corrected supervisor
  (`ListenerSupervisor.Next`), which closes a listener lost to an accept
  error once; the source closes it twice (see "## Findings").
- **Limits** (`Limits`, `limits.dfy`). This holds `TunnelLimits` and the
  limiter configuration: rate and burst.

Sockets and listeners are opaque identities. The n-th accepted socket is
`Inbound(n)`, and the socket dialed for it is `Outbound(n)`. The
connection built from them has id `n`. The source identifies a connection
by its `*connection` pointer, which is one-to-one with its accepted socket.
Every close is recorded in a multiset:

- `closedConns` records one entry per call of a connection's close
  operation. That operation cancels the connection's context and closes
  its egress and then its ingress socket.
- `closedIngress` records one entry per direct `Close` of an accepted
  socket that never became a connection.
- `listenerCloses` records one entry per `Close` of a listener.

"Closed twice" is therefore a count of 2, which the invariants rule out.

The outcomes of `Accept`, `Dial` and `Listen` are booleans carried on the
events. The 5-second backoff sleep is the `Retry` tick. `Limit` and
`ForwarderBufSize` are declared in files that are not part of this model:
`Limit` is an integer, and the buffer size is a parameter `bufSize` fixed
when the tunnel is created. Every limiter's burst equals `bufSize`.

Two consequences of how the code is structured:

- The code has no separate "shutting down" phase. The drain runs inside
  the loop's return (deferred at app/tunnel.go:179-183), so shutdown goes
  straight to `Stopped`.
- A limit update sent while the supervisor has no listener is not
  consumed, because no loop is reading the channel. The handle's
  `UpdateLimits` blocks until a listener is back, so in the model such an
  update leaves the tunnel unchanged.

## Model

| member | source | states |
|---|---|---|
| Limits.SetLimit | app/tunnel.go:225-228 | changing a limiter's rate sets the rate and keeps the burst |
| Connections.Create | app/tunnel.go:257-303 | a failed dial gives no connection, and only a failed dial does; a successful one gives a connection on the accepted and dialed sockets whose limiter is the given per-connection limit with a one-buffer burst, and whose two directions mirror each other and share the limiters `[tunnel, connection]` |
| Connections.WithLimit | app/tunnel.go:227-229 | a live connection adopts a new rate with the same sockets and burst and stays well formed (no reconnect) |
| Connections.BothDirectionsChargeBothLimiters | app/tunnel.go:280-300 | both directions run between the same two sockets in opposite ways and consult the tunnel-wide and the connection's limiter |
| ControlLoop.Initial | app/tunnel.go:60-68 | the loop starts with the tunnel limiter at `TunnelLimit` with a one-buffer burst, the default connection limit at `ConnectionLimit`, no active connections, and its invariant established |
| ControlLoop.OnAccepted | app/tunnel.go:198-213 | a dialed accept registers exactly the new id, at the current default limit and well formed, leaving every other entry alone; a failed dial leaves the active set unchanged and closes the accepted socket |
| ControlLoop.AcceptedAddsOne | app/tunnel.go:200-212 | in a reachable state the new id is fresh, so a successful accept grows the active set by exactly one |
| ControlLoop.OnCompleted | app/tunnel.go:214-223 | a completion for an active connection removes it, closes it once and changes nothing else; for any other id the state is unchanged |
| ControlLoop.LateCompletionIsNoOp | app/tunnel.go:214-223 | a second completion report for the same connection (the other direction's) changes nothing and the loop keeps running |
| ControlLoop.OnLimitsUpdate | app/tunnel.go:224-230 | a limit update sets the tunnel rate and the default connection limit and puts every active connection at the new limit, with membership, sockets and close logs unchanged |
| ControlLoop.LimitsUpdateLastWins | app/tunnel.go:224-230 | of two updates in a row only the later one is visible |
| ControlLoop.DrainActive | app/tunnel.go:179-183 | the deferred range loop closes each active connection exactly once (count +1 for active ids, +0 for the rest) and leaves none active; it agrees with the functional drain |
| ControlLoop.ClosePending | app/tunnel.go:147-155 | a socket accepted but never read by the loop is closed directly on return |
| ControlLoop.StepReturns | app/tunnel.go:187-196 | the loop returns exactly on an accept error (with the error) and on shutdown (cleanly), and on return no connection is active |
| ControlLoop.DrainPreservesInv | app/tunnel.go:179-183 | draining a reachable state empties the active set without closing anything twice |
| ControlLoop.AcceptedPreservesInv | app/tunnel.go:198-213 | an accept keeps the loop invariant |
| ControlLoop.CompletedPreservesInv | app/tunnel.go:214-223 | a completion keeps the loop invariant |
| ControlLoop.LimitsUpdatePreservesInv | app/tunnel.go:224-230 | a limit update keeps the loop invariant, including every active connection at the current default limit |
| ControlLoop.ClosePendingPreservesInv | app/tunnel.go:147-155 | closing the pending socket keeps the loop invariant |
| ControlLoop.ShutdownPreservesInv | app/tunnel.go:231-233 | shutdown with or without a pending socket keeps the loop invariant |
| ControlLoop.StepPreservesInv | app/tunnel.go:185-235 | every event keeps the loop invariant |
| ControlLoop.RunPreservesInv | app/tunnel.go:185-235 | over any event sequence, no connection or accepted socket is closed twice, closed and active stay disjoint, and every accepted socket is active or closed |
| ControlLoop.ReturnClosesEverything | app/tunnel.go:179-183 | when the loop returns after any event sequence, nothing is active and every socket it accepted was closed exactly once |
| ControlLoop.RunKeepsLimitsCoherent | app/tunnel.go:224-230 | after any event sequence every active connection runs at the loop's current default limit, so updates reach live and later connections alike |
| ListenerSupervisor.Started | app/tunnel.go:54-68 | after the first listen the supervisor holds a listener and its invariant holds |
| ListenerSupervisor.Next | app/tunnel.go:76-111 | a clean return stops the supervisor and an accept error moves it to `NoListener`, each closing the listener once; without a listener, a failed re-listen changes nothing, a successful one holds a fresh listener, and shutdown stops it; `Stopped` never changes |
| ListenerSupervisor.NextAsWritten | app/tunnel.go:82-91 | as written, an accept error closes the listener twice: the loop's deferred Close and then the supervisor's own |
| ListenerSupervisor.AsWrittenClosesListenerTwice | app/tunnel.go:85-90 | from any reachable state holding a listener, an accept error as written leaves that listener closed twice, breaking the close-once invariant |
| ListenerSupervisor.NextPreservesInv | app/tunnel.go:76-111 | every transition keeps each listener closed at most once and all but the held one closed |
| ListenerSupervisor.RunAllPreservesInv | app/tunnel.go:76-111 | the same over any input sequence |
| ListenerSupervisor.StoppedIsTerminal | app/tunnel.go:79-81 | no input sequence changes a stopped supervisor |
| ListenerSupervisor.FailedRetriesKeepWaiting | app/tunnel.go:94-106 | any number of failed re-listens leaves the supervisor waiting without a listener, unchanged |
| Tunnels.CreateTunnel | app/tunnel.go:47-68 | a failed first listen gives no tunnel, and only a failed listen does; otherwise the tunnel holds a listener, no connections, the given limits with a one-buffer burst, and its invariant |
| Tunnels.StepPreservesInv | app/tunnel.go:71-112 | every tunnel event keeps the loop and supervisor invariants, and no connection is active without a listener |
| Tunnels.RunPreservesInv | app/tunnel.go:71-112 | the same over any event sequence |
| Tunnels.StoppedIsTerminal | app/tunnel.go:107-109 | no event sequence changes a stopped tunnel |
| Tunnels.ShutdownDrainsEverything | app/tunnel.go:37-42 | shutdown in any live phase stops the tunnel with no connection active, every accepted socket closed exactly once and every listener closed exactly once |
| Tunnels.LimitsSurviveRelisten | app/tunnel.go:224-226 | limits set by an update stay in force after the listener dies and is re-established, and the new run starts with no connections |
| Tunnels.StepKeepsLimits | app/tunnel.go:224-226 | the tunnel and connection limits change only when a running loop consumes a limit update; any other event, including an accept error or a re-listen, keeps them |
| Tunnels.LimitsChangeOnlyByUpdates | app/tunnel.go:224-226 | over any event sequence without limit updates, the limits at the end are those at the start, whatever the listener went through |
| Tunnels.NoListenerIgnoresLoopEvents | app/tunnel.go:31-35 | without a listener, limit updates, accepts and completions are not consumed and leave the tunnel unchanged |

## Left out

- Goroutines, channels, `select` fairness and `sync.WaitGroup` counting (app/tunnel.go:70-72, 279-300) are concurrency. They are replaced by an externally chosen event sequence. The waiting in `Shutdown` (app/tunnel.go:41) is not modelled.
- Sockets and listeners, `net.Listen`, `Accept`, `Dial` and `Close` are I/O. They are opaque ids; their success or failure is a boolean on the event. Errors returned by `Close` are only logged and do not change the model.
- The token-bucket internals of the rate library (floating-point rates, wall-clock refill, blocking waits) are a foreign library. Only each limiter's configured rate and burst are kept. The rate-conformance guarantees about bytes per second are out of scope.
- `forward.run` and the byte copying are not part of this model. Neither is `forwardWithCompletion.run` with its context-cancelled suppression of a completion report (app/tunnel.go:312-330), which only matters under racing goroutines. A late or duplicate report is still modelled by `Completed(id)` for an inactive id.
- The 5-second backoff sleep is the `Retry` tick. The backoff goroutine is left blocked on the unbuffered `retry` channel when shutdown wins (app/tunnel.go:94-97). The acceptor goroutine is left blocked sending its error after the listener closes (app/tunnel.go:163-167). Both leaks are concurrency effects and are not modelled.
- All `log.Printf` calls, including the message at app/tunnel.go:91 that prints the close error instead of the accept error, are left out.
- `ControlLoop.ClosePending` models only the case where the acceptor has already handed over a socket when the loop returns. A socket accepted after the deferred `select` has taken its `default` branch is a race and is not modelled.
- Tunnels.StepPreservesInv: its "each listener closed at most once" part holds for the corrected supervisor the tunnel composes; as written, a listener lost to an accept error is closed twice (app/tunnel.go:156 and 85), as the Findings row records.
- Tunnels.RunPreservesInv: the same as `Tunnels.StepPreservesInv`, over any event sequence; it does not describe the as-written double close.
- Tunnels.ShutdownDrainsEverything: "every listener closed exactly once" is the corrected behaviour; as written, every listener lost to an accept error has been closed twice by the time shutdown returns.
- Tunnels.StoppedIsTerminal: the model ignores every event after the tunnel stopped. In the source a second `Shutdown()` closes the already-closed `shutdown` channel and panics (app/tunnel.go:40), and an `UpdateLimits` after shutdown blocks forever because nothing reads `limitsUpdate` any more (app/tunnel.go:34). Neither a panic nor a blocked caller is modelled.
- The connection's cancellation token is not a separate field. Cancelling it is part of the close operation that each `closedConns` entry records.

## Findings

| source | as written | input that shows it | evidently intended | confidence | as-written member | corrected member |
|---|---|---|---|---|---|---|
| app/tunnel.go:85-90 | After `run` returns an accept error, the supervisor calls `ti.listener.Close()`. `run` has already closed that listener through its deferred `ti.listener.Close()` (app/tunnel.go:156). So the listener is closed twice, and the second `Close` fails and is logged as a close failure every time. | any event sequence where the loop receives `AcceptFailed` while the supervisor holds a listener | The listener is closed once. The comment at app/tunnel.go:59 makes closing it `run`'s job. | medium (not executed) | ListenerSupervisor.AsWrittenClosesListenerTwice | ListenerSupervisor.RunAllPreservesInv |
