# SignalR C++ client connection — a Dafny model

This project models the `Connection` class of the SignalR C++ client
(`src/Microsoft.AspNet.SignalR.Client.Cpp/Connection.cpp`): the lifecycle
state machine `Disconnected | Connecting | Connected | Reconnecting`, the
compare-and-set guard `ChangeState` that is the only way the state changes,
the start / negotiate / start-transport path, `EnsureReconnecting`, the
transport-start completion handler, and the accessors for the URI and the
negotiated identity.

Three modules:

- `Uri` (`uri.dfy`): the constructor's trailing-slash normalisation as a
  function, with its characterisation and idempotence.
- `Lifecycle` (`lifecycle.dfy`): states, handler notifications, the pure
  `CompareAndSet` guard, `Step` (the effect of each connection operation on
  the state and on the handler's log), and `Run` / `States` over sequences of
  operations, with inductive lemmas. A direct `ChangeState(expected, next)`
  call is an operation of its own (`Guard`) and, as in the code, it can make
  any transition, including illegal ones and ones back to `Disconnected`
  (`GuardBypassesLegality`). Over every run, each granted `Start` after the
  first needs such a reset before it, and the handler gets exactly one
  state-change notification per granted guard. Over runs without direct
  guard calls, every state change is a sanctioned transition forward, a
  connection never returns to `Disconnected`, and at most one `Start` is
  ever granted.
- `Client` (`client.dfy`): the `Connection` class with the fields of the C++ class.
  Each lifecycle method appends its operation to the ghost history `events`,
  and the invariant `Valid()` says that the state and the handler log are
  `Lifecycle.Run` of that history from `Disconnected`. The lemmas
  `StartsSoFar` and `OrchestratedHistory` apply the run results to a
  connection's history. The
  handler is a ghost log of notifications (`handlerLog`); transports are
  opaque objects and each request made of one is appended to a ghost log
  (`transportLog`). Transport calls never touch the connection's own fields:
  every method's `modifies` clause names only the fields it writes.

The model keeps two behaviours of the code as written:

- `ChangeState` reports the pair `(oldState, oldState)` to the handler, not
  `(oldState, newState)` (Connection.cpp:72). `Lifecycle.NotificationsRepeatOldState`
  proves that every state-change notification therefore repeats one state.
- `OnTransportStartCompleted` attempts `Connecting -> Connected` when an error
  IS present (Connection.cpp:147-150). The other branch dereferences the null
  error (Connection.cpp:153) and is excluded by `requires error.Some?`.

Where the intended protocol behaviour and the code disagree, the model follows the
code: `Stop` does not move the state to `Disconnected`; `Send`, `Stop`,
`Negotiate` and `StartTransport` dereference the stored transport, which the
constructor never sets, so they require one to have been stored; a refused
`Start` still overwrites the stored transport; the connection id and token can
be overwritten at any time through the setters; `Negotiate` sends its request
to the stored transport, not to its parameter.

## Model

| member | source | states |
|---|---|---|
| `Uri.Normalize` | src/Microsoft.AspNet.SignalR.Client.Cpp/Connection.cpp:9-13 | the result ends with '/', starts with the input and is at most one character longer; it equals the input exactly when the input already ends with '/' |
| `Uri.NormalizeIdempotent` | src/Microsoft.AspNet.SignalR.Client.Cpp/Connection.cpp:9-13 | normalising a stored URI again leaves it unchanged |
| `Uri.NormalizeExample` | src/Microsoft.AspNet.SignalR.Client.Cpp/Connection.cpp:9-13 | "http://host" is stored as "http://host/", and "http://host/" as itself |
| `Client.Connection.constructor` | src/Microsoft.AspNet.SignalR.Client.Cpp/Connection.cpp:7-16 | a new connection is `Disconnected`, has no transport and empty id, token, groups token and message id, and stores the normalised URI |
| `Lifecycle.CompareAndSetContract` | src/Microsoft.AspNet.SignalR.Client.Cpp/Connection.cpp:66-78 | the guard succeeds iff the current state is the expected one; then the state becomes the requested one and exactly one notification is sent; otherwise nothing changes and nothing is sent |
| `Lifecycle.SecondRacerRefused` | src/Microsoft.AspNet.SignalR.Client.Cpp/Connection.cpp:66-78 | after one caller's guard has moved the state away from the expected state, a second caller with the same expectation is refused |
| `Client.Connection.ChangeState` | src/Microsoft.AspNet.SignalR.Client.Cpp/Connection.cpp:66-78 | accepts any pair of states and records the call as `Guard(oldState, newState)`; returns true iff the old state was the expected one; the state becomes the new one on success and is unchanged otherwise; the handler log grows by `StateChanged(oldState, oldState)` on success and not at all on failure |
| `Client.Connection.EnsureReconnecting` | src/Microsoft.AspNet.SignalR.Client.Cpp/Connection.cpp:80-85 | returns true iff the state afterwards is `Reconnecting`, i.e. iff it was `Connected` or `Reconnecting` before; from any other state nothing changes |
| `Client.Connection.Start` | src/Microsoft.AspNet.SignalR.Client.Cpp/Connection.cpp:32-43 | `GetTransport` returns the given transport afterwards in every case; the start is granted iff the state was `Disconnected`, which moves it to `Connecting`; only a granted start sends the negotiate request to that transport |
| `Client.Connection.Negotiate` | src/Microsoft.AspNet.SignalR.Client.Cpp/Connection.cpp:45-47 | exactly one negotiate request goes to the stored transport and nothing else changes |
| `Client.Connection.CompleteNegotiation` | src/Microsoft.AspNet.SignalR.Client.Cpp/Connection.cpp:47-53 | the connection id and token become exactly the response's fields, then one start request with an empty query string goes to the stored transport |
| `Client.Connection.StartTransport` | src/Microsoft.AspNet.SignalR.Client.Cpp/Connection.cpp:56-59 | exactly one start request with an empty query string goes to the stored transport and nothing else changes |
| `Client.Connection.Send` | src/Microsoft.AspNet.SignalR.Client.Cpp/Connection.cpp:61-64 | exactly one send request with the payload goes to the stored transport; state, URI, id and token are untouched |
| `Client.Connection.SetConnectionState` | src/Microsoft.AspNet.SignalR.Client.Cpp/Connection.cpp:87-91 | afterwards the id and token getters return exactly the response's fields; nothing else changes |
| `Client.Connection.OnError` | src/Microsoft.AspNet.SignalR.Client.Cpp/Connection.cpp:93-96 | the handler receives exactly this error and the state does not change |
| `Client.Connection.GetUri` | src/Microsoft.AspNet.SignalR.Client.Cpp/Connection.cpp:103-106 | the URI returned always ends with '/' |
| `Client.Connection.SetConnectionId` | src/Microsoft.AspNet.SignalR.Client.Cpp/Connection.cpp:108-116 | `GetConnectionId` afterwards returns the id that was set; nothing else changes |
| `Client.Connection.SetConnectionToken` | src/Microsoft.AspNet.SignalR.Client.Cpp/Connection.cpp:118-126 | `GetConnectionToken` afterwards returns the token that was set; nothing else changes |
| `Client.Connection.GetGroupsToken` | src/Microsoft.AspNet.SignalR.Client.Cpp/Connection.cpp:128-131 | always empty, since no operation of the connection writes it |
| `Client.Connection.GetMessageId` | src/Microsoft.AspNet.SignalR.Client.Cpp/Connection.cpp:133-136 | always empty, since no operation of the connection writes it |
| `Client.Connection.Stop` | src/Microsoft.AspNet.SignalR.Client.Cpp/Connection.cpp:138-141 | exactly one stop request goes to the stored transport; the state is left as it was, so stopping twice ends in the same state |
| `Client.Connection.OnTransportStartCompleted` | src/Microsoft.AspNet.SignalR.Client.Cpp/Connection.cpp:143-150 | with an error present (as written), the connection is `Connected` afterwards iff it was `Connecting` or `Connected` before; from any other state nothing changes |
| `Lifecycle.Step` | src/Microsoft.AspNet.SignalR.Client.Cpp/Connection.cpp:36-149 | every operation other than a direct guard call either leaves the state alone or makes a sanctioned transition forward, and changes the state iff its guard succeeds; a direct guard call may make any transition; state notifications repeat the prior state; only `OnError` notifies an error |
| `Lifecycle.Run` | src/Microsoft.AspNet.SignalR.Client.Cpp/Connection.cpp:66-85 | over any sequence of operations without a direct guard call the connection only moves forward through `Disconnected`, `Connecting`, `Connected`, `Reconnecting` |
| `Lifecycle.States` | src/Microsoft.AspNet.SignalR.Client.Cpp/Connection.cpp:66-85 | the state sequence of a run starts at the initial state and ends at the run's final state |
| `Lifecycle.StatesStepAt` | src/Microsoft.AspNet.SignalR.Client.Cpp/Connection.cpp:66-78 | each state of a run follows from the previous one by that operation's step |
| `Lifecycle.RunMovesLegally` | src/Microsoft.AspNet.SignalR.Client.Cpp/Connection.cpp:36-149 | along any run without a direct guard call, every change of state is one of the sanctioned transitions |
| `Lifecycle.NeverDisconnectedAgain` | src/Microsoft.AspNet.SignalR.Client.Cpp/Connection.cpp:36-149 | once a connection has left `Disconnected`, no sequence of operations without a direct guard call brings it back |
| `Lifecycle.StartGrantedAtMostOnce` | src/Microsoft.AspNet.SignalR.Client.Cpp/Connection.cpp:32-43 | over any sequence of operations without a direct guard call at most one `Start` is granted, and none if the connection was not `Disconnected` |
| `Lifecycle.StartsBoundedByResets` | src/Microsoft.AspNet.SignalR.Client.Cpp/Connection.cpp:32-43 | over every sequence of operations, direct guard calls included, the granted `Start`s number at most one (if the connection began `Disconnected`) plus the direct guard calls that moved it back to `Disconnected` |
| `Lifecycle.StartedStaysConnectedOrBeyond` | src/Microsoft.AspNet.SignalR.Client.Cpp/Connection.cpp:32-43 | without direct guard calls, a run in which a `Start` was granted does not end `Disconnected` |
| `Lifecycle.GuardBypassesLegality` | src/Microsoft.AspNet.SignalR.Client.Cpp/Connection.cpp:66-78 | the guard does not enforce the sanctioned transitions: a direct call moves a fresh connection to `Reconnecting`, and a reset to `Disconnected` lets a second `Start` through |
| `Lifecycle.RunSnoc` | src/Microsoft.AspNet.SignalR.Client.Cpp/Connection.cpp:66-78 | extending a run by one operation applies that operation's step to the run's final state and appends its notifications to the handler's log |
| `Client.Connection.StartsSoFar` | src/Microsoft.AspNet.SignalR.Client.Cpp/Connection.cpp:32-43 | over a connection's whole history each granted `Start` after the first was preceded by a direct guard call back to `Disconnected` |
| `Client.Connection.OrchestratedHistory` | src/Microsoft.AspNet.SignalR.Client.Cpp/Connection.cpp:32-43 | a connection driven only through its own operations has granted at most one `Start`, and once it has, it is not `Disconnected` |
| `Lifecycle.FirstStartWins` | src/Microsoft.AspNet.SignalR.Client.Cpp/Connection.cpp:32-43 | on a fresh connection without direct guard calls, whatever operations precede it, the first `Start` is granted and every later one is refused |
| `Lifecycle.OneNotificationPerTransition` | src/Microsoft.AspNet.SignalR.Client.Cpp/Connection.cpp:68-77 | over every run, direct guard calls included, the number of state-change notifications the handler receives equals the number of granted guards |
| `Lifecycle.StepNotifiesOnce` | src/Microsoft.AspNet.SignalR.Client.Cpp/Connection.cpp:68-77 | one operation sends exactly one state-change notification if its guard lets it through and none otherwise |
| `Lifecycle.NotificationsRepeatOldState` | src/Microsoft.AspNet.SignalR.Client.Cpp/Connection.cpp:72 | every state-change notification of any run carries the same state twice |

## Left out

- Asynchrony: `pplx::task` values and `.then` continuations. Each asynchronous
  step is a separate sequential method; the negotiation reply is a parameter
  of `CompleteNegotiation`, and a refused `Start` returns `false` instead of
  an empty task.
- Concurrency: `ChangeState` is a plain read-then-write in Connection.cpp, so
  there is no atomicity to model; races are modelled only as interleavings of
  sequential calls (`SecondRacerRefused`, `StartGrantedAtMostOnce`).
- The parameterless `Start()` and `Start(http_client*)` overloads
  (Connection.cpp:18-30): they only build a fixed server-sent-events transport
  over a library HTTP client, which is outside the model.
- Concrete transports and the HTTP client: `Transport` is an opaque object and
  the transport's own behaviour (including that it later calls
  `OnTransportStartCompleted`) is not modelled; only the requests sent to it.
- Handler implementations and the handler pointer given to the constructor:
  the handler is represented only by the ghost log of what it is told.
- Client.Connection.OnTransportStartCompleted: the null-error branch
  (Connection.cpp:151-155) dereferences a null pointer and is excluded by its
  precondition; the `void*` cast of the state argument is replaced by a typed
  `Connection` parameter.
- Connection.h, IConnectionHandler.h and the transport headers are not part
  of this model; members declared only there are not modelled.
- The destructor (Connection.cpp:158-160) is empty.
- `GetTransport`, `GetConnectionId` and `GetConnectionToken` are plain reads
  of a field; they appear in the contracts of `Start` and of the setters
  rather than in rows of their own.
