/** The client-side `Connection` object: it owns the normalised base URI, the
    lifecycle state, the transport chosen at start time and the identity the
    server assigned during negotiation.

    The application's handler and the transport are collaborators whose code
    is not modelled. What the connection tells the handler is recorded in the
    ghost log `handlerLog`; what it asks of the transport is recorded in the
    ghost log `transportLog`. Transport calls have no effect on the
    connection's own fields. The ghost field `events` is the history of the
    connection's operations; the invariant ties the state and the handler log
    to `Lifecycle.Run` over it. Each asynchronous step (the negotiation reply,
    the transport's start completion) is a separate method taking its result
    as a parameter. */
module Client {
  import opened Lifecycle
  import Uri

  /** An opaque transport (long polling, server-sent events, web sockets). */
  class Transport {
  }

  /** A request the connection makes of its transport. */
  datatype TransportCall =
    | NegotiateCall(transport: Transport)
    | StartCall(transport: Transport, queryString: string)
    | SendCall(transport: Transport, data: string)
    | StopCall(transport: Transport)

  /** A possibly absent value (the C++ null pointer). */
  datatype Option<T> = None | Some(value: T)

  /** The server's reply to the negotiate request; only the identity is used. */
  datatype NegotiationResponse = NegotiationResponse(connectionId: string, connectionToken: string)

  class Connection {
    var uri: string
    var state: State
    var transport: Transport?
    var connectionId: string
    var connectionToken: string
    var groupsToken: string
    var messageId: string

    /** Notifications delivered to the handler, oldest first. */
    ghost var handlerLog: seq<Notification>
    /** Requests made of transports, oldest first. */
    ghost var transportLog: seq<TransportCall>
    /** The lifecycle operations performed on this connection, oldest first. */
    ghost var events: seq<Event>

    /** The stored URI is normalised; nothing in the connection ever writes
        the groups token or the message id, so they keep their empty value;
        the state and the handler log are what the history of operations
        produces from a fresh connection. */
    ghost predicate Valid()
      reads this
    {
      && Uri.IsNormalized(uri)
      && groupsToken == "" && messageId == ""
      && Run(Disconnected, events) == Trace(state, handlerLog)
    }

    /** A new connection is disconnected and has no transport and no identity;
        its URI is the given one with a trailing slash added if missing. */
    constructor (uri: string)
      requires |uri| > 0
      ensures Valid()
      ensures this.uri == Uri.Normalize(uri)
      ensures state == Disconnected && transport == null
      ensures connectionId == "" && connectionToken == ""
      ensures handlerLog == [] && transportLog == [] && events == []
    {
      this.uri := Uri.Normalize(uri);
      state := Disconnected;
      transport := null;
      connectionId, connectionToken := "", "";
      groupsToken, messageId := "", "";
      handlerLog, transportLog, events := [], [], [];
    }

    /** The guard: moves from `oldState` to `newState` only if the connection
        is in `oldState`, and then tells the handler (as written, with the pair
        (oldState, oldState)). */
    method ChangeState(oldState: State, newState: State) returns (ok: bool)
      requires Valid()
      modifies this`state, this`handlerLog, this`events
      ensures Valid() && events == old(events) + [Guard(oldState, newState)]
      ensures ok <==> old(state) == oldState
      ensures state == if ok then newState else old(state)
      ensures handlerLog == old(handlerLog) + if ok then [StateChanged(oldState, oldState)] else []
      ensures CompareAndSet(old(state), oldState, newState) == Outcome(ok, state, handlerLog[|old(handlerLog)|..])
    {
      RunSnoc(Disconnected, events, Guard(oldState, newState));
      events := events + [Guard(oldState, newState)];
      if state == oldState {
        state := newState;
        handlerLog := handlerLog + [StateChanged(oldState, oldState)];
        ok := true;
      } else {
        ok := false;
      }
    }

    /** Attempts `Connected -> Reconnecting`; reports whether the connection
        is reconnecting afterwards, whether or not this call moved it. */
    method EnsureReconnecting() returns (reconnecting: bool)
      requires Valid()
      modifies this`state, this`handlerLog, this`events
      ensures Valid() && events == old(events) + [Event.EnsureReconnecting]
      ensures reconnecting <==> state == Reconnecting
      ensures reconnecting <==> old(state) in {Connected, Reconnecting}
      ensures old(state) != Connected ==> state == old(state) && handlerLog == old(handlerLog)
      ensures state == Step(old(state), Event.EnsureReconnecting).state
      ensures handlerLog == old(handlerLog) + Step(old(state), Event.EnsureReconnecting).notified
    {
      var _ := ChangeState(Connected, Reconnecting);
      // the guard call is recorded as the operation that made it
      RunSnoc(Disconnected, old(events), Event.EnsureReconnecting);
      events := old(events) + [Event.EnsureReconnecting];
      reconnecting := state == Reconnecting;
    }

    /** Takes the transport (always, even when the start is refused), then
        guards `Disconnected -> Connecting`. Only a granted start goes on to
        negotiate; a refused one returns at once. */
    method Start(t: Transport) returns (negotiating: bool)
      requires Valid()
      modifies this`transport, this`state, this`handlerLog, this`transportLog, this`events
      ensures Valid() && events == old(events) + [Event.Start]
      ensures GetTransport() == t
      ensures negotiating <==> old(state) == Disconnected
      ensures state == Step(old(state), Event.Start).state
      ensures handlerLog == old(handlerLog) + Step(old(state), Event.Start).notified
      ensures transportLog == old(transportLog) + if negotiating then [NegotiateCall(t)] else []
    {
      transport := t;
      negotiating := ChangeState(Disconnected, Connecting);
      RunSnoc(Disconnected, old(events), Event.Start);
      events := old(events) + [Event.Start];
      if negotiating {
        Negotiate(t);
      }
    }

    /** Sends the negotiate request to the stored transport; the parameter is
        passed along by the caller but Connection.cpp uses the stored transport. */
    method Negotiate(t: Transport)
      requires transport != null
      modifies this`transportLog
      ensures transportLog == old(transportLog) + [NegotiateCall(transport)]
    {
      transportLog := transportLog + [NegotiateCall(transport)];
    }

    /** The continuation of a successful negotiation: store the identity the
        server assigned, then start the transport. */
    method CompleteNegotiation(response: NegotiationResponse)
      requires Valid() && transport != null
      modifies this`connectionId, this`connectionToken, this`transportLog, this`events
      ensures Valid() && events == old(events) + [Negotiated]
      ensures connectionId == response.connectionId && connectionToken == response.connectionToken
      ensures transportLog == old(transportLog) + [StartCall(transport, "")]
    {
      connectionId := response.connectionId;
      connectionToken := response.connectionToken;
      RunSnoc(Disconnected, events, Negotiated);
      events := events + [Negotiated];
      StartTransport();
    }

    /** Asks the stored transport to open its channel, with an empty extra
        query string. */
    method StartTransport()
      requires transport != null
      modifies this`transportLog
      ensures transportLog == old(transportLog) + [StartCall(transport, "")]
    {
      transportLog := transportLog + [StartCall(transport, "")];
    }

    /** Hands one payload to the stored transport; nothing of the connection's
        own changes. */
    method Send(data: string)
      requires Valid() && transport != null
      modifies this`transportLog, this`events
      ensures Valid() && events == old(events) + [Event.Send]
      ensures transportLog == old(transportLog) + [SendCall(transport, data)]
    {
      RunSnoc(Disconnected, events, Event.Send);
      events := events + [Event.Send];
      transportLog := transportLog + [SendCall(transport, data)];
    }

    /** Stores the identity from a negotiation reply. */
    method SetConnectionState(response: NegotiationResponse)
      modifies this`connectionId, this`connectionToken
      ensures GetConnectionId() == response.connectionId
      ensures GetConnectionToken() == response.connectionToken
    {
      connectionId := response.connectionId;
      connectionToken := response.connectionToken;
    }

    /** Forwards an error to the handler; the state does not change. */
    method OnError(error: Failure)
      requires Valid()
      modifies this`handlerLog, this`events
      ensures Valid() && events == old(events) + [RaiseError(error)]
      ensures handlerLog == old(handlerLog) + [ErrorRaised(error)]
      ensures handlerLog == old(handlerLog) + Step(state, RaiseError(error)).notified
    {
      RunSnoc(Disconnected, events, RaiseError(error));
      events := events + [RaiseError(error)];
      handlerLog := handlerLog + [ErrorRaised(error)];
    }

    function GetTransport(): (t: Transport?)
      reads this
    {
      transport
    }

    function GetUri(): (u: string)
      reads this
      requires Valid()
      ensures Uri.IsNormalized(u)
    {
      uri
    }

    function GetConnectionId(): (id: string)
      reads this
    {
      connectionId
    }

    method SetConnectionId(id: string)
      modifies this`connectionId
      ensures GetConnectionId() == id
    {
      connectionId := id;
    }

    function GetConnectionToken(): (token: string)
      reads this
    {
      connectionToken
    }

    method SetConnectionToken(token: string)
      modifies this`connectionToken
      ensures GetConnectionToken() == token
    {
      connectionToken := token;
    }

    /** Always empty: no operation of the connection sets it. */
    function GetGroupsToken(): (g: string)
      reads this
      requires Valid()
      ensures g == ""
    {
      groupsToken
    }

    /** Always empty: no operation of the connection sets it. */
    function GetMessageId(): (m: string)
      reads this
      requires Valid()
      ensures m == ""
    {
      messageId
    }

    /** Asks the stored transport to stop; the connection's state is left as
        it is (Connection.cpp does not move it to `Disconnected`). */
    method Stop()
      requires Valid() && transport != null
      modifies this`transportLog, this`events
      ensures Valid() && events == old(events) + [Event.Stop]
      ensures transportLog == old(transportLog) + [StopCall(transport)]
    {
      RunSnoc(Disconnected, events, Event.Stop);
      events := events + [Event.Stop];
      transportLog := transportLog + [StopCall(transport)];
    }

    /** The transport's start completion, with the connection passed as its
        state argument. As written, the branch taken when an error IS present
        attempts `Connecting -> Connected`; the other branch dereferences the
        absent error and is excluded here. */
    static method OnTransportStartCompleted(error: Option<Failure>, connection: Connection)
      requires error.Some? && connection.Valid()
      modifies connection`state, connection`handlerLog, connection`events
      ensures connection.Valid()
      ensures connection.events == old(connection.events) + [TransportStartCompleted]
      ensures connection.state == Step(old(connection.state), TransportStartCompleted).state
      ensures connection.handlerLog
              == old(connection.handlerLog) + Step(old(connection.state), TransportStartCompleted).notified
      ensures connection.state == Connected <==> old(connection.state) in {Connecting, Connected}
      ensures old(connection.state) != Connecting ==> connection.state == old(connection.state)
    {
      var _ := connection.ChangeState(Connecting, Connected);
      RunSnoc(Disconnected, old(connection.events), TransportStartCompleted);
      connection.events := old(connection.events) + [TransportStartCompleted];
    }

    /** Over the connection's whole history, direct guard calls included, each
        granted `Start` after the first was preceded by a reset to
        `Disconnected`. */
    lemma StartsSoFar()
      requires Valid()
      ensures GrantedStarts(Disconnected, events) <= 1 + Resets(Disconnected, events)
    {
      StartsBoundedByResets(Disconnected, events);
    }

    /** If the connection has only been driven through its own operations (no
        direct `ChangeState` call), it has granted at most one `Start`, and
        once it has, it is no longer `Disconnected`. */
    lemma OrchestratedHistory()
      requires Valid() && Orchestrated(events)
      ensures GrantedStarts(Disconnected, events) <= 1
      ensures GrantedStarts(Disconnected, events) == 1 ==> state != Disconnected
    {
      StartGrantedAtMostOnce(Disconnected, events);
      StartedStaysConnectedOrBeyond(Disconnected, events);
    }
  }

}
