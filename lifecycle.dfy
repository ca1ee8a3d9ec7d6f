/** The lifecycle of a client connection, as pure values: the four states,
    the compare-and-set guard that is the only way the state changes, the
    notifications the application's handler receives, and the effect of each
    connection operation on the state. A `Client.Connection` keeps the history
    of its operations as a sequence of events and its invariant ties its state
    and handler log to `Run` over that history, so the lemmas here about runs
    are statements about the connection's history of calls.

    The guard accepts any pair of states: a direct `ChangeState(expected, next)`
    call is the event `Guard(expected, next)` and can make any transition,
    sanctioned or not, including one back to `Disconnected`. The forward-only
    lemmas are therefore stated for runs made only of the connection's other
    operations (`Orchestrated`); `StartsBoundedByResets` says what holds of
    every run. */
module Lifecycle {

  datatype State = Disconnected | Connecting | Connected | Reconnecting

  /** An error value handed to the handler (the C++ `exception`). */
  datatype Failure = Failure(what: string)

  /** What the connection handler is told. */
  datatype Notification =
    | StateChanged(oldState: State, newState: State)
    | ErrorRaised(error: Failure)

  /** The transitions the protocol sanctions. */
  predicate LegalTransition(from: State, to: State)
  {
    || (from == Disconnected && to == Connecting)
    || (from == Connecting && to == Connected)
    || (from == Connected && to == Reconnecting)
    || (from == Reconnecting && to == Connected)
    || (from == Reconnecting && to == Disconnected)
    || (from == Connecting && to == Disconnected)
  }

  /** How far a connection has come; no operation of the client other than a
      direct guard call moves it back. */
  function Rank(s: State): (r: nat)
  {
    match s
    case Disconnected => 0
    case Connecting => 1
    case Connected => 2
    case Reconnecting => 3
  }

  /** The outcome of one guarded step: whether the guard let the transition
      through, the state afterwards and the notifications sent to the handler. */
  datatype Outcome = Outcome(transitioned: bool, state: State, notified: seq<Notification>)

  /** `ChangeState(expected, next)` applied to the state `current`. As in
      Connection.cpp, a successful change reports the pair (expected, expected) to the
      handler, not (expected, next). */
  function CompareAndSet(current: State, expected: State, next: State): (r: Outcome)
  {
    if current == expected then Outcome(true, next, [StateChanged(expected, expected)])
    else Outcome(false, current, [])
  }

  /** Every guard succeeds exactly when the current state is the expected one,
      and a refused guard changes nothing and tells the handler nothing. */
  lemma CompareAndSetContract(current: State, expected: State, next: State)
    ensures CompareAndSet(current, expected, next).transitioned <==> current == expected
    ensures current == expected ==> CompareAndSet(current, expected, next).state == next
    ensures current != expected ==> CompareAndSet(current, expected, next) == Outcome(false, current, [])
    ensures |CompareAndSet(current, expected, next).notified| == if current == expected then 1 else 0
  {
  }

  /** Two callers racing with the same expectation: once the first has moved
      the state away from it, the second is refused. */
  lemma SecondRacerRefused(current: State, expected: State, next1: State, next2: State)
    requires next1 != expected
    ensures CompareAndSet(current, expected, next1).transitioned ==>
              !CompareAndSet(CompareAndSet(current, expected, next1).state, expected, next2).transitioned
  {
  }

  /** The operations of a connection, as seen by its lifecycle. */
  datatype Event =
    | Start                         // Start(transport): guard Disconnected -> Connecting
    | Negotiated                    // negotiation result stored, transport started
    | TransportStartCompleted       // start completion with an error present
    | EnsureReconnecting            // guard Connected -> Reconnecting
    | Send
    | Stop
    | RaiseError(error: Failure)    // OnError: forwarded to the handler
    | Guard(expected: State, next: State)  // a direct ChangeState(expected, next)

  /** A run made only of the connection's own orchestration: no direct guard call. */
  predicate Orchestrated(evs: seq<Event>)
  {
    forall e :: e in evs ==> !e.Guard?
  }

  /** The effect of one operation on the lifecycle state. Apart from a direct
      guard call, an operation changes the state iff its guard lets it
      through, and then only along a sanctioned transition forward. */
  function Step(s: State, e: Event): (r: Outcome)
    ensures !e.Guard? ==> (r.transitioned <==> r.state != s)
    ensures !e.Guard? && r.state != s ==> LegalTransition(s, r.state) && Rank(s) < Rank(r.state)
    ensures forall n :: n in r.notified && n.StateChanged? ==> n == StateChanged(s, s)
    ensures e.RaiseError? <==> exists n :: n in r.notified && n.ErrorRaised?
  {
    match e
    case Start => CompareAndSet(s, Disconnected, Connecting)
    case TransportStartCompleted => CompareAndSet(s, Connecting, Connected)
    case EnsureReconnecting => CompareAndSet(s, Connected, Reconnecting)
    case RaiseError(err) =>
      assert ErrorRaised(err) in [ErrorRaised(err)];
      Outcome(false, s, [ErrorRaised(err)])
    case Negotiated => Outcome(false, s, [])
    case Send => Outcome(false, s, [])
    case Stop => Outcome(false, s, [])
    case Guard(expected, next) => CompareAndSet(s, expected, next)
  }

  /** Connection.cpp does not enforce the sanctioned transitions: a direct guard
      call moves a fresh connection straight to `Reconnecting`, and one back to
      `Disconnected` lets a second `Start` through. */
  lemma GuardBypassesLegality()
    ensures Step(Disconnected, Guard(Disconnected, Reconnecting)).state == Reconnecting
    ensures !LegalTransition(Disconnected, Reconnecting)
    ensures GrantedStarts(Disconnected, [Start, Guard(Connecting, Disconnected), Start]) == 2
  {
    var evs := [Start, Guard(Connecting, Disconnected), Start];
    assert evs[1..] == [Guard(Connecting, Disconnected), Start];
    assert evs[1..][1..] == [Start];
  }

  /** The final state and the handler's log after a sequence of operations. */
  datatype Trace = Trace(final: State, log: seq<Notification>)

  function Run(s: State, evs: seq<Event>): (r: Trace)
    ensures Orchestrated(evs) ==> Rank(s) <= Rank(r.final)
    decreases |evs|
  {
    if evs == [] then Trace(s, [])
    else
      var o := Step(s, evs[0]);
      var t := Run(o.state, evs[1..]);
      Trace(t.final, o.notified + t.log)
  }

  /** Extending a run by one operation applies that operation's step to the
      run's final state and appends its notifications to the log. */
  lemma {:induction false} RunSnoc(s: State, evs: seq<Event>, e: Event)
    ensures Run(s, evs + [e])
            == Trace(Step(Run(s, evs).final, e).state, Run(s, evs).log + Step(Run(s, evs).final, e).notified)
    decreases |evs|
  {
    if evs == [] {
      assert evs + [e] == [e];
      assert [e][1..] == [];
    } else {
      assert (evs + [e])[0] == evs[0];
      assert (evs + [e])[1..] == evs[1..] + [e];
      RunSnoc(Step(s, evs[0]).state, evs[1..], e);
    }
  }

  /** The states a connection passes through: the initial one, then the state
      after each operation. */
  function States(s: State, evs: seq<Event>): (r: seq<State>)
    ensures |r| == |evs| + 1 && r[0] == s && r[|evs|] == Run(s, evs).final
    decreases |evs|
  {
    if evs == [] then [s] else [s] + States(Step(s, evs[0]).state, evs[1..])
  }

  /** The i-th operation of a run moves from the i-th state to the next. */
  lemma {:induction false} StatesStepAt(s: State, evs: seq<Event>, i: nat)
    requires i < |evs|
    ensures States(s, evs)[i + 1] == Step(States(s, evs)[i], evs[i]).state
    decreases i
  {
    if i > 0 {
      StatesStepAt(Step(s, evs[0]).state, evs[1..], i - 1);
    }
  }

  /** Along a run without direct guard calls, every change of state is a
      sanctioned transition. */
  lemma {:induction false} RunMovesLegally(s: State, evs: seq<Event>, i: nat)
    requires i < |evs| && Orchestrated(evs)
    ensures States(s, evs)[i] == States(s, evs)[i + 1]
            || LegalTransition(States(s, evs)[i], States(s, evs)[i + 1])
  {
    StatesStepAt(s, evs, i);
  }

  /** Number of `Start` operations whose guard let them through. */
  function GrantedStarts(s: State, evs: seq<Event>): (n: nat)
    decreases |evs|
  {
    if evs == [] then 0
    else
      var o := Step(s, evs[0]);
      (if evs[0].Start? && o.transitioned then 1 else 0) + GrantedStarts(o.state, evs[1..])
  }

  /** Without direct guard calls, a connection that has left `Disconnected`
      never gets back to it. */
  lemma {:induction false} NeverDisconnectedAgain(s: State, evs: seq<Event>, i: nat)
    requires s != Disconnected && i <= |evs| && Orchestrated(evs)
    ensures States(s, evs)[i] != Disconnected
    decreases i
  {
    if i > 0 {
      assert evs[0] in evs;
      NeverDisconnectedAgain(Step(s, evs[0]).state, evs[1..], i - 1);
    }
  }

  /** Number of direct guard calls that moved the connection back to
      `Disconnected` from another state. */
  function Resets(s: State, evs: seq<Event>): (n: nat)
    decreases |evs|
  {
    if evs == [] then 0
    else
      var o := Step(s, evs[0]);
      (if evs[0].Guard? && s != Disconnected && o.state == Disconnected then 1 else 0)
        + Resets(o.state, evs[1..])
  }

  /** Over every run, direct guard calls included, each granted `Start` after
      the first needs a reset to `Disconnected` before it. */
  lemma {:induction false} StartsBoundedByResets(s: State, evs: seq<Event>)
    ensures GrantedStarts(s, evs) <= (if s == Disconnected then 1 else 0) + Resets(s, evs)
    decreases |evs|
  {
    if evs != [] {
      StartsBoundedByResets(Step(s, evs[0]).state, evs[1..]);
    }
  }

  /** Without direct guard calls, at most one `Start` is ever granted, and none
      once the connection has left `Disconnected`. */
  lemma {:induction false} StartGrantedAtMostOnce(s: State, evs: seq<Event>)
    requires Orchestrated(evs)
    ensures GrantedStarts(s, evs) <= if s == Disconnected then 1 else 0
    decreases |evs|
  {
    if evs != [] {
      assert evs[0] in evs;
      StartGrantedAtMostOnce(Step(s, evs[0]).state, evs[1..]);
    }
  }

  /** Without direct guard calls, once a `Start` has been granted the
      connection is not `Disconnected` at the end of the run. */
  lemma {:induction false} StartedStaysConnectedOrBeyond(s: State, evs: seq<Event>)
    requires Orchestrated(evs)
    ensures GrantedStarts(s, evs) > 0 ==> Run(s, evs).final != Disconnected
    decreases |evs|
  {
    if evs != [] {
      assert evs[0] in evs;
      StartedStaysConnectedOrBeyond(Step(s, evs[0]).state, evs[1..]);
    }
  }

  /** On a fresh connection without direct guard calls, the first `Start` wins
      and every later one is refused, whatever operations come before it: none
      of them moves a fresh connection out of `Disconnected`. */
  lemma {:induction false} FirstStartWins(evs: seq<Event>)
    requires Start in evs && Orchestrated(evs)
    ensures GrantedStarts(Disconnected, evs) == 1
    decreases |evs|
  {
    assert evs[0] in evs;
    if evs[0] == Start {
      StartGrantedAtMostOnce(Connecting, evs[1..]);
    } else {
      assert Step(Disconnected, evs[0]).state == Disconnected;
      assert forall e :: e in evs[1..] ==> e in evs;
      FirstStartWins(evs[1..]);
    }
  }

  /** Number of state-change notifications in a handler log. */
  function StateChangeCount(log: seq<Notification>): (n: nat)
    decreases |log|
  {
    if log == [] then 0 else (if log[0].StateChanged? then 1 else 0) + StateChangeCount(log[1..])
  }

  lemma {:induction false} StateChangeCountAppend(a: seq<Notification>, b: seq<Notification>)
    ensures StateChangeCount(a + b) == StateChangeCount(a) + StateChangeCount(b)
    decreases |a|
  {
    if a == [] {
      assert a + b == b;
    } else {
      assert (a + b)[1..] == a[1..] + b;
      StateChangeCountAppend(a[1..], b);
    }
  }

  /** Number of operations in a run whose guard let them through. */
  function Transitions(s: State, evs: seq<Event>): (n: nat)
    decreases |evs|
  {
    if evs == [] then 0
    else
      var o := Step(s, evs[0]);
      (if o.transitioned then 1 else 0) + Transitions(o.state, evs[1..])
  }

  /** The handler hears of every granted guard exactly once and of nothing
      else as a state change, direct guard calls included. */
  lemma {:induction false} OneNotificationPerTransition(s: State, evs: seq<Event>)
    ensures StateChangeCount(Run(s, evs).log) == Transitions(s, evs)
    decreases |evs|
  {
    if evs != [] {
      var o := Step(s, evs[0]);
      OneNotificationPerTransition(o.state, evs[1..]);
      StateChangeCountAppend(o.notified, Run(o.state, evs[1..]).log);
      StepNotifiesOnce(s, evs[0]);
    }
  }

  /** A single operation sends one state-change notification if its guard
      lets it through and none otherwise. */
  lemma StepNotifiesOnce(s: State, e: Event)
    ensures StateChangeCount(Step(s, e).notified) == if Step(s, e).transitioned then 1 else 0
  {
    var o := Step(s, e);
    if o.transitioned {
      assert o.notified == [StateChanged(s, s)];
      assert o.notified[1..] == [];
    } else if e.RaiseError? {
      assert o.notified[1..] == [];
    }
  }

  /** As written, every state-change notification a handler ever receives
      carries the same state twice: the state before the change. */
  lemma {:induction false} NotificationsRepeatOldState(s: State, evs: seq<Event>)
    ensures forall n :: n in Run(s, evs).log && n.StateChanged? ==> n.oldState == n.newState
    decreases |evs|
  {
    if evs != [] {
      NotificationsRepeatOldState(Step(s, evs[0]).state, evs[1..]);
    }
  }
}
