/**
  The tunnel control loop: the single owner of the set of active
  connections, the tunnel-wide limiter and the per-connection default limit.

  The loop's `select` over four channels is replaced by an explicit event
  that the environment chooses; each event is handled by a pure function,
  and `Run` folds a whole event sequence until the loop returns. On return
  the deferred drain closes every connection still active.
 */
module ControlLoop {
  import opened Limits
  import opened Connections

  /** A connection is identified by the number of the accept that produced
      it, which is also the number of its inbound socket. */
  type ConnId = nat

  /** One event the loop's `select` picked. Accepting and dialing are reduced
      to their outcomes; `Shutdown` says whether the acceptor had already
      handed over a socket the loop never read. */
  datatype Event =
    | Accepted(dialOk: bool)
    | AcceptFailed
    | Completed(id: ConnId)
    | LimitsUpdate(limits: TunnelLimits)
    | Shutdown(pendingAccepted: bool)

  /** Why the loop returned: shutdown (a nil error) or an accept error. */
  datatype Exit = Clean | AcceptError

  datatype Outcome = Running | Returned(exit: Exit)

  /**
    The loop's state. `accepted` counts the sockets accepted so far, so they
    are `Inbound(0)` .. `Inbound(accepted - 1)`. Every call of a connection's
    close operation adds its id to `closedConns` (closing both its sockets);
    every direct close of an accepted socket that never became a connection
    adds its number to `closedIngress`.
   */
  datatype LoopState = LoopState(
    active: map<ConnId, Connection>,
    tunnelLimiter: Limiter,
    connectionLimit: Limit,
    bufSize: nat,
    accepted: nat,
    closedConns: multiset<ConnId>,
    closedIngress: multiset<ConnId>)

  datatype Transition = Transition(state: LoopState, outcome: Outcome)

  /** What every state the loop reaches satisfies. */
  ghost predicate Inv(s: LoopState)
  {
    && s.tunnelLimiter.burst == s.bufSize
    // active connections: known sockets, well formed, at the current default limit
    && (forall id :: id in s.active ==>
          && id < s.accepted
          && s.active[id].ingress == Inbound(id)
          && s.active[id].egress == Outbound(id)
          && WellFormed(s.active[id])
          && s.active[id].limiter == Limiter(s.connectionLimit, s.bufSize))
    // closed connections and closed sockets are never active, and are closed once
    && (forall id :: id in s.closedConns ==> id < s.accepted && id !in s.active)
    && (forall id :: id in s.closedIngress ==> id < s.accepted && id !in s.active && id !in s.closedConns)
    && (forall id :: s.closedConns[id] <= 1)
    && (forall id :: s.closedIngress[id] <= 1)
    // no accepted socket is silently dropped
    && (forall id :: 0 <= id < s.accepted ==> id in s.active || id in s.closedConns || id in s.closedIngress)
  }

  /** The loop's state right after the tunnel was created. */
  function Initial(limits: TunnelLimits, bufSize: nat): (s: LoopState)
    ensures Inv(s)
    ensures s.active == map[]
    ensures s.tunnelLimiter.limit == limits.tunnelLimit && s.tunnelLimiter.burst == bufSize
    ensures s.connectionLimit == limits.connectionLimit
  {
    LoopState(map[], Limiter(limits.tunnelLimit, bufSize), limits.connectionLimit, bufSize, 0, multiset{}, multiset{})
  }

  /** A socket was accepted and the remote endpoint dialed for it. */
  function OnAccepted(s: LoopState, dialOk: bool): (r: LoopState)
    ensures r.accepted == s.accepted + 1
    ensures r.tunnelLimiter == s.tunnelLimiter && r.connectionLimit == s.connectionLimit && r.bufSize == s.bufSize
    ensures r.closedConns == s.closedConns
    ensures forall id :: id in s.active && id != s.accepted ==> id in r.active && r.active[id] == s.active[id]
    ensures dialOk ==>
      && r.active.Keys == s.active.Keys + {s.accepted}
      && r.active[s.accepted].limiter == Limiter(s.connectionLimit, s.bufSize)
      && r.active[s.accepted].ingress == Inbound(s.accepted)
      && WellFormed(r.active[s.accepted])
      && r.closedIngress == s.closedIngress
    ensures !dialOk ==>
      && r.active == s.active
      && r.closedIngress == s.closedIngress + multiset{s.accepted}
  {
    var id := s.accepted;
    var dial := if dialOk then Dialed(Outbound(id)) else DialFailed;
    match Create(Inbound(id), dial, s.connectionLimit, s.bufSize)
    case Created(c) => s.(active := s.active[id := c], accepted := id + 1)
    case DialError => s.(closedIngress := s.closedIngress + multiset{id}, accepted := id + 1)
  }

  /** A forwarding direction of connection `id` finished. A connection still
      active is removed and closed; for any other id nothing happens. */
  function OnCompleted(s: LoopState, id: ConnId): (r: LoopState)
    ensures id !in s.active ==> r == s
    ensures id in s.active ==>
      && r.active.Keys == s.active.Keys - {id}
      && (forall other :: other in r.active ==> r.active[other] == s.active[other])
      && r.closedConns == s.closedConns + multiset{id}
      && r.closedIngress == s.closedIngress
      && r.accepted == s.accepted
      && r.tunnelLimiter == s.tunnelLimiter && r.connectionLimit == s.connectionLimit && r.bufSize == s.bufSize
  {
    if id in s.active then
      s.(active := s.active - {id}, closedConns := s.closedConns + multiset{id})
    else
      s
  }

  /** New ceilings: the tunnel limiter's rate changes, the default for future
      connections changes, and every active connection adopts the new
      per-connection rate without being reconnected. */
  function OnLimitsUpdate(s: LoopState, limits: TunnelLimits): (r: LoopState)
    ensures r.tunnelLimiter.limit == limits.tunnelLimit && r.tunnelLimiter.burst == s.tunnelLimiter.burst
    ensures r.connectionLimit == limits.connectionLimit
    ensures r.active.Keys == s.active.Keys
    ensures forall id :: id in r.active ==>
      && r.active[id].limiter.limit == limits.connectionLimit
      && r.active[id].limiter.burst == s.active[id].limiter.burst
      && r.active[id].ingress == s.active[id].ingress
      && r.active[id].egress == s.active[id].egress
      && (WellFormed(s.active[id]) ==> WellFormed(r.active[id]))
    ensures r.accepted == s.accepted && r.bufSize == s.bufSize
    ensures r.closedConns == s.closedConns && r.closedIngress == s.closedIngress
  {
    s.(tunnelLimiter := SetLimit(s.tunnelLimiter, limits.tunnelLimit),
       connectionLimit := limits.connectionLimit,
       active := map id | id in s.active :: WithLimit(s.active[id], limits.connectionLimit))
  }

  /** The deferred drain that runs whenever the loop returns: every
      connection still active is closed, once. */
  function Drain(s: LoopState): LoopState
  {
    s.(active := map[], closedConns := s.closedConns + multiset(s.active.Keys))
  }

  /** The drain as the source writes it: one close per active connection,
      visited in an order the environment chooses. */
  method DrainActive(s: LoopState) returns (r: LoopState)
    ensures r.active == map[]
    ensures forall id :: r.closedConns[id] == s.closedConns[id] + (if id in s.active then 1 else 0)
    ensures r == Drain(s)
  {
    var remaining := s.active.Keys;
    var closed := s.closedConns;
    while remaining != {}
      invariant remaining <= s.active.Keys
      invariant closed == s.closedConns + multiset(s.active.Keys - remaining)
      decreases |remaining|
    {
      var id :| id in remaining;
      assert s.active.Keys - (remaining - {id}) == (s.active.Keys - remaining) + {id};
      closed := closed + multiset{id};
      remaining := remaining - {id};
    }
    assert s.active.Keys - remaining == s.active.Keys;
    r := s.(active := map[], closedConns := closed);
  }

  /** The deferred cleanup after the drain: a socket the acceptor accepted
      but the loop never read is closed directly. */
  function ClosePending(s: LoopState): (r: LoopState)
    ensures r.accepted == s.accepted + 1
    ensures r.closedIngress == s.closedIngress + multiset{s.accepted}
    ensures r.active == s.active && r.closedConns == s.closedConns
  {
    s.(closedIngress := s.closedIngress + multiset{s.accepted}, accepted := s.accepted + 1)
  }

  /** Handles one event. */
  function Step(s: LoopState, e: Event): Transition
  {
    match e
    case Accepted(dialOk) => Transition(OnAccepted(s, dialOk), Running)
    case AcceptFailed => Transition(Drain(s), Returned(AcceptError))
    case Completed(id) => Transition(OnCompleted(s, id), Running)
    case LimitsUpdate(limits) => Transition(OnLimitsUpdate(s, limits), Running)
    case Shutdown(pending) =>
      var d := Drain(s);
      Transition(if pending then ClosePending(d) else d, Returned(Clean))
  }

  /** Feeds events to the loop until it returns; events after that are not read. */
  function Run(s: LoopState, events: seq<Event>): Transition
    decreases |events|
  {
    if events == [] then Transition(s, Running)
    else
      var t := Step(s, events[0]);
      if t.outcome.Returned? then t else Run(t.state, events[1..])
  }

  /** A successful accept adds exactly one connection, under a fresh id. */
  lemma AcceptedAddsOne(s: LoopState)
    requires Inv(s)
    ensures s.accepted !in s.active
    ensures |OnAccepted(s, true).active| == |s.active| + 1
  {
    var r := OnAccepted(s, true);
    assert r.active.Keys == s.active.Keys + {s.accepted};
    assert |r.active.Keys| == |s.active.Keys| + 1;
  }

  /** A completion report for the same connection twice, as both forwarding
      directions may send, closes it once: the late report changes nothing. */
  lemma LateCompletionIsNoOp(s: LoopState, id: ConnId)
    ensures var once := Step(s, Completed(id));
      && once.outcome == Running
      && Step(once.state, Completed(id)) == once
  {
  }

  /** Of two limit updates only the second is visible. */
  lemma LimitsUpdateLastWins(s: LoopState, a: TunnelLimits, b: TunnelLimits)
    ensures OnLimitsUpdate(OnLimitsUpdate(s, a), b) == OnLimitsUpdate(s, b)
  {
    var r1 := OnLimitsUpdate(OnLimitsUpdate(s, a), b);
    var r2 := OnLimitsUpdate(s, b);
    assert r1.active == r2.active;
  }

  lemma DrainPreservesInv(s: LoopState)
    requires Inv(s)
    ensures Inv(Drain(s))
    ensures Drain(s).active == map[]
  {
    var d := Drain(s);
    forall id ensures d.closedConns[id] <= 1 {
      assert id in s.active ==> s.closedConns[id] == 0;
    }
  }

  lemma AcceptedPreservesInv(s: LoopState, dialOk: bool)
    requires Inv(s)
    ensures Inv(OnAccepted(s, dialOk))
  {
  }

  lemma CompletedPreservesInv(s: LoopState, id: ConnId)
    requires Inv(s)
    ensures Inv(OnCompleted(s, id))
  {
  }

  lemma LimitsUpdatePreservesInv(s: LoopState, limits: TunnelLimits)
    requires Inv(s)
    ensures Inv(OnLimitsUpdate(s, limits))
  {
  }

  lemma ClosePendingPreservesInv(s: LoopState)
    requires Inv(s)
    ensures Inv(ClosePending(s))
  {
    var r := ClosePending(s);
    assert s.closedIngress[s.accepted] == 0;
    forall id ensures r.closedIngress[id] <= 1 {
    }
  }

  lemma ShutdownPreservesInv(s: LoopState, pending: bool)
    requires Inv(s)
    ensures Inv(Step(s, Shutdown(pending)).state)
  {
    DrainPreservesInv(s);
    if pending {
      ClosePendingPreservesInv(Drain(s));
    }
  }

  /** Every event keeps the invariant. */
  lemma StepPreservesInv(s: LoopState, e: Event)
    requires Inv(s)
    ensures Inv(Step(s, e).state)
  {
    match e
    case Accepted(dialOk) => AcceptedPreservesInv(s, dialOk);
    case AcceptFailed => DrainPreservesInv(s);
    case Completed(id) => CompletedPreservesInv(s, id);
    case LimitsUpdate(limits) => LimitsUpdatePreservesInv(s, limits);
    case Shutdown(pending) => ShutdownPreservesInv(s, pending);
  }

  /** Over any event sequence the invariant holds: no connection or socket is
      closed twice, closed and active stay apart, and every accepted socket is
      either an active connection or closed. */
  lemma {:induction false} RunPreservesInv(s: LoopState, events: seq<Event>)
    requires Inv(s)
    ensures Inv(Run(s, events).state)
    decreases |events|
  {
    if events != [] {
      StepPreservesInv(s, events[0]);
      var t := Step(s, events[0]);
      if !t.outcome.Returned? {
        RunPreservesInv(t.state, events[1..]);
      }
    }
  }

  /** Only `AcceptFailed` and `Shutdown` end the loop, with an error and
      cleanly respectively, and when it ends nothing is left active. */
  lemma StepReturns(s: LoopState, e: Event)
    ensures Step(s, e).outcome.Returned? <==> (e.AcceptFailed? || e.Shutdown?)
    ensures e.AcceptFailed? ==> Step(s, e).outcome == Returned(AcceptError)
    ensures e.Shutdown? ==> Step(s, e).outcome == Returned(Clean)
    ensures Step(s, e).outcome.Returned? ==> Step(s, e).state.active == map[]
  {
  }

  /** Once the loop returns, every socket it ever accepted has been closed
      exactly once: through its connection's close or directly. */
  lemma {:induction false} ReturnClosesEverything(s: LoopState, events: seq<Event>)
    requires Inv(s)
    ensures var t := Run(s, events);
      t.outcome.Returned? ==>
        && t.state.active == map[]
        && forall id :: 0 <= id < t.state.accepted ==> t.state.closedConns[id] + t.state.closedIngress[id] == 1
    decreases |events|
  {
    if events != [] {
      var t := Step(s, events[0]);
      StepPreservesInv(s, events[0]);
      if !t.outcome.Returned? {
        ReturnClosesEverything(t.state, events[1..]);
      }
    }
  }

  /** Every event keeps each active connection at the loop's current default
      limit, so an update reaches all live connections and all later ones. */
  lemma {:induction false} RunKeepsLimitsCoherent(s: LoopState, events: seq<Event>)
    requires Inv(s)
    ensures var r := Run(s, events).state;
      forall id :: id in r.active ==> r.active[id].limiter.limit == r.connectionLimit
    decreases |events|
  {
    RunPreservesInv(s, events);
  }
}
