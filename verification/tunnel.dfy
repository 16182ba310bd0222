/**
  A whole tunnel: the listener supervisor and the control loop it runs,
  driven by one stream of events. `CreateTunnel` performs the first listen;
  the tunnel handle's `UpdateLimits` and `Shutdown` are the loop's
  `LimitsUpdate` and `Shutdown` events.

  The control loop's state outlives each run: the limits it changes belong
  to the tunnel, while the set of active connections starts empty on every
  run because the previous run drained it.
 */
module Tunnels {
  import opened Limits
  import opened ControlLoop
  import opened ListenerSupervisor

  datatype Tunnel = Tunnel(supervisor: Supervisor, loop: LoopState)

  /** An event for the running loop, or the supervisor's retry tick together
      with the outcome of the listen it triggers. */
  datatype TunnelEvent = Loop(e: Event) | Retry(listenOk: bool)

  datatype TunnelCreation = TunnelCreated(tunnel: Tunnel) | ListenFailed

  ghost predicate TunnelInv(t: Tunnel)
  {
    && ControlLoop.Inv(t.loop)
    && ListenerSupervisor.Inv(t.supervisor)
    && (!t.supervisor.phase.HasListener? ==> t.loop.active == map[])
  }

  /** Creates a tunnel if the first listen succeeds; otherwise there is no
      tunnel, only the error. */
  function CreateTunnel(limits: TunnelLimits, bufSize: nat, listenOk: bool): (r: TunnelCreation)
    ensures r.ListenFailed? <==> !listenOk
    ensures r.TunnelCreated? ==>
      && TunnelInv(r.tunnel)
      && r.tunnel.supervisor.phase.HasListener?
      && r.tunnel.loop.tunnelLimiter == Limiter(limits.tunnelLimit, bufSize)
      && r.tunnel.loop.connectionLimit == limits.connectionLimit
      && r.tunnel.loop.active == map[]
  {
    if listenOk then TunnelCreated(Tunnel(Started(), Initial(limits, bufSize))) else ListenFailed
  }

  /**
    One tunnel step. With a listener, loop events go to the control loop, and
    when it returns the supervisor sees how. Without one, no loop is reading:
    only shutdown and the retry tick have an effect, and a limit update waits
    (the handle's send blocks) until a listener is back. A stopped tunnel
    ignores everything.
   */
  function Step(t: Tunnel, ev: TunnelEvent): Tunnel
  {
    match t.supervisor.phase
    case HasListener(_) =>
      (match ev
       case Loop(e) =>
         var tr := ControlLoop.Step(t.loop, e);
         if tr.outcome.Returned? then Tunnel(Next(t.supervisor, RunReturned(tr.outcome.exit)), tr.state)
         else t.(loop := tr.state)
       case Retry(_) => t)
    case NoListener =>
      (match ev
       case Loop(e) => if e.Shutdown? then t.(supervisor := Next(t.supervisor, ShutdownSignal)) else t
       case Retry(listenOk) => t.(supervisor := Next(t.supervisor, RetryTick(listenOk))))
    case Stopped => t
  }

  function Run(t: Tunnel, events: seq<TunnelEvent>): Tunnel
    decreases |events|
  {
    if events == [] then t else Run(Step(t, events[0]), events[1..])
  }

  lemma StepPreservesInv(t: Tunnel, ev: TunnelEvent)
    requires TunnelInv(t)
    ensures TunnelInv(Step(t, ev))
  {
    match t.supervisor.phase
    case HasListener(_) =>
      if ev.Loop? {
        ControlLoop.StepPreservesInv(t.loop, ev.e);
        ControlLoop.StepReturns(t.loop, ev.e);
        var tr := ControlLoop.Step(t.loop, ev.e);
        if tr.outcome.Returned? {
          NextPreservesInv(t.supervisor, RunReturned(tr.outcome.exit));
        }
      }
    case NoListener =>
      if ev.Retry? {
        NextPreservesInv(t.supervisor, RetryTick(ev.listenOk));
      } else if ev.e.Shutdown? {
        NextPreservesInv(t.supervisor, ShutdownSignal);
      }
    case Stopped =>
  }

  /** Over any event stream the loop and supervisor invariants hold together,
      and no connection is active while the tunnel has no listener. */
  lemma {:induction false} RunPreservesInv(t: Tunnel, events: seq<TunnelEvent>)
    requires TunnelInv(t)
    ensures TunnelInv(Run(t, events))
    decreases |events|
  {
    if events != [] {
      StepPreservesInv(t, events[0]);
      RunPreservesInv(Step(t, events[0]), events[1..]);
    }
  }

  /** A stopped tunnel stays stopped and unchanged, whatever follows. */
  lemma {:induction false} StoppedIsTerminal(t: Tunnel, events: seq<TunnelEvent>)
    requires t.supervisor.phase.Stopped?
    ensures Run(t, events) == t
    decreases |events|
  {
    if events != [] {
      StoppedIsTerminal(Step(t, events[0]), events[1..]);
    }
  }

  /** Shutdown, in any phase but `Stopped`, stops the tunnel, and then no
      socket is left open: every accepted socket has been closed exactly
      once, and so has every listener. */
  lemma ShutdownDrainsEverything(t: Tunnel, pending: bool)
    requires TunnelInv(t) && !t.supervisor.phase.Stopped?
    ensures var r := Step(t, Loop(Shutdown(pending)));
      && r.supervisor.phase == Stopped
      && r.loop.active == map[]
      && (forall id :: 0 <= id < r.loop.accepted ==> r.loop.closedConns[id] + r.loop.closedIngress[id] == 1)
      && (forall l :: 0 <= l < r.supervisor.listens ==> r.supervisor.listenerCloses[l] == 1)
  {
    StepPreservesInv(t, Loop(Shutdown(pending)));
  }

  /** Limits changed by an update survive the listener's death and recovery:
      the next run starts with no connections and the updated limits. */
  lemma LimitsSurviveRelisten(t: Tunnel, limits: TunnelLimits)
    requires TunnelInv(t) && t.supervisor.phase.HasListener?
    ensures var r := Run(t, [Loop(LimitsUpdate(limits)), Loop(AcceptFailed), Retry(true)]);
      && r.supervisor.phase.HasListener?
      && r.loop.active == map[]
      && r.loop.tunnelLimiter.limit == limits.tunnelLimit
      && r.loop.connectionLimit == limits.connectionLimit
  {
    var evs := [Loop(LimitsUpdate(limits)), Loop(AcceptFailed), Retry(true)];
    var t1 := Step(t, evs[0]);
    var t2 := Step(t1, evs[1]);
    var t3 := Step(t2, evs[2]);
    assert evs[1..][1..] == [Retry(true)];
    assert Run(t, evs) == Run(t1, evs[1..]) == Run(t2, [Retry(true)]) == Run(t3, []);
  }

  /** Whether an event is a limit update (the handle's `UpdateLimits`). */
  predicate IsLimitsUpdate(ev: TunnelEvent)
  {
    ev.Loop? && ev.e.LimitsUpdate?
  }

  /** The tunnel's limits change only when a running loop consumes a limit
      update; every other event, including an accept error and a re-listen,
      keeps them. */
  lemma StepKeepsLimits(t: Tunnel, ev: TunnelEvent)
    requires !(IsLimitsUpdate(ev) && t.supervisor.phase.HasListener?)
    ensures Step(t, ev).loop.tunnelLimiter == t.loop.tunnelLimiter
    ensures Step(t, ev).loop.connectionLimit == t.loop.connectionLimit
  {
  }

  /** Over any event stream without limit updates, the limits in force at the
      end are the ones at the start, whatever the listener went through. */
  lemma {:induction false} LimitsChangeOnlyByUpdates(t: Tunnel, events: seq<TunnelEvent>)
    requires forall i :: 0 <= i < |events| ==> !IsLimitsUpdate(events[i])
    ensures Run(t, events).loop.tunnelLimiter == t.loop.tunnelLimiter
    ensures Run(t, events).loop.connectionLimit == t.loop.connectionLimit
    decreases |events|
  {
    if events != [] {
      StepKeepsLimits(t, events[0]);
      LimitsChangeOnlyByUpdates(Step(t, events[0]), events[1..]);
    }
  }

  /** While there is no listener nothing reads limit updates or completion
      reports: they leave the tunnel as it is. */
  lemma NoListenerIgnoresLoopEvents(t: Tunnel, e: Event)
    requires t.supervisor.phase == NoListener && !e.Shutdown?
    ensures Step(t, Loop(e)) == t
  {
  }
}
