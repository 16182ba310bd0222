/**
  The listener supervisor: the goroutine that keeps a listening socket for
  the tunnel's whole life. While it holds a listener it runs the control
  loop; when the loop returns an accept error it drops the listener and
  retries every backoff tick until a new listen succeeds or shutdown wins.

  Listening sockets are opaque identities numbered in the order they were
  opened. The backoff sleep is a tick input, and the outcome of each listen
  attempt is supplied with it.
 */
module ListenerSupervisor {
  import opened ControlLoop

  type ListenerId = nat

  datatype Phase = HasListener(listener: ListenerId) | NoListener | Stopped

  /** What the supervisor can observe: the loop returned, the retry tick won
      the `select` (with the outcome of the listen it triggers), or the
      shutdown signal won it. */
  datatype Input = RunReturned(exit: Exit) | RetryTick(listenOk: bool) | ShutdownSignal

  /** `listens` counts listeners opened so far (ids 0 .. listens - 1);
      `listenerCloses` has one entry per Close call on a listener. */
  datatype Supervisor = Supervisor(phase: Phase, listens: nat, listenerCloses: multiset<ListenerId>)

  /** Every listener is closed at most once, and every listener except the one
      held is closed. */
  ghost predicate Inv(s: Supervisor)
  {
    && (s.phase.HasListener? ==> s.phase.listener < s.listens && s.phase.listener !in s.listenerCloses)
    && (forall l :: l in s.listenerCloses ==> l < s.listens)
    && (forall l :: s.listenerCloses[l] <= 1)
    && (forall l :: 0 <= l < s.listens ==> l in s.listenerCloses || s.phase == HasListener(l))
  }

  /** The supervisor right after the first listen succeeded. */
  function Started(): (s: Supervisor)
    ensures Inv(s) && s.phase.HasListener?
  {
    Supervisor(HasListener(0), 1, multiset{})
  }

  /**
    One supervisor transition. When the loop returns, it has already closed
    its listener (its deferred Close): a clean return stops the supervisor
    for good, an accept error sends it to wait for a retry. Without a
    listener, a failed re-listen keeps waiting, a successful one resumes the
    loop on the new listener, and shutdown stops it. Inputs that cannot
    reach the supervisor in its phase leave it unchanged.
   */
  function Next(s: Supervisor, i: Input): (r: Supervisor)
    ensures s.phase.Stopped? ==> r == s
    ensures s.phase.HasListener? && i == RunReturned(Clean) ==>
      r.phase == Stopped && r.listenerCloses == s.listenerCloses + multiset{s.phase.listener}
    ensures s.phase.HasListener? && i == RunReturned(AcceptError) ==>
      r.phase == NoListener && r.listenerCloses == s.listenerCloses + multiset{s.phase.listener}
    ensures s.phase.HasListener? && !i.RunReturned? ==> r == s
    ensures s.phase == NoListener && i == RetryTick(false) ==> r == s
    ensures s.phase == NoListener && i == RetryTick(true) ==>
      r.phase == HasListener(s.listens) && r.listens == s.listens + 1 && r.listenerCloses == s.listenerCloses
    ensures s.phase == NoListener && i == ShutdownSignal ==> r.phase == Stopped && r.listenerCloses == s.listenerCloses
    ensures s.phase == NoListener && i.RunReturned? ==> r == s
  {
    match s.phase
    case HasListener(l) =>
      if i.RunReturned? then
        var next := if i.exit == Clean then Stopped else NoListener;
        Supervisor(next, s.listens, s.listenerCloses + multiset{l})
      else s
    case NoListener =>
      (match i
       case RetryTick(listenOk) =>
         if listenOk then Supervisor(HasListener(s.listens), s.listens + 1, s.listenerCloses) else s
       case ShutdownSignal => s.(phase := Stopped)
       case RunReturned(_) => s)
    case Stopped => s
  }

  /** The supervisor as the source writes it: after an accept error it closes
      the listener itself, although the loop's deferred Close already did. */
  function NextAsWritten(s: Supervisor, i: Input): (r: Supervisor)
    ensures !(s.phase.HasListener? && i == RunReturned(AcceptError)) ==> r == Next(s, i)
    ensures s.phase.HasListener? && i == RunReturned(AcceptError) ==>
      r.phase == NoListener && r.listenerCloses == s.listenerCloses + multiset{s.phase.listener, s.phase.listener}
  {
    match s.phase
    case HasListener(l) =>
      if i == RunReturned(AcceptError) then
        Supervisor(NoListener, s.listens, s.listenerCloses + multiset{l} + multiset{l})
      else Next(s, i)
    case _ => Next(s, i)
  }

  /** As written, every accept error closes the listener a second time; the
      second Close fails and is logged as a close failure. */
  lemma AsWrittenClosesListenerTwice(s: Supervisor)
    requires Inv(s) && s.phase.HasListener?
    ensures NextAsWritten(s, RunReturned(AcceptError)).listenerCloses[s.phase.listener] == 2
    ensures !Inv(NextAsWritten(s, RunReturned(AcceptError)))
  {
    var l := s.phase.listener;
    var r := NextAsWritten(s, RunReturned(AcceptError));
    assert r.listenerCloses[l] == 2;
  }

  lemma NextPreservesInv(s: Supervisor, i: Input)
    requires Inv(s)
    ensures Inv(Next(s, i))
  {
    var r := Next(s, i);
    if s.phase.HasListener? && i.RunReturned? {
      var l := s.phase.listener;
      assert s.listenerCloses[l] == 0;
      forall k ensures r.listenerCloses[k] <= 1 {
      }
    }
  }

  /** Feeds a sequence of inputs to the supervisor. */
  function RunAll(s: Supervisor, inputs: seq<Input>): Supervisor
    decreases |inputs|
  {
    if inputs == [] then s else RunAll(Next(s, inputs[0]), inputs[1..])
  }

  /** Over any inputs, no listener is closed twice and none but the held one
      is left open. */
  lemma {:induction false} RunAllPreservesInv(s: Supervisor, inputs: seq<Input>)
    requires Inv(s)
    ensures Inv(RunAll(s, inputs))
    decreases |inputs|
  {
    if inputs != [] {
      NextPreservesInv(s, inputs[0]);
      RunAllPreservesInv(Next(s, inputs[0]), inputs[1..]);
    }
  }

  /** Nothing leaves `Stopped`. */
  lemma {:induction false} StoppedIsTerminal(s: Supervisor, inputs: seq<Input>)
    requires s.phase.Stopped?
    ensures RunAll(s, inputs) == s
    decreases |inputs|
  {
    if inputs != [] {
      StoppedIsTerminal(Next(s, inputs[0]), inputs[1..]);
    }
  }

  /** Without a listener, any number of failed re-listens keeps waiting and
      changes nothing; only a successful listen or shutdown moves on. */
  lemma {:induction false} FailedRetriesKeepWaiting(s: Supervisor, n: nat)
    requires s.phase == NoListener
    ensures RunAll(s, seq(n, _ => RetryTick(false))) == s
    decreases n
  {
    if n > 0 {
      var inputs := seq(n, _ => RetryTick(false));
      assert inputs[0] == RetryTick(false);
      assert inputs[1..] == seq(n - 1, _ => RetryTick(false));
      FailedRetriesKeepWaiting(s, n - 1);
    }
  }
}
