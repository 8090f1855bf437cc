/** Stopping the loop from any number of threads: no stop is lost, the loop leaves after at
    most one more return of epoll_wait and a bounded number of its own steps, and the one
    way an application can break this. */
module EpollStop {
  import opened Basics
  import opened EpollModel
  import opened EpollInvariants
  import opened EpollSend

  // ---- The wake pipe -----------------------------------------------------------------------

  /** This step is a wake that reaches the pipe. */
  predicate Wakes(s: State, a: Action) {
    (a.CallWake? || a.StopWake?) && a.ok && s.wakeWrite in s.open
  }

  /** This step handles an event of the wake pipe, and the read in it succeeds. */
  predicate DrainsPipe(s: State, a: Action)
    requires Enabled(s, a)
  {
    a.Dispatch? && s.batch[0].fd == s.wakeRead && a.r.n == 1
  }

  ghost function WakeCount(s: State, acts: seq<Action>): nat
    requires Legal(s, acts)
    decreases |acts|
  {
    if acts == [] then 0
    else (if Wakes(s, acts[0]) then 1 else 0) + WakeCount(Apply(s, acts[0]), acts[1..])
  }

  ghost function DrainCount(s: State, acts: seq<Action>): nat
    requires Legal(s, acts)
    decreases |acts|
  {
    if acts == [] then 0
    else (if DrainsPipe(s, acts[0]) then 1 else 0) + DrainCount(Apply(s, acts[0]), acts[1..])
  }

  lemma StepMovesPipe(s: State, a: Action)
    requires Inv(s) && Enabled(s, a)
    ensures s.pipe + (if Wakes(s, a) then 1 else 0) == Apply(s, a).pipe + (if DrainsPipe(s, a) then 1 else 0)
  {
    if a.Dispatch? && Route(s, s.batch[0]) != WakeHandler {
      OtherHandlersKeepPipe(s.(batch := s.batch[1..]), Route(s, s.batch[0]), s.batch[0].fd, a.r);
    } else if a.Dispatch? {
      assert s.batch[0].fd == s.wakeRead;
    }
  }

  lemma {:induction false} PipeOverRuns(s: State, acts: seq<Action>)
    requires Inv(s) && Legal(s, acts)
    ensures s.pipe + WakeCount(s, acts) == Exec(s, acts).pipe + DrainCount(s, acts)
    ensures Exec(s, acts).pc != Stuck
    decreases |acts|
  {
    if acts == [] {
    } else {
      StepMovesPipe(s, acts[0]);
      StepKeepsInv(s, acts[0]);
      PipeOverRuns(Apply(s, acts[0]), acts[1..]);
    }
  }

  /** Along every run each successful wake adds one byte, each wake event that is handled takes
      one, nothing else touches the pipe, and the loop never reads it empty. */
  lemma WakeConservation(s: State, acts: seq<Action>)
    requires Reachable(s) && Legal(s, acts)
    ensures s.pipe + WakeCount(s, acts) == Exec(s, acts).pipe + DrainCount(s, acts)
    ensures Exec(s, acts).pc != Stuck
  {
    ReachableInv(s);
    PipeOverRuns(s, acts);
  }

  // ---- No stop is lost -------------------------------------------------------------------------

  /** A loop that waits with `stop` set has a wake in the pipe or on its way. */
  lemma NoLostStop(s: State)
    requires Reachable(s) && s.pc != Halted
    ensures s.stop && s.pc == Waiting ==> s.pipe >= 1 || s.stoppers != {}
  {
    ReachableInv(s);
  }

  /** How often epoll_wait returns in a run. */
  function Returns(acts: seq<Action>): nat {
    if acts == [] then 0
    else (if acts[0].WaitInterrupted? || acts[0].WaitReturns? || acts[0].WaitFailed? then 1 else 0) + Returns(acts[1..])
  }

  predicate Raised(acts: seq<Action>) {
    exists i :: 0 <= i < |acts| && acts[i].RaiseStop?
  }

  lemma HandlersKeepFlag(s: State, h: Handler, fd: Fd, r: SysResult)
    requires HandlerContract(s, h, fd, r)
    ensures Handle(s, h, fd, r).stop == s.stop
  {
  }

  lemma StepRaises(s: State, a: Action)
    requires Enabled(s, a)
    ensures Apply(s, a).stop <==> s.stop || a.RaiseStop?
  {
    if a.Dispatch? {
      HandlersKeepFlag(s.(batch := s.batch[1..]), Route(s, s.batch[0]), s.batch[0].fd, a.r);
    }
  }

  /** The flag is set after a run exactly if it was set before or `stop` was called in it. */
  lemma {:induction false} StopIsAskedFor(s: State, acts: seq<Action>)
    requires Legal(s, acts)
    ensures Exec(s, acts).stop <==> s.stop || Raised(acts)
    decreases |acts|
  {
    if acts == [] {
    } else {
      var rest := acts[1..];
      StepRaises(s, acts[0]);
      StopIsAskedFor(Apply(s, acts[0]), rest);
      assert Raised(rest) ==> Raised(acts) by {
        if i :| 0 <= i < |rest| && rest[i].RaiseStop? {
          assert acts[i + 1].RaiseStop?;
        }
      }
      if i :| 0 <= i < |acts| && acts[i].RaiseStop? {
        assert i > 0 ==> rest[i - 1].RaiseStop?;
      }
    }
  }

  // ---- The bound --------------------------------------------------------------------------

  /** A step the event loop itself takes. */
  predicate IsControl(a: Action) {
    a.TestStop? || a.WaitInterrupted? || a.WaitReturns? || a.BatchDone? || a.Dispatch? || a.CallbackReturns?
  }

  /** How many control steps a loop whose stop flag is set can still take. */
  function LoopRank(s: State): nat {
    match s.pc
    case LoopTest => 1
    case Waiting => 2 * MAX_EVENTS + 3
    case Dispatching => 2 * |s.batch| + 2
    case InSendCallback(_) => 2 * |s.batch| + 3
    case InReceiveCallback(_) => 2 * |s.batch| + 3
    case InAcceptCallback(_, _) => 2 * |s.batch| + 3
    case _ => 0
  }

  lemma HandlerLowersRank(s: State, h: Handler, fd: Fd, r: SysResult)
    requires s.pc == Dispatching && HandlerContract(s, h, fd, r)
    ensures Handle(s, h, fd, r).stop == s.stop
    ensures LoopRank(Handle(s, h, fd, r)) <= 2 * |s.batch| + 3
  {
  }

  lemma StepLowersRank(s: State, a: Action)
    requires s.stop && Enabled(s, a)
    ensures Apply(s, a).stop
    ensures LoopRank(Apply(s, a)) <= LoopRank(s) - (if IsControl(a) then 1 else 0) + (if a.EnterRun? then 1 else 0)
  {
    if a.Dispatch? {
      HandlerLowersRank(s.(batch := s.batch[1..]), Route(s, s.batch[0]), s.batch[0].fd, a.r);
    }
  }

  function ControlSteps(acts: seq<Action>): nat {
    if acts == [] then 0 else (if IsControl(acts[0]) then 1 else 0) + ControlSteps(acts[1..])
  }

  function Entries(acts: seq<Action>): nat {
    if acts == [] then 0 else (if acts[0].EnterRun? then 1 else 0) + Entries(acts[1..])
  }

  /** Once `stop` is set, every interleaving gives the loop at most `LoopRank` more control
      steps (one more for each later call of `run`), whatever callbacks and threads do. */
  lemma {:induction false} StopBoundsTheLoop(s: State, acts: seq<Action>)
    requires s.stop && Legal(s, acts)
    ensures Exec(s, acts).stop
    ensures ControlSteps(acts) + LoopRank(Exec(s, acts)) <= LoopRank(s) + Entries(acts)
    decreases |acts|
  {
    if acts == [] {
    } else {
      StepLowersRank(s, acts[0]);
      StopBoundsTheLoop(Apply(s, acts[0]), acts[1..]);
    }
  }

  lemma StepTowardsWait(s: State, a: Action)
    requires s.stop && Enabled(s, a)
    ensures Apply(s, a).pc == Waiting ==> s.pc == Waiting && !a.WaitInterrupted? && !a.WaitReturns? && !a.WaitFailed?
  {
    if a.Dispatch? {
      HandlersStayInLoop(s.(batch := s.batch[1..]), Route(s, s.batch[0]), s.batch[0].fd, a.r);
    }
  }

  /** Once `stop` is set, epoll_wait returns at most once more, interrupted or not, and only if
      the loop is waiting already. */
  lemma {:induction false} StoppedReturnsOnce(s: State, acts: seq<Action>)
    requires s.stop && Legal(s, acts)
    ensures Returns(acts) + (if Exec(s, acts).pc == Waiting then 1 else 0) <= if s.pc == Waiting then 1 else 0
    decreases |acts|
  {
    if acts == [] {
    } else {
      StepLowersRank(s, acts[0]);
      StepTowardsWait(s, acts[0]);
      StoppedReturnsOnce(Apply(s, acts[0]), acts[1..]);
    }
  }

  // ---- Progress -------------------------------------------------------------------------------

  predicate InLoop(s: State) {
    s.pc == LoopTest || s.pc == Waiting || s.pc == Dispatching || InCallback(s)
  }

  function WakeEvent(s: State): Event { Event(s.wakeRead, true, false, false) }

  /** A control step the loop can take; the system calls in it do not fail. */
  function NextControl(s: State): Action
    requires InLoop(s)
  {
    match s.pc
    case LoopTest => TestStop
    case Waiting => WaitReturns([WakeEvent(s)])
    case Dispatching =>
      if s.batch == [] then BatchDone
      else Dispatch(BenignResult(s, Route(s, s.batch[0]), s.batch[0].fd))
    case _ => CallbackReturns(true)
  }

  /** An event in the batch is on a listening socket that a later start_server replaced. */
  ghost predicate ReplacedListenerPending(s: State) {
    exists i :: 0 <= i < |s.batch| && s.batch[i].fd in s.listening && s.batch[i].fd != s.server
  }

  ghost predicate Stopping(s: State) {
    && Inv(s) && s.stop && s.stoppers == {} && !NamedBySend(s, s.wakeRead)
    && (InLoop(s) || s.pc == App)
  }

  lemma WakeIsHeard(s: State)
    requires RegistrationInv(s) && MaskInv(s) && s.pipe > 0 && !NamedBySend(s, s.wakeRead)
    ensures Reportable(s, WakeEvent(s)) && ValidBatch(s, [WakeEvent(s)])
  {
  }

  /** Stopping never blocks: the next control step is always enabled. */
  lemma StoppingIsEnabled(s: State)
    requires Stopping(s) && InLoop(s)
    ensures Enabled(s, NextControl(s)) && IsControl(NextControl(s))
  {
    if s.pc == Waiting {
      WakeIsHeard(s);
    } else if s.pc == Dispatching && s.batch != [] {
      BenignIsPossible(s, Route(s, s.batch[0]), s.batch[0].fd);
    }
  }

  lemma BenignDispatchGoesOn(s: State, h: Handler, fd: Fd)
    requires s.pc == Dispatching && (h == DataHandler ==> fd !in s.listening) && (h == WakeHandler ==> s.pipe > 0)
    requires HandlerContract(s, h, fd, BenignResult(s, h, fd))
    ensures var t := Handle(s, h, fd, BenignResult(s, h, fd));
      && Alive(t) && t.stop == s.stop && t.stoppers == s.stoppers && t.log.accepted == s.log.accepted
      && t.wakeRead == s.wakeRead && t.server == s.server && t.listening == s.listening && t.batch == s.batch
      && (t.pc == Dispatching || InCallback(t))
  {
  }

  lemma NextIsNotReplaced(s: State)
    requires !ReplacedListenerPending(s) && s.batch != []
    ensures Route(s, s.batch[0]) == DataHandler ==> s.batch[0].fd !in s.listening
  {
    assert s.batch[0].fd in s.listening ==> s.batch[0].fd == s.server;
  }

  lemma FramesStopping(s: State, t: State)
    requires Stopping(s) && !ReplacedListenerPending(s) && Inv(t) && (InLoop(t) || t.pc == App)
    requires t.stop == s.stop && t.stoppers == s.stoppers && t.log.accepted == s.log.accepted
    requires t.wakeRead == s.wakeRead && t.server == s.server && t.listening == s.listening
    requires t.batch == s.batch || (s.batch != [] && t.batch == s.batch[1..])
    ensures Stopping(t) && !ReplacedListenerPending(t)
  {
  }

  lemma StoppingDispatches(s: State)
    requires Stopping(s) && s.pc == Dispatching && s.batch != [] && !ReplacedListenerPending(s)
    requires Enabled(s, NextControl(s)) && Inv(Apply(s, NextControl(s)))
    ensures Stopping(Apply(s, NextControl(s))) && !ReplacedListenerPending(Apply(s, NextControl(s)))
  {
    NextIsNotReplaced(s);
    BenignDispatchGoesOn(s.(batch := s.batch[1..]), Route(s, s.batch[0]), s.batch[0].fd);
    FramesStopping(s, Apply(s, NextControl(s)));
  }

  lemma StoppingMovesOn(s: State)
    requires Stopping(s) && InLoop(s) && !ReplacedListenerPending(s)
    ensures Enabled(s, NextControl(s)) && IsControl(NextControl(s))
    ensures Stopping(Apply(s, NextControl(s))) && !ReplacedListenerPending(Apply(s, NextControl(s)))
  {
    StoppingIsEnabled(s);
    var a := NextControl(s);
    StepKeepsInv(s, a);
    var t := Apply(s, a);
    match a
    case Dispatch(_) => StoppingDispatches(s);
    case WaitReturns(_) => assert t.log.accepted == s.log.accepted;
    case _ => FramesStopping(s, t);
  }

  lemma {:induction false} Leaves(s: State) returns (acts: seq<Action>)
    requires Stopping(s) && !ReplacedListenerPending(s)
    ensures Legal(s, acts) && Exec(s, acts).pc == App && |acts| <= LoopRank(s)
    decreases LoopRank(s)
  {
    if s.pc == App {
      acts := [];
    } else {
      StoppingMovesOn(s);
      StepLowersRank(s, NextControl(s));
      var rest := Leaves(Apply(s, NextControl(s)));
      acts := [NextControl(s)] + rest;
      assert acts[1..] == rest;
    }
  }

  lemma ReadingItHalts(s: State, a: Action)
    requires a.Dispatch? && Enabled(s, a) && s.batch[0].readable
    requires s.batch[0].fd in s.listening && s.batch[0].fd != s.server && s.batch[0].fd != s.wakeRead
    ensures Apply(s, a).pc == Halted
  {
    FailedReadHalts(s.(batch := s.batch[1..]), s.batch[0].fd, a.r);
  }

  lemma ReplacedListenerStep(s: State, a: Action)
    requires Inv(s) && Active(s) && ReplacedListenerPending(s) && Enabled(s, a) && Active(Apply(s, a))
    requires a.Dispatch? ==> s.batch[0].fd !in s.listening || s.batch[0].fd == s.server
    ensures ReplacedListenerPending(Apply(s, a))
  {
    var t := Apply(s, a);
    var i :| 0 <= i < |s.batch| && s.batch[i].fd in s.listening && s.batch[i].fd != s.server;
    StepGrows(s, a);
    StepShrinksBatch(s, a);
    var j := if a.Dispatch? then i - 1 else i;
    assert t.batch[j] == s.batch[i];
  }

  lemma {:induction false} ReplacedListenerStays(s: State, acts: seq<Action>)
    requires Inv(s) && Active(s) && ReplacedListenerPending(s) && Legal(s, acts)
    ensures Exec(s, acts).pc != App
    decreases |acts|
  {
    if acts == [] {
    } else if acts[0].Dispatch? && s.batch[0].fd in s.listening && s.batch[0].fd != s.server {
      ReadingItHalts(s, acts[0]);
      DisposedStays(Apply(s, acts[0]), acts[1..]);
    } else if !Active(Apply(s, acts[0])) {
      StepKeepsInv(s, acts[0]);
      DisposedStays(Apply(s, acts[0]), acts[1..]);
    } else {
      StepKeepsInv(s, acts[0]);
      ReplacedListenerStep(s, acts[0]);
      ReplacedListenerStays(Apply(s, acts[0]), acts[1..]);
    }
  }

  /** From a reachable state of a running loop in which `stop` is set, every stopper has
      finished and no send named the wake pipe, some run leaves `run`, in at most
      2 * MAX_EVENTS + 3 steps, exactly when no event of a replaced listener is pending: the
      dispatcher takes that one for data, and its read ends the process. */
  lemma StopReachesExitIff(s: State)
    requires Reachable(s)
    requires s.stop && s.stoppers == {} && InLoop(s) && !NamedBySend(s, s.wakeRead)
    ensures (exists t :: Reaches(s, t) && t.pc == App) <==> !ReplacedListenerPending(s)
    ensures !ReplacedListenerPending(s) ==>
      exists more :: |more| <= 2 * MAX_EVENTS + 3 && Legal(s, more) && Exec(s, more).pc == App
  {
    ReachableInv(s);
    if ReplacedListenerPending(s) {
      forall t | Reaches(s, t) ensures t.pc != App {
        var acts: seq<Action> :| Legal(s, acts) && Exec(s, acts) == t;
        ReplacedListenerStays(s, acts);
      }
    } else {
      var more := Leaves(s);
      assert Reaches(s, Exec(s, more));
    }
  }

  // ---- Every continuation -----------------------------------------------------------------------

  /** The loop thread cannot go on without a signal, and no stopper has its wake left to do. */
  ghost predicate Blocked(s: State) {
    forall a :: (IsControl(a) && !a.WaitInterrupted?) || a.StopWake? ==> !Enabled(s, a)
  }

  /** A stopping loop, or a stopper it waits for, always has a next step. */
  lemma CanGoOn(s: State) returns (a: Action)
    requires Inv(s) && s.stop && InLoop(s) && !NamedBySend(s, s.wakeRead)
    ensures Enabled(s, a) && ((IsControl(a) && !a.WaitInterrupted?) || a.StopWake?)
  {
    if tid :| tid in s.stoppers {
      a := StopWake(tid, true);
    } else {
      StoppingIsEnabled(s);
      a := NextControl(s);
    }
  }

  /** Once `stop` is set, every continuation makes at most `LoopRank` control steps (one more
      for each later call of `run`), and if it can make no further one while the process
      lives, the loop has been left, unless a send named the wake pipe. */
  lemma StopForcesExit(s: State, more: seq<Action>)
    requires Reachable(s) && s.stop && Legal(s, more)
    ensures var t := Exec(s, more);
      && ControlSteps(more) + LoopRank(t) <= LoopRank(s) + Entries(more)
      && (Alive(t) && Blocked(t) && !NamedBySend(t, t.wakeRead) ==> t.pc == App || t.pc == Disposed)
  {
    var t := Exec(s, more);
    StopBoundsTheLoop(s, more);
    ReachRun(s, more);
    ReachableInv(t);
    if InLoop(t) && !NamedBySend(t, t.wakeRead) {
      var a := CanGoOn(t);
    }
  }

  // ---- The condition on the wake pipe ---------------------------------------------------------------

  /** epoll_wait can report a non-empty wake pipe exactly when no send named its read end:
      such a send replaces EPOLLIN by EPOLLOUT on it for good. */
  lemma WakeIsHeardIff(s: State)
    requires Reachable(s) && s.pc == Waiting && s.pipe > 0
    ensures Reportable(s, WakeEvent(s)) <==> !NamedBySend(s, s.wakeRead)
  {
    ReachableInv(s);
  }

  /** A waiting loop that watches only the wake pipe, and that one for EPOLLOUT, is deaf. */
  lemma Deaf(s: State)
    requires s.interest == map[s.wakeRead := OUT_ONLY]
    ensures forall events :: !Enabled(s, WaitReturns(events))
  {
    forall events ensures !Enabled(s, WaitReturns(events)) {
      if |events| > 0 {
        assert !Reportable(s, events[0]);
      }
    }
  }

  /** The run that loses a stop: send to the wake pipe, run, stop from another thread.  The
      flag is set, the wake is in the pipe, and no return of events is possible. */
  lemma SendToWakePipeLosesStop(init: State) returns (s: State)
    requires IsInit(init)
    ensures Reachable(s) && s.pc == Waiting && s.stop && s.stoppers == {} && s.pipe == 1
    ensures forall events :: !Enabled(s, WaitReturns(events))
  {
    ReachesItself(init);
    s := Take(init, init, CallSend(init.wakeRead, [], Allocation(Some(0), Some(0)), true));
    assert s.interest == map[init.wakeRead := OUT_ONLY];
    s := Take(init, s, EnterRun);
    s := Take(init, s, TestStop);
    s := Take(init, s, RaiseStop(1));
    s := Take(init, s, StopWake(1, true));
    Deaf(s);
  }
}
