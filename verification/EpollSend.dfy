/** What every run of the proactor guarantees about sends: conservation of bytes, ordered
    completion, the heap ledger, the registration of the target and completion in a bounded
    number of writes. */
module EpollSend {
  import opened Basics
  import opened EpollModel
  import opened EpollInvariants

  // ---- Safety of every reachable state --------------------------------------------------

  /** The bytes on the wire are the payloads already finished, in the order of acceptance,
      then the written part of the request in flight; inside callbacks too. */
  lemma WireConservation(s: State)
    requires Reachable(s) && s.pc != Halted
    ensures
      && |s.log.finishes| <= |s.log.accepted|
      && (s.slot.Some? ==> 0 <= s.slot.value.offset <= |s.slot.value.data|)
      && (InFlight(s) ==> s.log.accepted != []
                          && s.slot.value.data == s.log.accepted[|s.log.accepted| - 1].payload)
      && Bytes(s.log.wire) == Stream(s.log.accepted, |s.log.finishes|)
                              + if InFlight(s) then s.slot.value.data[..s.slot.value.offset] else []
  {
    ReachableInv(s);
  }

  lemma FinishOnWire(s: State, k: nat)
    requires WireInv(s) && k < |s.log.finishes|
    ensures s.log.finishes[k].wireLength <= |s.log.wire|
    ensures Bytes(s.log.wire)[..s.log.finishes[k].wireLength] == Stream(s.log.accepted, k + 1)
  {
    StreamGrows(s.log.accepted, k + 1, |s.log.finishes|);
    assert Stream(s.log.accepted, k + 1) <= Bytes(s.log.wire);
  }

  /** The k-th completion is the k-th accepted send, it happens when exactly the first k+1
      payloads are on the wire, and all but the request in flight have completed. */
  lemma OrderedCompletion(s: State)
    requires Reachable(s) && s.pc != Halted
    ensures
      && |s.log.accepted| == |s.log.finishes| + (if InFlight(s) then 1 else 0)
      && (forall k | 0 <= k < |s.log.finishes| ::
            && s.log.finishes[k].payload == s.log.accepted[k].payload
            && s.log.finishes[k].wireLength <= |s.log.wire|
            && Bytes(s.log.wire)[..s.log.finishes[k].wireLength] == Stream(s.log.accepted, k + 1))
  {
    ReachableInv(s);
    forall k | 0 <= k < |s.log.finishes|
      ensures s.log.finishes[k].wireLength <= |s.log.wire|
      ensures Bytes(s.log.wire)[..s.log.finishes[k].wireLength] == Stream(s.log.accepted, k + 1)
    {
      FinishOnWire(s, k);
    }
  }

  /** While a completion callback runs the slot is still full with a request whose last
      byte is written, so a send issued from it is refused and changes nothing. */
  lemma SendInCompletionRefused(s: State, a: Action)
    requires Reachable(s) && s.pc.InSendCallback?
    requires a.CallSend? && Enabled(s, a)
    ensures
      && s.slot.Some? && s.slot.value.offset == |s.slot.value.data|
      && Apply(s, a) == s
  {
    ReachableInv(s);
  }

  /** One live struct and one live buffer when the slot is full, none otherwise, none after
      cleanup, and never a second free. */
  lemma HeapLedger(s: State)
    requires Reachable(s) && s.pc != Halted
    ensures
      && !s.heap.corrupt
      && |s.heap.structs| == |s.heap.buffers| == (if s.slot.Some? && s.pc != Disposed then 1 else 0)
  {
    ReachableInv(s);
  }

  /** Cleanup does not clear the pointer: calling it again frees twice exactly when a
      request was pending. */
  lemma SecondCleanup(s: State)
    requires Reachable(s) && s.pc == Disposed
    ensures Cleanup(s).heap.corrupt <==> s.slot.Some?
  {
    ReachableInv(s);
  }

  /** Every descriptor a send ever named, the one in flight included, is open, registered
      and watched for EPOLLOUT only; nothing closed is registered. */
  lemma TargetsStayRegistered(s: State)
    requires Reachable(s) && s.pc != Halted && s.pc != Disposed
    ensures
      && s.interest.Keys <= s.open
      && (forall k | 0 <= k < |s.log.accepted| ::
            && s.log.accepted[k].target in s.interest
            && s.interest[s.log.accepted[k].target] == OUT_ONLY)
      && (forall i | 0 <= i < |s.batch| :: s.batch[i].fd in s.interest)
  {
    ReachableInv(s);
  }

  /** The mask of every registered descriptor follows from what it is and whether a send ever
      named it. */
  lemma MasksAreExact(s: State, fd: Fd)
    requires Reachable(s) && s.pc != Halted && s.pc != Disposed && fd in s.interest
    ensures NamedBySend(s, fd) ==> s.interest[fd] == Mask(false, true)
    ensures !NamedBySend(s, fd) && (fd == s.wakeRead || fd in s.listening) ==> s.interest[fd] == Mask(true, false)
    ensures !NamedBySend(s, fd) && fd != s.wakeRead && fd !in s.listening ==> s.interest[fd] == Mask(true, true)
  {
    ReachableInv(s);
  }

  /** The accept callback runs before the client is registered, so sending to that client
      from it ends the process whatever the kernel answers. */
  lemma SendToNewClientHalts(s: State, data: seq<byte>, alloc: Allocation, ok: bool)
    requires Reachable(s) && s.pc.InAcceptCallback? && s.slot.None?
    ensures Send(s, s.pc.client, data, alloc, ok).pc == Halted
  {
    ReachableInv(s);
  }

  // ---- Completion callbacks ---------------------------------------------------------------------

  /** This step calls the completion callback. */
  predicate Notifies(s: State, a: Action)
    requires Enabled(s, a)
  {
    !s.pc.InSendCallback? && Apply(s, a).pc.InSendCallback?
  }

  ghost function Notifications(s: State, acts: seq<Action>): nat
    requires Legal(s, acts)
    decreases |acts|
  {
    if acts == [] then 0
    else (if Notifies(s, acts[0]) then 1 else 0) + Notifications(Apply(s, acts[0]), acts[1..])
  }

  /** This step completes a request while the completion callback is set. */
  predicate Completes(s: State, a: Action)
    requires Enabled(s, a)
  {
    |Apply(s, a).log.finishes| > |s.log.finishes| && s.callbacks.sendComplete
  }

  ghost function Completions(s: State, acts: seq<Action>): nat
    requires Legal(s, acts)
    decreases |acts|
  {
    if acts == [] then 0
    else (if Completes(s, acts[0]) then 1 else 0) + Completions(Apply(s, acts[0]), acts[1..])
  }

  /** The completion callback that runs was called for the last finish, which is the request
      still in the slot, with nothing written since; its descriptor is the one that the last
      byte of the request, if it has any, was written to. */
  lemma CallbackDescribesLastFinish(s: State)
    requires Reachable(s) && s.pc.InSendCallback?
    ensures s.log.finishes != [] && s.slot.Some?
    ensures s.log.finishes[|s.log.finishes| - 1] == Finish(s.pc.fd, s.slot.value.data, |s.log.wire|)
    ensures s.slot.value.data != [] ==> s.log.wire != [] && s.log.wire[|s.log.wire| - 1].fd == s.pc.fd
  {
    ReachableInv(s);
    var n := |s.log.finishes|;
    assert s.log.finishes[n - 1].wireLength == |Stream(s.log.accepted, n)|;
  }

  lemma Connected(init: State, f: Fd) returns (s: State)
    requires IsInit(init) && Fresh(init, f)
    ensures Reaches(init, s)
    ensures s == init.(callbacks := Callbacks(false, true, false), client := f, open := init.open + {f},
                       interest := init.interest[f := IN_OUT])
  {
    ReachesItself(init);
    s := Take(init, init, SetCallback(OnSendComplete, true));
    s := Take(init, s, CallConnect(f, true));
  }

  lemma ConnectAndSend(init: State, f: Fd) returns (s: State)
    requires IsInit(init) && Fresh(init, f)
    ensures Reaches(init, s)
    ensures s == init.(pc := Waiting, callbacks := Callbacks(false, true, false), client := f,
                       open := init.open + {f}, interest := init.interest[f := OUT_ONLY],
                       slot := Some(Request([7], 0, 0, 0)), heap := Heap({0}, {0}, false),
                       log := Log([Accepted(f, [7])], [], [], []))
  {
    s := Connected(init, f);
    s := Take(init, s, CallSend(f, [7], Allocation(Some(0), Some(0)), true));
    s := Take(init, s, EnterRun);
    s := Take(init, s, TestStop);
  }

  /** A reachable run that is in the completion callback of a one-byte request. */
  lemma CompletionCallbackIsReachable(init: State, f: Fd) returns (s: State)
    requires IsInit(init) && Fresh(init, f)
    ensures Reachable(s) && s.pc == InSendCallback(f)
    ensures s.log.accepted == [Accepted(f, [7])] && s.log.wire == [Sent(f, 7)] && s.slot.Some?
  {
    s := ConnectAndSend(init, f);
    assert Reportable(s, Event(f, false, true, false));
    s := Take(init, s, WaitReturns([Event(f, false, true, false)]));
    s := Take(init, s, Dispatch(SysResult(1, [], true)));
  }

  lemma WriteNotifies(s: State, fd: Fd, r: SysResult)
    requires s.pc == Dispatching && WriteContract(s, r)
    ensures var t := HandleWrite(s, fd, r);
      t.pc.InSendCallback? <==> |t.log.finishes| > |s.log.finishes| && s.callbacks.sendComplete
  {
  }

  lemma StepNotifies(s: State, a: Action)
    requires Enabled(s, a)
    ensures Notifies(s, a) <==> Completes(s, a)
  {
    if a.Dispatch? {
      var s1, h := s.(batch := s.batch[1..]), Route(s, s.batch[0]);
      if h == WriteHandler {
        WriteNotifies(s1, s.batch[0].fd, a.r);
      } else {
        OtherHandlersKeepTraffic(s1, h, s.batch[0].fd, a.r);
      }
    }
  }

  /** Along every run the completion callback is called exactly once for each request that is
      completed while it is set, and at no other time. */
  lemma {:induction false} OneCallbackPerFinish(s: State, acts: seq<Action>)
    requires Legal(s, acts)
    ensures Notifications(s, acts) == Completions(s, acts)
    decreases |acts|
  {
    if acts == [] {
    } else {
      StepNotifies(s, acts[0]);
      OneCallbackPerFinish(Apply(s, acts[0]), acts[1..]);
    }
  }

  // ---- Relations between two states of a run ------------------------------------------------

  lemma {:induction false} DisposedStays(s: State, acts: seq<Action>)
    requires Legal(s, acts) && (s.pc == Disposed || s.pc == Halted)
    ensures Exec(s, acts).pc == Disposed || Exec(s, acts).pc == Halted
    decreases |acts|
  {
    if acts == [] {
    } else {
      DisposedStays(Apply(s, acts[0]), acts[1..]);
    }
  }

  /** The proactor is neither disposed nor dead. */
  predicate Active(s: State) { Alive(s) && s.pc != Disposed }

  lemma ActiveBefore(s: State, acts: seq<Action>)
    requires Legal(s, acts) && acts != [] && Active(Exec(s, acts)) && Inv(s)
    ensures Active(Apply(s, acts[0])) && !acts[0].CallCleanup?
  {
    StepKeepsInv(s, acts[0]);
    if !Active(Apply(s, acts[0])) { DisposedStays(Apply(s, acts[0]), acts[1..]); }
  }

  lemma {:induction false} RunGrows(s: State, acts: seq<Action>)
    requires Inv(s) && Legal(s, acts) && Active(Exec(s, acts))
    ensures Grows(s, Exec(s, acts))
    decreases |acts|
  {
    if acts == [] {
    } else {
      ActiveBefore(s, acts);
      StepGrows(s, acts[0]);
      StepKeepsInv(s, acts[0]);
      RunGrows(Apply(s, acts[0]), acts[1..]);
    }
  }

  /** Once a data socket, always a data socket. */
  lemma DataSocketStays(s: State, t: State, fd: Fd)
    requires Grows(s, t) && s.interest.Keys <= s.open && fd in DataSockets(s)
    ensures fd in DataSockets(t)
  {
  }

  // ---- Completion -------------------------------------------------------------------------------

  lemma NamedHasNoInput(s: State, events: seq<Event>, i: nat)
    requires RegistrationInv(s) && ValidBatch(s, events) && i < |events| && NamedBySend(s, events[i].fd)
    ensures !events[i].readable
  {
    assert Reportable(s, events[i]);
  }

  lemma OutputIsRouted(t: State, e: Event)
    requires RegistrationInv(t) && e.fd in DataSockets(t) && !e.readable && e.writable
    ensures Route(t, e) == WriteHandler
  {
  }

  lemma HeadIsRouted(s: State, more: seq<Action>, e: Event)
    requires Inv(s) && Active(s) && e.fd in DataSockets(s) && !e.readable && e.writable
    requires Legal(s, more) && Active(Exec(s, more))
    ensures Route(Exec(s, more), e) == WriteHandler
  {
    var t := Exec(s, more);
    RunGrows(s, more);
    RunKeepsInv(s, more);
    DataSocketStays(s, t, e.fd);
    OutputIsRouted(t, e);
  }

  /** In every batch the next epoll_wait returns, an EPOLLOUT event on a socket that a send
      named reaches the write handler, whatever the callbacks before it in the batch do. */
  lemma WriteEventReachesHandler(s: State, events: seq<Event>, i: nat, more: seq<Action>)
    requires Reachable(s) && Enabled(s, WaitReturns(events))
    requires
      && i < |events| && events[i].writable
      && NamedBySend(s, events[i].fd) && events[i].fd in DataSockets(s)
    requires Legal(Apply(s, WaitReturns(events)), more)
    requires var t := Exec(Apply(s, WaitReturns(events)), more);
      t.pc == Dispatching && t.batch == events[i..]
    ensures !events[i].readable
    ensures var t := Exec(Apply(s, WaitReturns(events)), more);
      Route(t, t.batch[0]) == WriteHandler
  {
    ReachableInv(s);
    NamedHasNoInput(s, events, i);
    var s1 := Apply(s, WaitReturns(events));
    StepKeepsInv(s, WaitReturns(events));
    HeadIsRouted(s1, more, events[i]);
  }

  /** And the next epoll_wait may report such an event: a data socket a send named stays
      watched for EPOLLOUT, so a request on it can always go on. */
  lemma TargetCanBeReported(s: State, k: nat)
    requires Reachable(s) && s.pc == Waiting && k < |s.log.accepted|
    requires s.log.accepted[k].target in DataSockets(s)
    ensures ValidBatch(s, [Event(s.log.accepted[k].target, false, true, false)])
  {
    ReachableInv(s);
    assert Reportable(s, Event(s.log.accepted[k].target, false, true, false));
  }

  /** Every event dispatched in the run carries input. */
  ghost predicate OnlyInput(s: State, acts: seq<Action>)
    requires Legal(s, acts)
    decreases |acts|
  {
    acts != [] ==>
      && (acts[0].Dispatch? ==> s.batch[0].readable)
      && OnlyInput(Apply(s, acts[0]), acts[1..])
  }

  /** EPOLLIN goes first: as long as every event carries input, no run writes a byte, even if
      each of these sockets is writable as well. */
  lemma {:induction false} InputStarvesSends(s: State, acts: seq<Action>)
    requires Legal(s, acts) && OnlyInput(s, acts)
    ensures Exec(s, acts).log.wire == s.log.wire && Exec(s, acts).log.finishes == s.log.finishes
    decreases |acts|
  {
    if acts == [] {
    } else {
      if acts[0].Dispatch? {
        var s1 := s.(batch := s.batch[1..]);
        OtherHandlersKeepTraffic(s1, Route(s, s.batch[0]), s.batch[0].fd, acts[0].r);
      }
      InputStarvesSends(Apply(s, acts[0]), acts[1..]);
    }
  }

  /** Every read of a data event in the run returns data. */
  ghost predicate ReadsSucceed(s: State, acts: seq<Action>)
    requires Legal(s, acts)
    decreases |acts|
  {
    acts != [] ==>
      && (acts[0].Dispatch? && Route(s, s.batch[0]) == DataHandler ==> acts[0].r.n > 0)
      && ReadsSucceed(Apply(s, acts[0]), acts[1..])
  }

  /** A run in which one read fails or finds the end of a stream ends with the process: the
      descriptor is closed before it is deregistered. */
  lemma {:induction false} FailedReadEndsProcess(s: State, acts: seq<Action>)
    requires Legal(s, acts) && !ReadsSucceed(s, acts)
    ensures Exec(s, acts).pc == Halted
    decreases |acts|
  {
    if acts == [] {
    } else if acts[0].Dispatch? && Route(s, s.batch[0]) == DataHandler && acts[0].r.n <= 0 {
      FailedReadHalts(s.(batch := s.batch[1..]), s.batch[0].fd, acts[0].r);
      assert acts[1..] == [];
    } else {
      FailedReadEndsProcess(Apply(s, acts[0]), acts[1..]);
    }
  }

  /** This action is a write that moves the request in flight: at least one byte of it, or
      the empty write of an empty payload. */
  predicate Moves(s: State, a: Action)
    requires Enabled(s, a)
  {
    && a.Dispatch? && Route(s, s.batch[0]) == WriteHandler && InFlight(s)
    && (a.r.n >= 1 || (a.r.n == 0 && s.slot.value.data == []))
  }

  ghost function Moving(s: State, acts: seq<Action>): nat
    requires Legal(s, acts)
    decreases |acts|
  {
    if acts == [] then 0
    else (if Moves(s, acts[0]) then 1 else 0) + Moving(Apply(s, acts[0]), acts[1..])
  }

  /** How many moving writes the request in flight can still take. */
  function Outstanding(s: State): int
    requires InFlight(s)
  {
    if s.slot.value.data == [] then 1 else |s.slot.value.data| - s.slot.value.offset
  }

  ghost predicate Closer(s: State, t: State, moved: bool)
    requires InFlight(s)
  {
    || |t.log.finishes| == |s.log.accepted|
    || (InFlight(t) && t.log.accepted == s.log.accepted
        && Outstanding(t) <= Outstanding(s) - if moved then 1 else 0)
  }

  lemma WriteTowardsCompletion(s: State, fd: Fd, r: SysResult)
    requires WireInv(s) && InFlight(s) && s.pc == Dispatching && WriteContract(s, r)
    ensures Closer(s, HandleWrite(s, fd, r), r.n >= 1 || (r.n == 0 && s.slot.value.data == []))
  {
  }

  lemma OtherStepsKeepTraffic(s: State, a: Action)
    requires InFlight(s) && Enabled(s, a) && !a.Dispatch? && Alive(Apply(s, a))
    ensures SameTraffic(s, Apply(s, a))
  {
  }

  lemma StepTowardsCompletion(s: State, a: Action)
    requires WireInv(s) && InFlight(s) && Enabled(s, a) && Alive(Apply(s, a))
    ensures Closer(s, Apply(s, a), Moves(s, a))
  {
    if a.Dispatch? && Route(s, s.batch[0]) == WriteHandler {
      WriteTowardsCompletion(s.(batch := s.batch[1..]), s.batch[0].fd, a.r);
    } else if a.Dispatch? {
      OtherHandlersKeepTraffic(s.(batch := s.batch[1..]), Route(s, s.batch[0]), s.batch[0].fd, a.r);
    } else {
      OtherStepsKeepTraffic(s, a);
    }
  }

  lemma {:induction false} FinishesGrow(s: State, acts: seq<Action>)
    requires Legal(s, acts)
    ensures s.log.finishes <= Exec(s, acts).log.finishes
    decreases |acts|
  {
    if acts == [] {
    } else {
      FinishesGrow(Apply(s, acts[0]), acts[1..]);
    }
  }

  lemma {:induction false} Drains(s: State, acts: seq<Action>)
    requires Inv(s) && Alive(s) && InFlight(s) && Legal(s, acts) && Alive(Exec(s, acts))
    requires Moving(s, acts) >= Outstanding(s)
    ensures |Exec(s, acts).log.finishes| >= |s.log.accepted|
    decreases |acts|
  {
    if acts == [] {
    } else {
      var t := Apply(s, acts[0]);
      StepKeepsInv(s, acts[0]);
      if t.pc == Halted { DisposedStays(t, acts[1..]); }
      StepTowardsCompletion(s, acts[0]);
      FinishesGrow(t, acts[1..]);
      if |t.log.finishes| < |s.log.accepted| { Drains(t, acts[1..]); }
    }
  }

  /** A request of `n` outstanding bytes is complete after at most `n` writes that each move
      at least one byte (one write for an empty payload), whatever else the run does. */
  lemma SendCompletes(s: State, more: seq<Action>)
    requires Reachable(s) && s.pc != Halted && InFlight(s)
    requires Legal(s, more) && Exec(s, more).pc != Halted
    requires Moving(s, more) >= Outstanding(s)
    ensures |Exec(s, more).log.finishes| >= |s.log.accepted|
  {
    ReachableInv(s);
    RunKeepsInv(s, more);
    Drains(s, more);
  }
}
