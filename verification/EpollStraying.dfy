/** Which descriptors the rest of a request can still go to: the exact condition, over every
    continuation, under which a byte of it leaves a given set of descriptors, and under which
    it can move at all. */
module EpollStraying {
  import opened Basics
  import opened EpollModel
  import opened EpollInvariants
  import opened EpollSend
  import opened EpollRuns
  import opened EpollDelivery

  /** Some data socket is not in `within`. */
  ghost predicate Elsewhere(s: State, within: set<Fd>) {
    exists fd :: fd in DataSockets(s) && fd !in within
  }

  // ---- One batch ------------------------------------------------------------------------------

  /** Some batch the next epoll_wait may return offers the slot to a socket outside `within`. */
  ghost predicate OffersOutside(s: State, within: set<Fd>) {
    exists events: seq<Event>, i: nat :: ValidBatch(s, events) && i < |events|
                        && Route(s, events[i]) == WriteHandler && events[i].fd !in within
  }

  lemma OfferedOnlyInside(s: State, within: set<Fd>)
    requires !Elsewhere(s, within)
    ensures !OffersOutside(s, within)
  {
    forall events: seq<Event>, i: nat
      | ValidBatch(s, events) && i < |events| && Route(s, events[i]) == WriteHandler
      ensures events[i].fd in within
    {
      assert Reportable(s, events[i]);
    }
  }

  /** Exactly when there is a data socket outside it. */
  lemma StraysIff(s: State, within: set<Fd>)
    requires Reachable(s) && s.pc == Waiting
    ensures OffersOutside(s, within) <==> Elsewhere(s, within)
  {
    ReachableInv(s);
    if fd :| fd in DataSockets(s) && fd !in within {
      var e := Event(fd, false, true, false);
      OutputIsRouted(s, e);
      assert Reportable(s, e);
      assert ValidBatch(s, [e]) && Route(s, [e][0]) == WriteHandler && [e][0].fd !in within;
    } else {
      OfferedOnlyInside(s, within);
    }
  }

  // ---- What keeps a request within a set of descriptors ---------------------------------------------

  /** Request `k` is in flight. */
  ghost predicate Still(s: State, k: nat) { InFlight(s) && |s.log.accepted| == k + 1 }

  /** Output events of the batch are on the descriptors of `within`. */
  ghost predicate OutputWithin(s: State, within: set<Fd>) {
    forall i | 0 <= i < |s.batch| && s.batch[i].writable && s.batch[i].fd != s.wakeRead :: s.batch[i].fd in within
  }

  /** No event of the batch leads into a callback: none is on the listener, and input is that
      of the wake pipe or of a replaced listener, whose read ends the process. */
  ghost predicate NoInput(s: State) {
    forall i | 0 <= i < |s.batch| ::
      && s.batch[i].fd != s.server
      && (s.batch[i].readable ==> s.batch[i].fd == s.wakeRead || s.batch[i].fd in s.listening)
  }

  /** The loop is waiting for the last time. */
  ghost predicate LastWait(s: State, within: set<Fd>) {
    s.pc == Waiting && s.stop && !Elsewhere(s, within)
  }

  /** The loop does not wait again. */
  ghost predicate NoMoreWaits(s: State, within: set<Fd>) {
    s.pc != Waiting && s.stop && OutputWithin(s, within)
  }

  /** No data socket outside `within`, and nothing that could call the application. */
  ghost predicate Alone(s: State, within: set<Fd>) {
    && (s.pc == LoopTest || s.pc == Waiting || s.pc == Dispatching)
    && !Elsewhere(s, within) && !Listening(s) && OutputWithin(s, within) && NoInput(s)
  }

  ghost predicate Confined(s: State, within: set<Fd>, k: nat) {
    Active(s) ==>
      && Still(s, k) && (forall fd | fd in within :: NamedBySend(s, fd))
      && (LastWait(s, within) || NoMoreWaits(s, within) || Alone(s, within))
  }

  /** Request `k` is completely written. */
  ghost predicate Done(s: State, k: nat) { k < |s.log.finishes| }

  /** A write in a confined state goes to one of the descriptors. */
  lemma ConfinedWrites(s: State, a: Action, within: set<Fd>, k: nat)
    requires Confined(s, within, k) && Enabled(s, a)
    requires a.Dispatch? && Route(s, s.batch[0]) == WriteHandler
    ensures s.batch[0].fd in within
  {
  }

  /** Each step leaves the request in flight, unless it completes it or ends the process. */
  lemma StillOrDone(s: State, a: Action, k: nat)
    requires Inv(s) && Active(s) && Still(s, k) && Enabled(s, a) && Active(Apply(s, a))
    ensures Done(Apply(s, a), k) || (Still(Apply(s, a), k) && Apply(s, a).log.accepted == s.log.accepted)
  {
    StepTowardsCompletion(s, a);
  }

  lemma NamedStays(s: State, t: State, within: set<Fd>)
    requires s.log.accepted == t.log.accepted && forall fd | fd in within :: NamedBySend(s, fd)
    ensures forall fd | fd in within :: NamedBySend(t, fd)
  {
    forall fd | fd in within ensures NamedBySend(t, fd) {
      assert NamedBySend(s, fd);
    }
  }

  lemma ConfinedEvent(s: State, e: Event, within: set<Fd>)
    requires RegistrationInv(s) && Reportable(s, e) && !Elsewhere(s, within)
    requires forall fd | fd in within :: NamedBySend(s, fd)
    ensures e.writable && e.fd != s.wakeRead ==> e.fd in within
    ensures e.readable ==> e.fd == s.wakeRead || e.fd in s.listening
    ensures e.fd == s.server ==> Listening(s)
  {
    assert e.fd in DataSockets(s) ==> e.fd in within;
    assert e.fd in within ==> NamedBySend(s, e.fd);
  }

  /** What the next epoll_wait can report when all data sockets are in `within`. */
  lemma ConfinedBatch(s: State, events: seq<Event>, within: set<Fd>)
    requires RegistrationInv(s) && s.pc == Waiting && ValidBatch(s, events) && !Elsewhere(s, within)
    requires forall fd | fd in within :: NamedBySend(s, fd)
    ensures OutputWithin(Apply(s, WaitReturns(events)), within)
    ensures !Listening(s) ==> NoInput(Apply(s, WaitReturns(events)))
  {
    forall i | 0 <= i < |events|
      ensures events[i].writable && events[i].fd != s.wakeRead ==> events[i].fd in within
      ensures events[i].readable ==> events[i].fd == s.wakeRead || events[i].fd in s.listening
      ensures events[i].fd == s.server ==> Listening(s)
    {
      ConfinedEvent(s, events[i], within);
    }
  }

  lemma BatchStaysConfined(s: State, events: seq<Event>, within: set<Fd>, k: nat)
    requires Inv(s) && Confined(s, within, k) && s.pc == Waiting && ValidBatch(s, events)
    ensures Confined(Apply(s, WaitReturns(events)), within, k)
  {
    NamedStays(s, Apply(s, WaitReturns(events)), within);
    ConfinedBatch(s, events, within);
  }

  /** What the steps of a waiting loop other than its return with events leave alone. */
  lemma WaitingStep(s: State, a: Action)
    requires s.pc == Waiting && Enabled(s, a) && !a.WaitReturns? && Active(Apply(s, a))
    ensures var t := Apply(s, a);
      && (t.pc == Waiting || t.pc == LoopTest) && (s.stop ==> t.stop)
      && t.batch == s.batch && t.slot == s.slot && t.log.accepted == s.log.accepted
      && t.interest == s.interest && t.listening == s.listening && t.server == s.server && t.wakeRead == s.wakeRead
  {
  }

  lemma WaitingStaysConfined(s: State, a: Action, within: set<Fd>, k: nat)
    requires Inv(s) && Confined(s, within, k) && s.pc == Waiting && Enabled(s, a) && Active(Apply(s, a))
    ensures Confined(Apply(s, a), within, k)
  {
    if a.WaitReturns? {
      BatchStaysConfined(s, a.events, within, k);
    } else {
      WaitingStep(s, a);
      NamedStays(s, Apply(s, a), within);
    }
  }

  /** A confined loop that may wait again dispatches nothing that calls the application. */
  lemma AloneDispatch(s: State, a: Action, within: set<Fd>, k: nat)
    requires Inv(s) && Alone(s, within) && Still(s, k) && a.Dispatch? && Enabled(s, a)
    requires Active(Apply(s, a)) && Still(Apply(s, a), k)
    ensures Alone(Apply(s, a), within)
  {
    var e, s1 := s.batch[0], s.(batch := s.batch[1..]);
    if Route(s, e) == DataHandler {
      FailedReadHalts(s1, e.fd, a.r);
    }
    OtherHandlersKeepDescriptors(s1, Route(s, e), e.fd, a.r);
    HandlersKeepBatch(s1, Route(s, e), e.fd, a.r);
  }

  lemma AloneStays(s: State, a: Action, within: set<Fd>, k: nat)
    requires Inv(s) && Alone(s, within) && Still(s, k) && s.pc != Waiting && Enabled(s, a)
    requires Active(Apply(s, a)) && Still(Apply(s, a), k)
    ensures Alone(Apply(s, a), within) || NoMoreWaits(Apply(s, a), within)
  {
    if a.Dispatch? {
      AloneDispatch(s, a, within, k);
    }
  }

  lemma HandlerKeepsStopping(s: State, h: Handler, fd: Fd, r: SysResult)
    requires HandlerContract(s, h, fd, r) && s.pc == Dispatching
    ensures var t := Handle(s, h, fd, r);
      t.pc != Waiting && t.stop == s.stop && t.batch == s.batch && t.wakeRead == s.wakeRead
  {
  }

  lemma NoMoreWaitsStays(s: State, a: Action, within: set<Fd>)
    requires NoMoreWaits(s, within) && Enabled(s, a)
    ensures NoMoreWaits(Apply(s, a), within)
  {
    if a.Dispatch? {
      HandlerKeepsStopping(s.(batch := s.batch[1..]), Route(s, s.batch[0]), s.batch[0].fd, a.r);
    }
  }

  lemma StepStaysConfined(s: State, a: Action, within: set<Fd>, k: nat)
    requires Inv(s) && Active(s) && Confined(s, within, k) && Enabled(s, a)
    ensures Confined(Apply(s, a), within, k) || Done(Apply(s, a), k)
  {
    var t := Apply(s, a);
    if Active(t) && !Done(t, k) {
      StillOrDone(s, a, k);
      NamedStays(s, t, within);
      if s.pc == Waiting {
        WaitingStaysConfined(s, a, within, k);
      } else if NoMoreWaits(s, within) {
        NoMoreWaitsStays(s, a, within);
      } else {
        AloneStays(s, a, within, k);
      }
    }
  }

  // ---- Every continuation ------------------------------------------------------------------------------

  /** No byte of request `k` from position `from` of the wire on is outside `within`. */
  ghost predicate KeptWithin(l: Log, from: nat, within: set<Fd>, k: nat) {
    forall i | from <= i < |l.wire| && ByteOf(l.accepted, i, k) :: l.wire[i].fd in within
  }

  lemma ByteOfEarlier(accepted: seq<Accepted>, longer: seq<Accepted>, i: nat, k: nat)
    requires accepted <= longer && k < |accepted| && ByteOf(longer, i, k)
    ensures ByteOf(accepted, i, k)
  {
    var later := longer[|accepted|..];
    assert longer == accepted + later;
    StreamIgnoresLater(accepted, later, k);
    StreamIgnoresLater(accepted, later, k + 1);
  }

  /** Where bytes of a completed request are. */
  lemma DoneIsOnWire(s: State, i: nat, k: nat)
    requires WireInv(s) && Done(s, k) && ByteOf(s.log.accepted, i, k)
    ensures i < |s.log.wire|
  {
    FinishOnWire(s, k);
  }

  lemma LongerLogKeepsWithin(l: Log, longer: Log, from: nat, within: set<Fd>, k: nat)
    requires l.wire <= longer.wire && l.accepted <= longer.accepted && k < |l.accepted|
    requires KeptWithin(l, from, within, k)
    requires forall i | |l.wire| <= i < |longer.wire| && ByteOf(l.accepted, i, k) :: longer.wire[i].fd in within
    ensures KeptWithin(longer, from, within, k)
  {
    forall i | from <= i < |longer.wire| && ByteOf(longer.accepted, i, k) ensures longer.wire[i].fd in within {
      ByteOfEarlier(l.accepted, longer.accepted, i, k);
      if i < |l.wire| {
        assert longer.wire[i] == l.wire[i];
      }
    }
  }

  lemma NewBytesWithin(s: State, a: Action, within: set<Fd>, i: nat, k: nat)
    requires WireInv(s) && Enabled(s, a) && ByteOf(s.log.accepted, i, k)
    requires Confined(s, within, k) || Done(s, k)
    requires |s.log.wire| <= i < |Apply(s, a).log.wire|
    ensures Apply(s, a).log.wire[i].fd in within
  {
    StepWrites(s, a);
    if Done(s, k) {
      DoneIsOnWire(s, i, k);
      assert false;
    } else {
      ConfinedWrites(s, a, within, k);
    }
  }

  lemma StepKeepsWithin(s: State, a: Action, from: nat, within: set<Fd>, k: nat)
    requires Inv(s) && Enabled(s, a) && k < |s.log.accepted|
    requires Confined(s, within, k) || Done(s, k)
    requires KeptWithin(s.log, from, within, k)
    ensures KeptWithin(Apply(s, a).log, from, within, k)
  {
    var l := Apply(s, a).log;
    StepWrites(s, a);
    forall i | |s.log.wire| <= i < |l.wire| && ByteOf(s.log.accepted, i, k) ensures l.wire[i].fd in within {
      NewBytesWithin(s, a, within, i, k);
    }
    LongerLogKeepsWithin(s.log, l, from, within, k);
  }

  lemma StepGuards(s: State, a: Action, within: set<Fd>, k: nat)
    requires Inv(s) && Enabled(s, a) && (Confined(s, within, k) || Done(s, k))
    ensures Confined(Apply(s, a), within, k) || Done(Apply(s, a), k)
  {
    Single(s, a);
    FinishesGrow(s, [a]);
    if !Active(s) {
      DisposedStays(s, [a]);
    } else if !Done(s, k) {
      StepStaysConfined(s, a, within, k);
    }
  }

  lemma {:induction false} RunKeepsWithin(s: State, acts: seq<Action>, from: nat, within: set<Fd>, k: nat)
    requires Inv(s) && Legal(s, acts) && k < |s.log.accepted|
    requires Confined(s, within, k) || Done(s, k)
    requires KeptWithin(s.log, from, within, k)
    ensures KeptWithin(Exec(s, acts).log, from, within, k)
    decreases |acts|
  {
    if acts == [] {
    } else {
      StepKeepsWithin(s, acts[0], from, within, k);
      StepGuards(s, acts[0], within, k);
      StepKeepsInv(s, acts[0]);
      StepWrites(s, acts[0]);
      RunKeepsWithin(Apply(s, acts[0]), acts[1..], from, within, k);
    }
  }

  /** There is a data socket outside `within`, or there may be one. */
  ghost predicate HasOutlet(s: State, within: set<Fd>) {
    Elsewhere(s, within) || (!s.stop && Listening(s))
  }

  lemma NoOutletConfines(s: State, within: set<Fd>, k: nat)
    requires Inv(s) && s.pc == Waiting && Still(s, k) && !HasOutlet(s, within)
    requires forall fd | fd in within :: NamedBySend(s, fd)
    ensures Confined(s, within, k)
  {
  }

  lemma NamedIsRegistered(s: State, fds: set<Fd>)
    requires RegistrationInv(s) && forall fd | fd in fds :: NamedBySend(s, fd)
    ensures fds <= s.interest.Keys
  {
    forall fd | fd in fds ensures fd in s.interest {
      assert NamedBySend(s, fd);
    }
  }

  lemma {:induction false} FreshFd(fds: set<Fd>) returns (fd: Fd)
    ensures fd >= 0 && forall f | f in fds :: f < fd
  {
    if f :| f in fds {
      var rest := FreshFd(fds - {f});
      fd := if f < rest then rest else f + 1;
      forall g | g in fds ensures g < fd {
        assert g != f ==> g in fds - {f};
      }
    } else {
      fd := 0;
    }
  }

  /** The outlet is used: the loop waits with a data socket outside `within`, if need be one it
      has just accepted. */
  lemma Outlet(s: State, within: set<Fd>) returns (t: State, fd: Fd)
    requires Inv(s) && s.pc == Waiting && HasOutlet(s, within) && within <= s.interest.Keys
    ensures Reaches(s, t) && t.pc == Waiting && t.slot == s.slot && t.log == s.log
    ensures fd in DataSockets(t) && fd !in within && t.interest[fd].writable && fd != t.server
  {
    ReachesItself(s);
    if f :| f in DataSockets(s) && f !in within {
      t, fd := s, f;
    } else {
      fd := FreshFd(s.open);
      t := AcceptClient(s, s, fd);
    }
  }

  /** Some continuation writes a byte of request `k` to a descriptor outside `within`. */
  ghost predicate GoesOutside(s: State, within: set<Fd>, k: nat) {
    exists t: State, i: nat ::
      && Reaches(s, t) && |s.log.wire| <= i < |t.log.wire|
      && ByteOf(t.log.accepted, i, k) && t.log.wire[i].fd !in within
  }

  lemma StaysInside(s: State, within: set<Fd>, k: nat)
    requires Inv(s) && s.pc == Waiting && Still(s, k) && !HasOutlet(s, within)
    requires forall fd | fd in within :: NamedBySend(s, fd)
    ensures !GoesOutside(s, within, k)
  {
    NoOutletConfines(s, within, k);
    forall t: State | Reaches(s, t) ensures KeptWithin(t.log, |s.log.wire|, within, k) {
      var acts: seq<Action> :| Legal(s, acts) && Exec(s, acts) == t;
      RunKeepsWithin(s, acts, |s.log.wire|, within, k);
    }
  }

  /** The next byte of the wire is one of the request in flight. */
  lemma NextByteIsOf(s: State)
    requires WireInv(s) && InFlight(s) && s.slot.value.offset < |s.slot.value.data|
    ensures ByteOf(s.log.accepted, |s.log.wire|, |s.log.accepted| - 1)
  {
    assert |Bytes(s.log.wire)| == |s.log.wire|;
  }

  /** For any set of descriptors named by sends: some continuation writes a byte of the request
      in flight outside the set exactly when another data socket is registered, or the loop
      has yet to be stopped and still hears its listener. */
  lemma GoesOutsideIff(s: State, within: set<Fd>, k: nat)
    requires Reachable(s) && s.pc == Waiting && InFlight(s) && s.slot.value.offset < |s.slot.value.data|
    requires k == |s.log.accepted| - 1 && forall fd | fd in within :: NamedBySend(s, fd)
    ensures GoesOutside(s, within, k) <==> Elsewhere(s, within) || (!s.stop && Listening(s))
  {
    ReachableInv(s);
    if HasOutlet(s, within) {
      NamedIsRegistered(s, within);
      var t, fd := Outlet(s, within);
      t := WriteByte(s, t, fd);
      NextByteIsOf(s);
      assert t.log.wire[|s.log.wire|].fd == fd;
    } else {
      StaysInside(s, within, k);
    }
  }

  /** For the target alone: a byte of the request in flight can go astray exactly then. */
  lemma RequestStraysIff(s: State, k: nat)
    requires Reachable(s) && s.pc == Waiting && InFlight(s) && s.slot.value.offset < |s.slot.value.data|
    requires k == |s.log.accepted| - 1
    ensures var target := s.log.accepted[k].target;
      GoesOutside(s, {target}, k) <==>
        (exists fd :: fd in DataSockets(s) && fd != target) || (!s.stop && Listening(s))
  {
    var target := s.log.accepted[k].target;
    assert NamedBySend(s, target);
    GoesOutsideIff(s, {target}, k);
  }

  /** Before a stop, in a proactor with at most one listener that no send named: exactly when
      any descriptor but the wake pipe and the target is registered. */
  lemma RequestStraysIffOthers(s: State, k: nat)
    requires Reachable(s) && s.pc == Waiting && InFlight(s) && s.slot.value.offset < |s.slot.value.data|
    requires k == |s.log.accepted| - 1 && !s.stop
    requires forall fd | fd in s.listening :: fd == s.server && !NamedBySend(s, fd)
    ensures var target := s.log.accepted[k].target;
      GoesOutside(s, {target}, k) <==> exists fd :: fd in s.interest && fd != s.wakeRead && fd != target
  {
    var target := s.log.accepted[k].target;
    ReachableInv(s);
    RequestStraysIff(s, k);
    if fd :| fd in s.interest && fd != s.wakeRead && fd != target {
      if fd in s.listening {
        assert Listening(s);
      } else {
        assert fd in DataSockets(s);
      }
    }
    if Listening(s) {
      assert NamedBySend(s, target);
      assert s.server != target;
    }
  }

  // ---- A request that can move at all ----------------------------------------------------------------

  ghost predicate Moved(s: State, t: State) {
    t.log.wire != s.log.wire || |t.log.finishes| > |s.log.finishes|
  }

  lemma StandsStill(s: State, a: Action, k: nat)
    requires Inv(s) && Enabled(s, a) && Confined(s, {}, k) && k == |s.log.finishes|
    ensures Apply(s, a).log.wire == s.log.wire && Apply(s, a).log.finishes == s.log.finishes
    ensures Confined(Apply(s, a), {}, k)
  {
    StepGuards(s, a, {}, k);
    if a.Dispatch? {
      if Route(s, s.batch[0]) == WriteHandler { ConfinedWrites(s, a, {}, k); }
      OtherHandlersKeepTraffic(s.(batch := s.batch[1..]), Route(s, s.batch[0]), s.batch[0].fd, a.r);
    }
  }

  lemma {:induction false} StandsStillOverRun(s: State, acts: seq<Action>, k: nat)
    requires Inv(s) && Legal(s, acts) && Confined(s, {}, k) && k == |s.log.finishes|
    ensures Exec(s, acts).log.wire == s.log.wire && Exec(s, acts).log.finishes == s.log.finishes
    decreases |acts|
  {
    if acts == [] {
    } else {
      StandsStill(s, acts[0], k);
      StepKeepsInv(s, acts[0]);
      StandsStillOverRun(Apply(s, acts[0]), acts[1..], k);
    }
  }

  /** A request in flight, an empty one included, can move in some continuation exactly when a
      data socket is registered or the loop has yet to be stopped and still hears its listener;
      otherwise the slot stays full, and every later send is refused. */
  lemma RequestMovesIff(s: State)
    requires Reachable(s) && s.pc == Waiting && InFlight(s)
    ensures (exists t :: Reaches(s, t) && Moved(s, t)) <==>
      (exists fd :: fd in DataSockets(s)) || (!s.stop && Listening(s))
  {
    ReachableInv(s);
    var k := |s.log.finishes|;
    if HasOutlet(s, {}) {
      var u, fd := Outlet(s, {});
      var t;
      if s.slot.value.data == [] {
        t := WriteNothing(s, u, fd);
      } else {
        t := WriteByte(s, u, fd);
      }
      assert Moved(s, t);
    } else {
      NoOutletConfines(s, {}, k);
      forall t | Reaches(s, t) ensures !Moved(s, t) {
        var acts: seq<Action> :| Legal(s, acts) && Exec(s, acts) == t;
        StandsStillOverRun(s, acts, k);
      }
    }
  }

  /** A reachable run with two accepted clients in which a byte sent to the first is written
      to the second. */
  lemma MisdeliveryIsReachable(init: State, f: Fd) returns (s: State)
    requires IsInit(init) && f >= 0 && forall fd | fd in init.open :: fd < f
    ensures Reachable(s)
    ensures s.log.accepted == [Accepted(f + 1, [7])] && s.log.wire == [Sent(f + 2, 7)]
    ensures f + 1 in DataSockets(s) && f + 2 in DataSockets(s)
  {
    s := TwoClients(init, f);
    s := ReceiveByte(init, s, f + 1);
    s := Answer(init, s, f + 1, [7]);
    s := WriteByte(init, s, f + 2);
  }
}
