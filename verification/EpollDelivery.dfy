/** Where the bytes of a request are on the wire, and why a descriptor that was sent on is
    never heard again. */
module EpollDelivery {
  import opened Basics
  import opened EpollModel
  import opened EpollInvariants
  import opened EpollSend
  import opened EpollRuns

  /** The i-th byte of the wire is a byte of the k-th accepted payload. */
  ghost predicate ByteOf(accepted: seq<Accepted>, i: nat, k: nat) {
    k < |accepted| && |Stream(accepted, k)| <= i < |Stream(accepted, k + 1)|
  }

  /** The bytes of a payload inside the stream. */
  lemma ByteInStream(accepted: seq<Accepted>, n: nat, i: nat, k: nat)
    requires k < n <= |accepted| && ByteOf(accepted, i, k)
    ensures i < |Stream(accepted, n)|
    ensures Stream(accepted, n)[i] == accepted[k].payload[i - |Stream(accepted, k)|]
  {
    StreamGrows(accepted, k + 1, n);
  }

  lemma StreamIsLonger(accepted: seq<Accepted>, m: nat, n: nat)
    requires m <= n <= |accepted|
    ensures |Stream(accepted, m)| <= |Stream(accepted, n)|
  {
    StreamGrows(accepted, m, n);
  }

  /** The same for a stream followed by the beginning of the next payload. */
  lemma ByteInPrefix(accepted: seq<Accepted>, n: nat, part: seq<byte>, i: nat, k: nat)
    requires n <= |accepted| && ByteOf(accepted, i, k) && i < |Stream(accepted, n)| + |part|
    requires part != [] ==> n < |accepted| && part <= accepted[n].payload
    ensures (Stream(accepted, n) + part)[i] == accepted[k].payload[i - |Stream(accepted, k)|]
  {
    if k < n {
      ByteInStream(accepted, n, i, k);
    } else {
      StreamIsLonger(accepted, n, k);
      if n < k { StreamIsLonger(accepted, n + 1, k); }
    }
  }

  lemma BytesAt(wire: seq<Sent>, i: nat)
    requires i < |wire|
    ensures i < |Bytes(wire)| && Bytes(wire)[i] == wire[i].value
  {
  }

  lemma ByteOnWire(wire: seq<Sent>, accepted: seq<Accepted>, n: nat, part: seq<byte>, i: nat, k: nat)
    requires n <= |accepted| && Bytes(wire) == Stream(accepted, n) + part
    requires part != [] ==> n < |accepted| && part <= accepted[n].payload
    requires i < |wire| && ByteOf(accepted, i, k)
    ensures wire[i].value == accepted[k].payload[i - |Stream(accepted, k)|]
  {
    BytesAt(wire, i);
    ByteInPrefix(accepted, n, part, i, k);
  }

  lemma PartOfPayload(s: State)
    requires SlotInv(s)
    ensures Partial(s) != [] ==>
      |s.log.finishes| < |s.log.accepted| && Partial(s) <= s.log.accepted[|s.log.finishes|].payload
  {
  }

  lemma DeliveryAt(s: State, fd: Fd, i: nat, k: nat)
    requires WireInv(s) && RegistrationInv(s)
    requires DataSockets(s) <= {fd} && i < |s.log.wire| && ByteOf(s.log.accepted, i, k)
    requires s.log.accepted[k].target in DataSockets(s)
    ensures s.log.wire[i] == Sent(s.log.accepted[k].target,
                                  s.log.accepted[k].payload[i - |Stream(s.log.accepted, k)|])
  {
    PartOfPayload(s);
    ByteOnWire(s.log.wire, s.log.accepted, |s.log.finishes|, Partial(s), i, k);
    assert s.log.wire[i].fd in DataSockets(s);
  }

  /** If no data socket but `fd` was ever registered, every byte of every request whose send
      named a data socket went, in place and value, to that socket. */
  lemma PerSocketDelivery(s: State, fd: Fd, i: nat, k: nat)
    requires Reachable(s) && Active(s)
    requires
      && DataSockets(s) <= {fd} && i < |s.log.wire|
      && ByteOf(s.log.accepted, i, k) && s.log.accepted[k].target in DataSockets(s)
    ensures s.log.wire[i] == Sent(s.log.accepted[k].target,
                            s.log.accepted[k].payload[i - |Stream(s.log.accepted, k)|])
  {
    ReachableInv(s);
    DeliveryAt(s, fd, i, k);
  }

  /** Only the write handler adds to the wire, and what it adds is on its descriptor. */
  lemma StepWrites(s: State, a: Action)
    requires Enabled(s, a)
    ensures s.log.wire <= Apply(s, a).log.wire && s.log.accepted <= Apply(s, a).log.accepted
    ensures forall i | |s.log.wire| <= i < |Apply(s, a).log.wire| ::
      && a.Dispatch? && Route(s, s.batch[0]) == WriteHandler
      && Apply(s, a).log.wire[i].fd == s.batch[0].fd
  {
    if a.Dispatch? && Route(s, s.batch[0]) != WriteHandler {
      OtherHandlersKeepTraffic(s.(batch := s.batch[1..]), Route(s, s.batch[0]), s.batch[0].fd, a.r);
    }
  }

  // ---- A descriptor that was sent on is muted ------------------------------------------------------

  /** The bytes the receive callback was given for `fd`. */
  ghost function ReceivedOn(chunks: seq<Chunk>, fd: Fd): seq<byte> {
    if chunks == [] then []
    else
      var last := chunks[|chunks| - 1];
      ReceivedOn(chunks[..|chunks| - 1], fd) + if last.fd == fd then last.bytes else []
  }

  lemma ReceivedOnAppend(chunks: seq<Chunk>, c: Chunk, fd: Fd)
    ensures ReceivedOn(chunks + [c], fd) == ReceivedOn(chunks, fd) + if c.fd == fd then c.bytes else []
  {
    assert (chunks + [c])[..|chunks|] == chunks;
  }

  ghost predicate Muted(s: State, fd: Fd) {
    !Active(s) ||
    (&& fd in s.interest && s.interest[fd] == OUT_ONLY && fd != s.wakeRead
     && forall i | 0 <= i < |s.batch| :: s.batch[i].fd == fd ==> !s.batch[i].readable)
  }

  lemma MutedBatch(s: State, events: seq<Event>, fd: Fd)
    requires ValidBatch(s, events) && fd in s.interest && s.interest[fd] == OUT_ONLY
    ensures forall i | 0 <= i < |events| :: events[i].fd == fd ==> !events[i].readable
  {
    forall i | 0 <= i < |events| && events[i].fd == fd ensures !events[i].readable {
      assert Reportable(s, events[i]);
    }
  }

  lemma MutedStays(s: State, a: Action, fd: Fd)
    requires Inv(s) && Enabled(s, a) && Muted(s, fd) && Active(s) && Active(Apply(s, a))
    ensures Muted(Apply(s, a), fd)
  {
    StepGrows(s, a);
    if a.WaitReturns? {
      MutedBatch(s, a.events, fd);
    } else {
      StepShrinksBatch(s, a);
    }
  }

  lemma {:induction false} MutedRun(s: State, acts: seq<Action>, fd: Fd)
    requires Inv(s) && Legal(s, acts) && Muted(s, fd)
    ensures Muted(Exec(s, acts), fd)
    decreases |acts|
  {
    if acts == [] {
    } else {
      StepKeepsInv(s, acts[0]);
      if !Active(s) {
        DisposedStays(s, acts);
      } else {
        if Active(Apply(s, acts[0])) { MutedStays(s, acts[0], fd); }
        MutedRun(Apply(s, acts[0]), acts[1..], fd);
      }
    }
  }

  lemma MutedByName(s: State, fd: Fd)
    requires Inv(s) && Active(s) && NamedBySend(s, fd) && fd != s.wakeRead
    requires forall i | 0 <= i < |s.batch| :: s.batch[i].fd == fd ==> !s.batch[i].readable
    ensures Muted(s, fd)
  {
  }

  /** Only the data handler adds to what was received. */
  lemma HandlerReceives(s: State, h: Handler, fd: Fd, r: SysResult, on: Fd)
    requires HandlerContract(s, h, fd, r)
    ensures Handle(s, h, fd, r).callbacks == s.callbacks
    ensures ReceivedOn(Handle(s, h, fd, r).log.received, on)
            == ReceivedOn(s.log.received, on)
               + if h == DataHandler && fd == on && r.n > 0 && s.callbacks.receive then r.bytes else []
  {
    ReceivedOnAppend(s.log.received, Chunk(fd, r.bytes), on);
  }

  lemma MutedReceivesNothing(s: State, a: Action, fd: Fd)
    requires Enabled(s, a) && Muted(s, fd)
    ensures ReceivedOn(Apply(s, a).log.received, fd) == ReceivedOn(s.log.received, fd)
  {
    if a.Dispatch? {
      HandlerReceives(s.(batch := s.batch[1..]), Route(s, s.batch[0]), s.batch[0].fd, a.r, fd);
    }
  }

  lemma {:induction false} MutedRunReceivesNothing(s: State, acts: seq<Action>, fd: Fd)
    requires Inv(s) && Legal(s, acts) && Muted(s, fd)
    ensures ReceivedOn(Exec(s, acts).log.received, fd) == ReceivedOn(s.log.received, fd)
    decreases |acts|
  {
    if acts == [] {
    } else {
      MutedReceivesNothing(s, acts[0], fd);
      StepKeepsInv(s, acts[0]);
      Single(s, acts[0]);
      MutedRun(s, [acts[0]], fd);
      MutedRunReceivesNothing(Apply(s, acts[0]), acts[1..], fd);
    }
  }

  /** Once a send named a socket, from the next time the loop waits no run ever gives the
      receive callback another byte of that socket; only events already in the batch can. */
  lemma SendMutesReceive(s: State, fd: Fd, more: seq<Action>)
    requires Reachable(s) && Active(s)
    requires
      && NamedBySend(s, fd) && fd in DataSockets(s)
      && (forall i | 0 <= i < |s.batch| :: s.batch[i].fd == fd ==> !s.batch[i].readable)
    requires Legal(s, more)
    ensures ReceivedOn(Exec(s, more).log.received, fd) == ReceivedOn(s.log.received, fd)
  {
    ReachableInv(s);
    MutedByName(s, fd);
    MutedRunReceivesNothing(s, more, fd);
  }

  function InputEvent(fd: Fd): Event { Event(fd, true, false, false) }

  /** The dispatcher is about to handle input of `fd`. */
  predicate HeadHasInput(s: State, fd: Fd) {
    s.pc == Dispatching && s.batch != [] && s.batch[0].fd == fd && s.batch[0].readable
  }

  /** Which handler takes the input of a registered descriptor. */
  lemma InputIsRouted(s: State, fd: Fd)
    requires RegistrationInv(s)
    ensures fd in DataSockets(s) ==> Route(s, InputEvent(fd)) == DataHandler
    ensures fd == s.server && fd in s.interest ==> Route(s, InputEvent(fd)) == AcceptHandler
  {
  }

  /** Input of a registered descriptor, a data socket or the listener, can still be reported
      by the next epoll_wait, and by any later one, exactly when no send has named it.  A
      send to the listener makes the server deaf to connections. */
  lemma InputIsHeardIff(s: State, fd: Fd)
    requires Reachable(s) && s.pc == Waiting && fd in s.interest && fd != s.wakeRead
    ensures ValidBatch(s, [InputEvent(fd)]) <==> !NamedBySend(s, fd)
    ensures (exists t :: Reaches(s, t) && HeadHasInput(t, fd)) <==> !NamedBySend(s, fd)
  {
    ReachableInv(s);
    if NamedBySend(s, fd) {
      assert !Reportable(s, [InputEvent(fd)][0]);
      MutedByName(s, fd);
      forall t | Reaches(s, t) ensures !HeadHasInput(t, fd) {
        var acts: seq<Action> :| Legal(s, acts) && Exec(s, acts) == t;
        MutedRun(s, acts, fd);
      }
    } else {
      assert Reportable(s, InputEvent(fd));
      ReachesItself(s);
      var t := Take(s, s, WaitReturns([InputEvent(fd)]));
      assert HeadHasInput(t, fd);
    }
  }

  /** The same for what is done with the input: a data socket is read, the listener accepts. */
  lemma InputIsHandledIff(s: State, fd: Fd)
    requires Reachable(s) && s.pc == Waiting
    ensures fd in DataSockets(s) ==>
      (!NamedBySend(s, fd) <==>
       exists events: seq<Event>, i: nat :: ValidBatch(s, events) && i < |events|
                                            && events[i].fd == fd && Route(s, events[i]) == DataHandler)
    ensures fd == s.server && fd != -1 ==>
      (!NamedBySend(s, fd) <==>
       exists events: seq<Event>, i: nat :: ValidBatch(s, events) && i < |events|
                                            && events[i].fd == fd && Route(s, events[i]) == AcceptHandler)
  {
    ReachableInv(s);
    if fd in s.interest && fd != s.wakeRead {
      InputIsHeardIff(s, fd);
      InputIsRouted(s, fd);
      var one := [InputEvent(fd)];
      assert one[0] == InputEvent(fd);
      forall events: seq<Event>, i: nat | ValidBatch(s, events) && i < |events| && events[i].fd == fd
        ensures Reportable(s, events[i])
      {
      }
    }
  }

  lemma ReadStale(from: State, s: State, b: Fd) returns (t: State)
    requires Reaches(from, s) && s.pc.InReceiveCallback? && s.batch == [InputEvent(b)]
    requires s.callbacks.receive && s.stoppers == {} && b in DataSockets(s) && b != s.server
    ensures Reaches(from, t) && t.log.accepted == s.log.accepted
    ensures ReceivedOn(t.log.received, b) == ReceivedOn(s.log.received, b) + [9]
  {
    t := Take(from, s, CallbackReturns(true));
    t := Take(from, t, Dispatch(SysResult(1, [9], true)));
    ReceivedOnAppend(s.log.received, Chunk(b, [9]), b);
  }

  lemma SendAcross(from: State, s: State, a: Fd, b: Fd) returns (t: State)
    requires Reaches(from, s) && s.pc == Waiting && !s.stop && s.stoppers == {} && s.callbacks.receive
    requires s.slot == None && s.heap == Heap({}, {}, false) && s.log.received == [] && s.log.accepted == []
    requires a != b && {a, b} <= DataSockets(s) && {a, b} <= s.open && s.server !in {a, b}
    requires s.interest[a].readable && s.interest[b].readable
    ensures Reaches(from, t) && t.pc == InReceiveCallback(a) && t.batch == [InputEvent(b)]
    ensures t.callbacks.receive && t.stoppers == {} && b in DataSockets(t) && b != t.server
    ensures NamedBySend(t, b) && t.log.received == [Chunk(a, [1])]
  {
    assert Reportable(s, InputEvent(a)) && Reportable(s, InputEvent(b));
    t := Take(from, s, WaitReturns([InputEvent(a), InputEvent(b)]));
    t := Take(from, t, Dispatch(SysResult(1, [1], true)));
    t := Take(from, t, CallSend(b, [7], Allocation(Some(0), Some(0)), true));
    assert t.log.accepted[0].target == b;
  }

  /** Both clients have data; the callback for the first sends to the second.  The event of
      the second is still in the batch, and its data is delivered after the send. */
  lemma StaleEventStillDelivers(init: State, f: Fd) returns (s: State, t: State)
    requires IsInit(init) && f >= 0 && forall fd | fd in init.open :: fd < f
    ensures Reachable(s) && NamedBySend(s, f + 2) && ReceivedOn(s.log.received, f + 2) == []
    ensures Reaches(s, t) && t.log.accepted == s.log.accepted && ReceivedOn(t.log.received, f + 2) == [9]
  {
    s := TwoClients(init, f);
    s := SendAcross(init, s, f + 1, f + 2);
    ReachesItself(s);
    t := ReadStale(s, s, f + 2);
    ReceivedOnAppend([], Chunk(f + 1, [1]), f + 2);
    assert [] + [Chunk(f + 1, [1])] == s.log.received;
  }
}
