/** What every step of the proactor keeps, one invariant per concern, and its
    consequences for every run from the initial state. */
module EpollInvariants {
  import opened Basics
  import opened EpollModel

  // ---- The wire ---------------------------------------------------------------------

  /** The payloads of the first `n` accepted sends, one after the other. */
  ghost function Stream(accepted: seq<Accepted>, n: nat): (bytes: seq<byte>)
    requires n <= |accepted|
  {
    if n == 0 then [] else Stream(accepted, n - 1) + accepted[n - 1].payload
  }

  lemma {:induction false} StreamIgnoresLater(accepted: seq<Accepted>, later: seq<Accepted>, n: nat)
    requires n <= |accepted|
    ensures Stream(accepted + later, n) == Stream(accepted, n)
  {
    if n == 0 {
    } else {
      StreamIgnoresLater(accepted, later, n - 1);
    }
  }

  lemma {:induction false} StreamGrows(accepted: seq<Accepted>, m: nat, n: nat)
    requires m <= n <= |accepted|
    ensures Stream(accepted, m) <= Stream(accepted, n)
    decreases n
  {
    if m == n {
    } else {
      StreamGrows(accepted, m, n - 1);
    }
  }

  /** The slot holds a request that is not yet completely written. */
  predicate InFlight(s: State) { s.slot.Some? && !s.pc.InSendCallback? }

  ghost function Partial(s: State): seq<byte>
    requires s.slot.Some? ==> s.slot.value.offset <= |s.slot.value.data|
  {
    if InFlight(s) then s.slot.value.data[..s.slot.value.offset] else []
  }

  ghost predicate SlotInv(s: State) {
    && (s.slot.Some? ==> s.slot.value.offset <= |s.slot.value.data|)
    && |s.log.accepted| == |s.log.finishes| + (if InFlight(s) then 1 else 0)
    && (s.slot.Some? ==> |s.log.accepted| > 0 && s.log.accepted[|s.log.accepted| - 1].payload == s.slot.value.data)
    && (InFlight(s) ==> s.slot.value.offset < |s.slot.value.data| || s.slot.value.data == [])
    && (s.pc.InSendCallback? ==> s.slot.Some? && s.slot.value.offset == |s.slot.value.data|)
  }

  ghost predicate FinishesInv(l: Log) {
    && |l.finishes| <= |l.accepted|
    && forall k | 0 <= k < |l.finishes| ::
      l.finishes[k].payload == l.accepted[k].payload
      && l.finishes[k].wireLength == |Stream(l.accepted, k + 1)|
  }

  ghost predicate WireInv(s: State) {
    && SlotInv(s)
    && FinishesInv(s.log)
    && Bytes(s.log.wire) == Stream(s.log.accepted, |s.log.finishes|) + Partial(s)
  }

  lemma BytesOfTagged(wire: seq<Sent>, fd: Fd, bytes: seq<byte>)
    ensures Bytes(wire + Tagged(fd, bytes)) == Bytes(wire) + bytes
  {
  }

  lemma SendKeepsWire(s: State, a: Action)
    requires WireInv(s) && a.CallSend? && Enabled(s, a) && Alive(Apply(s, a))
    ensures WireInv(Apply(s, a))
  {
    if s.slot.None? {
      var later := [Accepted(a.socket, a.data)];
      forall k | 0 <= k <= |s.log.accepted| {
        StreamIgnoresLater(s.log.accepted, later, k);
      }
    }
  }

  lemma NextPart(stream: seq<byte>, data: seq<byte>, offset: nat, n: nat)
    requires offset + n <= |data|
    ensures (stream + data[..offset]) + data[offset..offset + n] == stream + data[..offset + n]
  {
    assert data[..offset] + data[offset..offset + n] == data[..offset + n];
  }

  lemma WrittenBytes(s: State, fd: Fd, n: nat)
    requires WireInv(s) && InFlight(s) && n <= |s.slot.value.data| - s.slot.value.offset
    ensures var q := s.slot.value;
      Bytes(s.log.wire + Tagged(fd, q.data[q.offset..q.offset + n]))
      == Stream(s.log.accepted, |s.log.finishes|) + q.data[..q.offset + n]
  {
    var q := s.slot.value;
    BytesOfTagged(s.log.wire, fd, q.data[q.offset..q.offset + n]);
    NextPart(Stream(s.log.accepted, |s.log.finishes|), q.data, q.offset, n);
  }

  /** The log with the finish of its last accepted payload added. */
  lemma FinishKeepsFinishes(l: Log, f: Finish)
    requires FinishesInv(l) && |l.accepted| == |l.finishes| + 1
    requires f.payload == l.accepted[|l.finishes|].payload && f.wireLength == |Stream(l.accepted, |l.accepted|)|
    ensures FinishesInv(l.(finishes := l.finishes + [f]))
  {
  }

  lemma LastWriteKeepsWire(s: State, fd: Fd, r: SysResult)
    requires WireInv(s) && WriteContract(s, r) && s.pc == Dispatching && s.slot.Some?
    requires r.n >= 0 && s.slot.value.offset + r.n == |s.slot.value.data|
    ensures WireInv(HandleWrite(s, fd, r))
  {
    var q, n, t := s.slot.value, |s.log.finishes|, HandleWrite(s, fd, r);
    WrittenBytes(s, fd, r.n);
    assert q.data[..q.offset + r.n] == q.data;
    assert t.log.wire == s.log.wire + Tagged(fd, q.data[q.offset..q.offset + r.n]);
    assert Bytes(t.log.wire) == Stream(s.log.accepted, n + 1);
    var l := s.log.(wire := t.log.wire);
    FinishKeepsFinishes(l, t.log.finishes[n]);
    assert t.log == l.(finishes := l.finishes + [t.log.finishes[n]]);
  }

  lemma WriteKeepsWire(s: State, fd: Fd, r: SysResult)
    requires WireInv(s) && WriteContract(s, r) && s.pc == Dispatching
    ensures WireInv(HandleWrite(s, fd, r))
  {
    if s.slot.Some? && r.n >= 0 {
      if s.slot.value.offset + r.n < |s.slot.value.data| {
        WrittenBytes(s, fd, r.n);
      } else {
        LastWriteKeepsWire(s, fd, r);
      }
    }
  }

  /** `s` and `t` agree on everything the wire invariant looks at. */
  ghost predicate SameTraffic(s: State, t: State) {
    && s.slot == t.slot && s.pc.InSendCallback? == t.pc.InSendCallback?
    && s.log.accepted == t.log.accepted && s.log.finishes == t.log.finishes && s.log.wire == t.log.wire
  }

  lemma FrameWire(s: State, t: State)
    requires WireInv(s) && SameTraffic(s, t)
    ensures WireInv(t)
  {
  }

  /** Only the write handler touches the slot and the wire. */
  lemma OtherHandlersKeepTraffic(s: State, h: Handler, fd: Fd, r: SysResult)
    requires h != WriteHandler && HandlerContract(s, h, fd, r) && s.pc == Dispatching
    ensures SameTraffic(s, Handle(s, h, fd, r))
  {
  }

  lemma DispatchKeepsWire(s: State, a: Action)
    requires WireInv(s) && a.Dispatch? && Enabled(s, a)
    ensures WireInv(Apply(s, a))
  {
    var s1, h, fd := s.(batch := s.batch[1..]), Route(s, s.batch[0]), s.batch[0].fd;
    assert SameTraffic(s, s1);
    if h == WriteHandler {
      WriteKeepsWire(s1, fd, a.r);
    } else {
      OtherHandlersKeepTraffic(s1, h, fd, a.r);
      FrameWire(s1, Apply(s, a));
    }
  }

  lemma StepKeepsWire(s: State, a: Action)
    requires WireInv(s) && Enabled(s, a) && Alive(Apply(s, a))
    ensures WireInv(Apply(s, a))
  {
    if a.CallSend? {
      SendKeepsWire(s, a);
    } else if a.Dispatch? {
      DispatchKeepsWire(s, a);
    } else if !(a.CallbackReturns? && s.pc.InSendCallback?) {
      FrameWire(s, Apply(s, a));
    }
  }

  // ---- The heap -----------------------------------------------------------------------

  /** Exactly the cells of the request in the slot are live; after cleanup none is. */
  ghost predicate HeapInv(s: State) {
    && !s.heap.corrupt
    && s.heap.structs == (if s.slot.Some? && !s.pc.Disposed? then {s.slot.value.structAt} else {})
    && s.heap.buffers == (if s.slot.Some? && !s.pc.Disposed? then {s.slot.value.bufferAt} else {})
    && (s.pc.InSendCallback? ==> s.slot.Some?)
  }

  lemma HandlerKeepsHeap(s: State, h: Handler, fd: Fd, r: SysResult)
    requires HeapInv(s) && HandlerContract(s, h, fd, r) && s.pc == Dispatching
    ensures HeapInv(Handle(s, h, fd, r))
  {
  }

  lemma StepKeepsHeap(s: State, a: Action)
    requires HeapInv(s) && Enabled(s, a) && Alive(Apply(s, a))
    ensures HeapInv(Apply(s, a))
  {
    if a.Dispatch? {
      HandlerKeepsHeap(s.(batch := s.batch[1..]), Route(s, s.batch[0]), s.batch[0].fd, a.r);
    }
  }

  // ---- Descriptors and masks ------------------------------------------------------------

  /** Registered descriptors that are neither the wake pipe nor listening. */
  function DataSockets(s: State): set<Fd> { s.interest.Keys - {s.wakeRead} - s.listening }

  ghost predicate NamedBySend(s: State, fd: Fd) {
    exists k :: 0 <= k < |s.log.accepted| && s.log.accepted[k].target == fd
  }

  ghost predicate RegistrationInv(s: State) {
    && s.interest.Keys <= s.open
    && (forall fd | fd in s.open :: fd >= 0)
    && s.wakeRead in s.open && s.wakeWrite in s.open
    && s.wakeRead in s.interest && s.wakeRead !in s.listening
    && s.listening <= s.interest.Keys
    && (s.server == -1 || s.server in s.listening)
    && (forall k | 0 <= k < |s.log.accepted| ::
          s.log.accepted[k].target in s.interest && s.interest[s.log.accepted[k].target] == OUT_ONLY)
    && (forall i | 0 <= i < |s.log.wire| :: s.log.wire[i].fd in DataSockets(s))
    && (s.pc.InAcceptCallback? ==> s.pc.client in s.open && s.pc.client !in s.interest)
  }

  /** The wake pipe and listening descriptors are watched for input, all others for both, and
      what a send has named for output alone. */
  ghost function RightMask(s: State, fd: Fd): Mask {
    if NamedBySend(s, fd) then OUT_ONLY else if fd in DataSockets(s) then IN_OUT else IN_ONLY
  }

  ghost predicate MaskInv(s: State) {
    forall fd | fd in s.interest :: s.interest[fd] == RightMask(s, fd)
  }

  /** Outside the batch loop there is no batch. */
  predicate BatchOver(s: State) {
    s.pc == App || s.pc == LoopTest || s.pc == Waiting || s.pc == Disposed ==> s.batch == []
  }

  ghost predicate BatchInv(s: State) {
    && |s.batch| <= MAX_EVENTS
    && (forall i | 0 <= i < |s.batch| :: s.batch[i].fd in s.interest)
    && (forall i | 0 <= i < |s.batch| && s.batch[i].fd in s.listening :: s.batch[i].readable && !s.batch[i].writable)
    && (forall i, j | 0 <= i < j < |s.batch| :: s.batch[i].fd != s.batch[j].fd)
    && BatchOver(s)
  }

  /** `s` and `t` agree on everything these invariants look at, but for `t` being in an
      accept callback that `s` is not in. */
  ghost predicate SameDescriptors(s: State, t: State) {
    && s.open == t.open && s.listening == t.listening && s.interest == t.interest && s.server == t.server
    && s.wakeRead == t.wakeRead && s.wakeWrite == t.wakeWrite
    && s.log.accepted == t.log.accepted && s.log.wire == t.log.wire
    && (t.pc.InAcceptCallback? ==> s.pc == t.pc)
  }

  lemma FrameRegistration(s: State, t: State)
    requires RegistrationInv(s) && SameDescriptors(s, t)
    ensures RegistrationInv(t)
  {
  }

  /** `t` is `s` with `fd` registered, as the new listener or not. */
  ghost predicate Registers(s: State, fd: Fd, mask: Mask, listener: bool, t: State) {
    && t.open == s.open + {fd} && t.interest == s.interest[fd := mask]
    && t.listening == s.listening + (if listener then {fd} else {})
    && t.server == (if listener then fd else s.server)
    && t.wakeRead == s.wakeRead && t.wakeWrite == s.wakeWrite && t.log == s.log
    && (t.pc.InAcceptCallback? ==> s.pc == t.pc && fd !in s.open)
  }

  lemma RegisterKeepsRegistration(s: State, fd: Fd, mask: Mask, listener: bool, t: State)
    requires RegistrationInv(s) && Registers(s, fd, mask, listener, t) && fd >= 0 && fd !in s.interest
    ensures RegistrationInv(t)
  {
    assert DataSockets(s) <= DataSockets(t);
  }

  lemma RegisterKeepsMasks(s: State, fd: Fd, mask: Mask, listener: bool, t: State)
    requires RegistrationInv(s) && MaskInv(s) && Registers(s, fd, mask, listener, t) && fd !in s.interest
    requires mask == if listener then IN_ONLY else IN_OUT
    ensures MaskInv(t)
  {
    forall f | f in t.interest
      ensures t.interest[f] == RightMask(t, f)
    {
      assert NamedBySend(s, f) <==> NamedBySend(t, f);
    }
  }

  lemma OpenersRegister(s: State, fd: Fd, ok: bool)
    requires fd == -1 || Fresh(s, fd)
    ensures Alive(StartServer(s, fd, ok)) ==>
      Fresh(s, fd) && fd !in s.interest && Registers(s, fd, IN_ONLY, true, StartServer(s, fd, ok))
    ensures Alive(Connect(s, fd, ok)) ==>
      Fresh(s, fd) && fd !in s.interest && Registers(s, fd, IN_OUT, false, Connect(s, fd, ok))
  {
  }

  lemma SendKeepsRegistration(s: State, a: Action)
    requires RegistrationInv(s) && a.CallSend? && Enabled(s, a) && Alive(Apply(s, a))
    ensures RegistrationInv(Apply(s, a))
  {
    assert DataSockets(s) == DataSockets(Apply(s, a));
  }

  lemma SendKeepsMasks(s: State, a: Action)
    requires MaskInv(s) && a.CallSend? && Enabled(s, a) && Alive(Apply(s, a))
    ensures MaskInv(Apply(s, a))
  {
    var t := Apply(s, a);
    if s.slot.None? {
      var n := |s.log.accepted|;
      assert t.log.accepted[n].target == a.socket;
      assert forall k | 0 <= k < n :: t.log.accepted[k] == s.log.accepted[k];
      assert DataSockets(t) == DataSockets(s);
      forall f | f in t.interest && f != a.socket ensures NamedBySend(t, f) <==> NamedBySend(s, f) {
        if k :| 0 <= k < n && s.log.accepted[k].target == f {
          assert t.log.accepted[k].target == f;
        }
      }
    }
  }

  lemma WriteKeepsRegistration(s: State, fd: Fd, r: SysResult)
    requires RegistrationInv(s) && WriteContract(s, r) && fd in DataSockets(s) && s.pc == Dispatching
    ensures RegistrationInv(HandleWrite(s, fd, r))
  {
  }

  lemma FrameMasks(s: State, t: State)
    requires MaskInv(s) && s.interest == t.interest && s.listening == t.listening && s.wakeRead == t.wakeRead
    requires s.log.accepted == t.log.accepted
    ensures MaskInv(t)
  {
    forall f | f in t.interest
      ensures t.interest[f] == RightMask(t, f)
    {
      assert NamedBySend(s, f) <==> NamedBySend(t, f);
    }
  }

  /** The close in the data handler is always the last thing the process does: the
      EPOLL_CTL_DEL after it names a closed descriptor. */
  lemma FailedReadHalts(s: State, fd: Fd, r: SysResult)
    requires r.n <= 0
    ensures HandleData(s, fd, r).pc == Halted
  {
  }

  /** Only the accept handler touches what epoll watches. */
  lemma OtherHandlersKeepDescriptors(s: State, h: Handler, fd: Fd, r: SysResult)
    requires s.pc == Dispatching && HandlerContract(s, h, fd, r) && h != AcceptHandler
    requires Alive(Handle(s, h, fd, r))
    ensures var t := Handle(s, h, fd, r);
      && s.open == t.open && s.listening == t.listening && s.interest == t.interest && s.server == t.server
      && s.wakeRead == t.wakeRead && s.wakeWrite == t.wakeWrite && s.log.accepted == t.log.accepted
      && !t.pc.InAcceptCallback? && (h != WriteHandler ==> s.log.wire == t.log.wire)
  {
    if h == DataHandler && r.n <= 0 {
      FailedReadHalts(s, fd, r);
    }
  }

  /** Accepting leaves the client in the hands of the callback, or registered. */
  lemma AcceptRegisters(s: State, fd: Fd, r: SysResult)
    requires s.pc == Dispatching && Alive(HandleAccept(s, fd, r)) && r.n != -1
    ensures var t := HandleAccept(s, fd, r);
      if s.callbacks.accept then t == s.(open := s.open + {r.n}, pc := InAcceptCallback(fd, r.n))
      else Registers(s, r.n, IN_OUT, false, t)
  {
  }

  lemma DispatchKeepsRegistration(s: State, a: Action)
    requires RegistrationInv(s) && BatchInv(s) && a.Dispatch? && Enabled(s, a) && Alive(Apply(s, a))
    ensures RegistrationInv(Apply(s, a))
  {
    var e, s1, t := s.batch[0], s.(batch := s.batch[1..]), Apply(s, a);
    FrameRegistration(s, s1);
    match Route(s, e)
    case AcceptHandler =>
      if a.r.n == -1 {
      } else {
        AcceptRegisters(s1, e.fd, a.r);
        if !s.callbacks.accept { RegisterKeepsRegistration(s1, a.r.n, IN_OUT, false, t); }
      }
    case WriteHandler => WriteKeepsRegistration(s1, e.fd, a.r);
    case h =>
      OtherHandlersKeepDescriptors(s1, h, e.fd, a.r);
      FrameRegistration(s1, t);
  }

  lemma ReturnKeepsRegistration(s: State, a: Action)
    requires RegistrationInv(s) && a.CallbackReturns? && Enabled(s, a) && Alive(Apply(s, a))
    ensures RegistrationInv(Apply(s, a))
  {
    if s.pc.InAcceptCallback? {
      RegisterKeepsRegistration(s, s.pc.client, IN_OUT, false, Apply(s, a));
    } else {
      FrameRegistration(s, Apply(s, a));
    }
  }

  lemma StepKeepsRegistration(s: State, a: Action)
    requires RegistrationInv(s) && BatchInv(s) && Enabled(s, a) && Alive(Apply(s, a)) && !a.CallCleanup?
    ensures RegistrationInv(Apply(s, a))
  {
    var t := Apply(s, a);
    match a
    case CallSend(_, _, _, _) => SendKeepsRegistration(s, a);
    case CallStartServer(fd, ok) =>
      OpenersRegister(s, fd, ok);
      RegisterKeepsRegistration(s, fd, IN_ONLY, true, t);
    case CallConnect(fd, ok) =>
      OpenersRegister(s, fd, ok);
      RegisterKeepsRegistration(s, fd, IN_OUT, false, t);
    case Dispatch(_) => DispatchKeepsRegistration(s, a);
    case CallbackReturns(_) => ReturnKeepsRegistration(s, a);
    case _ => FrameRegistration(s, t);
  }

  lemma DispatchKeepsMasks(s: State, a: Action)
    requires RegistrationInv(s) && MaskInv(s) && a.Dispatch? && Enabled(s, a) && Alive(Apply(s, a))
    ensures MaskInv(Apply(s, a))
  {
    var e, s1, t := s.batch[0], s.(batch := s.batch[1..]), Apply(s, a);
    var h := Route(s, e);
    FrameMasks(s, s1);
    if h != AcceptHandler {
      OtherHandlersKeepDescriptors(s1, h, e.fd, a.r);
      FrameMasks(s1, t);
    } else if a.r.n != -1 {
      AcceptRegisters(s1, e.fd, a.r);
      if s.callbacks.accept {
        FrameMasks(s1, t);
      } else {
        RegisterKeepsMasks(s1, a.r.n, IN_OUT, false, t);
      }
    }
  }

  lemma ReturnKeepsMasks(s: State, a: Action)
    requires RegistrationInv(s) && MaskInv(s) && a.CallbackReturns? && Enabled(s, a) && Alive(Apply(s, a))
    ensures MaskInv(Apply(s, a))
  {
    if s.pc.InAcceptCallback? {
      RegisterKeepsMasks(s, s.pc.client, IN_OUT, false, Apply(s, a));
    } else {
      FrameMasks(s, Apply(s, a));
    }
  }

  lemma StepKeepsMasks(s: State, a: Action)
    requires RegistrationInv(s) && MaskInv(s) && Enabled(s, a) && Alive(Apply(s, a)) && !a.CallCleanup?
    ensures MaskInv(Apply(s, a))
  {
    var t := Apply(s, a);
    match a
    case CallSend(_, _, _, _) => SendKeepsMasks(s, a);
    case CallStartServer(fd, ok) =>
      OpenersRegister(s, fd, ok);
      RegisterKeepsMasks(s, fd, IN_ONLY, true, t);
    case CallConnect(fd, ok) =>
      OpenersRegister(s, fd, ok);
      RegisterKeepsMasks(s, fd, IN_OUT, false, t);
    case Dispatch(_) => DispatchKeepsMasks(s, a);
    case CallbackReturns(_) => ReturnKeepsMasks(s, a);
    case _ => FrameMasks(s, t);
  }

  /** How a run may change the descriptors: none is closed or deregistered, a mask changes
      only to EPOLLOUT, and only a new descriptor can become a listener. */
  ghost predicate Grows(s: State, t: State) {
    && t.wakeRead == s.wakeRead
    && s.open <= t.open
    && s.interest.Keys <= t.interest.Keys
    && (forall fd | fd in s.interest :: t.interest[fd] == s.interest[fd] || t.interest[fd] == OUT_ONLY)
    && s.listening <= t.listening && (t.listening - s.listening) !! s.open
    && (t.server == s.server || t.server !in s.open)
    && s.log.accepted <= t.log.accepted
  }

  lemma DispatchGrows(s: State, a: Action)
    requires a.Dispatch? && Enabled(s, a) && Alive(Apply(s, a))
    ensures Grows(s, Apply(s, a))
  {
    var e, s1 := s.batch[0], s.(batch := s.batch[1..]);
    var h := Route(s, e);
    if h != AcceptHandler {
      OtherHandlersKeepDescriptors(s1, h, e.fd, a.r);
    } else if a.r.n != -1 {
      AcceptRegisters(s1, e.fd, a.r);
    }
  }

  lemma StepGrows(s: State, a: Action)
    requires Enabled(s, a) && Alive(Apply(s, a)) && !a.CallCleanup?
    ensures Grows(s, Apply(s, a))
  {
    match a
    case Dispatch(_) => DispatchGrows(s, a);
    case CallSend(_, _, _, _) =>
    case CallStartServer(fd, ok) => OpenersRegister(s, fd, ok);
    case CallConnect(fd, ok) => OpenersRegister(s, fd, ok);
    case CallbackReturns(_) =>
    case _ =>
  }

  lemma BatchShrinks(s: State, t: State)
    requires BatchInv(s) && s.interest.Keys <= s.open && Grows(s, t)
    requires t.batch == s.batch || (s.batch != [] && t.batch == s.batch[1..])
    requires BatchOver(t)
    ensures BatchInv(t)
  {
  }

  lemma NewBatch(s: State, t: State)
    requires ValidBatch(s, t.batch) && t.interest == s.interest && t.listening == s.listening && t.pc == Dispatching
    ensures BatchInv(t)
  {
    forall i | 0 <= i < |t.batch|
      ensures t.batch[i].fd in t.interest
      ensures t.batch[i].fd in t.listening ==> t.batch[i].readable && !t.batch[i].writable
    {
      assert Reportable(s, t.batch[i]);
    }
  }

  lemma HandlersKeepBatch(s: State, h: Handler, fd: Fd, r: SysResult)
    requires HandlerContract(s, h, fd, r)
    ensures Handle(s, h, fd, r).batch == s.batch
  {
  }

  lemma StepShrinksBatch(s: State, a: Action)
    requires Enabled(s, a) && !a.WaitReturns?
    ensures Apply(s, a).batch == if a.Dispatch? then s.batch[1..] else s.batch
  {
    if a.Dispatch? {
      HandlersKeepBatch(s.(batch := s.batch[1..]), Route(s, s.batch[0]), s.batch[0].fd, a.r);
    }
  }

  lemma HandlersStayInLoop(s: State, h: Handler, fd: Fd, r: SysResult)
    requires HandlerContract(s, h, fd, r) && s.pc == Dispatching
    ensures var t := Handle(s, h, fd, r); t.pc == Dispatching || InCallback(t) || !Alive(t)
  {
  }

  lemma StepEmptiesBatch(s: State, a: Action)
    requires BatchOver(s) && Enabled(s, a) && !a.WaitReturns?
    ensures BatchOver(Apply(s, a))
  {
    StepShrinksBatch(s, a);
    if a.Dispatch? {
      HandlersStayInLoop(s.(batch := s.batch[1..]), Route(s, s.batch[0]), s.batch[0].fd, a.r);
    }
  }

  lemma StepKeepsBatch(s: State, a: Action)
    requires BatchInv(s) && (s.pc == Disposed || s.interest.Keys <= s.open) && Enabled(s, a) && Alive(Apply(s, a))
    ensures BatchInv(Apply(s, a))
  {
    if a.WaitReturns? {
      NewBatch(s, Apply(s, a));
    } else if s.pc == Disposed || a.CallCleanup? {
      assert Apply(s, a).batch == [];
    } else {
      StepGrows(s, a);
      StepShrinksBatch(s, a);
      StepEmptiesBatch(s, a);
      BatchShrinks(s, Apply(s, a));
    }
  }

  // ---- The completion callback ------------------------------------------------------------------

  /** A completion callback that runs was called for the last finish, with the descriptor that
      the last byte of the request, if it had any, was written to. */
  ghost predicate CallbackInv(s: State) {
    s.pc.InSendCallback? ==>
      && s.log.finishes != [] && s.slot.Some?
      && s.log.finishes[|s.log.finishes| - 1].fd == s.pc.fd
      && (s.slot.value.data != [] ==> s.log.wire != [] && s.log.wire[|s.log.wire| - 1].fd == s.pc.fd)
  }

  lemma WriteKeepsCallback(s: State, fd: Fd, r: SysResult)
    requires SlotInv(s) && s.pc == Dispatching && WriteContract(s, r)
    ensures CallbackInv(HandleWrite(s, fd, r))
  {
  }

  lemma StepKeepsCallback(s: State, a: Action)
    requires CallbackInv(s) && SlotInv(s) && Enabled(s, a)
    ensures CallbackInv(Apply(s, a))
  {
    if a.Dispatch? {
      var s1, h := s.(batch := s.batch[1..]), Route(s, s.batch[0]);
      if h == WriteHandler {
        WriteKeepsCallback(s1, s.batch[0].fd, a.r);
      } else {
        OtherHandlersKeepTraffic(s1, h, s.batch[0].fd, a.r);
      }
    }
  }

  // ---- The wake pipe and the stop flag -----------------------------------------------------

  /** A wake event in the batch still has its byte in the pipe. */
  ghost predicate PipeInv(s: State) {
    forall i | 0 <= i < |s.batch| :: s.batch[i].fd == s.wakeRead ==> s.pipe > 0
  }

  lemma OtherHandlersKeepPipe(s: State, h: Handler, fd: Fd, r: SysResult)
    requires HandlerContract(s, h, fd, r) && h != WakeHandler && s.pc == Dispatching
    ensures var t := Handle(s, h, fd, r);
      t.pc != Stuck && t.pipe == s.pipe && t.batch == s.batch && t.wakeRead == s.wakeRead
  {
  }

  lemma HandlerKeepsPipe(s: State, h: Handler, fd: Fd, r: SysResult)
    requires HandlerContract(s, h, fd, r)
    requires h == WakeHandler ==> s.pipe > 0 && forall i | 0 <= i < |s.batch| :: s.batch[i].fd != s.wakeRead
    requires forall i | 0 <= i < |s.batch| :: s.batch[i].fd == s.wakeRead ==> s.pipe > 0
    requires s.pc == Dispatching
    ensures Handle(s, h, fd, r).pc != Stuck && PipeInv(Handle(s, h, fd, r))
  {
    if h != WakeHandler {
      OtherHandlersKeepPipe(s, h, fd, r);
    }
  }

  /** The one-byte read of the loop never meets an empty pipe. */
  lemma StepKeepsPipe(s: State, a: Action)
    requires PipeInv(s) && BatchInv(s) && Enabled(s, a)
    ensures Apply(s, a).pc != Stuck
    ensures Alive(Apply(s, a)) ==> PipeInv(Apply(s, a))
  {
    if a.WaitReturns? {
      forall i | 0 <= i < |a.events| && a.events[i].fd == s.wakeRead ensures s.pipe > 0 {
        assert Reportable(s, a.events[i]);
      }
    } else if a.Dispatch? {
      var s1, h := s.(batch := s.batch[1..]), Route(s, s.batch[0]);
      assert s.batch[0].fd == s.wakeRead ==> forall i | 0 < i < |s.batch| :: s.batch[i].fd != s.wakeRead;
      HandlerKeepsPipe(s1, h, s.batch[0].fd, a.r);
    }
  }

  ghost predicate StopInv(s: State) {
    && (s.stoppers != {} ==> s.stop)
    && (s.pc == Waiting && s.stop ==> s.pipe > 0 || s.stoppers != {})
    && (s.pc == LoopTest || s.pc == Waiting || s.pc == Dispatching ==> LOOP !in s.stoppers)
  }

  lemma HandlerKeepsStop(s: State, h: Handler, fd: Fd, r: SysResult)
    requires StopInv(s) && s.pc == Dispatching && HandlerContract(s, h, fd, r) && Alive(Handle(s, h, fd, r))
    ensures StopInv(Handle(s, h, fd, r))
  {
  }

  lemma StepKeepsStop(s: State, a: Action)
    requires StopInv(s) && Enabled(s, a) && Alive(Apply(s, a))
    ensures StopInv(Apply(s, a))
  {
    if a.Dispatch? {
      HandlerKeepsStop(s.(batch := s.batch[1..]), Route(s, s.batch[0]), s.batch[0].fd, a.r);
    } else if a.StopWake? || a.CallWake? {
      assert Apply(s, a).pipe > 0;
    } else if a.RaiseStop? {
      assert a.tid in Apply(s, a).stoppers;
    }
  }

  // ---- All of it, over runs --------------------------------------------------------------------

  ghost predicate Inv(s: State) {
    && s.pc != Stuck
    && (s.pc == Halted || (
          && WireInv(s) && HeapInv(s) && CallbackInv(s) && BatchInv(s) && PipeInv(s) && StopInv(s)
          && (s.pc == Disposed || (RegistrationInv(s) && MaskInv(s)))))
  }

  lemma InitHasInv(s: State)
    requires IsInit(s)
    ensures Inv(s)
  {
    assert s.wakeRead >= 0;
  }

  lemma StepKeepsInv(s: State, a: Action)
    requires Inv(s) && Enabled(s, a)
    ensures Inv(Apply(s, a))
  {
    StepKeepsPipe(s, a);
    if Apply(s, a).pc != Halted {
      StepKeepsWire(s, a);
      StepKeepsHeap(s, a);
      StepKeepsCallback(s, a);
      StepKeepsBatch(s, a);
      StepKeepsStop(s, a);
      if Apply(s, a).pc != Disposed {
        StepKeepsRegistration(s, a);
        StepKeepsMasks(s, a);
      }
    }
  }

  lemma {:induction false} RunKeepsInv(s: State, acts: seq<Action>)
    requires Inv(s) && Legal(s, acts)
    ensures Inv(Exec(s, acts))
    decreases |acts|
  {
    if acts == [] {
    } else {
      StepKeepsInv(s, acts[0]);
      RunKeepsInv(Apply(s, acts[0]), acts[1..]);
    }
  }

  /** Some run of the kernel, the application and the threads leads from `s` to `t`. */
  ghost predicate Reaches(s: State, t: State) {
    exists acts: seq<Action> :: Legal(s, acts) && Exec(s, acts) == t
  }

  /** `s` is reached from a fresh proactor by some interleaving. */
  ghost predicate Reachable(s: State) {
    exists init: State :: IsInit(init) && Reaches(init, s)
  }

  lemma ReachesInv(s: State, t: State)
    requires Inv(s) && Reaches(s, t)
    ensures Inv(t)
  {
    var acts: seq<Action> :| Legal(s, acts) && Exec(s, acts) == t;
    RunKeepsInv(s, acts);
  }

  lemma ReachableInv(s: State)
    requires Reachable(s)
    ensures Inv(s)
  {
    var init: State :| IsInit(init) && Reaches(init, s);
    InitHasInv(init);
    ReachesInv(init, s);
  }

  lemma ReachesItself(s: State)
    ensures Reaches(s, s)
  {
    assert Legal(s, []) && Exec(s, []) == s;
  }

  lemma ReachesOn(s: State, t: State, acts: seq<Action>)
    requires Reaches(s, t) && Legal(t, acts)
    ensures Reaches(s, Exec(t, acts))
  {
    var front: seq<Action> :| Legal(s, front) && Exec(s, front) == t;
    RunsCompose(s, front, acts);
  }

  lemma ReachRun(s: State, acts: seq<Action>)
    requires Reachable(s) && Legal(s, acts)
    ensures Reachable(Exec(s, acts))
  {
    var init: State :| IsInit(init) && Reaches(init, s);
    ReachesOn(init, s, acts);
  }

  /** One more step of a run from `from`. */
  lemma Take(from: State, s: State, a: Action) returns (t: State)
    requires Reaches(from, s) && Enabled(s, a)
    ensures t == Apply(s, a) && Reaches(from, t)
  {
    Single(s, a);
    ReachesOn(from, s, [a]);
    t := Apply(s, a);
  }
}
