/** The epoll proactor of src/util/proactor_net_epoll.c as a labelled step system.

    A `State` is everything the C file keeps in static variables, the part of the
    kernel it talks to (open descriptors, interest list, wake pipe), the heap cells
    of the send request, and a history log that no step reads.  An `Action` is one
    atomic step of the loop thread or of another thread, together with the results
    the system calls return in it.  `Enabled` states the contracts of those calls and
    where each step may happen; `Apply` is the effect. */
module EpollModel {
  import opened Basics

  const BUFFER_SIZE := 8192
  const MAX_EVENTS := 64

  /** The thread that calls `run`; every other number is some other thread. */
  const LOOP: nat := 0

  /** EPOLLIN and EPOLLOUT in an interest mask. */
  datatype Mask = Mask(readable: bool, writable: bool)

  const IN_ONLY := Mask(true, false)
  const OUT_ONLY := Mask(false, true)
  const IN_OUT := Mask(true, true)

  /** One `epoll_event`; `trouble` is EPOLLERR or EPOLLHUP, which cannot be masked. */
  datatype Event = Event(fd: Fd, readable: bool, writable: bool, trouble: bool)

  /** A send request: the copied payload, how much of it is written, and the
      addresses of the struct and of the copy.  Its length is `|data|`. */
  datatype Request = Request(data: seq<byte>, offset: nat, structAt: nat, bufferAt: nat)

  datatype Heap = Heap(structs: set<nat>, buffers: set<nat>, corrupt: bool)

  datatype Callbacks = Callbacks(receive: bool, sendComplete: bool, accept: bool)
  datatype CallbackKind = OnReceive | OnSendComplete | OnAccept

  /** Where the loop thread is.  `App` is application code outside `run`. */
  datatype Pc =
    | App
    | LoopTest
    | Waiting
    | Dispatching
    | InSendCallback(fd: Fd)
    | InReceiveCallback(fd: Fd)
    | InAcceptCallback(listener: Fd, client: Fd)
    | Disposed
    | Stuck
    | Halted

  datatype Accepted = Accepted(target: Fd, payload: seq<byte>)
  datatype Sent = Sent(fd: Fd, value: byte)
  datatype Chunk = Chunk(fd: Fd, bytes: seq<byte>)

  /** A request whose last byte was written: the descriptor it ended on, its payload and the
      length of the wire at that moment. */
  datatype Finish = Finish(fd: Fd, payload: seq<byte>, wireLength: nat)

  datatype Log = Log(accepted: seq<Accepted>, wire: seq<Sent>, finishes: seq<Finish>, received: seq<Chunk>)

  /** `stoppers` are the threads between the two statements of `stop`; `listening` are the
      open descriptors that listen(2) was called on, of which `server` is the last. */
  datatype State = State(
    pc: Pc, batch: seq<Event>, slot: Option<Request>, stop: bool, stoppers: set<nat>,
    server: Fd, client: Fd, callbacks: Callbacks,
    epollFd: Fd, wakeRead: Fd, wakeWrite: Fd,
    open: set<Fd>, listening: set<Fd>, interest: map<Fd, Mask>, pipe: nat,
    heap: Heap, log: Log)

  /** Results of the two mallocs of a send; None is a null pointer. */
  datatype Allocation = Allocation(structAt: Option<nat>, bufferAt: Option<nat>)

  /** Results of the system calls of one handler: the return value of accept, read or
      write, the bytes read, and whether the kernel grants an epoll_ctl that it may grant. */
  datatype SysResult = SysResult(n: int, bytes: seq<byte>, ctlOk: bool)

  datatype Action =
    | CallWake(tid: nat, ok: bool)
    | RaiseStop(tid: nat)
    | StopWake(tid: nat, ok: bool)
    | CallSend(socket: Fd, data: seq<byte>, alloc: Allocation, ctlOk: bool)
    | SetCallback(kind: CallbackKind, on: bool)
    | CallStartServer(fd: Fd, ok: bool)
    | CallConnect(fd: Fd, ok: bool)
    | EnterRun
    | CallCleanup
    | TestStop
    | WaitInterrupted
    | WaitFailed
    | WaitReturns(events: seq<Event>)
    | BatchDone
    | Dispatch(r: SysResult)
    | CallbackReturns(ctlOk: bool)

  /** The state `proactor_tcp_epoll_init` leaves. */
  ghost predicate IsInit(s: State) {
    && s.pc == App && s.batch == [] && s.slot == None && !s.stop && s.stoppers == {}
    && s.server == -1 && s.client == -1 && s.callbacks == Callbacks(false, false, false)
    && {s.epollFd, s.wakeRead, s.wakeWrite} <= s.open && (forall fd :: fd in s.open ==> fd >= 0)
    && s.epollFd != s.wakeRead && s.epollFd != s.wakeWrite && s.wakeRead != s.wakeWrite
    && s.listening == {} && s.interest == map[s.wakeRead := IN_ONLY] && s.pipe == 0
    && s.heap == Heap({}, {}, false) && s.log == Log([], [], [], [])
  }

  // ---- System-call contracts -------------------------------------------------

  /** A new descriptor is a number no open descriptor has. */
  predicate Fresh(s: State, fd: Fd) { fd >= 0 && fd !in s.open }

  predicate CanAdd(s: State, fd: Fd) { fd in s.open && fd !in s.interest }

  /** EPOLL_CTL_MOD and EPOLL_CTL_DEL: EBADF on a closed descriptor, ENOENT on one that
      is not on the interest list. */
  predicate CanChange(s: State, fd: Fd) { fd in s.open && fd in s.interest }

  predicate FreshAllocation(s: State, alloc: Allocation) {
    && (alloc.structAt.Some? ==> alloc.structAt.value !in s.heap.structs)
    && (alloc.bufferAt.Some? ==> alloc.bufferAt.value !in s.heap.buffers)
  }

  /** What epoll_wait may say of one descriptor.  A listening socket is only ever ready for
      input, and so is the wake pipe, when it holds a byte. */
  predicate Reportable(s: State, e: Event) {
    && e.fd in s.interest
    && (e.readable ==> s.interest[e.fd].readable)
    && (e.writable ==> s.interest[e.fd].writable)
    && (e.readable || e.writable || e.trouble)
    && (e.fd == s.wakeRead ==> e.readable && s.pipe > 0)
    && (e.fd in s.listening ==> e.readable && !e.writable)
  }

  /** What epoll_wait may return: 1 to MAX_EVENTS events, one per descriptor. */
  predicate ValidBatch(s: State, events: seq<Event>) {
    && 1 <= |events| <= MAX_EVENTS
    && (forall i | 0 <= i < |events| :: Reportable(s, events[i]))
    && (forall i, j | 0 <= i < j < |events| :: events[i].fd != events[j].fd)
  }

  predicate ReadContract(r: SysResult) {
    r.n == -1 || r.n == 0 || 1 <= r.n == |r.bytes| <= BUFFER_SIZE
  }

  predicate WriteContract(s: State, r: SysResult) {
    s.slot.Some? ==> r.n == -1 || 0 <= r.n <= |s.slot.value.data| - s.slot.value.offset
  }

  datatype Handler = WakeHandler | AcceptHandler | DataHandler | WriteHandler | NoHandler

  /** The if-chain of the batch loop: EPOLLIN is tested before EPOLLOUT. */
  function Route(s: State, e: Event): Handler {
    if e.fd == s.wakeRead then WakeHandler
    else if e.fd == s.server then AcceptHandler
    else if e.readable then DataHandler
    else if e.writable then WriteHandler
    else NoHandler
  }

  /** Reading from a listening socket fails with ENOTCONN. */
  predicate HandlerContract(s: State, h: Handler, fd: Fd, r: SysResult) {
    match h
    case WakeHandler => r.n == 1 || r.n == -1
    case AcceptHandler => r.n == -1 || Fresh(s, r.n)
    case DataHandler => ReadContract(r) && (fd in s.listening ==> r.n == -1)
    case WriteHandler => WriteContract(s, r)
    case NoHandler => true
  }

  /** A result a handler may get whatever the kernel does otherwise. */
  function BenignResult(s: State, h: Handler, fd: Fd): SysResult {
    match h
    case WakeHandler => SysResult(1, [], true)
    case DataHandler => if fd in s.listening then SysResult(-1, [], true) else SysResult(1, [0], true)
    case _ => SysResult(-1, [], true)
  }

  lemma BenignIsPossible(s: State, h: Handler, fd: Fd)
    ensures HandlerContract(s, h, fd, BenignResult(s, h, fd))
  {
  }

  // ---- Effects ------------------------------------------------------------------

  /** `handle_error`: exit(EXIT_FAILURE). */
  function Halt(s: State): State { s.(pc := Halted) }

  function Bytes(wire: seq<Sent>): seq<byte> { seq(|wire|, i requires 0 <= i < |wire| => wire[i].value) }

  function Tagged(fd: Fd, bytes: seq<byte>): seq<Sent> {
    seq(|bytes|, i requires 0 <= i < |bytes| => Sent(fd, bytes[i]))
  }

  function FreeStruct(h: Heap, at: nat): Heap {
    if at in h.structs then h.(structs := h.structs - {at}) else h.(corrupt := true)
  }

  function FreeBuffer(h: Heap, at: nat): Heap {
    if at in h.buffers then h.(buffers := h.buffers - {at}) else h.(corrupt := true)
  }

  function FreeRequest(h: Heap, r: Request): Heap {
    FreeStruct(FreeBuffer(h, r.bufferAt), r.structAt)
  }

  /** The end of the completion branch: both cells freed, the pointer cleared.  Going
      through a null pointer counts as heap corruption. */
  function ClearSlot(s: State): State {
    s.(heap := if s.slot.Some? then FreeRequest(s.heap, s.slot.value) else s.heap.(corrupt := true),
       slot := None)
  }

  function WriteWake(s: State, ok: bool): State {
    if ok && s.wakeWrite in s.open then s.(pipe := s.pipe + 1) else Halt(s)
  }

  function Send(s: State, socket: Fd, data: seq<byte>, alloc: Allocation, ctlOk: bool): State {
    if s.slot.Some? then s
    else if alloc.structAt.None? || alloc.bufferAt.None? then Halt(s)
    else
      var r := Request(data, 0, alloc.structAt.value, alloc.bufferAt.value);
      var s1 := s.(slot := Some(r),
                   heap := s.heap.(structs := s.heap.structs + {r.structAt},
                                   buffers := s.heap.buffers + {r.bufferAt}));
      if ctlOk && CanChange(s1, socket)
      then s1.(interest := s.interest[socket := OUT_ONLY],
               log := s.log.(accepted := s.log.accepted + [Accepted(socket, data)]))
      else Halt(s1)
  }

  /** EPOLL_CTL_ADD, or the error exit. */
  function Register(s: State, fd: Fd, mask: Mask, ctlOk: bool): State {
    if ctlOk && CanAdd(s, fd) then s.(interest := s.interest[fd := mask]) else Halt(s)
  }

  function StartServer(s: State, fd: Fd, ok: bool): State {
    if fd == -1 then Halt(s)
    else Register(s.(server := fd, open := s.open + {fd}, listening := s.listening + {fd}), fd, IN_ONLY, ok)
  }

  function Connect(s: State, fd: Fd, ok: bool): State {
    if fd == -1 then Halt(s) else Register(s.(client := fd, open := s.open + {fd}), fd, IN_OUT, ok)
  }

  function ReadWake(s: State, r: SysResult): State {
    if s.pipe == 0 then s.(pc := Stuck)
    else if r.n == -1 then s
    else s.(pipe := s.pipe - 1)
  }

  function HandleAccept(s: State, listener: Fd, r: SysResult): State {
    if r.n == -1 then s
    else
      var s1 := s.(open := s.open + {r.n});
      if s.callbacks.accept then s1.(pc := InAcceptCallback(listener, r.n))
      else Register(s1, r.n, IN_OUT, r.ctlOk)
  }

  /** A failed or empty read closes the descriptor first and deregisters it second. */
  function HandleData(s: State, fd: Fd, r: SysResult): State {
    if r.n <= 0 then
      var s1 := s.(open := s.open - {fd}, interest := s.interest - {fd});
      if r.ctlOk && CanChange(s1, fd) then s1 else Halt(s1)
    else if s.callbacks.receive then
      s.(log := s.log.(received := s.log.received + [Chunk(fd, r.bytes)]), pc := InReceiveCallback(fd))
    else s
  }

  function HandleWrite(s: State, fd: Fd, r: SysResult): State
    requires WriteContract(s, r)
  {
    if s.slot.None? || r.n == -1 then s
    else
      var q := s.slot.value;
      var q1 := q.(offset := q.offset + r.n);
      var wire := s.log.wire + Tagged(fd, q.data[q.offset..q1.offset]);
      var s1 := s.(slot := Some(q1), log := s.log.(wire := wire));
      if q1.offset < |q.data| then s1
      else
        var s2 := s1.(log := s1.log.(finishes := s.log.finishes + [Finish(fd, q.data, |wire|)]));
        if s.callbacks.sendComplete then s2.(pc := InSendCallback(fd)) else ClearSlot(s2)
  }

  function Handle(s: State, h: Handler, fd: Fd, r: SysResult): State
    requires HandlerContract(s, h, fd, r)
  {
    match h
    case WakeHandler => ReadWake(s, r)
    case AcceptHandler => HandleAccept(s, fd, r)
    case DataHandler => HandleData(s, fd, r)
    case WriteHandler => HandleWrite(s, fd, r)
    case NoHandler => s
  }

  function FinishCallback(s: State, ctlOk: bool): State {
    var s1 := s.(pc := Dispatching);
    match s.pc
    case InSendCallback(_) => ClearSlot(s1)
    case InAcceptCallback(_, client) => Register(s1, client, IN_OUT, ctlOk)
    case _ => s1
  }

  /** Closes the descriptors the statics name and frees a pending request; the pointer
      to that request keeps its value. */
  function Cleanup(s: State): State {
    s.(open := s.open - {s.server, s.client, s.wakeRead, s.wakeWrite, s.epollFd},
       listening := {}, interest := map[],
       heap := if s.slot.Some? then FreeRequest(s.heap, s.slot.value) else s.heap,
       pc := Disposed)
  }

  // ---- Steps -----------------------------------------------------------------------

  predicate Alive(s: State) { s.pc != Halted && s.pc != Stuck }

  predicate InCallback(s: State) {
    s.pc.InSendCallback? || s.pc.InReceiveCallback? || s.pc.InAcceptCallback?
  }

  /** The loop thread is in application code and not in the middle of `stop`. */
  predicate MayCall(s: State) { (s.pc == App || InCallback(s)) && LOOP !in s.stoppers }

  predicate ThreadMayCall(s: State, tid: nat) {
    if tid == LOOP then MayCall(s) else Alive(s) && tid !in s.stoppers
  }

  predicate Enabled(s: State, a: Action) {
    match a
    case CallWake(tid, _) => ThreadMayCall(s, tid)
    case RaiseStop(tid) => ThreadMayCall(s, tid)
    case StopWake(tid, _) => Alive(s) && tid in s.stoppers
    case CallSend(_, _, alloc, _) => MayCall(s) && FreshAllocation(s, alloc)
    case SetCallback(_, _) => MayCall(s)
    case CallStartServer(fd, _) => MayCall(s) && (fd == -1 || Fresh(s, fd))
    case CallConnect(fd, _) => MayCall(s) && (fd == -1 || Fresh(s, fd))
    case EnterRun => s.pc == App && MayCall(s)
    case CallCleanup => s.pc == App && MayCall(s)
    case TestStop => s.pc == LoopTest
    case WaitInterrupted => s.pc == Waiting
    case WaitFailed => s.pc == Waiting
    case WaitReturns(events) => s.pc == Waiting && ValidBatch(s, events)
    case BatchDone => s.pc == Dispatching && s.batch == []
    case Dispatch(r) =>
      s.pc == Dispatching && s.batch != [] && HandlerContract(s, Route(s, s.batch[0]), s.batch[0].fd, r)
    case CallbackReturns(_) => InCallback(s) && LOOP !in s.stoppers
  }

  function Toggle(c: Callbacks, kind: CallbackKind, on: bool): Callbacks {
    match kind
    case OnReceive => c.(receive := on)
    case OnSendComplete => c.(sendComplete := on)
    case OnAccept => c.(accept := on)
  }

  function Apply(s: State, a: Action): State
    requires Enabled(s, a)
  {
    match a
    case CallWake(_, ok) => WriteWake(s, ok)
    case RaiseStop(tid) => s.(stop := true, stoppers := s.stoppers + {tid})
    case StopWake(tid, ok) => WriteWake(s.(stoppers := s.stoppers - {tid}), ok)
    case CallSend(socket, data, alloc, ctlOk) => Send(s, socket, data, alloc, ctlOk)
    case SetCallback(kind, on) => s.(callbacks := Toggle(s.callbacks, kind, on))
    case CallStartServer(fd, ok) => StartServer(s, fd, ok)
    case CallConnect(fd, ok) => Connect(s, fd, ok)
    case EnterRun => s.(pc := LoopTest)
    case CallCleanup => Cleanup(s)
    case TestStop => s.(pc := if s.stop then App else Waiting)
    case WaitInterrupted => s.(pc := LoopTest)
    case WaitFailed => Halt(s)
    case WaitReturns(events) => s.(pc := Dispatching, batch := events)
    case BatchDone => s.(pc := LoopTest)
    case Dispatch(r) => Handle(s.(batch := s.batch[1..]), Route(s, s.batch[0]), s.batch[0].fd, r)
    case CallbackReturns(ctlOk) => FinishCallback(s, ctlOk)
  }

  // ---- Runs --------------------------------------------------------------------------

  ghost predicate Legal(s: State, acts: seq<Action>)
    decreases |acts|
  {
    acts == [] || (Enabled(s, acts[0]) && Legal(Apply(s, acts[0]), acts[1..]))
  }

  ghost function Exec(s: State, acts: seq<Action>): State
    requires Legal(s, acts)
    decreases |acts|
  {
    if acts == [] then s else Exec(Apply(s, acts[0]), acts[1..])
  }

  /** A legal run followed by a run that is legal where it ends. */
  lemma {:induction false} RunsCompose(s: State, front: seq<Action>, back: seq<Action>)
    requires Legal(s, front) && Legal(Exec(s, front), back)
    ensures Legal(s, front + back) && Exec(s, front + back) == Exec(Exec(s, front), back)
    decreases |front|
  {
    if front == [] {
      assert front + back == back;
    } else {
      RunsCompose(Apply(s, front[0]), front[1..], back);
      assert (front + back)[1..] == front[1..] + back;
    }
  }

  lemma Single(s: State, a: Action)
    requires Enabled(s, a)
    ensures Legal(s, [a]) && Exec(s, [a]) == Apply(s, a)
  {
  }

  lemma Extend(s: State, acts: seq<Action>, a: Action)
    requires Legal(s, acts) && Enabled(Exec(s, acts), a)
    ensures Legal(s, acts + [a]) && Exec(s, acts + [a]) == Apply(Exec(s, acts), a)
  {
    Single(Exec(s, acts), a);
    RunsCompose(s, acts, [a]);
  }
}
