/** Accounts of whole runs, kept from the steps alone: what happens to each reported event,
    which callbacks are called and with what, and what becomes of each descriptor. */
module EpollAccounts {
  import opened Basics
  import opened EpollModel
  import opened EpollInvariants
  import opened EpollSend

  // ---- Events -----------------------------------------------------------------------------------

  /** The events epoll_wait returns in a run. */
  function Reported(acts: seq<Action>): seq<Event> {
    if acts == [] then []
    else (if acts[0].WaitReturns? then acts[0].events else []) + Reported(acts[1..])
  }

  /** The events whose handlers run. */
  ghost function Handled(s: State, acts: seq<Action>): seq<Event>
    requires Legal(s, acts)
    decreases |acts|
  {
    if acts == [] then []
    else (if acts[0].Dispatch? then [s.batch[0]] else []) + Handled(Apply(s, acts[0]), acts[1..])
  }

  lemma Regroup(a: seq<Event>, b: seq<Event>, c: seq<Event>, d: seq<Event>, e: seq<Event>)
    requires a + b == d + e
    ensures a + (b + c) == d + (e + c)
  {
    assert a + (b + c) == (a + b) + c;
  }

  /** Nothing that was reported is dropped, repeated or reordered: along every run the events
      handled, and then those still in the batch, are the ones that were in the batch, and then
      the ones reported. */
  lemma {:induction false} EventsAreHandled(s: State, acts: seq<Action>)
    requires BatchOver(s) && Legal(s, acts)
    ensures s.batch + Reported(acts) == Handled(s, acts) + Exec(s, acts).batch
    ensures BatchOver(Exec(s, acts))
    decreases |acts|
  {
    if acts == [] {
    } else {
      var a, t := acts[0], Apply(s, acts[0]);
      if !a.WaitReturns? {
        StepEmptiesBatch(s, a);
        StepShrinksBatch(s, a);
      }
      EventsAreHandled(t, acts[1..]);
      var reported, handled := if a.WaitReturns? then a.events else [], if a.Dispatch? then [s.batch[0]] else [];
      assert s.batch + reported == handled + t.batch;
      Regroup(s.batch, reported, Reported(acts[1..]), handled, t.batch);
      assert handled + (t.batch + Reported(acts[1..]))
             == (handled + Handled(t, acts[1..])) + Exec(t, acts[1..]).batch;
    }
  }

  // ---- Callbacks ------------------------------------------------------------------------------------

  /** The callbacks called in a run, with the descriptors they are given. */
  ghost function Called(s: State, acts: seq<Action>): seq<Pc>
    requires Legal(s, acts)
    decreases |acts|
  {
    if acts == [] then []
    else
      var t := Apply(s, acts[0]);
      (if InCallback(t) && !InCallback(s) then [t.pc] else []) + Called(t, acts[1..])
  }

  /** The callback that handling `e` with the result `r` owes to the application: wake events
      owe none, the listener's an accept callback, input goes before output. */
  function Owed(s: State, e: Event, r: SysResult): seq<Pc> {
    if e.fd == s.wakeRead then []
    else if e.fd == s.server then
      if r.n >= 0 && s.callbacks.accept then [InAcceptCallback(s.server, r.n)] else []
    else if e.readable then
      if r.n > 0 && s.callbacks.receive then [InReceiveCallback(e.fd)] else []
    else if e.writable && s.slot.Some? && r.n >= 0 && s.slot.value.offset + r.n == |s.slot.value.data| then
      if s.callbacks.sendComplete then [InSendCallback(e.fd)] else []
    else []
  }

  ghost function AllOwed(s: State, acts: seq<Action>): seq<Pc>
    requires Legal(s, acts)
    decreases |acts|
  {
    if acts == [] then []
    else (if acts[0].Dispatch? then Owed(s, s.batch[0], acts[0].r) else []) + AllOwed(Apply(s, acts[0]), acts[1..])
  }

  lemma HandlerCalls(s: State, e: Event, r: SysResult)
    requires s.pc == Dispatching && HandlerContract(s, Route(s, e), e.fd, r)
    ensures var t := Handle(s, Route(s, e), e.fd, r);
      Owed(s, e, r) == if InCallback(t) then [t.pc] else []
  {
  }

  lemma OtherStepsCallNothing(s: State, a: Action)
    requires Enabled(s, a) && !a.Dispatch? && !InCallback(s)
    ensures !InCallback(Apply(s, a))
  {
  }

  lemma StepCalls(s: State, a: Action)
    requires Enabled(s, a)
    ensures var t := Apply(s, a);
      (if InCallback(t) && !InCallback(s) then [t.pc] else [])
      == if a.Dispatch? then Owed(s, s.batch[0], a.r) else []
  {
    if a.Dispatch? {
      HandlerCalls(s.(batch := s.batch[1..]), s.batch[0], a.r);
    } else if !InCallback(s) {
      OtherStepsCallNothing(s, a);
    }
  }

  /** Every run calls exactly the callbacks it owes, in order. */
  lemma {:induction false} CallbacksAreExact(s: State, acts: seq<Action>)
    requires Legal(s, acts)
    ensures Called(s, acts) == AllOwed(s, acts)
    decreases |acts|
  {
    if acts == [] {
    } else {
      StepCalls(s, acts[0]);
      CallbacksAreExact(Apply(s, acts[0]), acts[1..]);
    }
  }

  /** What a step hands to the receive callback it owes: the bytes of the read. */
  predicate ReadsFor(s: State, a: Action)
    requires Enabled(s, a)
  {
    && a.Dispatch? && a.r.n > 0 && s.callbacks.receive
    && s.batch[0].readable && s.batch[0].fd != s.wakeRead && s.batch[0].fd != s.server
  }

  ghost function ReadFor(s: State, acts: seq<Action>): seq<Chunk>
    requires Legal(s, acts)
    decreases |acts|
  {
    if acts == [] then []
    else
      (if ReadsFor(s, acts[0]) then [Chunk(s.batch[0].fd, acts[0].r.bytes)] else [])
      + ReadFor(Apply(s, acts[0]), acts[1..])
  }

  lemma HandlerHandsOver(s: State, e: Event, r: SysResult)
    requires s.pc == Dispatching && HandlerContract(s, Route(s, e), e.fd, r)
    ensures Handle(s, Route(s, e), e.fd, r).log.received
            == s.log.received
               + if r.n > 0 && s.callbacks.receive && e.readable && e.fd != s.wakeRead && e.fd != s.server
                 then [Chunk(e.fd, r.bytes)] else []
  {
  }

  lemma StepHandsOver(s: State, a: Action)
    requires Enabled(s, a)
    ensures Apply(s, a).log.received
            == s.log.received + if ReadsFor(s, a) then [Chunk(s.batch[0].fd, a.r.bytes)] else []
  {
    if a.Dispatch? {
      HandlerHandsOver(s.(batch := s.batch[1..]), s.batch[0], a.r);
    }
  }

  /** Every run hands over the bytes of each successful read of an event with input, whether or
      not the socket is writable too, in order, and nothing else. */
  lemma {:induction false} ReceivedIsRead(s: State, acts: seq<Action>)
    requires Legal(s, acts)
    ensures Exec(s, acts).log.received == s.log.received + ReadFor(s, acts)
    decreases |acts|
  {
    if acts == [] {
    } else {
      StepHandsOver(s, acts[0]);
      ReceivedIsRead(Apply(s, acts[0]), acts[1..]);
    }
  }

  /** The last value given to a callback slot in a run, or the one it starts with. */
  function LastSetting(acts: seq<Action>, kind: CallbackKind, initially: bool): bool {
    if acts == [] then initially
    else LastSetting(acts[1..], kind, if acts[0].SetCallback? && acts[0].kind == kind then acts[0].on else initially)
  }

  lemma HandlersKeepCallbacks(s: State, h: Handler, fd: Fd, r: SysResult)
    requires HandlerContract(s, h, fd, r)
    ensures Handle(s, h, fd, r).callbacks == s.callbacks
  {
  }

  lemma StepSets(s: State, a: Action)
    requires Enabled(s, a)
    ensures var c := Apply(s, a).callbacks;
      && c.receive == (if a.SetCallback? && a.kind == OnReceive then a.on else s.callbacks.receive)
      && c.sendComplete == (if a.SetCallback? && a.kind == OnSendComplete then a.on else s.callbacks.sendComplete)
      && c.accept == (if a.SetCallback? && a.kind == OnAccept then a.on else s.callbacks.accept)
  {
    if a.Dispatch? {
      HandlersKeepCallbacks(s.(batch := s.batch[1..]), Route(s, s.batch[0]), s.batch[0].fd, a.r);
    }
  }

  /** Each setter sets its own callback, and nothing else sets one. */
  lemma {:induction false} SettersAreSeparate(s: State, acts: seq<Action>)
    requires Legal(s, acts)
    ensures var c := Exec(s, acts).callbacks;
      && c.receive == LastSetting(acts, OnReceive, s.callbacks.receive)
      && c.sendComplete == LastSetting(acts, OnSendComplete, s.callbacks.sendComplete)
      && c.accept == LastSetting(acts, OnAccept, s.callbacks.accept)
    decreases |acts|
  {
    if acts == [] {
    } else {
      StepSets(s, acts[0]);
      SettersAreSeparate(Apply(s, acts[0]), acts[1..]);
    }
  }

  // ---- Descriptors --------------------------------------------------------------------------------

  /** Every descriptor opened since the start is registered, but for the client that an accept
      callback is looking at. */
  ghost predicate OpenInv(init: State, s: State) {
    && s.open == init.open + s.interest.Keys + (if s.pc.InAcceptCallback? then {s.pc.client} else {})
    && s.wakeRead == init.wakeRead && s.wakeWrite == init.wakeWrite && s.epollFd == init.epollFd
    && (forall fd | fd in s.interest && fd in init.open :: fd == s.wakeRead)
    && (s.pc.InAcceptCallback? ==> s.pc.client !in init.open)
  }

  /** `s` and `t` agree on everything OpenInv looks at. */
  ghost predicate SameOpen(s: State, t: State) {
    && s.open == t.open && s.interest.Keys == t.interest.Keys
    && s.wakeRead == t.wakeRead && s.wakeWrite == t.wakeWrite && s.epollFd == t.epollFd
    && (if t.pc.InAcceptCallback? then s.pc == t.pc else !s.pc.InAcceptCallback?)
  }

  lemma FrameOpen(init: State, s: State, t: State)
    requires OpenInv(init, s) && SameOpen(s, t)
    ensures OpenInv(init, t)
  {
  }

  lemma RegisterKeepsOpen(init: State, s: State, fd: Fd, mask: Mask, listener: bool, t: State)
    requires OpenInv(init, s) && Registers(s, fd, mask, listener, t) && fd !in init.open
    requires s.wakeWrite == t.wakeWrite && s.epollFd == t.epollFd
    requires if t.pc.InAcceptCallback? then s.pc == t.pc else s.pc.InAcceptCallback? ==> s.pc.client == fd
    ensures OpenInv(init, t)
  {
  }

  lemma HandlersKeepOwn(s: State, h: Handler, fd: Fd, r: SysResult)
    requires HandlerContract(s, h, fd, r)
    ensures Handle(s, h, fd, r).epollFd == s.epollFd && Handle(s, h, fd, r).wakeWrite == s.wakeWrite
  {
  }

  lemma DispatchKeepsOpen(init: State, s: State, a: Action)
    requires OpenInv(init, s) && a.Dispatch? && Enabled(s, a) && Alive(Apply(s, a))
    ensures OpenInv(init, Apply(s, a))
  {
    var e, s1, t := s.batch[0], s.(batch := s.batch[1..]), Apply(s, a);
    HandlersKeepOwn(s1, Route(s, e), e.fd, a.r);
    if Route(s, e) != AcceptHandler {
      OtherHandlersKeepDescriptors(s1, Route(s, e), e.fd, a.r);
      FrameOpen(init, s, t);
    } else if a.r.n != -1 {
      AcceptRegisters(s1, e.fd, a.r);
    }
  }

  lemma ReturnKeepsOpen(init: State, s: State, a: Action)
    requires OpenInv(init, s) && a.CallbackReturns? && Enabled(s, a) && Alive(Apply(s, a))
    ensures OpenInv(init, Apply(s, a))
  {
    if s.pc.InAcceptCallback? {
      RegisterKeepsOpen(init, s, s.pc.client, IN_OUT, false, Apply(s, a));
    } else {
      FrameOpen(init, s, Apply(s, a));
    }
  }

  lemma OtherStepsKeepOpen(s: State, a: Action)
    requires Enabled(s, a) && Alive(Apply(s, a))
    requires !a.CallCleanup? && !a.Dispatch? && !a.CallStartServer? && !a.CallConnect? && !a.CallbackReturns?
    ensures SameOpen(s, Apply(s, a))
  {
  }

  lemma StepKeepsOpen(init: State, s: State, a: Action)
    requires OpenInv(init, s) && Enabled(s, a) && Alive(Apply(s, a)) && !a.CallCleanup?
    ensures OpenInv(init, Apply(s, a))
  {
    var t := Apply(s, a);
    match a
    case Dispatch(_) => DispatchKeepsOpen(init, s, a);
    case CallStartServer(fd, ok) =>
      OpenersRegister(s, fd, ok);
      RegisterKeepsOpen(init, s, fd, IN_ONLY, true, t);
    case CallConnect(fd, ok) =>
      OpenersRegister(s, fd, ok);
      RegisterKeepsOpen(init, s, fd, IN_OUT, false, t);
    case CallbackReturns(_) => ReturnKeepsOpen(init, s, a);
    case _ =>
      OtherStepsKeepOpen(s, a);
      FrameOpen(init, s, t);
  }

  lemma {:induction false} RunKeepsOpen(init: State, s: State, acts: seq<Action>)
    requires Inv(s) && Active(s) && OpenInv(init, s) && Legal(s, acts) && Active(Exec(s, acts))
    ensures OpenInv(init, Exec(s, acts))
    decreases |acts|
  {
    if acts == [] {
    } else {
      ActiveBefore(s, acts);
      StepKeepsOpen(init, s, acts[0]);
      StepKeepsInv(s, acts[0]);
      RunKeepsOpen(init, Apply(s, acts[0]), acts[1..]);
    }
  }

  lemma ReachedKeepsOpen(init: State, s: State)
    requires IsInit(init) && Reaches(init, s) && Active(s)
    ensures OpenInv(init, s)
  {
    var acts: seq<Action> :| Legal(init, acts) && Exec(init, acts) == s;
    InitHasInv(init);
    RunKeepsOpen(init, init, acts);
  }

  /** Along every run from a fresh proactor, the open descriptors are those that were open then,
      the registered ones and the client in an accept callback. */
  lemma OpenedIsRegistered(init: State, s: State)
    requires IsInit(init) && Reaches(init, s) && Active(s)
    ensures s.open == init.open + s.interest.Keys + (if s.pc.InAcceptCallback? then {s.pc.client} else {})
    ensures forall fd | fd in s.interest && fd in init.open :: fd == s.wakeRead
  {
    ReachedKeepsOpen(init, s);
  }

  /** The descriptor of the last start_server of a run, and of the last connect. */
  function LastListener(acts: seq<Action>, initially: Fd): Fd {
    if acts == [] then initially
    else LastListener(acts[1..], if acts[0].CallStartServer? then acts[0].fd else initially)
  }

  function LastConnected(acts: seq<Action>, initially: Fd): Fd {
    if acts == [] then initially
    else LastConnected(acts[1..], if acts[0].CallConnect? then acts[0].fd else initially)
  }

  lemma AliveBefore(s: State, acts: seq<Action>)
    requires Legal(s, acts) && acts != [] && Alive(Exec(s, acts))
    ensures Alive(Apply(s, acts[0]))
  {
    var t, rest := Apply(s, acts[0]), acts[1..];
    assert rest != [] ==> Enabled(t, rest[0]);
    assert rest == [] ==> Exec(t, rest) == t;
  }

  lemma HandlersKeepStatics(s: State, h: Handler, fd: Fd, r: SysResult)
    requires HandlerContract(s, h, fd, r)
    ensures Handle(s, h, fd, r).server == s.server && Handle(s, h, fd, r).client == s.client
  {
  }

  lemma StepKeepsStatics(s: State, a: Action)
    requires Enabled(s, a) && Alive(Apply(s, a))
    ensures Apply(s, a).server == if a.CallStartServer? then a.fd else s.server
    ensures Apply(s, a).client == if a.CallConnect? then a.fd else s.client
  {
    if a.Dispatch? {
      HandlersKeepStatics(s.(batch := s.batch[1..]), Route(s, s.batch[0]), s.batch[0].fd, a.r);
    }
  }

  /** The two statics name the last listener and the last connected socket; accepting a client
      sets neither. */
  lemma {:induction false} StaticsFollow(s: State, acts: seq<Action>)
    requires Legal(s, acts) && Alive(Exec(s, acts))
    ensures Exec(s, acts).server == LastListener(acts, s.server)
    ensures Exec(s, acts).client == LastConnected(acts, s.client)
    decreases |acts|
  {
    if acts == [] {
    } else {
      AliveBefore(s, acts);
      StepKeepsStatics(s, acts[0]);
      StaticsFollow(Apply(s, acts[0]), acts[1..]);
    }
  }

  /** Cleanup closes the wake pipe, the epoll instance, the last listener and the last connected
      socket.  It leaves open exactly what belonged to others and what is registered besides
      these: accepted clients, and any earlier listener or connected socket. */
  lemma CleanupLeavesOpenIff(init: State, s: State, fd: Fd)
    requires IsInit(init) && Reaches(init, s) && Enabled(s, CallCleanup)
    ensures var t := Apply(s, CallCleanup);
      fd in t.open <==>
        || (fd in init.open && fd !in {init.epollFd, init.wakeRead, init.wakeWrite, s.server, s.client})
        || (fd in s.interest && fd !in {init.wakeRead, s.server, s.client})
  {
    ReachedKeepsOpen(init, s);
  }
}
