/** The C file itself: an object whose fields are its static variables.  Every method is
    proved to take exactly the steps of the step system, so that each execution of `Run`
    is one of the runs the theorems speak about.

    What the program does not decide comes in as a script, a proposed run: the results of
    system calls, what the callbacks do, and what other threads do in between.  The code
    follows the script as long as its next step is possible, and goes on by itself when the
    script ends or asks for something impossible.  So every script describes an execution,
    and every run of the step system that stays in the loop is the execution of a script. */
module EpollProactor {
  import opened Basics
  import opened EpollModel
  import opened EpollInvariants
  import opened EpollAccounts

  class SendRequest {
    const data: seq<byte>
    var offset: nat
    const structAt: nat
    const bufferAt: nat

    constructor (data: seq<byte>, structAt: nat, bufferAt: nat)
      ensures this.data == data && offset == 0 && this.structAt == structAt && this.bufferAt == bufferAt
    {
      this.data, offset, this.structAt, this.bufferAt := data, 0, structAt, bufferAt;
    }
  }

  /** The two descriptors pipe returns. */
  datatype PipeEnds = PipeEnds(read: Fd, write: Fd)

  /** The steps of `stop`, `wake`, `send`, the setters and the two openers. */
  predicate IsCall(a: Action) {
    || a.CallWake? || a.RaiseStop? || a.StopWake? || a.CallSend? || a.SetCallback?
    || a.CallStartServer? || a.CallConnect?
  }

  // ---- Following a script -------------------------------------------------------------------

  /** `trace` is `script` as far as that is a run, and `rest` is what is left of it.  Where the
      script ends or is impossible it is dropped, and `trace` goes on in its own way. */
  ghost predicate Follows(s: State, script: seq<Action>, trace: seq<Action>, rest: seq<Action>)
    requires Legal(s, trace)
    decreases |trace|
  {
    if trace == [] then rest == script
    else if script != [] && Enabled(s, script[0]) then
      trace[0] == script[0] && Follows(Apply(s, trace[0]), script[1..], trace[1..], rest)
    else rest == []
  }

  /** What is left of a script after one more step. */
  function After(s: State, script: seq<Action>): seq<Action> {
    if script != [] && Enabled(s, script[0]) then script[1..] else []
  }

  lemma {:induction false} FollowsOn(s: State, script: seq<Action>, a: seq<Action>, mid: seq<Action>,
                                     b: seq<Action>, rest: seq<Action>)
    requires Legal(s, a) && Follows(s, script, a, mid)
    requires Legal(Exec(s, a), b) && Follows(Exec(s, a), mid, b, rest)
    ensures Legal(s, a + b) && Exec(s, a + b) == Exec(Exec(s, a), b)
    ensures Follows(s, script, a + b, rest)
    decreases |a|
  {
    RunsCompose(s, a, b);
    if a == [] {
      assert a + b == b;
    } else if script != [] && Enabled(s, script[0]) {
      FollowsOn(Apply(s, a[0]), script[1..], a[1..], mid, b, rest);
      assert (a + b)[1..] == a[1..] + b;
    }
  }

  lemma FollowsStep(s: State, script: seq<Action>, a: Action)
    requires Enabled(s, a) && (script != [] && Enabled(s, script[0]) ==> a == script[0])
    ensures Legal(s, [a]) && Exec(s, [a]) == Apply(s, a)
    ensures Follows(s, script, [a], After(s, script))
  {
    Single(s, a);
  }

  /** One step at the front of a run. */
  lemma StepThenFollow(s: State, script: seq<Action>, a: Action, mid: seq<Action>, b: seq<Action>, rest: seq<Action>)
    requires Enabled(s, a) && (script != [] && Enabled(s, script[0]) ==> a == script[0])
    requires mid == After(s, script) && Legal(Apply(s, a), b) && Follows(Apply(s, a), mid, b, rest)
    ensures Legal(s, [a] + b) && Exec(s, [a] + b) == Exec(Apply(s, a), b)
    ensures Follows(s, script, [a] + b, rest)
  {
    FollowsStep(s, script, a);
    FollowsOn(s, script, [a], mid, b, rest);
  }

  /** One step at the end of a run. */
  lemma FollowThenStep(s: State, script: seq<Action>, a: seq<Action>, mid: seq<Action>, b: Action)
    requires Legal(s, a) && Follows(s, script, a, mid) && Enabled(Exec(s, a), b)
    requires mid != [] && Enabled(Exec(s, a), mid[0]) ==> b == mid[0]
    ensures Legal(s, a + [b]) && Exec(s, a + [b]) == Apply(Exec(s, a), b)
    ensures Follows(s, script, a + [b], After(Exec(s, a), mid))
  {
    FollowsStep(Exec(s, a), mid, b);
    FollowsOn(s, script, a, mid, [b], After(Exec(s, a), mid));
  }

  /** A step that was taken was taken off the script, if there was one. */
  lemma {:induction false} FollowsUses(s: State, script: seq<Action>, trace: seq<Action>, rest: seq<Action>)
    requires Legal(s, trace) && Follows(s, script, trace, rest)
    ensures |rest| <= |script|
    ensures trace != [] && script != [] ==> |rest| < |script|
    decreases |trace|
  {
    if trace == [] {
    } else if script != [] && Enabled(s, script[0]) {
      FollowsUses(Apply(s, trace[0]), script[1..], trace[1..], rest);
    }
  }

  /** A script that is a run is followed to its end, or up to a prefix that leaves the rest. */
  lemma {:induction false} LegalIsFollowed(s: State, script: seq<Action>, trace: seq<Action>, rest: seq<Action>)
    requires Legal(s, trace) && Follows(s, script, trace, rest) && Legal(s, script)
    ensures (script <= trace && rest == []) || (trace <= script && rest == script[|trace|..])
    ensures rest != [] ==> Enabled(Exec(s, trace), rest[0])
    decreases |trace|
  {
    if trace == [] || script == [] {
    } else {
      LegalIsFollowed(Apply(s, trace[0]), script[1..], trace[1..], rest);
      assert script == [script[0]] + script[1..] && trace == [trace[0]] + trace[1..];
    }
  }

  /** The loop thread is back in application code only after the test found `stop` set. */
  lemma {:induction false} LeavesOnlyStopped(s: State, acts: seq<Action>)
    requires Legal(s, acts) && (s.pc == App ==> s.stop)
    ensures Exec(s, acts).pc == App ==> Exec(s, acts).stop
    decreases |acts|
  {
    if acts == [] {
    } else {
      LeavesOnlyStopped(Apply(s, acts[0]), acts[1..]);
    }
  }

  lemma {:induction false} RunsSplit(s: State, front: seq<Action>, back: seq<Action>)
    requires Legal(s, front + back)
    ensures Legal(s, front) && Legal(Exec(s, front), back)
    decreases |front|
  {
    if front == [] {
      assert front + back == back;
    } else {
      assert (front + back)[1..] == front[1..] + back;
      RunsSplit(Apply(s, front[0]), front[1..], back);
    }
  }

  lemma NextOfRun(s: State, a: seq<Action>, b: seq<Action>)
    requires Legal(s, a + b) && a != []
    ensures Enabled(s, a[0])
  {
  }

  /** A call of `stop` whose script is a run gets to its second statement. */
  lemma StopIsFollowed(s: State, tid: nat, between: seq<Action>, ok: bool, more: seq<Action>, rest: seq<Action>)
    requires Enabled(s, RaiseStop(tid)) && Legal(Apply(s, RaiseStop(tid)), more) && more + rest == between
    requires var t := Exec(Apply(s, RaiseStop(tid)), more); rest != [] ==> !IsCall(rest[0]) || !Enabled(t, rest[0])
    ensures Legal(s, [RaiseStop(tid)] + more)
    ensures Exec(s, [RaiseStop(tid)] + more) == Exec(Apply(s, RaiseStop(tid)), more)
    ensures Legal(s, [RaiseStop(tid)] + between + [StopWake(tid, ok)]) && (forall a | a in between :: IsCall(a)) ==>
      more == between && Enabled(Exec(Apply(s, RaiseStop(tid)), more), StopWake(tid, ok))
  {
    Single(s, RaiseStop(tid));
    RunsCompose(s, [RaiseStop(tid)], more);
    var s1, last := Apply(s, RaiseStop(tid)), [StopWake(tid, ok)];
    if Legal(s, [RaiseStop(tid)] + between + last) && forall a | a in between :: IsCall(a) {
      assert ([RaiseStop(tid)] + between + last)[1..] == more + (rest + last);
      RunsSplit(s1, more, rest + last);
      if rest != [] {
        NextOfRun(Exec(s1, more), rest, last);
      }
    }
  }

  /** What following a script means for the run that enters the loop first. */
  lemma ScriptIsFollowed(s: State, script: seq<Action>, trace: seq<Action>, rest: seq<Action>)
    requires Enabled(s, EnterRun) && Legal(Apply(s, EnterRun), trace)
    requires Follows(Apply(s, EnterRun), script, trace, rest)
    ensures Legal(s, [EnterRun] + trace)
    ensures var t := Exec(s, [EnterRun] + trace);
      && t == Exec(Apply(s, EnterRun), trace)
      && (t.pc == App ==> t.stop)
      && (Legal(s, [EnterRun] + script) && (!Alive(t) || t.pc == App || rest == []) ==>
            [EnterRun] + script <= [EnterRun] + trace
            || ([EnterRun] + trace <= [EnterRun] + script && t.pc == App))
  {
    var s1 := Apply(s, EnterRun);
    Single(s, EnterRun);
    RunsCompose(s, [EnterRun], trace);
    LeavesOnlyStopped(s1, trace);
    if Legal(s, [EnterRun] + script) {
      assert ([EnterRun] + script)[1..] == script;
      LegalIsFollowed(s1, script, trace, rest);
    }
  }

  /** A run from the application that has left the batch loop has handled every event. */
  lemma RunHandlesAll(s: State, trace: seq<Action>)
    requires s.pc == App && Legal(s, trace)
    ensures s.batch == [] && (Exec(s, trace).pc == App || Exec(s, trace).pc == LoopTest) ==>
      Handled(s, trace) == Reported(trace)
  {
    if s.batch == [] {
      EventsAreHandled(s, trace);
      assert [] + Reported(trace) == Reported(trace) && Handled(s, trace) + [] == Handled(s, trace);
    }
  }

  lemma SendSays(s: State, socket: Fd, data: seq<byte>, alloc: Allocation, ctlOk: bool)
    ensures var t := EpollModel.Send(s, socket, data, alloc, ctlOk);
      && (s.pc != Halted ==>
           (t.pc == Halted <==> s.slot.None? && !(alloc.structAt.Some? && alloc.bufferAt.Some?
                                                 && ctlOk && socket in s.open && socket in s.interest)))
      && (t.pc != Halted ==>
           if s.slot.Some? then t == s else t.log.accepted == s.log.accepted + [Accepted(socket, data)])
  {
  }

  class Proactor {
    var pc: Pc
    var batch: seq<Event>
    var current: SendRequest?
    var stop: bool
    var stoppers: set<nat>
    var server: Fd
    var client: Fd
    var callbacks: Callbacks
    const epollFd: Fd
    const wakeRead: Fd
    const wakeWrite: Fd
    var open: set<Fd>
    var listening: set<Fd>
    var interest: map<Fd, Mask>
    var pipe: nat
    var heap: Heap
    var log: Log

    function Slot(): Option<Request>
      reads this, current
    {
      if current == null then None
      else Some(Request(current.data, current.offset, current.structAt, current.bufferAt))
    }

    function View(): State
      reads this, current
    {
      State(pc, batch, Slot(), stop, stoppers, server, client, callbacks,
            epollFd, wakeRead, wakeWrite, open, listening, interest, pipe, heap, log)
    }

    predicate Dead()
      reads this`pc
    {
      pc == Halted || pc == Stuck
    }

    /** The request object is the one from before, a new one, or gone. */
    twostate predicate Owned()
      reads this
    {
      current == old(current) || current == null || fresh(current)
    }

    method AddToEpoll(fd: Fd, mask: Mask, ctlOk: bool)
      modifies this
      ensures View() == Register(old(View()), fd, mask, ctlOk) && current == old(current)
      ensures pc == old(pc) || pc == Halted
    {
      if ctlOk && fd in open && fd !in interest {
        interest := interest[fd := mask];
      } else {
        pc := Halted;
      }
    }

    /** `proactor_tcp_epoll_init`, given what epoll_create1, pipe and epoll_ctl return.  It
        leaves an initial state exactly when all three succeed, and otherwise exits. */
    constructor (others: set<Fd>, epollFd: Fd, ends: Option<PipeEnds>, ctlOk: bool)
      requires forall fd | fd in others :: fd >= 0
      requires epollFd == -1 || epollFd >= 0
      requires ends.Some? ==>
        && ends.value.read >= 0 && ends.value.write >= 0 && ends.value.read != ends.value.write
        && epollFd != ends.value.read && epollFd != ends.value.write
      ensures IsInit(View()) <==> epollFd != -1 && ends.Some? && ctlOk
      ensures !IsInit(View()) ==> pc == Halted
      ensures ends.Some? ==> wakeRead == ends.value.read && wakeWrite == ends.value.write
      ensures open == others + (if epollFd == -1 then {} else {epollFd})
                      + (if epollFd == -1 || ends.None? then {} else {ends.value.read, ends.value.write})
    {
      pc, batch, current, stop, stoppers := App, [], null, false, {};
      server, client, callbacks := -1, -1, Callbacks(false, false, false);
      open, listening, interest, pipe := others, {}, map[], 0;
      heap, log := Heap({}, {}, false), Log([], [], [], []);
      this.epollFd := epollFd;
      wakeRead := if ends.Some? then ends.value.read else -1;
      wakeWrite := if ends.Some? then ends.value.write else -1;
      new;
      if epollFd == -1 {
        pc := Halted;
        return;
      }
      open := open + {epollFd};
      if ends.None? {
        pc := Halted;
        return;
      }
      open := open + {wakeRead, wakeWrite};
      AddToEpoll(wakeRead, IN_ONLY, ctlOk);
    }

    // ---- The application interface --------------------------------------------------------

    method Wake(ok: bool)
      modifies this
      ensures View() == WriteWake(old(View()), ok) && current == old(current)
      ensures if ok && wakeWrite in open then pc == old(pc) && pipe == old(pipe) + 1 else pc == Halted
    {
      if ok && wakeWrite in open {
        pipe := pipe + 1;
      } else {
        pc := Halted;
      }
    }

    method Send(socket: Fd, data: seq<byte>, alloc: Allocation, ctlOk: bool) returns (rc: int)
      modifies this
      ensures Owned()
      ensures View() == EpollModel.Send(old(View()), socket, data, alloc, ctlOk)
      ensures old(pc) != Halted ==>
        (pc == Halted <==> old(current) == null && !(alloc.structAt.Some? && alloc.bufferAt.Some?
                                                     && ctlOk && socket in old(open) && socket in old(interest)))
      ensures pc != Halted ==>
        && (rc == 0 <==> log.accepted == old(log.accepted) + [Accepted(socket, data)])
        && (rc == -1 <==> old(current) != null)
        && (rc == 0 || rc == -1)
        && (rc == -1 ==> View() == old(View()))
    {
      SendSays(View(), socket, data, alloc, ctlOk);
      rc := 0;
      if current != null {
        return -1;
      }
      if alloc.structAt.None? || alloc.bufferAt.None? {
        pc := Halted;
        return;
      }
      current := new SendRequest(data, alloc.structAt.value, alloc.bufferAt.value);
      heap := heap.(structs := heap.structs + {current.structAt}, buffers := heap.buffers + {current.bufferAt});
      if ctlOk && socket in open && socket in interest {
        interest := interest[socket := OUT_ONLY];
        log := log.(accepted := log.accepted + [Accepted(socket, data)]);
      } else {
        pc := Halted;
      }
    }

    method StartServer(fd: Fd, ok: bool)
      modifies this
      ensures View() == EpollModel.StartServer(old(View()), fd, ok) && current == old(current)
      ensures fd == -1 || !ok || fd in old(interest) ==> pc == Halted
      ensures old(pc) != Halted && fd != -1 && ok && fd !in old(interest) ==>
        && pc == old(pc) && server == fd && fd in open && fd in listening && interest == old(interest)[fd := IN_ONLY]
    {
      if fd == -1 {
        pc := Halted;
        return;
      }
      server, open, listening := fd, open + {fd}, listening + {fd};
      AddToEpoll(fd, IN_ONLY, ok);
    }

    method Connect(fd: Fd, ok: bool)
      modifies this
      ensures View() == EpollModel.Connect(old(View()), fd, ok) && current == old(current)
      ensures fd == -1 || !ok || fd in old(interest) ==> pc == Halted
      ensures old(pc) != Halted && fd != -1 && ok && fd !in old(interest) ==>
        && pc == old(pc) && client == fd && fd in open && interest == old(interest)[fd := IN_OUT]
    {
      if fd == -1 {
        pc := Halted;
        return;
      }
      client, open := fd, open + {fd};
      AddToEpoll(fd, IN_OUT, ok);
    }

    method Perform(a: Action)
      requires IsCall(a) && Enabled(View(), a)
      modifies this
      ensures Owned() && View() == Apply(old(View()), a)
      ensures (pc == old(pc) || pc == Halted) && batch == old(batch)
    {
      match a
      case CallWake(_, ok) => Wake(ok);
      case RaiseStop(tid) => stop, stoppers := true, stoppers + {tid};
      case StopWake(tid, ok) =>
        stoppers := stoppers - {tid};
        Wake(ok);
      case CallSend(socket, data, alloc, ctlOk) => var _ := Send(socket, data, alloc, ctlOk);
      case SetCallback(kind, on) => callbacks := Toggle(callbacks, kind, on);
      case CallStartServer(fd, ok) => StartServer(fd, ok);
      case CallConnect(fd, ok) => Connect(fd, ok);
    }

    /** Performs the calls of the application and of other threads at the front of the script,
        as long as each is possible where it comes. */
    method Obey(script: seq<Action>) returns (ghost trace: seq<Action>, rest: seq<Action>)
      modifies this, current
      ensures Owned()
      ensures Legal(old(View()), trace) && View() == Exec(old(View()), trace)
      ensures Follows(old(View()), script, trace, rest)
      ensures trace + rest == script
      ensures rest != [] ==> !IsCall(rest[0]) || !Enabled(View(), rest[0])
      ensures (pc == old(pc) || pc == Halted) && batch == old(batch)
      decreases |script|
    {
      trace, rest := [], script;
      if script != [] && IsCall(script[0]) && Enabled(View(), script[0]) {
        ghost var s0 := View();
        Perform(script[0]);
        trace, rest := Obey(script[1..]);
        StepThenFollow(s0, script, script[0], script[1..], trace, rest);
        trace := [script[0]] + trace;
      }
    }

    /** Both statements of `stop`, with what other threads do between them. */
    method Stop(tid: nat, between: seq<Action>, ok: bool) returns (ghost trace: seq<Action>)
      requires Enabled(View(), RaiseStop(tid))
      modifies this, current
      ensures Owned()
      ensures Legal(old(View()), trace) && View() == Exec(old(View()), trace)
      ensures trace != [] && trace[0] == RaiseStop(tid)
      ensures between == [] && pc != Halted ==> stop && tid !in stoppers && pipe == old(pipe) + 1
      ensures var whole := [RaiseStop(tid)] + between + [StopWake(tid, ok)];
        Legal(old(View()), whole) && (forall a | a in between :: IsCall(a)) ==> trace == whole
    {
      ghost var s0 := View();
      Perform(RaiseStop(tid));
      ghost var more;
      var rest;
      more, rest := Obey(between);
      StopIsFollowed(s0, tid, between, ok, more, rest);
      trace := [RaiseStop(tid)] + more;
      var last := StopWake(tid, ok);
      if Enabled(View(), last) {
        Extend(s0, trace, last);
        trace := trace + [last];
        Perform(last);
      }
    }

    // ---- The handlers -------------------------------------------------------------------------

    /** The payload, then the struct. */
    method FreeCells()
      requires current != null
      modifies this`heap
      ensures heap == FreeRequest(old(heap), Slot().value)
    {
      heap := FreeBuffer(heap, current.bufferAt);
      heap := FreeStruct(heap, current.structAt);
    }

    method FreeCurrent()
      modifies this
      ensures View() == ClearSlot(old(View())) && current == null
    {
      if current == null {
        heap := heap.(corrupt := true);
      } else {
        FreeCells();
        current := null;
      }
    }

    /** Completes a call of `stop` that a callback is in the middle of. */
    method FinishStop(script: seq<Action>) returns (ghost trace: seq<Action>, rest: seq<Action>)
      requires InCallback(View()) && (script == [] || !Enabled(View(), script[0]))
      modifies this
      ensures Owned() && batch == old(batch)
      ensures Legal(old(View()), trace) && View() == Exec(old(View()), trace)
      ensures Follows(old(View()), script, trace, rest)
      ensures pc == Halted || (pc == old(pc) && LOOP !in stoppers)
      ensures rest == [] || !Enabled(View(), rest[0])
    {
      trace, rest := [], script;
      if LOOP in stoppers {
        FollowsStep(View(), script, StopWake(LOOP, true));
        trace, rest := [StopWake(LOOP, true)], [];
        Perform(StopWake(LOOP, true));
      }
    }

    /** Runs a callback up to its return: the calls it makes, the last of them completed.  What
        EPOLL_CTL_ADD answers after an accept callback is the script's to say, too. */
    method Callback(script: seq<Action>) returns (ghost trace: seq<Action>, rest: seq<Action>, ok: bool)
      requires InCallback(View())
      modifies this, current
      ensures Owned()
      ensures Legal(old(View()), trace) && View() == Exec(old(View()), trace)
      ensures Follows(old(View()), script, trace, rest)
      ensures batch == old(batch) && (pc == Halted || (pc == old(pc) && LOOP !in stoppers))
      ensures pc != Halted && rest != [] && Enabled(View(), rest[0]) ==> rest[0] == CallbackReturns(ok)
    {
      ghost var s := View();
      trace, rest := Obey(script);
      ok := true;
      if pc != Halted && rest != [] && Enabled(View(), rest[0]) {
        ok := rest[0].ctlOk;
      } else if pc != Halted {
        ghost var mid, more := rest, [];
        more, rest := FinishStop(rest);
        FollowsOn(s, script, trace, mid, more, rest);
        trace := trace + more;
      }
    }

    /** The completion callback, and only then the release of the request. */
    method SendCallback(script: seq<Action>) returns (ghost trace: seq<Action>, rest: seq<Action>)
      requires pc.InSendCallback?
      modifies this, current
      ensures Owned()
      ensures Legal(old(View()), trace) && View() == Exec(old(View()), trace)
      ensures Follows(old(View()), script, trace, rest)
      ensures batch == old(batch) && (pc == Dispatching || pc == Halted)
    {
      ghost var s0 := View();
      var ok;
      trace, rest, ok := Callback(script);
      if pc != Halted {
        ghost var s := View();
        FollowThenStep(s0, script, trace, rest, CallbackReturns(ok));
        trace := trace + [CallbackReturns(ok)];
        rest := After(View(), rest);
        pc := Dispatching;
        FreeCurrent();
        assert View() == Apply(s, CallbackReturns(ok));
      }
    }

    method HandleWriteEvent(fd: Fd, r: SysResult, script: seq<Action>)
      returns (ghost trace: seq<Action>, rest: seq<Action>)
      requires pc == Dispatching && WriteContract(View(), r)
      modifies this, current
      ensures Owned()
      ensures var s := HandleWrite(old(View()), fd, r);
        Legal(s, trace) && View() == Exec(s, trace) && Follows(s, script, trace, rest)
      ensures batch == old(batch) && (pc == Dispatching || pc == Halted)
    {
      trace, rest := [], script;
      if current == null || r.n < 0 {
        return;
      }
      ghost var s := HandleWrite(View(), fd, r);
      var start := current.offset;
      current.offset := current.offset + r.n;
      log := log.(wire := log.wire + Tagged(fd, current.data[start..current.offset]));
      if current.offset >= |current.data| {
        log := log.(finishes := log.finishes + [Finish(fd, current.data, |log.wire|)]);
        if callbacks.sendComplete {
          pc := InSendCallback(fd);
          assert View() == s;
          trace, rest := SendCallback(script);
        } else {
          FreeCurrent();
          assert View() == s;
        }
      }
    }

    /** close, and only then EPOLL_CTL_DEL, which fails: the process ends here. */
    method CloseSocket(fd: Fd, ctlOk: bool)
      modifies this
      ensures current == old(current)
      ensures View() == Halt(old(View()).(open := old(open) - {fd}, interest := old(interest) - {fd}))
    {
      open, interest := open - {fd}, interest - {fd};
      if !(ctlOk && fd in open && fd in interest) {
        pc := Halted;
      }
    }

    method ReceiveCallback(script: seq<Action>) returns (ghost trace: seq<Action>, rest: seq<Action>)
      requires pc.InReceiveCallback?
      modifies this, current
      ensures Owned()
      ensures Legal(old(View()), trace) && View() == Exec(old(View()), trace)
      ensures Follows(old(View()), script, trace, rest)
      ensures batch == old(batch) && (pc == Dispatching || pc == Halted)
    {
      ghost var s0 := View();
      var ok;
      trace, rest, ok := Callback(script);
      if pc != Halted {
        ghost var s := View();
        FollowThenStep(s0, script, trace, rest, CallbackReturns(ok));
        trace := trace + [CallbackReturns(ok)];
        rest := After(View(), rest);
        pc := Dispatching;
        assert View() == Apply(s, CallbackReturns(ok));
      }
    }

    method HandleDataEvent(fd: Fd, r: SysResult, script: seq<Action>)
      returns (ghost trace: seq<Action>, rest: seq<Action>)
      requires pc == Dispatching && ReadContract(r)
      modifies this, current
      ensures Owned()
      ensures var s := HandleData(old(View()), fd, r);
        Legal(s, trace) && View() == Exec(s, trace) && Follows(s, script, trace, rest)
      ensures batch == old(batch) && (pc == Dispatching || pc == Halted)
    {
      trace, rest := [], script;
      if r.n <= 0 {
        CloseSocket(fd, r.ctlOk);
      } else if callbacks.receive {
        log := log.(received := log.received + [Chunk(fd, r.bytes)]);
        pc := InReceiveCallback(fd);
        trace, rest := ReceiveCallback(script);
      }
    }

    /** The accept callback, and then the registration of the client. */
    method AcceptCallback(script: seq<Action>) returns (ghost trace: seq<Action>, rest: seq<Action>)
      requires pc.InAcceptCallback?
      modifies this, current
      ensures Owned()
      ensures Legal(old(View()), trace) && View() == Exec(old(View()), trace)
      ensures Follows(old(View()), script, trace, rest)
      ensures batch == old(batch) && (pc == Dispatching || pc == Halted)
    {
      ghost var s0 := View();
      var fd, ok := pc.client, true;
      trace, rest, ok := Callback(script);
      if pc != Halted {
        ghost var s := View();
        FollowThenStep(s0, script, trace, rest, CallbackReturns(ok));
        trace := trace + [CallbackReturns(ok)];
        rest := After(View(), rest);
        pc := Dispatching;
        AddToEpoll(fd, IN_OUT, ok);
        assert View() == Register(s.(pc := Dispatching), fd, IN_OUT, ok);
        assert View() == Apply(s, CallbackReturns(ok));
      }
    }

    method HandleAcceptEvent(fd: Fd, r: SysResult, script: seq<Action>)
      returns (ghost trace: seq<Action>, rest: seq<Action>)
      requires pc == Dispatching && (r.n == -1 || Fresh(View(), r.n))
      modifies this, current
      ensures Owned()
      ensures var s := HandleAccept(old(View()), fd, r);
        Legal(s, trace) && View() == Exec(s, trace) && Follows(s, script, trace, rest)
      ensures batch == old(batch) && (pc == Dispatching || pc == Halted)
    {
      trace, rest := [], script;
      if r.n == -1 {
        return;
      }
      open := open + {r.n};
      if callbacks.accept {
        pc := InAcceptCallback(fd, r.n);
        trace, rest := AcceptCallback(script);
      } else {
        AddToEpoll(r.n, IN_OUT, r.ctlOk);
      }
    }

    method ReadWakePipe(r: SysResult)
      requires pc == Dispatching && (r.n == 1 || r.n == -1)
      modifies this
      ensures View() == ReadWake(old(View()), r) && current == old(current)
    {
      if pipe == 0 {
        pc := Stuck;
      } else if r.n != -1 {
        pipe := pipe - 1;
      }
    }

    // ---- The loop ---------------------------------------------------------------------------------

    /** The if-chain of the batch loop. */
    method HandleEvent(e: Event, r: SysResult, script: seq<Action>)
      returns (ghost trace: seq<Action>, rest: seq<Action>)
      requires pc == Dispatching && HandlerContract(View(), Route(View(), e), e.fd, r)
      modifies this, current
      ensures Owned()
      ensures var s := Handle(old(View()), Route(old(View()), e), e.fd, r);
        Legal(s, trace) && View() == Exec(s, trace) && Follows(s, script, trace, rest)
      ensures batch == old(batch) && (pc == Dispatching || Dead())
    {
      trace, rest := [], script;
      if e.fd == wakeRead {
        ReadWakePipe(r);
      } else if e.fd == server {
        trace, rest := HandleAcceptEvent(e.fd, r, script);
      } else if e.readable {
        trace, rest := HandleDataEvent(e.fd, r, script);
      } else if e.writable {
        trace, rest := HandleWriteEvent(e.fd, r, script);
      }
    }

    /** The body of the batch loop for the next event. */
    method HandleNext(r: SysResult, script: seq<Action>) returns (ghost trace: seq<Action>, rest: seq<Action>)
      requires Enabled(View(), Dispatch(r))
      modifies this, current
      ensures Owned()
      ensures var s := Apply(old(View()), Dispatch(r));
        Legal(s, trace) && View() == Exec(s, trace) && Follows(s, script, trace, rest)
      ensures batch == old(batch)[1..] && (pc == Dispatching || Dead())
    {
      var e := batch[0];
      batch := batch[1..];
      trace, rest := HandleEvent(e, r, script);
    }

    /** The same, with the results that the script names, if they are possible ones. */
    method DispatchNext(script: seq<Action>) returns (ghost trace: seq<Action>, rest: seq<Action>)
      requires pc == Dispatching && batch != []
      requires script != [] && Enabled(View(), script[0]) ==> script[0].Dispatch?
      modifies this, current
      ensures Owned()
      ensures Legal(old(View()), trace) && View() == Exec(old(View()), trace)
      ensures Follows(old(View()), script, trace, rest)
      ensures batch == old(batch)[1..] && (pc == Dispatching || Dead())
    {
      ghost var s0 := View();
      var h, fd := Route(View(), batch[0]), batch[0].fd;
      BenignIsPossible(s0, h, fd);
      var a, mid := Dispatch(BenignResult(View(), h, fd)), [];
      if script != [] && Enabled(View(), script[0]) {
        a, mid := script[0], script[1..];
      }
      trace, rest := HandleNext(a.r, mid);
      StepThenFollow(s0, script, a, mid, trace, rest);
      trace := [a] + trace;
    }

    /** Other threads run, then the next event is handled. */
    method Deliver(script: seq<Action>) returns (ghost trace: seq<Action>, rest: seq<Action>)
      requires pc == Dispatching && batch != []
      modifies this, current
      ensures Owned()
      ensures Legal(old(View()), trace) && View() == Exec(old(View()), trace)
      ensures Follows(old(View()), script, trace, rest)
      ensures Dead() || (pc == Dispatching && batch == old(batch)[1..])
    {
      ghost var s0 := View();
      trace, rest := Obey(script);
      if pc == Dispatching {
        ghost var mid, more := rest, [];
        more, rest := DispatchNext(rest);
        FollowsOn(s0, script, trace, mid, more, rest);
        trace := trace + more;
      }
    }

    /** Other threads run, then the batch loop ends. */
    method EndBatch(script: seq<Action>) returns (ghost trace: seq<Action>, rest: seq<Action>)
      requires pc == Dispatching && batch == []
      modifies this, current
      ensures Owned()
      ensures Legal(old(View()), trace) && View() == Exec(old(View()), trace)
      ensures Follows(old(View()), script, trace, rest)
      ensures pc == Halted || (pc == LoopTest && batch == [])
    {
      ghost var s0 := View();
      trace, rest := Obey(script);
      if pc != Halted {
        FollowThenStep(s0, script, trace, rest, BatchDone);
        trace := trace + [BatchDone];
        rest := After(View(), rest);
        pc := LoopTest;
      }
    }

    /** The batch loop: ends with the whole batch handled or the process dead. */
    method DispatchBatch(script: seq<Action>) returns (ghost trace: seq<Action>, rest: seq<Action>)
      requires pc == Dispatching
      modifies this, current
      ensures Owned()
      ensures Legal(old(View()), trace) && View() == Exec(old(View()), trace)
      ensures Follows(old(View()), script, trace, rest)
      ensures Dead() || (pc == LoopTest && batch == [])
    {
      ghost var s0 := View();
      trace, rest := [], script;
      ghost var mid, more := rest, [];
      while batch != []
        invariant Owned()
        invariant Legal(s0, trace) && View() == Exec(s0, trace)
        invariant Follows(s0, script, trace, rest)
        invariant pc == Dispatching
        decreases |batch|
      {
        mid := rest;
        more, rest := Deliver(rest);
        FollowsOn(s0, script, trace, mid, more, rest);
        trace := trace + more;
        if Dead() {
          return;
        }
      }
      mid := rest;
      more, rest := EndBatch(rest);
      FollowsOn(s0, script, trace, mid, more, rest);
      trace := trace + more;
    }

    /** epoll_wait returns: an error ends the process, a signal restarts the loop. */
    method WaitReturned(a: Action)
      requires (a.WaitInterrupted? || a.WaitFailed? || a.WaitReturns?) && Enabled(View(), a)
      modifies this
      ensures View() == Apply(old(View()), a) && current == old(current)
      ensures pc == if a.WaitFailed? then Halted else if a.WaitInterrupted? then LoopTest else Dispatching
      ensures a.WaitReturns? ==> batch == a.events
    {
      if a.WaitFailed? {
        pc := Halted;
        return;
      }
      if a.WaitInterrupted? {
        pc := LoopTest;
      } else {
        batch, pc := a.events, Dispatching;
      }
    }

    /** epoll_wait returns what the script says, if it can, and the events are handled. */
    method AfterWait(script: seq<Action>) returns (ghost trace: seq<Action>, rest: seq<Action>)
      requires pc == Waiting
      requires script != [] && Enabled(View(), script[0]) ==> !IsCall(script[0])
      modifies this, current
      ensures Owned()
      ensures Legal(old(View()), trace) && View() == Exec(old(View()), trace)
      ensures Follows(old(View()), script, trace, rest)
      ensures Dead() || pc == LoopTest
    {
      ghost var s0 := View();
      var a, mid := WaitInterrupted, [];
      if script != [] && Enabled(View(), script[0]) {
        a, mid := script[0], script[1..];
      }
      WaitReturned(a);
      trace, rest := [], mid;
      if pc == Dispatching {
        trace, rest := DispatchBatch(mid);
      }
      StepThenFollow(s0, script, a, mid, trace, rest);
      trace := [a] + trace;
    }

    /** Other threads run while epoll_wait blocks; then it returns. */
    method Wait(script: seq<Action>) returns (ghost trace: seq<Action>, rest: seq<Action>)
      requires pc == Waiting
      modifies this, current
      ensures Owned()
      ensures Legal(old(View()), trace) && View() == Exec(old(View()), trace)
      ensures Follows(old(View()), script, trace, rest)
      ensures Dead() || pc == LoopTest
    {
      ghost var s0 := View();
      trace, rest := Obey(script);
      if pc == Waiting {
        ghost var mid, more := rest, [];
        more, rest := AfterWait(rest);
        FollowsOn(s0, script, trace, mid, more, rest);
        trace := trace + more;
      }
    }

    /** Other threads run, then the loop condition is tested. */
    method Test(script: seq<Action>) returns (ghost trace: seq<Action>, rest: seq<Action>)
      requires pc == LoopTest
      modifies this, current
      ensures Owned() && trace != []
      ensures Legal(old(View()), trace) && View() == Exec(old(View()), trace)
      ensures Follows(old(View()), script, trace, rest)
      ensures pc == Halted || pc == (if stop then App else Waiting)
    {
      ghost var s0 := View();
      trace, rest := Obey(script);
      if pc != Halted {
        FollowThenStep(s0, script, trace, rest, TestStop);
        trace := trace + [TestStop];
        rest := After(View(), rest);
        pc := if stop then App else Waiting;
      }
    }

    /** One round: test, wait, and the events of the wait.  It ends at the test again, or in the
        application, or with the process. */
    method Round(script: seq<Action>) returns (ghost trace: seq<Action>, rest: seq<Action>)
      requires pc == LoopTest
      modifies this, current
      ensures Owned() && trace != []
      ensures Legal(old(View()), trace) && View() == Exec(old(View()), trace)
      ensures Follows(old(View()), script, trace, rest)
      ensures Dead() || pc == App || pc == LoopTest
    {
      ghost var s0 := View();
      trace, rest := Test(script);
      if pc == Waiting {
        ghost var mid, more := rest, [];
        more, rest := Wait(rest);
        FollowsOn(s0, script, trace, mid, more, rest);
        trace := trace + more;
      }
    }

    /** The rounds of the loop, for as long as the script lasts. */
    method Rounds(script: seq<Action>) returns (ghost trace: seq<Action>, rest: seq<Action>)
      requires pc == LoopTest
      modifies this, current
      ensures Owned()
      ensures Legal(old(View()), trace) && View() == Exec(old(View()), trace)
      ensures Follows(old(View()), script, trace, rest)
      ensures Dead() || pc == App || (pc == LoopTest && rest == [])
    {
      ghost var s0 := View();
      trace, rest := [], script;
      while rest != [] && pc == LoopTest
        invariant Owned()
        invariant Legal(s0, trace) && View() == Exec(s0, trace)
        invariant Follows(s0, script, trace, rest)
        invariant Dead() || pc == App || pc == LoopTest
        decreases |rest|
      {
        ghost var mid, more, s := rest, [], View();
        more, rest := Round(rest);
        FollowsOn(s0, script, trace, mid, more, rest);
        FollowsUses(s, mid, more, rest);
        trace := trace + more;
      }
    }

    /** `proactor_tcp_epoll_run`.  Every execution is a run of the step system, and every event
        that epoll_wait reports in it is handled, unless the process dies before.  The other way
        round, a script that is a run is what is executed, step by step: up to its end, or to
        where the loop is left. */
    method Run(script: seq<Action>) returns (ghost trace: seq<Action>)
      requires Enabled(View(), EnterRun)
      modifies this, current
      ensures Owned()
      ensures Legal(old(View()), trace) && View() == Exec(old(View()), trace)
      ensures trace != [] && trace[0] == EnterRun
      ensures Dead() || (pc == App && stop) || pc == LoopTest
      ensures Reachable(old(View())) ==> Reachable(View())
      ensures old(batch) == [] && !Dead() ==> Handled(old(View()), trace) == Reported(trace)
      ensures Legal(old(View()), [EnterRun] + script) ==>
        [EnterRun] + script <= trace || (trace <= [EnterRun] + script && pc == App)
    {
      ghost var s0 := View();
      Single(s0, EnterRun);
      pc := LoopTest;
      ghost var s1 := View();
      var rest;
      trace, rest := Rounds(script);
      ScriptIsFollowed(s0, script, trace, rest);
      trace := [EnterRun] + trace;
      if Reachable(s0) { ReachRun(s0, trace); }
      RunHandlesAll(s0, trace);
    }

    method Cleanup()
      requires Enabled(View(), CallCleanup)
      modifies this
      ensures View() == Apply(old(View()), CallCleanup) && current == old(current)
    {
      open := open - {server, client, wakeRead, wakeWrite, epollFd};
      listening, interest := {}, map[];
      if current != null {
        FreeCells();
      }
      pc := Disposed;
    }
  }
}
