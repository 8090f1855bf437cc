/** Pieces of runs that other proofs put together: write a byte of the slot, accept a
    client, receive a byte, answer it. */
module EpollRuns {
  import opened Basics
  import opened EpollModel
  import opened EpollInvariants

  /** The next byte of a request in flight, whoever it was for, goes to any socket that is
      watched for EPOLLOUT. */
  lemma WriteByte(from: State, s: State, fd: Fd) returns (t: State)
    requires Reaches(from, s) && s.pc == Waiting && InFlight(s)
    requires fd in DataSockets(s) && s.interest[fd].writable && fd != s.server
    requires s.slot.value.offset < |s.slot.value.data|
    ensures Reaches(from, t) && t.log.accepted == s.log.accepted && DataSockets(t) == DataSockets(s)
    ensures t.log.wire == s.log.wire + [Sent(fd, s.slot.value.data[s.slot.value.offset])]
  {
    var e := Event(fd, false, true, false);
    assert Reportable(s, e);
    t := Take(from, s, WaitReturns([e]));
    var q := s.slot.value;
    assert Tagged(fd, q.data[q.offset..q.offset + 1]) == [Sent(fd, q.data[q.offset])];
    t := Take(from, t, Dispatch(SysResult(1, [], true)));
  }

  /** An empty payload takes one write of no byte. */
  lemma WriteNothing(from: State, s: State, fd: Fd) returns (t: State)
    requires Reaches(from, s) && s.pc == Waiting && InFlight(s) && s.slot.value.data == [] && s.slot.value.offset == 0
    requires fd in DataSockets(s) && s.interest[fd].writable && fd != s.server
    ensures Reaches(from, t) && |t.log.finishes| == |s.log.finishes| + 1
  {
    var e := Event(fd, false, true, false);
    assert Reportable(s, e);
    t := Take(from, s, WaitReturns([e]));
    t := Take(from, t, Dispatch(SysResult(0, [], true)));
  }

  /** The listener can be reported: no send has replaced its mask. */
  predicate Listening(s: State) {
    s.server in s.interest && s.interest[s.server].readable && s.server != s.wakeRead
  }

  /** The accept handler, and the callback it may call, register the client. */
  lemma AcceptFresh(from: State, s: State, fd: Fd) returns (t: State)
    requires Reaches(from, s) && s.pc == Dispatching && s.batch != [] && Route(s, s.batch[0]) == AcceptHandler
    requires LOOP !in s.stoppers && Fresh(s, fd) && fd !in s.interest
    ensures Reaches(from, t)
    ensures t == s.(batch := s.batch[1..], open := s.open + {fd}, interest := s.interest[fd := IN_OUT])
  {
    t := Take(from, s, Dispatch(SysResult(fd, [], true)));
    if s.callbacks.accept {
      t := Take(from, t, CallbackReturns(true));
    }
  }

  /** A loop that listens accepts a client and waits again. */
  lemma AcceptClient(from: State, s: State, fd: Fd) returns (t: State)
    requires Reaches(from, s) && s.pc == Waiting && s.batch == [] && !s.stop && LOOP !in s.stoppers
    requires Listening(s) && Fresh(s, fd) && fd !in s.interest
    ensures Reaches(from, t)
    ensures t == s.(open := s.open + {fd}, interest := s.interest[fd := IN_OUT])
  {
    var e := Event(s.server, true, false, false);
    assert Reportable(s, e);
    t := Take(from, s, WaitReturns([e]));
    t := AcceptFresh(from, t, fd);
    t := Take(from, t, BatchDone);
    t := Take(from, t, TestStop);
  }

  lemma ListenAndRun(init: State, f: Fd) returns (s: State)
    requires IsInit(init) && Fresh(init, f)
    ensures Reaches(init, s)
    ensures s == init.(pc := Waiting, callbacks := Callbacks(true, false, false), server := f, listening := {f},
                       open := init.open + {f}, interest := init.interest[f := IN_ONLY])
  {
    ReachesItself(init);
    s := Take(init, init, CallStartServer(f, true));
    s := Take(init, s, SetCallback(OnReceive, true));
    s := Take(init, s, EnterRun);
    s := Take(init, s, TestStop);
  }

  lemma TwoClients(init: State, f: Fd) returns (s: State)
    requires IsInit(init) && f >= 0 && forall fd | fd in init.open :: fd < f
    ensures Reaches(init, s) && s.pc == Waiting && s.batch == [] && !s.stop && s.stoppers == {}
    ensures s.callbacks == Callbacks(true, false, false) && s.slot == None && s.heap == Heap({}, {}, false)
    ensures s.log == init.log && s.server == f && {f + 1, f + 2} <= DataSockets(s) && {f + 1, f + 2} <= s.open
    ensures s.interest[f + 1] == IN_OUT && s.interest[f + 2] == IN_OUT
  {
    s := ListenAndRun(init, f);
    s := AcceptClient(init, s, f + 1);
    s := AcceptClient(init, s, f + 2);
  }

  /** One byte arrives on `fd` and the loop is in the receive callback. */
  lemma ReceiveByte(from: State, s: State, fd: Fd) returns (t: State)
    requires Reaches(from, s) && s.pc == Waiting && s.batch == [] && s.callbacks.receive && !s.stop
    requires fd in DataSockets(s) && fd != s.server && s.interest[fd].readable
    ensures Reaches(from, t)
    ensures t == s.(pc := InReceiveCallback(fd), log := s.log.(received := s.log.received + [Chunk(fd, [1])]))
  {
    var e := Event(fd, true, false, false);
    assert Reportable(s, e);
    t := Take(from, s, WaitReturns([e]));
    t := Take(from, t, Dispatch(SysResult(1, [1], true)));
  }

  /** The callback sends and returns, and the loop waits again. */
  lemma Answer(from: State, s: State, fd: Fd, data: seq<byte>) returns (t: State)
    requires Reaches(from, s) && s.pc.InReceiveCallback? && s.batch == [] && !s.stop && s.stoppers == {}
    requires s.slot.None? && s.heap == Heap({}, {}, false) && fd in s.interest && fd in s.open
    ensures Reaches(from, t)
    ensures t == s.(pc := Waiting, slot := Some(Request(data, 0, 0, 0)), heap := Heap({0}, {0}, false),
                    interest := s.interest[fd := OUT_ONLY],
                    log := s.log.(accepted := s.log.accepted + [Accepted(fd, data)]))
  {
    t := Take(from, s, CallSend(fd, data, Allocation(Some(0), Some(0)), true));
    t := Take(from, t, CallbackReturns(true));
    t := Take(from, t, BatchDone);
    t := Take(from, t, TestStop);
  }
}
