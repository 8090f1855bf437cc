/** Two proactors joined by one connection: the byte stream between them is a queue, the
    sender writes to its end `c`, the receiver reads its end `d`. */
module EndToEnd {
  import opened Basics
  import opened EpollModel
  import opened EpollInvariants
  import opened EpollSend
  import opened EpollDelivery

  datatype Link = Link(tx: State, queue: seq<byte>, rx: State)

  datatype LinkAction = TxStep(a: Action) | RxStep(a: Action)

  /** The bytes of `wire` written to `fd`. */
  ghost function WrittenTo(wire: seq<Sent>, fd: Fd): seq<byte> {
    if wire == [] then []
    else
      var last := wire[|wire| - 1];
      WrittenTo(wire[..|wire| - 1], fd) + if last.fd == fd then [last.value] else []
  }

  /** The receiver reads `d` in this step. */
  predicate Reads(s: State, a: Action, d: Fd)
    requires Enabled(s, a)
  {
    a.Dispatch? && Route(s, s.batch[0]) == DataHandler && s.batch[0].fd == d && a.r.n > 0
  }

  /** The sender opens no further socket, the receiver keeps its receive callback, and a read
      of the connection returns the bytes at the front of the queue, in any number. */
  predicate LinkEnabled(l: Link, x: LinkAction, d: Fd) {
    match x
    case TxStep(a) => Enabled(l.tx, a) && !a.CallConnect? && !a.CallStartServer?
    case RxStep(a) =>
      && Enabled(l.rx, a) && a != SetCallback(OnReceive, false)
      && (Reads(l.rx, a, d) ==> a.r.bytes <= l.queue)
  }

  ghost function LinkApply(l: Link, x: LinkAction, c: Fd, d: Fd): Link
    requires LinkEnabled(l, x, d)
  {
    match x
    case TxStep(a) =>
      var tx := Apply(l.tx, a);
      l.(tx := tx, queue := l.queue + if l.tx.log.wire <= tx.log.wire
                                      then WrittenTo(tx.log.wire[|l.tx.log.wire|..], c) else [])
    case RxStep(a) =>
      l.(rx := Apply(l.rx, a), queue := if Reads(l.rx, a, d) then l.queue[|a.r.bytes|..] else l.queue)
  }

  ghost predicate LinkLegal(l: Link, xs: seq<LinkAction>, c: Fd, d: Fd)
    decreases |xs|
  {
    xs == [] || (LinkEnabled(l, xs[0], d) && LinkLegal(LinkApply(l, xs[0], c, d), xs[1..], c, d))
  }

  ghost function LinkExec(l: Link, xs: seq<LinkAction>, c: Fd, d: Fd): Link
    requires LinkLegal(l, xs, c, d)
    decreases |xs|
  {
    if xs == [] then l else LinkExec(LinkApply(l, xs[0], c, d), xs[1..], c, d)
  }

  /** A sender whose only data socket is `c` and that has no listener, before its first send;
      a receiver that has its callback set and has read nothing of `d` yet. */
  ghost predicate LinkStart(l: Link, c: Fd, d: Fd) {
    && Reachable(l.tx) && Active(l.tx) && DataSockets(l.tx) <= {c} && l.tx.listening == {}
    && !l.tx.pc.InAcceptCallback?
    && l.tx.log.accepted == [] && l.tx.log.wire == [] && l.queue == []
    && l.rx.callbacks.receive && ReceivedOn(l.rx.log.received, d) == []
  }

  // ---- Sender ---------------------------------------------------------------------------------

  lemma {:induction false} AllTo(wire: seq<Sent>, fd: Fd)
    requires forall i | 0 <= i < |wire| :: wire[i].fd == fd
    ensures WrittenTo(wire, fd) == Bytes(wire)
  {
    if wire == [] {
    } else {
      AllTo(wire[..|wire| - 1], fd);
      assert Bytes(wire) == Bytes(wire[..|wire| - 1]) + [wire[|wire| - 1].value];
    }
  }

  /** The sender invariant.  A dead sender keeps its log, so it keeps the last clause. */
  ghost predicate TxInv(s: State, c: Fd) {
    && Inv(s)
    && (Active(s) ==> DataSockets(s) <= {c} && s.listening == {} && !s.pc.InAcceptCallback?)
    && Bytes(s.log.wire) <= Stream(s.log.accepted, |s.log.accepted|)
  }

  /** In a live state the wire is a prefix of the accepted stream. */
  lemma WireIsPrefix(s: State)
    requires WireInv(s)
    ensures Bytes(s.log.wire) <= Stream(s.log.accepted, |s.log.accepted|)
    ensures s.slot.None? ==> Bytes(s.log.wire) == Stream(s.log.accepted, |s.log.accepted|)
  {
    if InFlight(s) {
      assert Partial(s) <= s.log.accepted[|s.log.finishes|].payload;
    }
  }

  /** Every byte a step of the sender puts on the wire goes to `c`. */
  lemma TxWritesTo(s: State, a: Action, c: Fd)
    requires TxInv(s, c) && Enabled(s, a)
    ensures s.log.wire <= Apply(s, a).log.wire
    ensures forall i | |s.log.wire| <= i < |Apply(s, a).log.wire| :: Apply(s, a).log.wire[i].fd == c
  {
    StepWrites(s, a);
    if a.Dispatch? && Route(s, s.batch[0]) == WriteHandler {
      assert s.batch[0].fd in DataSockets(s);
    }
  }

  /** Without a listener and without connect or start_server, no socket is added. */
  lemma NoNewSocket(s: State, a: Action, c: Fd)
    requires RegistrationInv(s) && BatchInv(s) && !s.pc.InAcceptCallback?
    requires DataSockets(s) <= {c} && s.listening == {}
    requires Enabled(s, a) && !a.CallConnect? && !a.CallStartServer? && Active(Apply(s, a))
    ensures DataSockets(Apply(s, a)) <= {c} && Apply(s, a).listening == {} && !Apply(s, a).pc.InAcceptCallback?
  {
    if a.Dispatch? {
      assert s.batch[0].fd in s.interest;
      OtherHandlersKeepDescriptors(s.(batch := s.batch[1..]), Route(s, s.batch[0]), s.batch[0].fd, a.r);
    }
  }

  lemma DyingKeepsLog(s: State, a: Action)
    requires Enabled(s, a) && Apply(s, a).pc == Halted
    ensures Apply(s, a).log == s.log
  {
  }

  lemma TxStays(s: State, a: Action, c: Fd)
    requires TxInv(s, c) && Enabled(s, a) && !a.CallConnect? && !a.CallStartServer?
    ensures TxInv(Apply(s, a), c)
  {
    StepKeepsInv(s, a);
    if Apply(s, a).pc == Halted {
      DyingKeepsLog(s, a);
    } else {
      WireIsPrefix(Apply(s, a));
    }
    if Active(Apply(s, a)) {
      NoNewSocket(s, a, c);
    }
  }

  // ---- The connection ---------------------------------------------------------------------------

  /** The bytes of the connection that are not lost: passed on, or still in the queue. */
  ghost function Kept(l: Link, d: Fd): seq<byte> { ReceivedOn(l.rx.log.received, d) + l.queue }

  ghost predicate LinkInv(l: Link, c: Fd, d: Fd) {
    && TxInv(l.tx, c)
    && l.rx.callbacks.receive
    && Kept(l, d) == Bytes(l.tx.log.wire)
  }

  lemma BytesSplit(wire: seq<Sent>, n: nat, c: Fd)
    requires n <= |wire| && forall i | n <= i < |wire| :: wire[i].fd == c
    ensures Bytes(wire) == Bytes(wire[..n]) + WrittenTo(wire[n..], c)
  {
    AllTo(wire[n..], c);
  }

  lemma TxConserves(before: seq<Sent>, after: seq<Sent>, c: Fd, received: seq<byte>, queue: seq<byte>)
    requires before <= after && forall i | |before| <= i < |after| :: after[i].fd == c
    requires received + queue == Bytes(before)
    ensures received + (queue + WrittenTo(after[|before|..], c)) == Bytes(after)
  {
    BytesSplit(after, |before|, c);
    assert after[..|before|] == before;
    var more := WrittenTo(after[|before|..], c);
    assert received + (queue + more) == (received + queue) + more;
  }

  lemma TxKeepsLink(l: Link, a: Action, c: Fd, d: Fd)
    requires LinkInv(l, c, d) && LinkEnabled(l, TxStep(a), d)
    ensures LinkInv(LinkApply(l, TxStep(a), c, d), c, d)
  {
    TxStays(l.tx, a, c);
    TxWritesTo(l.tx, a, c);
    TxConserves(l.tx.log.wire, Apply(l.tx, a).log.wire, c, ReceivedOn(l.rx.log.received, d), l.queue);
  }

  lemma OtherStepsReceiveNothing(s: State, a: Action)
    requires Enabled(s, a) && !a.Dispatch?
    ensures Apply(s, a).log.received == s.log.received
    ensures a != SetCallback(OnReceive, false) && s.callbacks.receive ==> Apply(s, a).callbacks.receive
  {
  }

  /** With its callback set, the receiver passes on what it reads of `d`, and nothing else. */
  lemma RxReceives(s: State, a: Action, d: Fd)
    requires Enabled(s, a)
    ensures ReceivedOn(Apply(s, a).log.received, d)
            == ReceivedOn(s.log.received, d) + if Reads(s, a, d) && s.callbacks.receive then a.r.bytes else []
    ensures a != SetCallback(OnReceive, false) && s.callbacks.receive ==> Apply(s, a).callbacks.receive
  {
    if a.Dispatch? {
      HandlerReceives(s.(batch := s.batch[1..]), Route(s, s.batch[0]), s.batch[0].fd, a.r, d);
    } else {
      OtherStepsReceiveNothing(s, a);
    }
  }

  /** Bytes taken from the front of the queue and handed over, or not. */
  lemma TakenFromQueue(received: seq<byte>, queue: seq<byte>, taken: seq<byte>)
    requires taken <= queue
    ensures (received + taken) + queue[|taken|..] == received + queue
    ensures received + queue[|taken|..] == received + queue <==> taken == []
  {
    assert queue == taken + queue[|taken|..];
    assert |received + queue[|taken|..]| == |received + queue| - |taken|;
  }

  /** The receiving side of the link after one of its steps. */
  lemma RxApplied(l: Link, a: Action, c: Fd, d: Fd)
    requires LinkEnabled(l, RxStep(a), d)
    ensures var t := LinkApply(l, RxStep(a), c, d);
      && t.tx == l.tx && t.rx == Apply(l.rx, a)
      && t.queue == if Reads(l.rx, a, d) then l.queue[|a.r.bytes|..] else l.queue
  {
  }

  /** A step of the receiver loses no byte of the connection exactly when it reads none of
      them or the receive callback is set. */
  lemma RxConservesIff(l: Link, a: Action, c: Fd, d: Fd)
    requires LinkEnabled(l, RxStep(a), d)
    ensures Kept(LinkApply(l, RxStep(a), c, d), d) == Kept(l, d) <==> (Reads(l.rx, a, d) ==> l.rx.callbacks.receive)
  {
    RxReceives(l.rx, a, d);
    RxApplied(l, a, c, d);
    if Reads(l.rx, a, d) {
      TakenFromQueue(ReceivedOn(l.rx.log.received, d), l.queue, a.r.bytes);
    }
  }

  lemma RxKeepsLink(l: Link, a: Action, c: Fd, d: Fd)
    requires LinkInv(l, c, d) && LinkEnabled(l, RxStep(a), d)
    ensures LinkInv(LinkApply(l, RxStep(a), c, d), c, d)
  {
    RxReceives(l.rx, a, d);
    RxApplied(l, a, c, d);
    RxConservesIff(l, a, c, d);
  }

  lemma {:induction false} RunKeepsLink(l: Link, xs: seq<LinkAction>, c: Fd, d: Fd)
    requires LinkInv(l, c, d) && LinkLegal(l, xs, c, d)
    ensures LinkInv(LinkExec(l, xs, c, d), c, d)
    decreases |xs|
  {
    if xs == [] {
    } else {
      match xs[0] {
        case TxStep(a) => TxKeepsLink(l, a, c, d);
        case RxStep(a) => RxKeepsLink(l, a, c, d);
      }
      RunKeepsLink(LinkApply(l, xs[0], c, d), xs[1..], c, d);
    }
  }

  lemma StartHasLink(l: Link, c: Fd, d: Fd)
    requires LinkStart(l, c, d)
    ensures LinkInv(l, c, d)
  {
    ReachableInv(l.tx);
  }

  lemma LinkSays(l: Link, c: Fd, d: Fd)
    requires LinkInv(l, c, d)
    ensures
      var accepted := Stream(l.tx.log.accepted, |l.tx.log.accepted|);
      var received := ReceivedOn(l.rx.log.received, d);
      && received <= accepted
      && (l.tx.pc != Halted && l.tx.slot.None? && l.queue == [] ==> received == accepted)
  {
    var received := ReceivedOn(l.rx.log.received, d);
    assert received <= Bytes(l.tx.log.wire);
    if l.tx.pc != Halted && l.tx.slot.None? && l.queue == [] {
      WireIsPrefix(l.tx);
      assert received + l.queue == received;
    }
  }

  /** In every interleaving, what the receiver was given is a prefix of what the sender
      accepted, even after either side died; and it is all of it once a live sender's slot is
      empty and nothing is left in the queue. */
  lemma ReceivedIsPrefixOfAccepted(l: Link, xs: seq<LinkAction>, c: Fd, d: Fd)
    requires LinkStart(l, c, d) && LinkLegal(l, xs, c, d)
    ensures
      var e := LinkExec(l, xs, c, d);
      var accepted := Stream(e.tx.log.accepted, |e.tx.log.accepted|);
      var received := ReceivedOn(e.rx.log.received, d);
      && received <= accepted
      && (e.tx.pc != Halted && e.tx.slot.None? && e.queue == [] ==> received == accepted)
  {
    StartHasLink(l, c, d);
    RunKeepsLink(l, xs, c, d);
    LinkSays(LinkExec(l, xs, c, d), c, d);
  }
}
