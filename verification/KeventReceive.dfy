/** Repeated reads of a TCP socket by the kevent proactor (`process_read_ready`,
    src/util/proactor_net_kevent.c).  The length of the buffer is also where the length of
    the data read goes, so each read bounds all later ones. */
module KeventReceive {
  import opened Basics

  /** A socket, its buffer length, and the stream behind it: `arrived` is every byte the peer
      sent, `pending` what was not read yet, `ended` that the peer closed. */
  datatype Reader = Reader(
    capacity: nat, receiveSet: bool, closeSet: bool,
    arrived: seq<byte>, pending: seq<byte>, ended: bool,
    delivered: seq<seq<byte>>, closes: nat)

  datatype ReadStatus = Ok | NullPointer

  /** What recvfrom may return: -1, or the first bytes of the stream in any number up to the
      requested one, or 0 at the end of the stream or if nothing was requested. */
  predicate RecvContract(s: Reader, n: int) {
    || n == -1
    || (n == 0 && (s.capacity == 0 || (s.pending == [] && s.ended)))
    || (1 <= n <= s.capacity && n <= |s.pending|)
  }

  function ReadReady(s: Reader, n: int): Reader
    requires s.receiveSet ==> RecvContract(s, n)
  {
    if !s.receiveSet then s
    else if n > 0 then
      s.(pending := s.pending[n..], capacity := n, delivered := s.delivered + [s.pending[..n]])
    else if n == 0 && s.closeSet then s.(closes := s.closes + 1)
    else s
  }

  class TcpSocket {
    var dataLength: nat
    var receiveSet: bool
    var closeSet: bool
    var arrived: seq<byte>
    var pending: seq<byte>
    var ended: bool
    var delivered: seq<seq<byte>>
    var closes: nat

    function View(): Reader
      reads this
    {
      Reader(dataLength, receiveSet, closeSet, arrived, pending, ended, delivered, closes)
    }

    constructor (dataLength: nat, receiveSet: bool, closeSet: bool)
      ensures View() == Reader(dataLength, receiveSet, closeSet, [], [], false, [], 0)
    {
      this.dataLength, this.receiveSet, this.closeSet := dataLength, receiveSet, closeSet;
      arrived, pending, ended, delivered, closes := [], [], false, [], 0;
    }

    /** recvfrom, given the number it returns: takes the bytes off the stream. */
    method Receive(n: int) returns (bytes: seq<byte>)
      requires RecvContract(View(), n)
      modifies this`pending
      ensures n > 0 ==> bytes == old(pending)[..n] && pending == old(pending)[n..]
      ensures n <= 0 ==> pending == old(pending)
    {
      bytes := [];
      if n > 0 {
        bytes, pending := pending[..n], pending[n..];
      }
    }

    method ProcessReadReady(n: int) returns (rc: ReadStatus)
      requires receiveSet ==> RecvContract(View(), n)
      modifies this
      ensures View() == ReadReady(old(View()), n)
      ensures rc == NullPointer <==> !old(receiveSet)
    {
      rc := Ok;
      if !receiveSet {
        return NullPointer;
      }
      var bytes := Receive(n);
      if n > 0 {
        dataLength := n;
        delivered := delivered + [bytes];
      } else if n == 0 {
        if closeSet {
          closes := closes + 1;
        }
      }
    }
  }

  // ---- Runs ------------------------------------------------------------------------------------------

  datatype StreamAction = Arrive(bytes: seq<byte>) | PeerCloses | ReadEvent(n: int)

  predicate CanHappen(s: Reader, a: StreamAction) {
    match a
    case Arrive(_) => !s.ended
    case PeerCloses => true
    case ReadEvent(n) => s.receiveSet ==> RecvContract(s, n)
  }

  function Happen(s: Reader, a: StreamAction): Reader
    requires CanHappen(s, a)
  {
    match a
    case Arrive(bytes) => s.(arrived := s.arrived + bytes, pending := s.pending + bytes)
    case PeerCloses => s.(ended := true)
    case ReadEvent(n) => ReadReady(s, n)
  }

  ghost predicate Possible(s: Reader, acts: seq<StreamAction>)
    decreases |acts|
  {
    acts == [] || (CanHappen(s, acts[0]) && Possible(Happen(s, acts[0]), acts[1..]))
  }

  ghost function After(s: Reader, acts: seq<StreamAction>): Reader
    requires Possible(s, acts)
    decreases |acts|
  {
    if acts == [] then s else After(Happen(s, acts[0]), acts[1..])
  }

  function Concat(chunks: seq<seq<byte>>): seq<byte> {
    if chunks == [] then [] else Concat(chunks[..|chunks| - 1]) + chunks[|chunks| - 1]
  }

  /** The chunks never get longer, the buffer length is that of the last one, and the close
      callback means that the stream ended and was delivered whole. */
  ghost predicate ReaderInv(s: Reader, initial: nat) {
    && 1 <= s.capacity <= initial
    && s.capacity == (if s.delivered == [] then initial else |s.delivered[|s.delivered| - 1]|)
    && (forall i | 0 <= i < |s.delivered| :: s.capacity <= |s.delivered[i]| <= initial)
    && (forall i, j | 0 <= i < j < |s.delivered| :: |s.delivered[i]| >= |s.delivered[j]|)
    && Concat(s.delivered) + s.pending == s.arrived
    && (s.closes > 0 ==> s.ended && s.pending == [])
  }

  lemma ReadKeepsReader(s: Reader, n: int, initial: nat)
    requires ReaderInv(s, initial) && s.receiveSet && RecvContract(s, n)
    ensures ReaderInv(ReadReady(s, n), initial)
  {
    if n > 0 {
      var t := ReadReady(s, n);
      assert t.delivered[..|s.delivered|] == s.delivered;
      assert s.pending == s.pending[..n] + s.pending[n..];
    }
  }

  lemma StepKeepsReader(s: Reader, a: StreamAction, initial: nat)
    requires ReaderInv(s, initial) && CanHappen(s, a)
    ensures ReaderInv(Happen(s, a), initial) && Happen(s, a).capacity <= s.capacity
  {
    if a.ReadEvent? && s.receiveSet {
      ReadKeepsReader(s, a.n, initial);
    } else if a.Arrive? {
      assert Concat(s.delivered) + (s.pending + a.bytes) == (Concat(s.delivered) + s.pending) + a.bytes;
    }
  }

  lemma {:induction false} RunKeepsReader(s: Reader, acts: seq<StreamAction>, initial: nat)
    requires ReaderInv(s, initial) && Possible(s, acts)
    ensures ReaderInv(After(s, acts), initial) && After(s, acts).capacity <= s.capacity
    decreases |acts|
  {
    if acts == [] {
    } else {
      StepKeepsReader(s, acts[0], initial);
      RunKeepsReader(Happen(s, acts[0]), acts[1..], initial);
    }
  }

  lemma ReaderSays(s: Reader, initial: nat)
    requires ReaderInv(s, initial)
    ensures 1 <= s.capacity <= initial
    ensures forall i, j | 0 <= i < j < |s.delivered| :: |s.delivered[i]| >= |s.delivered[j]|
    ensures s.delivered != [] ==> s.capacity == |s.delivered[|s.delivered| - 1]|
    ensures Concat(s.delivered) <= s.arrived
    ensures s.closes > 0 ==> s.ended && Concat(s.delivered) == s.arrived
  {
  }

  /** For every run from a fresh socket with room for a byte: the requested length stays
      between 1 and the initial one and never grows, what is delivered is the stream in order,
      each chunk at most as long as the one before, and a close callback means that the stream
      ended and every byte of it was delivered. */
  lemma CapacityOverRuns(start: Reader, acts: seq<StreamAction>, more: seq<StreamAction>)
    requires start.capacity >= 1 && start.arrived == start.pending == [] && start.delivered == [] && start.closes == 0
    requires Possible(start, acts) && Possible(After(start, acts), more)
    ensures var s, t := After(start, acts), After(After(start, acts), more);
      && 1 <= t.capacity <= s.capacity <= start.capacity
      && (forall i, j | 0 <= i < j < |t.delivered| :: |t.delivered[i]| >= |t.delivered[j]|)
      && (t.delivered != [] ==> t.capacity == |t.delivered[|t.delivered| - 1]|)
      && Concat(t.delivered) <= t.arrived
      && (t.closes > 0 ==> t.ended && Concat(t.delivered) == t.arrived)
  {
    var s := After(start, acts);
    RunKeepsReader(start, acts, start.capacity);
    RunKeepsReader(s, more, start.capacity);
    ReaderSays(After(s, more), start.capacity);
  }

  /** A read of a stream with bytes left can end in the close callback exactly when the
      buffer has length 0. */
  lemma SpuriousCloseIff(s: Reader)
    requires s.receiveSet && s.closeSet && s.pending != []
    ensures (exists n :: RecvContract(s, n) && ReadReady(s, n).closes > s.closes) <==> s.capacity == 0
  {
    if s.capacity == 0 {
      assert RecvContract(s, 0) && ReadReady(s, 0).closes > s.closes;
    }
  }

  /** The reads of a run that return 0. */
  function ZeroReads(acts: seq<StreamAction>): nat {
    if acts == [] then 0 else (if acts[0] == ReadEvent(0) then 1 else 0) + ZeroReads(acts[1..])
  }

  /** Over every run the close callback is called once for each read that returns 0, as long as
      both callbacks are set, and never otherwise. */
  lemma {:induction false} CloseForEachZeroRead(s: Reader, acts: seq<StreamAction>)
    requires Possible(s, acts)
    ensures After(s, acts).closes == s.closes + if s.receiveSet && s.closeSet then ZeroReads(acts) else 0
    decreases |acts|
  {
    if acts == [] {
    } else {
      CloseForEachZeroRead(Happen(s, acts[0]), acts[1..]);
    }
  }
}
