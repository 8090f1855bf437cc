/** Creation and disposal of the kevent proactor (src/util/proactor_net_kevent.c): which
    descriptors, socket nodes and memory blocks are opened, closed and freed, in which order. */
module KeventProactor {
  import opened Basics

  const INVALID: Fd := -1

  type Ptr = nat
  const NULL: Ptr := 0

  /** `struct proactor_socket_t`, as far as disposal uses it. */
  datatype Node = Node(next: Ptr, sock: Fd, hasCloseCallback: bool)

  /** A node and the address it is at. */
  datatype Cell = Cell(at: Ptr, node: Node)

  /** The live nodes; a freed address is not in the map, so no field can be read there. */
  type Memory = map<Ptr, Node>

  /** What the outside sees of a creation or a disposal. */
  datatype Effect =
    | Allocated(at: Ptr)
    | Opened(fd: Fd)
    | WroteWake(fd: Fd)
    | DisposeEvent
    | CloseCallback(at: Ptr)
    | Closed(fd: Fd)
    | Freed(at: Ptr)

  // ---- Lists --------------------------------------------------------------------------------------

  /** Following `next` from `head` visits exactly `cells`, all live, and ends at NULL. */
  ghost predicate IsList(mem: Memory, head: Ptr, cells: seq<Cell>)
    decreases |cells|
  {
    if cells == [] then head == NULL
    else
      && head != NULL && head in mem && cells[0] == Cell(head, mem[head])
      && IsList(mem, mem[head].next, cells[1..])
  }

  function Ats(cells: seq<Cell>): set<Ptr> { set c | c in cells :: c.at }

  predicate Distinct(cells: seq<Cell>) {
    cells == [] || (cells[0].at !in Ats(cells[1..]) && Distinct(cells[1..]))
  }

  lemma AtsHead(cells: seq<Cell>)
    requires cells != []
    ensures Ats(cells) == {cells[0].at} + Ats(cells[1..])
  {
    assert cells == [cells[0]] + cells[1..];
  }

  lemma {:induction false} ListIsUnique(mem: Memory, head: Ptr, a: seq<Cell>, b: seq<Cell>)
    requires IsList(mem, head, a) && IsList(mem, head, b)
    ensures a == b
    decreases |a|
  {
    if a == [] || b == [] {
    } else {
      ListIsUnique(mem, mem[head].next, a[1..], b[1..]);
      assert a == [a[0]] + a[1..] && b == [b[0]] + b[1..];
    }
  }

  lemma {:induction false} ListFrom(mem: Memory, head: Ptr, cells: seq<Cell>, k: nat)
    requires IsList(mem, head, cells) && k < |cells|
    ensures IsList(mem, cells[k].at, cells[k..])
    decreases k
  {
    if k == 0 {
      assert cells[0..] == cells;
    } else {
      ListFrom(mem, mem[head].next, cells[1..], k - 1);
      assert cells[1..][k - 1..] == cells[k..];
    }
  }

  /** A list that ends has no cycle. */
  lemma {:induction false} ListIsDistinct(mem: Memory, head: Ptr, cells: seq<Cell>)
    requires IsList(mem, head, cells)
    ensures Distinct(cells)
    decreases |cells|
  {
    if cells == [] {
    } else {
      var rest := cells[1..];
      ListIsDistinct(mem, mem[head].next, rest);
      if head in Ats(rest) {
        var k: nat :| k < |rest| && rest[k].at == head;
        ListFrom(mem, mem[head].next, rest, k);
        ListIsUnique(mem, head, cells, rest[k..]);
        assert false;
      }
    }
  }

  lemma {:induction false} FreeingElsewhere(mem: Memory, head: Ptr, cells: seq<Cell>, at: Ptr)
    requires IsList(mem, head, cells) && at !in Ats(cells)
    ensures IsList(mem - {at}, head, cells)
    decreases |cells|
  {
    if cells == [] {
    } else {
      AtsHead(cells);
      FreeingElsewhere(mem, mem[head].next, cells[1..], at);
    }
  }

  // ---- Specification ----------------------------------------------------------------------------

  /** What happens to one node, and to a list of them, head first. */
  function NodeLog(c: Cell): seq<Effect> {
    (if c.node.hasCloseCallback then [CloseCallback(c.at)] else []) + [Closed(c.node.sock), Freed(c.at)]
  }

  function Teardown(cells: seq<Cell>): seq<Effect> {
    if cells == [] then [] else NodeLog(cells[0]) + Teardown(cells[1..])
  }

  /** How the four calls of a creation end; each is made only if the ones before succeed. */
  datatype Creation =
    | CallocFails
    | KqueueFails(at: Ptr)
    | PipeFails(at: Ptr, kq: Fd)
    | KeventFails(at: Ptr, kq: Fd, wakeRead: Fd, wakeWrite: Fd)
    | Succeeds(at: Ptr, kq: Fd, wakeRead: Fd, wakeWrite: Fd)

  /** The kernel hands out numbers from 0 on. */
  predicate CreationContract(c: Creation) {
    match c
    case PipeFails(_, kq) => kq >= 0
    case KeventFails(_, kq, r, w) => kq >= 0 && r >= 0 && w >= 0
    case Succeeds(_, kq, r, w) => kq >= 0 && r >= 0 && w >= 0
    case _ => true
  }

  function CreateLog(c: Creation): seq<Effect> {
    match c
    case CallocFails => []
    case KqueueFails(at) => [Allocated(at)]
    case PipeFails(at, kq) => [Allocated(at), Opened(kq)]
    case KeventFails(at, kq, r, w) => [Allocated(at), Opened(kq), Opened(r), Opened(w)]
    case Succeeds(at, kq, r, w) => [Allocated(at), Opened(kq), Opened(r), Opened(w)]
  }

  /** The descriptors a creation leaves in the proactor. */
  datatype Descriptors = Descriptors(kq: Fd, wakeRead: Fd, wakeWrite: Fd)

  function Fields(c: Creation): Descriptors {
    match c
    case CallocFails => Descriptors(INVALID, INVALID, INVALID)
    case KqueueFails(_) => Descriptors(INVALID, INVALID, INVALID)
    case PipeFails(_, kq) => Descriptors(kq, INVALID, INVALID)
    case KeventFails(_, kq, r, w) => Descriptors(kq, r, w)
    case Succeeds(_, kq, r, w) => Descriptors(kq, r, w)
  }

  /** The wake of `stop` and the event callback. */
  function StartLog(d: Descriptors, hasEvent: bool): seq<Effect> {
    [WroteWake(d.wakeWrite)] + if hasEvent then [DisposeEvent] else []
  }

  function OwnLog(d: Descriptors): seq<Effect> {
    (if d.wakeRead != INVALID then [Closed(d.wakeRead), Closed(d.wakeWrite)] else []) + [Closed(d.kq)]
  }

  function DisposeLog(d: Descriptors, hasEvent: bool, cells: seq<Cell>): seq<Effect> {
    StartLog(d, hasEvent) + Teardown(cells) + OwnLog(d)
  }

  /** What is left to do once the head of a list is torn down. */
  lemma TeardownStep(log: seq<Effect>, mem: Memory, cur: Ptr, cells: seq<Cell>)
    requires IsList(mem, cur, cells) && cur != NULL
    ensures IsList(mem - {cur}, mem[cur].next, cells[1..])
    ensures log + Teardown(cells) == (log + NodeLog(cells[0])) + Teardown(cells[1..])
    ensures (mem - {cur}) - Ats(cells[1..]) == mem - Ats(cells)
  {
    ListIsDistinct(mem, cur, cells);
    AtsHead(cells);
    FreeingElsewhere(mem, mem[cur].next, cells[1..], cur);
    assert Teardown(cells) == NodeLog(cells[0]) + Teardown(cells[1..]);
  }

  lemma Regroup3(a: seq<Effect>, b: seq<Effect>, c: seq<Effect>, d: seq<Effect>, e: seq<Effect>)
    ensures a + (b + c + d) + e == (a + b) + c + (d + e)
  {
  }

  lemma Regroup(a: seq<Effect>, b: seq<Effect>, c: seq<Effect>, d: seq<Effect>)
    ensures ((a + b) + c) + d == a + (b + c + d)
  {
  }

  // ---- The code -------------------------------------------------------------------------------------

  /** The live socket nodes, and the effects so far. */
  class World {
    var log: seq<Effect>
    var mem: Memory

    constructor (mem: Memory)
      ensures log == [] && this.mem == mem
    {
      this.log, this.mem := [], mem;
    }

    method Emit(e: Effect)
      requires !e.Freed?
      modifies this`log
      ensures log == old(log) + [e]
    {
      log := log + [e];
    }

    method Free(at: Ptr)
      requires at in mem
      modifies this
      ensures log == old(log) + [Freed(at)] && mem == old(mem) - {at}
    {
      log := log + [Freed(at)];
      mem := mem - {at};
    }
  }

  class Proactor {
    var kq: Fd
    var wakeRead: Fd
    var wakeWrite: Fd
    var stop: bool
    var ok: bool
    var hasEvent: bool
    var sockets: Ptr

    /** calloc, and the two descriptors set to invalid. */
    constructor (hasEvent: bool)
      ensures kq == 0 && wakeRead == INVALID && wakeWrite == INVALID && !stop && ok
      ensures this.hasEvent == hasEvent && sockets == NULL
    {
      kq, wakeRead, wakeWrite, stop, ok := 0, INVALID, INVALID, false, true;
      this.hasEvent, sockets := hasEvent, NULL;
    }

    function Own(): Descriptors
      reads this
    {
      Descriptors(kq, wakeRead, wakeWrite)
    }

    /** `proactor_net_create`.  A failure after calloc leaves a proactor with an error status. */
    static method Create(hasEvent: bool, world: World, c: Creation) returns (p: Proactor?)
      modifies world`log
      ensures world.log == old(world.log) + CreateLog(c)
      ensures p == null <==> c.CallocFails?
      ensures p != null ==> fresh(p) && !p.stop && p.sockets == NULL && p.hasEvent == hasEvent
                            && (p.ok <==> c.Succeeds?) && p.Own() == Fields(c)
      ensures c.KeventFails? || c.Succeeds? ==>
        p != null && p.kq == c.kq && p.wakeRead == c.wakeRead && p.wakeWrite == c.wakeWrite
      ensures c.PipeFails? ==> p != null && p.kq == c.kq && p.wakeRead == p.wakeWrite == -1
      ensures c.KqueueFails? ==> p != null && p.kq == p.wakeRead == p.wakeWrite == -1
    {
      if c.CallocFails? {
        return null;
      }
      world.Emit(Allocated(c.at));
      p := new Proactor(hasEvent);
      if c.KqueueFails? {
        p.kq, p.ok := -1, false;
        return;
      }
      p.kq := c.kq;
      world.Emit(Opened(c.kq));
      if c.PipeFails? {
        p.ok := false;
        return;
      }
      p.wakeRead, p.wakeWrite := c.wakeRead, c.wakeWrite;
      world.Emit(Opened(c.wakeRead));
      world.Emit(Opened(c.wakeWrite));
      if c.KeventFails? {
        p.ok := false;
      }
    }

    /** `proactor_net_stop`: the flag, then a byte for the wake pipe, whose failure is only
        a warning. */
    method Stop(world: World)
      modifies this`stop, world`log
      ensures stop && world.log == old(world.log) + [WroteWake(wakeWrite)]
    {
      stop := true;
      world.Emit(WroteWake(wakeWrite));
    }

    /** The walk over the socket list. */
    method CloseSockets(world: World, ghost cells: seq<Cell>)
      requires IsList(world.mem, sockets, cells)
      modifies world
      ensures world.log == old(world.log) + Teardown(cells)
      ensures world.mem == old(world.mem) - Ats(cells)
    {
      var cur := sockets;
      ghost var rest := cells;
      while cur != NULL
        invariant IsList(world.mem, cur, rest)
        invariant world.log + Teardown(rest) == old(world.log) + Teardown(cells)
        invariant world.mem - Ats(rest) == old(world.mem) - Ats(cells)
        decreases |rest|
      {
        ghost var mem, log := world.mem, world.log;
        TeardownStep(log, mem, cur, rest);
        var next := world.mem[cur].next;
        if world.mem[cur].hasCloseCallback {
          world.Emit(CloseCallback(cur));
        }
        world.Emit(Closed(world.mem[cur].sock));
        world.Free(cur);
        assert world.log == log + NodeLog(rest[0]);
        cur, rest := next, rest[1..];
      }
    }

    method CloseOwn(world: World)
      modifies world`log
      ensures world.log == old(world.log) + OwnLog(Own())
    {
      if wakeRead != INVALID {
        world.Emit(Closed(wakeRead));
        world.Emit(Closed(wakeWrite));
      }
      world.Emit(Closed(kq));
    }

    /** `proactor_net_dispose`, for callbacks that leave the socket list alone. */
    static method Dispose(p: Proactor?, world: World, ghost cells: seq<Cell>)
      requires if p == null then cells == [] else IsList(world.mem, p.sockets, cells)
      modifies p, world
      ensures p == null ==> world.log == old(world.log)
      ensures p != null ==>
        p.stop && world.log == old(world.log) + DisposeLog(p.Own(), p.hasEvent, cells) && p.Own() == old(p.Own())
      ensures world.mem == old(world.mem) - Ats(cells)
    {
      if p == null {
        return;
      }
      ghost var l0 := world.log;
      p.Stop(world);
      if p.hasEvent {
        world.Emit(DisposeEvent);
      }
      ghost var start := StartLog(p.Own(), p.hasEvent);
      assert world.log == l0 + start;
      p.CloseSockets(world, cells);
      ghost var l1 := world.log;
      p.CloseOwn(world);
      assert world.log == ((l0 + start) + Teardown(cells)) + OwnLog(p.Own());
      Regroup(l0, start, Teardown(cells), OwnLog(p.Own()));
    }
  }

  // ---- Order and balance ------------------------------------------------------------------------------

  function Count(log: seq<Effect>, e: Effect): nat {
    if log == [] then 0 else (if log[0] == e then 1 else 0) + Count(log[1..], e)
  }

  lemma {:induction false} CountAppend(a: seq<Effect>, b: seq<Effect>, e: Effect)
    ensures Count(a + b, e) == Count(a, e) + Count(b, e)
  {
    if a == [] {
      assert a + b == b;
    } else {
      CountAppend(a[1..], b, e);
      assert (a + b)[1..] == a[1..] + b;
    }
  }

  lemma CountCons(x: Effect, rest: seq<Effect>, e: Effect)
    ensures Count([x] + rest, e) == (if x == e then 1 else 0) + Count(rest, e)
  {
    assert ([x] + rest)[1..] == rest;
  }

  lemma {:induction false} CountAbsent(log: seq<Effect>, e: Effect)
    requires e !in log
    ensures Count(log, e) == 0
  {
    if log == [] {
    } else {
      CountAbsent(log[1..], e);
    }
  }

  lemma CountNode(c: Cell, e: Effect)
    ensures Count(NodeLog(c), e) ==
      (if e == CloseCallback(c.at) && c.node.hasCloseCallback then 1 else 0)
      + (if e == Closed(c.node.sock) then 1 else 0) + (if e == Freed(c.at) then 1 else 0)
  {
    var last := [Closed(c.node.sock)] + ([Freed(c.at)] + []);
    CountCons(Freed(c.at), [], e);
    CountCons(Closed(c.node.sock), [Freed(c.at)] + [], e);
    CountCons(CloseCallback(c.at), last, e);
    assert NodeLog(c) == if c.node.hasCloseCallback then [CloseCallback(c.at)] + last else last;
  }

  /** How many nodes of the list own `fd`. */
  function Owners(cells: seq<Cell>, fd: Fd): nat {
    if cells == [] then 0 else (if cells[0].node.sock == fd then 1 else 0) + Owners(cells[1..], fd)
  }

  lemma HeadCount(cells: seq<Cell>, e: Effect)
    requires cells != []
    ensures Count(Teardown(cells), e) == Count(Teardown(cells[1..]), e)
      + (if e == CloseCallback(cells[0].at) && cells[0].node.hasCloseCallback then 1 else 0)
      + (if e == Closed(cells[0].node.sock) then 1 else 0) + (if e == Freed(cells[0].at) then 1 else 0)
  {
    CountAppend(NodeLog(cells[0]), Teardown(cells[1..]), e);
    CountNode(cells[0], e);
  }

  lemma {:induction false} TeardownFrees(cells: seq<Cell>, at: Ptr)
    requires Distinct(cells)
    ensures Count(Teardown(cells), Freed(at)) == if at in Ats(cells) then 1 else 0
  {
    if cells == [] {
    } else {
      TeardownFrees(cells[1..], at);
      HeadCount(cells, Freed(at));
      AtsHead(cells);
    }
  }

  lemma {:induction false} TeardownCallsBack(mem: Memory, head: Ptr, cells: seq<Cell>, at: Ptr)
    requires IsList(mem, head, cells) && Distinct(cells)
    ensures Ats(cells) <= mem.Keys
    ensures Count(Teardown(cells), CloseCallback(at)) == if at in Ats(cells) && mem[at].hasCloseCallback then 1 else 0
    decreases |cells|
  {
    if cells == [] {
    } else {
      TeardownCallsBack(mem, mem[head].next, cells[1..], at);
      HeadCount(cells, CloseCallback(at));
      AtsHead(cells);
    }
  }

  lemma {:induction false} TeardownCloses(cells: seq<Cell>, fd: Fd)
    ensures Count(Teardown(cells), Closed(fd)) == Owners(cells, fd)
  {
    if cells == [] {
    } else {
      TeardownCloses(cells[1..], fd);
      HeadCount(cells, Closed(fd));
    }
  }

  lemma DisposeCount(d: Descriptors, hasEvent: bool, cells: seq<Cell>, e: Effect)
    requires !e.WroteWake? && !e.DisposeEvent?
    ensures Count(DisposeLog(d, hasEvent, cells), e) == Count(Teardown(cells), e) + Count(OwnLog(d), e)
  {
    CountAppend(StartLog(d, hasEvent), Teardown(cells), e);
    CountAppend(StartLog(d, hasEvent) + Teardown(cells), OwnLog(d), e);
    CountAbsent(StartLog(d, hasEvent), e);
  }

  /** A disposal of any list that Dispose accepts frees every listed node once, calls its close
      callback once if it has one, and touches no other address. */
  lemma DisposeTouchesOnce(mem: Memory, head: Ptr, cells: seq<Cell>, d: Descriptors, hasEvent: bool, at: Ptr)
    requires IsList(mem, head, cells)
    ensures Ats(cells) <= mem.Keys
    ensures var log := DisposeLog(d, hasEvent, cells);
      && Count(log, Freed(at)) == (if at in Ats(cells) then 1 else 0)
      && Count(log, CloseCallback(at)) == (if at in Ats(cells) && mem[at].hasCloseCallback then 1 else 0)
  {
    ListIsDistinct(mem, head, cells);
    TeardownFrees(cells, at);
    TeardownCallsBack(mem, head, cells, at);
    DisposeCount(d, hasEvent, cells, Freed(at));
    DisposeCount(d, hasEvent, cells, CloseCallback(at));
    CountAbsent(OwnLog(d), Freed(at));
    CountAbsent(OwnLog(d), CloseCallback(at));
  }

  lemma {:induction false} TeardownSplits(cells: seq<Cell>, k: nat)
    requires k < |cells|
    ensures Teardown(cells) == Teardown(cells[..k]) + NodeLog(cells[k]) + Teardown(cells[k + 1..])
  {
    if k == 0 {
    } else {
      TeardownSplits(cells[1..], k - 1);
      assert cells[1..][..k - 1] == cells[..k][1..];
      assert cells[1..][k..] == cells[k + 1..];
    }
  }

  lemma {:induction false} PrefixIsDistinct(cells: seq<Cell>, k: nat)
    requires Distinct(cells) && k <= |cells|
    ensures Distinct(cells[..k])
    decreases k
  {
    if k == 0 {
    } else {
      PrefixIsDistinct(cells[1..], k - 1);
      assert cells[..k][1..] == cells[1..][..k - 1];
    }
  }

  /** A disposal reaches the k-th node of the list by `next`.  When its callback, close and
      free come, exactly the nodes before it in the list have been freed. */
  lemma DisposeInOrder(mem: Memory, head: Ptr, cells: seq<Cell>, d: Descriptors, hasEvent: bool, k: nat)
    requires IsList(mem, head, cells) && k < |cells|
    ensures cells[k].at in mem && cells[k].node == mem[cells[k].at]
    ensures cells[k].node.next == if k + 1 < |cells| then cells[k + 1].at else NULL
    ensures var before, after := StartLog(d, hasEvent) + Teardown(cells[..k]), Teardown(cells[k + 1..]) + OwnLog(d);
      && DisposeLog(d, hasEvent, cells) == before + NodeLog(cells[k]) + after
      && forall at :: Count(before, Freed(at)) == if at in Ats(cells[..k]) then 1 else 0
  {
    ListFrom(mem, head, cells, k);
    if k + 1 < |cells| { ListFrom(mem, head, cells, k + 1); }
    TeardownSplits(cells, k);
    Regroup3(StartLog(d, hasEvent), Teardown(cells[..k]), NodeLog(cells[k]), Teardown(cells[k + 1..]), OwnLog(d));
    ListIsDistinct(mem, head, cells);
    PrefixIsDistinct(cells, k);
    forall at ensures Count(StartLog(d, hasEvent) + Teardown(cells[..k]), Freed(at))
                      == if at in Ats(cells[..k]) then 1 else 0 {
      TeardownFrees(cells[..k], at);
      CountAppend(StartLog(d, hasEvent), Teardown(cells[..k]), Freed(at));
      CountAbsent(StartLog(d, hasEvent), Freed(at));
    }
  }

  lemma {:induction false} TeardownMentions(cells: seq<Cell>, at: Ptr)
    requires at !in Ats(cells)
    ensures CloseCallback(at) !in Teardown(cells) && Freed(at) !in Teardown(cells)
    decreases |cells|
  {
    if cells == [] {
    } else {
      AtsHead(cells);
      TeardownMentions(cells[1..], at);
    }
  }

  lemma {:induction false} OthersAreElsewhere(cells: seq<Cell>, k: nat)
    requires Distinct(cells) && k < |cells|
    ensures cells[k].at !in Ats(cells[..k]) && cells[k].at !in Ats(cells[k + 1..])
    decreases k
  {
    if k == 0 {
      assert cells[0 + 1..] == cells[1..];
    } else {
      OthersAreElsewhere(cells[1..], k - 1);
      assert cells[1..][..k - 1] == cells[..k][1..] && cells[1..][k..] == cells[k + 1..];
      AtsHead(cells[..k]);
      assert cells[k] in cells[1..];
      assert cells[k].at in Ats(cells[1..]);
    }
  }

  /** Where the effects of one node stand when neither side mentions it. */
  lemma NodeInLog(before: seq<Effect>, c: Cell, after: seq<Effect>, log: seq<Effect>, i: nat)
    requires log == before + NodeLog(c) + after && i < |log|
    requires CloseCallback(c.at) !in before && Freed(c.at) !in before
    requires CloseCallback(c.at) !in after && Freed(c.at) !in after
    ensures log[i] == CloseCallback(c.at) ==>
      i + 2 < |log| && log[i + 1] == Closed(c.node.sock) && log[i + 2] == Freed(c.at)
    ensures log[i] == Freed(c.at) ==> i > 0 && log[i - 1] == Closed(c.node.sock)
  {
    if i < |before| {
      assert log[i] == before[i];
    } else if i >= |before| + |NodeLog(c)| {
      assert log[i] == after[i - |before| - |NodeLog(c)|];
    }
  }

  /** The order inside a node: wherever its close callback stands in the log of a disposal, the
      close of its socket and the release of the node come next, so the callback still gets an
      open socket; and every release comes right after the close. */
  lemma CallbackThenCloseThenFree(mem: Memory, head: Ptr, cells: seq<Cell>, d: Descriptors, hasEvent: bool,
                                  k: nat, i: nat)
    requires IsList(mem, head, cells) && k < |cells| && i < |DisposeLog(d, hasEvent, cells)|
    ensures var log := DisposeLog(d, hasEvent, cells);
      && (log[i] == CloseCallback(cells[k].at) ==>
           i + 2 < |log| && log[i + 1] == Closed(cells[k].node.sock) && log[i + 2] == Freed(cells[k].at))
      && (log[i] == Freed(cells[k].at) ==> i > 0 && log[i - 1] == Closed(cells[k].node.sock))
  {
    DisposeInOrder(mem, head, cells, d, hasEvent, k);
    ListIsDistinct(mem, head, cells);
    OthersAreElsewhere(cells, k);
    TeardownMentions(cells[..k], cells[k].at);
    TeardownMentions(cells[k + 1..], cells[k].at);
    NodeInLog(StartLog(d, hasEvent) + Teardown(cells[..k]), cells[k], Teardown(cells[k + 1..]) + OwnLog(d),
              DisposeLog(d, hasEvent, cells), i);
  }

  lemma {:induction false} TeardownIsOfNodes(cells: seq<Cell>)
    ensures forall e | e in Teardown(cells) :: e.CloseCallback? || e.Closed? || e.Freed?
  {
    if cells == [] {
    } else {
      TeardownIsOfNodes(cells[1..]);
    }
  }

  /** A disposal wakes the loop first and once, tells the application next and once, if it has
      an event callback, then takes the sockets down, and closes its own queue last, after both
      ends of its pipe if it has one. */
  lemma DisposeStartAndEnd(d: Descriptors, hasEvent: bool, cells: seq<Cell>)
    ensures var log := DisposeLog(d, hasEvent, cells);
      && |log| >= 2 && log[0] == WroteWake(d.wakeWrite) && log[|log| - 1] == Closed(d.kq)
      && (hasEvent ==> log[1] == DisposeEvent)
      && (forall i | 0 < i < |log| :: !log[i].WroteWake? && (log[i] == DisposeEvent ==> i == 1 && hasEvent))
      && (d.wakeRead != -1 ==>
            |log| >= 4 && log[|log| - 3] == Closed(d.wakeRead) && log[|log| - 2] == Closed(d.wakeWrite))
  {
    TeardownIsOfNodes(cells);
    var log, start := DisposeLog(d, hasEvent, cells), StartLog(d, hasEvent);
    var tail := Teardown(cells) + OwnLog(d);
    assert log == start + tail;
    forall i | |start| <= i < |log| ensures !log[i].WroteWake? && log[i] != DisposeEvent {
      assert log[i] == tail[i - |start|] && tail[i - |start|] in tail;
    }
  }

  lemma OwnBalances(c: Creation, fd: Fd)
    requires CreationContract(c) && !c.CallocFails? && fd != INVALID
    ensures Count(OwnLog(Fields(c)), Closed(fd)) == Count(CreateLog(c), Opened(fd))
  {
    var kq, r, w := Fields(c).kq, Fields(c).wakeRead, Fields(c).wakeWrite;
    CountCons(Closed(kq), [], Closed(fd));
    CountCons(Opened(kq), [], Opened(fd));
    CountCons(Allocated(c.at), CreateLog(c)[1..], Opened(fd));
    assert CreateLog(c) == [Allocated(c.at)] + CreateLog(c)[1..];
    if r != INVALID {
      CountCons(Closed(w), [Closed(kq)] + [], Closed(fd));
      CountCons(Closed(r), [Closed(w)] + ([Closed(kq)] + []), Closed(fd));
      assert OwnLog(Fields(c)) == [Closed(r)] + ([Closed(w)] + ([Closed(kq)] + []));
      CountCons(Opened(w), [], Opened(fd));
      CountCons(Opened(r), [Opened(w)] + [], Opened(fd));
      CountCons(Opened(kq), [Opened(r)] + ([Opened(w)] + []), Opened(fd));
      assert CreateLog(c)[1..] == [Opened(kq)] + ([Opened(r)] + ([Opened(w)] + []));
    } else {
      assert OwnLog(Fields(c)) == [Closed(kq)] + [];
      assert c.PipeFails? ==> CreateLog(c)[1..] == [Opened(kq)] + [];
    }
  }

  /** What a disposal adds to the log: nothing when calloc failed, since then there is only a
      null pointer to pass, and no list. */
  function DisposalOf(c: Creation, hasEvent: bool, cells: seq<Cell>): seq<Effect>
    requires c.CallocFails? ==> cells == []
  {
    if c.CallocFails? then [] else DisposeLog(Fields(c), hasEvent, cells)
  }

  /** Whatever call of a creation failed, and whatever sockets were listed, a disposal closes
      every descriptor the creation opened as often as it opened it, every listed socket
      once, and nothing else but -1. */
  lemma DisposeBalancesCreate(c: Creation, hasEvent: bool, cells: seq<Cell>, fd: Fd)
    requires CreationContract(c) && fd != INVALID && (c.CallocFails? ==> cells == [])
    ensures Count(DisposalOf(c, hasEvent, cells), Closed(fd)) == Count(CreateLog(c), Opened(fd)) + Owners(cells, fd)
  {
    if c.CallocFails? {
    } else {
      DisposeCount(Fields(c), hasEvent, cells, Closed(fd));
      TeardownCloses(cells, fd);
      OwnBalances(c, fd);
    }
  }

  /** Memory does not balance: the block of the proactor, which is no socket node, is allocated
      by every creation that returns one, and no disposal frees it. */
  lemma ProactorBlockIsNeverFreed(c: Creation, hasEvent: bool, mem: Memory, head: Ptr, cells: seq<Cell>)
    requires !c.CallocFails? && c.at !in mem && IsList(mem, head, cells)
    ensures Count(CreateLog(c), Allocated(c.at)) == 1
    ensures Count(DisposalOf(c, hasEvent, cells), Freed(c.at)) == 0
  {
    DisposeTouchesOnce(mem, head, cells, Fields(c), hasEvent, c.at);
    CountCons(Allocated(c.at), CreateLog(c)[1..], Allocated(c.at));
    CountAbsent(CreateLog(c)[1..], Allocated(c.at));
    assert CreateLog(c) == [Allocated(c.at)] + CreateLog(c)[1..];
  }
}
