/**
 Runs that show that the conditions of the theorems are needed. In the first two a client drops a
 future before it is complete and then drops the stream or socket it was issued on; in the third a
 shutdown overtakes a write.
 */
module Witness {
  import opened Event
  import opened Operation
  import opened Stack
  import opened Invariant
  import opened Handlers
  import opened World
  import opened Reaching
  import opened Steps
  import opened Places
  import opened Theorems
  import opened Orphans
  import opened Reorder
  import opened Locality
  import opened Overtaking
  import S = Smoltcp

  const DST: Addr := Addr(1, 80)
  const OTHER: Addr := Addr(1, 81)
  const PEER: Addr := Addr(2, 5000)
  const CAP: nat := 4

  lemma ReachStart()
    ensures Reachable(Start(CAP))
  {
    assert Run([Start(CAP)], [], FREE);
  }

  // ---- a cancelled read takes the place of the close ----

  function Conn(state: S.TcpState, recv: Option<Event>, send: Option<Event>): map<Handle, S.Socket> {
    map[0 := S.Socket(0, S.TcpSocket(DST, if state.Listen? then None else Some(PEER), state, [], [], CAP), recv, send)]
  }

  function Tcp0(state: S.TcpState, recv: Option<Event>, send: Option<Event>, queue: seq<Event>,
                infos: seq<Info>, ops: map<OpId, Op>, served: set<nat>): State {
    State(Conn(state, recv, send), {Tcp(0)}, {}, queue, true, infos, true, [], true, ops, [DST], served, CAP, false)
  }

  const ACCEPTED: map<nat, Stream> := map[0 := Stream(Tcp(0), DST, Some(PEER))]
  const PENDING: Op := Issued(ReadOp, Tcp(0), 0, [0], false)
  const DROPPED: Op := Cancel(PENDING)
  const TOKEN: Event := Ready(Tcp(0), 0)
  const CLOSE: Event := Close(Tcp(0), 0)
  const READ: Event := Read(0, 0)

  lemma PhasedOne(e: Event)
    ensures Phased([e]) == [e]
  {
    assert Controls([]) == TcpData([]) == UdpData([]) == [];
    assert [e][1..] == [];
  }

  /** The driver takes the only queued event. */
  lemma ReachTake(w: World, e: Event)
    requires Reachable(w) && w.running && w.todo == [] && w.st.queue == [e]
    ensures Reachable(w.(st := w.st.(queue := []), todo := [e]))
  {
    hide Reachable;
    PhasedOne(e);
    assert [e][..1] == [e] && [e][1..] == [];
    Reach(w, TakeBatch(1), w.(st := w.st.(queue := []), todo := [e]));
  }

  /** The handshake of a connection. */
  lemma Opened()
    ensures Reachable(World(Tcp0(S.Established, None, None, [TOKEN], [], map[], {}), true, [], map[]))
  {
    hide Reachable;
    ReachStart();
    var w1 := World(Tcp0(S.Listen, None, Some(TOKEN), [], [], map[], {}), true, [], map[]);
    Reach(Start(CAP), Syn(DST, 0), w1);
    var w2 := World(Tcp0(S.SynReceived, None, None, [TOKEN], [], map[], {}), true, [], map[]);
    assert w2.st.sockets == Poll(w1.st, 0, S.Move(S.SynReceived, Some(PEER))).sockets;
    Reach(w1, PollOne(0, S.Move(S.SynReceived, Some(PEER))), w2);
    var w3 := World(Tcp0(S.Established, None, None, [TOKEN], [], map[], {}), true, [], map[]);
    assert w3.st.sockets == Poll(w2.st, 0, S.Move(S.Established, Some(PEER))).sockets;
    Reach(w2, PollOne(0, S.Move(S.Established, Some(PEER))), w3);
  }

  /** The connection is accepted. */
  lemma Connected()
    ensures Reachable(World(Tcp0(S.Established, None, None, [], [], map[], {0}), true, [], ACCEPTED))
  {
    hide Reachable;
    Opened();
    var w3 := World(Tcp0(S.Established, None, None, [TOKEN], [], map[], {}), true, [], map[]);
    ReachTake(w3, TOKEN);
    var w4 := World(Tcp0(S.Established, None, None, [], [Info(0, 0, Some(PEER), DST)], map[], {}), true, [], map[]);
    Reach(w3.(st := w3.st.(queue := []), todo := [TOKEN]), HandleNext, w4);
    Reach(w4, AcceptTcp, World(Tcp0(S.Established, None, None, [], [], map[], {0}), true, [], ACCEPTED));
  }

  /** A read is parked, its future is dropped, and then the stream. */
  lemma Abandoned()
    ensures Reachable(World(Tcp0(S.Established, Some(READ), None, [CLOSE], [], map[0 := DROPPED], {0}), true, [], map[]))
  {
    hide Reachable;
    Connected();
    var w5 := World(Tcp0(S.Established, None, None, [], [], map[], {0}), true, [], ACCEPTED);
    var w6 := World(Tcp0(S.Established, None, None, [READ], [], map[0 := PENDING], {0}), true, [], ACCEPTED);
    Reach(w5, Issue(0, 0, ReadOp, [0], false), w6);
    ReachTake(w6, READ);
    var w7 := World(Tcp0(S.Established, Some(READ), None, [], [], map[0 := PENDING], {0}), true, [], ACCEPTED);
    assert w7.st.sockets == RegisterRecv(w6.st, 0, READ).sockets;
    Reach(w6.(st := w6.st.(queue := []), todo := [READ]), HandleNext, w7);
    var w8 := World(Tcp0(S.Established, Some(READ), None, [], [], map[0 := DROPPED], {0}), true, [], ACCEPTED);
    Reach(w7, Advance(0, CancelStep), w8);
    var w9 := World(Tcp0(S.Established, Some(READ), None, [CLOSE], [], map[0 := DROPPED], {0}), true, [], map[]);
    assert ACCEPTED - {0} == map[];
    Reach(w8, DropClient(0), w9);
  }

  /** The close wakes the dead read and waits in its slot. */
  lemma Woken()
    ensures Reachable(World(Tcp0(S.FinWait1, Some(CLOSE), None, [READ], [], map[0 := DROPPED], {0}), true, [], map[]))
  {
    hide Reachable;
    Abandoned();
    var w9 := World(Tcp0(S.Established, Some(READ), None, [CLOSE], [], map[0 := DROPPED], {0}), true, [], map[]);
    ReachTake(w9, CLOSE);
    var w10 := World(Tcp0(S.FinWait1, Some(CLOSE), None, [READ], [], map[0 := DROPPED], {0}), true, [], map[]);
    var st := w9.st.(queue := []);
    assert CloseTcp(st, 0).sockets == Conn(S.FinWait1, None, None);
    assert w10.st.sockets == CloseStream(st, 0, 0).sockets;
    Reach(w9.(st := st, todo := [CLOSE]), HandleNext, w10);
  }

  /**
   A run in which a socket loses its token: the dead read is parked over the close, so the connection
   is never removed, in no continuation of the run (`OrphanForever`).
   */
  lemma DisciplineNeededForTokens()
    ensures exists w :: Reachable(w) && Whole(w) && 0 in w.st.sockets && Tokenless(w, w.st.sockets[0].inc)
  {
    Woken();
    var w10 := World(Tcp0(S.FinWait1, Some(CLOSE), None, [READ], [], map[0 := DROPPED], {0}), true, [], map[]);
    ReachTake(w10, READ);
    var w11 := w10.(st := w10.st.(queue := []), todo := [READ]);
    var w12 := World(Tcp0(S.FinWait1, Some(READ), None, [], [], map[0 := DROPPED], {0}), true, [], map[]);
    assert w12.st.sockets == RegisterRecv(w11.st, 0, READ).sockets;
    Reach(w11, HandleNext, w12);
    assert forall p :: !TokenAt(w12, p, 0);
  }

  // ---- a cancelled receive is applied to another socket ----

  function Datagrams(inc: nat, dst: Addr, recv: Option<Event>): map<Handle, S.Socket> {
    map[0 := S.Socket(inc, S.UdpSocket(Some(dst), [], []), recv, None)]
  }

  /** The first UDP socket of the stack, at handle 0. */
  function Udp0(recv: Option<Event>, queue: seq<Event>, infos: seq<Info>, ops: map<OpId, Op>, served: set<nat>): State {
    State(Datagrams(0, DST, recv), {Udp(0)}, {DST}, queue, true, [], true, infos, true, ops, [DST], served, CAP, false)
  }

  const BOUND: map<nat, Stream> := map[0 := Stream(Udp(0), DST, None)]
  const AWAITED: Op := Issued(RecvOp, Udp(0), 0, [0], false)
  const GIVENUP: Op := Cancel(AWAITED)
  const FIRST: Event := Ready(Udp(0), 0)
  const SECOND: Event := Ready(Udp(0), 1)
  const UNBIND: Event := Close(Udp(0), 0)
  const RECV: Event := Recv(0, 0)

  lemma UdpCreated()
    ensures Reachable(World(Udp0(None, [FIRST], [], map[], {}), true, [], map[]))
  {
    hide Reachable;
    ReachStart();
    Reach(Start(CAP), UdpPacket(DST, 0), World(Udp0(None, [FIRST], [], map[], {}), true, [], map[]));
  }

  lemma UdpOffered()
    ensures Reachable(World(Udp0(None, [], [Info(0, 0, None, DST)], map[], {}), true, [], map[]))
  {
    hide Reachable;
    UdpCreated();
    var w1 := World(Udp0(None, [FIRST], [], map[], {}), true, [], map[]);
    ReachTake(w1, FIRST);
    var w2 := World(Udp0(None, [], [Info(0, 0, None, DST)], map[], {}), true, [], map[]);
    assert HandleReady(w1.st.(queue := []), Udp(0), 0) == w2.st;
    Reach(w1.(st := w1.st.(queue := []), todo := [FIRST]), HandleNext, w2);
  }

  lemma UdpAccepted()
    ensures Reachable(World(Udp0(None, [], [], map[], {0}), true, [], BOUND))
  {
    hide Reachable;
    UdpOffered();
    var w2 := World(Udp0(None, [], [Info(0, 0, None, DST)], map[], {}), true, [], map[]);
    Reach(w2, AcceptUdp, World(Udp0(None, [], [], map[], {0}), true, [], BOUND));
  }

  lemma UdpAbandoned()
    ensures Reachable(World(Udp0(Some(RECV), [UNBIND], [], map[0 := GIVENUP], {0}), true, [], map[]))
  {
    hide Reachable;
    UdpAccepted();
    var w3 := World(Udp0(None, [], [], map[], {0}), true, [], BOUND);
    var w4 := World(Udp0(None, [RECV], [], map[0 := AWAITED], {0}), true, [], BOUND);
    Reach(w3, Issue(0, 0, RecvOp, [0], false), w4);
    ReachTake(w4, RECV);
    var w5 := World(Udp0(Some(RECV), [], [], map[0 := AWAITED], {0}), true, [], BOUND);
    assert w5.st.sockets == RegisterRecv(w4.st, 0, RECV).sockets;
    Reach(w4.(st := w4.st.(queue := []), todo := [RECV]), HandleNext, w5);
    var w6 := World(Udp0(Some(RECV), [], [], map[0 := GIVENUP], {0}), true, [], BOUND);
    Reach(w5, Advance(0, CancelStep), w6);
    assert BOUND - {0} == map[];
    Reach(w6, DropClient(0), World(Udp0(Some(RECV), [UNBIND], [], map[0 := GIVENUP], {0}), true, [], map[]));
  }

  /** The socket is gone, the dead receive is queued, and the next socket gets the same handle. */
  lemma UdpReused()
    ensures Reachable(World(State(Datagrams(1, OTHER, None), {Udp(0)}, {OTHER}, [RECV, SECOND], true, [], true, [], true,
                                  map[0 := GIVENUP], [DST, OTHER], {0}, CAP, false), true, [], map[]))
  {
    hide Reachable;
    UdpAbandoned();
    var w7 := World(Udp0(Some(RECV), [UNBIND], [], map[0 := GIVENUP], {0}), true, [], map[]);
    ReachTake(w7, UNBIND);
    var st := w7.st.(queue := []);
    var w8 := World(State(map[], {}, {}, [RECV], true, [], true, [], true, map[0 := GIVENUP], [DST], {0}, CAP, false), true, [], map[]);
    assert w8.st.sockets == CloseDatagram(st, 0).sockets;
    Reach(w7.(st := st, todo := [UNBIND]), HandleNext, w8);
    Reach(w8, UdpPacket(OTHER, 0),
          World(State(Datagrams(1, OTHER, None), {Udp(0)}, {OTHER}, [RECV, SECOND], true, [], true, [], true,
                      map[0 := GIVENUP], [DST, OTHER], {0}, CAP, false), true, [], map[]));
  }

  /** A run in which an operation is about to be applied to a socket it was not issued on. */
  lemma DisciplineNeededForIncarnations()
    ensures exists w ::
              && Reachable(w) && w.todo != [] && w.todo[0].Recv? && w.todo[0].op in w.st.ops
              && HasUdp(w.st, w.todo[0].handle) && w.st.sockets[w.todo[0].handle].inc != w.st.ops[w.todo[0].op].inc
  {
    UdpReused();
    var w9 := World(State(Datagrams(1, OTHER, None), {Udp(0)}, {OTHER}, [RECV, SECOND], true, [], true, [], true,
                          map[0 := GIVENUP], [DST, OTHER], {0}, CAP, false), true, [], map[]);
    var w10 := w9.(st := w9.st.(queue := [SECOND]), todo := [RECV]);
    PhasedOne(RECV);
    assert [RECV, SECOND][..1] == [RECV] && [RECV, SECOND][1..] == [SECOND];
    Reach(w9, TakeBatch(1), w10);
  }

  // ---- a shutdown overtakes a write ----

  const WRITING: Op := Issued(WriteOp, Tcp(0), 0, [7], false)
  const SHUTTING: Op := Issued(ShutdownOp, Tcp(0), 0, [], false)
  const WRITE: Event := Write(0, 0)
  const SHUTDOWN: Event := Shutdown(Tcp(0), 1)

  /** A write and then a shutdown are issued on the accepted connection. */
  lemma BothQueued()
    ensures Reachable(World(Tcp0(S.Established, None, None, [WRITE, SHUTDOWN], [], map[0 := WRITING, 1 := SHUTTING], {0}),
                            true, [], ACCEPTED))
  {
    hide Reachable;
    Connected();
    var w5 := World(Tcp0(S.Established, None, None, [], [], map[], {0}), true, [], ACCEPTED);
    var w6 := World(Tcp0(S.Established, None, None, [WRITE], [], map[0 := WRITING], {0}), true, [], ACCEPTED);
    Reach(w5, Issue(0, 0, WriteOp, [7], false), w6);
    Reach(w6, Issue(1, 0, ShutdownOp, [], false),
          World(Tcp0(S.Established, None, None, [WRITE, SHUTDOWN], [], map[0 := WRITING, 1 := SHUTTING], {0}), true, [], ACCEPTED));
  }

  /**
   The condition of `ReorderHarmless` is needed: a run with a batch in which a shutdown overtakes a
   write (`ShutdownOvertakesWrite`), so that the write fails although in order it would be served.
   */
  lemma ReorderMatters()
    ensures exists w ::
              && Reachable(w) && Enabled(w, TakeBatch(2)) && Batch(w, 2) == [WRITE, SHUTDOWN]
              && Served(AnswerTo(DispatchAll(Before(w, 2), Batch(w, 2)), WRITE.op))
              && Failed(AnswerTo(DispatchAll(Before(w, 2), Phased(Batch(w, 2))), WRITE.op))
  {
    BothQueued();
    var w := World(Tcp0(S.Established, None, None, [WRITE, SHUTDOWN], [], map[0 := WRITING, 1 := SHUTTING], {0}),
                   true, [], ACCEPTED);
    var ws: seq<World>, ls: seq<Label> :| Run(ws, ls, FREE) && ws[|ws| - 1] == w;
    hide Run, DispatchAll, Phased, Served, Failed;
    assert Batch(w, 2) == [WRITE, SHUTDOWN];
    assert OnlyOf(Batch(w, 2), Tcp(0)) == [WRITE] + OnlyOf(Batch(w, 2)[1..], Tcp(0));
    assert Batch(w, 2)[1] == SHUTDOWN;
    ShutdownOvertakesWrite(ws, ls, |ws| - 1, 2, 0, 0, 1);
    assert Enabled(w, TakeBatch(2));
  }

  function AnswerTo(st: State, o: OpId): Option<Reply> {
    if o in st.ops then st.ops[o].Answer() else None
  }
}
