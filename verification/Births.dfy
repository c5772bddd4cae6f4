/**
 Where incarnations come from: a socket is created for a SYN or a datagram and for nothing else, and
 the address a client sees as its peer is the destination of that packet.
 */
module Births {
  import opened Event
  import opened Operation
  import opened Stack
  import opened Invariant
  import opened Parked
  import opened Steps
  import opened World
  import opened Turns
  import opened Theorems
  import opened Lifecycle
  import S = Smoltcp

  /** Sockets keep their incarnation; a new one appears only for a packet, and is recorded with its destination. */
  lemma BornByPacket(w: World, l: Label, w1: World, d: Mode)
    requires Step(w, l, w1, d)
    ensures w1.st.born == w.st.born || ((l.Syn? || l.UdpPacket?) && w1.st.born == w.st.born + [l.dst])
    ensures forall h :: h in w1.st.sockets ==>
              || (h in w.st.sockets && w1.st.sockets[h].inc == w.st.sockets[h].inc)
              || ((l.Syn? || l.UdpPacket?) && h == l.h && w1.st.sockets[h].inc == |w.st.born| < |w1.st.born|)
  {
    hide Dispatch, Poll, Do, Obeys;
    match l
    case PollOne(h, f) => PollSockets(w.st, h, f); PollBorn(w.st, h, f);
    case HandleNext => HandlersTakeTurns(w.st, w.todo[0]);
    case DropStack => DiscardAllFrame(w.st, w.todo);
    case DropGenerator(n) => DiscardAllFrame(w.st.(queue := w.st.queue[..n], queueOpen := false), w.st.queue[n..]);
    case _ =>
  }

  lemma PollBorn(st: State, h: Handle, f: S.Effect)
    requires h in st.sockets && S.Possible(st.sockets[h].p, f)
    ensures Poll(st, h, f).born == st.born
  {
  }

  /** Every incarnation was created by one earlier packet, and its recorded address is that packet's destination. */
  lemma {:induction false} BornOfPacket(ws: seq<World>, ls: seq<Label>, i: nat, inc: nat) returns (k: nat)
    requires Run(ws, ls, FREE) && i < |ws| && inc < |ws[i].st.born|
    ensures k < i && (ls[k].Syn? || ls[k].UdpPacket?) && ls[k].dst == ws[i].st.born[inc]
    ensures |ws[k].st.born| == inc && |ws[k + 1].st.born| == inc + 1
  {
    hide Enabled, Next, Allowed;
    if i == 0 {
      assert false;
    } else {
      assert Step(ws[i - 1], ls[i - 1], ws[i - 1 + 1], FREE);
      BornByPacket(ws[i - 1], ls[i - 1], ws[i], FREE);
      if inc < |ws[i - 1].st.born| {
        k := BornOfPacket(ws, ls, i - 1, inc);
      } else {
        k := i - 1;
      }
    }
  }

  /** The peer of a live client is the destination of the packet that created its socket. */
  lemma PeerIsDestination(ws: seq<World>, ls: seq<Label>, i: nat, inc: nat) returns (k: nat)
    requires Run(ws, ls, FREE) && i < |ws| && inc in ws[i].clients
    ensures k < i && (ls[k].Syn? || ls[k].UdpPacket?) && ls[k].dst == ws[i].clients[inc].peer
    ensures |ws[k].st.born| == inc && |ws[k + 1].st.born| == inc + 1
  {
    AcceptSound(ws, ls, i, inc, inc);
    k := BornOfPacket(ws, ls, i, inc);
  }

  // ---- how packets are admitted ----

  /**
   A SYN ends the run if and only if its destination has no port, and then changes nothing. Otherwise a
   new socket listens on the destination, with its Ready in the send slot.
   */
  lemma SynAdmitted(ws: seq<World>, ls: seq<Label>, i: nat)
    requires Run(ws, ls, FREE) && i < |ls| && ls[i].Syn?
    ensures var w, dst, h, inc := ws[i], ls[i].dst, ls[i].h, |ws[i].st.born|;
            && h !in w.st.sockets
            && if dst.port == 0 then ws[i + 1] == w.(running := false)
               else
                 var s := S.Socket(inc, S.TcpSocket(dst, None, S.Listen, [], [], w.st.bufSize), None, Some(Ready(Tcp(h), inc)));
                 ws[i + 1] == w.(st := w.st.(sockets := w.st.sockets[h := s], registered := w.st.registered + {Tcp(h)},
                                             born := w.st.born + [dst]))
  {
    assert Step(ws[i], ls[i], ws[i + 1], FREE);
  }

  /**
   A datagram for an address that a socket is bound to changes nothing and the run goes on. Any other
   ends the run if and only if its destination has no port or the channel is closed. If it has a port,
   a new socket is bound to the destination, and its Ready is queued if the channel is open.
   */
  lemma DatagramAdmitted(ws: seq<World>, ls: seq<Label>, i: nat)
    requires Run(ws, ls, FREE) && i < |ls| && ls[i].UdpPacket?
    ensures var w, dst, h, inc := ws[i], ls[i].dst, ls[i].h, |ws[i].st.born|;
            && h !in w.st.sockets
            && if exists g :: BoundTo(w.st.sockets, g, dst) then ws[i + 1] == w
               else if dst.port == 0 then ws[i + 1] == w.(running := false)
               else
                 var s := S.Socket(inc, S.UdpSocket(Some(dst), [], []), None, None);
                 ws[i + 1] == w.(running := w.st.queueOpen,
                                 st := w.st.(sockets := w.st.sockets[h := s], registered := w.st.registered + {Udp(h)},
                                             accepted := w.st.accepted + {dst}, born := w.st.born + [dst],
                                             queue := if w.st.queueOpen then w.st.queue + [Ready(Udp(h), inc)] else w.st.queue))
  {
    RunKeeps(ws, ls, FREE, i);
    assert Step(ws[i], ls[i], ws[i + 1], FREE);
  }

  // ---- how sockets go ----

  /** The close takes the socket out of the table. */
  predicate Removes(st: State, e: Event) {
    && e.Close? && e.typed in st.registered && e.typed.handle in st.sockets
    && (e.typed.Udp? || (HasTcp(st, e.typed.handle) && !S.IsActive(S.CloseState(st.sockets[e.typed.handle].p.state))))
  }

  lemma DispatchStays(st: State, e: Event, h: Handle)
    requires h in st.sockets && !(Removes(st, e) && e.typed.handle == h)
    ensures h in Dispatch(st, e).sockets && Dispatch(st, e).sockets[h].inc == st.sockets[h].inc
    ensures Dispatch(st, e).sockets[h].Typed(h) == st.sockets[h].Typed(h)
  {
    HandlersTakeTurns(st, e);
    if e.Close? && e.typed in st.registered {
      CloseStays(st, e.typed, e.inc, h);
    } else {
      OtherStays(st, e, h);
    }
  }

  lemma CloseStays(st: State, th: TypedHandle, inc: nat, h: Handle)
    requires h in st.sockets && th in st.registered && !(Removes(st, Close(th, inc)) && th.handle == h)
    ensures h in HandleClose(st, th, inc).sockets
  {
    hide CloseTcp, CloseUdp, RegisterRecv, DropRecv, DropSend;
  }

  lemma OtherStays(st: State, e: Event, h: Handle)
    requires h in st.sockets && !(e.Close? && e.typed in st.registered)
    ensures h in Dispatch(st, e).sockets
  {
    hide HandleReady, HandleShutdown, HandleTcp, HandleUdp;
    if e.IsControl() {
      ControlStays(st, e.typed, if e.Shutdown? then 0 else e.inc, if e.Shutdown? then e.op else 0, h);
    } else {
      DataStays(st, e, h);
    }
  }

  lemma ControlStays(st: State, th: TypedHandle, inc: nat, o: OpId, h: Handle)
    requires h in st.sockets
    ensures h in HandleReady(st, th, inc).sockets && h in HandleShutdown(st, th, o).sockets
  {
    hide CloseTcp, RegisterRecv, RegisterSend, S.MayRecv, SameChannels;
    if th.Tcp? && HasTcp(st, th.handle) {
      var st1 := RegisterSend(st, th.handle, Shutdown(th, o));
      assert h in st1.sockets && h in CloseTcp(st1, th.handle).sockets;
      assert h in RegisterRecv(st, th.handle, Ready(th, inc)).sockets;
    }
  }

  lemma DataStays(st: State, e: Event, h: Handle)
    requires h in st.sockets
    ensures h in HandleTcp(st, e).sockets && h in HandleUdp(st, e).sockets
  {
    hide RegisterRecv, RegisterSend, ReadOutcome, WriteOutcome, RecvOutcome, SendOutcome;
    if e.IsTcpData() {
      assert h in HandleTcp(st, e).sockets;
    } else if e.IsUdpData() {
      assert h in HandleUdp(st, e).sockets;
    }
  }

  /** A socket stays in the table, and the same, except when a close removes it. */
  lemma SocketsStay(w: World, l: Label, w1: World, d: Mode, h: Handle)
    requires Step(w, l, w1, d) && h in w.st.sockets
    requires !(l.HandleNext? && Removes(w.st, w.todo[0]) && w.todo[0].typed.handle == h)
    ensures h in w1.st.sockets && w1.st.sockets[h].inc == w.st.sockets[h].inc && w1.st.sockets[h].Typed(h) == w.st.sockets[h].Typed(h)
  {
    hide Enabled, Next, Allowed, Removes, Dispatch;
    if l.HandleNext? {
      NextIsDispatch(w, l);
      DispatchStays(w.st, w.todo[0], h);
    } else {
      RestStays(w, l, h);
    }
  }

  lemma NextIsDispatch(w: World, l: Label)
    requires Enabled(w, l) && l.HandleNext?
    ensures w.todo != [] && Next(w, l).st == Dispatch(w.st, w.todo[0])
  {
    hide Dispatch;
  }

  lemma RestStays(w: World, l: Label, h: Handle)
    requires Enabled(w, l) && !l.HandleNext? && h in w.st.sockets
    ensures var w1 := Next(w, l);
            h in w1.st.sockets && w1.st.sockets[h].inc == w.st.sockets[h].inc && w1.st.sockets[h].Typed(h) == w.st.sockets[h].Typed(h)
  {
    hide Dispatch, Poll, Do, Issued, IssueRefused, EventFor, Phased, ParkedOp;
    match l
    case PollOne(g, f) => PollSockets(w.st, g, f);
    case DropStack => DiscardAllFrame(w.st, w.todo);
    case DropGenerator(n) => DiscardAllFrame(w.st.(queue := w.st.queue[..n], queueOpen := false), w.st.queue[n..]);
    case _ =>
  }
}
