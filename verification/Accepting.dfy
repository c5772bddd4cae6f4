/**
 Handing sockets to the acceptors: a stream is delivered exactly when its handled Ready finds a socket
 that may receive, with the addresses of that moment, and every live client came about that way.
 */
module Accepting {
  import opened Event
  import opened Operation
  import opened Stack
  import opened Invariant
  import opened Handlers
  import opened Parked
  import opened World
  import opened Steps
  import opened Places
  import opened Frames
  import opened Theorems
  import opened Lifecycle
  import opened Births
  import opened Shutdowns
  import S = Smoltcp

  // ---- who touches the acceptor channels ----

  predicate SameInfos(a: State, b: State) { a.tcpInfos == b.tcpInfos && a.udpInfos == b.udpInfos }

  lemma CloseSameInfos(st: State, th: TypedHandle, inc: nat, o: OpId)
    ensures SameInfos(st, HandleClose(st, th, inc)) && SameInfos(st, HandleShutdown(st, th, o))
  {
    hide CloseTcp, CloseUdp, RegisterRecv, RegisterSend, DropRecv, DropSend;
  }

  lemma TcpSameInfos(st: State, e: Event)
    requires e.IsTcpData()
    ensures SameInfos(st, HandleTcp(st, e))
  {
    hide RegisterRecv, RegisterSend, ReadOutcome, WriteOutcome;
  }

  lemma UdpSameInfos(st: State, e: Event)
    requires e.IsUdpData()
    ensures SameInfos(st, HandleUdp(st, e))
  {
    hide RegisterRecv, RegisterSend, RecvOutcome, SendOutcome;
  }

  lemma OnlyReadyDelivers(st: State, e: Event)
    requires !e.Ready?
    ensures SameInfos(st, Dispatch(st, e))
  {
    hide HandleClose, HandleShutdown, HandleTcp, HandleUdp;
    if e.IsControl() {
      CloseSameInfos(st, e.typed, if e.Close? then e.inc else 0, if e.Shutdown? then e.op else 0);
    } else if e.IsTcpData() {
      TcpSameInfos(st, e);
    } else {
      UdpSameInfos(st, e);
    }
  }

  lemma PollSameInfos(st: State, h: Handle, f: S.Effect)
    requires h in st.sockets && S.Possible(st.sockets[h].p, f)
    ensures SameInfos(st, Poll(st, h, f))
  {
    hide FireRecv, FireSend, S.Affected, S.Possible, S.WakesRecv, S.WakesSend;
  }

  // ---- what a Ready does ----

  /** The info that announces the socket at `h`: the connection's two ends, seen from the client. */
  function Announcement(h: Handle, s: S.Socket): Info {
    if s.p.TcpSocket? then Info(h, s.inc, s.p.peer, s.p.local)
    else Info(h, s.inc, None, if s.p.endpoint.Some? then s.p.endpoint.value else Addr(0, 0))
  }

  /**
   A handled Ready of a TCP socket finds its socket. If the socket may not receive yet, the Ready waits
   in the receive slot. Otherwise both ends of the connection are known and the stream is announced
   with them, unless the acceptor is gone, and nothing else changes.
   */
  lemma ReadyOfTcp(ws: seq<World>, ls: seq<Label>, i: nat, h: Handle, inc: nat)
    requires Run(ws, ls, FREE) && i < |ls| && ls[i].HandleNext? && ws[i].todo != [] && ws[i].todo[0] == Ready(Tcp(h), inc)
    ensures Present(ws[i].st.sockets, Tcp(h), inc)
    ensures var w, s, st1 := ws[i], ws[i].st.sockets[h], ws[i + 1].st;
            if !S.MayRecv(s.p) then
              SameInfos(w.st, st1) && h in st1.sockets && st1.sockets[h] == s.(recvSlot := Some(Ready(Tcp(h), inc)))
            else
              && s.p.peer.Some?
              && st1 == w.st.(tcpInfos := if w.st.tcpAcceptor then w.st.tcpInfos + [Announcement(h, s)] else w.st.tcpInfos)
  {
    var w := ws[i];
    RunKeeps(ws, ls, FREE, i);
    PlaceIsWell(w, Doing(0), FREE);
    BlockedKnowsPeers(w.st.sockets);
    assert Step(ws[i], ls[i], ws[i + 1], FREE);
    assert ws[i + 1].st == HandleReady(w.st, Tcp(h), inc);
    hide WorldInv, Step, RegisterRecv;
  }

  /** A handled Ready of a UDP socket finds its socket and announces it, unless the acceptor is gone. */
  lemma ReadyOfUdp(ws: seq<World>, ls: seq<Label>, i: nat, h: Handle, inc: nat)
    requires Run(ws, ls, FREE) && i < |ls| && ls[i].HandleNext? && ws[i].todo != [] && ws[i].todo[0] == Ready(Udp(h), inc)
    ensures Present(ws[i].st.sockets, Udp(h), inc) && ws[i].st.sockets[h].p.endpoint.Some?
    ensures var w, s := ws[i], ws[i].st.sockets[h];
            ws[i + 1].st == w.st.(udpInfos := if w.st.udpAcceptor then w.st.udpInfos + [Announcement(h, s)] else w.st.udpInfos)
  {
    var w := ws[i];
    RunKeeps(ws, ls, FREE, i);
    PlaceIsWell(w, Doing(0), FREE);
    assert Addressed(w.st.sockets[h], w.st.born);
    assert Step(ws[i], ls[i], ws[i + 1], FREE);
    assert ws[i + 1].st == HandleReady(w.st, Udp(h), inc);
    hide WorldInv, Step, RegisterRecv;
  }

  // ---- where infos and clients come from ----

  function InfosFor(st: State, tcp: bool): seq<Info> { if tcp then st.tcpInfos else st.udpInfos }

  /** The step announces the socket at `h`: it handles its Ready, and the socket may receive if it is TCP. */
  ghost predicate Announces(w: World, l: Label, th: TypedHandle, i: Info) {
    && l.HandleNext? && w.todo != [] && w.todo[0] == Ready(th, i.inc) && Present(w.st.sockets, th, i.inc)
    && (th.Tcp? ==> S.MayRecv(w.st.sockets[th.handle].p) && w.st.sockets[th.handle].p.peer.Some?)
    && i == Announcement(th.handle, w.st.sockets[th.handle])
  }

  /** Apart from handled events, infos are only taken by the acceptor or thrown away with it. */
  lemma StepInfos(w: World, l: Label)
    requires Enabled(w, l) && !l.HandleNext?
    ensures Next(w, l).st.tcpInfos == if l.AcceptTcp? then w.st.tcpInfos[1..] else if l.DropTcpAcceptor? then [] else w.st.tcpInfos
    ensures (l.AcceptTcp? ==> w.st.tcpInfos != []) && (l.AcceptUdp? ==> w.st.udpInfos != [])
    ensures Next(w, l).st.udpInfos == if l.AcceptUdp? then w.st.udpInfos[1..] else if l.DropUdpAcceptor? then [] else w.st.udpInfos
  {
    hide Poll, Do, Dispatch, Issued, IssueRefused, EventFor, Phased;
    match l
    case PollOne(h, f) => PollSameInfos(w.st, h, f);
    case DropStack => DiscardAllFrame(w.st, w.todo);
    case DropGenerator(n) => DiscardAllFrame(w.st.(queue := w.st.queue[..n], queueOpen := false), w.st.queue[n..]);
    case _ =>
  }

  /**
   A handled event puts something into an acceptor channel if and only if it is a Ready of a UDP socket
   or of a TCP socket that may receive, and the acceptor lives; it is then the announcement of that
   socket, and nothing goes to the other acceptor.
   */
  lemma DeliveredExactly(ws: seq<World>, ls: seq<Label>, i: nat, tcp: bool)
    requires Run(ws, ls, FREE) && i < |ls| && ls[i].HandleNext? && ws[i].todo != []
    ensures var w, e := ws[i], ws[i].todo[0];
            if e.Ready? && e.typed.Tcp? == tcp && (if tcp then w.st.tcpAcceptor else w.st.udpAcceptor)
               && e.typed.handle in w.st.sockets && (HasTcp(w.st, e.typed.handle) ==> S.MayRecv(w.st.sockets[e.typed.handle].p)) then
              && InfosFor(ws[i + 1].st, tcp) == InfosFor(w.st, tcp) + [Announcement(e.typed.handle, w.st.sockets[e.typed.handle])]
              && Announces(w, ls[i], e.typed, Announcement(e.typed.handle, w.st.sockets[e.typed.handle]))
            else InfosFor(ws[i + 1].st, tcp) == InfosFor(w.st, tcp)
  {
    var w, e := ws[i], ws[i].todo[0];
    assert Step(ws[i], ls[i], ws[i + 1], FREE);
    if e.Ready? {
      hide Step, S.MayRecv;
      if e.typed.Tcp? {
        ReadyOfTcp(ws, ls, i, e.typed.handle, e.inc);
      } else {
        ReadyOfUdp(ws, ls, i, e.typed.handle, e.inc);
      }
    } else {
      hide Dispatch;
      OnlyReadyDelivers(w.st, e);
    }
  }

  /** Every info in an acceptor channel announces a socket as it was when its Ready was handled. */
  lemma {:induction false} InfoOrigin(ws: seq<World>, ls: seq<Label>, i: nat, tcp: bool, k: nat) returns (j: nat)
    requires Run(ws, ls, FREE) && i < |ws| && k < |InfosFor(ws[i].st, tcp)|
    ensures var info := InfosFor(ws[i].st, tcp)[k];
            j < i && Announces(ws[j], ls[j], if tcp then Tcp(info.handle) else Udp(info.handle), info)
  {
    hide Announces, Enabled, Next, Allowed;
    if i == 0 {
      assert false;
    } else {
      var w, l, w1 := ws[i - 1], ls[i - 1], ws[i];
      assert Step(ws[i - 1], ls[i - 1], ws[i - 1 + 1], FREE);
      if l.HandleNext? {
        HasNextEvent(w, l);
        DeliveredExactly(ws, ls, i - 1, tcp);
        if k < |InfosFor(w.st, tcp)| {
          j := InfoOrigin(ws, ls, i - 1, tcp, k);
        } else {
          j := i - 1;
          AnnouncedHandle(w, l, w.todo[0].typed, InfosFor(w1.st, tcp)[k]);
        }
      } else {
        StepInfos(w, l);
        var taken := if tcp then l.AcceptTcp? else l.AcceptUdp?;
        j := InfoOrigin(ws, ls, i - 1, tcp, if taken then k + 1 else k);
      }
    }
  }

  lemma HasNextEvent(w: World, l: Label)
    requires Enabled(w, l) && l.HandleNext?
    ensures w.todo != []
  {
  }

  lemma AnnouncedHandle(w: World, l: Label, th: TypedHandle, i: Info)
    requires Announces(w, l, th, i)
    ensures i.handle == th.handle && w.todo != [] && w.todo[0].Ready? && w.todo[0].typed == th
  {
  }

  /**
   Every live client was announced when its Ready found a socket that may receive, if it is a stream,
   and carries the addresses of that moment: as its peer the address its socket was created for, and as
   its own address the other end of the connection.
   */
  lemma {:induction false} ClientOrigin(ws: seq<World>, ls: seq<Label>, i: nat, inc: nat) returns (j: nat)
    requires Run(ws, ls, FREE) && i < |ws| && inc in ws[i].clients
    ensures var c := ws[i].clients[inc];
            j < i && Announces(ws[j], ls[j], c.typed, Info(c.typed.handle, inc, c.local, c.peer))
  {
    hide Announces, Allowed;
    if i == 0 {
      assert false;
    } else {
      var w, l, w1 := ws[i - 1], ls[i - 1], ws[i];
      assert Step(ws[i - 1], ls[i - 1], ws[i - 1 + 1], FREE);
      ClientsChange(w, l, inc);
      hide Step, Enabled, Next;
      if (l.AcceptTcp? || l.AcceptUdp?) && InfosFor(w.st, l.AcceptTcp?)[0].inc == inc {
        j := InfoOrigin(ws, ls, i - 1, l.AcceptTcp?, 0);
      } else {
        j := ClientOrigin(ws, ls, i - 1, inc);
      }
    }
  }

  lemma ClientsChange(w: World, l: Label, inc: nat)
    requires Enabled(w, l) && inc in Next(w, l).clients
    ensures l.AcceptTcp? || l.AcceptUdp? ==> InfosFor(w.st, l.AcceptTcp?) != []
    ensures if (l.AcceptTcp? || l.AcceptUdp?) && InfosFor(w.st, l.AcceptTcp?)[0].inc == inc then
              var i := InfosFor(w.st, l.AcceptTcp?)[0];
              Next(w, l).clients[inc] == Stream(if l.AcceptTcp? then Tcp(i.handle) else Udp(i.handle), i.remoteAddr, i.localAddr)
            else inc in w.clients && Next(w, l).clients[inc] == w.clients[inc]
  {
  }
}
