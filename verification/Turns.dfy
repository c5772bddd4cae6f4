/**
 Turns at a TCP socket: everything that can happen to the protocol part of a socket, as seen by a
 client with an operation outstanding. `HandlersTakeTurns` shows that the handlers of
 src/tcp_stack/mod.rs do nothing else to it.
 */
module Turns {
  import opened Event
  import opened Operation
  import opened Stack
  import S = Smoltcp

  // ---- turns ----

  datatype Turn =
    | Net(f: S.Effect)          // one effect of `poll`
    | Shut                      // a Shutdown or Close of the stream is handled
    | Took(n: nat)              // a Read of the stream is handled
    | Wrote(bytes: seq<Byte>)   // a Write of the stream is handled
    | PickUp                    // a Recv of the socket is handled
    | Post(d: S.Datagram)       // a Send of the socket is handled
    | Handle                    // the event of the outstanding operation is handled
    | Fail(kind: ErrorKind)     // the operation is answered with an error or dropped by the stack

  /** Which turns can happen to the socket. */
  predicate Can(p: S.Proto, t: Turn)
    requires p.TcpSocket?
  {
    match t
    case Net(f) => S.Possible(p, f)
    case Shut => true
    case Took(n) => n <= |p.rx|
    case Wrote(bytes) => S.CanSendTcp(p) && |p.tx| + |bytes| <= p.cap
    case _ => false
  }

  function Turned(p: S.Proto, t: Turn): (r: S.Proto)
    requires p.TcpSocket? && Can(p, t)
    ensures r.TcpSocket?
  {
    match t
    case Net(f) => S.Affected(p, f)
    case Shut => p.(state := S.CloseState(p.state))
    case Took(n) => p.(rx := p.rx[n..])
    case Wrote(bytes) => p.(tx := p.tx + bytes)
  }

  predicate WakesReader(p: S.Proto, t: Turn)
    requires p.TcpSocket? && Can(p, t)
  {
    (t.Net? && S.WakesRecv(t.f)) || (t.Shut? && Turned(p, t).state != p.state)
  }

  predicate WakesWriter(p: S.Proto, t: Turn)
    requires p.TcpSocket? && Can(p, t)
  {
    (t.Net? && S.WakesSend(t.f)) || (t.Shut? && Turned(p, t).state != p.state)
  }

  // ---- what the handlers do to the protocol part of a socket ----

  /** Every socket of `r` was in `st`, with the same protocol part but for socket `h`. */
  ghost predicate OnlyAt(st: State, r: State, h: Handle) {
    forall g :: g in r.sockets ==>
      && g in st.sockets && r.sockets[g].inc == st.sockets[g].inc
      && (r.sockets[g].p.TcpSocket? <==> st.sockets[g].p.TcpSocket?)
      && (g != h ==> r.sockets[g].p == st.sockets[g].p)
  }

  /** A UDP socket is left alone, or gives up its first datagram to a Recv, or takes the datagram of a Send. */
  predicate UdpTurn(p: S.Proto, q: S.Proto, t: Turn)
    requires p.UdpSocket?
  {
    || q == p
    || (t.PickUp? && p.inbox != [] && q == p.(inbox := p.inbox[1..]))
    || (t.Post? && q == p.(outbox := p.outbox + [t.d]))
  }

  /** A handler did `t` to socket `h`, or left it alone, or removed it; and nothing to the other sockets. */
  ghost predicate Did(st: State, r: State, h: Handle, t: Turn) {
    && OnlyAt(st, r, h)
    && (h in r.sockets && st.sockets[h].p.UdpSocket? ==> UdpTurn(st.sockets[h].p, r.sockets[h].p, t))
    && (h in r.sockets && st.sockets[h].p.TcpSocket? ==>
          || r.sockets[h].p == st.sockets[h].p
          || (Can(st.sockets[h].p, t) && r.sockets[h].p == Turned(st.sockets[h].p, t)))
  }

  lemma NothingDone(st: State, r: State, h: Handle, t: Turn)
    requires r.sockets == st.sockets
    ensures Did(st, r, h, t)
  {
  }

  lemma RegisterDoes(st: State, h: Handle, e: Event, t: Turn)
    requires h in st.sockets
    ensures Did(st, RegisterRecv(st, h, e), h, t) && Did(st, RegisterSend(st, h, e), h, t)
  {
    hide RegisterRecv, RegisterSend, Turned, Can;
  }

  lemma ReadyDoes(st: State, th: TypedHandle, inc: nat)
    ensures Did(st, HandleReady(st, th, inc), th.handle, Shut)
  {
    hide RegisterRecv, RegisterSend, Did;
    var r := HandleReady(st, th, inc);
    if th.Tcp? && HasTcp(st, th.handle) && !S.MayRecv(st.sockets[th.handle].p) {
      RegisterDoes(st, th.handle, Ready(th, inc), Shut);
    } else {
      assert r.sockets == st.sockets;
      NothingDone(st, r, th.handle, Shut);
    }
  }

  lemma CloseTcpDoes(st: State, h: Handle)
    requires HasTcp(st, h)
    ensures Did(st, CloseTcp(st, h), h, Shut)
  {
  }

  lemma ShutdownDoes(st: State, th: TypedHandle, o: OpId)
    ensures Did(st, HandleShutdown(st, th, o), th.handle, Shut)
  {
    hide CloseTcp, RegisterSend, Turned, Can;
    if th.Tcp? && HasTcp(st, th.handle) {
      CloseTcpDoes(RegisterSend(st, th.handle, Shutdown(th, o)), th.handle);
    }
  }

  lemma RemovesOnly(st: State, h: Handle, dst: Addr)
    requires h in st.sockets
    ensures OnlyAt(st, RemoveTcp(st, h), h) && h !in RemoveTcp(st, h).sockets
    ensures OnlyAt(st, RemoveUdp(st, h, dst), h) && h !in RemoveUdp(st, h, dst).sockets
  {
    hide DropRecv, DropSend;
  }

  lemma CloseStreamDoes(st: State, h: Handle, inc: nat)
    requires HasTcp(st, h)
    ensures Did(st, CloseStream(st, h, inc), h, Shut)
  {
    hide CloseTcp, RegisterRecv, RemoveTcp, RemoveUdp, Turned, Can;
    CloseTcpDoes(st, h);
    RemovesOnly(CloseTcp(st, h), h, st.sockets[h].p.local);
  }

  lemma CloseDatagramDoes(st: State, h: Handle)
    requires HasUdp(st, h)
    ensures Did(st, CloseDatagram(st, h), h, Shut)
  {
    hide CloseUdp, RemoveTcp, RemoveUdp, Turned, Can;
    if st.sockets[h].p.endpoint.Some? {
      RemovesOnly(CloseUdp(st, h), h, st.sockets[h].p.endpoint.value);
    }
  }

  lemma CloseDoes(st: State, th: TypedHandle, inc: nat)
    ensures Did(st, HandleClose(st, th, inc), th.handle, Shut)
  {
    hide CloseStream, CloseDatagram, Turned, Can;
    if th.Tcp? && HasTcp(st, th.handle) {
      CloseStreamDoes(st, th.handle, inc);
    } else if th.Udp? && HasUdp(st, th.handle) {
      CloseDatagramDoes(st, th.handle);
    }
  }

  /** The bytes the read arm takes when it takes any, and those the write arm appends. */
  function TakenBy(p: S.Proto, buf: seq<Byte>): seq<Byte>
    requires p.TcpSocket?
  {
    p.rx[..S.Min(|p.rx|, |buf|)]
  }

  function AppendedBy(p: S.Proto, buf: seq<Byte>): seq<Byte>
    requires p.TcpSocket?
  {
    if S.CanSendTcp(p) then buf[..S.Min(p.cap - |p.tx|, |buf|)] else []
  }

  /** The turn that handling `e` amounts to. */
  function TurnOf(st: State, e: Event): Turn {
    if e.IsControl() then Shut
    else if e.IsTcpData() && HasTcp(st, e.handle) && e.op in st.ops then
      var p, buf := st.sockets[e.handle].p, st.ops[e.op].buf;
      if e.Read? then Took(|TakenBy(p, buf)|) else Wrote(AppendedBy(p, buf))
    else if e.Recv? then PickUp
    else if e.Send? && e.op in st.ops then Post(S.Datagram(e.src, st.ops[e.op].buf))
    else Took(0)
  }

  lemma CompleteDoes(st: State, h: Handle, o: OpId, p: S.Proto, buf: seq<Byte>, init: nat, plan: seq<Act>, t: Turn)
    requires h in st.sockets && o in st.ops && (p.TcpSocket? <==> st.sockets[h].p.TcpSocket?)
    requires st.sockets[h].p.TcpSocket? ==> p == st.sockets[h].p || (Can(st.sockets[h].p, t) && p == Turned(st.sockets[h].p, t))
    requires st.sockets[h].p.UdpSocket? ==> UdpTurn(st.sockets[h].p, p, t)
    ensures Did(st, CompleteOp(st, h, o, p, buf, init, plan), h, t)
  {
  }

  lemma TcpDoes(st: State, e: Event)
    requires e.IsTcpData()
    ensures Did(st, HandleTcp(st, e), e.handle, TurnOf(st, e))
  {
    hide Did, RegisterRecv, RegisterSend, CompleteOp;
    var r, h, o := HandleTcp(st, e), e.handle, e.op;
    if Tcp(h) !in st.registered || !HasTcp(st, h) || o !in st.ops {
      NothingDone(st, r, h, TurnOf(st, e));
    } else {
      RegisterDoes(st, h, e, TurnOf(st, e));
      var p, op := st.sockets[h].p, st.ops[o];
      var out := if e.Read? then ReadOutcome(p, op.buf, op.init) else WriteOutcome(p, op.buf, op.init);
      if out.Complete? {
        CompleteDoes(st, h, o, out.proto, out.buf, out.init, out.plan, TurnOf(st, e));
      }
    }
  }

  lemma UdpDoes(st: State, e: Event)
    requires e.IsUdpData()
    ensures Did(st, HandleUdp(st, e), e.handle, TurnOf(st, e))
  {
    hide Did, RegisterRecv, RegisterSend, CompleteOp;
    var r, h, o := HandleUdp(st, e), e.handle, e.op;
    if Udp(h) !in st.registered || !HasUdp(st, h) || o !in st.ops {
      NothingDone(st, r, h, TurnOf(st, e));
    } else {
      RegisterDoes(st, h, e, TurnOf(st, e));
      var p, op := st.sockets[h].p, st.ops[o];
      var out := if e.Recv? then RecvOutcome(p, op.buf, op.init, op.refused)
                 else SendOutcome(p, e.src, op.buf, op.init, op.refused);
      if out.Complete? {
        CompleteDoes(st, h, o, out.proto, out.buf, out.init, out.plan, TurnOf(st, e));
      }
    }
  }

  /**
   Turns are all the driver does to a socket: whatever event it handles, at most the socket the event
   is for is touched, and it is removed, left alone or changed by that one turn. A UDP socket gives up
   its first datagram to a Recv, or takes from a Send the client's buffer for the address it names.
   */
  lemma HandlersTakeTurns(st: State, e: Event)
    ensures Did(st, Dispatch(st, e), e.Target().handle, TurnOf(st, e))
  {
    hide Did, TurnOf, HandleTcp, HandleUdp, HandleReady, HandleClose, HandleShutdown;
    if e.IsControl() {
      ControlIsShut(st, e);
      match e
      case Ready(th, inc) => ReadyDoes(st, th, inc);
      case Shutdown(th, o) => ShutdownDoes(st, th, o);
      case Close(th, inc) => CloseDoes(st, th, inc);
    } else if e.IsTcpData() {
      TcpDoes(st, e);
    } else {
      UdpDoes(st, e);
    }
  }

  lemma ControlIsShut(st: State, e: Event)
    requires e.IsControl()
    ensures TurnOf(st, e) == Shut
  {
  }
}
