/**
 Parked means blocked: a closure sits in a waker slot only while the operation or token it owns
 could not make progress. This is a property of each socket on its own, kept by every handler and by
 every effect of `poll`, with no assumption about the clients.
 */
module Parked {
  import opened Event
  import opened Operation
  import opened Stack
  import S = Smoltcp

  predicate RecvBlocked(p: S.Proto, e: Event) {
    if p.TcpSocket? then
      && (e.Read? ==> p.rx == [] && S.MayRecv(p))
      && (e.Close? ==> S.IsActive(p.state))
      && (e.Ready? ==> !S.MayRecv(p))
    else
      e.Recv? ==> p.inbox == []
  }

  predicate SendBlocked(p: S.Proto, e: Event) {
    if p.TcpSocket? then
      && (e.Write? ==> |p.tx| >= p.cap && S.MaySend(p.state))
      && (e.Shutdown? ==> !S.TransmitOpen(p.state))
      && (e.Ready? ==> p.state.Listen?)
    else
      e.Send? ==> |p.outbox| >= S.UDP_PACKETS
  }

  predicate Blocked(s: S.Socket) {
    && (s.recvSlot.Some? ==> RecvBlocked(s.p, s.recvSlot.value))
    && (s.sendSlot.Some? ==> SendBlocked(s.p, s.sendSlot.value))
    && (s.p.TcpSocket? ==> S.PeerKnown(s.p.state, s.p.rx, s.p.peer))
  }

  ghost predicate AllBlocked(sockets: map<Handle, S.Socket>) {
    forall h :: h in sockets ==> Blocked(sockets[h])
  }

  lemma SetBlocked(sockets: map<Handle, S.Socket>, h: Handle, s: S.Socket)
    requires AllBlocked(sockets) && Blocked(s)
    ensures AllBlocked(sockets[h := s])
  {
  }

  lemma UnsetBlocked(sockets: map<Handle, S.Socket>, h: Handle)
    requires AllBlocked(sockets)
    ensures AllBlocked(sockets - {h})
  {
  }

  lemma GetBlocked(sockets: map<Handle, S.Socket>, h: Handle)
    requires AllBlocked(sockets) && h in sockets
    ensures Blocked(sockets[h])
  {
  }

  /** What one effect of `poll` leaves of a socket. */
  function AfterPoll(s: S.Socket, f: S.Effect): S.Socket
    requires S.Possible(s.p, f)
  {
    S.Socket(s.inc, S.Affected(s.p, f),
             if S.WakesRecv(f) then None else s.recvSlot, if S.WakesSend(f) then None else s.sendSlot)
  }

  lemma EffectKeepsBlocked(s: S.Socket, f: S.Effect)
    requires Blocked(s) && S.Possible(s.p, f)
    ensures Blocked(AfterPoll(s, f))
  {
  }

  lemma SetTwice(sockets: map<Handle, S.Socket>, h: Handle, s: S.Socket, s1: S.Socket)
    ensures sockets[h := s][h := s1] == sockets[h := s1]
  {
  }

  lemma PollSockets(st: State, h: Handle, f: S.Effect)
    requires h in st.sockets && S.Possible(st.sockets[h].p, f)
    ensures Poll(st, h, f).sockets == st.sockets[h := AfterPoll(st.sockets[h], f)]
  {
    hide FireRecv, FireSend, S.Affected, S.Possible, S.WakesRecv, S.WakesSend;
    var s := st.sockets[h];
    var s1 := s.(p := S.Affected(s.p, f));
    var s2 := if S.WakesRecv(f) then s1.(recvSlot := None) else s1;
    SetTwice(st.sockets, h, s1, s2);
    SetTwice(st.sockets, h, s2, AfterPoll(s, f));
    var st1 := SetSocket(st, h, s1);
    var st2 := if S.WakesRecv(f) then FireRecv(st1, h) else st1;
    assert st2.sockets == st.sockets[h := s2];
    if S.WakesSend(f) {
      assert FireSend(st2, h).sockets == st2.sockets[h := s2.(sendSlot := None)];
    }
  }

  lemma PollKeepsBlocked(st: State, h: Handle, f: S.Effect)
    requires AllBlocked(st.sockets) && h in st.sockets && S.Possible(st.sockets[h].p, f)
    ensures AllBlocked(Poll(st, h, f).sockets)
  {
    hide AllBlocked, Blocked, Poll, AfterPoll, S.Possible;
    GetBlocked(st.sockets, h);
    EffectKeepsBlocked(st.sockets[h], f);
    PollSockets(st, h, f);
    SetBlocked(st.sockets, h, AfterPoll(st.sockets[h], f));
  }

  /** `close` on a socket, with the slots it wakes. */
  function AfterClose(s: S.Socket): S.Socket
    requires s.p.TcpSocket?
  {
    var next := S.CloseState(s.p.state);
    if next == s.p.state then s else S.Socket(s.inc, s.p.(state := next), None, None)
  }

  /** `close` never leaves a closure behind that it should have woken; a parked shutdown is the
      reason why it may be called with a send slot that is not blocked yet. */
  lemma CloseKeepsBlocked(s: S.Socket)
    requires s.p.TcpSocket? && S.PeerKnown(s.p.state, s.p.rx, s.p.peer)
    requires s.recvSlot.Some? ==> RecvBlocked(s.p, s.recvSlot.value)
    requires s.sendSlot.Some? ==> s.sendSlot.value.Shutdown? || SendBlocked(s.p, s.sendSlot.value)
    ensures Blocked(AfterClose(s))
  {
  }

  lemma CloseTcpSockets(st: State, h: Handle)
    requires HasTcp(st, h)
    ensures CloseTcp(st, h).sockets == st.sockets[h := AfterClose(st.sockets[h])]
  {
    hide FireRecv, FireSend;
  }

  lemma ShutdownKeepsBlocked(st: State, th: TypedHandle, o: OpId)
    requires AllBlocked(st.sockets)
    ensures AllBlocked(HandleShutdown(st, th, o).sockets)
  {
    hide AllBlocked, RegisterSend, CloseTcp, AfterClose, RecvBlocked, SendBlocked, S.PeerKnown;
    if th in st.registered && th.Tcp? && HasTcp(st, th.handle) {
      var h := th.handle;
      var s1 := st.sockets[h].(sendSlot := Some(Shutdown(th, o)));
      GetBlocked(st.sockets, h);
      CloseKeepsBlocked(s1);
      CloseTcpSockets(RegisterSend(st, h, Shutdown(th, o)), h);
      SetBlocked(st.sockets, h, AfterClose(s1));
      assert st.sockets[h := s1][h := AfterClose(s1)] == st.sockets[h := AfterClose(s1)];
    }
  }

  lemma CloseStreamKeepsBlocked(st: State, h: Handle, inc: nat)
    requires AllBlocked(st.sockets) && HasTcp(st, h)
    ensures AllBlocked(CloseStream(st, h, inc).sockets)
  {
    hide AllBlocked, Blocked, CloseTcp, RegisterRecv, DropRecv, DropSend, AfterClose, RecvBlocked, SendBlocked, S.PeerKnown;
    GetBlocked(st.sockets, h);
    BlockedParts(st.sockets[h]);
    CloseKeepsBlocked(st.sockets[h]);
    CloseTcpSockets(st, h);
    var s1 := AfterClose(st.sockets[h]);
    if S.IsActive(s1.p.state) {
      var s2 := s1.(recvSlot := Some(Close(Tcp(h), inc)));
      RegisterBlocked(s1, Close(Tcp(h), inc));
      SetBlocked(st.sockets, h, s2);
      SetTwice(st.sockets, h, s1, s2);
    } else {
      UnsetBlocked(st.sockets, h);
      assert CloseStream(st, h, inc).sockets == st.sockets - {h};
    }
  }

  lemma CloseDatagramKeepsBlocked(st: State, h: Handle)
    requires AllBlocked(st.sockets) && HasUdp(st, h)
    ensures AllBlocked(CloseDatagram(st, h).sockets)
  {
    hide AllBlocked, CloseUdp, DropRecv, DropSend;
    if st.sockets[h].p.endpoint.Some? {
      UnsetBlocked(st.sockets, h);
      assert CloseDatagram(st, h).sockets == st.sockets - {h};
    }
  }

  lemma CloseEventKeepsBlocked(st: State, th: TypedHandle, inc: nat)
    requires AllBlocked(st.sockets)
    ensures AllBlocked(HandleClose(st, th, inc).sockets)
  {
    hide AllBlocked, CloseStream, CloseDatagram;
    if th.Tcp? && HasTcp(st, th.handle) {
      CloseStreamKeepsBlocked(st, th.handle, inc);
    } else if th.Udp? && HasUdp(st, th.handle) {
      CloseDatagramKeepsBlocked(st, th.handle);
    }
  }

  lemma BlockedParts(s: S.Socket)
    requires Blocked(s) && s.p.TcpSocket?
    ensures S.PeerKnown(s.p.state, s.p.rx, s.p.peer)
    ensures s.recvSlot.Some? ==> RecvBlocked(s.p, s.recvSlot.value)
    ensures s.sendSlot.Some? ==> SendBlocked(s.p, s.sendSlot.value)
  {
  }

  lemma RegisterBlocked(s: S.Socket, e: Event)
    requires Blocked(s) && s.p.TcpSocket?
    requires (e.Close? && S.IsActive(s.p.state)) || (e.Ready? && !S.MayRecv(s.p))
    ensures Blocked(s.(recvSlot := Some(e)))
  {
  }

  lemma ReadyKeepsBlocked(st: State, th: TypedHandle, inc: nat)
    requires AllBlocked(st.sockets)
    ensures AllBlocked(HandleReady(st, th, inc).sockets)
  {
    hide AllBlocked, Blocked, RegisterRecv;
    if th.Tcp? && HasTcp(st, th.handle) && !S.MayRecv(st.sockets[th.handle].p) {
      GetBlocked(st.sockets, th.handle);
      RegisterBlocked(st.sockets[th.handle], Ready(th, inc));
      SetBlocked(st.sockets, th.handle, st.sockets[th.handle].(recvSlot := Some(Ready(th, inc))));
    }
  }

  /** A data event is parked only when it is blocked, and serving it unblocks nothing that is parked. */
  lemma StreamOutcomesBlocked(s: S.Socket, e: Event, buf: seq<Byte>, init: nat)
    requires Blocked(s) && s.p.TcpSocket?
    ensures e.Read? ==>
              var r := ReadOutcome(s.p, buf, init);
              Blocked(if r.Park? then s.(recvSlot := Some(e)) else s.(p := r.proto))
    ensures e.Write? ==>
              var r := WriteOutcome(s.p, buf, init);
              Blocked(if r.Park? then s.(sendSlot := Some(e)) else s.(p := r.proto))
  {
  }

  lemma DatagramOutcomesBlocked(s: S.Socket, e: Event, to: Addr, buf: seq<Byte>, init: nat, refused: bool)
    requires Blocked(s) && s.p.UdpSocket?
    ensures e.Recv? ==>
              var r := RecvOutcome(s.p, buf, init, refused);
              Blocked(if r.Park? then s.(recvSlot := Some(e)) else s.(p := r.proto))
    ensures e.Send? ==>
              var r := SendOutcome(s.p, to, buf, init, refused);
              Blocked(if r.Park? then s.(sendSlot := Some(e)) else s.(p := r.proto))
  {
  }

  lemma TcpKeepsBlocked(st: State, e: Event)
    requires AllBlocked(st.sockets) && e.IsTcpData()
    ensures AllBlocked(HandleTcp(st, e).sockets)
  {
    hide AllBlocked, Blocked, ReadOutcome, WriteOutcome, RegisterRecv, RegisterSend;
    if HasTcp(st, e.handle) && e.op in st.ops && Tcp(e.handle) in st.registered {
      var s, op := st.sockets[e.handle], st.ops[e.op];
      GetBlocked(st.sockets, e.handle);
      StreamOutcomesBlocked(s, e, op.buf, op.init);
      var r := if e.Read? then ReadOutcome(s.p, op.buf, op.init) else WriteOutcome(s.p, op.buf, op.init);
      var s1 := if r.Complete? then s.(p := r.proto)
                else if e.Read? then s.(recvSlot := Some(e)) else s.(sendSlot := Some(e));
      SetBlocked(st.sockets, e.handle, s1);
    }
  }

  lemma UdpKeepsBlocked(st: State, e: Event)
    requires AllBlocked(st.sockets) && e.IsUdpData()
    ensures AllBlocked(HandleUdp(st, e).sockets)
  {
    hide AllBlocked, Blocked, RecvOutcome, SendOutcome, RegisterRecv, RegisterSend;
    if HasUdp(st, e.handle) && e.op in st.ops && Udp(e.handle) in st.registered {
      var s, op := st.sockets[e.handle], st.ops[e.op];
      var to := if e.Send? then e.src else Addr(0, 0);
      GetBlocked(st.sockets, e.handle);
      DatagramOutcomesBlocked(s, e, to, op.buf, op.init, op.refused);
      var r := if e.Recv? then RecvOutcome(s.p, op.buf, op.init, op.refused)
               else SendOutcome(s.p, to, op.buf, op.init, op.refused);
      var s1 := if r.Complete? then s.(p := r.proto)
                else if e.Recv? then s.(recvSlot := Some(e)) else s.(sendSlot := Some(e));
      SetBlocked(st.sockets, e.handle, s1);
    }
  }

  /** No handler parks anything that could have been served, and none makes a parked closure serviceable. */
  lemma DispatchKeepsBlocked(st: State, e: Event)
    requires AllBlocked(st.sockets)
    ensures AllBlocked(Dispatch(st, e).sockets)
  {
    hide AllBlocked, HandleReady, HandleShutdown, HandleClose, HandleTcp, HandleUdp;
    match e
    case Ready(th, inc) => ReadyKeepsBlocked(st, th, inc);
    case Shutdown(th, o) => ShutdownKeepsBlocked(st, th, o);
    case Close(th, inc) => CloseEventKeepsBlocked(st, th, inc);
    case _ =>
      if e.IsTcpData() {
        TcpKeepsBlocked(st, e);
      } else {
        UdpKeepsBlocked(st, e);
      }
  }
}
