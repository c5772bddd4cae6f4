/**
 `TcpStack` itself (src/tcp_stack/mod.rs): the object whose fields the handlers update in place.
 Every method does to the fields what the function of the same name in module `Stack` does to the
 state; `DriveOnce` runs the three loops over a batch and ends where handling `Phased` of the batch
 event by event ends.

 An operation is let go of by installing its plan; the drop of the buffer, the send and the drop of
 the sender then happen one after another, interleaved with the client (module `World`).
 */
module TcpStacks {
  import opened Event
  import opened Operation
  import opened Stack
  import S = Smoltcp

  /** What arrived from the tunnel, after `parse_packet`. `handle` is the free slot the socket set would use. */
  datatype Packet = Syn(dst: Addr, handle: Handle) | Datagram(dst: Addr, handle: Handle) | OtherPacket

  /** The effects of one call of `poll`, in order. */
  ghost predicate Pollable(st: State, effects: seq<(Handle, S.Effect)>)
    decreases effects
  {
    effects == [] ||
    (&& effects[0].0 in st.sockets && S.Possible(st.sockets[effects[0].0].p, effects[0].1)
     && Pollable(Poll(st, effects[0].0, effects[0].1), effects[1..]))
  }

  function PollAll(st: State, effects: seq<(Handle, S.Effect)>): State
    requires Pollable(st, effects)
    decreases effects
  {
    if effects == [] then st else PollAll(Poll(st, effects[0].0, effects[0].1), effects[1..])
  }

  /** The state after a packet was looked at, and whether `drive_once` goes on. */
  function Admitted(st: State, packet: Packet): (State, bool) {
    match packet
    case OtherPacket => (st, true)
    case Syn(dst, h) =>
      var r := InitTcp(st, dst, h);
      if r.None? then (st, false) else (r.value, true)
    case Datagram(dst, h) =>
      match TryInitUdp(st, dst, h)
      case Ignored => (st, true)
      case BindFailed => (st, false)
      case SendFailed(st1) => (st1, false)
      case Created(st1) => (st1, true)
  }

  class TcpStack {
    var socketSet: map<Handle, S.Socket>
    var socketHandles: set<TypedHandle>
    var acceptedUdpSockets: set<Addr>
    var queue: seq<Event>
    var queueOpen: bool
    var tcpInfos: seq<Info>
    var tcpAcceptor: bool
    var udpInfos: seq<Info>
    var udpAcceptor: bool
    var ops: map<OpId, Op>
    var born: seq<Addr>
    var served: set<nat>
    var tcpSocketBufSize: nat
    var panicked: bool

    function View(): State
      reads this
    {
      State(socketSet, socketHandles, acceptedUdpSockets, queue, queueOpen, tcpInfos, tcpAcceptor, udpInfos, udpAcceptor,
            ops, born, served, tcpSocketBufSize, panicked)
    }

    constructor (bufSize: nat)
      ensures View() == Initial(bufSize)
    {
      socketSet, socketHandles, acceptedUdpSockets := map[], {}, {};
      queue, queueOpen := [], true;
      tcpInfos, tcpAcceptor, udpInfos, udpAcceptor := [], true, [], true;
      ops, born, served := map[], [], {};
      tcpSocketBufSize, panicked := bufSize, false;
    }

    // ---- operations and wakers ----

    method InstallPlan(o: OpId, plan: seq<Act>)
      modifies this`ops
      ensures ops == FinishOp(old(ops), o, plan)
    {
      if o in ops {
        ops := ops[o := Finish(ops[o], plan)];
      }
    }

    method DropClosure(slot: Option<Event>)
      modifies this`ops
      ensures View() == DiscardSlot(old(View()), slot)
    {
      if slot.Some? && !slot.value.IsToken() {
        InstallPlan(slot.value.op, DropPlan(slot.value.Shutdown?));
      }
    }

    method RunClosure(e: Event)
      modifies this`ops, this`queue
      ensures View() == Fire(old(View()), e)
    {
      if e.Shutdown? {
        InstallPlan(e.op, [SendReply(OkUnit), DropSender]);
      } else if queueOpen {
        queue := queue + [e];
      } else if !e.IsToken() {
        InstallPlan(e.op, [DropBuffer, SendReply(Err(BrokenPipe)), DropSender]);
      }
    }

    method WakeRecv(h: Handle)
      requires h in socketSet
      modifies this`socketSet, this`ops, this`queue
      ensures View() == FireRecv(old(View()), h)
    {
      var slot := socketSet[h].recvSlot;
      socketSet := socketSet[h := socketSet[h].(recvSlot := None)];
      if slot.Some? {
        RunClosure(slot.value);
      }
    }

    method WakeSend(h: Handle)
      requires h in socketSet
      modifies this`socketSet, this`ops, this`queue
      ensures View() == FireSend(old(View()), h)
    {
      var slot := socketSet[h].sendSlot;
      socketSet := socketSet[h := socketSet[h].(sendSlot := None)];
      if slot.Some? {
        RunClosure(slot.value);
      }
    }

    method RegisterRecvWaker(h: Handle, e: Event)
      requires h in socketSet
      modifies this`socketSet, this`ops
      ensures View() == RegisterRecv(old(View()), h, e)
    {
      var slot := socketSet[h].recvSlot;
      socketSet := socketSet[h := socketSet[h].(recvSlot := Some(e))];
      DropClosure(slot);
    }

    method RegisterSendWaker(h: Handle, e: Event)
      requires h in socketSet
      modifies this`socketSet, this`ops
      ensures View() == RegisterSend(old(View()), h, e)
    {
      var slot := socketSet[h].sendSlot;
      socketSet := socketSet[h := socketSet[h].(sendSlot := Some(e))];
      DropClosure(slot);
    }

    method CloseTcpSocket(h: Handle)
      requires HasTcp(View(), h)
      modifies this`socketSet, this`ops, this`queue
      ensures View() == CloseTcp(old(View()), h)
    {
      var s := socketSet[h];
      var next := S.CloseState(s.p.state);
      socketSet := socketSet[h := s.(p := s.p.(state := next))];
      if next != s.p.state {
        WakeRecv(h);
        WakeSend(h);
      }
    }

    method CloseUdpSocket(h: Handle)
      requires HasUdp(View(), h)
      modifies this`socketSet, this`ops, this`queue
      ensures View() == CloseUdp(old(View()), h)
    {
      WakeRecv(h);
      WakeSend(h);
      socketSet := socketSet[h := socketSet[h].(p := S.UdpSocket(None, [], []))];
    }

    // ---- creating and removing sockets ----

    method DropSlots(h: Handle)
      requires h in socketSet
      modifies this`socketSet, this`ops
      ensures View() == DropSend(DropRecv(old(View()), h), h)
    {
      var slot := socketSet[h].recvSlot;
      socketSet := socketSet[h := socketSet[h].(recvSlot := None)];
      DropClosure(slot);
      slot := socketSet[h].sendSlot;
      socketSet := socketSet[h := socketSet[h].(sendSlot := None)];
      DropClosure(slot);
    }

    method RemoveTcpSocket(h: Handle)
      requires h in socketSet
      modifies this`socketSet, this`ops, this`socketHandles
      ensures View() == RemoveTcp(old(View()), h)
    {
      DropSlots(h);
      socketSet := socketSet - {h};
      socketHandles := socketHandles - {Tcp(h)};
    }

    method RemoveUdpSocket(h: Handle, dst: Addr)
      requires h in socketSet
      modifies this`socketSet, this`ops, this`socketHandles, this`acceptedUdpSockets
      ensures View() == RemoveUdp(old(View()), h, dst)
    {
      DropSlots(h);
      socketSet := socketSet - {h};
      acceptedUdpSockets := acceptedUdpSockets - {dst};
      socketHandles := socketHandles - {Udp(h)};
    }

    method InitTcpSocket(dst: Addr, h: Handle) returns (ok: bool)
      requires h !in socketSet
      modifies this`socketSet, this`socketHandles, this`born
      ensures ok <==> InitTcp(old(View()), dst, h).Some?
      ensures View() == if ok then InitTcp(old(View()), dst, h).value else old(View())
    {
      var inc := |born|;
      var p := S.Listening(dst, tcpSocketBufSize);
      if p.None? {
        return false;
      }
      socketSet := socketSet[h := S.Socket(inc, p.value, None, Some(Ready(Tcp(h), inc)))];
      socketHandles := socketHandles + {Tcp(h)};
      born := born + [dst];
      return true;
    }

    method TryInitUdpSocket(dst: Addr, h: Handle) returns (ok: bool)
      requires h !in socketSet
      modifies this`socketSet, this`socketHandles, this`acceptedUdpSockets, this`born, this`queue
      ensures (View(), ok) == Admitted(old(View()), Datagram(dst, h))
    {
      if dst in acceptedUdpSockets {
        return true;
      }
      var inc := |born|;
      var p := S.Bound(dst);
      if p.None? {
        return false;
      }
      socketSet := socketSet[h := S.Socket(inc, p.value, None, None)];
      socketHandles := socketHandles + {Udp(h)};
      acceptedUdpSockets := acceptedUdpSockets + {dst};
      born := born + [dst];
      if !queueOpen {
        return false;
      }
      queue := queue + [Ready(Udp(h), inc)];
      return true;
    }

    // ---- handlers ----

    method HandleReadyWakeEvent(th: TypedHandle, inc: nat)
      modifies this`socketSet, this`ops, this`tcpInfos, this`udpInfos, this`panicked
      ensures View() == HandleReady(old(View()), th, inc)
    {
      var h := th.handle;
      match th {
        case Tcp(_) =>
          if !(h in socketSet && socketSet[h].p.TcpSocket?) {
            panicked := true;
            return;
          }
          var p := socketSet[h].p;
          if !S.MayRecv(p) {
            RegisterRecvWaker(h, Ready(th, inc));
            return;
          }
          if p.peer.None? {
            panicked := true;
            return;
          }
          if tcpAcceptor {
            tcpInfos := tcpInfos + [Info(h, inc, p.peer, p.local)];
          }
        case Udp(_) =>
          if !(h in socketSet && socketSet[h].p.UdpSocket?) || socketSet[h].p.endpoint.None? {
            panicked := true;
            return;
          }
          if udpAcceptor {
            udpInfos := udpInfos + [Info(h, inc, None, socketSet[h].p.endpoint.value)];
          }
      }
    }

    method HandleShutdownEvent(th: TypedHandle, o: OpId)
      modifies this`socketSet, this`ops, this`queue, this`panicked
      ensures View() == HandleShutdown(old(View()), th, o)
    {
      if th !in socketHandles {
        InstallPlan(o, [SendReply(Err(Other)), DropSender]);
        return;
      }
      if th.Udp? || !(th.handle in socketSet && socketSet[th.handle].p.TcpSocket?) {
        panicked := true;
        return;
      }
      RegisterSendWaker(th.handle, Shutdown(th, o));
      CloseTcpSocket(th.handle);
    }

    method HandleCloseEvent(th: TypedHandle, inc: nat)
      modifies this`socketSet, this`ops, this`queue, this`socketHandles, this`acceptedUdpSockets, this`panicked
      ensures View() == HandleClose(old(View()), th, inc)
    {
      var h := th.handle;
      if th !in socketHandles {
        return;
      }
      if h !in socketSet || socketSet[h].Typed(h) != th {
        panicked := true;
        return;
      }
      match th {
        case Tcp(_) =>
          CloseTcpSocket(h);
          if !S.IsActive(socketSet[h].p.state) {
            RemoveTcpSocket(h);
            return;
          }
          RegisterRecvWaker(h, Close(Tcp(h), inc));
        case Udp(_) =>
          var addr := socketSet[h].p.endpoint;
          if addr.None? {
            panicked := true;
            return;
          }
          CloseUdpSocket(h);
          RemoveUdpSocket(h, addr.value);
      }
    }

    /** The buffer is filled and the operation let go of. */
    method AnswerWith(h: Handle, o: OpId, p: S.Proto, buf: seq<Byte>, init: nat, plan: seq<Act>)
      requires h in socketSet && o in ops
      modifies this`socketSet, this`ops
      ensures View() == CompleteOp(old(View()), h, o, p, buf, init, plan)
    {
      socketSet := socketSet[h := socketSet[h].(p := p)];
      ops := ops[o := Finish(ops[o].(buf := buf, init := init), plan)];
    }

    method HandleWrite(h: Handle, o: OpId)
      modifies this`socketSet, this`ops, this`panicked
      ensures View() == HandleTcp(old(View()), Write(h, o))
    {
      if Tcp(h) !in socketHandles {
        InstallPlan(o, [DropBuffer, SendReply(Err(NotFound)), DropSender]);
        return;
      }
      if !(h in socketSet && socketSet[h].p.TcpSocket?) || o !in ops {
        panicked := true;
        return;
      }
      var p, op := socketSet[h].p, ops[o];
      if !S.CanSendTcp(p) {
        if !S.MaySend(p.state) {
          AnswerWith(h, o, p, op.buf, op.init, [DropBuffer, SendReply(Err(BrokenPipe)), DropSender]);
        } else {
          RegisterSendWaker(h, Write(h, o));
        }
        return;
      }
      var done :=
        match S.SendSlice(p, |op.buf|)
        case SendInvalidState => Complete(p, op.buf, op.init, [DropBuffer, SendReply(Err(Other)), DropSender])
        case Accepted(n) => Complete(p.(tx := p.tx + op.buf[..n]), op.buf, op.init, [DropBuffer, SendReply(Ok(n)), DropSender]);
      AnswerWith(h, o, done.proto, done.buf, done.init, done.plan);
    }

    method HandleRead(h: Handle, o: OpId)
      modifies this`socketSet, this`ops, this`panicked
      ensures View() == HandleTcp(old(View()), Read(h, o))
    {
      if Tcp(h) !in socketHandles {
        InstallPlan(o, [DropBuffer, SendReply(Err(NotFound)), DropSender]);
        return;
      }
      if !(h in socketSet && socketSet[h].p.TcpSocket?) || o !in ops {
        panicked := true;
        return;
      }
      var p, op := socketSet[h].p, ops[o];
      if |p.rx| == 0 {
        if !S.MayRecv(p) {
          AnswerWith(h, o, p, op.buf, op.init, [DropBuffer, SendReply(Ok(0)), DropSender]);
        } else {
          RegisterRecvWaker(h, Read(h, o));
        }
        return;
      }
      var eof := [DropBuffer, SendReply(Ok(0)), DropSender];
      var done :=
        match S.RecvSlice(p, |op.buf|)
        case Finished => Complete(p, op.buf, op.init, eof)
        case InvalidState => Complete(p, op.buf, op.init, [DropBuffer, SendReply(Err(Other)), DropSender])
        case Received(n) => Complete(p.(rx := p.rx[n..]), p.rx[..n] + op.buf[n..], n, [DropBuffer, SendReply(Ok(n)), DropSender]);
      AnswerWith(h, o, done.proto, done.buf, done.init, done.plan);
    }

    method HandleTcpWakeEvent(e: Event)
      modifies this`socketSet, this`ops, this`panicked
      ensures View() == HandleTcp(old(View()), e)
    {
      match e {
        case Write(h, o) => HandleWrite(h, o);
        case Read(h, o) => HandleRead(h, o);
        case _ => panicked := true;
      }
    }

    method HandleSend(h: Handle, to: Addr, o: OpId)
      modifies this`socketSet, this`ops, this`panicked
      ensures View() == HandleUdp(old(View()), Send(h, to, o))
    {
      if Udp(h) !in socketHandles {
        InstallPlan(o, [DropBuffer, SendReply(Err(NotFound)), DropSender]);
        return;
      }
      if !(h in socketSet && socketSet[h].p.UdpSocket?) || o !in ops {
        panicked := true;
        return;
      }
      var p, op := socketSet[h].p, ops[o];
      if |p.outbox| >= S.UDP_PACKETS {
        RegisterSendWaker(h, Send(h, to, o));
      } else if op.refused {
        AnswerWith(h, o, p, op.buf, op.init, [DropBuffer, SendReply(Err(Other)), DropSender]);
      } else {
        AnswerWith(h, o, p.(outbox := p.outbox + [S.Datagram(to, op.buf)]), op.buf, op.init, [DropBuffer, SendReply(Ok(|op.buf|)), DropSender]);
      }
    }

    method HandleRecv(h: Handle, o: OpId)
      modifies this`socketSet, this`ops, this`panicked
      ensures View() == HandleUdp(old(View()), Recv(h, o))
    {
      if Udp(h) !in socketHandles {
        InstallPlan(o, [DropBuffer, SendReply(Err(NotFound)), DropSender]);
        return;
      }
      if !(h in socketSet && socketSet[h].p.UdpSocket?) || o !in ops {
        panicked := true;
        return;
      }
      var p, op := socketSet[h].p, ops[o];
      if |p.inbox| == 0 {
        RegisterRecvWaker(h, Recv(h, o));
      } else if op.refused {
        AnswerWith(h, o, p.(inbox := p.inbox[1..]), op.buf, op.init, [DropBuffer, SendReply(Err(Other)), DropSender]);
      } else {
        var d := p.inbox[0];
        var n := S.Min(|d.data|, |op.buf|);
        AnswerWith(h, o, p.(inbox := p.inbox[1..]), d.data[..n] + op.buf[n..], n, [DropBuffer, SendReply(OkFrom(n, d.addr)), DropSender]);
      }
    }

    method HandleUdpWakeEvent(e: Event)
      modifies this`socketSet, this`ops, this`panicked
      ensures View() == HandleUdp(old(View()), e)
    {
      match e {
        case Send(h, to, o) => HandleSend(h, to, o);
        case Recv(h, o) => HandleRecv(h, o);
        case _ => panicked := true;
      }
    }

    // ---- the event loop ----

    method HandleControlEvent(e: Event)
      modifies this
      ensures View() == HandleControl(old(View()), e)
    {
      match e {
        case Ready(th, inc) => HandleReadyWakeEvent(th, inc);
        case Shutdown(th, o) => HandleShutdownEvent(th, o);
        case Close(th, inc) => HandleCloseEvent(th, inc);
        case _ => panicked := true;
      }
    }

    /** Walks over the batch: control events are handled on the spot, data events are set aside. */
    method SplitBatch(events: seq<Event>) returns (tcpEvents: seq<Event>, udpEvents: seq<Event>)
      modifies this
      ensures View() == DispatchAll(old(View()), Controls(events))
      ensures tcpEvents == TcpData(events) && udpEvents == UdpData(events)
    {
      tcpEvents, udpEvents := [], [];
      var i := 0;
      assert events[..0] == [] && DispatchAll(View(), Controls([])) == View();
      while i < |events|
        invariant 0 <= i <= |events|
        invariant View() == DispatchAll(old(View()), Controls(events[..i]))
        invariant tcpEvents == TcpData(events[..i]) && udpEvents == UdpData(events[..i])
      {
        var e := events[i];
        assert events[..i + 1] == events[..i] + [e];
        SplitPush(events[..i], e);
        if e.IsTcpData() {
          tcpEvents := tcpEvents + [e];
        } else if e.IsUdpData() {
          udpEvents := udpEvents + [e];
        } else {
          DispatchAllPush(old(View()), Controls(events[..i]), e);
          HandleControlEvent(e);
        }
        i := i + 1;
      }
      assert events[..i] == events;
    }

    method HandleTcpWakeEvents(events: seq<Event>)
      requires forall k :: 0 <= k < |events| ==> events[k].IsTcpData()
      modifies this
      ensures View() == DispatchAll(old(View()), events)
    {
      var i := 0;
      assert events[..0] == [];
      while i < |events|
        invariant 0 <= i <= |events|
        invariant View() == DispatchAll(old(View()), events[..i])
      {
        assert events[..i + 1] == events[..i] + [events[i]];
        DispatchAllPush(old(View()), events[..i], events[i]);
        HandleTcpWakeEvent(events[i]);
        i := i + 1;
      }
      assert events[..i] == events;
    }

    method HandleUdpWakeEvents(events: seq<Event>)
      requires forall k :: 0 <= k < |events| ==> events[k].IsUdpData()
      modifies this
      ensures View() == DispatchAll(old(View()), events)
    {
      var i := 0;
      assert events[..0] == [];
      while i < |events|
        invariant 0 <= i <= |events|
        invariant View() == DispatchAll(old(View()), events[..i])
      {
        assert events[..i + 1] == events[..i] + [events[i]];
        DispatchAllPush(old(View()), events[..i], events[i]);
        HandleUdpWakeEvent(events[i]);
        i := i + 1;
      }
      assert events[..i] == events;
    }

    /** One effect of `poll` on one socket. */
    method PollSocket(h: Handle, f: S.Effect)
      requires h in socketSet && S.Possible(socketSet[h].p, f)
      modifies this`socketSet, this`ops, this`queue
      ensures View() == Poll(old(View()), h, f)
    {
      socketSet := socketSet[h := socketSet[h].(p := S.Affected(socketSet[h].p, f))];
      if S.WakesRecv(f) {
        WakeRecv(h);
      }
      if S.WakesSend(f) {
        WakeSend(h);
      }
    }

    method PollInterface(effects: seq<(Handle, S.Effect)>)
      requires Pollable(View(), effects)
      modifies this`socketSet, this`ops, this`queue
      ensures View() == PollAll(old(View()), effects)
    {
      var i := 0;
      while i < |effects|
        invariant 0 <= i <= |effects|
        invariant Pollable(View(), effects[i..])
        invariant PollAll(View(), effects[i..]) == PollAll(old(View()), effects)
      {
        assert effects[i..][1..] == effects[i + 1..];
        PollSocket(effects[i].0, effects[i].1);
        i := i + 1;
      }
    }

    /**
     `drive_once`: look at the packet, poll the interface, handle a batch. `false` is an early error
     return, after which the run is over.
     */
    method DriveOnce(packet: Packet, effects: seq<(Handle, S.Effect)>, events: seq<Event>) returns (ok: bool)
      requires !packet.OtherPacket? ==> packet.handle !in socketSet
      requires Pollable(Admitted(View(), packet).0, effects)
      modifies this
      ensures ok == Admitted(old(View()), packet).1
      ensures ok <==> || packet.OtherPacket?
                      || (packet.Datagram? && packet.dst in old(acceptedUdpSockets))
                      || (packet.dst.port != 0 && (packet.Datagram? ==> old(queueOpen)))
      ensures !ok ==> View() == Admitted(old(View()), packet).0
      ensures ok ==> View() == DispatchAll(PollAll(Admitted(old(View()), packet).0, effects), Phased(events))
    {
      ok := true;
      match packet {
        case OtherPacket =>
        case Syn(dst, h) => ok := InitTcpSocket(dst, h);
        case Datagram(dst, h) => ok := TryInitUdpSocket(dst, h);
      }
      if !ok {
        return;
      }
      PollInterface(effects);
      ghost var polled := View();
      var tcpEvents, udpEvents := SplitBatch(events);
      SplitKinds(events);
      if tcpEvents != [] {
        HandleTcpWakeEvents(tcpEvents);
      }
      DispatchAllConcat(polled, Controls(events), TcpData(events));
      assert View() == DispatchAll(polled, Controls(events) + TcpData(events));
      if udpEvents != [] {
        HandleUdpWakeEvents(udpEvents);
      }
      DispatchAllConcat(polled, Controls(events) + TcpData(events), UdpData(events));
    }
  }

  // ---- facts about batches ----

  lemma {:induction false} DispatchAllConcat(st: State, a: seq<Event>, b: seq<Event>)
    ensures DispatchAll(st, a + b) == DispatchAll(DispatchAll(st, a), b)
    decreases a
  {
    hide Dispatch;
    if a == [] {
      assert a + b == b;
    } else {
      DispatchAllConcat(Dispatch(st, a[0]), a[1..], b);
      assert (a + b)[1..] == a[1..] + b;
    }
  }

  lemma DispatchAllPush(st: State, es: seq<Event>, e: Event)
    ensures DispatchAll(st, es + [e]) == Dispatch(DispatchAll(st, es), e)
  {
    hide Dispatch;
    DispatchAllConcat(st, es, [e]);
    assert [e][1..] == [];
    assert DispatchAll(DispatchAll(st, es), [e]) == DispatchAll(Dispatch(DispatchAll(st, es), e), []);
  }

  lemma {:induction false} SplitKinds(es: seq<Event>)
    ensures forall k :: 0 <= k < |TcpData(es)| ==> TcpData(es)[k].IsTcpData()
    ensures forall k :: 0 <= k < |UdpData(es)| ==> UdpData(es)[k].IsUdpData()
  {
    if es != [] {
      SplitKinds(es[1..]);
    }
  }
}
