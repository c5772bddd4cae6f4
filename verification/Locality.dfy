/**
 Handling an event commutes with restricting the stack to one handle: an event of the handle does to
 the restriction what it does to the stack, and an event of any other handle does nothing to it.
 */
module Locality {
  import opened Event
  import opened Operation
  import opened Stack
  import opened Invariant
  import opened Handlers
  import opened Parked
  import opened Reorder
  import opened World
  import opened Steps
  import S = Smoltcp

  function InfosOf(infos: seq<Info>, h: Handle): seq<Info> {
    if infos == [] then []
    else if infos[0].handle == h then [infos[0]] + InfosOf(infos[1..], h)
    else InfosOf(infos[1..], h)
  }

  lemma {:induction false} InfosOfPush(infos: seq<Info>, i: Info, h: Handle)
    ensures InfosOf(infos + [i], h) == if i.handle == h then InfosOf(infos, h) + [i] else InfosOf(infos, h)
  {
    if infos == [] {
      assert infos + [i] == [i] && [i][1..] == [];
    } else {
      InfosOfPush(infos[1..], i, h);
      assert (infos + [i])[1..] == infos[1..] + [i];
    }
  }

  function OpsOf(ops: map<OpId, Op>, th: TypedHandle): map<OpId, Op> {
    map o | o in ops && ops[o].target == th :: ops[o]
  }

  function SocketsOf(sockets: map<Handle, S.Socket>, th: TypedHandle): map<Handle, S.Socket> {
    if th.handle in sockets && sockets[th.handle].Typed(th.handle) == th then map[th.handle := sockets[th.handle]] else map[]
  }

  /**
   What belongs to one handle: its socket with both slots, its registration, its operations with
   their buffers and answers, its queued events in order, and its infos. The set of accepted UDP
   endpoints is not part of it; it is determined by the sockets (`EndpointsMirror`).
   */
  function Restrict(st: State, th: TypedHandle): State {
    st.(sockets := SocketsOf(st.sockets, th),
        registered := if th in st.registered then {th} else {},
        accepted := {},
        queue := OnlyOf(st.queue, th),
        tcpInfos := if th.Tcp? then InfosOf(st.tcpInfos, th.handle) else [],
        udpInfos := if th.Udp? then InfosOf(st.udpInfos, th.handle) else [],
        ops := OpsOf(st.ops, th),
        panicked := false)
  }

  /** The event is a token, or the operation it names was issued on the socket it names. */
  predicate Fits(ops: map<OpId, Op>, e: Event) {
    e.IsToken() || (e.op in ops && ops[e.op].target == e.Target())
  }

  predicate SlotFits(ops: map<OpId, Op>, slot: Option<Event>, t: TypedHandle) {
    slot.Some? ==> slot.value.Target() == t && Fits(ops, slot.value)
  }

  predicate SlotsFit(st: State, h: Handle) {
    h in st.sockets ==>
      && SlotFits(st.ops, st.sockets[h].recvSlot, st.sockets[h].Typed(h))
      && SlotFits(st.ops, st.sockets[h].sendSlot, st.sockets[h].Typed(h))
  }

  /** Same operations on the same targets. */
  predicate SameTargets(ops: map<OpId, Op>, ops1: map<OpId, Op>) {
    ops1.Keys == ops.Keys && forall o :: o in ops ==> ops1[o].target == ops[o].target
  }

  lemma FinishOf(ops: map<OpId, Op>, o: OpId, plan: seq<Act>, th: TypedHandle)
    requires o in ops
    ensures SameTargets(ops, FinishOp(ops, o, plan))
    ensures OpsOf(FinishOp(ops, o, plan), th) == if ops[o].target == th then FinishOp(OpsOf(ops, th), o, plan) else OpsOf(ops, th)
  {
  }

  lemma PushOf(st: State, e: Event, th: TypedHandle)
    ensures Restrict(st.(queue := st.queue + [e]), th)
            == if e.Target() == th then Restrict(st, th).(queue := Restrict(st, th).queue + [e]) else Restrict(st, th)
  {
    OnlyOfPush(st.queue, e, th);
  }

  lemma LetGoOf(st: State, o: OpId, plan: seq<Act>, th: TypedHandle)
    requires o in st.ops
    ensures SameTargets(st.ops, FinishOp(st.ops, o, plan))
    ensures Restrict(st.(ops := FinishOp(st.ops, o, plan)), th)
            == if st.ops[o].target == th then Restrict(st, th).(ops := FinishOp(Restrict(st, th).ops, o, plan)) else Restrict(st, th)
  {
    FinishOf(st.ops, o, plan, th);
  }

  lemma SameTargetsRefl(ops: map<OpId, Op>)
    ensures SameTargets(ops, ops)
  {
  }

  lemma FireOf(st: State, e: Event, th: TypedHandle)
    requires Fits(st.ops, e)
    ensures SameTargets(st.ops, Fire(st, e).ops)
    ensures Restrict(Fire(st, e), th) == if e.Target() == th then Fire(Restrict(st, th), e) else Restrict(st, th)
  {
    RestrictFlags(st, th);
    SameTargetsRefl(st.ops);
    PushOf(st, e, th);
    if !e.IsToken() {
      LetGoOf(st, e.op, [SendReply(OkUnit), DropSender], th);
      LetGoOf(st, e.op, [DropBuffer, SendReply(Err(BrokenPipe)), DropSender], th);
    }
    hide Restrict, FinishOp, SameTargets;
  }

  lemma RestrictFlags(st: State, th: TypedHandle)
    ensures Restrict(st, th).queueOpen == st.queueOpen && Restrict(st, th).tcpAcceptor == st.tcpAcceptor
    ensures Restrict(st, th).udpAcceptor == st.udpAcceptor
  {
  }

  lemma DiscardSlotOf(st: State, slot: Option<Event>, t: TypedHandle, th: TypedHandle)
    requires SlotFits(st.ops, slot, t)
    ensures SameTargets(st.ops, DiscardSlot(st, slot).ops)
    ensures Restrict(DiscardSlot(st, slot), th) == if t == th then DiscardSlot(Restrict(st, th), slot) else Restrict(st, th)
  {
    SameTargetsRefl(st.ops);
    if slot.Some? && !slot.value.IsToken() {
      LetGoOf(st, slot.value.op, DropPlan(slot.value.Shutdown?), th);
    }
    hide Restrict, FinishOp, SameTargets;
  }

  lemma SetOf(st: State, h: Handle, s: S.Socket, th: TypedHandle)
    requires h in st.sockets && s.Typed(h) == st.sockets[h].Typed(h)
    ensures Restrict(SetSocket(st, h, s), th) == if s.Typed(h) == th then SetSocket(Restrict(st, th), h, s) else Restrict(st, th)
  {
  }

  lemma FireRecvOf(st: State, h: Handle, th: TypedHandle)
    requires h in st.sockets && SlotsFit(st, h)
    ensures SlotsFit(FireRecv(st, h), h) && SameTargets(st.ops, FireRecv(st, h).ops)
    ensures st.sockets[h].Typed(h) == th ==> h in Restrict(st, th).sockets
    ensures Restrict(FireRecv(st, h), th) == if st.sockets[h].Typed(h) == th then FireRecv(Restrict(st, th), h) else Restrict(st, th)
  {
    hide Fire, Restrict;
    var s := st.sockets[h];
    SetOf(st, h, s.(recvSlot := None), th);
    RestrictSocket(st, h, th);
    if s.recvSlot.Some? {
      FireOf(SetSocket(st, h, s.(recvSlot := None)), s.recvSlot.value, th);
    }
  }

  lemma FireSendOf(st: State, h: Handle, th: TypedHandle)
    requires h in st.sockets && SlotsFit(st, h)
    ensures SlotsFit(FireSend(st, h), h) && SameTargets(st.ops, FireSend(st, h).ops)
    ensures st.sockets[h].Typed(h) == th ==> h in Restrict(st, th).sockets
    ensures Restrict(FireSend(st, h), th) == if st.sockets[h].Typed(h) == th then FireSend(Restrict(st, th), h) else Restrict(st, th)
  {
    hide Fire, Restrict;
    var s := st.sockets[h];
    SetOf(st, h, s.(sendSlot := None), th);
    RestrictSocket(st, h, th);
    if s.sendSlot.Some? {
      FireOf(SetSocket(st, h, s.(sendSlot := None)), s.sendSlot.value, th);
    }
  }

  /** The restriction keeps the socket of the handle. */
  lemma RestrictSocket(st: State, h: Handle, th: TypedHandle)
    requires h in st.sockets
    ensures st.sockets[h].Typed(h) == th ==> h in Restrict(st, th).sockets && Restrict(st, th).sockets[h] == st.sockets[h]
  {
  }

  lemma SameTargetsTrans(a: map<OpId, Op>, b: map<OpId, Op>, c: map<OpId, Op>)
    requires SameTargets(a, b) && SameTargets(b, c)
    ensures SameTargets(a, c)
  {
  }

  lemma FireBothOf(st: State, h: Handle, th: TypedHandle)
    requires h in st.sockets && SlotsFit(st, h)
    ensures SlotsFit(FireSend(FireRecv(st, h), h), h) && SameTargets(st.ops, FireSend(FireRecv(st, h), h).ops)
    ensures st.sockets[h].Typed(h) == th ==> h in Restrict(st, th).sockets
    ensures Restrict(FireSend(FireRecv(st, h), h), th)
            == if st.sockets[h].Typed(h) == th then FireSend(FireRecv(Restrict(st, th), h), h) else Restrict(st, th)
  {
    hide FireRecv, FireSend, Restrict, SameTargets, SlotsFit;
    FireRecvOf(st, h, th);
    FireSendOf(FireRecv(st, h), h, th);
    SameTargetsTrans(st.ops, FireRecv(st, h).ops, FireSend(FireRecv(st, h), h).ops);
  }

  lemma RegisterRecvOf(st: State, h: Handle, e: Event, th: TypedHandle)
    requires h in st.sockets && SlotsFit(st, h) && SlotFits(st.ops, Some(e), st.sockets[h].Typed(h))
    ensures SlotsFit(RegisterRecv(st, h, e), h)
    ensures st.sockets[h].Typed(h) == th ==> h in Restrict(st, th).sockets
    ensures Restrict(RegisterRecv(st, h, e), th)
            == if st.sockets[h].Typed(h) == th then RegisterRecv(Restrict(st, th), h, e) else Restrict(st, th)
  {
    hide DiscardSlot, Restrict;
    var s := st.sockets[h];
    SetOf(st, h, s.(recvSlot := Some(e)), th);
    RestrictSocket(st, h, th);
    DiscardSlotOf(SetSocket(st, h, s.(recvSlot := Some(e))), s.recvSlot, s.Typed(h), th);
  }

  lemma RegisterSendOf(st: State, h: Handle, e: Event, th: TypedHandle)
    requires h in st.sockets && SlotsFit(st, h) && SlotFits(st.ops, Some(e), st.sockets[h].Typed(h))
    ensures SlotsFit(RegisterSend(st, h, e), h)
    ensures st.sockets[h].Typed(h) == th ==> h in Restrict(st, th).sockets
    ensures Restrict(RegisterSend(st, h, e), th)
            == if st.sockets[h].Typed(h) == th then RegisterSend(Restrict(st, th), h, e) else Restrict(st, th)
  {
    hide DiscardSlot, Restrict;
    var s := st.sockets[h];
    SetOf(st, h, s.(sendSlot := Some(e)), th);
    RestrictSocket(st, h, th);
    DiscardSlotOf(SetSocket(st, h, s.(sendSlot := Some(e))), s.sendSlot, s.Typed(h), th);
  }

  lemma DropBothOf(st: State, h: Handle, th: TypedHandle)
    requires h in st.sockets && SlotsFit(st, h)
    ensures st.sockets[h].Typed(h) == th ==> h in Restrict(st, th).sockets
    ensures Restrict(DropSend(DropRecv(st, h), h), th)
            == if st.sockets[h].Typed(h) == th then DropSend(DropRecv(Restrict(st, th), h), h) else Restrict(st, th)
  {
    hide DiscardSlot, Restrict;
    var s := st.sockets[h];
    SetOf(st, h, s.(recvSlot := None), th);
    RestrictSocket(st, h, th);
    DiscardSlotOf(SetSocket(st, h, s.(recvSlot := None)), s.recvSlot, s.Typed(h), th);
    var st1 := DropRecv(st, h);
    var s1 := st1.sockets[h];
    RestrictSocket(st1, h, th);
    SetOf(st1, h, s1.(sendSlot := None), th);
    DiscardSlotOf(SetSocket(st1, h, s1.(sendSlot := None)), s1.sendSlot, s1.Typed(h), th);
  }

  lemma CloseTcpOf(st: State, h: Handle, th: TypedHandle)
    requires HasTcp(st, h) && SlotsFit(st, h)
    ensures SlotsFit(CloseTcp(st, h), h) && SameTargets(st.ops, CloseTcp(st, h).ops)
    ensures Tcp(h) == th ==> HasTcp(Restrict(st, th), h) && Restrict(st, th).sockets[h] == st.sockets[h]
    ensures Restrict(CloseTcp(st, h), th) == if Tcp(h) == th then CloseTcp(Restrict(st, th), h) else Restrict(st, th)
  {
    hide FireRecv, FireSend, Restrict;
    var s := st.sockets[h];
    var s1 := s.(p := s.p.(state := S.CloseState(s.p.state)));
    RestrictSocket(st, h, th);
    SetOf(st, h, s1, th);
    SameTargetsRefl(st.ops);
    FireBothOf(SetSocket(st, h, s1), h, th);
  }

  /** The socket leaves the tables. */
  function Erased(st: State, h: Handle, t: TypedHandle, accepted: set<Addr>): State {
    st.(sockets := st.sockets - {h}, registered := st.registered - {t}, accepted := accepted)
  }

  lemma EraseOf(st: State, h: Handle, accepted: set<Addr>, th: TypedHandle)
    requires h in st.sockets
    ensures
      var t := st.sockets[h].Typed(h);
      Restrict(Erased(st, h, t, accepted), th) == if t == th then Erased(Restrict(st, th), h, t, {}) else Restrict(st, th)
  {
  }

  lemma CloseStreamOf(st: State, h: Handle, inc: nat, th: TypedHandle)
    requires HasTcp(st, h) && SlotsFit(st, h)
    ensures Tcp(h) == th ==> HasTcp(Restrict(st, th), h)
    ensures Restrict(CloseStream(st, h, inc), th) == if Tcp(h) == th then CloseStream(Restrict(st, th), h, inc) else Restrict(st, th)
  {
    hide CloseTcp, RegisterRecv, DropRecv, DropSend, Restrict, SameTargets;
    CloseTcpOf(st, h, th);
    var st1 := CloseTcp(st, h);
    RestrictSocket(st1, h, th);
    if S.IsActive(st1.sockets[h].p.state) {
      RegisterRecvOf(st1, h, Close(Tcp(h), inc), th);
    } else {
      DropBothOf(st1, h, th);
      var st2 := DropSend(DropRecv(st1, h), h);
      EraseOf(st2, h, st2.accepted, th);
      RestrictAccepted(st1, th);
    }
  }

  lemma RestrictAccepted(st: State, th: TypedHandle)
    ensures Restrict(st, th).accepted == {}
  {
  }

  lemma CloseUdpOf(st: State, h: Handle, th: TypedHandle)
    requires HasUdp(st, h) && SlotsFit(st, h)
    ensures SlotsFit(CloseUdp(st, h), h)
    ensures Udp(h) == th ==> HasUdp(Restrict(st, th), h)
    ensures Restrict(CloseUdp(st, h), th) == if Udp(h) == th then CloseUdp(Restrict(st, th), h) else Restrict(st, th)
  {
    hide FireRecv, FireSend, Restrict, SameTargets;
    RestrictSocket(st, h, th);
    FireBothOf(st, h, th);
    var st1 := FireSend(FireRecv(st, h), h);
    RestrictSocket(st1, h, th);
    SetOf(st1, h, st1.sockets[h].(p := S.UdpSocket(None, [], [])), th);
  }

  lemma CloseDatagramOf(st: State, h: Handle, th: TypedHandle)
    requires HasUdp(st, h) && SlotsFit(st, h) && st.sockets[h].p.endpoint.Some?
    ensures Udp(h) == th ==> HasUdp(Restrict(st, th), h)
    ensures Restrict(CloseDatagram(st, h), th) == if Udp(h) == th then CloseDatagram(Restrict(st, th), h) else Restrict(st, th)
  {
    hide CloseUdp, DropRecv, DropSend, Restrict;
    var dst := st.sockets[h].p.endpoint.value;
    RestrictSocket(st, h, th);
    CloseUdpOf(st, h, th);
    var st1 := CloseUdp(st, h);
    DropBothOf(st1, h, th);
    var st2 := DropSend(DropRecv(st1, h), h);
    EraseOf(st2, h, st2.accepted - {dst}, th);
    RestrictAccepted(st, th);
  }

  /** What the invariant says about an event that is about to be handled. */
  predicate Good(st: State, e: Event) {
    var t := e.Target();
    var h := t.handle;
    && Fits(st.ops, e) && SlotsFit(st, h)
    && (t in st.registered <==> h in st.sockets && st.sockets[h].Typed(h) == t)
    && (e.IsToken() ==> t in st.registered)
    && (e.Shutdown? ==> t.Tcp?)
    && (HasTcp(st, h) && S.MayRecv(st.sockets[h].p) ==> st.sockets[h].p.peer.Some?)
    && (HasUdp(st, h) ==> st.sockets[h].p.endpoint.Some?)
  }

  lemma RestrictMembers(st: State, t: TypedHandle, th: TypedHandle)
    ensures t == th ==> (t in Restrict(st, th).registered <==> t in st.registered)
    ensures Restrict(st, th).tcpInfos == if th.Tcp? then InfosOf(st.tcpInfos, th.handle) else []
    ensures Restrict(st, th).udpInfos == if th.Udp? then InfosOf(st.udpInfos, th.handle) else []
  {
  }

  lemma TcpInfoOf(st: State, i: Info, th: TypedHandle)
    ensures Restrict(st.(tcpInfos := st.tcpInfos + [i]), th)
            == if Tcp(i.handle) == th then Restrict(st, th).(tcpInfos := Restrict(st, th).tcpInfos + [i]) else Restrict(st, th)
  {
    InfosOfPush(st.tcpInfos, i, th.handle);
  }

  lemma UdpInfoOf(st: State, i: Info, th: TypedHandle)
    ensures Restrict(st.(udpInfos := st.udpInfos + [i]), th)
            == if Udp(i.handle) == th then Restrict(st, th).(udpInfos := Restrict(st, th).udpInfos + [i]) else Restrict(st, th)
  {
    InfosOfPush(st.udpInfos, i, th.handle);
  }

  lemma ReadyOf(st: State, t: TypedHandle, inc: nat, th: TypedHandle)
    requires Good(st, Ready(t, inc))
    ensures Restrict(HandleReady(st, t, inc), th) == if t == th then HandleReady(Restrict(st, th), t, inc) else Restrict(st, th)
  {
    hide RegisterRecv, Restrict;
    var h := t.handle;
    var p := st.sockets[h].p;
    RestrictSocket(st, h, th);
    RestrictFlags(st, th);
    RegisterRecvOf(st, h, Ready(t, inc), th);
    if t.Tcp? {
      TcpInfoOf(st, Info(h, inc, p.peer, p.local), th);
    } else {
      UdpInfoOf(st, Info(h, inc, None, p.endpoint.value), th);
    }
  }

  lemma ShutdownOf(st: State, t: TypedHandle, o: OpId, th: TypedHandle)
    requires Good(st, Shutdown(t, o))
    ensures Restrict(HandleShutdown(st, t, o), th) == if t == th then HandleShutdown(Restrict(st, th), t, o) else Restrict(st, th)
  {
    hide RegisterSend, CloseTcp, Restrict;
    var h := t.handle;
    RestrictMembers(st, t, th);
    if t in st.registered {
      RestrictSocket(st, h, th);
      RegisterSendOf(st, h, Shutdown(t, o), th);
      CloseTcpOf(RegisterSend(st, h, Shutdown(t, o)), h, th);
    } else {
      LetGoOf(st, o, [SendReply(Err(Other)), DropSender], th);
    }
  }

  lemma CloseOf(st: State, t: TypedHandle, inc: nat, th: TypedHandle)
    requires Good(st, Close(t, inc))
    ensures Restrict(HandleClose(st, t, inc), th) == if t == th then HandleClose(Restrict(st, th), t, inc) else Restrict(st, th)
  {
    hide CloseStream, CloseDatagram, Restrict;
    RestrictMembers(st, t, th);
    if t.Tcp? {
      CloseStreamOf(st, t.handle, inc, th);
    } else {
      CloseDatagramOf(st, t.handle, th);
    }
  }

  lemma SetOpOf(st: State, o: OpId, op: Op, th: TypedHandle)
    requires o in st.ops && op.target == st.ops[o].target
    ensures op.target == th ==> o in Restrict(st, th).ops && Restrict(st, th).ops[o] == st.ops[o]
    ensures Restrict(st.(ops := st.ops[o := op]), th)
            == if op.target == th then Restrict(st, th).(ops := Restrict(st, th).ops[o := op]) else Restrict(st, th)
  {
    assert OpsOf(st.ops[o := op], th) == if op.target == th then OpsOf(st.ops, th)[o := op] else OpsOf(st.ops, th);
  }

  lemma CompleteOf(st: State, h: Handle, o: OpId, p: S.Proto, buf: seq<Byte>, init: nat, plan: seq<Act>, th: TypedHandle)
    requires h in st.sockets && o in st.ops && st.ops[o].target == st.sockets[h].Typed(h)
    requires p.TcpSocket? == st.sockets[h].p.TcpSocket?
    ensures st.sockets[h].Typed(h) == th ==> h in Restrict(st, th).sockets && o in Restrict(st, th).ops
    ensures Restrict(CompleteOp(st, h, o, p, buf, init, plan), th)
            == if st.sockets[h].Typed(h) == th then CompleteOp(Restrict(st, th), h, o, p, buf, init, plan) else Restrict(st, th)
  {
    hide Restrict;
    var s := st.sockets[h].(p := p);
    var op := Finish(st.ops[o].(buf := buf, init := init), plan);
    RestrictSocket(st, h, th);
    SetOf(st, h, s, th);
    SetOpOf(st, o, op, th);
    SetOpOf(SetSocket(st, h, s), o, op, th);
  }

  lemma TcpOf(st: State, e: Event, th: TypedHandle)
    requires Good(st, e) && e.IsTcpData()
    ensures Restrict(HandleTcp(st, e), th) == if e.Target() == th then HandleTcp(Restrict(st, th), e) else Restrict(st, th)
  {
    hide RegisterRecv, RegisterSend, Restrict, CompleteOp, ReadOutcome, WriteOutcome;
    var h, o := e.handle, e.op;
    RestrictMembers(st, Tcp(h), th);
    SetOpOf(st, o, st.ops[o], th);
    if Tcp(h) !in st.registered {
      LetGoOf(st, o, [DropBuffer, SendReply(Err(NotFound)), DropSender], th);
    } else {
      RestrictSocket(st, h, th);
      RegisterRecvOf(st, h, e, th);
      RegisterSendOf(st, h, e, th);
      var r := if e.Read? then ReadOutcome(st.sockets[h].p, st.ops[o].buf, st.ops[o].init)
               else WriteOutcome(st.sockets[h].p, st.ops[o].buf, st.ops[o].init);
      if r.Complete? {
        CompleteOf(st, h, o, r.proto, r.buf, r.init, r.plan, th);
      }
    }
  }

  lemma UdpOf(st: State, e: Event, th: TypedHandle)
    requires Good(st, e) && e.IsUdpData()
    ensures Restrict(HandleUdp(st, e), th) == if e.Target() == th then HandleUdp(Restrict(st, th), e) else Restrict(st, th)
  {
    hide RegisterRecv, RegisterSend, Restrict, CompleteOp, RecvOutcome, SendOutcome;
    var h, o := e.handle, e.op;
    RestrictMembers(st, Udp(h), th);
    SetOpOf(st, o, st.ops[o], th);
    if Udp(h) !in st.registered {
      LetGoOf(st, o, [DropBuffer, SendReply(Err(NotFound)), DropSender], th);
    } else {
      RestrictSocket(st, h, th);
      RegisterRecvOf(st, h, e, th);
      RegisterSendOf(st, h, e, th);
      var op := st.ops[o];
      var r := if e.Recv? then RecvOutcome(st.sockets[h].p, op.buf, op.init, op.refused)
               else SendOutcome(st.sockets[h].p, e.src, op.buf, op.init, op.refused);
      if r.Complete? {
        CompleteOf(st, h, o, r.proto, r.buf, r.init, r.plan, th);
      }
    }
  }

  /** One event, seen from one handle. */
  lemma DispatchOf(st: State, e: Event, th: TypedHandle)
    requires Good(st, e)
    ensures Restrict(Dispatch(st, e), th) == if e.Target() == th then Dispatch(Restrict(st, th), e) else Restrict(st, th)
  {
    hide Restrict, HandleReady, HandleShutdown, HandleClose, HandleTcp, HandleUdp, Good;
    match e
    case Ready(t, inc) => ReadyOf(st, t, inc, th);
    case Shutdown(t, o) => ShutdownOf(st, t, o, th);
    case Close(t, inc) => CloseOf(st, t, inc, th);
    case _ =>
      if e.IsTcpData() {
        TcpOf(st, e, th);
      } else {
        UdpOf(st, e, th);
      }
  }

  // ---- whole batches ----

  lemma SlotIsWell(st: State, h: Handle, e: Event, hands: seq<Event>, clients: Streams, whole: bool)
    requires Inv(st, hands, clients, whole) && h in st.sockets
    requires st.sockets[h].recvSlot == Some(e) || st.sockets[h].sendSlot == Some(e)
    ensures e.Target() == st.sockets[h].Typed(h) && Fits(st.ops, e)
  {
    assert Shape(h, st.sockets[h]);
    assert Total(st, hands, clients, ItemOf(e)) >= 1;
    if !e.IsToken() {
      assert OpOk(st.ops[e.op]);
    }
  }

  lemma GoodFromInv(st: State, e: Event, rest: seq<Event>, clients: Streams)
    requires Inv(st, [e] + rest, clients, false) && AllBlocked(st.sockets)
    ensures Good(st, e)
  {
    hide Inv, AllBlocked, Shape;
    var h := e.Target().handle;
    if e.IsToken() {
      TokenOfInv(st, e, rest, clients);
    } else {
      OpOfInv(st, e, rest, clients, false);
    }
    RegisteredIsPresent(st, e.Target(), [e] + rest, clients, false);
    if h in st.sockets {
      SocketOfInv(st, h, [e] + rest, clients, false);
      GetBlocked(st.sockets, h);
      if st.sockets[h].recvSlot.Some? {
        SlotIsWell(st, h, st.sockets[h].recvSlot.value, [e] + rest, clients, false);
      }
      if st.sockets[h].sendSlot.Some? {
        SlotIsWell(st, h, st.sockets[h].sendSlot.value, [e] + rest, clients, false);
      }
    }
  }

  lemma TokenOfInv(st: State, e: Event, rest: seq<Event>, clients: Streams)
    requires Inv(st, [e] + rest, clients, false) && e.IsToken()
    ensures Present(st.sockets, e.typed, e.inc)
  {
    HandIsWell(st, e, rest, clients);
  }

  /** A batch handled in any order, seen from one handle: only the events of the handle matter. */
  lemma {:induction false} BatchOf(st: State, es: seq<Event>, rest: seq<Event>, clients: Streams, th: TypedHandle)
    requires Inv(st, es + rest, clients, false) && AllBlocked(st.sockets)
    ensures Restrict(DispatchAll(st, es), th) == DispatchAll(Restrict(st, th), OnlyOf(es, th))
    ensures Inv(DispatchAll(st, es), rest, clients, false)
    decreases es
  {
    hide Inv, AllBlocked, Dispatch, Restrict, Good;
    if es == [] {
      assert es + rest == rest;
    } else {
      var e, more := es[0], es[1..];
      assert es + rest == [e] + (more + rest);
      GoodFromInv(st, e, more + rest, clients);
      DispatchOf(st, e, th);
      BlockedKnowsPeers(st.sockets);
      KeepDispatch(st, e, more + rest, clients, false);
      DispatchKeepsBlocked(st, e);
      BatchOf(Dispatch(st, e), more, rest, clients, th);
      var mine := OnlyOf(more, th);
      assert ([e] + mine)[1..] == mine;
    }
  }

  /** The batch `drive_once` takes, and the state in which it starts on it. */
  function Batch(w: World, n: nat): seq<Event>
    requires n <= |w.st.queue|
  {
    w.st.queue[..n]
  }

  function Before(w: World, n: nat): State
    requires n <= |w.st.queue|
  {
    w.st.(queue := w.st.queue[n..])
  }

  lemma BatchInHand(w: World, n: nat, d: Mode)
    requires WorldInv(w, d) && Enabled(w, TakeBatch(n))
    ensures Inv(Before(w, n), Phased(Batch(w, n)) + [], View(w, d), false)
    ensures Inv(Before(w, n), Batch(w, n) + [], View(w, d), false)
    ensures AllBlocked(Before(w, n).sockets)
  {
    hide Inv, Phased;
    var q := w.st.queue;
    var st := Before(w, n);
    assert q == q[..n] + q[n..];
    assert Phased(q[..n]) + [] == Phased(q[..n]) && q[..n] + [] == q[..n];
    Weaken(w.st, w.todo, View(w, d), d.tokens && Whole(w));
    forall x
      ensures Total(st, Phased(q[..n]), View(w, d), x) == Total(w.st, w.todo, View(w, d), x)
      ensures Total(st, q[..n], View(w, d), x) == Total(w.st, w.todo, View(w, d), x)
    {
      PhasedCount(q[..n], x);
      CountConcat(q[..n], q[n..], x);
    }
    KeepMoved(w.st, w.todo, st, Phased(q[..n]), View(w, d), false);
    KeepMoved(w.st, w.todo, st, q[..n], View(w, d), false);
  }

  lemma HarmlessFor(w: World, n: nat, th: TypedHandle, d: Mode)
    requires WorldInv(w, d) && Enabled(w, TakeBatch(n)) && NoControlAfterData(Batch(w, n), th)
    ensures Restrict(DispatchAll(Before(w, n), Phased(Batch(w, n))), th) == Restrict(DispatchAll(Before(w, n), Batch(w, n)), th)
  {
    hide Inv, AllBlocked, Phased, Restrict, DispatchAll;
    BatchInHand(w, n, d);
    PhasedKeepsOrder(Batch(w, n), th);
    BatchOf(Before(w, n), Phased(Batch(w, n)), [], View(w, d), th);
    BatchOf(Before(w, n), Batch(w, n), [], View(w, d), th);
  }

  /**
   Reordering is harmless for a handle: if no control event of the handle follows a data event of the
   handle in the batch, then its socket, slots, operations, queued events and infos are the same as
   if the batch had been handled in the order in which it was sent. This holds of every batch of
   every run.
   */
  lemma ReorderHarmless(ws: seq<World>, ls: seq<Label>, i: nat, n: nat, th: TypedHandle)
    requires Run(ws, ls, FREE) && i < |ws| && Enabled(ws[i], TakeBatch(n)) && NoControlAfterData(Batch(ws[i], n), th)
    ensures
      var st, es := Before(ws[i], n), Batch(ws[i], n);
      Restrict(DispatchAll(st, Phased(es)), th) == Restrict(DispatchAll(st, es), th)
  {
    hide WorldInv, Restrict, DispatchAll;
    RunKeeps(ws, ls, FREE, i);
    HarmlessFor(ws[i], n, th, FREE);
  }

  lemma SamePieces(a: State, b: State)
    requires forall th :: Restrict(a, th) == Restrict(b, th)
    ensures a.sockets == b.sockets && a.registered == b.registered && a.ops == b.ops
  {
    forall h
      ensures h in a.sockets <==> h in b.sockets
      ensures h in a.sockets ==> a.sockets[h] == b.sockets[h]
    {
      if h in a.sockets { SameSocket(a, b, h); }
      if h in b.sockets { SameSocket(b, a, h); }
    }
    forall th
      ensures th in a.registered <==> th in b.registered
    {
      assert Restrict(a, th).registered == Restrict(b, th).registered;
    }
    forall o
      ensures o in a.ops <==> o in b.ops
      ensures o in a.ops ==> a.ops[o] == b.ops[o]
    {
      if o in a.ops { SameOp(a, b, o); }
      if o in b.ops { SameOp(b, a, o); }
    }
  }

  lemma SameSocket(a: State, b: State, h: Handle)
    requires h in a.sockets && Restrict(a, a.sockets[h].Typed(h)) == Restrict(b, a.sockets[h].Typed(h))
    ensures h in b.sockets && b.sockets[h] == a.sockets[h]
  {
    var th := a.sockets[h].Typed(h);
    assert SocketsOf(a.sockets, th) == SocketsOf(b.sockets, th) && h in SocketsOf(a.sockets, th);
  }

  lemma SameOp(a: State, b: State, o: OpId)
    requires o in a.ops && Restrict(a, a.ops[o].target) == Restrict(b, a.ops[o].target)
    ensures o in b.ops && b.ops[o] == a.ops[o]
  {
    var th := a.ops[o].target;
    assert OpsOf(a.ops, th) == OpsOf(b.ops, th) && o in OpsOf(a.ops, th);
  }

  lemma SameAccepted(sockets: map<Handle, S.Socket>, a: set<Addr>, b: set<Addr>)
    requires EndpointsMirror(sockets, a) && EndpointsMirror(sockets, b)
    ensures a == b
  {
  }

  /**
   If that holds of every handle of the batch, the stack ends up the same altogether; only the
   interleaving of different handles in the channels may differ.
   */
  lemma ReorderHarmlessForAll(ws: seq<World>, ls: seq<Label>, i: nat, n: nat)
    requires Run(ws, ls, FREE) && i < |ws| && Enabled(ws[i], TakeBatch(n))
    requires forall th :: NoControlAfterData(Batch(ws[i], n), th)
    ensures
      var a := DispatchAll(Before(ws[i], n), Phased(Batch(ws[i], n)));
      var b := DispatchAll(Before(ws[i], n), Batch(ws[i], n));
      a.sockets == b.sockets && a.registered == b.registered && a.accepted == b.accepted && a.ops == b.ops
  {
    var w := ws[i];
    var a := DispatchAll(Before(w, n), Phased(Batch(w, n)));
    var b := DispatchAll(Before(w, n), Batch(w, n));
    RunKeeps(ws, ls, FREE, i);
    forall th
      ensures Restrict(a, th) == Restrict(b, th)
    {
      HarmlessFor(w, n, th, FREE);
    }
    SamePieces(a, b);
    BatchInHand(w, n, FREE);
    BatchOf(Before(w, n), Phased(Batch(w, n)), [], View(w, FREE), Tcp(0));
    BatchOf(Before(w, n), Batch(w, n), [], View(w, FREE), Tcp(0));
    SameAccepted(a.sockets, a.accepted, b.accepted);
  }
}
