/**
 Every handler keeps the invariant: the event it was given leaves the hand, and ends up parked,
 queued, delivered to an acceptor, answered, or retired together with its socket.
 */
module Handlers {
  import opened Event
  import opened Operation
  import opened Stack
  import opened Invariant
  import S = Smoltcp

  // ---- wakers ----

  lemma KeepDiscard(st: State, e: Event, rest: seq<Event>, clients: Streams, whole: bool)
    requires Inv(st, [e] + rest, clients, whole)
    requires whole ==> !e.IsToken()
    ensures Inv(Discard(st, e), rest, clients, whole)
  {
    if e.IsToken() {
      KeepLose(st, e, rest, clients);
    } else {
      KeepFinish(st, e, rest, clients, whole, DropPlan(e.Shutdown?));
    }
  }

  lemma KeepDiscardSlot(st: State, slot: Option<Event>, rest: seq<Event>, clients: Streams, whole: bool)
    requires Inv(st, Opt(slot) + rest, clients, whole)
    requires whole && slot.Some? ==> !slot.value.IsToken()
    ensures Inv(DiscardSlot(st, slot), rest, clients, whole)
  {
    if slot.Some? {
      KeepDiscard(st, slot.value, rest, clients, whole);
    } else {
      assert Opt(slot) + rest == rest;
    }
  }

  lemma KeepFire(st: State, e: Event, rest: seq<Event>, clients: Streams, whole: bool)
    requires Inv(st, [e] + rest, clients, whole)
    requires whole ==> st.queueOpen
    ensures Inv(Fire(st, e), rest, clients, whole)
  {
    if e.Shutdown? {
      KeepFinish(st, e, rest, clients, whole, [SendReply(OkUnit), DropSender]);
    } else if st.queueOpen {
      KeepPush(st, e, rest, clients, whole);
    } else if e.IsToken() {
      KeepLose(st, e, rest, clients);
    } else {
      KeepFinish(st, e, rest, clients, whole, [DropBuffer, SendReply(Err(BrokenPipe)), DropSender]);
    }
  }

  lemma KeepFireRecv(st: State, h: Handle, hands: seq<Event>, clients: Streams, whole: bool)
    requires Inv(st, hands, clients, whole)
    requires h in st.sockets && (whole ==> st.queueOpen)
    ensures Inv(FireRecv(st, h), hands, clients, whole)
  {
    var slot := st.sockets[h].recvSlot;
    assert Opt(None) + hands == hands;
    KeepSwapRecv(st, h, None, hands, clients, whole);
    if slot.Some? {
      KeepFire(SetSocket(st, h, st.sockets[h].(recvSlot := None)), slot.value, hands, clients, whole);
    } else {
      assert Opt(slot) + hands == hands;
    }
  }

  lemma KeepFireSend(st: State, h: Handle, hands: seq<Event>, clients: Streams, whole: bool)
    requires Inv(st, hands, clients, whole)
    requires h in st.sockets && (whole ==> st.queueOpen)
    ensures Inv(FireSend(st, h), hands, clients, whole)
  {
    var slot := st.sockets[h].sendSlot;
    assert Opt(None) + hands == hands;
    KeepSwapSend(st, h, None, hands, clients, whole);
    if slot.Some? {
      KeepFire(SetSocket(st, h, st.sockets[h].(sendSlot := None)), slot.value, hands, clients, whole);
    } else {
      assert Opt(slot) + hands == hands;
    }
  }

  predicate HoldsToken(slot: Option<Event>) { slot.Some? && slot.value.IsToken() }

  /** A token parked on a socket is the token of that socket. */
  ghost predicate TokenElsewhere(st: State, h: Handle, hands: seq<Event>, clients: Streams)
    requires h in st.sockets
  {
    Count(hands, TokenOf(st, h)) + AtClient(clients, TokenOf(st, h)) >= 1
  }

  lemma SlotsHoldNoToken(st: State, h: Handle, hands: seq<Event>, clients: Streams)
    requires h in st.sockets && SocketsOk(st.sockets, st.born) && Linear(st, hands, clients)
    requires TokenElsewhere(st, h, hands, clients)
    ensures !HoldsToken(st.sockets[h].recvSlot) && !HoldsToken(st.sockets[h].sendSlot)
  {
    var s := st.sockets[h];
    assert Shape(h, s);
    assert s.recvSlot.Some? ==> Total(st, hands, clients, ItemOf(s.recvSlot.value)) >= 1;
    assert s.sendSlot.Some? ==> Total(st, hands, clients, ItemOf(s.sendSlot.value)) >= 1;
    assert Total(st, hands, clients, TokenOf(st, h)) <= 1;
  }

  lemma KeepRegisterRecv(st: State, h: Handle, e: Event, rest: seq<Event>, clients: Streams, whole: bool)
    requires Inv(st, [e] + rest, clients, whole)
    requires h in st.sockets && RecvShape(h, st.sockets[h], e)
    requires whole ==> !HoldsToken(st.sockets[h].recvSlot)
    ensures Inv(RegisterRecv(st, h, e), rest, clients, whole)
  {
    var s := st.sockets[h];
    KeepSwapRecv(st, h, Some(e), rest, clients, whole);
    KeepDiscardSlot(SetSocket(st, h, s.(recvSlot := Some(e))), s.recvSlot, rest, clients, whole);
  }

  lemma KeepRegisterSend(st: State, h: Handle, e: Event, rest: seq<Event>, clients: Streams, whole: bool)
    requires Inv(st, [e] + rest, clients, whole)
    requires h in st.sockets && SendShape(h, st.sockets[h], e)
    requires whole ==> !HoldsToken(st.sockets[h].sendSlot)
    ensures Inv(RegisterSend(st, h, e), rest, clients, whole)
  {
    var s := st.sockets[h];
    KeepSwapSend(st, h, Some(e), rest, clients, whole);
    KeepDiscardSlot(SetSocket(st, h, s.(sendSlot := Some(e))), s.sendSlot, rest, clients, whole);
  }

  lemma SocketOfInv(st: State, h: Handle, hands: seq<Event>, clients: Streams, whole: bool)
    requires Inv(st, hands, clients, whole) && h in st.sockets
    ensures Shape(h, st.sockets[h]) && Addressed(st.sockets[h], st.born)
  {
  }

  lemma KeepCloseTcp(st: State, h: Handle, hands: seq<Event>, clients: Streams, whole: bool)
    requires Inv(st, hands, clients, whole)
    requires HasTcp(st, h) && (whole ==> st.queueOpen)
    ensures Inv(CloseTcp(st, h), hands, clients, whole)
  {
    hide Inv, FireRecv, FireSend;
    var s := st.sockets[h];
    var s1 := s.(p := s.p.(state := S.CloseState(s.p.state)));
    var st1 := SetSocket(st, h, s1);
    SocketOfInv(st, h, hands, clients, whole);
    KeepChange(st, h, s1, hands, clients, whole);
    if s1.p.state != s.p.state {
      KeepFireRecv(st1, h, hands, clients, whole);
      KeepFireSend(FireRecv(st1, h), h, hands, clients, whole);
    }
  }

  /** One effect of `poll`. */
  lemma KeepPoll(st: State, h: Handle, f: S.Effect, hands: seq<Event>, clients: Streams, whole: bool)
    requires Inv(st, hands, clients, whole)
    requires h in st.sockets && S.Possible(st.sockets[h].p, f) && (whole ==> st.queueOpen)
    ensures Inv(Poll(st, h, f), hands, clients, whole)
  {
    hide Inv;
    SocketOfInv(st, h, hands, clients, whole);
    var s1 := st.sockets[h].(p := S.Affected(st.sockets[h].p, f));
    var st1 := SetSocket(st, h, s1);
    KeepChange(st, h, s1, hands, clients, whole);
    var st2 := if S.WakesRecv(f) then FireRecv(st1, h) else st1;
    if S.WakesRecv(f) {
      KeepFireRecv(st1, h, hands, clients, whole);
    }
    if S.WakesSend(f) {
      KeepFireSend(st2, h, hands, clients, whole);
    }
  }

  // ---- removing a socket ----

  /** The socket leaves the table and both registries. */
  function Erase(st: State, h: Handle): State
    requires h in st.sockets
  {
    var s := st.sockets[h];
    st.(sockets := st.sockets - {h}, registered := st.registered - {s.Typed(h)},
        accepted := if s.p.UdpSocket? && s.p.endpoint.Some? then st.accepted - {s.p.endpoint.value} else st.accepted)
  }

  lemma TablesErase(st: State, h: Handle)
    requires RegistryMirrors(st.sockets, st.registered) && EndpointsMirror(st.sockets, st.accepted)
    requires SocketsOk(st.sockets, st.born) && h in st.sockets
    ensures RegistryMirrors(Erase(st, h).sockets, Erase(st, h).registered)
    ensures EndpointsMirror(Erase(st, h).sockets, Erase(st, h).accepted)
    ensures SocketsOk(Erase(st, h).sockets, st.born)
  {
    var sockets1 := Erase(st, h).sockets;
    assert Addressed(st.sockets[h], st.born);
    assert forall k, a :: BoundTo(sockets1, k, a) <==> BoundTo(st.sockets, k, a) && k != h;
    forall a
      ensures a in Erase(st, h).accepted <==> exists k :: BoundTo(sockets1, k, a)
    {
      if a in Erase(st, h).accepted {
        var k :| BoundTo(st.sockets, k, a);
        assert BoundTo(sockets1, k, a);
      }
      if k :| BoundTo(sockets1, k, a) {
        assert BoundTo(st.sockets, k, a);
        assert BoundTo(st.sockets, h, a) ==> k == h;
      }
    }
  }

  lemma KeepErase(st: State, h: Handle, e: Event, rest: seq<Event>, clients: Streams, whole: bool)
    requires Inv(st, [e] + rest, clients, whole)
    requires h in st.sockets && st.sockets[h].recvSlot.None? && st.sockets[h].sendSlot.None?
    requires ItemOf(e) == TokenOf(st, h)
    ensures Inv(Erase(st, h), rest, clients, whole)
  {
    TablesErase(st, h);
    var st1 := Erase(st, h);
    forall x
      ensures Total(st1, rest, clients, x) + One(e, x) == Total(st, [e] + rest, clients, x)
    {
      CountCons(e, rest, x);
    }
    LinearErase(st, h, e, rest, clients);
  }

  lemma LinearErase(st: State, h: Handle, e: Event, rest: seq<Event>, clients: Streams)
    requires Linear(st, [e] + rest, clients)
    requires h in st.sockets && ItemOf(e) == TokenOf(st, h)
    requires forall x :: Total(Erase(st, h), rest, clients, x) + One(e, x) == Total(st, [e] + rest, clients, x)
    ensures Linear(Erase(st, h), rest, clients)
    ensures SocketsOk(st.sockets, st.born) && NoTokenLost(st, [e] + rest, clients) ==> NoTokenLost(Erase(st, h), rest, clients)
  {
    var st1 := Erase(st, h);
    forall x | Total(st1, rest, clients, x) >= 1
      ensures WellItem(st1.sockets, st1.served, st1.ops, x)
    {
      assert Total(st, [e] + rest, clients, x) <= 1;
      assert WellItem(st.sockets, st.served, st.ops, x);
    }
  }

  lemma KeepDropRecv(st: State, h: Handle, hands: seq<Event>, clients: Streams, whole: bool)
    requires Inv(st, hands, clients, whole)
    requires h in st.sockets && (whole ==> TokenElsewhere(st, h, hands, clients))
    ensures Inv(DropRecv(st, h), hands, clients, whole)
  {
    if whole {
      SlotsHoldNoToken(st, h, hands, clients);
    }
    assert Opt(None) + hands == hands;
    KeepSwapRecv(st, h, None, hands, clients, whole);
    KeepDiscardSlot(SetSocket(st, h, st.sockets[h].(recvSlot := None)), st.sockets[h].recvSlot, hands, clients, whole);
  }

  lemma KeepDropSend(st: State, h: Handle, hands: seq<Event>, clients: Streams, whole: bool)
    requires Inv(st, hands, clients, whole)
    requires h in st.sockets && (whole ==> TokenElsewhere(st, h, hands, clients))
    ensures Inv(DropSend(st, h), hands, clients, whole)
  {
    if whole {
      SlotsHoldNoToken(st, h, hands, clients);
    }
    assert Opt(None) + hands == hands;
    KeepSwapSend(st, h, None, hands, clients, whole);
    KeepDiscardSlot(SetSocket(st, h, st.sockets[h].(sendSlot := None)), st.sockets[h].sendSlot, hands, clients, whole);
  }

  /** Dropping both closures and erasing the socket, with its token in the hand. */
  lemma KeepRemove(st: State, h: Handle, e: Event, rest: seq<Event>, clients: Streams, whole: bool)
    requires Inv(st, [e] + rest, clients, whole)
    requires h in st.sockets && ItemOf(e) == TokenOf(st, h)
    ensures Inv(Erase(DropSend(DropRecv(st, h), h), h), rest, clients, whole)
  {
    hide Inv, DropRecv, DropSend;
    CountCons(e, rest, ItemOf(e));
    KeepDropRecv(st, h, [e] + rest, clients, whole);
    KeepDropSend(DropRecv(st, h), h, [e] + rest, clients, whole);
    KeepErase(DropSend(DropRecv(st, h), h), h, e, rest, clients, whole);
  }

  // ---- control events ----

  /** Nothing has been torn down. */
  predicate Intact(st: State) { st.queueOpen && st.tcpAcceptor && st.udpAcceptor }

  /** The assumption about the library: a socket that may receive has both its endpoints. */
  ghost predicate PeersKnown(sockets: map<Handle, S.Socket>) {
    forall h :: h in sockets && sockets[h].p.TcpSocket? && S.MayRecv(sockets[h].p) ==> sockets[h].p.peer.Some?
  }

  lemma HandIsWell(st: State, e: Event, rest: seq<Event>, clients: Streams)
    requires Linear(st, [e] + rest, clients)
    ensures WellItem(st.sockets, st.served, st.ops, ItemOf(e))
    ensures e.IsToken() ==> TokenElsewhere(st, e.typed.handle, [e] + rest, clients)
  {
    CountCons(e, rest, ItemOf(e));
    assert Total(st, [e] + rest, clients, ItemOf(e)) >= 1;
  }

  /** From the hand into an acceptor channel. */
  lemma KeepDeliver(st: State, e: Event, i: Info, rest: seq<Event>, clients: Streams, whole: bool)
    requires Inv(st, [e] + rest, clients, whole)
    requires e.Ready? && i.handle == e.typed.handle && i.inc == e.inc
    requires i.inc < |st.born| && i.remoteAddr == st.born[i.inc]
    ensures e.typed.Tcp? ==> Inv(st.(tcpInfos := st.tcpInfos + [i]), rest, clients, whole)
    ensures e.typed.Udp? ==> Inv(st.(udpInfos := st.udpInfos + [i]), rest, clients, whole)
  {
    var st1 := if e.typed.Tcp? then st.(tcpInfos := st.tcpInfos + [i]) else st.(udpInfos := st.udpInfos + [i]);
    forall x
      ensures Total(st1, rest, clients, x) == Total(st, [e] + rest, clients, x)
    {
      CountCons(e, rest, x);
      InInfosPush(st.tcpInfos, i, true, x);
      InInfosPush(st.udpInfos, i, false, x);
    }
    LinearSame(st, [e] + rest, st1, rest, clients);
  }

  lemma KeepReady(st: State, th: TypedHandle, inc: nat, rest: seq<Event>, clients: Streams, whole: bool)
    requires Inv(st, [Ready(th, inc)] + rest, clients, whole)
    requires PeersKnown(st.sockets) && (whole ==> Intact(st))
    ensures Inv(HandleReady(st, th, inc), rest, clients, whole)
  {
    var e := Ready(th, inc);
    var h := th.handle;
    HandIsWell(st, e, rest, clients);
    SocketOfInv(st, h, [e] + rest, clients, whole);
    SlotsHoldNoToken(st, h, [e] + rest, clients);
    hide Inv;
    var s := st.sockets[h];
    if s.p.TcpSocket? && !S.MayRecv(s.p) {
      KeepRegisterRecv(st, h, e, rest, clients, whole);
    } else if s.p.TcpSocket? && st.tcpAcceptor {
      KeepDeliver(st, e, Info(h, inc, s.p.peer, s.p.local), rest, clients, whole);
    } else if s.p.UdpSocket? && st.udpAcceptor {
      KeepDeliver(st, e, Info(h, inc, None, s.p.endpoint.value), rest, clients, whole);
    } else {
      KeepLoseAny(st, e, rest, clients, whole);
    }
  }

  lemma KeepLoseAny(st: State, e: Event, rest: seq<Event>, clients: Streams, whole: bool)
    requires Inv(st, [e] + rest, clients, whole)
    requires e.IsToken() && !whole
    ensures Inv(st, rest, clients, whole)
  {
    KeepLose(st, e, rest, clients);
  }

  /** The registry answers exactly for the sockets of the table. */
  lemma RegisteredIsPresent(st: State, th: TypedHandle, hands: seq<Event>, clients: Streams, whole: bool)
    requires Inv(st, hands, clients, whole)
    ensures th in st.registered <==> th.handle in st.sockets && st.sockets[th.handle].Typed(th.handle) == th
  {
  }

  /** An event of a present socket whose token is not with the socket itself. */
  ghost predicate Backed(st: State, e: Event, hands: seq<Event>, clients: Streams) {
    e.Target().handle in st.sockets && TokenElsewhere(st, e.Target().handle, hands, clients)
  }

  /** Handling the operation parks it over the token of its socket. */
  predicate Displaces(st: State, e: Event) {
    match e
    case Shutdown(th, o) => th in st.registered && th.Tcp? && HasTcp(st, th.handle) && HoldsToken(st.sockets[th.handle].sendSlot)
    case Read(h, o) =>
      && Tcp(h) in st.registered && HasTcp(st, h) && o in st.ops && HoldsToken(st.sockets[h].recvSlot)
      && ReadOutcome(st.sockets[h].p, st.ops[o].buf, st.ops[o].init).Park?
    case Write(h, o) =>
      && Tcp(h) in st.registered && HasTcp(st, h) && o in st.ops && HoldsToken(st.sockets[h].sendSlot)
      && WriteOutcome(st.sockets[h].p, st.ops[o].buf, st.ops[o].init).Park?
    case Recv(h, o) =>
      && Udp(h) in st.registered && HasUdp(st, h) && o in st.ops && HoldsToken(st.sockets[h].recvSlot)
      && RecvOutcome(st.sockets[h].p, st.ops[o].buf, st.ops[o].init, st.ops[o].refused).Park?
    case Send(h, to, o) =>
      && Udp(h) in st.registered && HasUdp(st, h) && o in st.ops && HoldsToken(st.sockets[h].sendSlot)
      && SendOutcome(st.sockets[h].p, to, st.ops[o].buf, st.ops[o].init, st.ops[o].refused).Park?
    case _ => false
  }

  lemma TokensDisplaceNothing(st: State, e: Event)
    requires e.IsToken()
    ensures !Displaces(st, e)
  {
  }

  lemma BackedDisplacesNothing(st: State, e: Event, hands: seq<Event>, clients: Streams, whole: bool)
    requires Inv(st, hands, clients, whole) && Backed(st, e, hands, clients)
    ensures !Displaces(st, e)
  {
    SlotsHoldNoToken(st, e.Target().handle, hands, clients);
  }

  lemma KeepShutdown(st: State, th: TypedHandle, o: OpId, rest: seq<Event>, clients: Streams, whole: bool)
    requires Inv(st, [Shutdown(th, o)] + rest, clients, whole)
    requires whole ==> Intact(st) && !Displaces(st, Shutdown(th, o))
    requires th.Tcp?
    ensures Inv(HandleShutdown(st, th, o), rest, clients, whole)
  {
    var e := Shutdown(th, o);
    RegisteredIsPresent(st, th, [e] + rest, clients, whole);
    hide Inv, RegisterSend, CloseTcp;
    if th in st.registered {
      KeepRegisterSend(st, th.handle, e, rest, clients, whole);
      KeepCloseTcp(RegisterSend(st, th.handle, e), th.handle, rest, clients, whole);
    } else {
      KeepFinish(st, e, rest, clients, whole, [SendReply(Err(Other)), DropSender]);
    }
  }

  lemma ClosedSlots(st: State, h: Handle, hands: seq<Event>, clients: Streams, whole: bool)
    requires Inv(st, hands, clients, whole) && h in st.sockets && TokenElsewhere(st, h, hands, clients)
    ensures !HoldsToken(st.sockets[h].recvSlot) && !HoldsToken(st.sockets[h].sendSlot)
  {
    SlotsHoldNoToken(st, h, hands, clients);
  }

  lemma KeepCloseOfTcp(st: State, h: Handle, inc: nat, rest: seq<Event>, clients: Streams, whole: bool)
    requires Inv(st, [Close(Tcp(h), inc)] + rest, clients, whole)
    requires whole ==> Intact(st)
    requires HasTcp(st, h) && st.sockets[h].inc == inc && inc in st.served && Tcp(h) in st.registered
    ensures Inv(HandleClose(st, Tcp(h), inc), rest, clients, whole)
  {
    hide Inv, CloseTcp, RegisterRecv, DropRecv, DropSend;
    var e := Close(Tcp(h), inc);
    var st1 := CloseTcp(st, h);
    KeepCloseTcp(st, h, [e] + rest, clients, whole);
    CountCons(e, rest, ItemOf(e));
    assert TokenOf(st1, h) == ItemOf(e);
    ClosedSlots(st1, h, [e] + rest, clients, whole);
    if !S.IsActive(st1.sockets[h].p.state) {
      KeepRemove(st1, h, e, rest, clients, whole);
      assert Erase(DropSend(DropRecv(st1, h), h), h) == RemoveTcp(st1, h);
    } else {
      KeepRegisterRecv(st1, h, e, rest, clients, whole);
    }
  }

  /** What `close` did to the UDP socket itself is gone with the socket. */
  lemma CloseUdpIsFire(st: State, h: Handle)
    requires HasUdp(st, h) && st.sockets[h].p.endpoint.Some?
    ensures
      var fired := FireSend(FireRecv(st, h), h);
      && h in fired.sockets
      && RemoveUdp(CloseUdp(st, h), h, st.sockets[h].p.endpoint.value) == Erase(DropSend(DropRecv(fired, h), h), h)
  {
    hide FireRecv, FireSend;
    var fired := FireSend(FireRecv(st, h), h);
    var closed := CloseUdp(st, h);
    assert DropSend(DropRecv(closed, h), h).ops == fired.ops == DropSend(DropRecv(fired, h), h).ops;
  }

  lemma KeepCloseOfUdp(st: State, h: Handle, inc: nat, rest: seq<Event>, clients: Streams, whole: bool)
    requires Inv(st, [Close(Udp(h), inc)] + rest, clients, whole)
    requires whole ==> Intact(st)
    requires HasUdp(st, h) && st.sockets[h].inc == inc && inc in st.served && Udp(h) in st.registered
    ensures Inv(HandleClose(st, Udp(h), inc), rest, clients, whole)
  {
    hide Inv, FireRecv, FireSend, CloseUdp, DropRecv, DropSend;
    var e := Close(Udp(h), inc);
    SocketOfInv(st, h, [e] + rest, clients, whole);
    KeepFireRecv(st, h, [e] + rest, clients, whole);
    KeepFireSend(FireRecv(st, h), h, [e] + rest, clients, whole);
    KeepRemove(FireSend(FireRecv(st, h), h), h, e, rest, clients, whole);
    CloseUdpIsFire(st, h);
  }

  // ---- data events ----

  /** The driver writes to the buffer of the operation in its hand. */
  lemma KeepFill(st: State, e: Event, buf: seq<Byte>, init: nat, rest: seq<Event>, clients: Streams, whole: bool)
    requires Inv(st, [e] + rest, clients, whole)
    requires !e.IsToken() && e.op in st.ops && init <= |buf|
    ensures Inv(st.(ops := st.ops[e.op := st.ops[e.op].(buf := buf, init := init)]), [e] + rest, clients, whole)
  {
    hide OpOk;
    var st1 := st.(ops := st.ops[e.op := st.ops[e.op].(buf := buf, init := init)]);
    FillKeepsOk(st.ops[e.op], buf, init);
    assert forall x :: Total(st1, [e] + rest, clients, x) == Total(st, [e] + rest, clients, x);
    LinearFill(st, e.op, st1.ops, [e] + rest, clients);
  }

  lemma LinearFill(st: State, o: OpId, ops: map<OpId, Op>, hands: seq<Event>, clients: Streams)
    requires Linear(st, hands, clients) && o in st.ops && o in ops && ops == st.ops[o := ops[o]]
    requires ops[o].stage.Held? == st.ops[o].stage.Held? && ops[o].kind == st.ops[o].kind && ops[o].target == st.ops[o].target
    ensures Linear(st.(ops := ops), hands, clients)
    ensures NoTokenLost(st, hands, clients) ==> NoTokenLost(st.(ops := ops), hands, clients)
  {
    var st1 := st.(ops := ops);
    assert forall x :: Total(st1, hands, clients, x) == Total(st, hands, clients, x);
    forall x | Total(st1, hands, clients, x) >= 1
      ensures WellItem(st1.sockets, st1.served, st1.ops, x)
    {
      assert WellItem(st.sockets, st.served, st.ops, x);
    }
    forall p | p in ops && ops[p].stage.Held?
      ensures Total(st1, hands, clients, OpItem(ops, p)) >= 1
    {
      assert p in st.ops && OpItem(ops, p) == OpItem(st.ops, p);
    }
  }

  lemma KeepComplete(st: State, e: Event, p: S.Proto, buf: seq<Byte>, init: nat, plan: seq<Act>,
                     rest: seq<Event>, clients: Streams, whole: bool)
    requires Inv(st, [e] + rest, clients, whole)
    requires !e.IsToken() && e.op in st.ops && init <= |buf| && BufferFirst(plan, !e.Shutdown?)
    requires
      var h := e.Target().handle;
      && h in st.sockets && p.TcpSocket? == st.sockets[h].p.TcpSocket?
      && Addressed(st.sockets[h].(p := p), st.born)
    ensures Inv(CompleteOp(st, e.Target().handle, e.op, p, buf, init, plan), rest, clients, whole)
  {
    hide Inv;
    var h := e.Target().handle;
    var s := st.sockets[h].(p := p);
    var st1 := SetSocket(st, h, s);
    KeepChange(st, h, s, [e] + rest, clients, whole);
    var filled := st.ops[e.op].(buf := buf, init := init);
    var st2 := st1.(ops := st1.ops[e.op := filled]);
    KeepFill(st1, e, buf, init, rest, clients, whole);
    KeepFinish(st2, e, rest, clients, whole, plan);
    assert FinishOp(st2.ops, e.op, plan) == st.ops[e.op := Finish(filled, plan)];
  }

  lemma OpOfInv(st: State, e: Event, rest: seq<Event>, clients: Streams, whole: bool)
    requires Inv(st, [e] + rest, clients, whole) && !e.IsToken()
    ensures e.op in st.ops && st.ops[e.op].stage.Held? && OpOk(st.ops[e.op])
    ensures ItemOf(e) == OpItem(st.ops, e.op) && KindFits(st.ops[e.op].kind, e.Target())
  {
    HandIsWell(st, e, rest, clients);
  }

  lemma InitFits(op: Op)
    requires OpOk(op)
    ensures op.init <= |op.buf|
  {
  }

  lemma KeepsAddress(s: S.Socket, p: S.Proto, born: seq<Addr>)
    requires Addressed(s, born)
    requires s.p.TcpSocket? ==> p.TcpSocket? && p.local == s.p.local
    requires s.p.UdpSocket? ==> p.UdpSocket? && p.endpoint == s.p.endpoint
    ensures Addressed(s.(p := p), born)
  {
  }

  lemma KeepRead(st: State, e: Event, rest: seq<Event>, clients: Streams, whole: bool)
    requires Inv(st, [e] + rest, clients, whole) && e.Read?
    requires whole ==> Intact(st) && !Displaces(st, e)
    ensures Inv(HandleTcp(st, e), rest, clients, whole)
  {
    hide Inv, RegisterRecv, CompleteOp, ReadOutcome, OpOk, Addressed, Shape;
    RegisteredIsPresent(st, Tcp(e.handle), [e] + rest, clients, whole);
    OpOfInv(st, e, rest, clients, whole);
    if Tcp(e.handle) !in st.registered {
      KeepFinish(st, e, rest, clients, whole, [DropBuffer, SendReply(Err(NotFound)), DropSender]);
    } else {
      var s, op := st.sockets[e.handle], st.ops[e.op];
      var out := ReadOutcome(s.p, op.buf, op.init);
      if out.Complete? {
        InitFits(op);
        SocketOfInv(st, e.handle, [e] + rest, clients, whole);
        KeepsAddress(s, out.proto, st.born);
        KeepComplete(st, e, out.proto, out.buf, out.init, out.plan, rest, clients, whole);
      } else {
        KeepRegisterRecv(st, e.handle, e, rest, clients, whole);
      }
    }
  }

  lemma KeepWrite(st: State, e: Event, rest: seq<Event>, clients: Streams, whole: bool)
    requires Inv(st, [e] + rest, clients, whole) && e.Write?
    requires whole ==> Intact(st) && !Displaces(st, e)
    ensures Inv(HandleTcp(st, e), rest, clients, whole)
  {
    hide Inv, RegisterSend, CompleteOp, WriteOutcome, OpOk, Addressed, Shape;
    RegisteredIsPresent(st, Tcp(e.handle), [e] + rest, clients, whole);
    OpOfInv(st, e, rest, clients, whole);
    if Tcp(e.handle) !in st.registered {
      KeepFinish(st, e, rest, clients, whole, [DropBuffer, SendReply(Err(NotFound)), DropSender]);
    } else {
      var s, op := st.sockets[e.handle], st.ops[e.op];
      var out := WriteOutcome(s.p, op.buf, op.init);
      if out.Complete? {
        InitFits(op);
        SocketOfInv(st, e.handle, [e] + rest, clients, whole);
        KeepsAddress(s, out.proto, st.born);
        KeepComplete(st, e, out.proto, out.buf, out.init, out.plan, rest, clients, whole);
      } else {
        KeepRegisterSend(st, e.handle, e, rest, clients, whole);
      }
    }
  }

  lemma KeepRecv(st: State, e: Event, rest: seq<Event>, clients: Streams, whole: bool)
    requires Inv(st, [e] + rest, clients, whole) && e.Recv?
    requires whole ==> Intact(st) && !Displaces(st, e)
    ensures Inv(HandleUdp(st, e), rest, clients, whole)
  {
    hide Inv, RegisterRecv, CompleteOp, RecvOutcome, OpOk, Addressed, Shape;
    RegisteredIsPresent(st, Udp(e.handle), [e] + rest, clients, whole);
    OpOfInv(st, e, rest, clients, whole);
    if Udp(e.handle) !in st.registered {
      KeepFinish(st, e, rest, clients, whole, [DropBuffer, SendReply(Err(NotFound)), DropSender]);
    } else {
      var s, op := st.sockets[e.handle], st.ops[e.op];
      var out := RecvOutcome(s.p, op.buf, op.init, op.refused);
      if out.Complete? {
        InitFits(op);
        SocketOfInv(st, e.handle, [e] + rest, clients, whole);
        KeepsAddress(s, out.proto, st.born);
        KeepComplete(st, e, out.proto, out.buf, out.init, out.plan, rest, clients, whole);
      } else {
        KeepRegisterRecv(st, e.handle, e, rest, clients, whole);
      }
    }
  }

  lemma KeepSend(st: State, e: Event, rest: seq<Event>, clients: Streams, whole: bool)
    requires Inv(st, [e] + rest, clients, whole) && e.Send?
    requires whole ==> Intact(st) && !Displaces(st, e)
    ensures Inv(HandleUdp(st, e), rest, clients, whole)
  {
    hide Inv, RegisterSend, CompleteOp, SendOutcome, OpOk, Addressed, Shape;
    RegisteredIsPresent(st, Udp(e.handle), [e] + rest, clients, whole);
    OpOfInv(st, e, rest, clients, whole);
    if Udp(e.handle) !in st.registered {
      KeepFinish(st, e, rest, clients, whole, [DropBuffer, SendReply(Err(NotFound)), DropSender]);
    } else {
      var s, op := st.sockets[e.handle], st.ops[e.op];
      var out := SendOutcome(s.p, e.src, op.buf, op.init, op.refused);
      if out.Complete? {
        InitFits(op);
        SocketOfInv(st, e.handle, [e] + rest, clients, whole);
        KeepsAddress(s, out.proto, st.born);
        KeepComplete(st, e, out.proto, out.buf, out.init, out.plan, rest, clients, whole);
      } else {
        KeepRegisterSend(st, e.handle, e, rest, clients, whole);
      }
    }
  }

  // ---- any event ----

  /** Handling any event keeps the invariant; in particular no handler panics. */
  lemma KeepDispatch(st: State, e: Event, rest: seq<Event>, clients: Streams, whole: bool)
    requires Inv(st, [e] + rest, clients, whole)
    requires PeersKnown(st.sockets)
    requires whole ==> Intact(st) && !Displaces(st, e)
    ensures Inv(Dispatch(st, e), rest, clients, whole)
  {
    hide OpOk;
    HandIsWell(st, e, rest, clients);
    RegisteredIsPresent(st, e.Target(), [e] + rest, clients, whole);
    if e.Shutdown? {
      OpOfInv(st, e, rest, clients, whole);
    }
    hide Inv, HandleReady, HandleShutdown, HandleClose, HandleTcp, HandleUdp;
    match e
    case Ready(th, inc) => KeepReady(st, th, inc, rest, clients, whole);
    case Shutdown(th, o) => KeepShutdown(st, th, o, rest, clients, whole);
    case Close(th, inc) =>
      if th.Tcp? {
        KeepCloseOfTcp(st, th.handle, inc, rest, clients, whole);
      } else {
        KeepCloseOfUdp(st, th.handle, inc, rest, clients, whole);
      }
    case Read(_, _) => KeepRead(st, e, rest, clients, whole);
    case Write(_, _) => KeepWrite(st, e, rest, clients, whole);
    case Recv(_, _) => KeepRecv(st, e, rest, clients, whole);
    case Send(_, _, _) => KeepSend(st, e, rest, clients, whole);
  }

  // ---- creating sockets ----

  lemma TablesAdd(st: State, h: Handle, s: S.Socket, dst: Addr)
    requires RegistryMirrors(st.sockets, st.registered) && EndpointsMirror(st.sockets, st.accepted)
    requires SocketsOk(st.sockets, st.born)
    requires h !in st.sockets && s.inc == |st.born| && Shape(h, s) && Addressed(s, st.born + [dst])
    requires s.p.UdpSocket? ==> dst !in st.accepted
    ensures RegistryMirrors(st.sockets[h := s], st.registered + {s.Typed(h)})
    ensures EndpointsMirror(st.sockets[h := s], st.accepted + if s.p.UdpSocket? then {dst} else {})
    ensures SocketsOk(st.sockets[h := s], st.born + [dst])
  {
    var sockets1 := st.sockets[h := s];
    var accepted1 := st.accepted + if s.p.UdpSocket? then {dst} else {};
    assert forall k, a :: BoundTo(sockets1, k, a) <==> BoundTo(st.sockets, k, a) || (k == h && s.p.UdpSocket? && a == dst);
    forall a
      ensures a in accepted1 <==> exists k :: BoundTo(sockets1, k, a)
    {
      if a in st.accepted {
        var k :| BoundTo(st.sockets, k, a);
        assert BoundTo(sockets1, k, a);
      } else if a in accepted1 {
        assert BoundTo(sockets1, h, a);
      }
    }
  }

  /** A new incarnation starts with its one token, parked on the socket or in the hand. */
  lemma KeepAdd(st: State, h: Handle, s: S.Socket, dst: Addr, hands: seq<Event>, hands1: seq<Event>,
                clients: Streams, whole: bool)
    requires Inv(st, hands, clients, whole)
    requires h !in st.sockets && s.inc == |st.born| && Shape(h, s) && Addressed(s, st.born + [dst])
    requires s.p.UdpSocket? ==> dst !in st.accepted
    requires forall x :: Own(s, x) + Count(hands1, x) == Count(hands, x) + (if x == Token(s.Typed(h), s.inc, false) then 1 else 0)
    ensures Inv(st.(sockets := st.sockets[h := s], registered := st.registered + {s.Typed(h)},
                    accepted := st.accepted + (if s.p.UdpSocket? then {dst} else {}), born := st.born + [dst]),
                hands1, clients, whole)
  {
    var st1 := st.(sockets := st.sockets[h := s], registered := st.registered + {s.Typed(h)},
                   accepted := st.accepted + (if s.p.UdpSocket? then {dst} else {}), born := st.born + [dst]);
    TablesAdd(st, h, s, dst);
    forall x
      ensures Total(st1, hands1, clients, x) == Total(st, hands, clients, x) + (if x == Token(s.Typed(h), s.inc, false) then 1 else 0)
    {
      AddTotal(st, st1, h, s, hands, hands1, clients, x);
    }
    LinearAdd(st, st1, h, s, hands, hands1, clients);
  }

  lemma AddTotal(st: State, st1: State, h: Handle, s: S.Socket, hands: seq<Event>, hands1: seq<Event>, clients: Streams, x: Item)
    requires h !in st.sockets && Shape(h, s)
    requires Own(s, x) + Count(hands1, x) == Count(hands, x) + (if x == Token(s.Typed(h), s.inc, false) then 1 else 0)
    requires st1 == st.(sockets := st.sockets[h := s], registered := st1.registered, accepted := st1.accepted, born := st1.born)
    ensures Total(st1, hands1, clients, x) == Total(st, hands, clients, x) + (if x == Token(s.Typed(h), s.inc, false) then 1 else 0)
  {
    if HandleOf(x) != h {
      OwnElsewhere(h, s, x);
    }
  }

  lemma OrphansAdd(st: State, st1: State, h: Handle, s: S.Socket, hands: seq<Event>, hands1: seq<Event>, clients: Streams)
    requires OrphansOk(st, hands, clients) && SocketsOk(st.sockets, st.born)
    requires h !in st.sockets && s.inc == |st.born| && st1.sockets == st.sockets[h := s]
    requires forall x :: Total(st1, hands1, clients, x) == Total(st, hands, clients, x) + (if x == Token(s.Typed(h), s.inc, false) then 1 else 0)
    ensures OrphansOk(st1, hands1, clients)
  {
    forall i | i in clients.orphans
      ensures i != s.inc && Present(st1.sockets, clients.orphans[i], i)
    {
      assert Present(st.sockets, clients.orphans[i], i);
      assert Addressed(st.sockets[clients.orphans[i].handle], st.born);
    }
  }

  lemma LinearAdd(st: State, st1: State, h: Handle, s: S.Socket, hands: seq<Event>, hands1: seq<Event>, clients: Streams)
    requires Linear(st, hands, clients) && SocketsOk(st.sockets, st.born)
    requires h !in st.sockets && s.inc == |st.born| && st1.sockets == st.sockets[h := s] && st1.ops == st.ops
    requires ServedOk(st.served, st.born) && st1.served == st.served
    requires forall x :: Total(st1, hands1, clients, x) == Total(st, hands, clients, x) + (if x == Token(s.Typed(h), s.inc, false) then 1 else 0)
    ensures Linear(st1, hands1, clients)
    ensures NoTokenLost(st, hands, clients) ==> NoTokenLost(st1, hands1, clients)
  {
    OrphansAdd(st, st1, h, s, hands, hands1, clients);
    hide OrphansOk;
    var t := Token(s.Typed(h), s.inc, false);
    assert !Present(st.sockets, s.Typed(h), s.inc);
    assert Total(st, hands, clients, t) == 0;
    forall x | Total(st1, hands1, clients, x) >= 1
      ensures WellItem(st1.sockets, st1.served, st1.ops, x)
    {
      assert x != t ==> WellItem(st.sockets, st.served, st.ops, x);
    }
    forall o | o in st1.ops && st1.ops[o].stage.Held?
      ensures Total(st1, hands1, clients, OpItem(st1.ops, o)) >= 1
    {
      assert Total(st, hands, clients, OpItem(st.ops, o)) >= 1;
    }
    if NoTokenLost(st, hands, clients) {
      forall k | k in st1.sockets
        ensures Total(st1, hands1, clients, TokenOf(st1, k)) >= 1
      {
        assert k != h ==> Total(st, hands, clients, TokenOf(st, k)) >= 1;
      }
    }
  }

  lemma OwnElsewhere(h: Handle, s: S.Socket, x: Item)
    requires Shape(h, s) && HandleOf(x) != h
    ensures Own(s, x) == 0
  {
  }

  lemma KeepInitTcp(st: State, dst: Addr, h: Handle, hands: seq<Event>, clients: Streams, whole: bool)
    requires Inv(st, hands, clients, whole)
    requires h !in st.sockets && InitTcp(st, dst, h).Some?
    ensures Inv(InitTcp(st, dst, h).value, hands, clients, whole)
  {
    var s := S.Socket(|st.born|, S.Listening(dst, st.bufSize).value, None, Some(Ready(Tcp(h), |st.born|)));
    KeepAdd(st, h, s, dst, hands, hands, clients, whole);
    assert st.accepted + {} == st.accepted;
  }

  lemma KeepTryInitUdp(st: State, dst: Addr, h: Handle, hands: seq<Event>, clients: Streams, whole: bool)
    requires Inv(st, hands, clients, whole)
    requires h !in st.sockets && (whole ==> st.queueOpen)
    ensures TryInitUdp(st, dst, h).Created? ==> Inv(TryInitUdp(st, dst, h).st, hands, clients, whole)
    ensures TryInitUdp(st, dst, h).SendFailed? ==> Inv(TryInitUdp(st, dst, h).st, hands, clients, false)
  {
    if dst !in st.accepted && dst.port != 0 {
      var s := S.Socket(|st.born|, S.Bound(dst).value, None, None);
      var e := Ready(Udp(h), |st.born|);
      forall x
        ensures Own(s, x) + Count([e] + hands, x) == Count(hands, x) + (if x == Token(s.Typed(h), s.inc, false) then 1 else 0)
      {
        CountCons(e, hands, x);
      }
      KeepAdd(st, h, s, dst, hands, [e] + hands, clients, whole);
      var st1 := st.(sockets := st.sockets[h := s], registered := st.registered + {Udp(h)},
                     accepted := st.accepted + {dst}, born := st.born + [dst]);
      if st.queueOpen {
        KeepPush(st1, e, hands, clients, whole);
      } else {
        KeepLose(st1, e, hands, clients);
      }
    }
  }
}
