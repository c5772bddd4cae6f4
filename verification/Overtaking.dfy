/**
 What reordering does when it matters: in any batch of any run, a shutdown overtakes every write of
 the same stream that was sent before it, and the write fails.
 */
module Overtaking {
  import opened Event
  import opened Operation
  import opened Stack
  import opened Invariant
  import opened Handlers
  import opened Parked
  import opened World
  import opened Steps
  import opened Turns
  import opened Shutdowns
  import opened Reorder
  import opened Locality
  import opened Strays
  import opened Places
  import opened ByteHistory
  import S = Smoltcp

  // ---- an operation that is settled is left alone ----

  /** No closure parked at `h` is about operation `o`. */
  predicate Clear(st: State, h: Handle, o: OpId) {
    h in st.sockets ==> NotAbout(st.sockets[h].recvSlot, o) && NotAbout(st.sockets[h].sendSlot, o)
  }

  /** The operation, and where it could be parked at `h`, is as before. */
  predicate Spares(st: State, r: State, h: Handle, o: OpId) {
    o in st.ops && o in r.ops && r.ops[o] == st.ops[o] && Clear(r, h, o)
  }

  lemma FiresSpare(st: State, h: Handle, o: OpId)
    requires h in st.sockets && o in st.ops && Clear(st, h, o)
    ensures Spares(st, FireRecv(st, h), h, o) && Spares(st, FireSend(st, h), h, o)
  {
  }

  lemma DropsSpare(st: State, h: Handle, o: OpId)
    requires h in st.sockets && o in st.ops && Clear(st, h, o)
    ensures Spares(st, DropRecv(st, h), h, o) && Spares(st, DropSend(st, h), h, o)
  {
  }

  lemma RegistersSpare(st: State, h: Handle, e: Event, o: OpId)
    requires h in st.sockets && o in st.ops && Clear(st, h, o) && (e.IsToken() || e.op != o)
    ensures Spares(st, RegisterRecv(st, h, e), h, o) && Spares(st, RegisterSend(st, h, e), h, o)
  {
  }

  lemma CloseTcpSpares(st: State, h: Handle, o: OpId)
    requires HasTcp(st, h) && o in st.ops && Clear(st, h, o)
    ensures Spares(st, CloseTcp(st, h), h, o)
  {
    hide FireRecv, FireSend;
    var s := st.sockets[h];
    var st1 := SetSocket(st, h, s.(p := s.p.(state := S.CloseState(s.p.state))));
    FiresSpare(st1, h, o);
    FiresSpare(FireRecv(st1, h), h, o);
  }

  lemma RemovesSpare(st: State, h: Handle, dst: Addr, o: OpId)
    requires h in st.sockets && o in st.ops && Clear(st, h, o)
    ensures Spares(st, RemoveTcp(st, h), h, o) && Spares(st, RemoveUdp(st, h, dst), h, o)
  {
    hide DropRecv, DropSend;
    DropsSpare(st, h, o);
    DropsSpare(DropRecv(st, h), h, o);
  }

  lemma CloseStreamSpares(st: State, h: Handle, inc: nat, o: OpId)
    requires HasTcp(st, h) && o in st.ops && Clear(st, h, o)
    ensures Spares(st, CloseStream(st, h, inc), h, o)
  {
    hide CloseTcp, RegisterRecv, RegisterSend, RemoveTcp, RemoveUdp, Clear;
    CloseTcpSpares(st, h, o);
    RemovesSpare(CloseTcp(st, h), h, Addr(0, 0), o);
    RegistersSpare(CloseTcp(st, h), h, Close(Tcp(h), inc), o);
  }

  lemma CloseUdpSpares(st: State, h: Handle, o: OpId)
    requires HasUdp(st, h) && o in st.ops && Clear(st, h, o)
    ensures Spares(st, CloseUdp(st, h), h, o)
  {
    hide FireRecv, FireSend;
    FiresSpare(st, h, o);
    FiresSpare(FireRecv(st, h), h, o);
  }

  lemma CloseDatagramSpares(st: State, h: Handle, o: OpId)
    requires HasUdp(st, h) && o in st.ops && Clear(st, h, o)
    ensures Spares(st, CloseDatagram(st, h), h, o)
  {
    if st.sockets[h].p.endpoint.Some? {
      hide CloseUdp, RemoveTcp, RemoveUdp, Clear;
      CloseUdpSpares(st, h, o);
      RemovesSpare(CloseUdp(st, h), h, st.sockets[h].p.endpoint.value, o);
    }
  }

  lemma CloseSpares(st: State, th: TypedHandle, inc: nat, o: OpId)
    requires o in st.ops && Clear(st, th.handle, o)
    ensures Spares(st, HandleClose(st, th, inc), th.handle, o)
  {
    hide CloseStream, CloseDatagram;
    if HasTcp(st, th.handle) {
      CloseStreamSpares(st, th.handle, inc, o);
    } else if HasUdp(st, th.handle) {
      CloseDatagramSpares(st, th.handle, o);
    }
  }

  lemma ReadySpares(st: State, th: TypedHandle, inc: nat, o: OpId)
    requires o in st.ops && Clear(st, th.handle, o)
    ensures o in HandleReady(st, th, inc).ops && HandleReady(st, th, inc).ops[o] == st.ops[o]
  {
    hide RegisterRecv, RegisterSend, Clear;
    if HasTcp(st, th.handle) {
      RegistersSpare(st, th.handle, Ready(th, inc), o);
    }
  }

  lemma ShutdownSpares(st: State, th: TypedHandle, q: OpId, o: OpId)
    requires o in st.ops && Clear(st, th.handle, o) && q != o
    ensures o in HandleShutdown(st, th, q).ops && HandleShutdown(st, th, q).ops[o] == st.ops[o]
  {
    hide CloseTcp, RegisterRecv, RegisterSend, Clear;
    if HasTcp(st, th.handle) {
      RegistersSpare(st, th.handle, Shutdown(th, q), o);
      CloseTcpSpares(RegisterSend(st, th.handle, Shutdown(th, q)), th.handle, o);
    }
  }

  lemma CompleteSpares(st: State, h: Handle, q: OpId, p: S.Proto, buf: seq<Byte>, init: nat, plan: seq<Act>, o: OpId)
    requires h in st.sockets && q in st.ops && o in st.ops && q != o
    ensures o in CompleteOp(st, h, q, p, buf, init, plan).ops && CompleteOp(st, h, q, p, buf, init, plan).ops[o] == st.ops[o]
  {
  }

  lemma LetGoSpares(st: State, q: OpId, plan: seq<Act>, o: OpId)
    requires o in st.ops && q != o
    ensures o in LetGo(st, q, plan).ops && LetGo(st, q, plan).ops[o] == st.ops[o]
  {
  }

  lemma TcpSpares(st: State, e: Event, o: OpId)
    requires e.IsTcpData() && e.op != o && o in st.ops && Clear(st, e.handle, o)
    ensures o in HandleTcp(st, e).ops && HandleTcp(st, e).ops[o] == st.ops[o]
  {
    hide RegisterRecv, RegisterSend, ReadOutcome, WriteOutcome, Clear, CompleteOp, LetGo;
    LetGoSpares(st, e.op, [DropBuffer, SendReply(Err(NotFound)), DropSender], o);
    if HasTcp(st, e.handle) {
      RegistersSpare(st, e.handle, e, o);
      if e.op in st.ops {
        var op := st.ops[e.op];
        var r := if e.Read? then ReadOutcome(st.sockets[e.handle].p, op.buf, op.init)
                 else WriteOutcome(st.sockets[e.handle].p, op.buf, op.init);
        if r.Complete? {
          CompleteSpares(st, e.handle, e.op, r.proto, r.buf, r.init, r.plan, o);
        }
      }
    }
  }

  lemma UdpSpares(st: State, e: Event, o: OpId)
    requires e.IsUdpData() && e.op != o && o in st.ops && Clear(st, e.handle, o)
    ensures o in HandleUdp(st, e).ops && HandleUdp(st, e).ops[o] == st.ops[o]
  {
    hide RegisterRecv, RegisterSend, RecvOutcome, SendOutcome, Clear, CompleteOp, LetGo;
    LetGoSpares(st, e.op, [DropBuffer, SendReply(Err(NotFound)), DropSender], o);
    if HasUdp(st, e.handle) {
      RegistersSpare(st, e.handle, e, o);
      if e.op in st.ops {
        var op := st.ops[e.op];
        var r := if e.Recv? then RecvOutcome(st.sockets[e.handle].p, op.buf, op.init, op.refused)
                 else SendOutcome(st.sockets[e.handle].p, e.src, op.buf, op.init, op.refused);
        if r.Complete? {
          CompleteSpares(st, e.handle, e.op, r.proto, r.buf, r.init, r.plan, o);
        }
      }
    }
  }

  lemma DispatchSpares(st: State, e: Event, o: OpId)
    requires (e.IsToken() || e.op != o) && o in st.ops && Clear(st, e.Target().handle, o)
    ensures o in Dispatch(st, e).ops && Dispatch(st, e).ops[o] == st.ops[o]
  {
    hide HandleReady, HandleShutdown, HandleClose, HandleTcp, HandleUdp, Clear;
    match e
    case Ready(th, inc) => ReadySpares(st, th, inc, o);
    case Shutdown(th, q) => ShutdownSpares(st, th, q, o);
    case Close(th, inc) => CloseSpares(st, th, inc, o);
    case _ =>
      if e.IsTcpData() {
        TcpSpares(st, e, o);
      } else {
        UdpSpares(st, e, o);
      }
  }

  /** A closure parked on a socket is about an operation that is still owed. */
  lemma ParkedIsOwed(st: State, h: Handle, hands: seq<Event>, clients: Streams, o: OpId)
    requires Inv(st, hands, clients, false) && h in st.sockets && o in st.ops
    ensures !st.ops[o].stage.Held? || Count(hands, OpItem(st.ops, o)) >= 1 ==> Clear(st, h, o)
  {
    var s := st.sockets[h];
    assert Shape(h, s);
    assert s.recvSlot.Some? ==> Total(st, hands, clients, ItemOf(s.recvSlot.value)) >= 1;
    assert s.sendSlot.Some? ==> Total(st, hands, clients, ItemOf(s.sendSlot.value)) >= 1;
    assert Total(st, hands, clients, OpItem(st.ops, o)) <= 1;
  }

  /** Handling an event leaves alone what is settled, and what is still in the hand. */
  lemma OthersSpared(st: State, e: Event, rest: seq<Event>, clients: Streams, o: OpId)
    requires Inv(st, [e] + rest, clients, false) && o in st.ops
    requires !st.ops[o].stage.Held? || Count(rest, OpItem(st.ops, o)) >= 1
    ensures o in Dispatch(st, e).ops && Dispatch(st, e).ops[o] == st.ops[o]
  {
    CountCons(e, rest, OpItem(st.ops, o));
    if e.Target().handle in st.sockets {
      ParkedIsOwed(st, e.Target().handle, [e] + rest, clients, o);
    }
    if !e.IsToken() {
      OpOfInv(st, e, rest, clients, false);
      OnceInHand(st, e, rest, clients);
    }
    hide Inv, Dispatch;
    DispatchSpares(st, e, o);
  }

  lemma OnceInHand(st: State, e: Event, rest: seq<Event>, clients: Streams)
    requires Inv(st, [e] + rest, clients, false) && !e.IsToken()
    ensures Count(rest, ItemOf(e)) == 0
  {
    CountCons(e, rest, ItemOf(e));
    assert Total(st, [e] + rest, clients, ItemOf(e)) <= 1;
  }

  /** One event of a batch is handled; the rest of the batch is in the hand. */
  lemma BatchStep(st: State, es: seq<Event>, clients: Streams)
    requires Inv(st, es, clients, false) && AllBlocked(st.sockets) && es != []
    ensures Inv(st, [es[0]] + es[1..], clients, false)
    ensures Inv(Dispatch(st, es[0]), es[1..], clients, false) && AllBlocked(Dispatch(st, es[0]).sockets)
  {
    hide Inv, AllBlocked, Dispatch;
    assert [es[0]] + es[1..] == es;
    BlockedKnowsPeers(st.sockets);
    KeepDispatch(st, es[0], es[1..], clients, false);
    DispatchKeepsBlocked(st, es[0]);
  }

  lemma {:induction false} SettledStays(st: State, es: seq<Event>, clients: Streams, o: OpId)
    requires Inv(st, es, clients, false) && AllBlocked(st.sockets) && o in st.ops && !st.ops[o].stage.Held?
    ensures o in DispatchAll(st, es).ops && DispatchAll(st, es).ops[o] == st.ops[o]
    decreases es
  {
    hide Inv, AllBlocked, Dispatch;
    if es != [] {
      BatchStep(st, es, clients);
      OthersSpared(st, es[0], es[1..], clients, o);
      SettledStays(Dispatch(st, es[0]), es[1..], clients, o);
    }
  }

  // ---- in the order sent ----

  lemma WriteServed(st: State, h: Handle, o: OpId)
    requires Tcp(h) in st.registered && HasTcp(st, h) && o in st.ops && S.CanSendTcp(st.sockets[h].p) && st.ops[o].buf != []
    ensures var r := Dispatch(st, Write(h, o));
            o in r.ops && !r.ops[o].stage.Held? && Served(r.ops[o].Answer())
  {
    WriteAnswer(st, h, o);
    var out := WriteOutcome(st.sockets[h].p, st.ops[o].buf, st.ops[o].init);
    assert out.Complete?;
  }

  /** The answer says that bytes were taken. */
  predicate Served(a: Option<Reply>) { a.Some? && a.value.Ok? && a.value.n > 0 }

  predicate Failed(a: Option<Reply>) { a.Some? && a.value.Err? }

  /** A write that is the first event of its handle in the batch is served if there is room. */
  lemma {:induction false} ServedInOrder(st: State, es: seq<Event>, clients: Streams, h: Handle, o: OpId)
    requires Inv(st, es, clients, false) && AllBlocked(st.sockets)
    requires OnlyOf(es, Tcp(h)) != [] && OnlyOf(es, Tcp(h))[0] == Write(h, o)
    requires Tcp(h) in st.registered && HasTcp(st, h) && o in st.ops && st.ops[o].target == Tcp(h)
    requires S.CanSendTcp(st.sockets[h].p) && st.ops[o].buf != []
    ensures o in DispatchAll(st, es).ops && Served(DispatchAll(st, es).ops[o].Answer())
    decreases es
  {
    hide Inv, AllBlocked, Dispatch, Served, S.CanSendTcp;
    var st1 := Dispatch(st, es[0]);
    BatchStep(st, es, clients);
    if es[0].Target() == Tcp(h) {
      WriteServed(st, h, o);
      SettledStays(st1, es[1..], clients, o);
    } else {
      GoodFromInv(st, es[0], es[1..], clients);
      DispatchOf(st, es[0], Tcp(h));
      SameSocket(st, st1, h);
      SameOp(st, st1, o);
      SameRegistration(st, st1, Tcp(h));
      ServedInOrder(st1, es[1..], clients, h, o);
    }
  }

  lemma SameRegistration(a: State, b: State, th: TypedHandle)
    requires Restrict(a, th) == Restrict(b, th)
    ensures th in a.registered <==> th in b.registered
  {
    assert Restrict(a, th).registered == Restrict(b, th).registered;
  }

  // ---- in phases ----

  /** The transmit half of the socket at `h` is closed, or there is none. */
  predicate CannotSend(st: State, h: Handle) { HasTcp(st, h) ==> !S.MaySend(st.sockets[h].p.state) }

  lemma StaysShut(st: State, e: Event, h: Handle)
    requires CannotSend(st, h)
    ensures CannotSend(Dispatch(st, e), h)
  {
    hide Dispatch;
    HandlersTakeTurns(st, e);
  }

  lemma ShutdownShuts(st: State, h: Handle, q: OpId, rest: seq<Event>, clients: Streams)
    requires Inv(st, [Shutdown(Tcp(h), q)] + rest, clients, false)
    ensures CannotSend(Dispatch(st, Shutdown(Tcp(h), q)), h)
  {
    RegisteredIsPresent(st, Tcp(h), [Shutdown(Tcp(h), q)] + rest, clients, false);
    hide Inv, RegisterSend, CloseTcp;
  }

  lemma WriteFails(st: State, h: Handle, o: OpId)
    requires CannotSend(st, h) && o in st.ops && (Tcp(h) in st.registered ==> HasTcp(st, h))
    ensures var r := Dispatch(st, Write(h, o));
            o in r.ops && !r.ops[o].stage.Held? && Failed(r.ops[o].Answer())
  {
    ReplyInThree(Err(NotFound));
    ReplyInThree(Err(BrokenPipe));
  }

  lemma {:induction false} FailsShut(st: State, es: seq<Event>, clients: Streams, h: Handle, o: OpId, b: nat)
    requires Inv(st, es, clients, false) && AllBlocked(st.sockets) && CannotSend(st, h)
    requires b < |es| && es[b] == Write(h, o)
    ensures o in DispatchAll(st, es).ops && Failed(DispatchAll(st, es).ops[o].Answer())
    decreases es
  {
    hide Inv, AllBlocked, Dispatch, CannotSend, Failed;
    var st1 := Dispatch(st, es[0]);
    BatchStep(st, es, clients);
    if b == 0 {
      RegisteredIsPresent(st, Tcp(h), es, clients, false);
      OpOfInv(st, es[0], es[1..], clients, false);
      WriteFails(st, h, o);
      SettledStays(st1, es[1..], clients, o);
    } else {
      StaysShut(st, es[0], h);
      FailsShut(st1, es[1..], clients, h, o, b - 1);
    }
  }

  /** A write that is handled after a shutdown of its stream fails. */
  lemma {:induction false} FailsAfter(st: State, es: seq<Event>, clients: Streams, h: Handle, q: OpId, o: OpId, a: nat, b: nat)
    requires Inv(st, es, clients, false) && AllBlocked(st.sockets)
    requires a < b < |es| && es[a] == Shutdown(Tcp(h), q) && es[b] == Write(h, o)
    ensures o in DispatchAll(st, es).ops && Failed(DispatchAll(st, es).ops[o].Answer())
    decreases es
  {
    hide Inv, AllBlocked, Dispatch, CannotSend, Failed;
    BatchStep(st, es, clients);
    if a == 0 {
      ShutdownShuts(st, h, q, es[1..], clients);
      FailsShut(Dispatch(st, es[0]), es[1..], clients, h, o, b - 1);
    } else {
      FailsAfter(Dispatch(st, es[0]), es[1..], clients, h, q, o, a - 1, b - 1);
    }
  }

  /** In phases every shutdown comes before every write. */
  lemma PhasedPositions(es: seq<Event>, s: Event, w: Event) returns (a: nat, b: nat)
    requires s in es && w in es && s.Shutdown? && w.Write?
    ensures a < b < |Phased(es)| && Phased(es)[a] == s && Phased(es)[b] == w
  {
    InItsPhase(es, s);
    InItsPhase(es, w);
    a :| 0 <= a < |Controls(es)| && Controls(es)[a] == s;
    var k :| 0 <= k < |TcpData(es)| && TcpData(es)[k] == w;
    b := |Controls(es)| + k;
  }

  lemma {:induction false} InItsPhase(es: seq<Event>, e: Event)
    requires e in es
    ensures e.IsControl() ==> e in Controls(es)
    ensures e.IsTcpData() ==> e in TcpData(es)
  {
    if es[0] != e {
      InItsPhase(es[1..], e);
    }
  }

  // ---- theorem ----

  /**
   In any run, if the first event of an open stream with room in a batch is a non-empty write, and a
   shutdown of the stream follows in the same batch, then the write would be served in the order
   sent, and fails in the order in which the batch is handled.
   */
  lemma ShutdownOvertakesWrite(ws: seq<World>, ls: seq<Label>, i: nat, n: nat, h: Handle, o: OpId, q: OpId)
    requires Run(ws, ls, FREE) && i < |ws| && Enabled(ws[i], TakeBatch(n))
    requires var mine := OnlyOf(Batch(ws[i], n), Tcp(h)); mine != [] && mine[0] == Write(h, o)
    requires Shutdown(Tcp(h), q) in Batch(ws[i], n)
    requires HasTcp(ws[i].st, h) && S.CanSendTcp(ws[i].st.sockets[h].p) && o in ws[i].st.ops && ws[i].st.ops[o].buf != []
    ensures var inOrder := DispatchAll(Before(ws[i], n), Batch(ws[i], n));
            o in inOrder.ops && Served(inOrder.ops[o].Answer())
    ensures var phased := DispatchAll(Before(ws[i], n), Phased(Batch(ws[i], n)));
            o in phased.ops && Failed(phased.ops[o].Answer())
  {
    var w, es := ws[i], Batch(ws[i], n);
    var st, clients := Before(w, n), View(w, FREE);
    RunKeeps(ws, ls, FREE, i);
    assert Tcp(h) in st.registered;
    assert es + [] == es && Phased(es) + [] == Phased(es);
    BatchInHand(w, n, FREE);
    FirstIsMember(es, Tcp(h));
    var k :| 0 <= k < |es| && es[k] == Write(h, o);
    OpsTarget(w, k);
    hide WorldInv, Inv, AllBlocked, Phased, DispatchAll, OnlyOf;
    ServedInOrder(st, es, clients, h, o);
    var a, b := PhasedPositions(es, Shutdown(Tcp(h), q), Write(h, o));
    FailsAfter(st, Phased(es), clients, h, q, o, a, b);
  }

  lemma {:induction false} FirstIsMember(es: seq<Event>, th: TypedHandle)
    requires OnlyOf(es, th) != []
    ensures OnlyOf(es, th)[0] in es
  {
    if es[0].Target() != th {
      FirstIsMember(es[1..], th);
    }
  }

  lemma OpsTarget(w: World, k: nat)
    requires WorldInv(w, FREE) && k < |w.st.queue| && !w.st.queue[k].IsToken()
    ensures w.st.queue[k].op in w.st.ops && w.st.ops[w.st.queue[k].op].target == w.st.queue[k].Target()
  {
    OwedAt(w, Queued(k), w.st.queue[k]);
  }
}
