/**
 Properties of whole runs that count or follow events: who writes to a shared buffer, and how often an
 incarnation is accepted and closed.
 */
module Lifecycle {
  import opened Event
  import opened Operation
  import opened Stack
  import opened Invariant
  import opened Handlers
  import opened Parked
  import opened World
  import opened Steps
  import opened Places
  import opened Frames
  import opened Theorems
  import S = Smoltcp

  // ---- shared buffers ----

  lemma {:induction false} DiscardAllFrame(st: State, es: seq<Event>)
    ensures DiscardAll(st, es) == st.(ops := DiscardAll(st, es).ops)
    ensures SameOps(st.ops, DiscardAll(st, es).ops, None)
    decreases es
  {
    FinishSame(st.ops, 0, [], None);
    if es != [] {
      if !es[0].IsToken() {
        FinishSame(st.ops, es[0].op, DropPlan(es[0].Shutdown?), None);
      }
      DiscardAllFrame(Discard(st, es[0]), es[1..]);
    }
  }

  /** The only step that changes the contents of a shared buffer is the handling of its own operation. */
  lemma OnlyHandlerWrites(w: World, l: Label, w1: World, o: OpId)
    requires Step(w, l, w1, FREE) && o in w.st.ops
    ensures o in w1.st.ops
    ensures w1.st.ops[o].buf == w.st.ops[o].buf || (l.HandleNext? && Writer(w.todo[0]) == Some(o))
  {
    hide Dispatch, Poll, Emits, InitTcp, TryInitUdp, DropSockets, Do;
    match l
    case HandleNext => FrameDispatch(w.st, w.todo[0]);
    case PollOne(h, f) => FramePoll(w.st, h, f);
    case DropStack => DiscardAllFrame(w.st, w.todo); DropSocketsBuffers(DiscardAll(w.st, w.todo), o);
    case DropGenerator(n) => DiscardAllFrame(w.st.(queue := w.st.queue[..n], queueOpen := false), w.st.queue[n..]);
    case Syn(dst, h) => InitSameOps(w.st, dst, h);
    case UdpPacket(dst, h) => InitSameOps(w.st, dst, h);
    case _ =>
  }

  lemma DropSocketsBuffers(st: State, o: OpId)
    requires o in st.ops
    ensures o in DropSockets(st).ops && DropSockets(st).ops[o].buf == st.ops[o].buf
  {
  }

  lemma InitSameOps(st: State, dst: Addr, h: Handle)
    ensures InitTcp(st, dst, h).Some? ==> InitTcp(st, dst, h).value.ops == st.ops
    ensures InitTcp(st, dst, h).Some? ==> InitTcp(st, dst, h).value.queue == st.queue
    ensures InitTcp(st, dst, h).Some? ==> InitTcp(st, dst, h).value.served == st.served
    ensures var r := TryInitUdp(st, dst, h);
            r.Created? || r.SendFailed? ==> r.st.ops == st.ops && r.st.served == st.served
    ensures var r := TryInitUdp(st, dst, h);
            r.Created? ==> r.st.queue == st.queue + [Ready(Udp(h), |st.born|)]
    ensures var r := TryInitUdp(st, dst, h); r.SendFailed? ==> r.st.queue == st.queue
  {
  }

  /**
   So when a shared buffer is written, the client that lent it is still waiting for the answer or
   has given up on it: the two sides never touch it at the same time.
   */
  lemma WritesAreExclusive(ws: seq<World>, ls: seq<Label>, i: nat, o: OpId)
    requires Run(ws, ls, FREE) && i < |ls| && o in ws[i].st.ops
    ensures o in ws[i + 1].st.ops
    ensures ws[i + 1].st.ops[o].buf != ws[i].st.ops[o].buf ==>
              && ws[i].st.ops[o].DriverHolds()
              && (ws[i].st.ops[o].client.Awaiting? || ws[i].st.ops[o].client.Cancelled?)
  {
    assert Step(ws[i], ls[i], ws[i + 1], FREE);
    hide Step;
    StepOnlyHandlerWrites(ws[i], ls[i], ws[i + 1], o);
    BufferOwnership(ws, ls, i, o);
  }

  lemma StepOnlyHandlerWrites(w: World, l: Label, w1: World, o: OpId)
    requires Step(w, l, w1, FREE) && o in w.st.ops
    ensures o in w1.st.ops
    ensures w1.st.ops[o].buf != w.st.ops[o].buf ==> w.todo != [] && !w.todo[0].IsToken() && w.todo[0].op == o
  {
    OnlyHandlerWrites(w, l, w1, o);
  }

  // ---- accepted once ----

  /** The step hands incarnation `inc` to a client. */
  predicate Delivers(w: World, l: Label, inc: nat) {
    || (l.AcceptTcp? && w.st.tcpInfos != [] && w.st.tcpInfos[0].inc == inc)
    || (l.AcceptUdp? && w.st.udpInfos != [] && w.st.udpInfos[0].inc == inc)
  }

  lemma StepServed(w: World, l: Label, w1: World, d: Mode, inc: nat)
    requires Step(w, l, w1, d)
    ensures inc in w1.st.served <==> inc in w.st.served || Delivers(w, l, inc)
  {
    hide Dispatch, Poll, InitTcp, TryInitUdp, DropSockets, Do;
    match l
    case Syn(dst, h) => InitSameOps(w.st, dst, h);
    case UdpPacket(dst, h) => InitSameOps(w.st, dst, h);
    case DropStack => DiscardAllFrame(w.st, w.todo); DropSocketsServed(DiscardAll(w.st, w.todo));
    case DropGenerator(n) => DiscardAllFrame(w.st.(queue := w.st.queue[..n], queueOpen := false), w.st.queue[n..]);
    case PollOne(h, f) => PollServed(w.st, h, f);
    case _ =>
  }

  lemma DropSocketsServed(st: State)
    ensures DropSockets(st).served == st.served && DropSockets(st).queue == st.queue
  {
  }

  lemma PollServed(st: State, h: Handle, f: S.Effect)
    requires h in st.sockets && S.Possible(st.sockets[h].p, f)
    ensures Poll(st, h, f).served == st.served
  {
    hide FireRecv, FireSend;
  }

  lemma {:induction false} ServedStays(ws: seq<World>, ls: seq<Label>, i: nat, j: nat, inc: nat)
    requires Run(ws, ls, FREE) && i <= j < |ws| && inc in ws[i].st.served
    ensures inc in ws[j].st.served
    decreases j - i
  {
    if i < j {
      assert Step(ws[i], ls[i], ws[i + 1], FREE);
      StepServed(ws[i], ls[i], ws[i + 1], FREE, inc);
      ServedStays(ws, ls, i + 1, j, inc);
    }
  }

  /** An incarnation that an acceptor is about to deliver was never delivered before. */
  lemma AcceptedOnce(ws: seq<World>, ls: seq<Label>, i: nat, j: nat, inc: nat)
    requires Run(ws, ls, FREE) && i < j < |ls|
    requires Delivers(ws[i], ls[i], inc)
    ensures !Delivers(ws[j], ls[j], inc)
  {
    assert Step(ws[i], ls[i], ws[i + 1], FREE);
    StepServed(ws[i], ls[i], ws[i + 1], FREE, inc);
    ServedStays(ws, ls, i + 1, j, inc);
    RunKeeps(ws, ls, FREE, j);
    hide Run, WorldInv;
    if Delivers(ws[j], ls[j], inc) {
      PlaceIsWell(ws[j], if ls[j].AcceptTcp? then TcpAccept(0) else UdpAccept(0), FREE);
    }
  }

  // ---- closing ----

  predicate IsClose(e: Event, inc: nat) { e.Close? && e.inc == inc }

  predicate HasClose(es: seq<Event>, inc: nat) {
    exists k :: 0 <= k < |es| && IsClose(es[k], inc)
  }

  /** A close of `inc` is on its way to the driver. */
  predicate ClosePending(w: World, inc: nat) { HasClose(w.st.queue, inc) || HasClose(w.todo, inc) }

  predicate CloseIn(sockets: map<Handle, S.Socket>, h: Handle, inc: nat) {
    h in sockets && sockets[h].recvSlot.Some? && IsClose(sockets[h].recvSlot.value, inc)
  }

  /** A close of `inc` waits in a receive slot. */
  ghost predicate CloseParked(w: World, inc: nat) {
    exists h :: CloseIn(w.st.sockets, h, inc)
  }

  /** The place of a pending close. */
  lemma PendingPlace(w: World, inc: nat) returns (p: Place)
    requires ClosePending(w, inc)
    ensures (p.Queued? || p.Doing?) && TokenAt(w, p, inc)
  {
    if HasClose(w.st.queue, inc) {
      var k :| 0 <= k < |w.st.queue| && IsClose(w.st.queue[k], inc);
      p := Queued(k);
    } else {
      var k :| 0 <= k < |w.todo| && IsClose(w.todo[k], inc);
      p := Doing(k);
    }
  }

  lemma TokensAgree(w: World, p: Place, q: Place, inc: nat, d: Mode)
    requires WorldInv(w, d) && TokenAt(w, p, inc) && TokenAt(w, q, inc)
    ensures p == q
  {
    PlaceIsWell(w, p, d);
    PlaceIsWell(w, q, d);
    OnePlace(w, p, q, d);
  }

  /** A close event that is being handled is nowhere else, and handling it sends none. */
  lemma HandledCloseIsGone(w: World, inc: nat, d: Mode)
    requires WorldInv(w, d) && Enabled(w, HandleNext) && IsClose(w.todo[0], inc)
    ensures !ClosePending(Next(w, HandleNext), inc)
  {
    var w1 := Next(w, HandleNext);
    var e := w.todo[0];
    assert TokenAt(w, Doing(0), inc);
    FrameDispatch(w.st, e);
    forall k | 0 <= k < |w1.st.queue|
      ensures !IsClose(w1.st.queue[k], inc)
    {
      if IsClose(w1.st.queue[k], inc) {
        if k < |w.st.queue| {
          assert w1.st.queue[..|w.st.queue|][k] == w.st.queue[k];
          TokensAgree(w, Doing(0), Queued(k), inc, d);
        } else {
          CloseOnSocket(w, e.Target().handle, w1.st.queue[k], inc, d);
        }
      }
    }
    forall k | 0 <= k < |w1.todo|
      ensures !IsClose(w1.todo[k], inc)
    {
      if IsClose(w1.todo[k], inc) {
        TokensAgree(w, Doing(0), Doing(k + 1), inc, d);
      }
    }
  }

  lemma CloseOnSocket(w: World, h: Handle, e: Event, inc: nat, d: Mode)
    requires WorldInv(w, d) && e in ParkedAt(w.st, h) && IsClose(e, inc)
    ensures CloseIn(w.st.sockets, h, inc)
    ensures w.todo != [] ==> !IsClose(w.todo[0], inc)
  {
    assert Shape(h, w.st.sockets[h]);
    assert TokenAt(w, RecvSlotOf(h), inc);
    if w.todo != [] && IsClose(w.todo[0], inc) {
      TokensAgree(w, Doing(0), RecvSlotOf(h), inc, d);
    }
  }

  /** Where an event in the channel came from. */
  lemma QueueOrigin(w: World, l: Label, w1: World, d: Mode, k: nat)
    requires Step(w, l, w1, d) && k < |w1.st.queue| && w1.st.queue[k].Close?
    ensures
      var e := w1.st.queue[k];
      || e in w.st.queue
      || (exists h :: h in w.st.sockets && e in ParkedOn(w.st.sockets[h]))
      || l == DropClient(e.inc)
  {
    hide Dispatch, Poll, SameOps, InitTcp, TryInitUdp, DropSockets, Do, ParkedOn;
    match l
    case HandleNext =>
      FrameDispatch(w.st, w.todo[0]);
      assert k < |w.st.queue| ==> w1.st.queue[..|w.st.queue|][k] == w.st.queue[k];
    case PollOne(h, f) =>
      FramePoll(w.st, h, f);
      assert k < |w.st.queue| ==> w1.st.queue[..|w.st.queue|][k] == w.st.queue[k];
    case Syn(dst, h) => InitSameOps(w.st, dst, h);
    case UdpPacket(dst, h) => InitSameOps(w.st, dst, h);
    case DropStack => DiscardAllFrame(w.st, w.todo); DropSocketsServed(DiscardAll(w.st, w.todo));
    case DropGenerator(n) => DiscardAllFrame(w.st.(queue := w.st.queue[..n], queueOpen := false), w.st.queue[n..]);
    case _ =>
  }

  lemma TodoOrigin(w: World, l: Label, w1: World, d: Mode, k: nat)
    requires Step(w, l, w1, d) && k < |w1.todo|
    ensures w1.todo[k] in w.todo || w1.todo[k] in w.st.queue
  {
    hide Dispatch, Poll, InitTcp, TryInitUdp, DropSockets, Do, Phased;
    match l
    case TakeBatch(n) => PhasedMembers(w.st.queue[..n]);
    case _ =>
  }

  /**
   A close becomes pending only when its client drops the stream, or when the closure that waits
   for it in the receive slot leaves the slot.
   */
  lemma PendingOrigin(w: World, l: Label, w1: World, inc: nat)
    requires WorldInv(w, FREE) && Step(w, l, w1, FREE)
    requires ClosePending(w1, inc) && !ClosePending(w, inc)
    ensures l == DropClient(inc) || (CloseParked(w, inc) && !CloseParked(w1, inc))
  {
    StepKeeps(w, l, w1, FREE);
    if HasClose(w1.st.queue, inc) {
      var k :| 0 <= k < |w1.st.queue| && IsClose(w1.st.queue[k], inc);
      QueueOrigin(w, l, w1, FREE, k);
      var e := w1.st.queue[k];
      hide Step, WorldInv;
      assert e !in w.st.queue;
      if l != DropClient(inc) {
        var h :| h in w.st.sockets && e in ParkedOn(w.st.sockets[h]);
        CloseOnSocket(w, h, e, inc, FREE);
        NotParkedToo(w1, inc);
      }
    } else {
      var k :| 0 <= k < |w1.todo| && IsClose(w1.todo[k], inc);
      TodoOrigin(w, l, w1, FREE, k);
    }
  }

  lemma NotParkedToo(w: World, inc: nat)
    requires WorldInv(w, FREE) && ClosePending(w, inc)
    ensures !CloseParked(w, inc)
  {
    var p := PendingPlace(w, inc);
    hide WorldInv;
    if h :| CloseIn(w.st.sockets, h, inc) {
      TokensAgree(w, p, RecvSlotOf(h), inc, FREE);
    }
  }

  /** How many closes of `inc` the driver handled in the first `n` steps. */
  ghost function HandledCloses(ws: seq<World>, ls: seq<Label>, inc: nat, n: nat): nat
    requires n <= |ls| < |ws|
  {
    if n == 0 then 0
    else HandledCloses(ws, ls, inc, n - 1)
         + Bit(HandlesClose(ws[n - 1], ls[n - 1], inc))
  }

  /** How often in the first `n` steps a waiting close of `inc` left its receive slot. */
  ghost function CloseWakeups(ws: seq<World>, inc: nat, n: nat): nat
    requires n < |ws|
  {
    if n == 0 then 0
    else CloseWakeups(ws, inc, n - 1)
         + Bit(CloseParked(ws[n - 1], inc) && !CloseParked(ws[n], inc))
  }

  /** The client of `inc` is gone. */
  predicate Abandoned(w: World, inc: nat) { inc in w.st.served && inc !in w.clients }

  lemma StepAbandoned(w: World, l: Label, w1: World, inc: nat)
    requires WorldInv(w, FREE) && Step(w, l, w1, FREE)
    ensures Abandoned(w, inc) ==> Abandoned(w1, inc)
    ensures l == DropClient(inc) ==> !Abandoned(w, inc) && Abandoned(w1, inc)
  {
    StepServed(w, l, w1, FREE, inc);
    if l == DropClient(inc) {
      PlaceIsWell(w, ClientObject(inc), FREE);
    }
    if Delivers(w, l, inc) {
      PlaceIsWell(w, if l.AcceptTcp? then TcpAccept(0) else UdpAccept(0), FREE);
    }
    hide Dispatch, Poll, InitTcp, TryInitUdp, DropSockets, Do, WorldInv;
  }

  predicate HandlesClose(w: World, l: Label, inc: nat) {
    l.HandleNext? && w.todo != [] && IsClose(w.todo[0], inc)
  }

  lemma CloseStep(w: World, l: Label, w1: World, inc: nat)
    requires WorldInv(w, FREE) && Step(w, l, w1, FREE)
    ensures Bit(HandlesClose(w, l, inc)) + Bit(ClosePending(w1, inc)) + Bit(Abandoned(w, inc))
            <= Bit(ClosePending(w, inc)) + Bit(CloseParked(w, inc) && !CloseParked(w1, inc)) + Bit(Abandoned(w1, inc))
  {
    assert l.HandleNext? ==> Enabled(w, HandleNext) && w1 == Next(w, HandleNext);
    hide Step, WorldInv, Next, Enabled, CloseParked, Abandoned;
    StepAbandoned(w, l, w1, inc);
    if ClosePending(w1, inc) && !ClosePending(w, inc) {
      PendingOrigin(w, l, w1, inc);
    }
    if HandlesClose(w, l, inc) {
      HandledCloseIsGone(w, inc, FREE);
      assert HasClose(w.todo, inc);
    }
  }

  lemma {:induction false} ClosesCounted(ws: seq<World>, ls: seq<Label>, inc: nat, n: nat)
    requires Run(ws, ls, FREE) && n <= |ls|
    ensures HandledCloses(ws, ls, inc, n) + Bit(ClosePending(ws[n], inc))
            <= CloseWakeups(ws, inc, n) + Bit(Abandoned(ws[n], inc))
  {
    hide Step, WorldInv, CloseParked, Abandoned, HandlesClose;
    if n == 0 {
      assert !ClosePending(ws[0], inc);
    } else {
      hide ClosePending;
      ClosesCounted(ws, ls, inc, n - 1);
      RunKeeps(ws, ls, FREE, n - 1);
      assert Step(ws[n - 1], ls[n - 1], ws[n - 1 + 1], FREE);
      CloseStep(ws[n - 1], ls[n - 1], ws[n], inc);
    }
  }

  /**
   Closing does not spin: the driver handles at most one close of an incarnation more often than a
   waiting close was woken.
   */
  lemma CloseDoesNotSpin(ws: seq<World>, ls: seq<Label>, inc: nat, n: nat)
    requires Run(ws, ls, FREE) && n <= |ls|
    ensures HandledCloses(ws, ls, inc, n) <= 1 + CloseWakeups(ws, inc, n)
  {
    ClosesCounted(ws, ls, inc, n);
  }

  /**
   Closing completes: a close that is handled finds its own socket, and either the socket leaves the
   table and the registry, which happens exactly when it is a UDP socket or `close` leaves it
   inactive, or the close waits in the receive slot for the next change.
   */
  lemma CloseCompletes(ws: seq<World>, ls: seq<Label>, i: nat, th: TypedHandle, inc: nat)
    requires Run(ws, ls, FREE) && i < |ls|
    requires ls[i] == HandleNext && ws[i].todo != [] && ws[i].todo[0] == Close(th, inc)
    ensures Present(ws[i].st.sockets, th, inc)
    ensures
      var s := ws[i].st.sockets[th.handle];
      var w1 := ws[i + 1];
      if th.Udp? || !S.IsActive(S.CloseState(s.p.state)) then
        th.handle !in w1.st.sockets && th !in w1.st.registered
      else
        && th.handle in w1.st.sockets && w1.st.sockets[th.handle].recvSlot == Some(Close(th, inc))
        && w1.st.sockets[th.handle].p == s.p.(state := S.CloseState(s.p.state))
    ensures !ClosePending(ws[i + 1], inc)
  {
    var w := ws[i];
    RunKeeps(ws, ls, FREE, i);
    assert Step(ws[i], ls[i], ws[i + 1], FREE);
    assert Enabled(w, HandleNext) && ws[i + 1] == Next(w, HandleNext);
    hide Run, Step, Enabled;
    PlaceIsWell(w, Doing(0), FREE);
    HandledCloseIsGone(w, inc, FREE);
    assert th in w.st.registered && Addressed(w.st.sockets[th.handle], w.st.born);
    assert ws[i + 1].st == HandleClose(w.st, th, inc);
    hide WorldInv, Next, CloseTcp, CloseUdp, RegisterRecv, DropRecv, DropSend;
  }
}
