/**
 Shutting a stream down. A shutdown is handled at most once, before any close of its stream, because
 its closure answers instead of sending the event again and control events are never reordered among
 each other. So it always meets its own socket, even if the clients do not keep the discipline.
 */
module Shutdowns {
  import opened Event
  import opened Operation
  import opened Stack
  import opened Invariant
  import opened Handlers
  import opened Parked
  import opened World
  import opened Steps
  import opened Places
  import opened Frames
  import opened Theorems
  import opened Lifecycle
  import opened Births
  import S = Smoltcp

  // ---- operations and their sockets ----

  /** An operation belongs to an incarnation that was accepted, and knows the handle of its socket. */
  ghost predicate OpsHome(st: State) {
    forall o :: o in st.ops ==> HomeOf(st, st.ops[o].target, st.ops[o].inc)
  }

  ghost predicate HomeOf(st: State, th: TypedHandle, inc: nat) {
    inc in st.served && forall h :: h in st.sockets && st.sockets[h].inc == inc ==> st.sockets[h].Typed(h) == th
  }

  /** The step leaves the operations there are with their streams. */
  predicate SameStreams(ops: map<OpId, Op>, ops1: map<OpId, Op>) {
    forall o :: o in ops ==> o in ops1 && ops1[o].kind == ops[o].kind && ops1[o].inc == ops[o].inc && ops1[o].target == ops[o].target
                             && (ops1[o].stage.Held? ==> ops[o].stage.Held?)
  }

  predicate OfDriver(l: Label) {
    l.Syn? || l.UdpPacket? || l.PollOne? || l.HandleNext? || l.DropStack? || l.DropGenerator?
  }

  lemma DriverSameStreams(w: World, l: Label)
    requires Enabled(w, l) && OfDriver(l)
    ensures SameStreams(w.st.ops, Next(w, l).st.ops) && Next(w, l).st.ops.Keys == w.st.ops.Keys
  {
    hide Dispatch, Poll, Emits, InitTcp, TryInitUdp, DropSockets, DiscardAll;
    match l
    case HandleNext => FrameDispatch(w.st, w.todo[0]);
    case PollOne(h, f) => FramePoll(w.st, h, f);
    case DropStack => DiscardSameStreams(w.st, w.todo); DropSameStreams(DiscardAll(w.st, w.todo));
    case DropGenerator(n) => DiscardSameStreams(w.st.(queue := w.st.queue[..n], queueOpen := false), w.st.queue[n..]);
    case Syn(dst, h) => InitSameOps(w.st, dst, h);
    case UdpPacket(dst, h) => InitSameOps(w.st, dst, h);
  }

  lemma IssueSameStreams(w: World, l: Label)
    requires Enabled(w, l) && l.Issue?
    ensures SameStreams(w.st.ops, Next(w, l).st.ops)
    ensures forall o :: o in Next(w, l).st.ops && o !in w.st.ops ==> l.o == o
    ensures l.inc in w.clients && l.o in Next(w, l).st.ops && Next(w, l).st.ops[l.o].inc == l.inc
            && Next(w, l).st.ops[l.o].target == w.clients[l.inc].typed
  {
    hide Issued, IssueRefused, OpOk, EventFor;
    IssuedOk(l.kind, w.clients[l.inc].typed, l.inc, l.buf, l.refused);
  }

  lemma ClientSameStreams(w: World, l: Label)
    requires Enabled(w, l) && !OfDriver(l)
    ensures SameStreams(w.st.ops, Next(w, l).st.ops)
    ensures forall o :: o in Next(w, l).st.ops && o !in w.st.ops ==> l.Issue? && l.o == o && l.inc in w.clients
    ensures l.Issue? ==> l.o in Next(w, l).st.ops && Next(w, l).st.ops[l.o].inc == l.inc
                         && Next(w, l).st.ops[l.o].target == w.clients[l.inc].typed
  {
    hide Do, Dispatch, Poll, InitTcp, TryInitUdp, DropSockets, DiscardAll, Phased, Issued, IssueRefused, EventFor;
    if l.Issue? {
      IssueSameStreams(w, l);
    }
  }

  lemma StepSameStreams(w: World, l: Label, w1: World, d: Mode)
    requires Step(w, l, w1, d)
    ensures SameStreams(w.st.ops, w1.st.ops)
    ensures forall o :: o in w1.st.ops && o !in w.st.ops ==>
              && l.Issue? && l.o == o && l.inc in w.clients
              && w1.st.ops[o].inc == l.inc && w1.st.ops[o].target == w.clients[l.inc].typed
  {
    hide Enabled, Next, SameStreams, Allowed;
    if OfDriver(l) {
      DriverSameStreams(w, l);
    } else {
      ClientSameStreams(w, l);
    }
  }

  lemma DiscardSameStreams(st: State, es: seq<Event>)
    ensures SameStreams(st.ops, DiscardAll(st, es).ops) && DiscardAll(st, es).ops.Keys == st.ops.Keys
  {
    DiscardAllFrame(st, es);
  }

  lemma DropSameStreams(st: State)
    ensures SameStreams(st.ops, DropSockets(st).ops) && DropSockets(st).ops.Keys == st.ops.Keys
  {
    hide ParkedOp;
  }

  /** A live client stands for a socket in the table that was handed out. */
  lemma ClientHome(w: World, inc: nat, d: Mode)
    requires WorldInv(w, d) && inc in w.clients
    ensures Present(w.st.sockets, w.clients[inc].typed, inc) && HomeOf(w.st, w.clients[inc].typed, inc)
  {
    PlaceIsWell(w, ClientObject(inc), d);
  }

  lemma StepHomeOf(w: World, l: Label, w1: World, d: Mode, th: TypedHandle, inc: nat)
    requires WorldInv(w, d) && Step(w, l, w1, d) && HomeOf(w.st, th, inc)
    ensures HomeOf(w1.st, th, inc)
  {
    assert inc < |w.st.born|;
    hide WorldInv;
    BornByPacket(w, l, w1, d);
    StepServed(w, l, w1, d, inc);
    forall h | h in w1.st.sockets && w1.st.sockets[h].inc == inc
      ensures w1.st.sockets[h].Typed(h) == th
    {
      if l.HandleNext? && Removes(w.st, w.todo[0]) && w.todo[0].typed.handle == h {
        RemovedIsGone(w.st, w.todo[0]);
      } else {
        SocketsStay(w, l, w1, d, h);
      }
    }
  }

  lemma RemovedIsGone(st: State, e: Event)
    requires Removes(st, e) && e.typed.handle in st.sockets && st.sockets[e.typed.handle].Typed(e.typed.handle) == e.typed
    requires e.typed.Udp? ==> st.sockets[e.typed.handle].p.endpoint.Some?
    ensures e.typed.handle !in Dispatch(st, e).sockets
  {
    hide CloseTcp, CloseUdp, DropRecv, DropSend;
  }

  // ---- shutdowns come before closes ----

  /** The control events on their way to the driver, in the order in which it will handle them. */
  function Pending(w: World): seq<Event> {
    Controls(w.todo) + Controls(w.st.queue)
  }

  /** The operation is on its own socket, and no close of that socket is among `before`. */
  ghost predicate Ahead(st: State, e: Event, before: seq<Event>)
    requires e.Shutdown?
  {
    && e.op in st.ops && Present(st.sockets, e.typed, st.ops[e.op].inc)
    && forall j :: 0 <= j < |before| ==> !IsClose(before[j], st.ops[e.op].inc)
  }

  ghost predicate ShutdownsAhead(st: State, es: seq<Event>)
    requires forall k :: 0 <= k < |es| ==> es[k].IsControl()
  {
    forall k :: 0 <= k < |es| && es[k].Shutdown? ==> Ahead(st, es[k], es[..k])
  }

  lemma PendingControls(w: World)
    ensures forall k :: 0 <= k < |Pending(w)| ==> Pending(w)[k].IsControl() && (Pending(w)[k] in w.todo || Pending(w)[k] in w.st.queue)
  {
    ControlsMembers(w.todo);
    ControlsMembers(w.st.queue);
  }

  ghost predicate Orderly(w: World) {
    && OpsHome(w.st)
    && (forall k :: 0 <= k < |Pending(w)| ==> Pending(w)[k].IsControl())
    && ShutdownsAhead(w.st, Pending(w))
  }

  ghost predicate Calm(es: seq<Event>) {
    forall k :: 0 <= k < |es| ==> es[k].IsControl() && !es[k].Shutdown?
  }

  /**
   The pending control events change by a part that is taken off the front or cut off the end, and
   by others that come to the end. The sockets of the shutdowns that are left stay.
   */
  lemma AheadFlows(st: State, es: seq<Event>, st1: State, from: nat, to: nat, more: seq<Event>)
    requires (forall k :: 0 <= k < |es| ==> es[k].IsControl()) && ShutdownsAhead(st, es)
    requires from <= to <= |es| && Calm(more) && SameStreams(st.ops, st1.ops)
    requires forall k :: from <= k < to && es[k].Shutdown? && Ahead(st, es[k], es[..k]) ==>
               Present(st1.sockets, es[k].typed, st.ops[es[k].op].inc)
    ensures forall k :: 0 <= k < |es[from..to] + more| ==> (es[from..to] + more)[k].IsControl()
    ensures ShutdownsAhead(st1, es[from..to] + more)
  {
    var n, es1 := to - from, es[from..to] + more;
    forall k | 0 <= k < |es1| && es1[k].Shutdown?
      ensures Ahead(st1, es1[k], es1[..k])
    {
      assert k < n && es1[k] == es[from + k];
      assert Ahead(st, es[from + k], es[..from + k]);
      forall j | 0 <= j < k
        ensures !IsClose(es1[..k][j], st.ops[es1[k].op].inc)
      {
        assert es1[..k][j] == es[..from + k][from + j];
      }
    }
  }

  /** What was added at the end of a channel. */
  lemma AddedTo(queue: seq<Event>, queue1: seq<Event>) returns (more: seq<Event>)
    requires |queue| <= |queue1| && queue1[..|queue|] == queue
    requires forall k :: |queue| <= k < |queue1| ==> !queue1[k].Shutdown?
    ensures Controls(queue1) == Controls(queue) + more && Calm(more)
  {
    var tail := queue1[|queue|..];
    assert queue1 == queue + tail;
    ControlsConcat(queue, tail);
    ControlsMembers(tail);
    more := Controls(tail);
  }

  /** No shutdown is parked in a way that would send it again. */
  lemma ParkedNoShutdown(w: World, h: Handle, d: Mode)
    requires WorldInv(w, d)
    ensures forall e :: e in ParkedAt(w.st, h) ==> !e.Shutdown?
  {
    if h in w.st.sockets {
      assert Shape(h, w.st.sockets[h]);
    }
  }

  lemma Pieces(a: seq<Event>, b: seq<Event>, c: seq<Event>)
    ensures a + (b + c) == (a + b)[0..|a + b|] + c
    ensures (a + b)[|a|..|a + b|] + [] == [] + b
    ensures a + b == (a + (b + c))[0..|a| + |b|] + []
    ensures a != [] ==> a[1..] + (b + c) == (a + b)[1..|a + b|] + c
  {
  }

  /** The channel only grows, and by nothing that shuts down. */
  lemma WakeFlows(w: World, l: Label) returns (from: nat, more: seq<Event>)
    requires WorldInv(w, FREE) && Enabled(w, l) && (l.HandleNext? || l.PollOne?)
    ensures from <= |Pending(w)| && Calm(more) && Pending(Next(w, l)) == Pending(w)[from..|Pending(w)|] + more
    ensures l.HandleNext? && w.todo[0].IsControl() ==> from == 1
  {
    hide WorldInv, Dispatch, Poll, SameOps, Controls, S.Possible;
    var q, t := w.st.queue, Controls(w.todo);
    from := 0;
    if l.HandleNext? {
      ParkedNoShutdown(w, w.todo[0].Target().handle, FREE);
      FrameDispatch(w.st, w.todo[0]);
      from := if w.todo[0].IsControl() then 1 else 0;
      HeadControl(w.todo);
    } else {
      ParkedNoShutdown(w, l.h, FREE);
      FramePoll(w.st, l.h, l.effect);
    }
    more := AddedTo(q, Next(w, l).st.queue);
    Pieces(t, Controls(q), more);
  }

  lemma DriverFlows(w: World, l: Label) returns (from: nat, to: nat, more: seq<Event>)
    requires WorldInv(w, FREE) && Enabled(w, l) && OfDriver(l)
    ensures from <= to <= |Pending(w)| && Calm(more) && Pending(Next(w, l)) == Pending(w)[from..to] + more
    ensures l.HandleNext? && w.todo[0].IsControl() ==> from == 1
  {
    hide WorldInv, Dispatch, Poll, DropSockets, Controls, InitTcp, TryInitUdp, DiscardAll, SameOps;
    var q, t := w.st.queue, Controls(w.todo);
    from, to, more := 0, |Pending(w)|, [];
    match l
    case HandleNext => from, more := WakeFlows(w, l);
    case PollOne(_, _) => from, more := WakeFlows(w, l);
    case DropStack =>
      DiscardAllFrame(w.st, w.todo);
      DropSocketsServed(DiscardAll(w.st, w.todo));
      from := |t|;
      NoControls();
      Pieces(t, Controls(q), []);
    case DropGenerator(n) =>
      DiscardAllFrame(w.st.(queue := q[..n], queueOpen := false), q[n..]);
      assert q == q[..n] + q[n..];
      ControlsConcat(q[..n], q[n..]);
      to := |t| + |Controls(q[..n])|;
      Pieces(t, Controls(q[..n]), Controls(q[n..]));
    case Syn(dst, h) =>
      InitSameOps(w.st, dst, h);
      Pieces(t, Controls(q), []);
    case UdpPacket(dst, h) =>
      InitSameOps(w.st, dst, h);
      assert q[..|q|] == q;
      more := AddedTo(q, Next(w, l).st.queue);
      Pieces(t, Controls(q), more);
  }

  lemma NoControls()
    ensures Controls([]) == []
  {
  }

  lemma HeadControl(es: seq<Event>)
    requires es != []
    ensures Controls(es) == if es[0].IsControl() then [es[0]] + Controls(es[1..]) else Controls(es[1..])
  {
  }

  /** A client step adds at most a Close, or the Shutdown that it issues. */
  lemma ClientFlows(w: World, l: Label) returns (more: seq<Event>)
    requires Enabled(w, l) && !OfDriver(l)
    ensures Pending(Next(w, l)) == Pending(w) + more
    ensures Calm(more) || (l.Issue? && more == [Shutdown(w.clients[l.inc].typed, l.o)])
  {
    hide Do, Controls, Phased, Issued, IssueRefused, Dispatch, Poll, InitTcp, TryInitUdp, DropSockets, DiscardAll;
    var q, t := w.st.queue, Controls(w.todo);
    more := [];
    assert t + Controls(q) + [] == t + Controls(q);
    match l
    case TakeBatch(n) =>
      assert q == q[..n] + q[n..];
      ControlsConcat(q[..n], q[n..]);
      ControlsPhased(q[..n]);
      NoControls();
    case Issue(o, inc, kind, buf, refused) =>
      if w.st.queueOpen {
        var e := EventFor(kind, w.clients[inc].typed, o);
        SplitPush(q, e);
        more := if e.IsControl() then [e] else [];
      }
    case DropClient(inc) =>
      if w.st.queueOpen {
        var e := Close(w.clients[inc].typed, inc);
        SplitPush(q, e);
        more := [e];
      }
    case _ =>
  }

  /** While a client is alive no close of its socket is on its way. */
  lemma NoCloseWhileLive(w: World, inc: nat, d: Mode)
    requires WorldInv(w, d) && inc in w.clients
    ensures forall j :: 0 <= j < |Pending(w)| ==> !IsClose(Pending(w)[j], inc)
  {
    PendingControls(w);
    hide WorldInv, Pending;
    assert TokenAt(w, ClientObject(inc), inc);
    forall j | 0 <= j < |Pending(w)|
      ensures !IsClose(Pending(w)[j], inc)
    {
      if IsClose(Pending(w)[j], inc) {
        assert ClosePending(w, inc);
        var p := PendingPlace(w, inc);
        TokensAgree(w, p, ClientObject(inc), inc, d);
      }
    }
  }

  lemma StepHome(w: World, l: Label, w1: World)
    requires WorldInv(w, FREE) && OpsHome(w.st) && Step(w, l, w1, FREE)
    ensures OpsHome(w1.st)
  {
    hide WorldInv, Step, HomeOf;
    StepSameStreams(w, l, w1, FREE);
    forall o | o in w1.st.ops
      ensures HomeOf(w1.st, w1.st.ops[o].target, w1.st.ops[o].inc)
    {
      if o !in w.st.ops {
        ClientHome(w, l.inc, FREE);
      }
      StepHomeOf(w, l, w1, FREE, w1.st.ops[o].target, w1.st.ops[o].inc);
    }
  }

  /** A socket that a pending shutdown is for is not removed before. */
  lemma AheadStays(w: World, l: Label, w1: World, k: nat)
    requires WorldInv(w, FREE) && Step(w, l, w1, FREE) && k < |Pending(w)| && Pending(w)[k].Shutdown?
    requires Ahead(w.st, Pending(w)[k], Pending(w)[..k])
    requires l.HandleNext? && w.todo[0].IsControl() ==> k >= 1
    ensures Present(w1.st.sockets, Pending(w)[k].typed, w.st.ops[Pending(w)[k].op].inc)
  {
    var e := Pending(w)[k];
    var h := e.typed.handle;
    if l.HandleNext? && w.todo[0].IsControl() {
      NextControl(w, k);
    }
    hide WorldInv, Pending;
    assert !(l.HandleNext? && Removes(w.st, w.todo[0]) && w.todo[0].typed.handle == h);
    SocketsStay(w, l, w1, FREE, h);
  }

  /** The control event in hand is the first pending one, and a close in hand is of a socket in the table. */
  lemma NextControl(w: World, k: nat)
    requires WorldInv(w, FREE) && w.todo != [] && w.todo[0].IsControl() && 1 <= k < |Pending(w)|
    ensures Pending(w)[..k][0] == w.todo[0]
    ensures w.todo[0].Close? ==> Present(w.st.sockets, w.todo[0].typed, w.todo[0].inc)
  {
    HeadControl(w.todo);
    PlaceIsWell(w, Doing(0), FREE);
  }

  lemma DriverOrderly(w: World, l: Label, w1: World)
    requires WorldInv(w, FREE) && Orderly(w) && Step(w, l, w1, FREE) && OfDriver(l)
    ensures Orderly(w1)
  {
    hide WorldInv, Enabled, Next;
    StepHome(w, l, w1);
    StepSameStreams(w, l, w1, FREE);
    var from, to, more := DriverFlows(w, l);
    forall k | from <= k < to && Pending(w)[k].Shutdown? && Ahead(w.st, Pending(w)[k], Pending(w)[..k])
      ensures Present(w1.st.sockets, Pending(w)[k].typed, w.st.ops[Pending(w)[k].op].inc)
    {
      AheadStays(w, l, w1, k);
    }
    hide Pending, OpsHome;
    AheadFlows(w.st, Pending(w), w1.st, from, to, more);
  }

  lemma ClientOrderly(w: World, l: Label, w1: World)
    requires WorldInv(w, FREE) && Orderly(w) && Step(w, l, w1, FREE) && !OfDriver(l)
    ensures Orderly(w1)
  {
    hide WorldInv, Enabled, Next;
    StepHome(w, l, w1);
    StepSameStreams(w, l, w1, FREE);
    var more := ClientFlows(w, l);
    var es, es1 := Pending(w), Pending(w1);
    hide Pending, OpsHome;
    forall k | 0 <= k < |es| && es[k].Shutdown? && Ahead(w.st, es[k], es[..k])
      ensures Present(w1.st.sockets, es[k].typed, w.st.ops[es[k].op].inc)
    {
      AheadStays(w, l, w1, k);
    }
    assert es == es[0..|es|];
    AheadFlows(w.st, es, w1.st, 0, |es|, if Calm(more) then more else []);
    if !Calm(more) {
      NewAhead(w, l, w1);
      assert es + [] == es && es1 == es + more && es1[..|es|] == es;
      forall k | 0 <= k < |es1| && es1[k].Shutdown?
        ensures Ahead(w1.st, es1[k], es1[..k])
      {
        if k < |es| {
          assert es1[..k] == es[..k] && Ahead(w1.st, es[k], es[..k]);
        }
      }
    }
  }

  /** A shutdown that is issued is for a live client's socket. */
  lemma NewAhead(w: World, l: Label, w1: World)
    requires WorldInv(w, FREE) && Step(w, l, w1, FREE) && l.Issue?
    ensures Ahead(w1.st, Shutdown(w.clients[l.inc].typed, l.o), Pending(w))
  {
    ClientSameStreams(w, l);
    ClientHome(w, l.inc, FREE);
    NoCloseWhileLive(w, l.inc, FREE);
    hide WorldInv, Pending;
    SocketsStay(w, l, w1, FREE, w.clients[l.inc].typed.handle);
  }

  lemma {:induction false} RunOrderly(ws: seq<World>, ls: seq<Label>, i: nat)
    requires Run(ws, ls, FREE) && i < |ws|
    ensures Orderly(ws[i])
  {
    hide Step, WorldInv;
    if i == 0 {
      assert Pending(ws[0]) == [];
    } else {
      hide Orderly;
      RunOrderly(ws, ls, i - 1);
      RunKeeps(ws, ls, FREE, i - 1);
      assert Step(ws[i - 1], ls[i - 1], ws[i - 1 + 1], FREE);
      if OfDriver(ls[i - 1]) {
        DriverOrderly(ws[i - 1], ls[i - 1], ws[i]);
      } else {
        ClientOrderly(ws[i - 1], ls[i - 1], ws[i]);
      }
    }
  }

  // ---- theorems ----

  /**
   In every run, with or without the discipline, a shutdown is handled on the very socket it was
   issued for, which is a TCP socket in the table and was accepted. So the arm for an unknown handle
   is never taken.
   */
  lemma ShutdownOnOwnSocket(ws: seq<World>, ls: seq<Label>, i: nat, th: TypedHandle, o: OpId)
    requires Run(ws, ls, FREE) && i < |ws| && ws[i].todo != [] && ws[i].todo[0] == Shutdown(th, o)
    ensures o in ws[i].st.ops && Present(ws[i].st.sockets, th, ws[i].st.ops[o].inc) && ws[i].st.ops[o].inc in ws[i].st.served
    ensures th.Tcp? && th in ws[i].st.registered
  {
    var w := ws[i];
    RunOrderly(ws, ls, i);
    RunKeeps(ws, ls, FREE, i);
    HeadControl(w.todo);
    assert Pending(w)[0] == w.todo[0] && Ahead(w.st, Pending(w)[0], Pending(w)[..0]);
    PlaceIsWell(w, Doing(0), FREE);
    assert OpOk(w.st.ops[o]) && HomeOf(w.st, w.st.ops[o].target, w.st.ops[o].inc);
  }

  // ---- what a shutdown does ----

  /** The event, if any, is not about operation `o`. */
  predicate NotAbout(slot: Option<Event>, o: OpId) {
    slot.Some? && !slot.value.IsToken() ==> slot.value.op != o
  }

  lemma RegisterLeaves(st: State, h: Handle, e: Event, o: OpId)
    requires h in st.sockets && o in st.ops
    ensures o in RegisterSend(st, h, e).ops
    ensures NotAbout(st.sockets[h].sendSlot, o) ==> RegisterSend(st, h, e).ops[o] == st.ops[o]
    ensures st.sockets[h].sendSlot.Some? && st.sockets[h].sendSlot.value.Write? && st.sockets[h].sendSlot.value.op == o ==>
              RegisterSend(st, h, e).ops[o] == Finish(st.ops[o], [DropBuffer, DropSender])
  {
  }

  lemma FireRecvLeaves(st: State, h: Handle, o: OpId)
    requires h in st.sockets && o in st.ops && NotAbout(st.sockets[h].recvSlot, o)
    ensures o in FireRecv(st, h).ops && FireRecv(st, h).ops[o] == st.ops[o]
  {
  }

  lemma FireSendShutdown(st: State, h: Handle, th: TypedHandle, o: OpId, v: OpId)
    requires h in st.sockets && o in st.ops && v in st.ops && st.sockets[h].sendSlot == Some(Shutdown(th, o))
    ensures o in FireSend(st, h).ops && FireSend(st, h).ops[o] == Finish(st.ops[o], [SendReply(OkUnit), DropSender])
    ensures v in FireSend(st, h).ops && (v != o ==> FireSend(st, h).ops[v] == st.ops[v])
  {
  }

  /** `close` right after the shutdown closure was registered. */
  lemma CloseAfterRegister(st: State, h: Handle, o: OpId, v: OpId)
    requires HasTcp(st, h) && o in st.ops && v in st.ops && st.sockets[h].sendSlot == Some(Shutdown(Tcp(h), o))
    requires NotAbout(st.sockets[h].recvSlot, o) && NotAbout(st.sockets[h].recvSlot, v)
    ensures
      var r := CloseTcp(st, h);
      && o in r.ops && v in r.ops
      && r.ops[o] == (if S.TransmitOpen(st.sockets[h].p.state) then Finish(st.ops[o], [SendReply(OkUnit), DropSender]) else st.ops[o])
      && (v != o ==> r.ops[v] == st.ops[v])
      && r.sockets[h].sendSlot == (if S.TransmitOpen(st.sockets[h].p.state) then None else Some(Shutdown(Tcp(h), o)))
  {
    hide FireRecv, FireSend;
    var s := st.sockets[h];
    var st1 := SetSocket(st, h, s.(p := s.p.(state := S.CloseState(s.p.state))));
    if S.TransmitOpen(s.p.state) {
      FireRecvLeaves(st1, h, o);
      FireRecvLeaves(st1, h, v);
      FireSendShutdown(FireRecv(st1, h), h, Tcp(h), o, v);
    }
  }

  lemma ShutdownEffect(st: State, h: Handle, o: OpId, v: OpId)
    requires HasTcp(st, h) && Tcp(h) in st.registered && o in st.ops && v in st.ops
    requires NotAbout(st.sockets[h].recvSlot, o) && NotAbout(st.sockets[h].recvSlot, v) && NotAbout(st.sockets[h].sendSlot, o)
    ensures
      var r := HandleShutdown(st, Tcp(h), o);
      && o in r.ops && v in r.ops && h in r.sockets
      && r.ops[o] == (if S.TransmitOpen(st.sockets[h].p.state) then Finish(st.ops[o], [SendReply(OkUnit), DropSender]) else st.ops[o])
      && r.sockets[h].sendSlot == (if S.TransmitOpen(st.sockets[h].p.state) then None else Some(Shutdown(Tcp(h), o)))
      && (st.sockets[h].sendSlot == Some(Write(h, v)) ==> r.ops[v] == Finish(st.ops[v], [DropBuffer, DropSender]))
  {
    hide RegisterSend, CloseTcp;
    var e := Shutdown(Tcp(h), o);
    RegisterLeaves(st, h, e, o);
    RegisterLeaves(st, h, e, v);
    CloseAfterRegister(RegisterSend(st, h, e), h, o, v);
  }

  lemma ShutdownCloses(st: State, h: Handle, o: OpId)
    requires HasTcp(st, h) && Tcp(h) in st.registered
    ensures var p, r := st.sockets[h].p, HandleShutdown(st, Tcp(h), o);
            h in r.sockets && r.sockets[h].p == p.(state := S.CloseState(p.state))
  {
    hide RegisterSend, FireRecv, FireSend;
  }

  lemma SlotsAreOthers(w: World, h: Handle, d: Mode)
    requires WorldInv(w, d) && w.todo != [] && h in w.st.sockets
    ensures w.st.sockets[h].Typed(h) in w.st.registered
    ensures !w.todo[0].IsToken() ==> w.todo[0].op in w.st.ops && w.st.ops[w.todo[0].op].stage.Held?
    ensures !w.todo[0].IsToken() ==> NotAbout(w.st.sockets[h].recvSlot, w.todo[0].op) && NotAbout(w.st.sockets[h].sendSlot, w.todo[0].op)
    ensures
      var slot := w.st.sockets[h].sendSlot;
      slot.Some? && slot.value.Write? ==>
        && slot.value.op in w.st.ops && slot == Some(Write(h, slot.value.op))
        && NotAbout(w.st.sockets[h].recvSlot, slot.value.op)
  {
    var s := w.st.sockets[h];
    assert Shape(h, s);
    PlaceIsWell(w, Doing(0), d);
    if s.recvSlot.Some? {
      PlaceIsWell(w, RecvSlotOf(h), d);
      if ItemAt(w, RecvSlotOf(h)) == ItemAt(w, Doing(0)) { OnePlace(w, RecvSlotOf(h), Doing(0), d); }
    }
    if s.sendSlot.Some? {
      PlaceIsWell(w, SendSlotOf(h), d);
      if ItemAt(w, SendSlotOf(h)) == ItemAt(w, Doing(0)) { OnePlace(w, SendSlotOf(h), Doing(0), d); }
      if s.recvSlot.Some? && ItemAt(w, SendSlotOf(h)) == ItemAt(w, RecvSlotOf(h)) { OnePlace(w, SendSlotOf(h), RecvSlotOf(h), d); }
    }
  }

  /**
   A shutdown is answered by the very call that handles it exactly when the transmit half is still
   open, because the closure is registered before `close` wakes it; otherwise it is parked without an
   answer. A write that it displaces from the send slot is let go of without an answer, so its
   client learns about it (`LetGoCompletes`).
   */
  lemma ShutdownAnswered(ws: seq<World>, ls: seq<Label>, i: nat, h: Handle, o: OpId)
    requires Run(ws, ls, FREE) && i < |ls| && ls[i] == HandleNext
    requires ws[i].todo != [] && ws[i].todo[0] == Shutdown(Tcp(h), o)
    ensures HasTcp(ws[i].st, h) && o in ws[i].st.ops && o in ws[i + 1].st.ops && h in ws[i + 1].st.sockets
    ensures S.TransmitOpen(ws[i].st.sockets[h].p.state) <==> ws[i + 1].st.ops[o] == Finish(ws[i].st.ops[o], [SendReply(OkUnit), DropSender])
    ensures !S.TransmitOpen(ws[i].st.sockets[h].p.state) <==> ws[i + 1].st.sockets[h].sendSlot == Some(Shutdown(Tcp(h), o))
    ensures var p := ws[i].st.sockets[h].p; ws[i + 1].st.sockets[h].p == p.(state := S.CloseState(p.state))
    ensures
      var slot := ws[i].st.sockets[h].sendSlot;
      slot.Some? && slot.value.Write? ==>
        var v := slot.value.op;
        v in ws[i].st.ops && v in ws[i + 1].st.ops && ws[i + 1].st.ops[v] == Finish(ws[i].st.ops[v], [DropBuffer, DropSender])
  {
    var w := ws[i];
    ShutdownOnOwnSocket(ws, ls, i, Tcp(h), o);
    RunKeeps(ws, ls, FREE, i);
    assert Step(ws[i], ls[i], ws[i + 1], FREE);
    assert ws[i + 1].st == HandleShutdown(w.st, Tcp(h), o);
    hide Run, Step, WorldInv, HandleShutdown;
    SlotsAreOthers(w, h, FREE);
    ShutdownCloses(w.st, h, o);
    var slot := w.st.sockets[h].sendSlot;
    ShutdownEffect(w.st, h, o, if slot.Some? && slot.value.Write? then slot.value.op else o);
  }
}
