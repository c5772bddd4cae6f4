/**
 Incarnation safety without the discipline: exactly which step makes an operation lose the socket it
 was issued for, and how it can then come to be applied to another one.
 */
module Strays {
  import opened Event
  import opened Operation
  import opened Stack
  import opened Invariant
  import opened Handlers
  import opened Parked
  import opened World
  import opened Steps
  import opened Places
  import opened Frames
  import opened Theorems
  import opened Lifecycle
  import opened Births
  import opened Shutdowns
  import S = Smoltcp

  /** The driver owes the operation, and the socket it was issued for is in the table. */
  ghost predicate AtHome(w: World, o: OpId) {
    o in w.st.ops && w.st.ops[o].stage.Held? && Present(w.st.sockets, w.st.ops[o].target, w.st.ops[o].inc)
  }

  /** The driver owes the operation, and its socket is gone. */
  ghost predicate Stray(w: World, o: OpId) {
    o in w.st.ops && w.st.ops[o].stage.Held? && !Present(w.st.sockets, w.st.ops[o].target, w.st.ops[o].inc)
  }

  ghost predicate Strands(w: World, w1: World, o: OpId) {
    AtHome(w, o) && Stray(w1, o)
  }

  // ---- the guard ----

  predicate OpOf(st: State, e: Event, inc: nat) {
    !e.IsToken() && e.op in st.ops && st.ops[e.op].inc == inc
  }

  predicate HasOpOf(st: State, es: seq<Event>, inc: nat) {
    exists k :: 0 <= k < |es| && OpOf(st, es[k], inc)
  }

  predicate ParksOpOf(st: State, h: Handle, inc: nat) {
    && h in st.sockets
    && ((st.sockets[h].recvSlot.Some? && OpOf(st, st.sockets[h].recvSlot.value, inc))
        || (st.sockets[h].sendSlot.Some? && OpOf(st, st.sockets[h].sendSlot.value, inc)))
  }

  /**
   The driver is about to handle a close that removes its socket, while an operation of that socket
   is later in the batch, or in the channel, or parked on a UDP socket whose closing sends it again.
   */
  predicate LeavesBehind(w: World) {
    && w.todo != [] && Removes(w.st, w.todo[0])
    && var th, inc := w.todo[0].typed, w.todo[0].inc;
    && (HasOpOf(w.st, w.todo[1..], inc) || HasOpOf(w.st, w.st.queue, inc)
        || (th.Udp? && w.st.queueOpen && ParksOpOf(w.st, th.handle, inc)))
  }

  // ---- the close that strands ----

  /** A removing close in hand, in a state of a run: its socket is its own, and is gone afterwards. */
  lemma RemovedByClose(w: World, w1: World)
    requires WorldInv(w, FREE) && Step(w, HandleNext, w1, FREE) && Removes(w.st, w.todo[0])
    ensures Present(w.st.sockets, w.todo[0].typed, w.todo[0].inc)
    ensures w.todo[0].typed.handle !in w1.st.sockets
  {
    var h := w.todo[0].typed.handle;
    PlaceIsWell(w, Doing(0), FREE);
    assert Addressed(w.st.sockets[h], w.st.born);
    hide WorldInv, Dispatch, Removes;
    RemovedIsGone(w.st, w.todo[0]);
  }

  /** An operation of the removed socket that is still in some place afterwards is stranded. */
  lemma PlacedIsStranded(w: World, w1: World, p: Place, q: Place, e: Event)
    requires WorldInv(w, FREE) && WorldInv(w1, FREE) && OpsHome(w.st) && Step(w, HandleNext, w1, FREE)
    requires w.todo != [] && Removes(w.st, w.todo[0]) && OpOf(w.st, e, w.todo[0].inc)
    requires ItemAt(w, p) == ItemAt(w1, q) == Some(Operation(e))
    ensures Strands(w, w1, e.op)
  {
    hide WorldInv, Step, ItemAt, HomeOf;
    RemovedByClose(w, w1);
    OwedAt(w, p, e);
    OwedAt(w1, q, e);
    SameTarget(w, e.op, w.todo[0].typed, w.todo[0].inc);
  }

  lemma OwedAt(w: World, p: Place, e: Event)
    requires WorldInv(w, FREE) && ItemAt(w, p) == Some(Operation(e))
    ensures !e.IsToken() && e.op in w.st.ops && w.st.ops[e.op].stage.Held? && w.st.ops[e.op].target == e.Target()
  {
    PlaceIsWell(w, p, FREE);
  }

  /** An operation knows the socket of its incarnation. */
  lemma SameTarget(w: World, o: OpId, th: TypedHandle, inc: nat)
    requires OpsHome(w.st) && o in w.st.ops && w.st.ops[o].inc == inc && Present(w.st.sockets, th, inc)
    ensures w.st.ops[o].target == th
  {
    assert HomeOf(w.st, w.st.ops[o].target, inc);
  }

  /** Closing a UDP socket sends what is parked on it again. */
  lemma UdpCloseEmits(st: State, h: Handle, inc: nat, e: Event)
    requires HasUdp(st, h) && Udp(h) in st.registered && st.sockets[h].p.endpoint.Some? && st.queueOpen
    requires st.sockets[h].recvSlot == Some(e) || st.sockets[h].sendSlot == Some(e)
    requires !e.Shutdown? && (st.sockets[h].sendSlot.Some? ==> !st.sockets[h].sendSlot.value.Shutdown?)
    requires st.sockets[h].recvSlot.Some? ==> !st.sockets[h].recvSlot.value.Shutdown?
    ensures e in HandleClose(st, Udp(h), inc).queue
  {
    hide DropRecv, DropSend;
  }

  lemma QueueStays(w: World, w1: World)
    requires Step(w, HandleNext, w1, FREE)
    ensures w.todo != [] && w1.todo == w.todo[1..] && |w.st.queue| <= |w1.st.queue|
    ensures forall k :: 0 <= k < |w.st.queue| ==> w1.st.queue[k] == w.st.queue[k]
    ensures forall k :: |w.st.queue| <= k < |w1.st.queue| ==> w1.st.queue[k] in ParkedAt(w.st, w.todo[0].Target().handle)
    ensures !w.st.queueOpen ==> w1.st.queue == w.st.queue
  {
    hide Dispatch, SameOps;
    FrameDispatch(w.st, w.todo[0]);
    forall k | 0 <= k < |w.st.queue|
      ensures w1.st.queue[k] == w.st.queue[k]
    {
      assert w1.st.queue[..|w.st.queue|][k] == w.st.queue[k];
    }
  }

  lemma GuardStrands(w: World, w1: World) returns (o: OpId)
    requires WorldInv(w, FREE) && WorldInv(w1, FREE) && OpsHome(w.st) && Step(w, HandleNext, w1, FREE) && LeavesBehind(w)
    ensures Strands(w, w1, o)
  {
    hide WorldInv, Step, OpsHome, Strands;
    var th, inc := w.todo[0].typed, w.todo[0].inc;
    QueueStays(w, w1);
    if HasOpOf(w.st, w.todo[1..], inc) {
      var k :| 0 <= k < |w.todo[1..]| && OpOf(w.st, w.todo[1..][k], inc);
      o := w.todo[1..][k].op;
      PlacedIsStranded(w, w1, Doing(k + 1), Doing(k), w.todo[1..][k]);
    } else if HasOpOf(w.st, w.st.queue, inc) {
      var k :| 0 <= k < |w.st.queue| && OpOf(w.st, w.st.queue[k], inc);
      o := w.st.queue[k].op;
      PlacedIsStranded(w, w1, Queued(k), Queued(k), w.st.queue[k]);
    } else {
      assert th.handle in w.st.sockets;
      var s := w.st.sockets[th.handle];
      var recv := s.recvSlot.Some? && OpOf(w.st, s.recvSlot.value, inc);
      var e := if recv then s.recvSlot.value else s.sendSlot.value;
      o := e.op;
      ParkedEmits(w, w1, e);
      var k :| 0 <= k < |w1.st.queue| && w1.st.queue[k] == e;
      PlacedIsStranded(w, w1, if recv then RecvSlotOf(th.handle) else SendSlotOf(th.handle), Queued(k), e);
    }
  }

  lemma ParkedEmits(w: World, w1: World, e: Event)
    requires WorldInv(w, FREE) && Step(w, HandleNext, w1, FREE) && w.todo != [] && Removes(w.st, w.todo[0])
    requires w.todo[0].typed.Udp? && w.st.queueOpen && !e.IsToken()
    requires var s := w.st.sockets[w.todo[0].typed.handle]; s.recvSlot == Some(e) || s.sendSlot == Some(e)
    ensures e in w1.st.queue
  {
    hide WorldInv, HandleClose, Step;
    CloseInHand(w);
    HandledAsClose(w, w1);
    UdpCloseEmits(w.st, w.todo[0].typed.handle, w.todo[0].inc, e);
  }

  lemma HandledAsClose(w: World, w1: World)
    requires Step(w, HandleNext, w1, FREE) && w.todo != [] && w.todo[0].Close?
    ensures w1.st == HandleClose(w.st, w.todo[0].typed, w.todo[0].inc)
  {
    hide HandleClose;
  }

  lemma CloseInHand(w: World)
    requires WorldInv(w, FREE) && w.todo != [] && w.todo[0].Close?
    ensures var th := w.todo[0].typed;
            && Present(w.st.sockets, th, w.todo[0].inc) && Shape(th.handle, w.st.sockets[th.handle])
            && (th.Udp? ==> w.st.sockets[th.handle].p.endpoint.Some?)
  {
    PlaceIsWell(w, Doing(0), FREE);
    assert Addressed(w.st.sockets[w.todo[0].typed.handle], w.st.born);
  }

  // ---- nothing else strands ----

  /** The event of an operation the driver owes. */
  function EventOf(w: World, o: OpId): Event
    requires o in w.st.ops
  {
    EventFor(w.st.ops[o].kind, w.st.ops[o].target, o)
  }

  lemma OwedSomewhere(w: World, o: OpId) returns (p: Place)
    requires WorldInv(w, FREE) && o in w.st.ops && w.st.ops[o].stage.Held?
    ensures ItemAt(w, p) == Some(Operation(EventOf(w, o)))
    ensures p.Queued? || p.Doing? || (p.RecvSlotOf? && p.h == w.st.ops[o].target.handle)
            || (p.SendSlotOf? && p.h == w.st.ops[o].target.handle)
  {
    p := SomePlace(w, OpItem(w.st.ops, o), FREE);
    PlaceIsWell(w, p, FREE);
    PartPositive(w, p, OpItem(w.st.ops, o));
    assert OpOk(w.st.ops[o]);
  }

  /** A socket about to be removed by a close has no read or write parked on it. */
  lemma RemovedHasNoData(w: World, h: Handle)
    requires WorldInv(w, FREE) && HasTcp(w.st, h) && !S.IsActive(S.CloseState(w.st.sockets[h].p.state))
    ensures w.st.sockets[h].recvSlot.Some? ==> w.st.sockets[h].recvSlot.value.IsToken()
    ensures w.st.sockets[h].sendSlot.Some? ==> w.st.sockets[h].sendSlot.value.IsToken() || w.st.sockets[h].sendSlot.value.Shutdown?
  {
    assert Blocked(w.st.sockets[h]) && Shape(h, w.st.sockets[h]);
  }

  /** What was parked on the removed socket and is still owed afterwards was sent again. */
  lemma SurvivorWasSent(w: World, w1: World, o: OpId, p: Place)
    requires WorldInv(w, FREE) && WorldInv(w1, FREE) && Step(w, HandleNext, w1, FREE) && Removes(w.st, w.todo[0])
    requires o in w.st.ops && o in w1.st.ops && w1.st.ops[o].stage.Held?
    requires w.st.ops[o].target.handle == w.todo[0].typed.handle
    requires (p.RecvSlotOf? || p.SendSlotOf?) && ItemAt(w, p) == Some(Operation(EventOf(w, o)))
    ensures w.st.queueOpen && EventOf(w, o) in ParkedAt(w.st, w.todo[0].typed.handle)
  {
    hide WorldInv, Step, EventFor;
    QueueStays(w, w1);
    SameHandle(w, w1, o);
    RemovedByClose(w, w1);
    var q := OwedSomewhere(w1, o);
    if q.Queued? {
      if q.i < |w.st.queue| {
        OnePlace(w, p, q, FREE);
      }
    } else if q.Doing? {
      assert w1.todo[q.i] == w.todo[q.i + 1];
      OnePlace(w, p, Doing(q.i + 1), FREE);
    }
  }

  lemma SameHandle(w: World, w1: World, o: OpId)
    requires Step(w, HandleNext, w1, FREE) && o in w.st.ops
    ensures o in w1.st.ops
    ensures w1.st.ops[o].target == w.st.ops[o].target && w1.st.ops[o].inc == w.st.ops[o].inc && EventOf(w1, o) == EventOf(w, o)
  {
    hide Step;
    StepSameStreams(w, HandleNext, w1, FREE);
  }

  lemma StrandsGuard(w: World, w1: World, o: OpId)
    requires WorldInv(w, FREE) && WorldInv(w1, FREE) && Step(w, HandleNext, w1, FREE) && Strands(w, w1, o)
    ensures LeavesBehind(w) && w.todo[0] == Close(w.st.ops[o].target, w.st.ops[o].inc)
  {
    hide WorldInv, Step, EventFor;
    var op := w.st.ops[o];
    var h := op.target.handle;
    SameHandle(w, w1, o);
    assert w.todo != [] by { HasNext(w, w1); }
    if !(Removes(w.st, w.todo[0]) && w.todo[0].typed.handle == h) {
      SocketsStay(w, HandleNext, w1, FREE, h);
      assert false;
    }
    RemovedByClose(w, w1);
    var p := OwedSomewhere(w, o);
    OwedAt(w, p, EventOf(w, o));
    if p.Queued? {
      assert OpOf(w.st, w.st.queue[p.i], op.inc);
    } else if p.Doing? {
      assert OpOf(w.st, w.todo[1..][p.i - 1], op.inc);
    } else {
      SurvivorWasSent(w, w1, o, p);
      if op.target.Tcp? {
        RemovedHasNoData(w, h);
      }
    }
  }

  lemma HasNext(w: World, w1: World)
    requires Step(w, HandleNext, w1, FREE)
    ensures w.todo != []
  {
  }

  // ---- theorems ----

  /**
   In any run, with or without the discipline, handling the next event makes an operation that is
   still owed lose its socket if and only if that event is a close that removes the socket while an
   operation of it is later in the batch, in the channel, or parked on a UDP socket and sent again.
   */
  lemma StrandedExactly(ws: seq<World>, ls: seq<Label>, w1: World)
    requires Run(ws, ls, FREE) && Step(ws[|ls|], HandleNext, w1, FREE)
    ensures (exists o :: Strands(ws[|ls|], w1, o)) <==> LeavesBehind(ws[|ls|])
  {
    var w := ws[|ls|];
    RunKeeps(ws, ls, FREE, |ls|);
    RunOrderly(ws, ls, |ls|);
    hide Run, WorldInv, Step, LeavesBehind, Strands;
    StepKeeps(w, HandleNext, w1, FREE);
    if LeavesBehind(w) {
      var o := GuardStrands(w, w1);
    }
    if o :| Strands(w, w1, o) {
      StrandsGuard(w, w1, o);
    }
  }

  /** No other step makes an operation lose its socket, so every stray one went astray by such a close. */
  lemma {:induction false} StrayByClose(ws: seq<World>, ls: seq<Label>, i: nat, o: OpId) returns (j: nat)
    requires Run(ws, ls, FREE) && i < |ws| && Stray(ws[i], o)
    ensures j < i && ls[j].HandleNext? && Strands(ws[j], ws[j + 1], o) && LeavesBehind(ws[j])
    ensures o in ws[j].st.ops && ws[j].st.ops[o].inc == ws[i].st.ops[o].inc && ws[j].st.ops[o].target == ws[i].st.ops[o].target
    ensures ws[j].todo[0] == Close(ws[i].st.ops[o].target, ws[i].st.ops[o].inc)
    ensures ws[i].st.ops[o].target.handle !in ws[j + 1].st.sockets
  {
    hide WorldInv, Step, LeavesBehind, Present;
    if i == 0 {
      assert false;
    } else {
      assert Step(ws[i - 1], ls[i - 1], ws[i - 1 + 1], FREE);
      RunKeeps(ws, ls, FREE, i - 1);
      RunKeeps(ws, ls, FREE, i);
      StepSameStreams(ws[i - 1], ls[i - 1], ws[i], FREE);
      if o in ws[i - 1].st.ops && Stray(ws[i - 1], o) {
        j := StrayByClose(ws, ls, i - 1, o);
      } else {
        j := i - 1;
        GoesAstray(ws[i - 1], ls[i - 1], ws[i], o);
      }
    }
  }

  lemma GoesAstray(w: World, l: Label, w1: World, o: OpId)
    requires WorldInv(w, FREE) && WorldInv(w1, FREE) && Step(w, l, w1, FREE) && Stray(w1, o) && !(o in w.st.ops && Stray(w, o))
    ensures l.HandleNext? && Strands(w, w1, o) && LeavesBehind(w)
    ensures o in w.st.ops && w.todo[0] == Close(w.st.ops[o].target, w.st.ops[o].inc)
    ensures w.st.ops[o].target.handle !in w1.st.sockets
  {
    hide WorldInv, Step;
    WasAtHome(w, l, w1, o);
    StrandsGuard(w, w1, o);
    RemovedByClose(w, w1);
  }

  /** An operation is issued at home, and only the handling of an event takes it away from there. */
  lemma WasAtHome(w: World, l: Label, w1: World, o: OpId)
    requires WorldInv(w, FREE) && Step(w, l, w1, FREE) && Stray(w1, o) && !(o in w.st.ops && Stray(w, o))
    ensures AtHome(w, o) && l.HandleNext?
  {
    hide WorldInv, Step;
    StepSameStreams(w, l, w1, FREE);
    if o !in w.st.ops {
      ClientHome(w, l.inc, FREE);
      SocketsStay(w, l, w1, FREE, w1.st.ops[o].target.handle);
      assert false;
    } else if !l.HandleNext? {
      SocketsStay(w, l, w1, FREE, w1.st.ops[o].target.handle);
      assert false;
    }
  }

  /** A handle that is free and later taken was given to the socket of some packet in between. */
  lemma {:induction false} HandleTaken(ws: seq<World>, ls: seq<Label>, a: nat, b: nat, h: Handle) returns (k: nat)
    requires Run(ws, ls, FREE) && a <= b < |ws| && h !in ws[a].st.sockets && h in ws[b].st.sockets
    ensures a <= k < b && (ls[k].Syn? || ls[k].UdpPacket?) && ls[k].h == h && h !in ws[k].st.sockets && h in ws[k + 1].st.sockets
    decreases b
  {
    assert Step(ws[b - 1], ls[b - 1], ws[b - 1 + 1], FREE);
    BornByPacket(ws[b - 1], ls[b - 1], ws[b], FREE);
    hide Step;
    if h in ws[b - 1].st.sockets {
      k := HandleTaken(ws, ls, a, b - 1, h);
    } else {
      k := b - 1;
    }
  }

  /**
   An operation is about to be applied to another incarnation than its own only after a close removed
   its socket while it was still owed, and a later packet got the same handle.
   */
  lemma MisappliedOnlyAfter(ws: seq<World>, ls: seq<Label>, i: nat) returns (j: nat, k: nat)
    requires Run(ws, ls, FREE) && i < |ws| && ws[i].todo != [] && !ws[i].todo[0].IsToken()
    requires ws[i].todo[0].op in ws[i].st.ops && ws[i].todo[0].Target().handle in ws[i].st.sockets
    requires ws[i].st.sockets[ws[i].todo[0].Target().handle].inc != ws[i].st.ops[ws[i].todo[0].op].inc
    ensures j < k < i && ls[j].HandleNext? && Strands(ws[j], ws[j + 1], ws[i].todo[0].op) && LeavesBehind(ws[j])
    ensures ws[j].todo[0] == Close(ws[i].todo[0].Target(), ws[i].st.ops[ws[i].todo[0].op].inc)
    ensures (ls[k].Syn? || ls[k].UdpPacket?) && ls[k].h == ws[i].todo[0].Target().handle
  {
    var e := ws[i].todo[0];
    RunKeeps(ws, ls, FREE, i);
    hide Step;
    assert ItemAt(ws[i], Doing(0)) == Some(Operation(e));
    OwedAt(ws[i], Doing(0), e);
    hide WorldInv, LeavesBehind, Strands;
    j := StrayByClose(ws, ls, i, e.op);
    k := HandleTaken(ws, ls, j + 1, i, e.Target().handle);
  }

  /**
   In any run a data event whose handle has no socket of its kind is answered that it is not found, its
   buffer is left alone, and so are all sockets.
   */
  lemma GoneSocketAnswered(ws: seq<World>, ls: seq<Label>, i: nat)
    requires Run(ws, ls, FREE) && i < |ls| && ls[i].HandleNext? && ws[i].todo != [] && !ws[i].todo[0].IsControl()
    requires var h := ws[i].todo[0].handle; if ws[i].todo[0].IsTcpData() then !HasTcp(ws[i].st, h) else !HasUdp(ws[i].st, h)
    ensures var o := ws[i].todo[0].op;
            && o in ws[i].st.ops && o in ws[i + 1].st.ops && ws[i + 1].st.sockets == ws[i].st.sockets
            && ws[i + 1].st.ops[o].Answer() == Some(Err(NotFound)) && ws[i + 1].st.ops[o].buf == ws[i].st.ops[o].buf
  {
    var w, e := ws[i], ws[i].todo[0];
    RunKeeps(ws, ls, FREE, i);
    OwedAt(w, Doing(0), e);
    assert e.Target() !in w.st.registered;
    assert Step(ws[i], ls[i], ws[i + 1], FREE);
    hide WorldInv;
    ReplyInThree(Err(NotFound));
  }
}
