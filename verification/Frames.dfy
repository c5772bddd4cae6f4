/**
 What a handler may touch: the channel only grows, and only by closures that were parked on the
 handled socket before the handler started; of the shared buffers only that of the handled operation
 may change; the client halves of the operations are left alone.
 */
module Frames {
  import opened Event
  import opened Operation
  import opened Stack
  import opened World
  import S = Smoltcp

  predicate Emits(before: seq<Event>, after: seq<Event>, xs: set<Event>) {
    && |before| <= |after|
    && after[..|before|] == before
    && forall k :: |before| <= k < |after| ==> after[k] in xs
  }

  /** Buffers and client halves are the same, except for the buffer of `writer`, and nothing is taken up again. */
  predicate SameOps(ops: map<OpId, Op>, ops1: map<OpId, Op>, writer: Option<OpId>) {
    && ops1.Keys == ops.Keys
    && forall o :: o in ops ==>
         && ops1[o].client == ops[o].client && ops1[o].kind == ops[o].kind
         && ops1[o].inc == ops[o].inc && ops1[o].target == ops[o].target
         && (ops1[o].stage.Held? ==> ops[o].stage.Held?)
         && (Some(o) != writer ==> ops1[o].buf == ops[o].buf)
  }

  predicate Frame(st: State, r: State, xs: set<Event>, writer: Option<OpId>) {
    && Emits(st.queue, r.queue, xs) && SameOps(st.ops, r.ops, writer)
    && r.queueOpen == st.queueOpen && (!st.queueOpen ==> r.queue == st.queue)
  }

  /** The channel is untouched. */
  lemma FrameSame(st: State, r: State, xs: set<Event>, writer: Option<OpId>)
    requires r.queue == st.queue && r.queueOpen == st.queueOpen && SameOps(st.ops, r.ops, writer)
    ensures Frame(st, r, xs, writer)
  {
    assert st.queue[..|st.queue|] == st.queue;
  }

  lemma FrameTrans(a: State, b: State, c: State, xs: set<Event>, writer: Option<OpId>)
    requires Frame(a, b, xs, writer) && Frame(b, c, xs, writer)
    ensures Frame(a, c, xs, writer)
  {
    assert c.queue[..|a.queue|] == a.queue by {
      assert c.queue[..|a.queue|] == c.queue[..|b.queue|][..|a.queue|];
    }
    forall k | |a.queue| <= k < |c.queue|
      ensures c.queue[k] in xs
    {
      if k < |b.queue| {
        assert c.queue[k] == c.queue[..|b.queue|][k];
      }
    }
  }

  lemma FrameFire(st: State, e: Event, xs: set<Event>, writer: Option<OpId>)
    requires e.Shutdown? || e in xs
    ensures Frame(st, Fire(st, e), xs, writer)
  {
    assert (st.queue + [e])[..|st.queue|] == st.queue;
    assert st.queue[..|st.queue|] == st.queue;
    FinishSame(st.ops, if e.IsToken() then 0 else e.op, [SendReply(OkUnit), DropSender], writer);
    FinishSame(st.ops, if e.IsToken() then 0 else e.op, [DropBuffer, SendReply(Err(BrokenPipe)), DropSender], writer);
  }

  lemma FinishSame(ops: map<OpId, Op>, o: OpId, plan: seq<Act>, writer: Option<OpId>)
    ensures SameOps(ops, ops, writer) && SameOps(ops, FinishOp(ops, o, plan), writer)
  {
  }

  lemma FrameDiscardSlot(st: State, slot: Option<Event>, xs: set<Event>, writer: Option<OpId>)
    ensures Frame(st, DiscardSlot(st, slot), xs, writer)
  {
    FinishSame(st.ops, if slot.Some? && !slot.value.IsToken() then slot.value.op else 0,
               DropPlan(slot.Some? && slot.value.Shutdown?), writer);
    hide SameOps, FinishOp;
    FrameSame(st, DiscardSlot(st, slot), xs, writer);
  }

  /** The closures parked on a socket that send an event when they run. */
  function ParkedOn(s: S.Socket): set<Event> {
    (if s.recvSlot.Some? then {s.recvSlot.value} else {})
    + (if s.sendSlot.Some? && !s.sendSlot.value.Shutdown? then {s.sendSlot.value} else {})
  }

  lemma FrameFireRecv(st: State, h: Handle, xs: set<Event>, writer: Option<OpId>)
    requires h in st.sockets && (st.sockets[h].recvSlot.Some? ==> st.sockets[h].recvSlot.value in xs)
    ensures Frame(st, FireRecv(st, h), xs, writer)
  {
    var s := st.sockets[h];
    if s.recvSlot.Some? {
      FrameFire(SetSocket(st, h, s.(recvSlot := None)), s.recvSlot.value, xs, writer);
    }
    assert st.queue[..|st.queue|] == st.queue;
  }

  lemma FrameFireSend(st: State, h: Handle, xs: set<Event>, writer: Option<OpId>)
    requires h in st.sockets && (st.sockets[h].sendSlot.Some? ==> st.sockets[h].sendSlot.value.Shutdown? || st.sockets[h].sendSlot.value in xs)
    ensures Frame(st, FireSend(st, h), xs, writer)
  {
    var s := st.sockets[h];
    if s.sendSlot.Some? {
      FrameFire(SetSocket(st, h, s.(sendSlot := None)), s.sendSlot.value, xs, writer);
    }
    assert st.queue[..|st.queue|] == st.queue;
  }

  lemma FrameFireBoth(st: State, h: Handle, xs: set<Event>, writer: Option<OpId>)
    requires h in st.sockets && ParkedOn(st.sockets[h]) <= xs
    ensures Frame(st, FireSend(FireRecv(st, h), h), xs, writer)
  {
    FrameFireRecv(st, h, xs, writer);
    FrameFireSend(FireRecv(st, h), h, xs, writer);
    FrameTrans(st, FireRecv(st, h), FireSend(FireRecv(st, h), h), xs, writer);
  }

  lemma FrameCloseTcp(st: State, h: Handle, xs: set<Event>, writer: Option<OpId>)
    requires HasTcp(st, h) && (S.TransmitOpen(st.sockets[h].p.state) ==> ParkedOn(st.sockets[h]) <= xs)
    ensures Frame(st, CloseTcp(st, h), xs, writer)
  {
    hide FireRecv, FireSend;
    var s := st.sockets[h];
    var st1 := SetSocket(st, h, s.(p := s.p.(state := S.CloseState(s.p.state))));
    if S.TransmitOpen(s.p.state) {
      FrameFireBoth(st1, h, xs, writer);
    }
    assert st.queue[..|st.queue|] == st.queue;
  }

  lemma FrameDropBoth(st: State, h: Handle, xs: set<Event>, writer: Option<OpId>)
    requires h in st.sockets
    ensures Frame(st, DropSend(DropRecv(st, h), h), xs, writer)
  {
    var s := st.sockets[h];
    FrameDiscardSlot(SetSocket(st, h, s.(recvSlot := None)), s.recvSlot, xs, writer);
    var st1 := DropRecv(st, h);
    FrameDiscardSlot(SetSocket(st1, h, st1.sockets[h].(sendSlot := None)), st1.sockets[h].sendSlot, xs, writer);
    FrameTrans(st, st1, DropSend(st1, h), xs, writer);
  }

  lemma FrameRegister(st: State, h: Handle, e: Event, xs: set<Event>, writer: Option<OpId>)
    requires h in st.sockets
    ensures Frame(st, RegisterRecv(st, h, e), xs, writer)
    ensures Frame(st, RegisterSend(st, h, e), xs, writer)
  {
    var s := st.sockets[h];
    FrameDiscardSlot(SetSocket(st, h, s.(recvSlot := Some(e))), s.recvSlot, xs, writer);
    FrameDiscardSlot(SetSocket(st, h, s.(sendSlot := Some(e))), s.sendSlot, xs, writer);
  }

  /** `close` on a stream wakes what was parked before; the closure it registers is not among it. */
  lemma FrameCloseStream(st: State, h: Handle, inc: nat)
    requires HasTcp(st, h)
    ensures Frame(st, CloseStream(st, h, inc), ParkedOn(st.sockets[h]), None)
  {
    hide CloseTcp, RegisterRecv, DropRecv, DropSend;
    var xs := ParkedOn(st.sockets[h]);
    var st1 := CloseTcp(st, h);
    FrameCloseTcp(st, h, xs, None);
    if !S.IsActive(st1.sockets[h].p.state) {
      FrameDropBoth(st1, h, xs, None);
    } else {
      FrameRegister(st1, h, Close(Tcp(h), inc), xs, None);
    }
    FrameTrans(st, st1, CloseStream(st, h, inc), xs, None);
  }

  lemma FrameCloseDatagram(st: State, h: Handle)
    requires HasUdp(st, h)
    ensures Frame(st, CloseDatagram(st, h), ParkedOn(st.sockets[h]), None)
  {
    hide FireRecv, FireSend, DropRecv, DropSend;
    var xs := ParkedOn(st.sockets[h]);
    assert st.queue[..|st.queue|] == st.queue;
    FrameFireBoth(st, h, xs, None);
    FrameDropBoth(CloseUdp(st, h), h, xs, None);
    FrameTrans(st, CloseUdp(st, h), DropSend(DropRecv(CloseUdp(st, h), h), h), xs, None);
  }

  lemma FrameShutdown(st: State, h: Handle, o: OpId)
    requires HasTcp(st, h)
    ensures Frame(st, CloseTcp(RegisterSend(st, h, Shutdown(Tcp(h), o)), h), ParkedOn(st.sockets[h]), None)
  {
    hide RegisterSend, CloseTcp;
    var xs := ParkedOn(st.sockets[h]);
    var st1 := RegisterSend(st, h, Shutdown(Tcp(h), o));
    FrameRegister(st, h, Shutdown(Tcp(h), o), xs, None);
    FrameCloseTcp(st1, h, xs, None);
    FrameTrans(st, st1, CloseTcp(st1, h), xs, None);
  }

  function ParkedAt(st: State, h: Handle): set<Event> {
    if h in st.sockets then ParkedOn(st.sockets[h]) else {}
  }

  lemma FrameLetGo(st: State, o: OpId, plan: seq<Act>, xs: set<Event>, writer: Option<OpId>)
    ensures Frame(st, st, xs, writer) && Frame(st, Panic(st), xs, writer) && Frame(st, LetGo(st, o, plan), xs, writer)
  {
    FinishSame(st.ops, o, plan, writer);
    FrameSame(st, st, xs, writer);
    FrameSame(st, Panic(st), xs, writer);
    FrameSame(st, LetGo(st, o, plan), xs, writer);
  }

  lemma FrameReady(st: State, th: TypedHandle, inc: nat)
    ensures Frame(st, HandleReady(st, th, inc), ParkedAt(st, th.handle), None)
  {
    hide Frame, SameOps, RegisterRecv;
    FinishSame(st.ops, 0, [], None);
    var r := HandleReady(st, th, inc);
    if th.Tcp? && HasTcp(st, th.handle) && !S.MayRecv(st.sockets[th.handle].p) {
      FrameRegister(st, th.handle, Ready(th, inc), ParkedAt(st, th.handle), None);
    } else {
      FrameSame(st, r, ParkedAt(st, th.handle), None);
    }
  }

  lemma FrameControl(st: State, e: Event)
    requires e.IsControl()
    ensures Frame(st, HandleControl(st, e), ParkedAt(st, e.typed.handle), None)
  {
    hide Frame, HandleReady, RegisterSend, CloseTcp, CloseStream, CloseDatagram;
    var h := e.typed.handle;
    FrameLetGo(st, if e.Shutdown? then e.op else 0, [SendReply(Err(Other)), DropSender], ParkedAt(st, h), None);
    if e.Ready? {
      FrameReady(st, e.typed, e.inc);
    } else if HasTcp(st, h) {
      if e.Close? {
        FrameCloseStream(st, h, e.inc);
      } else {
        FrameShutdown(st, h, e.op);
      }
    } else if HasUdp(st, h) {
      FrameCloseDatagram(st, h);
    }
  }

  lemma FrameComplete(st: State, h: Handle, o: OpId, p: S.Proto, buf: seq<Byte>, init: nat, plan: seq<Act>, xs: set<Event>)
    requires h in st.sockets && o in st.ops
    ensures Frame(st, CompleteOp(st, h, o, p, buf, init, plan), xs, Some(o))
  {
    FrameSame(st, CompleteOp(st, h, o, p, buf, init, plan), xs, Some(o));
  }

  lemma FrameTcp(st: State, e: Event)
    requires e.IsTcpData()
    ensures Frame(st, HandleTcp(st, e), ParkedAt(st, e.handle), Some(e.op))
  {
    hide Frame, RegisterRecv, RegisterSend, ReadOutcome, WriteOutcome, CompleteOp;
    var h, o := e.handle, e.op;
    var xs := ParkedAt(st, h);
    FrameLetGo(st, o, [DropBuffer, SendReply(Err(NotFound)), DropSender], xs, Some(o));
    if HasTcp(st, h) && o in st.ops {
      FrameRegister(st, h, e, xs, Some(o));
      var r := if e.Read? then ReadOutcome(st.sockets[h].p, st.ops[o].buf, st.ops[o].init)
               else WriteOutcome(st.sockets[h].p, st.ops[o].buf, st.ops[o].init);
      if r.Complete? {
        FrameComplete(st, h, o, r.proto, r.buf, r.init, r.plan, xs);
      }
    }
  }

  lemma FrameUdp(st: State, e: Event)
    requires e.IsUdpData()
    ensures Frame(st, HandleUdp(st, e), ParkedAt(st, e.handle), Some(e.op))
  {
    hide Frame, RegisterRecv, RegisterSend, RecvOutcome, SendOutcome, CompleteOp;
    var h, o := e.handle, e.op;
    var xs := ParkedAt(st, h);
    FrameLetGo(st, o, [DropBuffer, SendReply(Err(NotFound)), DropSender], xs, Some(o));
    if HasUdp(st, h) && o in st.ops {
      FrameRegister(st, h, e, xs, Some(o));
      var op := st.ops[o];
      var r := if e.Recv? then RecvOutcome(st.sockets[h].p, op.buf, op.init, op.refused)
               else SendOutcome(st.sockets[h].p, e.src, op.buf, op.init, op.refused);
      if r.Complete? {
        FrameComplete(st, h, o, r.proto, r.buf, r.init, r.plan, xs);
      }
    }
  }

  function Writer(e: Event): Option<OpId> {
    if e.IsControl() then None else Some(e.op)
  }

  lemma FrameDispatch(st: State, e: Event)
    ensures Frame(st, Dispatch(st, e), ParkedAt(st, e.Target().handle), Writer(e))
  {
    hide HandleControl, HandleTcp, HandleUdp, Frame;
    if e.IsControl() {
      FrameControl(st, e);
    } else if e.IsTcpData() {
      FrameTcp(st, e);
    } else {
      FrameUdp(st, e);
    }
  }

  lemma FramePoll(st: State, h: Handle, f: S.Effect)
    requires h in st.sockets && S.Possible(st.sockets[h].p, f)
    ensures Frame(st, Poll(st, h, f), ParkedOn(st.sockets[h]), None)
  {
    hide Frame, SameOps, FireRecv, FireSend, S.Affected, S.Possible;
    var s := st.sockets[h];
    var xs := ParkedOn(s);
    var st1 := SetSocket(st, h, s.(p := S.Affected(s.p, f)));
    var st2 := if S.WakesRecv(f) then FireRecv(st1, h) else st1;
    var st3 := if S.WakesSend(f) then FireSend(st2, h) else st2;
    FinishSame(st.ops, 0, [], None);
    FrameSame(st, st1, xs, None);
    FrameSame(st1, st1, xs, None);
    FrameFireRecv(st1, h, xs, None);
    FrameTrans(st, st1, st2, xs, None);
    FrameFireSend(st2, h, xs, None);
    if S.WakesSend(f) {
      FrameTrans(st, st2, st3, xs, None);
    }
  }
}
