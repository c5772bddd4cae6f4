/**
 What a poll does to the closures parked on the socket it changes: each one it wakes leaves its slot
 and sends its event again, answers its shutdown, or fails its operation when the channel is closed.
 */
module Wakers {
  import opened Event
  import opened Operation
  import opened Stack
  import opened Invariant
  import opened Parked
  import opened World
  import opened Steps
  import opened Places
  import opened Theorems
  import opened Shutdowns
  import opened Refinement
  import Strays
  import S = Smoltcp

  /** The events that the woken closures of a socket send, the receive slot first. */
  function Resent(s: S.Socket, f: S.Effect): seq<Event> {
    (if S.WakesRecv(f) && s.recvSlot.Some? then [s.recvSlot.value] else [])
    + (if S.WakesSend(f) && s.sendSlot.Some? && !s.sendSlot.value.Shutdown? then [s.sendSlot.value] else [])
  }

  /** The effect runs the closure of this event. */
  predicate Wakes(s: S.Socket, f: S.Effect, e: Event) {
    (S.WakesRecv(f) && s.recvSlot == Some(e)) || (S.WakesSend(f) && s.sendSlot == Some(e))
  }

  lemma FireSends(st: State, e: Event)
    ensures Fire(st, e).queue == if st.queueOpen && !e.Shutdown? then st.queue + [e] else st.queue
    ensures !e.IsToken() && e.op in st.ops ==>
              && e.op in Fire(st, e).ops
              && (e.Shutdown? ==> Fire(st, e).ops[e.op].Answer() == Some(OkUnit))
              && (!e.Shutdown? && !st.queueOpen ==> Fire(st, e).ops[e.op].Answer() == Some(Err(BrokenPipe)))
              && (!e.Shutdown? && st.queueOpen ==> Fire(st, e).ops[e.op] == st.ops[e.op])
  {
    ReplyInThree(Err(BrokenPipe));
  }

  /** What becomes of the operation whose closure runs. */
  predicate Fate(st: State, r: State, e: Event)
    requires !e.IsToken()
  {
    && e.op in st.ops && e.op in r.ops
    && (e.Shutdown? ==> r.ops[e.op].Answer() == Some(OkUnit))
    && (!e.Shutdown? && !st.queueOpen ==> r.ops[e.op].Answer() == Some(Err(BrokenPipe)))
    && (!e.Shutdown? && st.queueOpen ==> r.ops[e.op] == st.ops[e.op])
  }

  function Sent(queue: seq<Event>, open: bool, slot: Option<Event>): seq<Event> {
    if open && slot.Some? && !slot.value.Shutdown? then queue + [slot.value] else queue
  }

  predicate Settles(st: State, r: State, slot: Option<Event>) {
    slot.Some? && !slot.value.IsToken() && slot.value.op in st.ops ==> Fate(st, r, slot.value)
  }

  lemma FireRecvSlot(st: State, h: Handle)
    requires h in st.sockets
    ensures FireRecv(st, h).queue == Sent(st.queue, st.queueOpen, st.sockets[h].recvSlot)
    ensures Settles(st, FireRecv(st, h), st.sockets[h].recvSlot)
  {
    hide Fire, Op.Answer;
    var s := st.sockets[h];
    if s.recvSlot.Some? {
      FireSends(SetSocket(st, h, s.(recvSlot := None)), s.recvSlot.value);
    }
  }

  lemma FireSendSlot(st: State, h: Handle)
    requires h in st.sockets
    ensures FireSend(st, h).queue == Sent(st.queue, st.queueOpen, st.sockets[h].sendSlot)
    ensures Settles(st, FireSend(st, h), st.sockets[h].sendSlot)
  {
    hide Fire, Op.Answer;
    var s := st.sockets[h];
    if s.sendSlot.Some? {
      FireSends(SetSocket(st, h, s.(sendSlot := None)), s.sendSlot.value);
    }
  }

  /** A poll changes the socket and wakes its slots. */
  lemma PollIsWoken(st: State, h: Handle, f: S.Effect)
    requires h in st.sockets && S.Possible(st.sockets[h].p, f)
    ensures var s := st.sockets[h];
            Poll(st, h, f) == Woken(SetSocket(st, h, s.(p := S.Affected(s.p, f))), h, S.WakesRecv(f), S.WakesSend(f))
  {
  }

  lemma WokenSends(st: State, h: Handle, recv: bool, send: bool)
    requires h in st.sockets
    ensures var s := st.sockets[h];
            Woken(st, h, recv, send).queue
            == Sent(Sent(st.queue, st.queueOpen, if recv then s.recvSlot else None), st.queueOpen, if send then s.sendSlot else None)
  {
    hide FireRecv, FireSend, Settles;
    FireRecvSlot(st, h);
    FireSendSlot(if recv then FireRecv(st, h) else st, h);
  }

  lemma PollSends(st: State, h: Handle, f: S.Effect)
    requires h in st.sockets && S.Possible(st.sockets[h].p, f)
    requires st.sockets[h].recvSlot.Some? ==> !st.sockets[h].recvSlot.value.Shutdown?
    ensures Poll(st, h, f).queue == if st.queueOpen then st.queue + Resent(st.sockets[h], f) else st.queue
  {
    hide Poll, Woken, S.Affected, S.Possible, S.WakesRecv, S.WakesSend;
    var s := st.sockets[h];
    PollIsWoken(st, h, f);
    WokenSends(SetSocket(st, h, s.(p := S.Affected(s.p, f))), h, S.WakesRecv(f), S.WakesSend(f));
  }

  /** What becomes of one woken operation; the other slot is about another one. */
  lemma WokenFate(st: State, h: Handle, recv: bool, send: bool, e: Event)
    requires h in st.sockets && !e.IsToken() && e.op in st.ops
    requires (recv && st.sockets[h].recvSlot == Some(e)) || (send && st.sockets[h].sendSlot == Some(e))
    requires NotAbout(st.sockets[h].recvSlot, e.op) || NotAbout(st.sockets[h].sendSlot, e.op)
    ensures Fate(st, Woken(st, h, recv, send), e)
  {
    hide FireRecv, FireSend, Op.Answer;
    if recv && st.sockets[h].recvSlot == Some(e) {
      FireRecvSlot(st, h);
      if send {
        SendSpares(FireRecv(st, h), h, e.op);
      }
    } else {
      if recv {
        RecvSpares(st, h, e.op);
      }
      FireSendSlot(if recv then FireRecv(st, h) else st, h);
    }
  }

  lemma PollAnswers(st: State, h: Handle, f: S.Effect, e: Event)
    requires h in st.sockets && S.Possible(st.sockets[h].p, f) && !e.IsToken() && e.op in st.ops && Wakes(st.sockets[h], f, e)
    requires NotAbout(st.sockets[h].recvSlot, e.op) || NotAbout(st.sockets[h].sendSlot, e.op)
    ensures Fate(st, Poll(st, h, f), e)
  {
    hide Poll, Woken, Op.Answer, S.Affected, S.Possible, S.WakesRecv, S.WakesSend;
    var s := st.sockets[h];
    PollIsWoken(st, h, f);
    WokenFate(SetSocket(st, h, s.(p := S.Affected(s.p, f))), h, S.WakesRecv(f), S.WakesSend(f), e);
  }

  lemma RecvSpares(st: State, h: Handle, o: OpId)
    requires h in st.sockets && o in st.ops && NotAbout(st.sockets[h].recvSlot, o)
    ensures o in FireRecv(st, h).ops && FireRecv(st, h).ops[o] == st.ops[o]
  {
  }

  lemma SendSpares(st: State, h: Handle, o: OpId)
    requires h in st.sockets && o in st.ops && NotAbout(st.sockets[h].sendSlot, o)
    ensures o in FireSend(st, h).ops && FireSend(st, h).ops[o] == st.ops[o]
  {
  }

  /** A parked closure is about an operation that is owed, and the other slot is not about it. */
  lemma SlotsDiffer(w: World, h: Handle, e: Event)
    requires WorldInv(w, FREE) && h in w.st.sockets && !e.IsToken()
    requires w.st.sockets[h].recvSlot == Some(e) || w.st.sockets[h].sendSlot == Some(e)
    ensures e.op in w.st.ops && (NotAbout(w.st.sockets[h].recvSlot, e.op) || NotAbout(w.st.sockets[h].sendSlot, e.op))
  {
    var s := w.st.sockets[h];
    PlaceIsWell(w, if s.recvSlot == Some(e) then RecvSlotOf(h) else SendSlotOf(h), FREE);
    if s.recvSlot.Some? && s.sendSlot.Some? && !s.recvSlot.value.IsToken() && !s.sendSlot.value.IsToken() {
      PlaceIsWell(w, RecvSlotOf(h), FREE);
      PlaceIsWell(w, SendSlotOf(h), FREE);
      if s.recvSlot.value.op == s.sendSlot.value.op {
        OnePlace(w, RecvSlotOf(h), SendSlotOf(h), FREE);
      }
    }
  }

  lemma RecvSlotNoShutdown(w: World, h: Handle)
    requires WorldInv(w, FREE) && h in w.st.sockets
    ensures w.st.sockets[h].recvSlot.Some? ==> !w.st.sockets[h].recvSlot.value.Shutdown?
  {
    assert Shape(h, w.st.sockets[h]);
  }

  // ---- theorem ----

  /**
   In any run one effect of a poll empties exactly the slots it wakes, and the events of their closures
   are queued in order, the receive slot first, if the channel is open. A woken shutdown is answered Ok.
   Any other woken operation is untouched if the channel is open, and fails if it is closed.
   */
  lemma PollWakes(ws: seq<World>, ls: seq<Label>, i: nat, e: Event)
    requires Run(ws, ls, FREE) && i < |ls| && ls[i].PollOne?
    ensures ls[i].h in ws[i].st.sockets && S.Possible(ws[i].st.sockets[ls[i].h].p, ls[i].effect)
    ensures var w, h, f, st1 := ws[i], ls[i].h, ls[i].effect, ws[i + 1].st;
            var s := w.st.sockets[h];
            && st1.sockets == w.st.sockets[h := S.Socket(s.inc, S.Affected(s.p, f), if S.WakesRecv(f) then None else s.recvSlot,
                                                         if S.WakesSend(f) then None else s.sendSlot)]
            && st1.queue == (if w.st.queueOpen then w.st.queue + Resent(s, f) else w.st.queue)
            && (Wakes(s, f, e) && !e.IsToken() ==> Fate(w.st, st1, e))
  {
    var w, h, f := ws[i], ls[i].h, ls[i].effect;
    RunKeeps(ws, ls, FREE, i);
    assert Step(ws[i], ls[i], ws[i + 1], FREE);
    hide WorldInv, Poll, S.Affected, S.Possible, S.WakesRecv, S.WakesSend;
    RecvSlotNoShutdown(w, h);
    PollSockets(w.st, h, f);
    PollSends(w.st, h, f);
    if Wakes(w.st.sockets[h], f, e) && !e.IsToken() {
      SlotsDiffer(w, h, e);
      PollAnswers(w.st, h, f, e);
    }
  }

  // ---- what closing wakes ----

  /** The operation of `e` is parked on the socket, in one slot only. */
  predicate ParkedAlone(st: State, s: S.Socket, e: Event) {
    && !e.IsToken() && e.op in st.ops && (s.recvSlot == Some(e) || s.sendSlot == Some(e))
    && (NotAbout(s.recvSlot, e.op) || NotAbout(s.sendSlot, e.op))
  }

  /** Both closures ran, the receive slot first. */
  predicate WokeBoth(st: State, r: State, s: S.Socket, e: Event) {
    && r.queue == Sent(Sent(st.queue, st.queueOpen, s.recvSlot), st.queueOpen, s.sendSlot)
    && (ParkedAlone(st, s, e) ==> Fate(st, r, e))
  }

  lemma WokenBoth(st: State, h: Handle, e: Event)
    requires h in st.sockets
    ensures var r := Woken(st, h, true, true);
            && WokeBoth(st, r, st.sockets[h], e)
            && r == st.(queue := r.queue, ops := r.ops, sockets := st.sockets[h := st.sockets[h].(recvSlot := None, sendSlot := None)])
  {
    hide Fire, FireSend, FireRecv;
    WokenSends(st, h, true, true);
    if ParkedAlone(st, st.sockets[h], e) {
      WokenFate(st, h, true, true, e);
    }
  }

  /** With both slots empty, registering and removing touch no operation and no channel. */
  lemma EmptySlots(st: State, h: Handle, e: Event, dst: Addr)
    requires h in st.sockets && st.sockets[h].recvSlot.None? && st.sockets[h].sendSlot.None?
    ensures RegisterRecv(st, h, e).ops == st.ops
    ensures RemoveTcp(st, h).ops == st.ops && RemoveTcp(st, h).queue == st.queue
    ensures RemoveUdp(st, h, dst).ops == st.ops && RemoveUdp(st, h, dst).queue == st.queue
  {
  }

  lemma CloseTcpWakes(st: State, h: Handle, e: Event)
    requires HasTcp(st, h) && S.TransmitOpen(st.sockets[h].p.state)
    ensures var r := CloseTcp(st, h);
            WokeBoth(st, r, st.sockets[h], e) && r.sockets[h].recvSlot.None? && r.sockets[h].sendSlot.None?
  {
    var s := st.sockets[h];
    var st1 := SetSocket(st, h, s.(p := s.p.(state := S.CloseState(s.p.state))));
    WokenBoth(st1, h, e);
    hide FireRecv, FireSend, Sent, Op.Answer;
  }

  lemma CloseUdpWakes(st: State, h: Handle, e: Event)
    requires HasUdp(st, h)
    ensures var r := CloseUdp(st, h);
            WokeBoth(st, r, st.sockets[h], e) && r.sockets[h].recvSlot.None? && r.sockets[h].sendSlot.None?
  {
    WokenBoth(st, h, e);
    hide FireRecv, FireSend, Sent, Op.Answer;
  }

  /** The closure is dropped without having run. */
  predicate LetDown(st: State, r: State, e: Event)
    requires !e.IsToken()
  {
    e.op in st.ops && e.op in r.ops && r.ops[e.op] == Finish(st.ops[e.op], DropPlan(e.Shutdown?))
  }

  lemma DiscardLetsDown(st: State, slot: Option<Event>, e: Event)
    requires !e.IsToken() && e.op in st.ops
    ensures slot == Some(e) ==> LetDown(st, DiscardSlot(st, slot), e)
    ensures NotAbout(slot, e.op) ==> e.op in DiscardSlot(st, slot).ops && DiscardSlot(st, slot).ops[e.op] == st.ops[e.op]
  {
  }

  predicate SameOp(st: State, r: State, o: OpId) { o in st.ops && o in r.ops && r.ops[o] == st.ops[o] }

  /** Replacing a closure lets its operation down, and no other. */
  lemma ReplacedRecv(st: State, h: Handle, e: Event, x: Event)
    requires h in st.sockets && ParkedAlone(st, st.sockets[h], e)
    ensures var r := RegisterRecv(st, h, x); if st.sockets[h].recvSlot == Some(e) then LetDown(st, r, e) else SameOp(st, r, e.op)
  {
    hide DiscardSlot, Finish;
    var s := st.sockets[h];
    DiscardLetsDown(SetSocket(st, h, s.(recvSlot := Some(x))), s.recvSlot, e);
  }

  lemma ReplacedSend(st: State, h: Handle, e: Event, x: Event)
    requires h in st.sockets && ParkedAlone(st, st.sockets[h], e)
    ensures var r := RegisterSend(st, h, x); if st.sockets[h].sendSlot == Some(e) then LetDown(st, r, e) else SameOp(st, r, e.op)
  {
    hide DiscardSlot, Finish;
    var s := st.sockets[h];
    DiscardLetsDown(SetSocket(st, h, s.(sendSlot := Some(x))), s.sendSlot, e);
  }

  /** Removing the socket lets both down. */
  lemma RemovedBoth(st: State, h: Handle, e: Event)
    requires h in st.sockets && ParkedAlone(st, st.sockets[h], e)
    ensures LetDown(st, RemoveTcp(st, h), e) && RemoveTcp(st, h).queue == st.queue
  {
    hide DiscardSlot, Finish;
    var s := st.sockets[h];
    DiscardLetsDown(SetSocket(st, h, s.(recvSlot := None)), s.recvSlot, e);
    var st1 := DropRecv(st, h);
    DiscardLetsDown(SetSocket(st1, h, st1.sockets[h].(sendSlot := None)), st1.sockets[h].sendSlot, e);
  }

  /** The three ways a close can go for the closures parked on its socket. */
  predicate CloseFate(st: State, r: State, th: TypedHandle, e: Event)
    requires th.handle in st.sockets
  {
    var s := st.sockets[th.handle];
    if th.Udp? || (s.p.TcpSocket? && S.TransmitOpen(s.p.state)) then WokeBoth(st, r, s, e)
    else
      && r.queue == st.queue
      && (ParkedAlone(st, s, e) ==>
            if th.handle in r.sockets && s.recvSlot != Some(e) then SameOp(st, r, e.op) else LetDown(st, r, e))
  }

  lemma OpenStreamFate(st: State, h: Handle, inc: nat, e: Event)
    requires HasTcp(st, h) && S.TransmitOpen(st.sockets[h].p.state)
    ensures WokeBoth(st, CloseStream(st, h, inc), st.sockets[h], e)
  {
    hide CloseTcp, RegisterRecv, RemoveTcp, WokeBoth;
    var st1 := CloseTcp(st, h);
    CloseTcpWakes(st, h, e);
    EmptySlots(st1, h, Close(Tcp(h), inc), Addr(0, 0));
    FateCarries(st, st1, CloseStream(st, h, inc), st.sockets[h], e);
  }

  lemma ShutStreamFate(st: State, h: Handle, inc: nat, e: Event)
    requires HasTcp(st, h) && !S.TransmitOpen(st.sockets[h].p.state)
    ensures CloseStream(st, h, inc).queue == st.queue
    ensures ParkedAlone(st, st.sockets[h], e) ==>
              if h in CloseStream(st, h, inc).sockets && st.sockets[h].recvSlot != Some(e) then SameOp(st, CloseStream(st, h, inc), e.op)
              else LetDown(st, CloseStream(st, h, inc), e)
  {
    hide CloseTcp, RegisterRecv, RemoveTcp, LetDown, SameOp, ParkedAlone;
    CloseUnchanged(st, h);
    GoneFromTable(st, h);
    if ParkedAlone(st, st.sockets[h], e) {
      ReplacedRecv(st, h, e, Close(Tcp(h), inc));
      RemovedBoth(st, h, e);
    }
  }

  lemma CloseStreamFate(st: State, h: Handle, inc: nat, e: Event)
    requires HasTcp(st, h)
    ensures CloseFate(st, CloseStream(st, h, inc), Tcp(h), e)
  {
    hide CloseStream, WokeBoth, LetDown, SameOp, ParkedAlone;
    if S.TransmitOpen(st.sockets[h].p.state) {
      OpenStreamFate(st, h, inc, e);
    } else {
      ShutStreamFate(st, h, inc, e);
    }
  }

  lemma FateCarries(st: State, st1: State, r: State, s: S.Socket, e: Event)
    requires WokeBoth(st, st1, s, e) && r.queue == st1.queue && r.ops == st1.ops
    ensures WokeBoth(st, r, s, e)
  {
  }

  lemma CloseUnchanged(st: State, h: Handle)
    requires HasTcp(st, h) && !S.TransmitOpen(st.sockets[h].p.state)
    ensures CloseTcp(st, h) == st
  {
    assert st.sockets[h := st.sockets[h]] == st.sockets;
  }

  lemma GoneFromTable(st: State, h: Handle)
    requires h in st.sockets
    ensures h !in RemoveTcp(st, h).sockets && RemoveTcp(st, h).queue == st.queue
  {
  }

  lemma CloseDatagramFate(st: State, h: Handle, e: Event)
    requires HasUdp(st, h) && st.sockets[h].p.endpoint.Some?
    ensures CloseFate(st, CloseDatagram(st, h), Udp(h), e)
  {
    CloseUdpWakes(st, h, e);
    EmptySlots(CloseUdp(st, h), h, e, st.sockets[h].p.endpoint.value);
    hide CloseUdp, RemoveUdp, Sent, Op.Answer;
  }

  /**
   In any run, handling a Close: if it changes the state of the connection, or the socket is UDP, both
   closures parked on the socket run, the receive slot first. Otherwise nothing is sent, and the closure
   that the Close replaces, or that goes with the socket, lets its operation down unanswered.
   */
  lemma CloseWakes(ws: seq<World>, ls: seq<Label>, i: nat, th: TypedHandle, inc: nat, e: Event)
    requires Run(ws, ls, FREE) && i < |ls| && ls[i].HandleNext? && ws[i].todo != [] && ws[i].todo[0] == Close(th, inc)
    ensures th.handle in ws[i].st.sockets && CloseFate(ws[i].st, ws[i + 1].st, th, e)
    ensures var s := ws[i].st.sockets[th.handle];
            !e.IsToken() && (s.recvSlot == Some(e) || s.sendSlot == Some(e)) ==> ParkedAlone(ws[i].st, s, e)
  {
    var w := ws[i];
    RunKeeps(ws, ls, FREE, i);
    assert Step(ws[i], ls[i], ws[i + 1], FREE);
    Strays.CloseInHand(w);
    Strays.HandledAsClose(w, ws[i + 1]);
    assert th in w.st.registered;
    if !e.IsToken() && (w.st.sockets[th.handle].recvSlot == Some(e) || w.st.sockets[th.handle].sendSlot == Some(e)) {
      SlotsDiffer(w, th.handle, e);
    }
    hide WorldInv, Step, CloseStream, CloseDatagram, CloseFate;
    if th.Tcp? {
      CloseStreamFate(w.st, th.handle, inc, e);
    } else {
      CloseDatagramFate(w.st, th.handle, e);
    }
  }

  /**
   In any run, handling a Shutdown: the closure it replaces in the send slot lets its operation down
   unanswered, and the one in the receive slot runs exactly when the transmit half was open.
   */
  lemma ShutdownWakes(ws: seq<World>, ls: seq<Label>, i: nat, h: Handle, o: OpId, e: Event)
    requires Run(ws, ls, FREE) && i < |ls| && ls[i].HandleNext? && ws[i].todo != [] && ws[i].todo[0] == Shutdown(Tcp(h), o)
    ensures HasTcp(ws[i].st, h)
    ensures var st, r, s := ws[i].st, ws[i + 1].st, ws[i].st.sockets[h];
            && r.queue == (if S.TransmitOpen(s.p.state) then Sent(st.queue, st.queueOpen, s.recvSlot) else st.queue)
            && (ParkedAlone(st, s, e) && e.op != o ==>
                  if s.sendSlot == Some(e) then LetDown(st, r, e)
                  else if S.TransmitOpen(s.p.state) then Fate(st, r, e)
                  else SameOp(st, r, e.op))
  {
    var w := ws[i];
    ShutdownOnOwnSocket(ws, ls, i, Tcp(h), o);
    assert Step(ws[i], ls[i], ws[i + 1], FREE);
    assert ws[i + 1].st == HandleShutdown(w.st, Tcp(h), o);
    assert ws[i + 1].st == CloseTcp(RegisterSend(w.st, h, Shutdown(Tcp(h), o)), h);
    hide Run, Step, HandleShutdown, CloseTcp, RegisterSend;
    ShutdownFate(w.st, h, o, e);
  }

  lemma ShutdownFate(st: State, h: Handle, o: OpId, e: Event)
    requires HasTcp(st, h)
    ensures var r, s := CloseTcp(RegisterSend(st, h, Shutdown(Tcp(h), o)), h), st.sockets[h];
            && r.queue == (if S.TransmitOpen(s.p.state) then Sent(st.queue, st.queueOpen, s.recvSlot) else st.queue)
            && (ParkedAlone(st, s, e) && e.op != o ==>
                  if s.sendSlot == Some(e) then LetDown(st, r, e)
                  else if S.TransmitOpen(s.p.state) then Fate(st, r, e)
                  else SameOp(st, r, e.op))
  {
    var x := Shutdown(Tcp(h), o);
    var st1 := RegisterSend(st, h, x);
    if ParkedAlone(st, st.sockets[h], e) {
      ReplacedSend(st, h, e, x);
    }
    hide RegisterSend, CloseTcp;
    if S.TransmitOpen(st.sockets[h].p.state) {
      CloseTcpWakes(st1, h, e);
      if ParkedAlone(st, st.sockets[h], e) && e.op != o && st.sockets[h].sendSlot == Some(e) {
        CloseSpares(st1, h, e.op);
      }
    } else {
      CloseUnchanged(st1, h);
    }
  }

  lemma CloseSpares(st: State, h: Handle, o: OpId)
    requires HasTcp(st, h) && o in st.ops && NotAbout(st.sockets[h].recvSlot, o) && NotAbout(st.sockets[h].sendSlot, o)
    ensures SameOp(st, CloseTcp(st, h), o)
  {
    hide FireRecv, FireSend;
    var s := st.sockets[h];
    var st1 := SetSocket(st, h, s.(p := s.p.(state := S.CloseState(s.p.state))));
    RecvSpares(st1, h, o);
    SendSpares(FireRecv(st1, h), h, o);
  }

  /**
   In any run, handling a data event sends nothing. If its operation ends up in a slot, the operation
   whose closure was there is let down unanswered.
   */
  lemma ParkingReplaces(ws: seq<World>, ls: seq<Label>, i: nat, e: Event)
    requires Run(ws, ls, FREE) && i < |ls| && ls[i].HandleNext? && ws[i].todo != [] && !ws[i].todo[0].IsControl()
    ensures Replaces(ws[i].st, ws[i + 1].st, ws[i].todo[0], e)
  {
    var w, x := ws[i], ws[i].todo[0];
    RunKeeps(ws, ls, FREE, i);
    Strays.OwedAt(w, Doing(0), x);
    assert Step(ws[i], ls[i], ws[i + 1], FREE);
    assert ws[i + 1].st == if x.IsTcpData() then HandleTcp(w.st, x) else HandleUdp(w.st, x);
    hide WorldInv, Step, Run, HandleTcp, HandleUdp;
    if x.IsTcpData() {
      TcpReplaces(w.st, x, e);
    } else {
      UdpReplaces(w.st, x, e);
    }
  }

  /** What a handler of a data event may do to another operation. */
  predicate Replaces(st: State, r: State, x: Event, e: Event)
    requires x.IsTcpData() || x.IsUdpData()
  {
    && r.queue == st.queue
    && (x.handle in st.sockets && x.handle in r.sockets && ParkedAlone(st, st.sockets[x.handle], e) && e.op != x.op ==>
          var s, s1 := st.sockets[x.handle], r.sockets[x.handle];
          if (s.recvSlot == Some(e) && s1.recvSlot == Some(x)) || (s.sendSlot == Some(e) && s1.sendSlot == Some(x)) then LetDown(st, r, e)
          else SameOp(st, r, e.op))
  }

  lemma RecvReplaces(st: State, x: Event, e: Event)
    requires (x.IsTcpData() || x.IsUdpData()) && x.handle in st.sockets
    ensures Replaces(st, RegisterRecv(st, x.handle, x), x, e)
  {
    hide RegisterRecv, LetDown, SameOp, DiscardSlot;
    if ParkedAlone(st, st.sockets[x.handle], e) {
      ReplacedRecv(st, x.handle, e, x);
    }
  }

  lemma SendReplaces(st: State, x: Event, e: Event)
    requires (x.IsTcpData() || x.IsUdpData()) && x.handle in st.sockets
    ensures Replaces(st, RegisterSend(st, x.handle, x), x, e)
  {
    hide RegisterSend, LetDown, SameOp, DiscardSlot;
    if ParkedAlone(st, st.sockets[x.handle], e) {
      ReplacedSend(st, x.handle, e, x);
    }
  }

  /** Nothing is parked or replaced. */
  lemma UntouchedReplaces(st: State, r: State, x: Event, e: Event)
    requires (x.IsTcpData() || x.IsUdpData()) && r.queue == st.queue
    requires x.handle in st.sockets && x.handle in r.sockets ==>
               r.sockets[x.handle].recvSlot == st.sockets[x.handle].recvSlot && r.sockets[x.handle].sendSlot == st.sockets[x.handle].sendSlot
    requires !e.IsToken() && e.op in st.ops && e.op != x.op ==> SameOp(st, r, e.op)
    ensures Replaces(st, r, x, e)
  {
    hide SameOp, LetDown;
  }

  lemma LetGoReplaces(st: State, x: Event, e: Event, plan: seq<Act>)
    requires (x.IsTcpData() || x.IsUdpData()) && x.op in st.ops
    ensures Replaces(st, LetGo(st, x.op, plan), x, e) && Replaces(st, Panic(st), x, e)
  {
    hide Replaces;
    UntouchedReplaces(st, LetGo(st, x.op, plan), x, e);
    UntouchedReplaces(st, Panic(st), x, e);
  }

  lemma CompleteReplaces(st: State, x: Event, e: Event, p: S.Proto, buf: seq<Byte>, init: nat, plan: seq<Act>)
    requires (x.IsTcpData() || x.IsUdpData()) && x.op in st.ops && x.handle in st.sockets
    ensures Replaces(st, CompleteOp(st, x.handle, x.op, p, buf, init, plan), x, e)
  {
    hide Replaces, Finish;
    var r := CompleteOp(st, x.handle, x.op, p, buf, init, plan);
    assert r.sockets[x.handle] == st.sockets[x.handle].(p := p);
    UntouchedReplaces(st, r, x, e);
  }

  lemma TcpReplaces(st: State, x: Event, e: Event)
    requires x.IsTcpData() && x.op in st.ops
    ensures Replaces(st, HandleTcp(st, x), x, e)
  {
    hide RegisterRecv, RegisterSend, CompleteOp, LetGo, ReadOutcome, WriteOutcome, Replaces;
    LetGoReplaces(st, x, e, [DropBuffer, SendReply(Err(NotFound)), DropSender]);
    if HasTcp(st, x.handle) {
      RecvReplaces(st, x, e);
      SendReplaces(st, x, e);
      var op := st.ops[x.op];
      var out := if x.Read? then ReadOutcome(st.sockets[x.handle].p, op.buf, op.init)
                 else WriteOutcome(st.sockets[x.handle].p, op.buf, op.init);
      if out.Complete? {
        CompleteReplaces(st, x, e, out.proto, out.buf, out.init, out.plan);
      }
    }
  }

  lemma UdpReplaces(st: State, x: Event, e: Event)
    requires x.IsUdpData() && x.op in st.ops
    ensures Replaces(st, HandleUdp(st, x), x, e)
  {
    hide RegisterRecv, RegisterSend, CompleteOp, LetGo, RecvOutcome, SendOutcome, Replaces;
    LetGoReplaces(st, x, e, [DropBuffer, SendReply(Err(NotFound)), DropSender]);
    if HasUdp(st, x.handle) {
      RecvReplaces(st, x, e);
      SendReplaces(st, x, e);
      var op := st.ops[x.op];
      var out := if x.Recv? then RecvOutcome(st.sockets[x.handle].p, op.buf, op.init, op.refused)
                 else SendOutcome(st.sockets[x.handle].p, x.src, op.buf, op.init, op.refused);
      if out.Complete? {
        CompleteReplaces(st, x, e, out.proto, out.buf, out.init, out.plan);
      }
    }
  }
}
