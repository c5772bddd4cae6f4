/**
 The object of module `TcpStacks` and the state machine of module `World` are the same system: a call
 of `drive_once` is a sequence of steps of the machine, so everything shown about runs holds of the
 states the object goes through.

 The batch was taken from the channel before the call, while the machine takes it after the poll;
 since the poll only ever appends to the channel the two come to the same.
 */
module Refinement {
  import opened Event
  import opened Operation
  import opened Stack
  import opened World
  import opened Reaching
  import opened TcpStacks
  import S = Smoltcp

  /** The stack with `batch` put back in front of its channel. */
  function Untaken(st: State, batch: seq<Event>): State {
    st.(queue := batch + st.queue)
  }

  // ---- polling does not look at the channel ----

  lemma FireUntaken(st: State, e: Event, batch: seq<Event>)
    ensures Fire(Untaken(st, batch), e) == Untaken(Fire(st, e), batch)
  {
    assert batch + st.queue + [e] == batch + (st.queue + [e]);
  }

  lemma FireRecvUntaken(st: State, h: Handle, batch: seq<Event>)
    requires h in st.sockets
    ensures FireRecv(Untaken(st, batch), h) == Untaken(FireRecv(st, h), batch)
  {
    hide Fire;
    var s := st.sockets[h];
    if s.recvSlot.Some? {
      FireUntaken(SetSocket(st, h, s.(recvSlot := None)), s.recvSlot.value, batch);
    }
  }

  lemma FireSendUntaken(st: State, h: Handle, batch: seq<Event>)
    requires h in st.sockets
    ensures FireSend(Untaken(st, batch), h) == Untaken(FireSend(st, h), batch)
  {
    hide Fire;
    var s := st.sockets[h];
    if s.sendSlot.Some? {
      FireUntaken(SetSocket(st, h, s.(sendSlot := None)), s.sendSlot.value, batch);
    }
  }

  function Woken(st: State, h: Handle, recv: bool, send: bool): State
    requires h in st.sockets
  {
    var st1 := if recv then FireRecv(st, h) else st;
    if send then FireSend(st1, h) else st1
  }

  lemma WokenUntaken(st: State, h: Handle, recv: bool, send: bool, batch: seq<Event>)
    requires h in st.sockets
    ensures Woken(Untaken(st, batch), h, recv, send) == Untaken(Woken(st, h, recv, send), batch)
  {
    FireRecvUntaken(st, h, batch);
    var st1 := if recv then FireRecv(st, h) else st;
    FireSendUntaken(st1, h, batch);
    hide FireRecv, FireSend, Untaken;
  }

  lemma PollUntaken(st: State, h: Handle, f: S.Effect, batch: seq<Event>)
    requires h in st.sockets && S.Possible(st.sockets[h].p, f)
    ensures Poll(Untaken(st, batch), h, f) == Untaken(Poll(st, h, f), batch)
  {
    hide FireRecv, FireSend, S.Affected, S.Possible, S.WakesRecv, S.WakesSend;
    var s := st.sockets[h].(p := S.Affected(st.sockets[h].p, f));
    assert SetSocket(Untaken(st, batch), h, s) == Untaken(SetSocket(st, h, s), batch);
    WokenUntaken(SetSocket(st, h, s), h, S.WakesRecv(f), S.WakesSend(f), batch);
  }

  lemma AdmittedUntaken(st: State, packet: Packet, batch: seq<Event>)
    ensures Admitted(Untaken(st, batch), packet) == (Untaken(Admitted(st, packet).0, batch), Admitted(st, packet).1)
  {
    if packet.Datagram? {
      var ready := Ready(Udp(packet.handle), |st.born|);
      assert batch + st.queue + [ready] == batch + (st.queue + [ready]);
    }
  }

  // ---- the parts of one call ----

  lemma {:induction false} ReachPolled(w: World, st: State, batch: seq<Event>, effects: seq<(Handle, S.Effect)>)
    requires Reachable(w) && w.running && w.todo == [] && w.st == Untaken(st, batch) && Pollable(st, effects)
    ensures Reachable(w.(st := Untaken(PollAll(st, effects), batch)))
    decreases effects
  {
    hide Reachable, Poll;
    if effects != [] {
      var h, f := effects[0].0, effects[0].1;
      PollUntaken(st, h, f, batch);
      Reach(w, PollOne(h, f), w.(st := Poll(w.st, h, f)));
      ReachPolled(w.(st := Poll(w.st, h, f)), Poll(st, h, f), batch, effects[1..]);
    }
  }

  lemma {:induction false} ReachHandled(w: World)
    requires Reachable(w) && w.running
    ensures Reachable(w.(st := DispatchAll(w.st, w.todo), todo := []))
    decreases |w.todo|
  {
    hide Reachable, Dispatch;
    if w.todo != [] {
      var w1 := w.(st := Dispatch(w.st, w.todo[0]), todo := w.todo[1..]);
      Reach(w, HandleNext, w1);
      ReachHandled(w1);
    } else {
      assert w.(st := DispatchAll(w.st, w.todo), todo := []) == w;
    }
  }

  lemma ReachAdmitted(w: World, packet: Packet)
    requires Reachable(w) && w.running && w.todo == []
    requires !packet.OtherPacket? ==> packet.handle !in w.st.sockets
    ensures Reachable(w.(st := Admitted(w.st, packet).0, running := Admitted(w.st, packet).1))
  {
    hide Reachable;
    var w1 := w.(st := Admitted(w.st, packet).0, running := Admitted(w.st, packet).1);
    match packet
    case OtherPacket =>
    case Syn(dst, h) => Reach(w, Label.Syn(dst, h), w1);
    case Datagram(dst, h) => Reach(w, UdpPacket(dst, h), w1);
  }

  /** Where a call of `drive_once` on stack `st` ends, as stated by `TcpStack.DriveOnce`. */
  function Driven(st: State, packet: Packet, effects: seq<(Handle, S.Effect)>, batch: seq<Event>): (State, bool)
    requires Pollable(Admitted(st, packet).0, effects)
  {
    var (admitted, ok) := Admitted(st, packet);
    (if ok then DispatchAll(PollAll(admitted, effects), Phased(batch)) else admitted, ok)
  }

  /** One call of `drive_once` with the next batch of the channel leads from reachable states to reachable states. */
  lemma DriveOnceIsRun(w: World, st: State, packet: Packet, effects: seq<(Handle, S.Effect)>, batch: seq<Event>)
    requires Reachable(w) && w.running && w.todo == [] && w.st == Untaken(st, batch)
    requires !packet.OtherPacket? ==> packet.handle !in st.sockets
    requires Pollable(Admitted(st, packet).0, effects)
    ensures
      var (st1, ok) := Driven(st, packet, effects, batch);
      Reachable(w.(st := if ok then st1 else Untaken(st1, batch), running := ok))
  {
    hide Reachable, DispatchAll, PollAll, Phased, Admitted;
    ReachAdmitted(w, packet);
    AdmittedUntaken(st, packet, batch);
    var (st1, ok) := Admitted(st, packet);
    if ok {
      var w1 := w.(st := Untaken(st1, batch));
      ReachPolled(w1, st1, batch, effects);
      var st2 := PollAll(st1, effects);
      var w2 := w.(st := Untaken(st2, batch));
      var w3 := w.(st := st2, todo := Phased(batch));
      var q := batch + st2.queue;
      assert q[..|batch|] == batch && q[|batch|..] == st2.queue;
      Reach(w2, TakeBatch(|batch|), w3);
      ReachHandled(w3);
    }
  }
}
