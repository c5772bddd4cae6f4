/**
 The datagrams of UDP sockets over whole runs: what receives hand out on one socket incarnation are,
 one after another, the datagrams that arrived for it, with their senders, and what leaves it are the
 buffers of its sends, in order, for the addresses the sends named.
 */
module Datagrams {
  import opened Event
  import opened Operation
  import opened Stack
  import opened Invariant
  import opened Parked
  import opened World
  import opened Steps
  import opened Turns
  import opened Places
  import opened Frames
  import opened Theorems
  import opened Lifecycle
  import opened Births
  import opened Shutdowns
  import opened Strays
  import ByteHistory
  import StreamOps
  import S = Smoltcp

  /** Incarnation `inc` is the UDP socket at handle `h`. */
  predicate UdpAt(st: State, inc: nat, h: Handle) {
    HasUdp(st, h) && st.sockets[h].inc == inc
  }

  // ---- what one step contributes ----

  predicate Polls(w: World, l: Label, inc: nat) {
    l.PollOne? && Enabled(w, l) && UdpAt(w.st, inc, l.h)
  }

  predicate Handles(w: World, l: Label, inc: nat) {
    l.HandleNext? && w.todo != [] && w.todo[0].IsUdpData() && UdpAt(w.st, inc, w.todo[0].handle)
    && Udp(w.todo[0].handle) in w.st.registered && w.todo[0].op in w.st.ops
  }

  function Arrived(w: World, l: Label, inc: nat): seq<S.Datagram> {
    if Polls(w, l, inc) && l.effect.Arrive? then [l.effect.datagram] else []
  }

  /** The datagram that the Recv in hand takes off the socket. */
  function Picked(w: World, l: Label, inc: nat): seq<S.Datagram> {
    if Handles(w, l, inc) && w.todo[0].Recv? && w.st.sockets[w.todo[0].handle].p.inbox != [] then
      [w.st.sockets[w.todo[0].handle].p.inbox[0]]
    else []
  }

  /** The datagram that the Send in hand puts on the socket: the client's buffer, for the address it named. */
  function Posted(w: World, l: Label, inc: nat): seq<S.Datagram> {
    if Handles(w, l, inc) && w.todo[0].Send? && |w.st.sockets[w.todo[0].handle].p.outbox| < S.UDP_PACKETS
       && !w.st.ops[w.todo[0].op].refused then
      [S.Datagram(w.todo[0].src, w.st.ops[w.todo[0].op].buf)]
    else []
  }

  function Departed(w: World, l: Label, inc: nat): seq<S.Datagram> {
    if Polls(w, l, inc) && l.effect.Depart? then w.st.sockets[l.h].p.outbox[..l.effect.n] else []
  }

  // ---- what one handler does ----

  lemma RoutedToUdp(st: State, e: Event)
    requires e.IsUdpData()
    ensures Dispatch(st, e) == HandleUdp(st, e)
  {
  }

  /**
   A handled Recv is parked on an empty socket, or takes the first datagram: refused, it leaves the
   buffer alone; otherwise as much of the datagram as fits is in front of the buffer, and the answer
   names its length and its sender.
   */
  lemma RecvAnswer(st: State, h: Handle, o: OpId)
    requires HasUdp(st, h) && Udp(h) in st.registered && o in st.ops
    ensures var p, op, r := st.sockets[h].p, st.ops[o], HandleUdp(st, Recv(h, o));
            && HasUdp(r, h) && r.sockets[h].inc == st.sockets[h].inc && o in r.ops
            && if p.inbox == [] then r.sockets[h] == st.sockets[h].(recvSlot := Some(Recv(h, o)))
               else
                 && r.sockets[h] == st.sockets[h].(p := p.(inbox := p.inbox[1..]))
                 && var d := p.inbox[0];
                 && var n := S.Min(|d.data|, |op.buf|);
                 if op.refused then r.ops[o].Answer() == Some(Err(Other)) && r.ops[o].buf == op.buf && r.ops[o].init == op.init
                 else r.ops[o].Answer() == Some(OkFrom(n, d.addr)) && r.ops[o].buf == d.data[..n] + op.buf[n..] && r.ops[o].init == n
  {
    hide RegisterRecv, ReplyIn;
    var p, op := st.sockets[h].p, st.ops[o];
    var out := RecvOutcome(p, op.buf, op.init, op.refused);
    if p.inbox == [] {
      assert HandleUdp(st, Recv(h, o)) == RegisterRecv(st, h, Recv(h, o));
      ParkKeepsOps(st, h, Recv(h, o), o);
    } else {
      assert HandleUdp(st, Recv(h, o)) == CompleteOp(st, h, o, out.proto, out.buf, out.init, out.plan);
      hide HandleUdp;
      ReplyInThree(Err(Other));
      ReplyInThree(OkFrom(S.Min(|p.inbox[0].data|, |op.buf|), p.inbox[0].addr));
    }
  }

  /** A handled Send is parked on a full socket, refused, or appends its buffer for the address it names. */
  lemma SendAnswer(st: State, h: Handle, to: Addr, o: OpId)
    requires HasUdp(st, h) && Udp(h) in st.registered && o in st.ops
    ensures var p, op, r := st.sockets[h].p, st.ops[o], HandleUdp(st, Send(h, to, o));
            && HasUdp(r, h) && r.sockets[h].inc == st.sockets[h].inc && o in r.ops
            && if |p.outbox| >= S.UDP_PACKETS then r.sockets[h] == st.sockets[h].(sendSlot := Some(Send(h, to, o)))
               else
                 && r.ops[o].buf == op.buf
                 && if op.refused then r.ops[o].Answer() == Some(Err(Other)) && r.sockets[h] == st.sockets[h]
                    else
                      && r.ops[o].Answer() == Some(Ok(|op.buf|))
                      && r.sockets[h] == st.sockets[h].(p := p.(outbox := p.outbox + [S.Datagram(to, op.buf)]))
  {
    hide RegisterSend, ReplyIn;
    var p, op := st.sockets[h].p, st.ops[o];
    var out := SendOutcome(p, to, op.buf, op.init, op.refused);
    if |p.outbox| >= S.UDP_PACKETS {
      assert HandleUdp(st, Send(h, to, o)) == RegisterSend(st, h, Send(h, to, o));
      ParkKeepsOps(st, h, Send(h, to, o), o);
    } else {
      assert HandleUdp(st, Send(h, to, o)) == CompleteOp(st, h, o, out.proto, out.buf, out.init, out.plan);
      hide HandleUdp;
      ReplyInThree(Err(Other));
      ReplyInThree(Ok(|op.buf|));
    }
  }

  lemma ParkKeepsOps(st: State, h: Handle, e: Event, o: OpId)
    requires h in st.sockets && o in st.ops
    ensures o in RegisterRecv(st, h, e).ops && o in RegisterSend(st, h, e).ops
  {
  }

  // ---- every step ----

  /** How a step moves datagrams through the socket of `inc` at `h`. */
  ghost predicate Moves(w: World, l: Label, st1: State, inc: nat, h: Handle)
    requires UdpAt(w.st, inc, h) && UdpAt(st1, inc, h)
  {
    var p, q := w.st.sockets[h].p, st1.sockets[h].p;
    && p.inbox + Arrived(w, l, inc) == Picked(w, l, inc) + q.inbox
    && p.outbox + Posted(w, l, inc) == Departed(w, l, inc) + q.outbox
  }

  lemma StillMoves(w: World, l: Label, st1: State, inc: nat, h: Handle)
    requires UdpAt(w.st, inc, h) && UdpAt(st1, inc, h) && st1.sockets[h].p == w.st.sockets[h].p
    requires !Polls(w, l, inc) && !Handles(w, l, inc)
    ensures Moves(w, l, st1, inc, h)
  {
  }

  lemma PollMoves(w: World, l: Label, inc: nat, h: Handle)
    requires l.PollOne? && Enabled(w, l) && SocketsOk(w.st.sockets, w.st.born)
    requires UdpAt(Next(w, l).st, inc, h)
    ensures UdpAt(w.st, inc, h) && Moves(w, l, Next(w, l).st, inc, h)
  {
    hide Poll;
    PollSockets(w.st, l.h, l.effect);
    if l.h == h {
      EffectMoves(w.st.sockets[h].p, l.effect);
    } else {
      assert !Polls(w, l, inc);
      StillMoves(w, l, Next(w, l).st, inc, h);
    }
  }

  lemma EffectMoves(p: S.Proto, f: S.Effect)
    requires p.UdpSocket? && S.Possible(p, f)
    ensures var q := S.Affected(p, f);
      && (f.Arrive? ==> q.outbox == p.outbox && q.inbox == p.inbox + [f.datagram])
      && (f.Depart? ==> q.inbox == p.inbox && p.outbox == p.outbox[..f.n] + q.outbox)
      && (f.Arrive? || f.Depart?)
  {
  }

  lemma HandleMoves(w: World, l: Label, inc: nat, h: Handle)
    requires l.HandleNext? && Enabled(w, l) && SocketsOk(w.st.sockets, w.st.born) && RegistryMirrors(w.st.sockets, w.st.registered)
    requires UdpAt(Next(w, l).st, inc, h)
    ensures UdpAt(w.st, inc, h) && Moves(w, l, Next(w, l).st, inc, h)
  {
    hide Dispatch, SocketsOk, HandleUdp;
    var e := w.todo[0];
    HandlersTakeTurns(w.st, e);
    assert UdpAt(w.st, inc, h);
    if Handles(w, l, inc) && e.handle == h {
      RoutedToUdp(w.st, e);
      if e.Recv? {
        RecvAnswer(w.st, h, e.op);
      } else {
        SendAnswer(w.st, h, e.src, e.op);
      }
    } else {
      OthersStay(w, h, inc);
      StillMoves(w, l, Next(w, l).st, inc, h);
    }
  }

  lemma OthersStay(w: World, h: Handle, inc: nat)
    requires w.todo != [] && SocketsOk(w.st.sockets, w.st.born) && RegistryMirrors(w.st.sockets, w.st.registered)
    requires UdpAt(w.st, inc, h) && UdpAt(Dispatch(w.st, w.todo[0]), inc, h)
    requires Handles(w, HandleNext, inc) ==> w.todo[0].handle != h
    ensures !Handles(w, HandleNext, inc)
    ensures Dispatch(w.st, w.todo[0]).sockets[h].p == w.st.sockets[h].p
  {
    hide Dispatch;
    var e := w.todo[0];
    HandlersTakeTurns(w.st, e);
    assert Udp(h) in w.st.registered;
    if e.IsUdpData() && e.handle == h {
      NoOpNoTurn(w.st, e);
    }
  }

  lemma NoOpNoTurn(st: State, e: Event)
    requires e.IsUdpData() && e.op !in st.ops
    ensures Dispatch(st, e).sockets == st.sockets
  {
  }

  lemma PacketSockets(w: World, l: Label, h: Handle)
    requires Enabled(w, l) && (l.Syn? || l.UdpPacket?)
    requires h in Next(w, l).st.sockets
    ensures h != l.h ==> h in w.st.sockets && Next(w, l).st.sockets[h] == w.st.sockets[h]
    ensures h == l.h && HasUdp(Next(w, l).st, h) ==>
              && h !in w.st.sockets && Next(w, l).st.sockets[h].inc == |w.st.born| < |Next(w, l).st.born|
              && Next(w, l).st.sockets[h].p.inbox == Next(w, l).st.sockets[h].p.outbox == []
  {
  }

  lemma StepMoves(w: World, l: Label, w1: World, inc: nat, h: Handle)
    requires WorldInv(w, FREE) && Step(w, l, w1, FREE) && UdpAt(w1.st, inc, h)
    ensures UdpAt(w.st, inc, h) ==> Moves(w, l, w1.st, inc, h)
    ensures !UdpAt(w.st, inc, h) ==> inc == |w.st.born| < |w1.st.born| && w1.st.sockets[h].p.inbox == w1.st.sockets[h].p.outbox == []
  {
    hide Moves, Next, Enabled, Obeys;
    if l.PollOne? {
      PollMoves(w, l, inc, h);
    } else if l.HandleNext? {
      HandleMoves(w, l, inc, h);
    } else {
      if l.Syn? || l.UdpPacket? {
        PacketSockets(w, l, h);
      } else {
        ByteHistory.RestSockets(w, l, h);
      }
      if UdpAt(w.st, inc, h) {
        StillMoves(w, l, w1.st, inc, h);
      }
    }
  }

  /** A step that moves datagrams of an incarnation leaves it in the table. */
  lemma MoversStay(w: World, l: Label, w1: World, inc: nat)
    requires Step(w, l, w1, FREE)
    requires Arrived(w, l, inc) + Picked(w, l, inc) + Posted(w, l, inc) + Departed(w, l, inc) != []
    ensures exists h :: UdpAt(w.st, inc, h) && UdpAt(w1.st, inc, h)
  {
    hide Poll, HandleUdp, Dispatch;
    if l.PollOne? {
      PollSockets(w.st, l.h, l.effect);
      assert UdpAt(w1.st, inc, l.h);
    } else {
      var e := w.todo[0];
      RoutedToUdp(w.st, e);
      if e.Recv? {
        RecvAnswer(w.st, e.handle, e.op);
      } else {
        SendAnswer(w.st, e.handle, e.src, e.op);
      }
      assert UdpAt(w1.st, inc, e.handle);
    }
  }

  // ---- whole runs ----

  /** The datagrams one incarnation has moved so far, in order. */
  datatype Traffic = Traffic(arrived: seq<S.Datagram>, picked: seq<S.Datagram>, posted: seq<S.Datagram>, departed: seq<S.Datagram>)

  function Add(b: Traffic, w: World, l: Label, inc: nat): Traffic {
    Traffic(b.arrived + Arrived(w, l, inc), b.picked + Picked(w, l, inc),
            b.posted + Posted(w, l, inc), b.departed + Departed(w, l, inc))
  }

  function History(ws: seq<World>, ls: seq<Label>, inc: nat, n: nat): Traffic
    requires n <= |ls| < |ws|
  {
    if n == 0 then Traffic([], [], [], []) else Add(History(ws, ls, inc, n - 1), ws[n - 1], ls[n - 1], inc)
  }

  predicate Balanced(p: S.Proto, b: Traffic)
    requires p.UdpSocket?
  {
    b.picked + p.inbox == b.arrived && b.departed + p.outbox == b.posted
  }

  ghost predicate InOrder(st: State, b: Traffic, inc: nat) {
    && b.picked <= b.arrived
    && b.departed <= b.posted
    && (inc >= |st.born| ==> b == Traffic([], [], [], []))
    && (forall h :: UdpAt(st, inc, h) ==> Balanced(st.sockets[h].p, b))
  }

  lemma MovesBalance(w: World, l: Label, st1: State, inc: nat, h: Handle, b: Traffic)
    requires UdpAt(w.st, inc, h) && UdpAt(st1, inc, h) && Moves(w, l, st1, inc, h)
    requires Balanced(w.st.sockets[h].p, b)
    ensures var c := Add(b, w, l, inc);
            Balanced(st1.sockets[h].p, c) && c.picked <= c.arrived && c.departed <= c.posted
  {
    hide Arrived, Picked, Posted, Departed;
    var p, q, c := w.st.sockets[h].p, st1.sockets[h].p, Add(b, w, l, inc);
    assert c.departed + q.outbox == b.departed + (Departed(w, l, inc) + q.outbox);
    assert c.posted == b.departed + (p.outbox + Posted(w, l, inc));
    assert c.arrived == b.picked + (p.inbox + Arrived(w, l, inc));
    assert c.picked + q.inbox == b.picked + (Picked(w, l, inc) + q.inbox);
  }

  lemma StepInOrder(w: World, l: Label, w1: World, inc: nat, b: Traffic)
    requires WorldInv(w, FREE) && Step(w, l, w1, FREE) && InOrder(w.st, b, inc)
    ensures InOrder(w1.st, Add(b, w, l, inc), inc)
  {
    hide WorldInv, Step, Moves, Balanced, Arrived, Picked, Posted, Departed;
    var c := Add(b, w, l, inc);
    BornByPacket(w, l, w1, FREE);
    forall h | UdpAt(w1.st, inc, h)
      ensures Balanced(w1.st.sockets[h].p, c) && c.picked <= c.arrived && c.departed <= c.posted
    {
      StepMoves(w, l, w1, inc, h);
      if UdpAt(w.st, inc, h) {
        MovesBalance(w, l, w1.st, inc, h, b);
      } else {
        if Arrived(w, l, inc) + Picked(w, l, inc) + Posted(w, l, inc) + Departed(w, l, inc) != [] {
          MoversStay(w, l, w1, inc);
          KnownInc(w, inc);
          assert false;
        }
        FreshBalance(w1.st.sockets[h].p, c);
      }
    }
    if Arrived(w, l, inc) + Picked(w, l, inc) + Posted(w, l, inc) + Departed(w, l, inc) != [] {
      MoversStay(w, l, w1, inc);
      KnownInc(w, inc);
    } else {
      assert c == b;
    }
  }

  /** A socket in the table has an incarnation that was born. */
  lemma KnownInc(w: World, inc: nat)
    requires WorldInv(w, FREE)
    ensures forall h :: UdpAt(w.st, inc, h) ==> inc < |w.st.born|
  {
    forall h | UdpAt(w.st, inc, h)
      ensures inc < |w.st.born|
    {
      assert Addressed(w.st.sockets[h], w.st.born);
    }
  }

  lemma FreshBalance(p: S.Proto, b: Traffic)
    requires p.UdpSocket? && p.inbox == p.outbox == [] && b == Traffic([], [], [], [])
    ensures Balanced(p, b)
  {
  }

  lemma StartInOrder(bufSize: nat, inc: nat)
    ensures InOrder(Initial(bufSize), Traffic([], [], [], []), inc)
  {
  }

  lemma {:induction false} RunInOrder(ws: seq<World>, ls: seq<Label>, inc: nat, n: nat)
    requires Run(ws, ls, FREE) && n <= |ls|
    ensures InOrder(ws[n].st, History(ws, ls, inc, n), inc)
  {
    hide WorldInv, Step, InOrder, Add;
    if n == 0 {
      StartInOrder(ws[0].st.bufSize, inc);
    } else {
      RunInOrder(ws, ls, inc, n - 1);
      RunKeeps(ws, ls, FREE, n - 1);
      assert Step(ws[n - 1], ls[n - 1], ws[n - 1 + 1], FREE);
      StepInOrder(ws[n - 1], ls[n - 1], ws[n], inc, History(ws, ls, inc, n - 1));
    }
  }

  // ---- theorems ----

  /**
   In every run and for every incarnation, what receives took is a prefix of what arrived, and what left
   is a prefix of what sends handed in. While the socket is in the table the rest is in its queues.
   */
  lemma DatagramsInOrder(ws: seq<World>, ls: seq<Label>, inc: nat, i: nat, h: Handle)
    requires Run(ws, ls, FREE) && i <= |ls|
    ensures var b := History(ws, ls, inc, i);
            b.picked <= b.arrived && b.departed <= b.posted
    ensures UdpAt(ws[i].st, inc, h) ==>
              var b, p := History(ws, ls, inc, i), ws[i].st.sockets[h].p;
              b.picked + p.inbox == b.arrived && b.departed + p.outbox == b.posted
  {
    RunInOrder(ws, ls, inc, i);
  }

  lemma HandledAsUdp(w: World, l: Label, w1: World)
    requires Step(w, l, w1, FREE) && l.HandleNext? && w.todo != [] && w.todo[0].IsUdpData()
    ensures w1.st == HandleUdp(w.st, w.todo[0])
  {
    hide HandleUdp, Dispatch;
    RoutedToUdp(w.st, w.todo[0]);
  }

  /** A data event of a UDP socket in the table. */
  lemma InHand(w: World, h: Handle)
    requires WorldInv(w, FREE) && w.todo != [] && w.todo[0].IsUdpData() && w.todo[0].handle == h && HasUdp(w.st, h)
    ensures w.todo[0].op in w.st.ops && Udp(h) in w.st.registered
    ensures Handles(w, HandleNext, w.st.sockets[h].inc)
    ensures w.todo[0].Send? ==> w.st.ops[w.todo[0].op].kind == SendOp(w.todo[0].src)
  {
    PlaceIsWell(w, Doing(0), FREE);
  }

  /**
   A Recv that is handled on a UDP socket is parked, and then nothing has arrived that was not taken, or
   it takes the next datagram that arrived. If the library refuses, the buffer is left alone. Otherwise
   the answer names the sender of that datagram and the number of its bytes that fit, these bytes are in
   front of the buffer, and the rest of the buffer is unchanged.
   */
  lemma RecvGetsNextDatagram(ws: seq<World>, ls: seq<Label>, i: nat, h: Handle, o: OpId)
    requires Run(ws, ls, FREE) && i < |ls| && ls[i].HandleNext? && ws[i].todo != [] && ws[i].todo[0] == Recv(h, o) && HasUdp(ws[i].st, h)
    ensures o in ws[i].st.ops && o in ws[i + 1].st.ops && HasUdp(ws[i + 1].st, h)
    ensures var inc, op, op1 := ws[i].st.sockets[h].inc, ws[i].st.ops[o], ws[i + 1].st.ops[o];
            var b, c := History(ws, ls, inc, i), History(ws, ls, inc, i + 1);
            if b.picked == b.arrived then c == b && ws[i + 1].st.sockets[h].recvSlot == Some(Recv(h, o))
            else
              && |b.picked| < |b.arrived|
              && var d := b.arrived[|b.picked|];
              && c == b.(picked := b.picked + [d])
              && var n := S.Min(|d.data|, |op.buf|);
              if op.refused then op1.Answer() == Some(Err(Other)) && op1.buf == op.buf
              else op1.Answer() == Some(OkFrom(n, d.addr)) && op1.buf == d.data[..n] + op.buf[n..] && op1.init == n
  {
    hide HandleUdp, WorldInv, Step;
    var w := ws[i];
    var inc := w.st.sockets[h].inc;
    RunKeeps(ws, ls, FREE, i);
    assert Step(ws[i], ls[i], ws[i + 1], FREE);
    InHand(w, h);
    HandledAsUdp(w, ls[i], ws[i + 1]);
    RecvAnswer(w.st, h, o);
    DatagramsInOrder(ws, ls, inc, i, h);
    var b, p := History(ws, ls, inc, i), w.st.sockets[h].p;
    AddRecv(w, ls[i], inc, b);
    assert p.inbox == b.arrived[|b.picked|..];
  }

  lemma AddRecv(w: World, l: Label, inc: nat, b: Traffic)
    requires Handles(w, l, inc) && w.todo[0].Recv?
    ensures var p := w.st.sockets[w.todo[0].handle].p;
            Add(b, w, l, inc) == if p.inbox == [] then b else b.(picked := b.picked + [p.inbox[0]])
  {
  }

  /**
   A Send that is handled on a UDP socket is parked on a full socket, refused with nothing handed in, or
   answered with the length of its buffer, and then exactly that buffer is handed in for the address
   the client named.
   */
  lemma SendPostsItsDatagram(ws: seq<World>, ls: seq<Label>, i: nat, h: Handle, to: Addr, o: OpId)
    requires Run(ws, ls, FREE) && i < |ls| && ls[i].HandleNext? && ws[i].todo != [] && ws[i].todo[0] == Send(h, to, o) && HasUdp(ws[i].st, h)
    ensures o in ws[i].st.ops && o in ws[i + 1].st.ops && HasUdp(ws[i + 1].st, h) && ws[i].st.ops[o].kind == SendOp(to)
    ensures var inc, op, op1, p := ws[i].st.sockets[h].inc, ws[i].st.ops[o], ws[i + 1].st.ops[o], ws[i].st.sockets[h].p;
            var b, c := History(ws, ls, inc, i), History(ws, ls, inc, i + 1);
            if |p.outbox| >= S.UDP_PACKETS then c == b && ws[i + 1].st.sockets[h].sendSlot == Some(Send(h, to, o))
            else if op.refused then c == b && op1.Answer() == Some(Err(Other))
            else c == b.(posted := b.posted + [S.Datagram(to, op.buf)]) && op1.Answer() == Some(Ok(|op.buf|)) && op1.buf == op.buf
  {
    hide HandleUdp, WorldInv, Step;
    var w := ws[i];
    RunKeeps(ws, ls, FREE, i);
    assert Step(ws[i], ls[i], ws[i + 1], FREE);
    InHand(w, h);
    HandledAsUdp(w, ls[i], ws[i + 1]);
    SendAnswer(w.st, h, to, o);
    AddSend(w, ls[i], w.st.sockets[h].inc, History(ws, ls, w.st.sockets[h].inc, i));
  }

  lemma AddSend(w: World, l: Label, inc: nat, b: Traffic)
    requires Handles(w, l, inc) && w.todo[0].Send?
    ensures var p, op := w.st.sockets[w.todo[0].handle].p, w.st.ops[w.todo[0].op];
            Add(b, w, l, inc) == if |p.outbox| >= S.UDP_PACKETS || op.refused then b
                                 else b.(posted := b.posted + [S.Datagram(w.todo[0].src, op.buf)])
  {
  }

  // ---- sends put together ----

  /** The step handles a Send of the incarnation and answers that it was sent. */
  predicate Sends(w: World, l: Label, w1: World, inc: nat) {
    && Handles(w, l, inc) && w.todo[0].Send? && w.todo[0].op in w1.st.ops
    && w1.st.ops[w.todo[0].op].Answer().Some? && w1.st.ops[w.todo[0].op].Answer().value.Ok?
  }

  /** The Sends of an incarnation answered so in the steps from `i` to `j`, in order. */
  function AnsweredSends(ws: seq<World>, ls: seq<Label>, inc: nat, i: nat, j: nat): seq<OpId>
    requires i <= j <= |ls| < |ws|
    decreases j
  {
    if i == j then []
    else AnsweredSends(ws, ls, inc, i, j - 1) + (if Sends(ws[j - 1], ls[j - 1], ws[j], inc) then [ws[j - 1].todo[0].op] else [])
  }

  /** What the client asked to be sent. */
  function Letter(w: World, o: OpId): seq<S.Datagram> {
    if o in w.st.ops && w.st.ops[o].kind.SendOp? then [S.Datagram(w.st.ops[o].kind.to, w.st.ops[o].buf)] else []
  }

  function Letters(w: World, os: seq<OpId>): seq<S.Datagram> {
    if os == [] then [] else Letters(w, os[..|os| - 1]) + Letter(w, os[|os| - 1])
  }

  predicate Settled(w: World, os: seq<OpId>) {
    forall k :: 0 <= k < |os| ==> os[k] in w.st.ops && !w.st.ops[os[k]].stage.Held?
  }

  lemma {:induction false} LettersStay(w: World, l: Label, w1: World, os: seq<OpId>)
    requires WorldInv(w, FREE) && Step(w, l, w1, FREE) && Settled(w, os)
    ensures Settled(w1, os) && Letters(w1, os) == Letters(w, os)
  {
    hide WorldInv, Step;
    if os != [] {
      var n := |os| - 1;
      LettersStay(w, l, w1, os[..n]);
      StreamOps.SettledBuffer(w, l, w1, os[n]);
      SameKind(w, l, w1, os[n]);
      assert forall k :: 0 <= k < n ==> os[..n][k] == os[k];
    }
  }

  lemma LettersPush(w: World, os: seq<OpId>, o: OpId)
    ensures Letters(w, os + [o]) == Letters(w, os) + Letter(w, o)
  {
    assert (os + [o])[..|os|] == os;
  }

  /** A handled Send hands in its letter exactly when it is answered so. */
  lemma StepLetter(ws: seq<World>, ls: seq<Label>, inc: nat, k: nat)
    requires Run(ws, ls, FREE) && k < |ls|
    ensures if Sends(ws[k], ls[k], ws[k + 1], inc) then
              var o := ws[k].todo[0].op;
              !ws[k + 1].st.ops[o].stage.Held? && Posted(ws[k], ls[k], inc) == Letter(ws[k + 1], o)
            else Posted(ws[k], ls[k], inc) == []
  {
    hide WorldInv, Step;
    assert Step(ws[k], ls[k], ws[k + 1], FREE);
    if Handles(ws[k], ls[k], inc) && ws[k].todo[0].Send? {
      RunKeeps(ws, ls, FREE, k);
      RunKeeps(ws, ls, FREE, k + 1);
      SendLetter(ws[k], ls[k], ws[k + 1], inc);
    }
  }

  lemma SendLetter(w: World, l: Label, w1: World, inc: nat)
    requires WorldInv(w, FREE) && WorldInv(w1, FREE) && Step(w, l, w1, FREE) && Handles(w, l, inc) && w.todo[0].Send?
    ensures w.todo[0].op in w1.st.ops
    ensures if Sends(w, l, w1, inc) then
              !w1.st.ops[w.todo[0].op].stage.Held? && Posted(w, l, inc) == Letter(w1, w.todo[0].op)
            else Posted(w, l, inc) == []
  {
    hide HandleUdp, WorldInv, Step, SameStreams;
    var h, to, o := w.todo[0].handle, w.todo[0].src, w.todo[0].op;
    InHand(w, h);
    HandledAsUdp(w, l, w1);
    SendAnswer(w.st, h, to, o);
    SameKind(w, l, w1, o);
    if |w.st.sockets[h].p.outbox| >= S.UDP_PACKETS {
      OwedAt(w1, SendSlotOf(h), Send(h, to, o));
    }
  }

  lemma SameKind(w: World, l: Label, w1: World, o: OpId)
    requires Step(w, l, w1, FREE) && o in w.st.ops
    ensures o in w1.st.ops && w1.st.ops[o].kind == w.st.ops[o].kind
  {
    hide Step;
    StepSameStreams(w, l, w1, FREE);
  }

  /**
   In any run and between any two points of it, what was handed in on a UDP socket is exactly the letters
   of the Sends answered so, one after another, and what leaves the socket leaves in that order.
   */
  lemma {:induction false} SendsFollowTheOrder(ws: seq<World>, ls: seq<Label>, inc: nat, i: nat, j: nat)
    requires Run(ws, ls, FREE) && i <= j <= |ls|
    ensures Settled(ws[j], AnsweredSends(ws, ls, inc, i, j))
    ensures var b, c := History(ws, ls, inc, i), History(ws, ls, inc, j);
            c.posted == b.posted + Letters(ws[j], AnsweredSends(ws, ls, inc, i, j)) && c.departed <= c.posted
    decreases j
  {
    hide WorldInv, Step, Sends, Posted, Letter, Arrived, Picked, Departed;
    DatagramsInOrder(ws, ls, inc, j, 0);
    if i < j {
      var k := j - 1;
      SendsFollowTheOrder(ws, ls, inc, i, k);
      RunKeeps(ws, ls, FREE, k);
      assert Step(ws[k], ls[k], ws[k + 1], FREE);
      StepLetter(ws, ls, inc, k);
      OneMore(ws, ls, inc, i, k);
    }
  }

  lemma OneMore(ws: seq<World>, ls: seq<Label>, inc: nat, i: nat, k: nat)
    requires i <= k < |ls| < |ws| && WorldInv(ws[k], FREE) && Step(ws[k], ls[k], ws[k + 1], FREE)
    requires Settled(ws[k], AnsweredSends(ws, ls, inc, i, k))
    requires History(ws, ls, inc, k).posted == History(ws, ls, inc, i).posted + Letters(ws[k], AnsweredSends(ws, ls, inc, i, k))
    requires if Sends(ws[k], ls[k], ws[k + 1], inc) then
               !ws[k + 1].st.ops[ws[k].todo[0].op].stage.Held? && Posted(ws[k], ls[k], inc) == Letter(ws[k + 1], ws[k].todo[0].op)
             else Posted(ws[k], ls[k], inc) == []
    ensures Settled(ws[k + 1], AnsweredSends(ws, ls, inc, i, k + 1))
    ensures History(ws, ls, inc, k + 1).posted
            == History(ws, ls, inc, i).posted + Letters(ws[k + 1], AnsweredSends(ws, ls, inc, i, k + 1))
  {
    hide WorldInv, Step, Posted, Letter, Letters, Arrived, Picked, Departed;
    var os := AnsweredSends(ws, ls, inc, i, k);
    LettersStay(ws[k], ls[k], ws[k + 1], os);
    assert History(ws, ls, inc, k + 1).posted == History(ws, ls, inc, k).posted + Posted(ws[k], ls[k], inc);
    if Sends(ws[k], ls[k], ws[k + 1], inc) {
      LettersPush(ws[k + 1], os, ws[k].todo[0].op);
      assert AnsweredSends(ws, ls, inc, i, k + 1) == os + [ws[k].todo[0].op];
    } else {
      assert AnsweredSends(ws, ls, inc, i, k + 1) == os + [] == os;
    }
  }
}
