/**
 The byte streams over whole runs of the system: with any number of clients, reused handles, waker
 re-queues and batches in any order, the bytes that reads hand out on one socket incarnation are,
 one after another, the bytes its peer sent, and the bytes that writes hand in are the bytes that
 leave it.
 */
module ByteHistory {
  import opened Event
  import opened Operation
  import opened Stack
  import opened Invariant
  import opened Parked
  import opened World
  import opened Steps
  import opened Turns
  import opened Places
  import opened Theorems
  import opened Births
  import Lifecycle
  import S = Smoltcp

  /** Incarnation `inc` is the TCP socket at handle `h`. */
  predicate SocketAt(st: State, inc: nat, h: Handle) {
    HasTcp(st, h) && st.sockets[h].inc == inc
  }

  // ---- what one step contributes ----

  predicate Polls(w: World, l: Label, inc: nat) {
    l.PollOne? && Enabled(w, l) && SocketAt(w.st, inc, l.h)
  }

  predicate Handles(w: World, l: Label, inc: nat) {
    l.HandleNext? && w.todo != [] && w.todo[0].IsTcpData() && SocketAt(w.st, inc, w.todo[0].handle)
    && Tcp(w.todo[0].handle) in w.st.registered && w.todo[0].op in w.st.ops
  }

  /** Bytes from the peer. */
  function Delivered(w: World, l: Label, inc: nat): seq<Byte> {
    if Polls(w, l, inc) && l.effect.Deliver? then l.effect.bytes else []
  }

  /** Bytes copied into the buffer of the Read that is handled. */
  function Taken(w: World, l: Label, inc: nat): seq<Byte> {
    if Handles(w, l, inc) && w.todo[0].Read? then
      TakenBy(w.st.sockets[w.todo[0].handle].p, w.st.ops[w.todo[0].op].buf)
    else []
  }

  /** Bytes taken from the buffer of the Write that is handled. */
  function Accepted(w: World, l: Label, inc: nat): seq<Byte> {
    if Handles(w, l, inc) && w.todo[0].Write? then
      AppendedBy(w.st.sockets[w.todo[0].handle].p, w.st.ops[w.todo[0].op].buf)
    else []
  }

  /** Bytes that leave the transmit queue, acknowledged or thrown away by a reset. */
  function Departed(w: World, l: Label, inc: nat): seq<Byte> {
    if Polls(w, l, inc) && l.effect.Acked? then w.st.sockets[l.h].p.tx[..l.effect.n]
    else if Polls(w, l, inc) && l.effect.Reset? then w.st.sockets[l.h].p.tx
    else []
  }

  // ---- what one handler does ----

  lemma ReadExactly(st: State, h: Handle, o: OpId)
    requires HasTcp(st, h) && Tcp(h) in st.registered && o in st.ops
    ensures var p, r := st.sockets[h].p, HandleTcp(st, Read(h, o));
            HasTcp(r, h) && r.sockets[h].p == p.(rx := p.rx[|TakenBy(p, st.ops[o].buf)|..])
  {
    hide RegisterRecv;
  }

  lemma WriteExactly(st: State, h: Handle, o: OpId)
    requires HasTcp(st, h) && Tcp(h) in st.registered && o in st.ops
    ensures var p, r := st.sockets[h].p, HandleTcp(st, Write(h, o));
            HasTcp(r, h) && r.sockets[h].p == p.(tx := p.tx + AppendedBy(p, st.ops[o].buf))
  {
    hide RegisterSend;
  }

  /** How the step from `w` to `w1` moves bytes through the socket of `inc` at `h`. */
  ghost predicate Moves(w: World, l: Label, st1: State, inc: nat, h: Handle)
    requires SocketAt(w.st, inc, h) && SocketAt(st1, inc, h)
  {
    var p, q := w.st.sockets[h].p, st1.sockets[h].p;
    && (p.state.Closed? ==> q.state.Closed?)
    && p.tx + Accepted(w, l, inc) == Departed(w, l, inc) + q.tx
    && if Polls(w, l, inc) && l.effect.Reset? then q.state.Closed? && q.rx == [] && Taken(w, l, inc) == Delivered(w, l, inc) == []
       else p.rx + Delivered(w, l, inc) == Taken(w, l, inc) + q.rx
  }

  lemma StillMoves(w: World, l: Label, st1: State, inc: nat, h: Handle)
    requires SocketAt(w.st, inc, h) && SocketAt(st1, inc, h) && st1.sockets[h].p == w.st.sockets[h].p
    requires !l.PollOne? && !l.HandleNext?
    ensures Moves(w, l, st1, inc, h)
  {
  }

  lemma PollMoves(w: World, l: Label, inc: nat, h: Handle)
    requires l.PollOne? && Enabled(w, l) && SocketsOk(w.st.sockets, w.st.born)
    requires SocketAt(Next(w, l).st, inc, h)
    ensures SocketAt(w.st, inc, h) && Moves(w, l, Next(w, l).st, inc, h)
  {
    hide Poll;
    PollSockets(w.st, l.h, l.effect);
    if l.h == h {
      EffectMoves(w.st.sockets[h].p, l.effect);
    } else {
      assert !Polls(w, l, inc);
    }
  }

  lemma EffectMoves(p: S.Proto, f: S.Effect)
    requires p.TcpSocket? && S.Possible(p, f)
    ensures var q := S.Affected(p, f);
      && (p.state.Closed? ==> q.state.Closed?)
      && (f.Acked? ==> p.tx == p.tx[..f.n] + q.tx && q.rx == p.rx)
      && (f.Reset? ==> q.tx == [] && q.rx == [] && q.state.Closed?)
      && (f.Deliver? ==> q.tx == p.tx && q.rx == p.rx + f.bytes)
      && (f.Move? ==> q.tx == p.tx && q.rx == p.rx)
  {
  }

  lemma HandleMoves(w: World, l: Label, inc: nat, h: Handle)
    requires l.HandleNext? && Enabled(w, l) && SocketsOk(w.st.sockets, w.st.born) && RegistryMirrors(w.st.sockets, w.st.registered)
    requires SocketAt(Next(w, l).st, inc, h)
    ensures SocketAt(w.st, inc, h) && Moves(w, l, Next(w, l).st, inc, h)
  {
    hide Dispatch, SocketsOk, HandleTcp;
    var e := w.todo[0];
    var st1 := Dispatch(w.st, e);
    HandlersTakeTurns(w.st, e);
    assert SocketAt(w.st, inc, h);
    if Handles(w, l, inc) && e.handle == h {
      RoutedToTcp(w.st, e);
      if e.Read? {
        ReadExactly(w.st, h, e.op);
      } else {
        WriteExactly(w.st, h, e.op);
      }
    } else {
      OthersStay(w, h, inc);
    }
  }

  lemma RoutedToTcp(st: State, e: Event)
    requires e.IsTcpData()
    ensures Dispatch(st, e) == HandleTcp(st, e)
  {
  }

  /** Handling anything but a Read or Write of `h` leaves its queues alone. */
  lemma OthersStay(w: World, h: Handle, inc: nat)
    requires w.todo != [] && SocketsOk(w.st.sockets, w.st.born) && RegistryMirrors(w.st.sockets, w.st.registered)
    requires SocketAt(w.st, inc, h) && SocketAt(Dispatch(w.st, w.todo[0]), inc, h)
    requires Handles(w, HandleNext, inc) ==> w.todo[0].handle != h
    ensures !Handles(w, HandleNext, inc)
    ensures var p, q := w.st.sockets[h].p, Dispatch(w.st, w.todo[0]).sockets[h].p;
            q.rx == p.rx && q.tx == p.tx && (p.state.Closed? ==> q.state.Closed?)
  {
    hide Dispatch;
    var e := w.todo[0];
    HandlersTakeTurns(w.st, e);
    assert Tcp(h) in w.st.registered;
  }

  // ---- every step ----

  /** Only poll, handlers and new packets do anything to sockets but empty their slots. */
  lemma RestSockets(w: World, l: Label, h: Handle)
    requires Enabled(w, l) && !l.PollOne? && !l.HandleNext? && !l.Syn? && !l.UdpPacket?
    requires h in Next(w, l).st.sockets
    ensures h in w.st.sockets && Next(w, l).st.sockets[h].inc == w.st.sockets[h].inc
    ensures Next(w, l).st.sockets[h].p == w.st.sockets[h].p
  {
    hide Do;
    match l
    case DropStack => Lifecycle.DiscardAllFrame(w.st, w.todo);
    case DropGenerator(n) => Lifecycle.DiscardAllFrame(w.st.(queue := w.st.queue[..n], queueOpen := false), w.st.queue[n..]);
    case _ =>
  }

  lemma PacketSockets(w: World, l: Label, h: Handle)
    requires Enabled(w, l) && (l.Syn? || l.UdpPacket?)
    requires h in Next(w, l).st.sockets
    ensures h != l.h ==> h in w.st.sockets && Next(w, l).st.sockets[h] == w.st.sockets[h]
    ensures h == l.h && HasTcp(Next(w, l).st, h) ==>
              && h !in w.st.sockets && Next(w, l).st.sockets[h].inc == |w.st.born| < |Next(w, l).st.born|
              && Next(w, l).st.sockets[h].p.rx == Next(w, l).st.sockets[h].p.tx == []
  {
  }

  /** How every step moves the bytes of one incarnation; a new incarnation starts with empty queues. */
  lemma StepMoves(w: World, l: Label, w1: World, inc: nat, h: Handle)
    requires WorldInv(w, FREE) && Step(w, l, w1, FREE) && SocketAt(w1.st, inc, h)
    ensures SocketAt(w.st, inc, h) ==> Moves(w, l, w1.st, inc, h)
    ensures !SocketAt(w.st, inc, h) ==> inc == |w.st.born| < |w1.st.born| && w1.st.sockets[h].p.rx == w1.st.sockets[h].p.tx == []
  {
    hide Moves, Next, Enabled, Obeys;
    if l.PollOne? {
      PollMoves(w, l, inc, h);
    } else if l.HandleNext? {
      HandleMoves(w, l, inc, h);
    } else {
      if l.Syn? || l.UdpPacket? {
        PacketSockets(w, l, h);
      } else {
        RestSockets(w, l, h);
      }
      if SocketAt(w.st, inc, h) {
        StillMoves(w, l, w1.st, inc, h);
      }
    }
  }

  /** A step that moves bytes of an incarnation leaves it in the table. */
  lemma MoversStay(w: World, l: Label, w1: World, inc: nat)
    requires Step(w, l, w1, FREE)
    requires Delivered(w, l, inc) + Taken(w, l, inc) + Accepted(w, l, inc) + Departed(w, l, inc) != []
    ensures exists h :: SocketAt(w.st, inc, h) && SocketAt(w1.st, inc, h)
  {
    hide Poll, HandleTcp, Dispatch;
    if l.PollOne? {
      PollSockets(w.st, l.h, l.effect);
      assert SocketAt(w1.st, inc, l.h);
    } else {
      var e := w.todo[0];
      RoutedToTcp(w.st, e);
      HandlersTakeTurns(w.st, e);
      if e.Read? {
        ReadExactly(w.st, e.handle, e.op);
      } else {
        WriteExactly(w.st, e.handle, e.op);
      }
      assert SocketAt(w1.st, inc, e.handle);
    }
  }

  // ---- whole runs ----

  /** The bytes one incarnation has moved so far, in order. */
  datatype Bytes = Bytes(delivered: seq<Byte>, taken: seq<Byte>, accepted: seq<Byte>, departed: seq<Byte>)

  function Add(b: Bytes, w: World, l: Label, inc: nat): Bytes {
    Bytes(b.delivered + Delivered(w, l, inc), b.taken + Taken(w, l, inc),
          b.accepted + Accepted(w, l, inc), b.departed + Departed(w, l, inc))
  }

  /** The bytes moved in the first `n` steps of a run. */
  function History(ws: seq<World>, ls: seq<Label>, inc: nat, n: nat): Bytes
    requires n <= |ls| < |ws|
  {
    if n == 0 then Bytes([], [], [], []) else Add(History(ws, ls, inc, n - 1), ws[n - 1], ls[n - 1], inc)
  }

  ghost predicate InOrder(st: State, b: Bytes, inc: nat) {
    && b.taken <= b.delivered
    && b.departed <= b.accepted
    && (inc >= |st.born| ==> b == Bytes([], [], [], []))
    && (forall h :: SocketAt(st, inc, h) ==> Balanced(st.sockets[h].p, b))
  }

  predicate Balanced(p: S.Proto, b: Bytes)
    requires p.TcpSocket?
  {
    && (b.taken + p.rx == b.delivered || (p.state.Closed? && p.rx == []))
    && b.departed + p.tx == b.accepted
  }

  lemma MovesBalance(w: World, l: Label, st1: State, inc: nat, h: Handle, b: Bytes)
    requires SocketAt(w.st, inc, h) && SocketAt(st1, inc, h) && Moves(w, l, st1, inc, h)
    requires SocketsOk(w.st.sockets, w.st.born)
    requires Balanced(w.st.sockets[h].p, b) && b.taken <= b.delivered
    ensures var c := Add(b, w, l, inc);
            Balanced(st1.sockets[h].p, c) && c.taken <= c.delivered && c.departed <= c.accepted
  {
    var p, q, c := w.st.sockets[h].p, st1.sockets[h].p, Add(b, w, l, inc);
    assert c.departed + q.tx == b.departed + (Departed(w, l, inc) + q.tx);
    assert c.accepted == b.departed + (p.tx + Accepted(w, l, inc));
    if Polls(w, l, inc) && l.effect.Reset? {
      assert c.taken == b.taken && c.delivered == b.delivered;
    } else if b.taken + p.rx == b.delivered {
      assert c.delivered == b.taken + (p.rx + Delivered(w, l, inc));
      assert c.taken + q.rx == b.taken + (Taken(w, l, inc) + q.rx);
    } else {
      assert Delivered(w, l, inc) == [];
    }
  }

  lemma StepInOrder(w: World, l: Label, w1: World, inc: nat, b: Bytes)
    requires WorldInv(w, FREE) && Step(w, l, w1, FREE) && InOrder(w.st, b, inc)
    ensures InOrder(w1.st, Add(b, w, l, inc), inc)
  {
    hide WorldInv, Step, Moves, Balanced, Delivered, Taken, Accepted, Departed;
    var c := Add(b, w, l, inc);
    BornByPacket(w, l, w1, FREE);
    StepSocketsOk(w);
    forall h | SocketAt(w1.st, inc, h)
      ensures Balanced(w1.st.sockets[h].p, c) && c.taken <= c.delivered && c.departed <= c.accepted
    {
      StepMoves(w, l, w1, inc, h);
      if SocketAt(w.st, inc, h) {
        MovesBalance(w, l, w1.st, inc, h, b);
      } else {
        if Delivered(w, l, inc) + Taken(w, l, inc) + Accepted(w, l, inc) + Departed(w, l, inc) != [] {
          MoversStay(w, l, w1, inc);
          assert false;
        }
        FreshBalance(w1.st.sockets[h].p, c);
      }
    }
    if Delivered(w, l, inc) + Taken(w, l, inc) + Accepted(w, l, inc) + Departed(w, l, inc) != [] {
      MoversStay(w, l, w1, inc);
    } else {
      assert c == b;
    }
  }

  lemma StepSocketsOk(w: World)
    requires WorldInv(w, FREE)
    ensures SocketsOk(w.st.sockets, w.st.born)
  {
  }

  lemma FreshBalance(p: S.Proto, b: Bytes)
    requires p.TcpSocket? && p.rx == p.tx == [] && b == Bytes([], [], [], [])
    ensures Balanced(p, b)
  {
  }

  lemma StartInOrder(bufSize: nat, inc: nat)
    ensures InOrder(Initial(bufSize), Bytes([], [], [], []), inc)
  {
  }

  lemma {:induction false} RunInOrder(ws: seq<World>, ls: seq<Label>, inc: nat, n: nat)
    requires Run(ws, ls, FREE) && n <= |ls|
    ensures InOrder(ws[n].st, History(ws, ls, inc, n), inc)
  {
    hide WorldInv, Step, InOrder, Add;
    if n == 0 {
      StartInOrder(ws[0].st.bufSize, inc);
    } else {
      RunInOrder(ws, ls, inc, n - 1);
      RunKeeps(ws, ls, FREE, n - 1);
      assert Step(ws[n - 1], ls[n - 1], ws[n - 1 + 1], FREE);
      StepInOrder(ws[n - 1], ls[n - 1], ws[n], inc, History(ws, ls, inc, n - 1));
    }
  }

  // ---- theorems ----

  /**
   In every run and for every incarnation, what reads were given is a prefix of what the peer sent,
   and what left is a prefix of what writes handed in. While the socket is in the table the rest is
   in its queues, unless a reset has thrown the receive queue away.
   */
  lemma BytesInOrder(ws: seq<World>, ls: seq<Label>, inc: nat, i: nat, h: Handle)
    requires Run(ws, ls, FREE) && i <= |ls|
    ensures var b := History(ws, ls, inc, i);
            b.taken <= b.delivered && b.departed <= b.accepted
    ensures SocketAt(ws[i].st, inc, h) ==>
              var b, p := History(ws, ls, inc, i), ws[i].st.sockets[h].p;
              && b.departed + p.tx == b.accepted
              && (b.taken + p.rx == b.delivered || (p.state.Closed? && p.rx == []))
  {
    RunInOrder(ws, ls, inc, i);
  }

  /** A disciplined run is a run. */
  lemma StrictIsFree(ws: seq<World>, ls: seq<Label>)
    requires Run(ws, ls, STRICT)
    ensures Run(ws, ls, FREE)
  {
    hide Enabled, Next, Obeys;
  }

  /** What the read arm does to the operation. */
  lemma ReadAnswer(st: State, h: Handle, o: OpId)
    requires HasTcp(st, h) && Tcp(h) in st.registered && o in st.ops
    ensures var p, op, r := st.sockets[h].p, st.ops[o], HandleTcp(st, Read(h, o));
            var got := TakenBy(p, op.buf);
            && o in r.ops
            && (if p.rx == [] && S.MayRecv(p) then HasTcp(r, h) && r.sockets[h].recvSlot == Some(Read(h, o)) && got == []
                else r.ops[o].Answer() == Some(Ok(|got|)) && r.ops[o].buf == got + op.buf[|got|..]
                     && (p.rx != [] ==> r.ops[o].init == |got|))
  {
    hide DiscardSlot;
    var p, op := st.sockets[h].p, st.ops[o];
    if p.rx == [] && S.MayRecv(p) {
      assert ReadOutcome(p, op.buf, op.init) == Park;
      RegisterKeepsOps(st, h, Read(h, o), o);
    }
  }

  lemma WriteAnswer(st: State, h: Handle, o: OpId)
    requires HasTcp(st, h) && Tcp(h) in st.registered && o in st.ops
    ensures var p, op, r := st.sockets[h].p, st.ops[o], HandleTcp(st, Write(h, o));
            var put := AppendedBy(p, op.buf);
            && o in r.ops
            && (if !S.MaySend(p.state) then r.ops[o].Answer() == Some(Err(BrokenPipe)) && put == []
                else if |p.tx| >= p.cap then HasTcp(r, h) && r.sockets[h].sendSlot == Some(Write(h, o)) && put == []
                else r.ops[o].Answer() == Some(Ok(|put|)) && r.ops[o].buf == op.buf
                     && put == op.buf[..|put|] && (op.buf != [] ==> put != []))
  {
    hide DiscardSlot;
    var p, op := st.sockets[h].p, st.ops[o];
    if S.MaySend(p.state) && |p.tx| >= p.cap {
      assert WriteOutcome(p, op.buf, op.init) == Park;
      RegisterKeepsOps(st, h, Write(h, o), o);
    }
  }

  lemma RegisterKeepsOps(st: State, h: Handle, e: Event, o: OpId)
    requires h in st.sockets && o in st.ops
    ensures o in RegisterRecv(st, h, e).ops && o in RegisterSend(st, h, e).ops
  {
  }

  /** Under the discipline the socket a data event is handled on is the one it was issued for. */
  lemma HandledOnOwnSocket(ws: seq<World>, ls: seq<Label>, i: nat)
    requires Run(ws, ls, STRICT) && i < |ls| && ls[i].HandleNext? && ws[i].todo != [] && ws[i].todo[0].IsTcpData()
    ensures var w := ws[i];
            && w.todo[0].op in w.st.ops && Handles(w, ls[i], w.st.ops[w.todo[0].op].inc)
            && ws[i + 1].st == HandleTcp(w.st, w.todo[0])
  {
    hide HandleTcp, Dispatch, Enabled;
    var w := ws[i];
    var e := w.todo[0];
    assert ItemAt(w, Doing(0)) == Some(Operation(e));
    IncarnationSafety(ws, ls, i, Doing(0), e);
    StrictIsFree(ws, ls);
    TablesAgree(ws, ls, i);
    RoutedToTcp(w.st, e);
    assert Step(ws[i], ls[i], ws[i + 1], STRICT);
    assert Tcp(e.handle) in w.st.registered;
  }

  /** The operation was answered with some `n` and the first `n` bytes of its buffer are the next ones of the stream. */
  predicate GotNext(op: Op, op1: Op, b: Bytes, c: Bytes) {
    && op1.Answer().Some? && op1.Answer().value.Ok? && op1.Answer().value.n <= |op1.buf| == |op.buf|
    && var n := op1.Answer().value.n;
    && c.taken == b.taken + op1.buf[..n] && op1.buf[n..] == op.buf[n..]
    && |b.taken| + n <= |c.delivered| && op1.buf[..n] == c.delivered[|b.taken|..|b.taken| + n]
  }

  /**
   A Read that the driver handles is parked, and then there is nothing to read yet, or it is answered
   with the number of bytes it got, and its buffer holds just the next bytes of the peer's stream:
   none only when it asked for none or when the stream has ended.
   */
  lemma ReadGetsNextBytes(ws: seq<World>, ls: seq<Label>, i: nat, h: Handle, o: OpId)
    requires Run(ws, ls, STRICT) && i < |ls| && ls[i].HandleNext? && ws[i].todo != [] && ws[i].todo[0] == Read(h, o)
    ensures o in ws[i].st.ops && o in ws[i + 1].st.ops && SocketAt(ws[i].st, ws[i].st.ops[o].inc, h)
    ensures var op, op1, p := ws[i].st.ops[o], ws[i + 1].st.ops[o], ws[i].st.sockets[h].p;
            var b, c := History(ws, ls, op.inc, i), History(ws, ls, op.inc, i + 1);
            if p.rx == [] && S.MayRecv(p) then
              h in ws[i + 1].st.sockets && ws[i + 1].st.sockets[h].recvSlot == Some(Read(h, o)) && c == b
            else
              && GotNext(op, op1, b, c) && (op1.Answer() == Some(Ok(0)) && op.buf != [] ==> p.rx == [] && !S.MayRecv(p))
              && (p.rx != [] ==> op1.init == op1.Answer().value.n)
  {
    hide HandleTcp, Step, Dispatch, GotNext, Add, TakenBy;
    HandledOnOwnSocket(ws, ls, i);
    var w, op := ws[i], ws[i].st.ops[o];
    ReadAnswer(w.st, h, o);
    var got := TakenBy(w.st.sockets[h].p, op.buf);
    var b, c := History(ws, ls, op.inc, i), History(ws, ls, op.inc, i + 1);
    AddRead(w, ls[i], op.inc, b);
    NothingTaken(w.st.sockets[h].p, op.buf);
    if !(w.st.sockets[h].p.rx == [] && S.MayRecv(w.st.sockets[h].p)) {
      StrictIsFree(ws, ls);
      BytesInOrder(ws, ls, op.inc, i + 1, h);
      GotIt(op, ws[i + 1].st.ops[o], b, c, got);
    }
  }

  lemma AddRead(w: World, l: Label, inc: nat, b: Bytes)
    requires Handles(w, l, inc) && w.todo[0].Read?
    ensures Add(b, w, l, inc).delivered == b.delivered && Add(b, w, l, inc).taken == b.taken + Taken(w, l, inc)
    ensures Taken(w, l, inc) == [] ==> Add(b, w, l, inc) == b
  {
  }

  lemma NothingTaken(p: S.Proto, buf: seq<Byte>)
    requires p.TcpSocket?
    ensures |TakenBy(p, buf)| <= |buf|
    ensures TakenBy(p, buf) == [] <==> p.rx == [] || buf == []
  {
  }

  lemma GotIt(op: Op, op1: Op, b: Bytes, c: Bytes, got: seq<Byte>)
    requires |got| <= |op.buf| && op1.buf == got + op.buf[|got|..] && op1.Answer() == Some(Ok(|got|))
    requires c.taken == b.taken + got && c.taken <= c.delivered
    ensures GotNext(op, op1, b, c)
  {
  }

  /**
   A Write that the driver handles is parked on a full queue, refused because the transmit half is
   closed, or answered with a number of bytes, at least one if there are any, and exactly that many
   bytes from the front of its buffer follow what earlier writes handed in.
   */
  lemma WriteAppendsItsBytes(ws: seq<World>, ls: seq<Label>, i: nat, h: Handle, o: OpId)
    requires Run(ws, ls, STRICT) && i < |ls| && ls[i].HandleNext? && ws[i].todo != [] && ws[i].todo[0] == Write(h, o)
    ensures o in ws[i].st.ops && o in ws[i + 1].st.ops && SocketAt(ws[i].st, ws[i].st.ops[o].inc, h)
    ensures var op, op1, p := ws[i].st.ops[o], ws[i + 1].st.ops[o], ws[i].st.sockets[h].p;
            var b, c := History(ws, ls, op.inc, i), History(ws, ls, op.inc, i + 1);
            if !S.MaySend(p.state) then op1.Answer() == Some(Err(BrokenPipe)) && c == b
            else if |p.tx| >= p.cap then
              h in ws[i + 1].st.sockets && ws[i + 1].st.sockets[h].sendSlot == Some(Write(h, o)) && c == b
            else
              && op1.Answer().Some? && op1.Answer().value.Ok? && op1.Answer().value.n <= |op.buf|
              && c.accepted == b.accepted + op.buf[..op1.Answer().value.n] && (op.buf != [] ==> op1.Answer().value.n > 0)
  {
    hide HandleTcp, Step, Dispatch;
    HandledOnOwnSocket(ws, ls, i);
    var w, op := ws[i], ws[i].st.ops[o];
    WriteAnswer(w.st, h, o);
    var put := AppendedBy(w.st.sockets[h].p, op.buf);
    var b, c := History(ws, ls, op.inc, i), History(ws, ls, op.inc, i + 1);
    assert c == Bytes(b.delivered, b.taken, b.accepted + put, b.departed);
  }
}
