/** Every step of the system keeps its invariant. */
module Steps {
  import opened Event
  import opened Operation
  import opened Stack
  import opened Invariant
  import opened Handlers
  import opened Parked
  import opened World
  import S = Smoltcp

  // ---- driver steps ----

  lemma BlockedKnowsPeers(sockets: map<Handle, S.Socket>)
    requires AllBlocked(sockets)
    ensures PeersKnown(sockets)
  {
    forall h | h in sockets && sockets[h].p.TcpSocket? && S.MayRecv(sockets[h].p)
      ensures sockets[h].p.peer.Some?
    {
      assert Blocked(sockets[h]);
    }
  }

  lemma PacketKeeps(w: World, l: Label, d: Mode)
    requires WorldInv(w, d) && Enabled(w, l) && (l.Syn? || l.UdpPacket?)
    ensures WorldInv(Next(w, l), d)
  {
    hide Inv;
    var clients := View(w, d);
    var whole := d.tokens && Whole(w);
    if l.Syn? {
      if l.dst.port == 0 {
        Weaken(w.st, w.todo, clients, whole);
      } else {
        KeepInitTcp(w.st, l.dst, l.h, w.todo, clients, whole);
        SetBlocked(w.st.sockets, l.h, InitTcp(w.st, l.dst, l.h).value.sockets[l.h]);
      }
    } else {
      KeepTryInitUdp(w.st, l.dst, l.h, w.todo, clients, whole);
      Weaken(w.st, w.todo, clients, whole);
      if l.dst !in w.st.accepted && l.dst.port != 0 {
        SetBlocked(w.st.sockets, l.h, S.Socket(|w.st.born|, S.Bound(l.dst).value, None, None));
      }
    }
  }

  lemma Weaken(st: State, hands: seq<Event>, clients: Streams, whole: bool)
    requires Inv(st, hands, clients, whole)
    ensures Inv(st, hands, clients, false)
  {
  }

  lemma PollOneKeeps(w: World, h: Handle, f: S.Effect, d: Mode)
    requires WorldInv(w, d) && Enabled(w, PollOne(h, f))
    ensures WorldInv(Next(w, PollOne(h, f)), d)
  {
    hide Inv, AllBlocked, Blocked, FireRecv, FireSend, S.Possible, S.Affected;
    KeepPoll(w.st, h, f, w.todo, View(w, d), d.tokens && Whole(w));
    PollKeepsBlocked(w.st, h, f);
  }

  /** Moving items around keeps the invariant. */
  lemma KeepMoved(st: State, hands: seq<Event>, st1: State, hands1: seq<Event>, clients: Streams, whole: bool)
    requires Inv(st, hands, clients, whole)
    requires st1 == st.(queue := st1.queue)
    requires forall x :: Total(st1, hands1, clients, x) == Total(st, hands, clients, x)
    ensures Inv(st1, hands1, clients, whole)
  {
    LinearSame(st, hands, st1, hands1, clients);
  }

  lemma TakeBatchKeeps(w: World, n: nat, d: Mode)
    requires WorldInv(w, d) && Enabled(w, TakeBatch(n))
    ensures WorldInv(Next(w, TakeBatch(n)), d)
  {
    hide Inv, Phased;
    var clients := View(w, d);
    var w1 := Next(w, TakeBatch(n));
    var q := w.st.queue;
    assert q == q[..n] + q[n..];
    forall x
      ensures Total(w1.st, w1.todo, clients, x) == Total(w.st, w.todo, clients, x)
    {
      PhasedCount(q[..n], x);
      CountConcat(q[..n], q[n..], x);
    }
    KeepMoved(w.st, w.todo, w1.st, w1.todo, clients, d.tokens && Whole(w));
  }

  /** Under the discipline, an operation in the hand belongs to a live stream of a present socket. */
  lemma OperationIsBacked(st: State, e: Event, rest: seq<Event>, clients: Streams, whole: bool)
    requires Inv(st, [e] + rest, clients, whole) && clients.strict && !e.IsToken()
    ensures e.op in st.ops && Present(st.sockets, e.Target(), st.ops[e.op].inc)
    ensures Backed(st, e, [e] + rest, clients)
  {
    OpOfInv(st, e, rest, clients, whole);
    var op := st.ops[e.op];
    assert AtClient(clients, Token(op.target, op.inc, true)) == 1;
    assert Total(st, [e] + rest, clients, Token(op.target, op.inc, true)) >= 1;
    assert op.target == e.Target();
  }

  lemma HandleNextKeeps(w: World, d: Mode)
    requires WorldInv(w, d) && Enabled(w, HandleNext) && Allowed(w, HandleNext, d)
    ensures WorldInv(Next(w, HandleNext), d)
  {
    hide Inv, AllBlocked, Dispatch, Backed, Displaces;
    var clients := View(w, d);
    var whole := d.tokens && Whole(w);
    var e, rest := w.todo[0], w.todo[1..];
    assert [e] + rest == w.todo;
    BlockedKnowsPeers(w.st.sockets);
    if e.IsToken() {
      TokensDisplaceNothing(w.st, e);
    } else if whole && d.strict {
      OperationIsBacked(w.st, e, rest, clients, whole);
      BackedDisplacesNothing(w.st, e, [e] + rest, clients, whole);
    }
    KeepDispatch(w.st, e, rest, clients, whole);
    DispatchKeepsBlocked(w.st, e);
  }

  // ---- steps of one operation ----

  lemma KeepOp(st: State, o: OpId, op: Op, hands: seq<Event>, clients: Streams, whole: bool)
    requires Inv(st, hands, clients, whole) && o in st.ops && OpOk(op)
    requires op.kind == st.ops[o].kind && op.target == st.ops[o].target && op.inc == st.ops[o].inc
    requires op.stage.Held? == st.ops[o].stage.Held? && (st.ops[o].client.Done? ==> op.client.Done?)
    ensures Inv(st.(ops := st.ops[o := op]), hands, clients, whole)
  {
    hide OpOk;
    LinearFill(st, o, st.ops[o := op], hands, clients);
    hide Linear, NoTokenLost;
  }

  lemma AdvanceKeeps(w: World, o: OpId, m: OpStep, d: Mode)
    requires WorldInv(w, d) && Enabled(w, Advance(o, m))
    ensures WorldInv(Next(w, Advance(o, m)), d)
  {
    assert OpOk(w.st.ops[o]);
    hide Inv, OpOk, CanDo, Do;
    DoKeepsOk(w.st.ops[o], m);
    KeepOp(w.st, o, Do(w.st.ops[o], m), w.todo, View(w, d), d.tokens && Whole(w));
  }

  lemma IssuedOk(kind: OpKind, th: TypedHandle, inc: nat, buf: seq<Byte>, refused: bool)
    requires KindFits(kind, th)
    ensures OpOk(Issued(kind, th, inc, buf, refused)) && OpOk(IssueRefused(kind, th, inc, buf, refused))
    ensures var op := Issued(kind, th, inc, buf, refused);
            op.stage.Held? && op.kind == kind && op.target == th && op.inc == inc
    ensures var op := IssueRefused(kind, th, inc, buf, refused);
            !op.stage.Held? && op.target == th && op.inc == inc
  {
  }

  lemma KeepNewOp(st: State, o: OpId, op: Op, hands: seq<Event>, hands1: seq<Event>, clients: Streams, whole: bool)
    requires Inv(st, hands, clients, whole) && o !in st.ops && OpOk(op)
    requires op.inc in clients.live && clients.live[op.inc].typed == op.target
    requires hands1 == (if op.stage.Held? then [EventFor(op.kind, op.target, o)] + hands else hands)
    ensures Inv(st.(ops := st.ops[o := op]), hands1, clients, whole)
  {
    hide OpOk;
    var st1 := st.(ops := st.ops[o := op]);
    var e := EventFor(op.kind, op.target, o);
    forall x
      ensures Total(st1, hands1, clients, x) == Total(st, hands, clients, x) + (if op.stage.Held? then One(e, x) else 0)
    {
      CountCons(e, hands, x);
    }
    LinearNewOp(st, o, op, hands, hands1, clients);
  }

  lemma LinearNewOp(st: State, o: OpId, op: Op, hands: seq<Event>, hands1: seq<Event>, clients: Streams)
    requires Linear(st, hands, clients) && o !in st.ops
    requires forall x :: Total(st.(ops := st.ops[o := op]), hands1, clients, x)
                         == Total(st, hands, clients, x) + (if op.stage.Held? then One(EventFor(op.kind, op.target, o), x) else 0)
    ensures Linear(st.(ops := st.ops[o := op]), hands1, clients)
    ensures NoTokenLost(st, hands, clients) ==> NoTokenLost(st.(ops := st.ops[o := op]), hands1, clients)
  {
    var st1 := st.(ops := st.ops[o := op]);
    var t := Operation(EventFor(op.kind, op.target, o));
    assert !WellItem(st.sockets, st.served, st.ops, t);
    assert Total(st, hands, clients, t) == 0;
    forall x
      ensures x != t ==> Total(st1, hands1, clients, x) == Total(st, hands, clients, x)
    {
    }
    hide EventFor;
    assert OrphansOk(st1, hands1, clients);
    hide OrphansOk;
    forall x | Total(st1, hands1, clients, x) >= 1
      ensures WellItem(st1.sockets, st1.served, st1.ops, x)
    {
      assert x != t ==> WellItem(st.sockets, st.served, st.ops, x);
    }
    forall h | h in st.sockets
      ensures Total(st1, hands1, clients, TokenOf(st, h)) == Total(st, hands, clients, TokenOf(st, h))
    {
    }
    forall p | p in st1.ops && st1.ops[p].stage.Held?
      ensures Total(st1, hands1, clients, OpItem(st1.ops, p)) >= 1
    {
      assert p != o ==> OpItem(st1.ops, p) == OpItem(st.ops, p) && Total(st, hands, clients, OpItem(st.ops, p)) >= 1;
    }
  }

  lemma KeepIssue(st: State, o: OpId, op: Op, hands: seq<Event>, clients: Streams, whole: bool)
    requires Inv(st, hands, clients, whole) && o !in st.ops && OpOk(op) && op.stage.Held?
    requires op.inc in clients.live && clients.live[op.inc].typed == op.target
    ensures Inv(st.(ops := st.ops[o := op], queue := st.queue + [EventFor(op.kind, op.target, o)]), hands, clients, whole)
  {
    hide Inv, OpOk, EventFor;
    var e := EventFor(op.kind, op.target, o);
    KeepNewOp(st, o, op, hands, [e] + hands, clients, whole);
    KeepPush(st.(ops := st.ops[o := op]), e, hands, clients, whole);
  }

  lemma IssueKeeps(w: World, o: OpId, inc: nat, kind: OpKind, buf: seq<Byte>, refused: bool, d: Mode)
    requires WorldInv(w, d) && Enabled(w, Issue(o, inc, kind, buf, refused))
    ensures WorldInv(Next(w, Issue(o, inc, kind, buf, refused)), d)
  {
    hide Inv, OpOk, EventFor, Issued, IssueRefused, AllBlocked, KindFits;
    var th := w.clients[inc].typed;
    var whole := d.tokens && Whole(w);
    IssuedOk(kind, th, inc, buf, refused);
    if w.st.queueOpen {
      KeepIssue(w.st, o, Issued(kind, th, inc, buf, refused), w.todo, View(w, d), whole);
    } else {
      KeepNewOp(w.st, o, IssueRefused(kind, th, inc, buf, refused), w.todo, w.todo, View(w, d), whole);
    }
  }

  // ---- steps of the client objects ----

  lemma AcceptTotals(st: State, st1: State, e: Event, peer: Addr, local: Option<Addr>, rest: seq<Event>, clients: Streams, clients1: Streams)
    requires e.Ready? && e.inc !in clients.live && st1 == st.(served := st.served + {e.inc})
    requires clients1 == clients.(live := clients.live[e.inc := Stream(e.typed, peer, local)])
    ensures forall x :: Total(st1, rest, clients1, x) + One(e, x)
                        == Total(st, [e] + rest, clients, x) + Bit(x == Token(e.typed, e.inc, true))
  {
    forall x
      ensures Total(st1, rest, clients1, x) + One(e, x)
              == Total(st, [e] + rest, clients, x) + Bit(x == Token(e.typed, e.inc, true))
    {
      CountCons(e, rest, x);
    }
  }

  /** From the hand to a new client object. */
  lemma KeepAccept(st: State, e: Event, peer: Addr, local: Option<Addr>, rest: seq<Event>, clients: Streams, whole: bool)
    requires Inv(st, [e] + rest, clients, whole) && e.Ready?
    requires e.inc < |st.born| && peer == st.born[e.inc]
    ensures e.inc !in st.served && e.inc !in clients.live
    ensures Inv(st.(served := st.served + {e.inc}), rest, clients.(live := clients.live[e.inc := Stream(e.typed, peer, local)]), whole)
  {
    var st1 := st.(served := st.served + {e.inc});
    var clients1 := clients.(live := clients.live[e.inc := Stream(e.typed, peer, local)]);
    HandIsWell(st, e, rest, clients);
    NotYetLive(st, e, rest, clients, whole);
    hide Total, Linear, NoTokenLost, OpsOk, RegistryMirrors, EndpointsMirror;
    AcceptTotals(st, st1, e, peer, local, rest, clients, clients1);
    LinearAccept(st, st1, e, rest, clients, clients1);
    if whole {
      NoTokenLostAccept(st, st1, e, rest, clients, clients1);
    }
  }

  /** A socket whose token is a Ready has no client. */
  lemma NotYetLive(st: State, e: Event, rest: seq<Event>, clients: Streams, whole: bool)
    requires Inv(st, [e] + rest, clients, whole) && e.Ready?
    ensures e.inc !in clients.live
  {
    HandIsWell(st, e, rest, clients);
    if e.inc in clients.live {
      LiveIsServed(st, [e] + rest, clients, e.inc);
    }
  }

  lemma LiveIsServed(st: State, hands: seq<Event>, clients: Streams, inc: nat)
    requires Linear(st, hands, clients) && inc in clients.live
    ensures inc in st.served
  {
    assert Total(st, hands, clients, Token(clients.live[inc].typed, inc, true)) >= 1;
  }

  lemma OrphansAccept(st: State, st1: State, e: Event, rest: seq<Event>, clients: Streams, clients1: Streams)
    requires Linear(st, [e] + rest, clients) && e.Ready?
    requires st1.sockets == st.sockets && clients1.orphans == clients.orphans
    requires forall x :: Total(st1, rest, clients1, x) + One(e, x)
                         == Total(st, [e] + rest, clients, x) + Bit(x == Token(e.typed, e.inc, true))
    ensures OrphansOk(st1, rest, clients1)
  {
    CountCons(e, rest, ItemOf(e));
    assert Total(st, [e] + rest, clients, ItemOf(e)) >= 1;
  }

  lemma LinearAccept(st: State, st1: State, e: Event, rest: seq<Event>, clients: Streams, clients1: Streams)
    requires Linear(st, [e] + rest, clients) && SocketsOk(st.sockets, st.born)
    requires e.Ready? && e.inc !in st.served && Present(st.sockets, e.typed, e.inc)
    requires st1 == st.(served := st.served + {e.inc}) && clients1.orphans == clients.orphans
    requires forall x :: Total(st1, rest, clients1, x) + One(e, x)
                         == Total(st, [e] + rest, clients, x) + Bit(x == Token(e.typed, e.inc, true))
    ensures Linear(st1, rest, clients1)
  {
    OrphansAccept(st, st1, e, rest, clients, clients1);
    hide OrphansOk;
    var t := Token(e.typed, e.inc, true);
    assert Total(st, [e] + rest, clients, t) == 0;
    forall x | Total(st1, rest, clients1, x) >= 1
      ensures WellItem(st1.sockets, st1.served, st1.ops, x)
    {
      if x != t {
        assert Total(st, [e] + rest, clients, x) <= 1;
        assert WellItem(st.sockets, st.served, st.ops, x);
      }
    }
    forall o | o in st1.ops && st1.ops[o].stage.Held?
      ensures Total(st1, rest, clients1, OpItem(st1.ops, o)) >= 1
    {
      assert Total(st, [e] + rest, clients, OpItem(st.ops, o)) >= 1;
    }
  }

  lemma NoTokenLostAccept(st: State, st1: State, e: Event, rest: seq<Event>, clients: Streams, clients1: Streams)
    requires NoTokenLost(st, [e] + rest, clients) && SocketsOk(st.sockets, st.born)
    requires e.Ready? && e.inc !in st.served && Present(st.sockets, e.typed, e.inc)
    requires st1 == st.(served := st.served + {e.inc})
    requires forall x :: Total(st1, rest, clients1, x) + One(e, x)
                         == Total(st, [e] + rest, clients, x) + Bit(x == Token(e.typed, e.inc, true))
    ensures NoTokenLost(st1, rest, clients1)
  {
    forall h | h in st1.sockets
      ensures Total(st1, rest, clients1, TokenOf(st1, h)) >= 1
    {
      assert Total(st, [e] + rest, clients, TokenOf(st, h)) >= 1;
      if h == e.typed.handle {
        assert TokenOf(st1, h) == Token(e.typed, e.inc, true) && One(e, TokenOf(st1, h)) == 0;
      } else {
        assert st.sockets[h].inc != e.inc;
        assert TokenOf(st1, h) == TokenOf(st, h) && One(e, TokenOf(st1, h)) == 0;
      }
    }
  }

  lemma LinearClients(st: State, hands: seq<Event>, hands1: seq<Event>, clients: Streams, clients1: Streams)
    requires Linear(st, hands, clients)
    requires forall x :: Total(st, hands1, clients1, x) == Total(st, hands, clients, x)
    requires clients1.orphans == clients.orphans
    ensures Linear(st, hands1, clients1)
    ensures NoTokenLost(st, hands, clients) ==> NoTokenLost(st, hands1, clients1)
  {
  }

  /** The first info of a channel comes into the hand. */
  lemma KeepTakeInfo(st: State, tcp: bool, hands: seq<Event>, clients: Streams, whole: bool)
    requires Inv(st, hands, clients, whole)
    requires (if tcp then st.tcpInfos else st.udpInfos) != []
    ensures
      var i := (if tcp then st.tcpInfos else st.udpInfos)[0];
      var st1 := if tcp then st.(tcpInfos := st.tcpInfos[1..]) else st.(udpInfos := st.udpInfos[1..]);
      Inv(st1, [Ready(if tcp then Tcp(i.handle) else Udp(i.handle), i.inc)] + hands, clients, whole)
  {
    var i := (if tcp then st.tcpInfos else st.udpInfos)[0];
    var st1 := if tcp then st.(tcpInfos := st.tcpInfos[1..]) else st.(udpInfos := st.udpInfos[1..]);
    var e := Ready(if tcp then Tcp(i.handle) else Udp(i.handle), i.inc);
    forall x
      ensures Total(st1, [e] + hands, clients, x) == Total(st, hands, clients, x)
    {
      CountCons(e, hands, x);
    }
    LinearSame(st, hands, st1, [e] + hands, clients);
  }

  lemma AcceptKeeps(w: World, l: Label, d: Mode)
    requires WorldInv(w, d) && Enabled(w, l) && (l.AcceptTcp? || l.AcceptUdp?)
    ensures WorldInv(Next(w, l), d)
  {
    var clients := View(w, d);
    var whole := d.tokens && Whole(w);
    var i := (if l.AcceptTcp? then w.st.tcpInfos else w.st.udpInfos)[0];
    assert i.inc < |w.st.born| && i.remoteAddr == w.st.born[i.inc];
    hide Inv;
    KeepTakeInfo(w.st, l.AcceptTcp?, w.todo, clients, whole);
    var st1 := if l.AcceptTcp? then w.st.(tcpInfos := w.st.tcpInfos[1..]) else w.st.(udpInfos := w.st.udpInfos[1..]);
    var e := Ready(if l.AcceptTcp? then Tcp(i.handle) else Udp(i.handle), i.inc);
    KeepAccept(st1, e, i.remoteAddr, i.localAddr, w.todo, clients, whole);
  }

  /** Losing some tokens keeps everything but completeness. */
  lemma LinearLess(st: State, st1: State, hands: seq<Event>, clients: Streams)
    requires Linear(st, hands, clients) && st1.sockets == st.sockets && st1.ops == st.ops && st1.served == st.served
    requires forall x :: Total(st1, hands, clients, x) <= Total(st, hands, clients, x)
    requires forall x: Item :: x.Operation? ==> Total(st1, hands, clients, x) == Total(st, hands, clients, x)
    ensures Linear(st1, hands, clients)
  {
  }

  lemma {:induction false} InfosHoldTokens(infos: seq<Info>, tcp: bool, x: Item)
    ensures x.Operation? ==> InInfos(infos, tcp, x) == 0
  {
    if infos != [] {
      InfosHoldTokens(infos[1..], tcp, x);
    }
  }

  lemma DropAcceptorKeeps(w: World, l: Label, d: Mode)
    requires WorldInv(w, d) && Enabled(w, l) && (l.DropTcpAcceptor? || l.DropUdpAcceptor?)
    ensures WorldInv(Next(w, l), d)
  {
    var clients := View(w, d);
    var st1 := Next(w, l).st;
    forall x
      ensures Total(st1, w.todo, clients, x) <= Total(w.st, w.todo, clients, x)
      ensures x.Operation? ==> Total(st1, w.todo, clients, x) == Total(w.st, w.todo, clients, x)
    {
      InfosHoldTokens(w.st.tcpInfos, true, x);
      InfosHoldTokens(w.st.udpInfos, false, x);
    }
    LinearLess(w.st, st1, w.todo, clients);
  }

  /** From a client object, which is dropped, into the hand. */
  lemma KeepDropped(st: State, inc: nat, hands: seq<Event>, clients: Streams, whole: bool)
    requires Inv(st, hands, clients, whole) && inc in clients.live
    requires clients.strict ==> forall o :: o in st.ops && st.ops[o].inc == inc ==> st.ops[o].client.Done?
    ensures Inv(st, [Close(clients.live[inc].typed, inc)] + hands, clients.(live := clients.live - {inc}), whole)
  {
    var clients1 := clients.(live := clients.live - {inc});
    var e := Close(clients.live[inc].typed, inc);
    forall x
      ensures Total(st, [e] + hands, clients1, x) == Total(st, hands, clients, x)
    {
      CountCons(e, hands, x);
    }
    LinearClients(st, hands, [e] + hands, clients, clients1);
  }

  lemma DropClientKeeps(w: World, inc: nat, d: Mode)
    requires WorldInv(w, d) && Enabled(w, DropClient(inc)) && (d.strict ==> Obeys(w, DropClient(inc)))
    ensures WorldInv(Next(w, DropClient(inc)), d)
  {
    hide Inv;
    var clients := View(w, d);
    var clients1 := clients.(live := w.clients - {inc});
    var whole := d.tokens && Whole(w);
    var e := Close(w.clients[inc].typed, inc);
    KeepDropped(w.st, inc, w.todo, clients, whole);
    if w.st.queueOpen {
      KeepPush(w.st, e, w.todo, clients1, whole);
    } else {
      KeepLoseAny(w.st, e, w.todo, clients1, whole);
    }
  }

  // ---- teardown ----

  lemma {:induction false} KeepDiscardAll(st: State, es: seq<Event>, rest: seq<Event>, clients: Streams)
    requires Inv(st, es + rest, clients, false)
    ensures Inv(DiscardAll(st, es), rest, clients, false)
    ensures DiscardAll(st, es) == st.(ops := DiscardAll(st, es).ops)
    decreases es
  {
    hide Inv;
    if es == [] {
      assert es + rest == rest;
    } else {
      assert es + rest == [es[0]] + (es[1..] + rest);
      KeepDiscard(st, es[0], es[1..] + rest, clients, false);
      KeepDiscardAll(Discard(st, es[0]), es[1..], rest, clients);
    }
  }

  /** Closing the channel is no business of the invariant. */
  lemma KeepClosing(st: State, hands: seq<Event>, clients: Streams)
    requires Inv(st, hands, clients, false)
    ensures Inv(st.(queueOpen := false), hands, clients, false)
  {
    LinearSame(st, hands, st.(queueOpen := false), hands, clients);
  }

  lemma DropGeneratorKeeps(w: World, n: nat, d: Mode)
    requires WorldInv(w, d) && Enabled(w, DropGenerator(n))
    ensures WorldInv(Next(w, DropGenerator(n)), d)
  {
    hide Inv;
    var clients := View(w, d);
    var q := w.st.queue;
    var st1 := w.st.(queue := q[..n]);
    Weaken(w.st, w.todo, clients, d.tokens && Whole(w));
    assert q == q[..n] + q[n..];
    forall x
      ensures Total(st1, q[n..] + w.todo, clients, x) == Total(w.st, w.todo, clients, x)
    {
      CountConcat(q[..n], q[n..], x);
      CountConcat(q[n..], w.todo, x);
    }
    KeepMoved(w.st, w.todo, st1, q[n..] + w.todo, clients, false);
    KeepClosing(st1, q[n..] + w.todo, clients);
    KeepDiscardAll(st1.(queueOpen := false), q[n..], w.todo, clients);
  }

  lemma DropSocketsTotal(st: State, hands: seq<Event>, clients: Streams, x: Item)
    ensures Total(DropSockets(st), hands, clients, x) == Total(st, hands, clients, x) - InSockets(st.sockets, x)
  {
  }

  lemma LinearDropSockets(st: State, hands: seq<Event>, clients: Streams)
    requires Linear(st, hands, clients)
    ensures Linear(DropSockets(st), hands, clients)
  {
    var st1 := DropSockets(st);
    forall x
      ensures Total(st1, hands, clients, x) == Total(st, hands, clients, x) - InSockets(st.sockets, x)
    {
      DropSocketsTotal(st, hands, clients, x);
    }
    forall x | Total(st1, hands, clients, x) >= 1
      ensures WellItem(st1.sockets, st1.served, st1.ops, x)
    {
      assert WellItem(st.sockets, st.served, st.ops, x) && InSockets(st.sockets, x) == 0;
    }
    forall o | o in st1.ops && st1.ops[o].stage.Held?
      ensures Total(st1, hands, clients, OpItem(st1.ops, o)) >= 1
    {
      assert st1.ops[o] == st.ops[o] && !ParkedOp(st.sockets, st.ops[o], o);
      assert OpItem(st1.ops, o) == OpItem(st.ops, o);
      assert Total(st, hands, clients, OpItem(st.ops, o)) >= 1;
    }
  }

  /** A parked operation is one the driver still owes. */
  lemma ParkedIsHeld(st: State, hands: seq<Event>, clients: Streams, o: OpId)
    requires Linear(st, hands, clients) && o in st.ops && ParkedOp(st.sockets, st.ops[o], o)
    ensures st.ops[o].stage.Held?
  {
    assert Total(st, hands, clients, OpItem(st.ops, o)) >= 1;
  }

  lemma DropSocketsOps(st: State, hands: seq<Event>, clients: Streams)
    requires Inv(st, hands, clients, false)
    ensures OpsOk(DropSockets(st).ops)
    ensures clients.strict ==> Disciplined(DropSockets(st).ops, clients.live)
  {
    hide ParkedOp, OpOk;
    forall o | o in st.ops
      ensures OpOk(DropSockets(st).ops[o])
    {
      if ParkedOp(st.sockets, st.ops[o], o) {
        ParkedIsHeld(st, hands, clients, o);
        FinishKeepsOk(st.ops[o], DropPlan(st.ops[o].kind.ShutdownOp?));
      }
    }
  }

  lemma DropSocketsTables(st: State)
    requires RegistryMirrors(st.sockets, st.registered) && EndpointsMirror(st.sockets, st.accepted)
    requires SocketsOk(st.sockets, st.born)
    ensures RegistryMirrors(DropSockets(st).sockets, st.registered)
    ensures EndpointsMirror(DropSockets(st).sockets, st.accepted)
    ensures AllBlocked(st.sockets) ==> AllBlocked(DropSockets(st).sockets)
    ensures SocketsOk(DropSockets(st).sockets, st.born)
  {
    var sockets1 := DropSockets(st).sockets;
    assert forall h, a :: BoundTo(sockets1, h, a) <==> BoundTo(st.sockets, h, a);
    forall a
      ensures a in st.accepted <==> exists h :: BoundTo(sockets1, h, a)
    {
      if a in st.accepted {
        var h :| BoundTo(st.sockets, h, a);
        assert BoundTo(sockets1, h, a);
      }
    }
    if AllBlocked(st.sockets) {
      forall h | h in sockets1
        ensures Blocked(sockets1[h])
      {
        assert Blocked(st.sockets[h]);
      }
    }
  }

  lemma DropStackKeeps(w: World, d: Mode)
    requires WorldInv(w, d) && Enabled(w, DropStack)
    ensures WorldInv(Next(w, DropStack), d)
  {
    var clients := View(w, d);
    var st1 := DiscardAll(w.st, w.todo);
    assert w.todo + [] == w.todo;
    Weaken(w.st, w.todo, clients, d.tokens && Whole(w));
    KeepDiscardAll(w.st, w.todo, [], clients);
    DropSocketsOps(st1, [], clients);
    DropSocketsTables(st1);
    LinearDropSockets(st1, [], clients);
    hide Linear, DiscardAll, OpsOk, RegistryMirrors, EndpointsMirror, SocketsOk, Disciplined, AllBlocked;
  }

  // ---- any step ----

  /** Every step keeps the invariant, with or without the client discipline. */
  lemma StepKeeps(w: World, l: Label, w1: World, d: Mode)
    requires WorldInv(w, d) && Step(w, l, w1, d)
    ensures WorldInv(w1, d)
  {
    hide WorldInv, Next, Enabled, Obeys;
    match l
    case Syn(_, _) => PacketKeeps(w, l, d);
    case UdpPacket(_, _) => PacketKeeps(w, l, d);
    case PollOne(h, f) => PollOneKeeps(w, h, f, d);
    case TakeBatch(n) => TakeBatchKeeps(w, n, d);
    case HandleNext => HandleNextKeeps(w, d);
    case DropStack => DropStackKeeps(w, d);
    case Advance(o, m) => AdvanceKeeps(w, o, m, d);
    case AcceptTcp => AcceptKeeps(w, l, d);
    case AcceptUdp => AcceptKeeps(w, l, d);
    case DropTcpAcceptor => DropAcceptorKeeps(w, l, d);
    case DropUdpAcceptor => DropAcceptorKeeps(w, l, d);
    case Issue(o, inc, kind, buf, refused) => IssueKeeps(w, o, inc, kind, buf, refused, d);
    case DropClient(inc) => DropClientKeeps(w, inc, d);
    case DropGenerator(n) => DropGeneratorKeeps(w, n, d);
  }

  /** So it holds in every state of every run. */
  lemma {:induction false} RunKeeps(ws: seq<World>, ls: seq<Label>, d: Mode, i: nat)
    requires Run(ws, ls, d) && i < |ws| && d.orphans == map[]
    ensures WorldInv(ws[i], d)
  {
    hide WorldInv, Step, Displaces;
    if i == 0 {
      StartInv(ws[0].st.bufSize, d);
    } else {
      RunKeeps(ws, ls, d, i - 1);
      assert Step(ws[i - 1], ls[i - 1], ws[i - 1 + 1], d);
      StepKeeps(ws[i - 1], ls[i - 1], ws[i], d);
    }
  }
}
