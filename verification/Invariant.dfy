/**
 What every step of the stack keeps.

 The centre is linearity: the life-cycle token of a socket incarnation and each operation the
 driver still owes are in exactly one place. The places are the operation channel, the waker slots,
 the acceptor channels, the hands of whoever is working on an event (`hands`), and, for tokens, the
 live client objects (`clients`).
 */
module Invariant {
  import opened Event
  import opened Operation
  import opened Stack
  import S = Smoltcp

  /** A live `TcpStream` or `UdpSocket` with its addresses; the map key is the incarnation it was accepted for. */
  datatype Stream = Stream(typed: TypedHandle, peer: Addr, local: Option<Addr>)

  /**
   The live client objects, and what is known about the run: `strict` says that the clients keep the
   discipline of awaiting every operation to the end before they drop the stream it was issued on;
   `orphans` are incarnations known to have lost their token.
   */
  datatype Streams = Streams(live: map<nat, Stream>, strict: bool, orphans: map<nat, TypedHandle>)

  // ---- where an item is ----

  function InSlot(slot: Option<Event>, x: Item): nat {
    if slot.None? then 0 else One(slot.value, x)
  }

  function Own(s: S.Socket, x: Item): nat {
    InSlot(s.recvSlot, x) + InSlot(s.sendSlot, x)
  }

  /** The handle an item belongs to. */
  function HandleOf(x: Item): Handle {
    match x
    case Token(th, _, _) => th.handle
    case Operation(e) => e.Target().handle
  }

  /** Closures parked on a socket belong to its handle (`Shape`), so only that socket is looked at. */
  function InSockets(sockets: map<Handle, S.Socket>, x: Item): nat {
    if HandleOf(x) in sockets then Own(sockets[HandleOf(x)], x) else 0
  }

  function InfoOne(i: Info, tcp: bool, x: Item): nat {
    if x == Token(if tcp then Tcp(i.handle) else Udp(i.handle), i.inc, false) then 1 else 0
  }

  function InInfos(infos: seq<Info>, tcp: bool, x: Item): nat {
    if infos == [] then 0 else InfoOne(infos[0], tcp, x) + InInfos(infos[1..], tcp, x)
  }

  lemma {:induction false} InInfosPush(infos: seq<Info>, i: Info, tcp: bool, x: Item)
    ensures InInfos(infos + [i], tcp, x) == InInfos(infos, tcp, x) + InfoOne(i, tcp, x)
  {
    if infos == [] {
      assert infos + [i] == [i];
      assert InInfos([i], tcp, x) == InfoOne(i, tcp, x) + InInfos([], tcp, x);
    } else {
      InInfosPush(infos[1..], i, tcp, x);
      assert (infos + [i])[1..] == infos[1..] + [i];
    }
  }

  function AtClient(clients: Streams, x: Item): nat {
    if x.Token? && x.served && x.inc in clients.live && clients.live[x.inc].typed == x.typed then 1 else 0
  }

  function Bit(b: bool): nat { if b then 1 else 0 }

  /** In how many places item `x` is. */
  function Total(st: State, hands: seq<Event>, clients: Streams, x: Item): nat {
    Count(st.queue, x) + Count(hands, x) + InSockets(st.sockets, x)
    + InInfos(st.tcpInfos, true, x) + InInfos(st.udpInfos, false, x) + AtClient(clients, x)
  }

  // ---- the invariant ----

  ghost predicate Present(sockets: map<Handle, S.Socket>, th: TypedHandle, inc: nat) {
    && th.handle in sockets
    && sockets[th.handle].Typed(th.handle) == th
    && sockets[th.handle].inc == inc
  }

  /** What a socket in the table is known by. */
  function Identity(h: Handle, s: S.Socket): (TypedHandle, nat) { (s.Typed(h), s.inc) }

  /** The token of a socket in the table. */
  function TokenOf(st: State, h: Handle): Item
    requires h in st.sockets
  {
    Token(st.sockets[h].Typed(h), st.sockets[h].inc, st.sockets[h].inc in st.served)
  }

  function OpItem(ops: map<OpId, Op>, o: OpId): Item
    requires o in ops
  {
    Operation(EventFor(ops[o].kind, ops[o].target, o))
  }

  /**
   A token stands for a socket in the table, and it is a `Ready` exactly until the socket is handed
   to a client; an operation is still owed and matches its event.
   */
  ghost predicate WellItem(sockets: map<Handle, S.Socket>, served: set<nat>, ops: map<OpId, Op>, x: Item) {
    match x
    case Token(th, inc, late) => Present(sockets, th, inc) && (late <==> inc in served)
    case Operation(e) => !e.IsToken() && e.op in ops && ops[e.op].stage.Held? && x == OpItem(ops, e.op)
  }

  /** An orphan stays in the table, and no token for it turns up again. */
  ghost predicate OrphansOk(st: State, hands: seq<Event>, clients: Streams) {
    forall i :: i in clients.orphans ==>
      && Present(st.sockets, clients.orphans[i], i)
      && Total(st, hands, clients, Token(clients.orphans[i], i, false)) == 0
      && Total(st, hands, clients, Token(clients.orphans[i], i, true)) == 0
  }

  ghost predicate Linear(st: State, hands: seq<Event>, clients: Streams) {
    && (forall x :: Total(st, hands, clients, x) <= 1)
    && (forall x :: Total(st, hands, clients, x) >= 1 ==> WellItem(st.sockets, st.served, st.ops, x))
    && (forall o :: o in st.ops && st.ops[o].stage.Held? ==> Total(st, hands, clients, OpItem(st.ops, o)) >= 1)
    && OrphansOk(st, hands, clients)
  }

  /** No socket has lost its token. */
  ghost predicate NoTokenLost(st: State, hands: seq<Event>, clients: Streams) {
    forall h :: h in st.sockets ==> Total(st, hands, clients, TokenOf(st, h)) >= 1
  }

  /** Which closures can be parked in the slots of socket `h`. */
  predicate RecvShape(h: Handle, s: S.Socket, e: Event) {
    if s.p.TcpSocket? then e == Ready(Tcp(h), s.inc) || e == Close(Tcp(h), s.inc) || (e.Read? && e.handle == h)
    else e.Recv? && e.handle == h
  }

  predicate SendShape(h: Handle, s: S.Socket, e: Event) {
    if s.p.TcpSocket? then e == Ready(Tcp(h), s.inc) || (e.Write? && e.handle == h) || (e.Shutdown? && e.typed == Tcp(h))
    else e.Send? && e.handle == h
  }

  predicate Shape(h: Handle, s: S.Socket) {
    && (s.recvSlot.Some? ==> RecvShape(h, s, s.recvSlot.value))
    && (s.sendSlot.Some? ==> SendShape(h, s, s.sendSlot.value))
  }

  /** A socket keeps the address it was created for. */
  predicate Addressed(s: S.Socket, born: seq<Addr>) {
    && s.inc < |born|
    && (s.p.TcpSocket? ==> s.p.local == born[s.inc])
    && (s.p.UdpSocket? ==> s.p.endpoint == Some(born[s.inc]))
  }

  /** `socket_handles` is exactly the typed handles of the socket table. */
  ghost predicate RegistryMirrors(sockets: map<Handle, S.Socket>, registered: set<TypedHandle>) {
    forall th: TypedHandle :: th in registered <==>
      th.handle in sockets && sockets[th.handle].Typed(th.handle) == th
  }

  predicate BoundTo(sockets: map<Handle, S.Socket>, h: Handle, a: Addr) {
    h in sockets && sockets[h].p.UdpSocket? && sockets[h].p.endpoint == Some(a)
  }

  /** `accepted_udp_sockets` is exactly the endpoints of the UDP sockets, one socket each. */
  ghost predicate EndpointsMirror(sockets: map<Handle, S.Socket>, accepted: set<Addr>) {
    && (forall a :: a in accepted <==> exists h :: BoundTo(sockets, h, a))
    && (forall h, k, a :: BoundTo(sockets, h, a) && BoundTo(sockets, k, a) ==> h == k)
  }

  /** Only sockets that exist were handed out. */
  ghost predicate ServedOk(served: set<nat>, born: seq<Addr>) {
    forall i :: i in served ==> i < |born|
  }

  ghost predicate SocketsOk(sockets: map<Handle, S.Socket>, born: seq<Addr>) {
    && (forall h :: h in sockets ==> Shape(h, sockets[h]) && Addressed(sockets[h], born))
    && (forall h, k :: h in sockets && k in sockets && sockets[h].inc == sockets[k].inc ==> h == k)
  }

  ghost predicate InfosOk(infos: seq<Info>, born: seq<Addr>) {
    forall i :: 0 <= i < |infos| ==> infos[i].inc < |born| && infos[i].remoteAddr == born[infos[i].inc]
  }

  ghost predicate OpsOk(ops: map<OpId, Op>) {
    forall o :: o in ops ==> OpOk(ops[o])
  }

  ghost predicate ClientsOk(live: map<nat, Stream>, born: seq<Addr>) {
    forall i :: i in live ==> i < |born| && live[i].peer == born[i]
  }

  /** An operation whose future is not complete belongs to a live stream. */
  ghost predicate Disciplined(ops: map<OpId, Op>, live: map<nat, Stream>) {
    forall o :: o in ops && !ops[o].client.Done? ==> ops[o].inc in live && live[ops[o].inc].typed == ops[o].target
  }

  /**
   `whole` adds that no token has been lost; it holds for runs that keep the client discipline and
   in which nothing is torn down.
   */
  ghost predicate Inv(st: State, hands: seq<Event>, clients: Streams, whole: bool) {
    && RegistryMirrors(st.sockets, st.registered)
    && EndpointsMirror(st.sockets, st.accepted)
    && SocketsOk(st.sockets, st.born)
    && InfosOk(st.tcpInfos, st.born)
    && InfosOk(st.udpInfos, st.born)
    && ServedOk(st.served, st.born)
    && OpsOk(st.ops)
    && ClientsOk(clients.live, st.born)
    && (clients.strict ==> Disciplined(st.ops, clients.live))
    && Linear(st, hands, clients)
    && (whole ==> NoTokenLost(st, hands, clients))
    && !st.panicked
  }

  // ---- moving one item ----

  function Opt(slot: Option<Event>): seq<Event> {
    if slot.None? then [] else [slot.value]
  }

  lemma CountOpt(slot: Option<Event>, rest: seq<Event>, x: Item)
    ensures Count(Opt(slot) + rest, x) == InSlot(slot, x) + Count(rest, x)
  {
    if slot.Some? {
      CountCons(slot.value, rest, x);
    } else {
      assert [] + rest == rest;
    }
  }

  /** From the hand to the end of the operation channel. */
  lemma KeepPush(st: State, e: Event, rest: seq<Event>, clients: Streams, whole: bool)
    requires Inv(st, [e] + rest, clients, whole)
    ensures Inv(st.(queue := st.queue + [e]), rest, clients, whole)
  {
    var st1 := st.(queue := st.queue + [e]);
    forall x
      ensures Total(st1, rest, clients, x) == Total(st, [e] + rest, clients, x)
    {
      CountPush(st.queue, e, x);
      CountCons(e, rest, x);
    }
  }

  lemma LinearFinish(st: State, e: Event, rest: seq<Event>, clients: Streams, plan: seq<Act>)
    requires Linear(st, [e] + rest, clients)
    requires !e.IsToken()
    ensures e.op in st.ops && st.ops[e.op].stage.Held? && (e.Shutdown? <==> st.ops[e.op].kind.ShutdownOp?)
    ensures Linear(st.(ops := FinishOp(st.ops, e.op, plan)), rest, clients)
    ensures forall x :: Total(st.(ops := FinishOp(st.ops, e.op, plan)), rest, clients, x)
                        == Total(st, [e] + rest, clients, x) - One(e, x)
  {
    var st1 := st.(ops := FinishOp(st.ops, e.op, plan));
    forall x
      ensures Total(st1, rest, clients, x) + One(e, x) == Total(st, [e] + rest, clients, x)
    {
      CountCons(e, rest, x);
    }
    var o := e.op;
    assert Total(st, [e] + rest, clients, ItemOf(e)) >= 1;
    assert ItemOf(e) == OpItem(st.ops, o);
    forall x | Total(st1, rest, clients, x) >= 1
      ensures WellItem(st1.sockets, st1.served, st1.ops, x)
    {
      assert x != ItemOf(e);
      assert x.Operation? ==> x.event.op != o;
    }
    forall p | p in st1.ops && st1.ops[p].stage.Held?
      ensures Total(st1, rest, clients, OpItem(st1.ops, p)) >= 1
    {
      assert p != o && st1.ops[p] == st.ops[p];
      assert OpItem(st1.ops, p) == OpItem(st.ops, p) && OpItem(st.ops, p) != ItemOf(e);
    }
  }

  /** The operation in the hand is answered or dropped, by a plan that lets go of the buffer first. */
  lemma KeepFinish(st: State, e: Event, rest: seq<Event>, clients: Streams, whole: bool, plan: seq<Act>)
    requires Inv(st, [e] + rest, clients, whole)
    requires !e.IsToken() && BufferFirst(plan, !e.Shutdown?)
    ensures Inv(st.(ops := FinishOp(st.ops, e.op, plan)), rest, clients, whole)
  {
    LinearFinish(st, e, rest, clients, plan);
    assert OpsOk(FinishOp(st.ops, e.op, plan)) by {
      FinishKeepsOk(st.ops[e.op], plan);
    }
  }

  /** The token in the hand vanishes. */
  lemma KeepLose(st: State, e: Event, rest: seq<Event>, clients: Streams)
    requires Inv(st, [e] + rest, clients, false)
    requires e.IsToken()
    ensures Inv(st, rest, clients, false)
  {
    forall x
      ensures Total(st, rest, clients, x) + One(e, x) == Total(st, [e] + rest, clients, x)
    {
      CountCons(e, rest, x);
    }
  }

  /** Same item counts and same socket identities: linearity carries over. */
  lemma LinearSame(st: State, hands: seq<Event>, st1: State, hands1: seq<Event>, clients: Streams)
    requires Linear(st, hands, clients)
    requires forall x :: Total(st1, hands1, clients, x) == Total(st, hands, clients, x)
    requires st1.ops == st.ops
    requires forall h :: h in st.sockets <==> h in st1.sockets
    requires forall h :: h in st.sockets ==> Identity(h, st1.sockets[h]) == Identity(h, st.sockets[h])
    requires st1.served == st.served
    ensures Linear(st1, hands1, clients)
    ensures NoTokenLost(st, hands, clients) ==> NoTokenLost(st1, hands1, clients)
  {
  }

  /** Replacing a socket by one of the same identity keeps the tables. */
  lemma TablesSame(sockets: map<Handle, S.Socket>, registered: set<TypedHandle>, accepted: set<Addr>,
                   born: seq<Addr>, h: Handle, s: S.Socket)
    requires RegistryMirrors(sockets, registered) && EndpointsMirror(sockets, accepted) && SocketsOk(sockets, born)
    requires h in sockets && Identity(h, s) == Identity(h, sockets[h])
    requires Shape(h, s) && Addressed(s, born)
    ensures RegistryMirrors(sockets[h := s], registered)
    ensures EndpointsMirror(sockets[h := s], accepted)
    ensures SocketsOk(sockets[h := s], born)
  {
    var sockets1 := sockets[h := s];
    assert forall k, a :: BoundTo(sockets1, k, a) <==> BoundTo(sockets, k, a);
    forall a
      ensures a in accepted <==> exists k :: BoundTo(sockets1, k, a)
    {
      if a in accepted {
        var k :| BoundTo(sockets, k, a);
        assert BoundTo(sockets1, k, a);
      }
    }
  }

  /** Items move between socket `h` and the hand; the socket keeps its identity. */
  predicate Moves(h: Handle, s: S.Socket, s1: S.Socket, from: seq<Event>, to: seq<Event>, x: Item) {
    if HandleOf(x) == h then Own(s1, x) + Count(to, x) == Own(s, x) + Count(from, x)
    else Count(to, x) == Count(from, x)
  }

  lemma MovesTotal(st: State, h: Handle, s1: S.Socket, from: seq<Event>, to: seq<Event>, clients: Streams, x: Item)
    requires h in st.sockets && Moves(h, st.sockets[h], s1, from, to, x)
    ensures Total(SetSocket(st, h, s1), to, clients, x) == Total(st, from, clients, x)
  {
  }

  lemma KeepReplace(st: State, h: Handle, s1: S.Socket, from: seq<Event>, to: seq<Event>, clients: Streams, whole: bool)
    requires Inv(st, from, clients, whole)
    requires h in st.sockets && Identity(h, s1) == Identity(h, st.sockets[h])
    requires Shape(h, s1) && Addressed(s1, st.born)
    requires forall x :: Moves(h, st.sockets[h], s1, from, to, x)
    ensures Inv(SetSocket(st, h, s1), to, clients, whole)
  {
    TablesSame(st.sockets, st.registered, st.accepted, st.born, h, s1);
    forall x
      ensures Total(SetSocket(st, h, s1), to, clients, x) == Total(st, from, clients, x)
    {
      MovesTotal(st, h, s1, from, to, clients, x);
    }
    LinearSame(st, from, SetSocket(st, h, s1), to, clients);
  }

  /** The socket changes but keeps its identity and its closures. */
  lemma KeepChange(st: State, h: Handle, s1: S.Socket, hands: seq<Event>, clients: Streams, whole: bool)
    requires Inv(st, hands, clients, whole)
    requires h in st.sockets && Identity(h, s1) == Identity(h, st.sockets[h])
    requires s1.recvSlot == st.sockets[h].recvSlot && s1.sendSlot == st.sockets[h].sendSlot
    requires Addressed(s1, st.born)
    ensures Inv(SetSocket(st, h, s1), hands, clients, whole)
  {
    KeepReplace(st, h, s1, hands, hands, clients, whole);
  }

  lemma ShapeHandle(h: Handle, s: S.Socket, e: Event, x: Item)
    requires RecvShape(h, s, e) || SendShape(h, s, e)
    requires HandleOf(x) != h
    ensures One(e, x) == 0
  {
  }

  /** The receive slot takes `slot` out of the hand and gives back what it held. */
  lemma KeepSwapRecv(st: State, h: Handle, slot: Option<Event>, rest: seq<Event>, clients: Streams, whole: bool)
    requires Inv(st, Opt(slot) + rest, clients, whole)
    requires h in st.sockets
    requires slot.Some? ==> RecvShape(h, st.sockets[h], slot.value)
    ensures Inv(SetSocket(st, h, st.sockets[h].(recvSlot := slot)), Opt(st.sockets[h].recvSlot) + rest, clients, whole)
  {
    var s := st.sockets[h];
    var s1 := s.(recvSlot := slot);
    var from := Opt(slot) + rest;
    var to := Opt(s.recvSlot) + rest;
    forall x
      ensures Moves(h, s, s1, from, to, x)
    {
      if HandleOf(x) != h {
        if slot.Some? { ShapeHandle(h, s, slot.value, x); }
        if s.recvSlot.Some? { ShapeHandle(h, s, s.recvSlot.value, x); }
      }
      CountOpt(slot, rest, x);
      CountOpt(s.recvSlot, rest, x);
    }
    KeepReplace(st, h, s1, from, to, clients, whole);
  }

  lemma KeepSwapSend(st: State, h: Handle, slot: Option<Event>, rest: seq<Event>, clients: Streams, whole: bool)
    requires Inv(st, Opt(slot) + rest, clients, whole)
    requires h in st.sockets
    requires slot.Some? ==> SendShape(h, st.sockets[h], slot.value)
    ensures Inv(SetSocket(st, h, st.sockets[h].(sendSlot := slot)), Opt(st.sockets[h].sendSlot) + rest, clients, whole)
  {
    var s := st.sockets[h];
    var s1 := s.(sendSlot := slot);
    var from := Opt(slot) + rest;
    var to := Opt(s.sendSlot) + rest;
    forall x
      ensures Moves(h, s, s1, from, to, x)
    {
      if HandleOf(x) != h {
        if slot.Some? { ShapeHandle(h, s, slot.value, x); }
        if s.sendSlot.Some? { ShapeHandle(h, s, s.sendSlot.value, x); }
      }
      CountOpt(slot, rest, x);
      CountOpt(s.sendSlot, rest, x);
    }
    KeepReplace(st, h, s1, from, to, clients, whole);
  }

}
