/**
 The places an item can be in, spelled out one by one. This is the reading of linearity that does
 not depend on how items are counted: no item is in two places, and nothing that is owed is nowhere.
 */
module Places {
  import opened Event
  import opened Operation
  import opened Stack
  import opened Invariant
  import opened World
  import S = Smoltcp

  datatype Place =
    | Queued(i: nat)          // in the operation channel, or in a batch taken from it
    | Doing(i: nat)           // in the batch that is being handled
    | RecvSlotOf(h: Handle)   // parked in a receive slot
    | SendSlotOf(h: Handle)   // parked in a send slot
    | TcpAccept(i: nat)       // in the channel to the TCP acceptor
    | UdpAccept(i: nat)       // in the channel to the UDP acceptor
    | ClientObject(inc: nat)  // a live stream or socket

  function ItemAt(w: World, p: Place): Option<Item> {
    match p
    case Queued(i) => if i < |w.st.queue| then Some(ItemOf(w.st.queue[i])) else None
    case Doing(i) => if i < |w.todo| then Some(ItemOf(w.todo[i])) else None
    case RecvSlotOf(h) =>
      if h in w.st.sockets && w.st.sockets[h].recvSlot.Some? then Some(ItemOf(w.st.sockets[h].recvSlot.value)) else None
    case SendSlotOf(h) =>
      if h in w.st.sockets && w.st.sockets[h].sendSlot.Some? then Some(ItemOf(w.st.sockets[h].sendSlot.value)) else None
    case TcpAccept(i) =>
      if i < |w.st.tcpInfos| then Some(Token(Tcp(w.st.tcpInfos[i].handle), w.st.tcpInfos[i].inc, false)) else None
    case UdpAccept(i) =>
      if i < |w.st.udpInfos| then Some(Token(Udp(w.st.udpInfos[i].handle), w.st.udpInfos[i].inc, false)) else None
    case ClientObject(inc) =>
      if inc in w.clients then Some(Token(w.clients[inc].typed, inc, true)) else None
  }

  lemma {:induction false} CountTwice(es: seq<Event>, i: nat, j: nat)
    requires i < j < |es| && ItemOf(es[i]) == ItemOf(es[j])
    ensures Count(es, ItemOf(es[i])) >= 2
  {
    if i == 0 {
      CountMember(es[1..], j - 1);
    } else {
      CountTwice(es[1..], i - 1, j - 1);
    }
  }

  lemma {:induction false} InfoMember(infos: seq<Info>, tcp: bool, i: nat, x: Item)
    requires i < |infos| && InfoOne(infos[i], tcp, x) == 1
    ensures InInfos(infos, tcp, x) >= 1
  {
    if i > 0 {
      InfoMember(infos[1..], tcp, i - 1, x);
    }
  }

  lemma {:induction false} InfoTwice(infos: seq<Info>, tcp: bool, i: nat, j: nat, x: Item)
    requires i < j < |infos| && InfoOne(infos[i], tcp, x) == 1 && InfoOne(infos[j], tcp, x) == 1
    ensures InInfos(infos, tcp, x) >= 2
  {
    if i == 0 {
      InfoMember(infos[1..], tcp, j - 1, x);
    } else {
      InfoTwice(infos[1..], tcp, i - 1, j - 1, x);
    }
  }

  /** What the places of one kind contribute to the total. */
  function Part(w: World, p: Place, x: Item): nat {
    var h := HandleOf(x);
    match p
    case Queued(_) => Count(w.st.queue, x)
    case Doing(_) => Count(w.todo, x)
    case RecvSlotOf(_) => if h in w.st.sockets then InSlot(w.st.sockets[h].recvSlot, x) else 0
    case SendSlotOf(_) => if h in w.st.sockets then InSlot(w.st.sockets[h].sendSlot, x) else 0
    case TcpAccept(_) => InInfos(w.st.tcpInfos, true, x)
    case UdpAccept(_) => InInfos(w.st.udpInfos, false, x)
    case ClientObject(_) => AtClient(View(w, FREE), x)
  }

  predicate SameKind(p: Place, q: Place) {
    || (p.Queued? && q.Queued?) || (p.Doing? && q.Doing?)
    || (p.RecvSlotOf? && q.RecvSlotOf?) || (p.SendSlotOf? && q.SendSlotOf?)
    || (p.TcpAccept? && q.TcpAccept?) || (p.UdpAccept? && q.UdpAccept?)
    || (p.ClientObject? && q.ClientObject?)
  }

  lemma PartPositive(w: World, p: Place, x: Item)
    requires SocketsOk(w.st.sockets, w.st.born) && ItemAt(w, p) == Some(x)
    ensures Part(w, p, x) >= 1
    ensures p.RecvSlotOf? || p.SendSlotOf? ==> p.h == HandleOf(x)
  {
    match p
    case Queued(i) => CountMember(w.st.queue, i);
    case Doing(i) => CountMember(w.todo, i);
    case RecvSlotOf(h) => assert Shape(h, w.st.sockets[h]);
    case SendSlotOf(h) => assert Shape(h, w.st.sockets[h]);
    case TcpAccept(i) => InfoMember(w.st.tcpInfos, true, i, x);
    case UdpAccept(i) => InfoMember(w.st.udpInfos, false, i, x);
    case ClientObject(_) =>
  }

  lemma PartTwice(w: World, p: Place, q: Place, x: Item)
    requires SocketsOk(w.st.sockets, w.st.born) && ItemAt(w, p) == ItemAt(w, q) == Some(x)
    requires SameKind(p, q) && p != q
    ensures Part(w, p, x) >= 2
  {
    PartPositive(w, p, x);
    PartPositive(w, q, x);
    match p
    case Queued(i) => if i < q.i { CountTwice(w.st.queue, i, q.i); } else { CountTwice(w.st.queue, q.i, i); }
    case Doing(i) => if i < q.i { CountTwice(w.todo, i, q.i); } else { CountTwice(w.todo, q.i, i); }
    case TcpAccept(i) => if i < q.i { InfoTwice(w.st.tcpInfos, true, i, q.i, x); } else { InfoTwice(w.st.tcpInfos, true, q.i, i, x); }
    case UdpAccept(i) => if i < q.i { InfoTwice(w.st.udpInfos, false, i, q.i, x); } else { InfoTwice(w.st.udpInfos, false, q.i, i, x); }
    case _ =>
  }

  /** No item is in two places. */
  lemma OnePlace(w: World, p: Place, q: Place, d: Mode)
    requires WorldInv(w, d) && ItemAt(w, p).Some? && ItemAt(w, p) == ItemAt(w, q)
    ensures p == q
  {
    var x := ItemAt(w, p).value;
    assert Total(w.st, w.todo, View(w, d), x) <= 1;
    if p != q {
      PartPositive(w, p, x);
      PartPositive(w, q, x);
      if SameKind(p, q) {
        PartTwice(w, p, q, x);
      }
    }
  }

  /** An item that is somewhere is in a place of the list. */
  lemma SomePlace(w: World, x: Item, d: Mode) returns (p: Place)
    requires Total(w.st, w.todo, View(w, d), x) >= 1
    ensures ItemAt(w, p) == Some(x)
  {
    var h := HandleOf(x);
    if Count(w.st.queue, x) >= 1 {
      var i := CountWitness(w.st.queue, x);
      p := Queued(i);
    } else if Count(w.todo, x) >= 1 {
      var i := CountWitness(w.todo, x);
      p := Doing(i);
    } else if InSockets(w.st.sockets, x) >= 1 {
      p := if InSlot(w.st.sockets[h].recvSlot, x) >= 1 then RecvSlotOf(h) else SendSlotOf(h);
    } else if InInfos(w.st.tcpInfos, true, x) >= 1 {
      var i := InfoWitness(w.st.tcpInfos, true, x);
      p := TcpAccept(i);
    } else if InInfos(w.st.udpInfos, false, x) >= 1 {
      var i := InfoWitness(w.st.udpInfos, false, x);
      p := UdpAccept(i);
    } else {
      p := ClientObject(x.inc);
    }
  }

  lemma {:induction false} InfoWitness(infos: seq<Info>, tcp: bool, x: Item) returns (i: nat)
    requires InInfos(infos, tcp, x) >= 1
    ensures i < |infos| && InfoOne(infos[i], tcp, x) == 1
  {
    if InfoOne(infos[0], tcp, x) == 1 {
      i := 0;
    } else {
      i := InfoWitness(infos[1..], tcp, x);
      i := i + 1;
    }
  }
}
