/**
 Operation events (src/tcp_stack/event.rs) and the split of a batch that `drive_once` performs
 before it handles the events (src/tcp_stack/mod.rs).

 The `inc` of a `Ready` or `Close` is the incarnation of the socket the event was built for. It is
 carried along but no handler branches on it: it exists so that properties can tell apart two
 sockets that used the same handle one after the other. An `OpId` names the buffer and the reply
 channel that an operation shares with its client.
 */
module Event {

  datatype Option<+T> = None | Some(value: T)

  newtype Byte = x: int | 0 <= x < 256

  type Handle = nat

  type OpId = nat

  datatype Addr = Addr(ip: nat, port: nat)

  datatype TypedHandle = Tcp(handle: Handle) | Udp(handle: Handle)

  datatype Event =
    | Ready(typed: TypedHandle, inc: nat)
    | Read(handle: Handle, op: OpId)
    | Write(handle: Handle, op: OpId)
    | Recv(handle: Handle, op: OpId)
    | Send(handle: Handle, src: Addr, op: OpId)
    | Shutdown(typed: TypedHandle, op: OpId)
    | Close(typed: TypedHandle, inc: nat)
  {
    /** Ready and Close are the life-cycle tokens of a socket; the rest are client operations. */
    predicate IsToken() { Ready? || Close? }

    /** The socket this event is addressed to. */
    function Target(): TypedHandle {
      match this
      case Ready(th, _) => th
      case Close(th, _) => th
      case Shutdown(th, _) => th
      case Read(h, _) => Tcp(h)
      case Write(h, _) => Tcp(h)
      case Recv(h, _) => Udp(h)
      case Send(h, _, _) => Udp(h)
    }

    /** Handled at once while `drive_once` walks over the batch. */
    predicate IsControl() { Ready? || Shutdown? || Close? }

    predicate IsTcpData() { Read? || Write? }

    predicate IsUdpData() { Recv? || Send? }
  }

  /**
   What an event is worth, apart from where it is: the life-cycle token of one socket incarnation,
   before or after the socket was handed to a client, or one client operation.
   */
  datatype Item = Token(typed: TypedHandle, inc: nat, served: bool) | Operation(event: Event)

  function ItemOf(e: Event): Item {
    if e.IsToken() then Token(e.typed, e.inc, e.Close?) else Operation(e)
  }

  /** 1 if `e` carries `x`, else 0. */
  function One(e: Event, x: Item): nat {
    if ItemOf(e) == x then 1 else 0
  }

  /** How many of the events carry item `x`. */
  function Count(es: seq<Event>, x: Item): nat {
    if es == [] then 0 else One(es[0], x) + Count(es[1..], x)
  }

  lemma {:induction false} CountConcat(a: seq<Event>, b: seq<Event>, x: Item)
    ensures Count(a + b, x) == Count(a, x) + Count(b, x)
  {
    if a == [] {
      assert a + b == b;
    } else {
      CountConcat(a[1..], b, x);
      assert (a + b)[1..] == a[1..] + b;
    }
  }

  lemma CountPush(es: seq<Event>, e: Event, x: Item)
    ensures Count(es + [e], x) == Count(es, x) + One(e, x)
  {
    CountConcat(es, [e], x);
    assert Count([e], x) == One(e, x) + Count([], x);
  }

  lemma CountCons(e: Event, es: seq<Event>, x: Item)
    ensures Count([e] + es, x) == One(e, x) + Count(es, x)
  {
    assert ([e] + es)[1..] == es;
  }

  lemma {:induction false} CountMember(es: seq<Event>, i: nat)
    requires i < |es|
    ensures Count(es, ItemOf(es[i])) >= 1
  {
    if i > 0 {
      CountMember(es[1..], i - 1);
    }
  }

  lemma {:induction false} CountWitness(es: seq<Event>, x: Item) returns (i: nat)
    requires Count(es, x) >= 1
    ensures i < |es| && ItemOf(es[i]) == x
  {
    if ItemOf(es[0]) == x {
      i := 0;
    } else {
      i := CountWitness(es[1..], x);
      i := i + 1;
    }
  }

  /** The control events of a batch, in order. */
  function Controls(es: seq<Event>): seq<Event> {
    if es == [] then []
    else if es[0].IsControl() then [es[0]] + Controls(es[1..])
    else Controls(es[1..])
  }

  function TcpData(es: seq<Event>): seq<Event> {
    if es == [] then []
    else if es[0].IsTcpData() then [es[0]] + TcpData(es[1..])
    else TcpData(es[1..])
  }

  function UdpData(es: seq<Event>): seq<Event> {
    if es == [] then []
    else if es[0].IsUdpData() then [es[0]] + UdpData(es[1..])
    else UdpData(es[1..])
  }

  /** The order in which `drive_once` handles a batch. */
  function Phased(es: seq<Event>): seq<Event> {
    Controls(es) + TcpData(es) + UdpData(es)
  }

  /** The split loses nothing and duplicates nothing. */
  lemma PhasedCount(es: seq<Event>, x: Item)
    ensures Count(Phased(es), x) == Count(es, x)
  {
    SplitCount(es, x);
    CountConcat(Controls(es) + TcpData(es), UdpData(es), x);
    CountConcat(Controls(es), TcpData(es), x);
  }

  lemma {:induction false} SplitCount(es: seq<Event>, x: Item)
    ensures Count(Controls(es), x) + Count(TcpData(es), x) + Count(UdpData(es), x) == Count(es, x)
  {
    if es != [] {
      var rest := es[1..];
      SplitCount(rest, x);
      CountCons(es[0], Controls(rest), x);
      CountCons(es[0], TcpData(rest), x);
      CountCons(es[0], UdpData(rest), x);
    }
  }

  lemma {:induction false} PhasedMembers(es: seq<Event>)
    ensures forall k :: 0 <= k < |Phased(es)| ==> Phased(es)[k] in es
  {
    SplitMembers(es);
  }

  lemma {:induction false} SplitMembers(es: seq<Event>)
    ensures forall k :: 0 <= k < |Controls(es)| ==> Controls(es)[k] in es
    ensures forall k :: 0 <= k < |TcpData(es)| ==> TcpData(es)[k] in es
    ensures forall k :: 0 <= k < |UdpData(es)| ==> UdpData(es)[k] in es
  {
    if es != [] {
      SplitMembers(es[1..]);
    }
  }

  lemma {:induction false} SplitPush(es: seq<Event>, e: Event)
    ensures Controls(es + [e]) == if e.IsControl() then Controls(es) + [e] else Controls(es)
    ensures TcpData(es + [e]) == if e.IsTcpData() then TcpData(es) + [e] else TcpData(es)
    ensures UdpData(es + [e]) == if e.IsUdpData() then UdpData(es) + [e] else UdpData(es)
  {
    if es == [] {
      assert es + [e] == [e] && [e][1..] == [];
    } else {
      SplitPush(es[1..], e);
      assert (es + [e])[1..] == es[1..] + [e];
    }
  }

  // ---- the order of control events ----

  lemma {:induction false} ControlsConcat(a: seq<Event>, b: seq<Event>)
    ensures Controls(a + b) == Controls(a) + Controls(b)
  {
    if a == [] {
      assert a + b == b;
    } else {
      ControlsConcat(a[1..], b);
      assert (a + b)[1..] == a[1..] + b;
    }
  }

  lemma {:induction false} ControlsOfData(es: seq<Event>)
    ensures Controls(TcpData(es)) == [] && Controls(UdpData(es)) == [] && Controls(Controls(es)) == Controls(es)
  {
    if es != [] {
      ControlsOfData(es[1..]);
      ControlsConcat([es[0]], TcpData(es[1..]));
      ControlsConcat([es[0]], UdpData(es[1..]));
      ControlsConcat([es[0]], Controls(es[1..]));
      assert [es[0]][1..] == [];
    }
  }

  /** Handling a batch in phases keeps the order of its control events. */
  lemma ControlsPhased(es: seq<Event>)
    ensures Controls(Phased(es)) == Controls(es)
  {
    ControlsConcat(Controls(es) + TcpData(es), UdpData(es));
    ControlsConcat(Controls(es), TcpData(es));
    ControlsOfData(es);
  }

  lemma {:induction false} ControlsMembers(es: seq<Event>)
    ensures forall k :: 0 <= k < |Controls(es)| ==> Controls(es)[k].IsControl() && Controls(es)[k] in es
  {
    if es != [] {
      ControlsMembers(es[1..]);
    }
  }
}
