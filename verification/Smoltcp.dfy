/**
 The part of the smoltcp library the stack relies on, as an explicit contract. The library itself
 is not part of this model.

 - A socket has a receive slot and a send slot, each holding at most one waker. The waker is
   represented by the event its closure owns.
 - `poll` changes one socket after another by the effects below, and nothing else.
 - State names are those of section 3.3.2 of RFC 9293.
 */
module Smoltcp {
  import opened Event

  datatype TcpState =
    | Closed | Listen | SynSent | SynReceived | Established
    | FinWait1 | FinWait2 | CloseWait | Closing | LastAck | TimeWait

  datatype Datagram = Datagram(addr: Addr, data: seq<Byte>)

  /** How many datagrams a UDP socket buffers in each direction. */
  const UDP_PACKETS: nat := 4096

  /**
   The protocol part of a socket. `local` is the endpoint a TCP socket was told to listen on; `peer`
   is present while the library keeps the address pair of a connection. `cap` is the capacity of
   each TCP buffer.
   */
  datatype Proto =
    | TcpSocket(local: Addr, peer: Option<Addr>, state: TcpState, rx: seq<Byte>, tx: seq<Byte>, cap: nat)
    | UdpSocket(endpoint: Option<Addr>, inbox: seq<Datagram>, outbox: seq<Datagram>)

  datatype Socket = Socket(inc: nat, p: Proto, recvSlot: Option<Event>, sendSlot: Option<Event>)
  {
    /** The typed handle under which the registry knows this socket. */
    function Typed(h: Handle): TypedHandle {
      if p.TcpSocket? then Tcp(h) else Udp(h)
    }
  }

  /** A fresh listening TCP socket; `listen` fails on port 0. */
  function Listening(dst: Addr, cap: nat): Option<Proto> {
    if dst.port == 0 then None else Some(TcpSocket(dst, None, Listen, [], [], cap))
  }

  /** A fresh bound UDP socket; `bind` fails on port 0. */
  function Bound(dst: Addr): Option<Proto> {
    if dst.port == 0 then None else Some(UdpSocket(Some(dst), [], []))
  }

  // ---- queries on a TCP socket ----

  predicate IsActive(state: TcpState) {
    !(state.Closed? || state.TimeWait? || state.Listen?)
  }

  predicate MaySend(state: TcpState) {
    state.Established? || state.CloseWait?
  }

  predicate Receiving(state: TcpState) {
    state.Established? || state.FinWait1? || state.FinWait2?
  }

  predicate MayRecv(p: Proto)
    requires p.TcpSocket?
  {
    Receiving(p.state) || p.rx != []
  }

  predicate CanSendTcp(p: Proto)
    requires p.TcpSocket?
  {
    MaySend(p.state) && |p.tx| < p.cap
  }

  /** The transmit half is not shut yet: `close` will change the state (RFC 9293, section 3.6). */
  predicate TransmitOpen(state: TcpState) {
    state.Listen? || state.SynSent? || state.SynReceived? || state.Established? || state.CloseWait?
  }

  /** The state `close` moves to. */
  function CloseState(state: TcpState): (r: TcpState)
    ensures r != state <==> TransmitOpen(state)
    ensures !TransmitOpen(r)
    ensures IsActive(r) ==> IsActive(state)
  {
    match state
    case Listen => Closed
    case SynSent => Closed
    case SynReceived => FinWait1
    case Established => FinWait1
    case CloseWait => LastAck
    case _ => state
  }

  // ---- moving data ----

  function Min(a: nat, b: nat): nat { if a < b then a else b }

  datatype RecvResult = Received(n: nat) | Finished | InvalidState

  /** How many bytes `recv_slice` moves into a slice of length `len`. */
  function RecvSlice(p: Proto, len: nat): RecvResult
    requires p.TcpSocket?
  {
    if MayRecv(p) then Received(Min(|p.rx|, len))
    else if p.state.CloseWait? || p.state.Closing? || p.state.LastAck? || p.state.TimeWait? then Finished
    else InvalidState
  }

  datatype SendResult = Accepted(n: nat) | SendInvalidState

  /** How many bytes `send_slice` takes from a slice of length `len`. */
  function SendSlice(p: Proto, len: nat): SendResult
    requires p.TcpSocket?
  {
    if !MaySend(p.state) then SendInvalidState
    else Accepted(if |p.tx| <= p.cap then Min(p.cap - |p.tx|, len) else 0)
  }

  // ---- what `poll` may do to one socket ----

  datatype Effect =
    | Deliver(bytes: seq<Byte>)                  // in-order data from the peer
    | Acked(n: nat)                              // the peer acknowledged n bytes
    | Move(to: TcpState, newPeer: Option<Addr>)  // a state change
    | Reset                                      // back to CLOSED with both buffers cleared
    | Arrive(datagram: Datagram)                 // a datagram for a UDP socket
    | Depart(n: nat)                             // n datagrams left a UDP socket

  /**
   The assumption on endpoints: a socket of a connection, or one that still holds received data,
   knows both of them. In particular a socket that may receive does.
   */
  predicate PeerKnown(state: TcpState, rx: seq<Byte>, peer: Option<Addr>) {
    ((state.Closed? || state.Listen?) && rx == []) || peer.Some?
  }

  /** When an effect may happen. */
  predicate Possible(p: Proto, f: Effect) {
    match f
    case Deliver(bytes) => p.TcpSocket? && Receiving(p.state) && bytes != [] && |p.rx| + |bytes| <= p.cap
    case Acked(n) => p.TcpSocket? && 0 < n <= |p.tx|
    case Move(to, newPeer) => p.TcpSocket? && !p.state.Closed? && PeerKnown(to, p.rx, newPeer)
    case Reset => p.TcpSocket? && !p.state.Listen?
    case Arrive(_) => p.UdpSocket? && |p.inbox| < UDP_PACKETS
    case Depart(n) => p.UdpSocket? && 0 < n <= |p.outbox|
  }

  /** The socket after the effect, before any waker runs. */
  function Affected(p: Proto, f: Effect): (r: Proto)
    requires Possible(p, f)
    ensures r.TcpSocket? <==> p.TcpSocket?
    ensures r.TcpSocket? ==> r.local == p.local && r.cap == p.cap
    ensures r.UdpSocket? ==> r.endpoint == p.endpoint
  {
    match f
    case Deliver(bytes) => p.(rx := p.rx + bytes)
    case Acked(n) => p.(tx := p.tx[n..])
    case Move(to, newPeer) => p.(state := to, peer := newPeer)
    case Reset => p.(state := Closed, peer := None, rx := [], tx := [])
    case Arrive(d) => p.(inbox := p.inbox + [d])
    case Depart(n) => p.(outbox := p.outbox[n..])
  }

  /** State changes wake both slots, arriving data the receive slot, freed space the send slot. */
  predicate WakesRecv(f: Effect) { f.Deliver? || f.Arrive? || f.Move? || f.Reset? }

  predicate WakesSend(f: Effect) { f.Acked? || f.Depart? || f.Move? || f.Reset? }
}
