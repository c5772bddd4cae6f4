/**
 The network stack (src/tcp_stack/mod.rs) as a function of its state: what each handler does to the
 socket table, the registries, the operation channel, the acceptor channels and the operations.

 `panicked` records that the source would have panicked: a `get_mut` on a missing handle or on a
 socket of the other type, a failed `expect`, or an `unreachable!` arm.
 */
module Stack {
  import opened Event
  import opened Operation
  import S = Smoltcp

  /** What an acceptor receives (`TcpInfo`, `UdpInfo`). */
  datatype Info = Info(handle: Handle, inc: nat, localAddr: Option<Addr>, remoteAddr: Addr)

  /**
   `queue` is the operation channel together with the batches already taken from it but not yet
   handed to `drive_once`; they arrive there in the order in which they were sent. `born[i]` is the
   destination of the packet that created incarnation `i`, and `served` is the incarnations that
   were handed to a client; nothing branches on these two.
   */
  datatype State = State(
    sockets: map<Handle, S.Socket>,
    registered: set<TypedHandle>,
    accepted: set<Addr>,
    queue: seq<Event>,
    queueOpen: bool,
    tcpInfos: seq<Info>,
    tcpAcceptor: bool,
    udpInfos: seq<Info>,
    udpAcceptor: bool,
    ops: map<OpId, Op>,
    born: seq<Addr>,
    served: set<nat>,
    bufSize: nat,
    panicked: bool)

  function Initial(bufSize: nat): State {
    State(map[], {}, {}, [], true, [], true, [], true, map[], [], {}, bufSize, false)
  }

  function Panic(st: State): State { st.(panicked := true) }

  predicate HasTcp(st: State, h: Handle) { h in st.sockets && st.sockets[h].p.TcpSocket? }

  predicate HasUdp(st: State, h: Handle) { h in st.sockets && st.sockets[h].p.UdpSocket? }

  /** No channel was opened or closed and no socket was created. */
  predicate SameChannels(st: State, r: State) {
    && r.queueOpen == st.queueOpen && r.tcpAcceptor == st.tcpAcceptor && r.udpAcceptor == st.udpAcceptor
    && r.born == st.born && r.served == st.served && r.bufSize == st.bufSize
  }

  // ---- operations and wakers ----

  function FinishOp(ops: map<OpId, Op>, o: OpId, plan: seq<Act>): map<OpId, Op> {
    if o in ops then ops[o := Finish(ops[o], plan)] else ops
  }

  /** Let go of an operation by the given drops and sends. */
  function LetGo(st: State, o: OpId, plan: seq<Act>): State {
    st.(ops := FinishOp(st.ops, o, plan))
  }

  /** A closure, and the event it owns, is dropped without having run. */
  function Discard(st: State, e: Event): State {
    if e.IsToken() then st else LetGo(st, e.op, DropPlan(e.Shutdown?))
  }

  function DiscardSlot(st: State, slot: Option<Event>): (r: State)
    ensures r == st.(ops := r.ops)
  {
    if slot.None? then st else Discard(st, slot.value)
  }

  /**
   A closure runs. The shutdown closure answers its operation; every other closure sends its event.
   When the channel is closed an operation is answered with an error and a token is lost.
   */
  function Fire(st: State, e: Event): (r: State)
    ensures r == st.(queue := r.queue, ops := r.ops)
  {
    if e.Shutdown? then LetGo(st, e.op, [SendReply(OkUnit), DropSender])
    else if st.queueOpen then st.(queue := st.queue + [e])
    else if e.IsToken() then st
    else LetGo(st, e.op, [DropBuffer, SendReply(Err(BrokenPipe)), DropSender])
  }

  function SetSocket(st: State, h: Handle, s: S.Socket): State {
    st.(sockets := st.sockets[h := s])
  }

  function FireRecv(st: State, h: Handle): (r: State)
    requires h in st.sockets
    ensures r == st.(sockets := st.sockets[h := st.sockets[h].(recvSlot := None)], queue := r.queue, ops := r.ops)
  {
    var s := st.sockets[h];
    var st1 := SetSocket(st, h, s.(recvSlot := None));
    if s.recvSlot.None? then st1 else Fire(st1, s.recvSlot.value)
  }

  function FireSend(st: State, h: Handle): (r: State)
    requires h in st.sockets
    ensures r == st.(sockets := st.sockets[h := st.sockets[h].(sendSlot := None)], queue := r.queue, ops := r.ops)
  {
    var s := st.sockets[h];
    var st1 := SetSocket(st, h, s.(sendSlot := None));
    if s.sendSlot.None? then st1 else Fire(st1, s.sendSlot.value)
  }

  /** `register_recv_waker`: the new closure replaces and drops the old one. */
  function RegisterRecv(st: State, h: Handle, e: Event): (r: State)
    requires h in st.sockets
    ensures r == st.(sockets := st.sockets[h := st.sockets[h].(recvSlot := Some(e))], ops := r.ops)
  {
    var s := st.sockets[h];
    DiscardSlot(SetSocket(st, h, s.(recvSlot := Some(e))), s.recvSlot)
  }

  function RegisterSend(st: State, h: Handle, e: Event): (r: State)
    requires h in st.sockets
    ensures r == st.(sockets := st.sockets[h := st.sockets[h].(sendSlot := Some(e))], ops := r.ops)
  {
    var s := st.sockets[h];
    DiscardSlot(SetSocket(st, h, s.(sendSlot := Some(e))), s.sendSlot)
  }

  /** `TcpSocket::close`: a change of state wakes both slots. */
  function CloseTcp(st: State, h: Handle): (r: State)
    requires HasTcp(st, h)
    ensures HasTcp(r, h) && r.sockets[h].p.state == S.CloseState(st.sockets[h].p.state)
    ensures r.sockets[h].inc == st.sockets[h].inc
    ensures r == st.(sockets := st.sockets[h := r.sockets[h]], queue := r.queue, ops := r.ops)
  {
    var s := st.sockets[h];
    var next := S.CloseState(s.p.state);
    var st1 := SetSocket(st, h, s.(p := s.p.(state := next)));
    if next == s.p.state then st1 else FireSend(FireRecv(st1, h), h)
  }

  /**
   `UdpSocket::close`: unbinds, clears both buffers and wakes both slots. The closures do not look
   at the socket, so it does not matter that they run first here.
   */
  function CloseUdp(st: State, h: Handle): (r: State)
    requires HasUdp(st, h)
    ensures HasUdp(r, h)
    ensures r == st.(sockets := st.sockets[h := r.sockets[h]], queue := r.queue, ops := r.ops)
  {
    var st1 := FireSend(FireRecv(st, h), h);
    SetSocket(st1, h, st1.sockets[h].(p := S.UdpSocket(None, [], [])))
  }

  function DropRecv(st: State, h: Handle): (r: State)
    requires h in st.sockets
    ensures r == st.(sockets := st.sockets[h := st.sockets[h].(recvSlot := None)], ops := r.ops)
  {
    var s := st.sockets[h];
    DiscardSlot(SetSocket(st, h, s.(recvSlot := None)), s.recvSlot)
  }

  function DropSend(st: State, h: Handle): (r: State)
    requires h in st.sockets
    ensures r == st.(sockets := st.sockets[h := st.sockets[h].(sendSlot := None)], ops := r.ops)
  {
    var s := st.sockets[h];
    DiscardSlot(SetSocket(st, h, s.(sendSlot := None)), s.sendSlot)
  }

  /** `remove_tcp_socket`: `SocketSet::remove` drops the socket and both its closures. */
  function RemoveTcp(st: State, h: Handle): (r: State)
    requires h in st.sockets
    ensures SameChannels(st, r)
  {
    var st1 := DropSend(DropRecv(st, h), h);
    st1.(sockets := st1.sockets - {h}, registered := st1.registered - {Tcp(h)})
  }

  /** `remove_udp_socket`. */
  function RemoveUdp(st: State, h: Handle, dst: Addr): (r: State)
    requires h in st.sockets
    ensures SameChannels(st, r)
  {
    var st1 := DropSend(DropRecv(st, h), h);
    st1.(sockets := st1.sockets - {h}, accepted := st1.accepted - {dst}, registered := st1.registered - {Udp(h)})
  }

  // ---- creating sockets ----

  /** `init_tcp`; None when `listen` fails. `h` is the free handle chosen by `SocketSet::add`. */
  function InitTcp(st: State, dst: Addr, h: Handle): Option<State> {
    var inc := |st.born|;
    var p := S.Listening(dst, st.bufSize);
    if p.None? then None
    else
      Some(st.(sockets := st.sockets[h := S.Socket(inc, p.value, None, Some(Ready(Tcp(h), inc)))],
               registered := st.registered + {Tcp(h)},
               born := st.born + [dst]))
  }

  datatype UdpInit = Ignored | BindFailed | SendFailed(st: State) | Created(st: State)

  /** `try_init_udp`. */
  function TryInitUdp(st: State, dst: Addr, h: Handle): UdpInit {
    if dst in st.accepted then Ignored
    else
      var inc := |st.born|;
      var p := S.Bound(dst);
      if p.None? then BindFailed
      else
        var st1 := st.(sockets := st.sockets[h := S.Socket(inc, p.value, None, None)],
                       registered := st.registered + {Udp(h)},
                       accepted := st.accepted + {dst},
                       born := st.born + [dst]);
        if st.queueOpen then Created(st1.(queue := st1.queue + [Ready(Udp(h), inc)]))
        else SendFailed(st1)
  }

  /** One effect of `poll` on socket `h`, with the wakers it runs. */
  function Poll(st: State, h: Handle, f: S.Effect): State
    requires h in st.sockets && S.Possible(st.sockets[h].p, f)
  {
    var s := st.sockets[h];
    var st1 := SetSocket(st, h, s.(p := S.Affected(s.p, f)));
    var st2 := if S.WakesRecv(f) then FireRecv(st1, h) else st1;
    if S.WakesSend(f) then FireSend(st2, h) else st2
  }

  // ---- control events ----

  function HandleReady(st: State, th: TypedHandle, inc: nat): (r: State)
    ensures SameChannels(st, r)
  {
    match th
    case Tcp(h) =>
      if !HasTcp(st, h) then Panic(st)
      else
        var p := st.sockets[h].p;
        if !S.MayRecv(p) then RegisterRecv(st, h, Ready(th, inc))
        else if p.peer.None? then Panic(st)
        else if !st.tcpAcceptor then st
        else st.(tcpInfos := st.tcpInfos + [Info(h, inc, p.peer, p.local)])
    case Udp(h) =>
      if !HasUdp(st, h) then Panic(st)
      else
        var p := st.sockets[h].p;
        if p.endpoint.None? then Panic(st)
        else if !st.udpAcceptor then st
        else st.(udpInfos := st.udpInfos + [Info(h, inc, None, p.endpoint.value)])
  }

  function HandleShutdown(st: State, th: TypedHandle, o: OpId): (r: State)
    ensures SameChannels(st, r)
  {
    if th !in st.registered then LetGo(st, o, [SendReply(Err(Other)), DropSender])
    else
      match th
      case Tcp(h) =>
        if !HasTcp(st, h) then Panic(st)
        else CloseTcp(RegisterSend(st, h, Shutdown(th, o)), h)
      case Udp(_) => Panic(st)
  }

  /** The TCP arm of `handle_close_event`. */
  function CloseStream(st: State, h: Handle, inc: nat): (r: State)
    requires HasTcp(st, h)
    ensures SameChannels(st, r)
  {
    var st1 := CloseTcp(st, h);
    if !S.IsActive(st1.sockets[h].p.state) then RemoveTcp(st1, h)
    else RegisterRecv(st1, h, Close(Tcp(h), inc))
  }

  /** The UDP arm of `handle_close_event`. */
  function CloseDatagram(st: State, h: Handle): (r: State)
    requires HasUdp(st, h)
    ensures SameChannels(st, r)
  {
    var addr := st.sockets[h].p.endpoint;
    if addr.None? then Panic(st) else RemoveUdp(CloseUdp(st, h), h, addr.value)
  }

  function HandleClose(st: State, th: TypedHandle, inc: nat): (r: State)
    ensures SameChannels(st, r)
  {
    if th !in st.registered then st
    else
      match th
      case Tcp(h) => if HasTcp(st, h) then CloseStream(st, h, inc) else Panic(st)
      case Udp(h) => if HasUdp(st, h) then CloseDatagram(st, h) else Panic(st)
  }

  // ---- TCP data events ----

  /** What the read and write arms decide on the socket and the shared buffer alone. */
  datatype Outcome =
    | Park
    | Complete(proto: S.Proto, buf: seq<Byte>, init: nat, plan: seq<Act>)
  {
    function Answer(): Option<Reply> { if Complete? then ReplyIn(plan) else None }
  }

  function ReadOutcome(p: S.Proto, buf: seq<Byte>, init: nat): (r: Outcome)
    requires p.TcpSocket?
    ensures r.Complete? ==> r.proto.TcpSocket? && r.proto.local == p.local && |r.buf| == |buf|
    ensures r.Complete? && init <= |buf| ==> r.init <= |r.buf|
    ensures r.Complete? ==> BufferFirst(r.plan, true)
  {
    var eof := [DropBuffer, SendReply(Ok(0)), DropSender];
    if p.rx == [] then
      if !S.MayRecv(p) then Complete(p, buf, init, eof) else Park
    else
      match S.RecvSlice(p, |buf|)
      case Finished => Complete(p, buf, init, eof)
      case InvalidState => Complete(p, buf, init, [DropBuffer, SendReply(Err(Other)), DropSender])
      case Received(n) =>
        assert n <= |p.rx| && n <= |buf|;
        Complete(p.(rx := p.rx[n..]), p.rx[..n] + buf[n..], n, [DropBuffer, SendReply(Ok(n)), DropSender])
  }

  function WriteOutcome(p: S.Proto, buf: seq<Byte>, init: nat): (r: Outcome)
    requires p.TcpSocket?
    ensures r.Complete? ==> r.proto.TcpSocket? && r.proto.local == p.local && |r.buf| == |buf|
    ensures r.Complete? && init <= |buf| ==> r.init <= |r.buf|
    ensures r.Complete? ==> BufferFirst(r.plan, true)
  {
    if !S.CanSendTcp(p) then
      if !S.MaySend(p.state) then Complete(p, buf, init, [DropBuffer, SendReply(Err(BrokenPipe)), DropSender]) else Park
    else
      match S.SendSlice(p, |buf|)
      case SendInvalidState => Complete(p, buf, init, [DropBuffer, SendReply(Err(Other)), DropSender])
      case Accepted(n) =>
        assert n <= |buf|;
        Complete(p.(tx := p.tx + buf[..n]), buf, init, [DropBuffer, SendReply(Ok(n)), DropSender])
  }

  /** The driver writes to the shared buffer, then lets go of the operation. */
  function CompleteOp(st: State, h: Handle, o: OpId, proto: S.Proto, buf: seq<Byte>, init: nat, plan: seq<Act>): State
    requires h in st.sockets && o in st.ops
  {
    st.(sockets := st.sockets[h := st.sockets[h].(p := proto)],
        ops := st.ops[o := Finish(st.ops[o].(buf := buf, init := init), plan)])
  }

  function HandleTcp(st: State, e: Event): (r: State)
    ensures SameChannels(st, r)
  {
    match e
    case Write(h, o) =>
      if Tcp(h) !in st.registered then LetGo(st, o, [DropBuffer, SendReply(Err(NotFound)), DropSender])
      else if !HasTcp(st, h) || o !in st.ops then Panic(st)
      else (
        match WriteOutcome(st.sockets[h].p, st.ops[o].buf, st.ops[o].init)
        case Park => RegisterSend(st, h, e)
        case Complete(p, buf, init, plan) => CompleteOp(st, h, o, p, buf, init, plan))
    case Read(h, o) =>
      if Tcp(h) !in st.registered then LetGo(st, o, [DropBuffer, SendReply(Err(NotFound)), DropSender])
      else if !HasTcp(st, h) || o !in st.ops then Panic(st)
      else (
        match ReadOutcome(st.sockets[h].p, st.ops[o].buf, st.ops[o].init)
        case Park => RegisterRecv(st, h, e)
        case Complete(p, buf, init, plan) => CompleteOp(st, h, o, p, buf, init, plan))
    case _ => Panic(st)
  }

  // ---- UDP data events ----

  function RecvOutcome(p: S.Proto, buf: seq<Byte>, init: nat, refused: bool): (r: Outcome)
    requires p.UdpSocket?
    ensures r.Complete? ==> r.proto.UdpSocket? && r.proto.endpoint == p.endpoint && |r.buf| == |buf|
    ensures r.Complete? && init <= |buf| ==> r.init <= |r.buf|
    ensures r.Complete? ==> BufferFirst(r.plan, true)
  {
    if p.inbox == [] then Park
    else
      var d := p.inbox[0];
      var p1 := p.(inbox := p.inbox[1..]);
      if refused then Complete(p1, buf, init, [DropBuffer, SendReply(Err(Other)), DropSender])
      else
        var n := S.Min(|d.data|, |buf|);
        Complete(p1, d.data[..n] + buf[n..], n, [DropBuffer, SendReply(OkFrom(n, d.addr)), DropSender])
  }

  function SendOutcome(p: S.Proto, to: Addr, buf: seq<Byte>, init: nat, refused: bool): (r: Outcome)
    requires p.UdpSocket?
    ensures r.Complete? ==> r.proto.UdpSocket? && r.proto.endpoint == p.endpoint && |r.buf| == |buf|
    ensures r.Complete? && init <= |buf| ==> r.init <= |r.buf|
    ensures r.Complete? ==> BufferFirst(r.plan, true)
  {
    if |p.outbox| >= S.UDP_PACKETS then Park
    else if refused then Complete(p, buf, init, [DropBuffer, SendReply(Err(Other)), DropSender])
    else Complete(p.(outbox := p.outbox + [S.Datagram(to, buf)]), buf, init, [DropBuffer, SendReply(Ok(|buf|)), DropSender])
  }

  function HandleUdp(st: State, e: Event): (r: State)
    ensures SameChannels(st, r)
  {
    match e
    case Send(h, to, o) =>
      if Udp(h) !in st.registered then LetGo(st, o, [DropBuffer, SendReply(Err(NotFound)), DropSender])
      else if !HasUdp(st, h) || o !in st.ops then Panic(st)
      else (
        match SendOutcome(st.sockets[h].p, to, st.ops[o].buf, st.ops[o].init, st.ops[o].refused)
        case Park => RegisterSend(st, h, e)
        case Complete(p, buf, init, plan) => CompleteOp(st, h, o, p, buf, init, plan))
    case Recv(h, o) =>
      if Udp(h) !in st.registered then LetGo(st, o, [DropBuffer, SendReply(Err(NotFound)), DropSender])
      else if !HasUdp(st, h) || o !in st.ops then Panic(st)
      else (
        match RecvOutcome(st.sockets[h].p, st.ops[o].buf, st.ops[o].init, st.ops[o].refused)
        case Park => RegisterRecv(st, h, e)
        case Complete(p, buf, init, plan) => CompleteOp(st, h, o, p, buf, init, plan))
    case _ => Panic(st)
  }

  // ---- a whole batch ----

  function HandleControl(st: State, e: Event): (r: State)
    ensures SameChannels(st, r)
  {
    match e
    case Ready(th, inc) => HandleReady(st, th, inc)
    case Shutdown(th, o) => HandleShutdown(st, th, o)
    case Close(th, inc) => HandleClose(st, th, inc)
    case _ => Panic(st)
  }

  /** The handler an event is routed to. */
  function Dispatch(st: State, e: Event): (r: State)
    ensures SameChannels(st, r)
  {
    if e.IsControl() then HandleControl(st, e)
    else if e.IsTcpData() then HandleTcp(st, e)
    else HandleUdp(st, e)
  }

  function DispatchAll(st: State, es: seq<Event>): State
    decreases es
  {
    if es == [] then st else DispatchAll(Dispatch(st, es[0]), es[1..])
  }
}
