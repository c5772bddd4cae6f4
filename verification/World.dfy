/**
 The whole system as a state machine: the driver, any number of client tasks, the acceptors, and the
 event generator. A run interleaves their steps in any order.
 */
module World {
  import opened Event
  import opened Operation
  import opened Stack
  import opened Invariant
  import opened Handlers
  import opened Parked
  import S = Smoltcp

  /**
   `todo` is what is left of the batch that `drive_once` is working on, in the order in which it
   will handle it. `running` becomes false when `drive_once` returns an error or the stack is dropped.
   */
  datatype World = World(st: State, running: bool, todo: seq<Event>, clients: map<nat, Stream>)

  function Start(bufSize: nat): World {
    World(Initial(bufSize), true, [], map[])
  }

  datatype Label =
    // the driver
    | Syn(dst: Addr, h: Handle)
    | UdpPacket(dst: Addr, h: Handle)
    | PollOne(h: Handle, effect: S.Effect)
    | TakeBatch(n: nat)
    | HandleNext
    | DropStack
    // one step of either half of an operation
    | Advance(o: OpId, step: OpStep)
    // clients
    | AcceptTcp
    | AcceptUdp
    | DropTcpAcceptor
    | DropUdpAcceptor
    | Issue(o: OpId, inc: nat, kind: OpKind, buf: seq<Byte>, refused: bool)
    | DropClient(inc: nat)
    // the event generator is dropped; the first n queued events are in batches already taken
    | DropGenerator(n: nat)

  predicate Enabled(w: World, l: Label) {
    match l
    case Syn(_, h) => w.running && w.todo == [] && h !in w.st.sockets
    case UdpPacket(_, h) => w.running && w.todo == [] && h !in w.st.sockets
    case PollOne(h, f) => w.running && w.todo == [] && h in w.st.sockets && S.Possible(w.st.sockets[h].p, f)
    case TakeBatch(n) => w.running && w.todo == [] && n <= |w.st.queue|
    case HandleNext => w.running && w.todo != []
    case DropStack => w.running
    case Advance(o, m) => o in w.st.ops && CanDo(w.st.ops[o], m)
    case AcceptTcp => w.st.tcpAcceptor && w.st.tcpInfos != []
    case AcceptUdp => w.st.udpAcceptor && w.st.udpInfos != []
    case DropTcpAcceptor => w.st.tcpAcceptor
    case DropUdpAcceptor => w.st.udpAcceptor
    case Issue(o, inc, kind, _, _) => o !in w.st.ops && inc in w.clients && KindFits(kind, w.clients[inc].typed)
    // the futures of a stream borrow it, so none of them is alive when it is dropped
    case DropClient(inc) => inc in w.clients && forall o :: o in w.st.ops && w.st.ops[o].inc == inc ==> !w.st.ops[o].ClientHolds()
    case DropGenerator(n) => w.st.queueOpen && n <= |w.st.queue|
  }

  function SetOp(w: World, o: OpId, op: Op): World {
    w.(st := w.st.(ops := w.st.ops[o := op]))
  }

  /** The events are dropped one after another. */
  function DiscardAll(st: State, es: seq<Event>): State
    decreases es
  {
    if es == [] then st else DiscardAll(Discard(st, es[0]), es[1..])
  }

  predicate ParkedOp(sockets: map<Handle, S.Socket>, op: Op, o: OpId) {
    InSockets(sockets, Operation(EventFor(op.kind, op.target, o))) >= 1
  }

  /** The socket set is dropped, and with it every parked closure. Nothing reads the tables again. */
  function DropSockets(st: State): State {
    st.(sockets := map h | h in st.sockets :: st.sockets[h].(recvSlot := None, sendSlot := None),
        ops := map o | o in st.ops :: if ParkedOp(st.sockets, st.ops[o], o) then Finish(st.ops[o], DropPlan(st.ops[o].kind.ShutdownOp?)) else st.ops[o])
  }

  function Next(w: World, l: Label): World
    requires Enabled(w, l)
  {
    match l
    case Syn(dst, h) =>
      var r := InitTcp(w.st, dst, h);
      if r.None? then w.(running := false) else w.(st := r.value)
    case UdpPacket(dst, h) => (
      match TryInitUdp(w.st, dst, h)
      case Ignored => w
      case BindFailed => w.(running := false)
      case SendFailed(st) => w.(st := st, running := false)
      case Created(st) => w.(st := st))
    case PollOne(h, f) => w.(st := Poll(w.st, h, f))
    case TakeBatch(n) => w.(st := w.st.(queue := w.st.queue[n..]), todo := Phased(w.st.queue[..n]))
    case HandleNext => w.(st := Dispatch(w.st, w.todo[0]), todo := w.todo[1..])
    case DropStack => w.(st := DropSockets(DiscardAll(w.st, w.todo)), running := false, todo := [])
    case Advance(o, m) => SetOp(w, o, Do(w.st.ops[o], m))
    case AcceptTcp =>
      var i := w.st.tcpInfos[0];
      w.(st := w.st.(tcpInfos := w.st.tcpInfos[1..], served := w.st.served + {i.inc}), clients := w.clients[i.inc := Stream(Tcp(i.handle), i.remoteAddr, i.localAddr)])
    case AcceptUdp =>
      var i := w.st.udpInfos[0];
      w.(st := w.st.(udpInfos := w.st.udpInfos[1..], served := w.st.served + {i.inc}), clients := w.clients[i.inc := Stream(Udp(i.handle), i.remoteAddr, i.localAddr)])
    case DropTcpAcceptor => w.(st := w.st.(tcpInfos := [], tcpAcceptor := false))
    case DropUdpAcceptor => w.(st := w.st.(udpInfos := [], udpAcceptor := false))
    case Issue(o, inc, kind, buf, refused) =>
      var th := w.clients[inc].typed;
      if w.st.queueOpen then
        w.(st := w.st.(ops := w.st.ops[o := Issued(kind, th, inc, buf, refused)],
                       queue := w.st.queue + [EventFor(kind, th, o)]))
      else SetOp(w, o, IssueRefused(kind, th, inc, buf, refused))
    case DropClient(inc) =>
      var th := w.clients[inc].typed;
      w.(st := if w.st.queueOpen then w.st.(queue := w.st.queue + [Close(th, inc)]) else w.st,
         clients := w.clients - {inc})
    case DropGenerator(n) =>
      w.(st := DiscardAll(w.st.(queue := w.st.queue[..n], queueOpen := false), w.st.queue[n..]))
  }

  // ---- runs ----

  /**
   What is known about a run. `strict`: the clients keep the discipline. `tokens`: no token has been
   lost. `orphans`: the incarnations that are known to have lost theirs.
   */
  datatype Mode = Mode(strict: bool, tokens: bool, orphans: map<nat, TypedHandle>)

  /** Clients may do whatever the types allow. */
  const FREE: Mode := Mode(false, false, map[])

  /** Clients keep the discipline. */
  const STRICT: Mode := Mode(true, true, map[])

  /** Clients are free, but no operation is ever parked over a token. */
  const CAREFUL: Mode := Mode(false, true, map[])

  function View(w: World, d: Mode): Streams { Streams(w.clients, d.strict, d.orphans) }

  /** The client discipline: every operation on a stream is awaited to the end before it is dropped. */
  predicate Obeys(w: World, l: Label) {
    l.DropClient? ==> forall o :: o in w.st.ops && w.st.ops[o].inc == l.inc ==> w.st.ops[o].client.Done?
  }

  /** Whether the step may happen in a run of this mode. */
  predicate Allowed(w: World, l: Label, d: Mode) {
    && (d.strict ==> Obeys(w, l))
    && (d.tokens && !d.strict && l.HandleNext? && w.todo != [] ==> !Displaces(w.st, w.todo[0]))
  }

  /** A finite run from the start. */
  ghost predicate Run(ws: seq<World>, ls: seq<Label>, d: Mode) {
    && |ws| == |ls| + 1
    && ws[0] == Start(ws[0].st.bufSize)
    && forall i :: 0 <= i < |ls| ==> Step(ws[i], ls[i], ws[i + 1], d)
  }

  ghost predicate Step(w: World, l: Label, w1: World, d: Mode) {
    Enabled(w, l) && w1 == Next(w, l) && Allowed(w, l, d)
  }

  // ---- the invariant of the whole system ----

  predicate Whole(w: World) { w.running && Intact(w.st) }

  ghost predicate WorldInv(w: World, d: Mode) {
    && Inv(w.st, w.todo, View(w, d), d.tokens && Whole(w))
    && AllBlocked(w.st.sockets)
  }

  lemma StartInv(bufSize: nat, d: Mode)
    requires d.orphans == map[]
    ensures WorldInv(Start(bufSize), d)
  {
  }
}
