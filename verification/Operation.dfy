/**
 One client operation: the buffer it shares with the driver (src/shared_buf.rs) and its one-shot
 reply channel (the `flume::bounded(1)` of src/tcp_stack/tcp.rs and src/tcp_stack/udp.rs).

 The client half issues, awaits and takes the buffer back with `cast_dyn_io_buf*`, or is cancelled.
 The driver half owns a clone of the buffer and the reply sender for as long as the event, or the
 waker closure built from it, exists. It lets go of them by a plan, the sequence of drops and sends
 that the source performs at that point; every act of the plan is a separate step, so that the client
 can run in between.
 */
module Operation {
  import opened Event

  datatype ErrorKind = NotFound | BrokenPipe | Other

  datatype Reply = Ok(n: nat) | OkFrom(n: nat, from: Addr) | OkUnit | Err(kind: ErrorKind)

  datatype OpKind = ReadOp | WriteOp | RecvOp | SendOp(to: Addr) | ShutdownOp

  /** The single things the owner of an event does when it lets go of it. */
  datatype Act =
    | DropBuffer               // its clone of the buffer goes
    | SendReply(reply: Reply)  // `result_tx.send`
    | DropSender               // the reply sender goes

  /** The driver half owns the operation, or lets go of it by a plan of which `done` acts are behind it. */
  datatype Stage = Held | LettingGo(plan: seq<Act>, done: nat)

  datatype Client =
    | Awaiting
    | Got(result: Option<Reply>)   // recv_async has returned; None: the sender was dropped unanswered
    | Done(result: Option<Reply>)  // the buffer has been taken back and the future is complete
    | Cancelled                    // the future was dropped
    | Panicked                     // the reference count was not 1 when the buffer was taken back

  /**
   `refused` says whether the UDP library call made for this operation will return an error; the
   library's ring buffers are not modelled, so any operation may be refused. `init` is the length
   last passed to `set_initiated_len`. `sends` counts the sends ever made on the reply channel, whose
   messages are in `mail`.
   */
  datatype Op = Op(
    kind: OpKind, target: TypedHandle, inc: nat, buf: seq<Byte>, init: nat, refused: bool,
    refs: nat, stage: Stage, mail: seq<Reply>, sends: nat, client: Client)
  {
    predicate HasBuffer() { !kind.ShutdownOp? }

    /** What is left to do of the plan. */
    function Left(): seq<Act> {
      if stage.LettingGo? && stage.done <= |stage.plan| then stage.plan[stage.done..] else []
    }

    /** The driver half still owns its clone of the buffer. */
    predicate DriverHolds() { stage.Held? || DropBuffer in Left() }

    /** The reply sender still exists. */
    predicate SenderLives() { stage.Held? || DropSender in Left() }

    /** What the driver decided to answer. */
    function Answer(): Option<Reply> { if stage.Held? then None else ReplyIn(stage.plan) }

    /** The client half still owns its clone of the buffer. */
    predicate ClientHolds() { client.Awaiting? || client.Got? }

    predicate Answered() { Answer().Some? && SendReply(Answer().value) !in Left() }
  }

  /** The first reply of a plan. */
  function ReplyIn(plan: seq<Act>): (r: Option<Reply>)
    ensures r.Some? ==> SendReply(r.value) in plan
    ensures r.None? ==> forall a :: a in plan ==> !a.SendReply?
  {
    if plan == [] then None
    else if plan[0].SendReply? then Some(plan[0].reply)
    else ReplyIn(plan[1..])
  }

  lemma ReplyInThree(r: Reply)
    ensures ReplyIn([DropBuffer, SendReply(r), DropSender]) == Some(r)
  {
    assert [DropBuffer, SendReply(r), DropSender][1..] == [SendReply(r), DropSender];
  }

  /** The event that carries an operation. */
  function EventFor(kind: OpKind, th: TypedHandle, o: OpId): (e: Event)
    ensures !e.IsToken() && e.op == o
  {
    match kind
    case ReadOp => Read(th.handle, o)
    case WriteOp => Write(th.handle, o)
    case RecvOp => Recv(th.handle, o)
    case SendOp(to) => Send(th.handle, to, o)
    case ShutdownOp => Shutdown(th, o)
  }

  /** TCP streams read, write and shut down; UDP sockets receive and send. */
  predicate KindFits(kind: OpKind, th: TypedHandle) {
    th.Tcp? <==> (kind.ReadOp? || kind.WriteOp? || kind.ShutdownOp?)
  }

  // ---- the client half ----

  /** The event was accepted by the channel: one clone of the buffer on each side. */
  function Issued(kind: OpKind, th: TypedHandle, inc: nat, buf: seq<Byte>, refused: bool): Op {
    Op(kind, th, inc, buf, 0, refused, if kind.ShutdownOp? then 0 else 2, Held, [], 0, Awaiting)
  }

  /** What dropping an event or a closure does: its fields go in order, the buffer before the sender. */
  function DropPlan(shutdown: bool): seq<Act> {
    if shutdown then [DropSender] else [DropBuffer, DropSender]
  }

  /**
   The channel gave the event back. The client now holds both clones of the buffer; it drops one, and
   the sender with the rest of the event, before it takes the other one back.
   */
  function IssueRefused(kind: OpKind, th: TypedHandle, inc: nat, buf: seq<Byte>, refused: bool): Op {
    Finish(Issued(kind, th, inc, buf, refused), DropPlan(kind.ShutdownOp?))
  }

  predicate CanReceive(op: Op) {
    op.client.Awaiting? && (op.mail != [] || !op.SenderLives())
  }

  function Receive(op: Op): Op
    requires CanReceive(op)
  {
    if op.mail != [] then op.(client := Got(Some(op.mail[0])), mail := op.mail[1..])
    else op.(client := Got(None))
  }

  /** `cast_dyn_io_buf*`: panics unless this is the only reference to the buffer. */
  function TakeBack(op: Op): Op
    requires op.client.Got?
  {
    if !op.HasBuffer() then op.(client := Done(op.client.result))
    else if op.refs != 1 then op.(client := Panicked)
    else op.(client := Done(op.client.result), refs := 0)
  }

  /** The future is dropped: its clone of the buffer and the reply receiver go with it. */
  function Cancel(op: Op): Op
    requires op.ClientHolds()
  {
    op.(client := Cancelled, mail := [], refs := if op.HasBuffer() && op.refs > 0 then op.refs - 1 else op.refs)
  }

  // ---- the driver half ----

  /** The owner of the event starts to let go of it. */
  function Finish(op: Op, plan: seq<Act>): Op {
    op.(stage := LettingGo(plan, 0))
  }

  predicate CanAct(op: Op) { op.Left() != [] }

  /** The next act of the plan. A message to a client that is gone is discarded. */
  function DoAct(op: Op): Op
    requires CanAct(op)
  {
    var next := op.(stage := op.stage.(done := op.stage.done + 1));
    match op.Left()[0]
    case DropBuffer => next.(refs := if op.refs > 0 then op.refs - 1 else 0)
    case SendReply(r) => next.(sends := op.sends + 1, mail := if op.client.Cancelled? then op.mail else op.mail + [r])
    case DropSender => next
  }

  predicate AboutToReply(op: Op) { op.Left() != [] && op.Left()[0].SendReply? }

  // ---- one step of either half ----

  datatype OpStep = ActStep | ReceiveStep | TakeBackStep | CancelStep

  predicate CanDo(op: Op, m: OpStep) {
    match m
    case ActStep => CanAct(op)
    case ReceiveStep => CanReceive(op)
    case TakeBackStep => op.client.Got?
    case CancelStep => op.ClientHolds()
  }

  function Do(op: Op, m: OpStep): (r: Op)
    requires CanDo(op, m)
    ensures r.kind == op.kind && r.target == op.target && r.inc == op.inc && r.buf == op.buf
    ensures r.stage.Held? == op.stage.Held? && r.Answer() == op.Answer() && (op.client.Done? ==> r.client.Done?)
  {
    match m
    case ActStep => DoAct(op)
    case ReceiveStep => Receive(op)
    case TakeBackStep => TakeBack(op)
    case CancelStep => Cancel(op)
  }

  // ---- plans ----

  /** The part of a plan that follows the drop of the buffer: at most one reply, then the sender goes. */
  predicate ReplyLast(acts: seq<Act>) {
    acts == [DropSender] || (|acts| == 2 && acts[0].SendReply? && acts[1] == DropSender)
  }

  /** The plan drops the buffer, if there is one, before it does anything the client can notice. */
  predicate BufferFirst(plan: seq<Act>, hasBuffer: bool) {
    if hasBuffer then plan != [] && plan[0] == DropBuffer && ReplyLast(plan[1..]) else ReplyLast(plan)
  }

  // ---- what every step keeps ----

  ghost predicate OpOk(op: Op) {
    && (op.stage.LettingGo? ==> BufferFirst(op.stage.plan, op.HasBuffer()) && op.stage.done <= |op.stage.plan|)
    && op.refs == (if !op.HasBuffer() then 0 else
                   (if op.ClientHolds() then 1 else 0) + (if op.DriverHolds() then 1 else 0))
    && op.sends == (if op.Answered() then 1 else 0)
    && (op.mail == [] || (op.Answered() && op.mail == [op.Answer().value]))
    && (op.client.Awaiting? && op.Answered() ==> op.mail != [])
    && (op.client.Got? || op.client.Done? ==> op.mail == [] && op.client.result == op.Answer()
                                              && (!op.SenderLives() || op.Answered()))
    && (op.client.Cancelled? ==> op.mail == [])
    && !op.client.Panicked?
    && KindFits(op.kind, op.target)
    && |op.buf| >= op.init
  }

  /** How far a plan that starts with the buffer can be. */
  lemma PlanProgress(op: Op)
    requires op.stage.LettingGo? && BufferFirst(op.stage.plan, op.HasBuffer()) && op.stage.done <= |op.stage.plan|
    ensures op.Left() == [] || ReplyLast(op.Left()) || (op.HasBuffer() && op.stage.done == 0)
    ensures op.HasBuffer() && op.stage.done == 0 ==> op.Left() != [] && op.Left()[0] == DropBuffer && ReplyLast(op.Left()[1..])
    ensures op.HasBuffer() && op.stage.done == 0 ==> op.SenderLives() && !op.Answered()
    ensures op.HasBuffer() && op.stage.done > 0 ==> DropBuffer !in op.Left()
    ensures !op.HasBuffer() ==> DropBuffer !in op.Left()
    ensures !op.SenderLives() ==> op.Left() == [] && (op.Answer().Some? ==> op.Answered())
    ensures op.Left() != [] && op.Left()[0].SendReply? ==> op.Answer() == Some(op.Left()[0].reply) && !op.Answered()
  {
    var plan := op.stage.plan;
    var tail := if op.HasBuffer() then plan[1..] else plan;
    ReplyOfPlan(plan, op.HasBuffer());
    hide ReplyIn;
    assert |tail| == 2 ==> tail == [tail[0], DropSender];
    assert op.HasBuffer() ==> plan == [DropBuffer] + tail;
    if op.stage.done == 0 {
      assert op.Left() == plan;
    } else {
      assert op.Left() == [] || op.Left() == [DropSender] || op.Left() == tail;
    }
  }

  lemma ReplyOfPlan(plan: seq<Act>, hasBuffer: bool)
    requires BufferFirst(plan, hasBuffer)
    ensures var tail := if hasBuffer then plan[1..] else plan;
            ReplyIn(plan) == if |tail| == 2 then Some(tail[0].reply) else None
  {
  }

  /** What one act of such a plan changes. */
  lemma ActEffect(op: Op)
    requires CanAct(op) && BufferFirst(op.stage.plan, op.HasBuffer()) && op.stage.done <= |op.stage.plan|
    ensures var next, act := DoAct(op), op.Left()[0];
            && next.stage == op.stage.(done := op.stage.done + 1) && next.stage.done <= |next.stage.plan|
            && next.Answer() == op.Answer()
            && (act.DropBuffer? <==> op.HasBuffer() && op.DriverHolds()) && !next.DriverHolds()
            && (act.SendReply? ==> op.Answer() == Some(act.reply) && !op.Answered())
            && next.Answered() == (op.Answered() || act.SendReply?)
            && (act.DropBuffer? ==> next.SenderLives() && !op.Answered())
            && (act.DropSender? ==> !next.SenderLives() && (op.Answer().Some? ==> op.Answered()))
            && op.SenderLives() && (!act.DropSender? ==> next.SenderLives())
  {
    hide BufferFirst, ReplyIn;
    PlanProgress(op);
    PlanProgress(DoAct(op));
    assert DoAct(op).Left() == op.Left()[1..];
    assert op.Left()[0].SendReply? ==> op.Left()[1..] == [DropSender];
    assert op.Left()[0].DropSender? ==> op.Left()[1..] == [];
  }

  lemma ActKeepsOk(op: Op)
    requires OpOk(op) && CanAct(op)
    ensures OpOk(DoAct(op))
  {
    ActEffect(op);
    hide BufferFirst, ReplyIn, Op.Answered, Op.Answer, Op.SenderLives, Op.DriverHolds;
  }

  lemma ClientKeepsOk(op: Op, m: OpStep)
    requires OpOk(op) && CanDo(op, m) && !m.ActStep?
    ensures OpOk(Do(op, m))
  {
    hide BufferFirst, ReplyIn;
    var next := Do(op, m);
    if op.stage.LettingGo? {
      PlanProgress(op);
    }
    assert next.stage == op.stage && next.Left() == op.Left() && next.Answer() == op.Answer();
    assert next.SenderLives() == op.SenderLives() && next.DriverHolds() == op.DriverHolds() && next.Answered() == op.Answered();
    hide BufferFirst, ReplyIn, Op.Answered, Op.Answer, Op.SenderLives, Op.DriverHolds, Op.Left;
  }

  lemma DoKeepsOk(op: Op, m: OpStep)
    requires OpOk(op) && CanDo(op, m)
    ensures OpOk(Do(op, m))
  {
    hide OpOk, DoAct, Receive, TakeBack, Cancel;
    if m.ActStep? {
      ActKeepsOk(op);
    } else {
      ClientKeepsOk(op, m);
    }
  }

  lemma FinishKeepsOk(op: Op, plan: seq<Act>)
    requires OpOk(op) && op.stage.Held? && BufferFirst(plan, op.HasBuffer())
    ensures OpOk(Finish(op, plan))
  {
    PlanProgress(Finish(op, plan));
  }

  lemma FillKeepsOk(op: Op, buf: seq<Byte>, init: nat)
    requires OpOk(op) && init <= |buf|
    ensures OpOk(op.(buf := buf, init := init))
  {
    var next := op.(buf := buf, init := init);
    assert next.Left() == op.Left() && next.Answer() == op.Answer();
    hide BufferFirst, ReplyIn;
  }

  // ---- what follows from the order ----

  /**
   When the client takes the buffer back it holds the only reference, and when the driver sends an
   answer the capacity-one channel is empty, so the send cannot block.
   */
  lemma SoleOwnerAtTakeBack(op: Op)
    requires OpOk(op)
    ensures op.client.Got? && op.HasBuffer() ==> op.refs == 1 && !op.DriverHolds()
    ensures AboutToReply(op) ==> op.mail == [] && op.sends == 0
  {
    if op.stage.LettingGo? {
      PlanProgress(op);
    }
  }

  /** The rest of the plan, run without interruption. */
  function RunPlan(op: Op): Op
    decreases |op.Left()|
  {
    if CanAct(op) then RunPlan(DoAct(op)) else op
  }

  lemma {:induction false} RunPlanOk(op: Op)
    requires OpOk(op) && op.stage.LettingGo?
    ensures var r := RunPlan(op);
            OpOk(r) && r.stage.LettingGo? && r.Left() == [] && r.client == op.client && r.Answer() == op.Answer() && r.buf == op.buf
    decreases |op.Left()|
  {
    hide OpOk;
    if CanAct(op) {
      ActKeepsOk(op);
      RunPlanOk(DoAct(op));
    }
  }

  /**
   An operation the driver lets go of completes: a waiting client receives exactly the answer, or
   learns that there is none, and gets its buffer back.
   */
  lemma LetGoCompletes(op: Op)
    requires OpOk(op) && op.stage.LettingGo? && op.client.Awaiting?
    ensures CanReceive(RunPlan(op))
    ensures TakeBack(Receive(RunPlan(op))).client == Done(op.Answer())
    ensures TakeBack(Receive(RunPlan(op))).buf == op.buf
  {
    RunPlanOk(op);
    var r := RunPlan(op);
    PlanProgress(r);
    ClientKeepsOk(r, ReceiveStep);
    SoleOwnerAtTakeBack(Receive(r));
  }

  // ---- why the order matters ----

  ghost predicate OpRun(op: Op, ms: seq<OpStep>)
    decreases |ms|
  {
    ms == [] || (CanDo(op, ms[0]) && OpRun(Do(op, ms[0]), ms[1..]))
  }

  function AfterOp(op: Op, ms: seq<OpStep>): Op
    requires OpRun(op, ms)
    decreases |ms|
  {
    if ms == [] then op else AfterOp(Do(op, ms[0]), ms[1..])
  }

  lemma {:induction false} OpRunKeepsOk(op: Op, ms: seq<OpStep>)
    requires OpOk(op) && OpRun(op, ms)
    ensures OpOk(AfterOp(op, ms))
    decreases |ms|
  {
    hide OpOk;
    if ms != [] {
      DoKeepsOk(op, ms[0]);
      OpRunKeepsOk(Do(op, ms[0]), ms[1..]);
    }
  }

  /** Any order in which the owner of a buffer and a sender can get rid of both, with at most one reply. */
  predicate Lawful(plan: seq<Act>) {
    && DropBuffer in plan && DropSender in plan
    && (|plan| == 2 || (|plan| == 3 && (plan[0].SendReply? || (plan[0] == DropBuffer && plan[1].SendReply?))))
  }

  /**
   The order decides: among the ways to let go of an operation with a buffer, exactly those that do
   not drop the buffer first let some interleaving make the client panic when it takes its buffer back.
   */
  lemma OrderDecides(kind: OpKind, th: TypedHandle, inc: nat, buf: seq<Byte>, refused: bool, plan: seq<Act>)
    requires !kind.ShutdownOp? && KindFits(kind, th) && Lawful(plan)
    ensures var op := Finish(Issued(kind, th, inc, buf, refused), plan);
            (exists ms :: OpRun(op, ms) && AfterOp(op, ms).client.Panicked?) <==> plan[0] != DropBuffer
  {
    var op := Finish(Issued(kind, th, inc, buf, refused), plan);
    if plan[0] == DropBuffer {
      assert BufferFirst(plan, true);
      FinishKeepsOk(Issued(kind, th, inc, buf, refused), plan);
      forall ms | OpRun(op, ms)
        ensures !AfterOp(op, ms).client.Panicked?
      {
        OpRunKeepsOk(op, ms);
      }
    } else {
      PanicRun(op);
    }
  }

  /** A reply, or the end of the sender, that the client sees while the driver still has the buffer. */
  lemma PanicRun(op: Op)
    requires op.stage.LettingGo? && op.stage.done == 0 && Lawful(op.stage.plan) && op.stage.plan[0] != DropBuffer
    requires op.HasBuffer() && op.refs == 2 && op.client.Awaiting? && op.mail == []
    ensures exists ms :: OpRun(op, ms) && AfterOp(op, ms).client.Panicked?
  {
    var ms := [ActStep, ReceiveStep, TakeBackStep];
    var op1 := Do(op, ActStep);
    assert op1.Left() == op.Left()[1..] && op1.refs == 2;
    assert op.Left()[0].DropSender? ==> !op1.SenderLives();
    var op2 := Do(op1, ReceiveStep);
    var op3 := Do(op2, TakeBackStep);
    assert ms[1..] == [ReceiveStep, TakeBackStep] && ms[1..][1..] == [TakeBackStep] && ms[1..][1..][1..] == [];
    assert OpRun(op3, []) && OpRun(op2, [TakeBackStep]) && OpRun(op1, [ReceiveStep, TakeBackStep]);
    assert OpRun(op, ms) && AfterOp(op, ms) == op3;
  }
}
