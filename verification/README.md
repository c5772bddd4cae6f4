# A verified model of l3_extract

l3_extract turns layer-3 packets into TCP streams and UDP sockets on top of the smoltcp library. It is
a small concurrent protocol. Clients (`TcpStream`, `UdpSocket`) post operation events, each carrying a
clone of a shared buffer and a one-shot reply sender, into a channel. One driver
(`TcpStack::drive_once`) takes batches of events out of it and answers each event, drops it, or parks it
in a waker closure inside a socket; a parked event re-enters the channel when its waker fires. Handles
of removed sockets are reused.

This project models that protocol in Dafny and proves what holds over whole runs of it: in every state
that any interleaving of driver, clients, acceptors and event generator can reach.

## How the model is organised

- `Event`, `Operation`, `Smoltcp`: events, one client operation with its buffer references and reply
  channel, and the library contract.
- `Stack`: every handler as a function of the stack's state. `TcpStack.dfy` holds the class `TcpStack`,
  whose methods update its fields in place and are proved to do what those functions say; its
  `DriveOnce` contains the loops over a batch.
- `World`: the state machine. Its steps are: a packet arrives, one effect of a poll, a batch is taken,
  one event is handled, one half of an operation advances by one step (the next act of the plan by which
  the driver lets go of it, receive, take the buffer back, be cancelled), accept, issue an operation,
  drop a client, an acceptor, the event generator or the stack. `Run` is a finite run of it. `Refinement`
  shows that a call of `DriveOnce` is a sequence of these steps.
- `Invariant`, `Handlers`, `Parked`, `Steps`: the invariant and why every step keeps it. `Places` reads
  the invariant in terms of the places an event can be in.
- `Theorems`, `Lifecycle`, `Births`, `Accepting`, `Shutdowns`, `Wakers`, `ByteHistory`, `StreamOps`,
  `Datagrams`: what holds in every run.
  `Orphans`, `Strays`, `Witness`: exactly when the properties that need a condition fail, with runs that
  show it.
- `Reorder`, `Locality`, `Overtaking`: the effect of handling a batch out of order.
- `Turns`, `IdealStream`, `ByteStream`: `read_exact` and `write_all` as loops over arbitrary schedules, and
  the simple reader and writer that they are shown to be.
- `NotifyChannel`, `WakeOnce`: the notify channel and the wake-once cell, each as a transition system of
  its own with an unbounded number of participants, and as a class.

## Results

Whatever the clients do (`FREE` runs):

- The registries mirror the socket table; no handler panics; a parked operation is really blocked.
- An incarnation of a socket has at most one life-cycle token (a `Ready` or `Close` event, an info on its
  way to an acceptor, or the client object itself), and is delivered to an acceptor at most once.
- Every operation the driver owes is in exactly one place; no reply channel gets two messages. Each handler
  arm, closure and drop is modelled with the sequence of drops and sends it performs; every such plan drops
  the buffer first, and therefore the reference count is 1 whenever a buffer is taken back. Any other order
  would let some interleaving panic. Only the handling of an operation writes to its buffer, and its client
  is then waiting or gone.
- Bytes are neither lost, repeated nor reordered between the peer, the queues and the reads and writes, and
  neither are datagrams; a receive names the sender of its datagram, a send goes where the client said.
- A stream is announced to the acceptor exactly when its Ready finds a socket that may receive, with the two
  ends of the connection at that moment, and every live client came about that way.
- A packet ends the run exactly when its destination has no port, or a new UDP socket cannot be announced;
  a further datagram for a known address changes nothing.
- What a poll, a Close or a Shutdown wakes, replaces or drops is determined: woken operations are queued
  again in order, or fail if the channel is closed; replaced and dropped ones get no answer.
- Closing does not spin and completes. A shutdown always meets the socket it was issued for, and is answered
  in the same call exactly when the transmit half is open.

Under the client discipline (`STRICT` runs: every operation future is awaited to the end before its
stream or socket is dropped):

- Every event is applied to the incarnation it was issued for, although handles are reused.
- While nothing is torn down every socket has its token, so it can still be accepted or closed.

Four things one might expect are false of the code; each has its exact condition here.

- Without the discipline a socket can lose its token and is then never removed. This happens exactly when
  a cancelled Read is parked over the waiting Close (`Orphans.TokenLostExactly`); no other operation is
  ever parked over a token (`Orphans.DisplacesIsStale`).
- Without the discipline a cancelled operation can be applied to another socket. An operation that is still
  owed loses its own socket exactly when a Close removes the socket while the operation is later in the
  batch, in the channel, or parked on a UDP socket that sends it again (`Strays.StrandedExactly`), and it
  meets another socket only after that and a later packet that gets the same handle
  (`Strays.MisappliedOnlyAfter`).
- Handling control events first is not always the same as handling a batch in order. A handle sees its
  events in order if and only if none of its control events follows one of its data events in the batch
  (`Reorder.PhasedKeepsOrder`), and then the outcome for it is the same (`Locality.ReorderHarmless`).
  Otherwise a Shutdown overtakes: a Write that would be served in order fails
  (`Overtaking.ShutdownOvertakesWrite`).
- `generate` can lose events: it returns `Disconnected` exactly when it has taken events out of the channel
  and then finds it empty with no sender left (`NotifyChannels.DisconnectedDropsItems`).

Comments in src/tcp_stack/tcp.rs:78-80 name two reasons for a reply sender to go away unanswered. The code
has a third, which the model follows: its closure is replaced in a slot or removed with the socket.
The clients still get their buffers back (`Operation.LetGoCompletes`).

## Assumptions

- The library contract is module `Smoltcp`: `add` returns any free handle; `remove` drops both closures
  without running them; registering a waker drops the one it replaces; a state change fires both slots,
  arriving data the receive slot, freed space the send slot; `recv_slice` and `send_slice` move as much as
  fits; `close` changes the state exactly when the transmit half is open (section 3.6 of RFC 9293). `poll`
  may otherwise change the TCP state of a socket at will, except that it never leaves CLOSED. A socket that
  may receive knows both endpoints.
- A UDP library call made for an operation may fail or not; the operation carries this as `refused`.
- An event or closure that is dropped drops the buffer before the sender (`Operation.DropPlan`): the fields
  of src/tcp_stack/event.rs:41-68 are declared in that order, and captures are taken to go in the same order.
- Batches reach `drive_once` in the order in which they were generated, so the channel and the batches in
  transit are one FIFO queue; `NotifyChannels.BatchesAreFifo` is what makes them one.
- A run ends at the first error of `drive_once`.
- Panics are explicit: `panicked` records a `get_mut` on a missing or mistyped socket, a failed `expect` or
  an `unreachable!` arm, and `Panicked` a failed `expect` in `cast_dyn_io_buf*`.
- Incarnation numbers, `born` and `served` are instrumentation. No handler branches on them.
- The discipline is `World.Obeys`.

## Model

| member | source | states |
|---|---|---|
| Event.PhasedCount | src/tcp_stack/mod.rs:323-371 | The three phases together handle every event of a batch exactly as often as it occurs in it |
| Operation.DoKeepsOk | src/tcp_stack/tcp.rs:47-99 | Every step of either half of an operation keeps its accounting: a plan that drops the buffer first, references equal to the halves that hold the buffer, at most one answer, and a client result equal to the answer |
| Operation.SoleOwnerAtTakeBack | src/tcp_stack/mod.rs:1042-1056 | Because plans drop the buffer first, a client about to cast its buffer back holds the only reference; a driver about to answer finds the capacity-one channel empty |
| Operation.OrderDecides | src/tcp_stack/mod.rs:1042-1056 | Of all ways to get rid of a buffer and a sender with at most one reply, exactly those that do not drop the buffer first let some interleaving reach the panic in the cast |
| Operation.LetGoCompletes | src/tcp_stack/tcp.rs:76-98 | An operation the driver lets go of, answered or not, completes: the waiting client gets exactly that answer, or learns there is none, and its buffer |
| Handlers.KeepDispatch | src/tcp_stack/mod.rs:381-831 | Handling any event keeps the system invariant (linearity of tokens and operations, mirrored tables, well-shaped slots, no panic); a token is lost only if an operation is parked over it |
| Handlers.KeepPoll | src/tcp_stack/mod.rs:318-319 | Every effect of a poll, with the wakers it runs, keeps the system invariant |
| Handlers.KeepInitTcp | src/tcp_stack/mod.rs:847-860 | Creating a TCP socket on any free handle keeps the invariant, with exactly one new token |
| Handlers.KeepTryInitUdp | src/tcp_stack/mod.rs:863-882 | Creating a UDP socket keeps the invariant on each of its four outcomes |
| Parked.DispatchKeepsBlocked | src/tcp_stack/mod.rs:381-831 | After any handler every parked closure is still blocked on its condition |
| Parked.PollKeepsBlocked | src/tcp_stack/mod.rs:318-319 | A poll fires every closure whose condition it may have changed |
| Steps.StepKeeps | src/tcp_stack/mod.rs:283-379 | Every step of the whole system keeps the invariant, in every mode |
| Steps.RunKeeps | src/tcp_stack/mod.rs:283-379 | The invariant holds in every state of every run |
| Places.OnePlace | src/tcp_stack/mod.rs:415-508 | No token and no operation is in two places |
| Places.SomePlace | src/tcp_stack/mod.rs:415-508 | Whatever is counted by the invariant is in some place |
| Theorems.TablesAgree | src/tcp_stack/mod.rs:834-882 | `socket_handles` is exactly the typed handles of the socket set, no index is both TCP and UDP, and `accepted_udp_sockets` is exactly the endpoints of the UDP sockets, one each |
| Theorems.AtMostOneToken | src/tcp_stack/mod.rs:415-508 | In every run an incarnation has at most one token, and while it has one its socket is in the table under the handle the token names |
| Theorems.ExactlyOneToken | src/tcp_stack/mod.rs:847-882 | Under the discipline, or as long as nothing is parked over a token, every socket has exactly one token while acceptors, generator and stack are alive |
| Theorems.Conservation | src/tcp_stack/mod.rs:518-831 | An operation the driver owes is in exactly one place; one that is answered or dropped is in none |
| Theorems.RepliesOnce | src/tcp_stack/tcp.rs:49-54 | No reply channel is sent to twice or found full, and a completed client has exactly the answer the driver decided on |
| Theorems.ReleaseFirst | src/tcp_stack/mod.rs:525-823 | In every run, whatever handler arm, closure, drop or failed send let go of an operation, its sequence of drops and sends starts with the buffer |
| Theorems.BufferOwnership | src/tcp_stack/mod.rs:1042-1056 | Over all interleavings the reference count is 1 at every cast, and the driver handles an operation only while its client waits or is gone |
| Theorems.IncarnationSafety | src/tcp_stack/mod.rs:518-608 | Under the discipline every queued, parked or handled operation names a socket in the table, of the right type, of the incarnation it was issued on |
| Theorems.NoPanic | src/tcp_stack/mod.rs:389-400 | No handler panics in any run |
| Theorems.ParkedMeansBlocked | src/tcp_stack/mod.rs:538-639 | In every reachable state a parked Read means an empty queue that may still receive, a parked Write a full buffer that may still send, a parked Close an active socket, a parked Ready a socket that may not receive yet, and so on for every kind |
| Theorems.AcceptSound | src/tcp_stack/tcp.rs:271-282 | A client's peer is the address recorded for its incarnation, and live UDP sockets have distinct peers |
| Accepting.ReadyOfTcp | src/tcp_stack/mod.rs:464-492 | A handled Ready of a TCP socket finds its socket; it waits in the receive slot if the socket may not receive yet, and otherwise announces it with both ends of the connection while the acceptor lives, and changes nothing else |
| Accepting.ReadyOfUdp | src/tcp_stack/mod.rs:494-506 | A handled Ready of a UDP socket finds its socket and announces its bound address while the acceptor lives, and changes nothing else |
| Accepting.DeliveredExactly | src/tcp_stack/mod.rs:462-508 | In every run a handled event puts something into an acceptor channel if and only if it is a Ready of a UDP socket or of a TCP socket that may receive, and it is that socket's announcement |
| Accepting.InfoOrigin | src/tcp_stack/mod.rs:487-505 | Every info in an acceptor channel announces a socket as it was when its Ready was handled |
| Accepting.ClientOrigin | src/tcp_stack/tcp.rs:271-282 | Every live client carries the two addresses its socket had when its Ready was handled, and a stream's socket may receive then |
| Births.SynAdmitted | src/tcp_stack/mod.rs:847-860 | A SYN ends the run, and changes nothing, exactly when its destination has no port; otherwise a new socket listens on the destination with its Ready in the send slot |
| Births.DatagramAdmitted | src/tcp_stack/mod.rs:863-882 | A datagram for an address a socket is bound to changes nothing and the run goes on; any other ends it exactly when its destination has no port or the channel is closed; with a port a new socket is bound to the destination and its Ready queued if the channel is open |
| Births.BornByPacket | src/tcp_stack/mod.rs:288-307 | A step creates an incarnation only for a SYN or datagram, and records that packet's destination |
| Births.BornOfPacket | src/tcp_stack/mod.rs:288-307 | Every incarnation of every run was created by one earlier packet with the recorded destination |
| Births.PeerIsDestination | src/tcp_stack/tcp.rs:271-282 | The peer of every live client is the destination of the packet that created its socket |
| Frames.FrameDispatch | src/tcp_stack/mod.rs:381-831 | A handler appends to the channel only what was parked on the socket of the event, and writes to no buffer but that of the event's operation |
| Frames.FramePoll | src/tcp_stack/mod.rs:318-319 | A poll appends only what was parked on the socket it touches and writes to no client buffer |
| Lifecycle.OnlyHandlerWrites | src/shared_buf.rs:51-63 | No step but the handling of an operation changes its shared buffer |
| Lifecycle.WritesAreExclusive | src/shared_buf.rs:31-40 | Whenever a shared buffer changes, its client is waiting or has given up, so the two sides never overlap |
| Lifecycle.AcceptedOnce | src/tcp_stack/tcp.rs:271-282 | An incarnation is delivered to an acceptor at most once in a run |
| Lifecycle.HandledCloseIsGone | src/tcp_stack/mod.rs:415-438 | Handling a Close never sends that Close again by itself |
| Lifecycle.PendingOrigin | src/tcp_stack/tcp.rs:250-256 | A Close gets into the channel only when its client is dropped or when a waiting Close leaves its slot |
| Lifecycle.CloseDoesNotSpin | src/tcp_stack/mod.rs:415-438 | The Closes handled for an incarnation number at most one plus the times a waiting Close left its slot |
| Lifecycle.CloseCompletes | src/tcp_stack/mod.rs:415-459 | A handled Close finds its own socket and removes it from both tables exactly when it is UDP or left inactive; otherwise the Close waits in the receive slot of the socket, whose state is the closed one and nothing else of it changed |
| Wakers.PollWakes | src/tcp_stack/mod.rs:318-319 | One effect of a poll empties exactly the slots it wakes; their events are queued in order if the channel is open, a woken shutdown is answered Ok, and other woken operations fail if the channel is closed |
| Wakers.CloseWakes | src/tcp_stack/mod.rs:418-453 | A handled Close runs both parked closures if it changes the state or the socket is UDP; otherwise it sends nothing, and the closures it replaces or removes let their operations down unanswered |
| Wakers.ShutdownWakes | src/tcp_stack/mod.rs:387-396 | A handled Shutdown lets the operation it replaces in the send slot down, and runs the closure in the receive slot exactly when the transmit half was open |
| Wakers.ParkingReplaces | src/tcp_stack/mod.rs:546-568 | A handled data event sends nothing, and lets another operation down only by taking its slot |
| Births.SocketsStay | src/tcp_stack/mod.rs:834-844 | No step takes a socket out of the table or changes what it is, except a Close that removes it |
| Shutdowns.ShutdownOnOwnSocket | src/tcp_stack/mod.rs:387-411 | In every run, with no discipline, a Shutdown is handled while the accepted TCP socket it was issued for is in the table, so the unknown-handle arm is never taken |
| Shutdowns.ShutdownAnswered | src/tcp_stack/mod.rs:382-412 | A Shutdown closes the transmit half and is answered Ok by the call that handles it exactly when that half was open; a Write it displaces is let go of without an answer |
| Orphans.DisplacesIsStale | src/tcp_stack/mod.rs:611-639 | In every run the only operation ever parked over a token is a Read over a waiting Close, with nothing to read and a receiving socket |
| Orphans.TokenLostExactly | src/tcp_stack/mod.rs:415-438 | As the next event of a run that has lost no token, an event makes a socket lose its token if and only if it is such a Read |
| Orphans.OrphanForever | src/tcp_stack/mod.rs:834-844 | A socket without a token is never removed and never gets one, in any continuation of any run |
| Strays.StrandedExactly | src/tcp_stack/mod.rs:415-459 | In any run the next event makes an operation that is still owed lose its own socket if and only if it is a Close that removes the socket while an operation of it is later in the batch, in the channel, or parked on a UDP socket and sent again |
| Strays.StrayByClose | src/tcp_stack/mod.rs:834-844 | An operation without its socket lost it by such a Close, and by no other step |
| Strays.MisappliedOnlyAfter | src/tcp_stack/mod.rs:847-882 | An operation is about to be applied to another incarnation only after such a Close and a later packet that got the same handle |
| Strays.GoneSocketAnswered | src/tcp_stack/mod.rs:525-535 | A data event whose handle has no socket of its kind is answered that it is not found, with its buffer and all sockets unchanged |
| Witness.DisciplineNeededForTokens | src/tcp_stack/mod.rs:421-437 | A run in which a cancelled Read replaces the Close waker and the connection is left without a token |
| Witness.DisciplineNeededForIncarnations | src/tcp_stack/mod.rs:756-799 | A run in which a cancelled Recv is about to be applied to another socket with the same handle |
| Witness.ReorderMatters | src/tcp_stack/mod.rs:323-371 | A run in which a Write fails only because a later Shutdown of the same batch was handled first |
| Reorder.PhasedKeepsOrder | src/tcp_stack/mod.rs:323-371 | A handle sees its events in the order sent if and only if no control event of it follows a data event of it in the batch |
| Locality.DispatchOf | src/tcp_stack/mod.rs:381-831 | Handling an event commutes with restricting the stack to one handle; events of other handles do nothing to the restriction |
| Locality.BatchOf | src/tcp_stack/mod.rs:511-515 | What a batch does to one handle depends only on the events of that handle and their order |
| Locality.ReorderHarmless | src/tcp_stack/mod.rs:323-371 | Under that condition, in every run, the phased batch leaves a handle with the same socket, slots, operations, buffers, answers, queued events and infos as the batch handled in order |
| Locality.ReorderHarmlessForAll | src/tcp_stack/mod.rs:323-371 | If the condition holds of every handle, both orders give the same socket table, registries and operations altogether |
| Overtaking.ShutdownOvertakesWrite | src/tcp_stack/mod.rs:323-371 | In any run, a non-empty Write that comes first for an open stream with room and is followed by a Shutdown of it in the same batch is served in the order sent and fails in the order handled |
| Overtaking.FailsAfter | src/tcp_stack/mod.rs:537-545 | In any batch a Write handled after a Shutdown of its stream is answered with an error |
| Turns.HandlersTakeTurns | src/tcp_stack/mod.rs:381-831 | Whatever event is handled, at most the socket it is for is touched: it is removed, left alone, or changed by the one turn of that event; a UDP socket gives up its first datagram to a Recv or takes the buffer and address of a Send |
| ByteHistory.BytesInOrder | src/tcp_stack/mod.rs:537-668 | In every run and for every incarnation, bytes given to reads are a prefix of bytes delivered, bytes gone are a prefix of bytes accepted from writes, and the queues hold exactly the rest unless a reset cleared them |
| ByteHistory.HandledOnOwnSocket | src/tcp_stack/mod.rs:518-608 | Under the discipline a data event is handled on the socket it was issued for |
| ByteHistory.ReadGetsNextBytes | src/tcp_stack/mod.rs:592-668 | A handled Read is parked with nothing to read, or its buffer gets exactly the next bytes of the peer's stream and the answer and the initiated length say how many; zero only for an empty buffer or at the end of the stream |
| ByteHistory.WriteAppendsItsBytes | src/tcp_stack/mod.rs:520-590 | A handled Write is parked on a full queue, refused on a closed transmit half, or appends exactly the answered number of bytes, at least one if it has any |
| StreamOps.ReadsFollowTheStream | src/tcp_stack/tcp.rs:105-130 | In any run and between any two points of it, the answered prefixes of the buffers of a stream's Reads, put together, are exactly the next bytes of the peer's stream |
| StreamOps.WritesFollowTheStream | src/tcp_stack/tcp.rs:193-218 | In any run and between any two points of it, what was handed in on a stream is exactly the answered prefixes of the buffers of its Writes, put together, and leaves in that order |
| Datagrams.DatagramsInOrder | src/tcp_stack/mod.rs:687-831 | In every run and for every incarnation, datagrams taken by receives are a prefix of those that arrived, those that left are a prefix of those handed in, and the queues hold exactly the rest |
| Datagrams.RecvGetsNextDatagram | src/tcp_stack/mod.rs:756-823 | A handled Recv is parked with nothing to take, or takes the next datagram that arrived: refused with the buffer unchanged, or answered with its sender and the number of its bytes that fit, which are in front of an otherwise unchanged buffer |
| Datagrams.SendPostsItsDatagram | src/tcp_stack/mod.rs:689-754 | A handled Send is parked on a full socket, refused with nothing handed in, or answered with the length of its buffer, and exactly that buffer is handed in for the address the client named |
| Datagrams.SendsFollowTheOrder | src/tcp_stack/udp.rs:98-154 | In any run and between any two points of it, what was handed in on a UDP socket is exactly the buffers and addresses of the answered Sends, in order, and leaves in that order |
| Refinement.DriveOnceIsRun | src/tcp_stack/mod.rs:283-379 | A call of `drive_once` with the next batch leads from a reachable state to a reachable state, so the theorems above hold of what `DriveOnce` computes |
| TcpStacks.TcpStack.SplitBatch | src/tcp_stack/mod.rs:324-358 | Control events of the batch are handled in order on the spot, TCP and UDP data events are set aside in order |
| TcpStacks.TcpStack.HandleTcpWakeEvents | src/tcp_stack/mod.rs:511-515 | The loop over the TCP events equals handling them one after another |
| TcpStacks.TcpStack.HandleUdpWakeEvents | src/tcp_stack/mod.rs:680-684 | The loop over the UDP events equals handling them one after another |
| TcpStacks.TcpStack.PollInterface | src/tcp_stack/mod.rs:318-319 | The loop over the effects of one poll, with the wakers each runs |
| TcpStacks.TcpStack.DriveOnce | src/tcp_stack/mod.rs:283-379 | Goes on exactly if there is no packet to admit, the datagram is for a known address, or its port is not 0 and, for a datagram, the channel is open; looks at the packet, polls, and ends where handling the phased batch event by event ends. The methods it calls, one per handler and socket operation, update the fields in place and end where the functions of `Stack` that the theorems are about end |
| IdealStream.IdealReadEnds | src/tcp_stack/tcp.rs:105-130 | The reader that goes through the turns one by one is full exactly with all its bytes, fails only by a turn that fails it, ends early only when nothing is left and nothing can come, and is pending only when no turn fails it and after a turn that handles it nothing is left to read |
| IdealStream.IdealWriteEnds | src/tcp_stack/tcp.rs:193-218 | The same for the writer, which besides fails when the transmit half is closed |
| ByteStream.TcpStream.Read | src/tcp_stack/tcp.rs:47-99 | Under any schedule it is answered by the first turn that fails it or handles it when it need not wait, and by no other: with that turn's error, or with the next bytes of the stream, as many as there are and fit, the rest of the buffer unchanged; zero for a non-empty buffer only at the end of the stream; unanswered exactly if there is no such turn, and parked only if blocked |
| ByteStream.TcpStream.ReadExact | src/tcp_stack/tcp.rs:105-130 | Ends as the ideal reader does, with the same bytes and the same socket; Ok exactly when the whole buffer holds the next bytes of the peer's stream, with no gap or repeat; UnexpectedEof only with an empty queue that can receive no more; on any end the bytes taken are those in the buffer |
| ByteStream.TcpStream.Write | src/tcp_stack/tcp.rs:134-186 | Answered by the first turn that fails it or handles it when it need not wait, and by no other; Ok(n) means exactly the first n bytes were appended, as many as there was room for, at least one if there are any; an error appends nothing |
| ByteStream.TcpStream.WriteAll | src/tcp_stack/tcp.rs:193-218 | Ends as the ideal writer does; Ok exactly when the whole buffer was appended; an error leaves exactly a prefix appended; WriteZero never happens |
| NotifyChannels.BatchesAreFifo | src/notify_channel.rs:53-66 | While a sender and the receiver live, the batches returned, the items being collected and the queue, concatenated, equal the events sent; no batch is empty |
| NotifyChannels.OnlyTheEndIsLost | src/notify_channel.rs:53-66 | Always, what is lost is a contiguous last part, and only after `Disconnected` or after the receiver is dropped |
| NotifyChannels.NoLostWakeup | src/notify_channel.rs:37-51 | A receiver asleep on an un-notified listener with a non-empty queue means some sender is between push and notify; otherwise a non-empty queue means it can run |
| NotifyChannels.WaitReturns | src/notify_channel.rs:37-51 | A receiver that can run stays able to, whatever the senders do, and leaves `wait` within two steps of its own with a non-empty queue |
| NotifyChannels.DisconnectedDropsItems | src/notify_channel.rs:60 | `Disconnected` is returned exactly when the queue is empty and no sender is left, and then items already collected are dropped |
| NotifyChannels.SenderMustLive | src/notify_channel.rs:60 | A run in which the only event sent is never returned |
| NotifyChannels.NotifyChannel.Send | src/notify_channel.rs:22-27 | The value is queued and any listener notified, or comes back if the receiver is gone |
| NotifyChannels.NotifyChannel.Wait | src/notify_channel.rs:37-51 | Under any schedule of sender steps the loop is a run of the transition system; it returns with a non-empty queue, and sleeps only on an empty one or inside a sender's window |
| NotifyChannels.NotifyChannel.CollectNonblock | src/notify_channel.rs:53-66 | A batch is what was queued followed by what was pushed meanwhile, and the queue is left empty; exactly when no sender is left it is `Disconnected` and those items are lost; after `wait` there is at least one |
| NotifyChannels.NotifyChannel.Generate | src/tcp_stack/event.rs:23-28 | A batch is never empty and, while a sender lives, all batches with the queue equal what was sent |
| WakeOnce.AtMostOnce | src/wake_fn.rs:22-28 | For any number of clones and concurrent wakes the closure runs at most once and is never both moved out and dropped |
| WakeOnce.ExactlyOnce | src/wake_fn.rs:61-69 | Once the cell is freed the closure was moved out and run exactly once if any wake reached the flag, and dropped exactly once otherwise |
| WakeOnce.ExclusiveAccess | src/wake_fn.rs:43-56 | Whoever reads or drops the value is alone with it and the memory is still there |
| WakeOnce.NeverStuck | src/wake_fn.rs:61-69 | Until the cell is freed some thread can make a step towards it |
| WakeOnce.AtomicOption.Take | src/wake_fn.rs:44-56 | The first call gets the value, every later one nothing |
| WakeOnce.AtomicOption.Drop | src/wake_fn.rs:61-69 | Afterwards the value was moved out or dropped, exactly one of the two |

## Left out

- smoltcp itself (segments, retransmission, checksums, `poll_delay`): only the contract in `Smoltcp` is used, with `poll` as arbitrary effects.
- The ring buffers behind UDP sockets: whether a library call on one is refused is arbitrary; only the number of buffered packets is modelled.
- `parse_packet`: a packet is a SYN or a datagram with a destination, or neither.
- `TcpStackBuilder`, `TcpStack::new` and the interface set-up: configuration without state of interest.
- src/virtual_interface.rs and examples/: plain queues and glue code.
- Tracing, error texts, `Debug` implementations, time values, and memory orderings weaker than sequential consistency.
- The futures of src/tcp_stack/tcp.rs and src/tcp_stack/udp.rs are steps of the state machine (issue, receive, take back, cancel), not methods, except for the read and write loops of a stream.
- Wake-up of the receiver when all senders are gone: the code does not promise it.
- The events of a batch passed to a `drive_once` that returns an error: the run is over and their drop is not followed.
- Length bookkeeping of sub-slices in the compio buffer library: `set_initiated_len` is recorded per operation only.
- ByteStream.TcpStream.Read: for the only reader of a stream, under a schedule of turns; runs of the whole system are covered by StreamOps.ReadsFollowTheStream.
- ByteStream.TcpStream.ReadExact: for the only reader of a stream; bytes taken by a cancelled earlier read are not recovered, by the code either.
- ByteStream.TcpStream.Write: for the only writer of a stream, under a schedule of turns; runs of the whole system are covered by StreamOps.WritesFollowTheStream.
- ByteStream.TcpStream.WriteAll: for the only writer of a stream.
- The acts by which the driver lets go of an operation are interleaved with all other steps, which allows more interleavings than one driver thread has.
