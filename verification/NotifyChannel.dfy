/**
 The notify channel (src/notify_channel.rs) and the event generator on top of it
 (src/tcp_stack/event.rs): an unbounded queue with any number of senders and one receiver, and an
 event the receiver sleeps on. A sender first pushes and then notifies, as two separate steps. The
 receiver checks, listens, checks again, sleeps, and once it has seen an item drains the queue.
 Steps of different threads interleave freely.

 Taken from the two libraries underneath: the queue is linearizable; a notification reaches a
 listener that exists already and is forgotten when there is none; the sleeper goes on only when
 its listener has been notified.
 */
module NotifyChannels {
  // ---- the transition system ----

  /** A sender between two calls of `send`, or between the push and the notification. */
  datatype SenderPc = Idle | Pushed

  /** The listener of the receiver, if there is one. */
  datatype Listener = NoListener | Silent | Notified

  datatype ReceiverPc<T> =
    | Outside                    // not in `generate`
    | FirstCheck                 // at the head of the loop of `wait`
    | Listen                     // about to create the listener
    | SecondCheck                // has a listener, about to check again
    | Asleep                     // awaiting the listener
    | Collecting(items: seq<T>)  // draining in `collect_nonblock`
    | Gone                       // dropped
  {
    predicate InWait() { FirstCheck? || Listen? || SecondCheck? || Asleep? }
  }

  /**
   `sent`, `batches` and `lost` are history: what was pushed, what `generate` returned, what went
   away unreturned.
   `failed` is set when `generate` has returned `Disconnected`.
   */
  datatype Channel<T> = Channel(
    queue: seq<T>, senders: map<nat, SenderPc>, pc: ReceiverPc<T>, listener: Listener,
    sent: seq<T>, batches: seq<seq<T>>, lost: seq<T>, failed: bool)

  datatype Label<T> =
    | Push(t: nat, v: T) | Notify(t: nat) | Clone(t: nat, to: nat) | DropSender(t: nat)  // senders
    | Begin | Receive | Cancel | DropReceiver                                         // the receiver
  {
    predicate OfSender() { Push? || Notify? || Clone? || DropSender? }
  }

  function Start<T>(): Channel<T> {
    Channel([], map[0 := Idle], Outside, NoListener, [], [], [], false)
  }

  /** A future can only be dropped where it is suspended, which is while it sleeps. */
  predicate Enabled<T>(c: Channel<T>, l: Label<T>) {
    match l
    case Push(t, _) => t in c.senders && c.senders[t].Idle?
    case Notify(t) => t in c.senders && c.senders[t].Pushed?
    case Clone(t, to) => t in c.senders && to !in c.senders
    case DropSender(t) => t in c.senders && c.senders[t].Idle?
    case Begin => c.pc.Outside?
    case Receive => CanReceive(c)
    case Cancel => c.pc.Asleep?
    case DropReceiver => c.pc.Outside?
  }

  /** The receiver can take a step of its own. */
  predicate CanReceive<T>(c: Channel<T>) {
    if c.pc.Asleep? then c.listener.Notified? else c.pc.InWait() || c.pc.Collecting?
  }

  function Next<T>(c: Channel<T>, l: Label<T>): Channel<T>
    requires Enabled(c, l)
  {
    match l
    case Push(t, v) =>
      if c.pc.Gone? then c
      else c.(queue := c.queue + [v], senders := c.senders[t := Pushed], sent := c.sent + [v])
    case Notify(t) =>
      c.(senders := c.senders[t := Idle], listener := if !c.listener.NoListener? then Notified else NoListener)
    case Clone(_, to) => c.(senders := c.senders[to := Idle])
    case DropSender(t) => c.(senders := c.senders - {t})
    case Begin => c.(pc := FirstCheck)
    case Receive => ReceiverStep(c)
    case Cancel => c.(pc := Outside, listener := NoListener)
    case DropReceiver => c.(pc := Gone, lost := c.lost + c.queue, queue := [])
  }

  function ReceiverStep<T>(c: Channel<T>): Channel<T>
    requires CanReceive(c)
  {
    match c.pc
    case FirstCheck => c.(pc := if |c.queue| > 0 then Collecting([]) else Listen)
    case Listen => c.(pc := SecondCheck, listener := Silent)
    case SecondCheck => if |c.queue| > 0 then c.(pc := Collecting([]), listener := NoListener) else c.(pc := Asleep)
    case Asleep => c.(pc := FirstCheck, listener := NoListener)
    case Collecting(items) =>
      if |c.queue| > 0 then c.(pc := Collecting(items + [c.queue[0]]), queue := c.queue[1..])
      else if c.senders == map[] then c.(pc := Outside, lost := c.lost + items, failed := true)
      else c.(pc := Outside, batches := c.batches + [items])
  }

  ghost predicate Run<T>(c: Channel<T>, ls: seq<Label<T>>)
    decreases |ls|
  {
    ls == [] || (Enabled(c, ls[0]) && Run(Next(c, ls[0]), ls[1..]))
  }

  ghost function After<T>(c: Channel<T>, ls: seq<Label<T>>): Channel<T>
    requires Run(c, ls)
    decreases |ls|
  {
    if ls == [] then c else After(Next(c, ls[0]), ls[1..])
  }

  ghost predicate Reaches<T(!new)>(c: Channel<T>, d: Channel<T>) {
    exists ls :: Run(c, ls) && After(c, ls) == d
  }

  lemma {:induction false} RunConcat<T>(c: Channel<T>, a: seq<Label<T>>, b: seq<Label<T>>)
    requires Run(c, a) && Run(After(c, a), b)
    ensures Run(c, a + b) && After(c, a + b) == After(After(c, a), b)
    decreases |a|
  {
    if a == [] {
      assert a + b == b;
    } else {
      RunConcat(Next(c, a[0]), a[1..], b);
      assert (a + b)[1..] == a[1..] + b;
    }
  }

  lemma ReachesTrans<T(!new)>(c: Channel<T>, d: Channel<T>, e: Channel<T>)
    requires Reaches(c, d) && Reaches(d, e)
    ensures Reaches(c, e)
  {
    var a :| Run(c, a) && After(c, a) == d;
    var b :| Run(d, b) && After(d, b) == e;
    RunConcat(c, a, b);
  }

  lemma ReachesSelf<T(!new)>(c: Channel<T>)
    ensures Reaches(c, c)
  {
    assert Run(c, []) && After(c, []) == c;
  }

  lemma ReachesStep<T(!new)>(c: Channel<T>, d: Channel<T>, l: Label<T>)
    requires Reaches(c, d) && Enabled(d, l)
    ensures Reaches(c, Next(d, l))
  {
    assert [l][1..] == [];
    assert Run(Next(d, l), []) && Run(d, [l]) && After(d, [l]) == Next(d, l);
    ReachesTrans(c, d, Next(d, l));
  }

  // ---- the invariant ----

  function Flat<T>(batches: seq<seq<T>>): seq<T> {
    if batches == [] then [] else Flat(batches[..|batches| - 1]) + batches[|batches| - 1]
  }

  function Items<T>(pc: ReceiverPc<T>): seq<T> {
    if pc.Collecting? then pc.items else []
  }

  /** Some sender has pushed and not notified yet. */
  ghost predicate InWindow<T>(c: Channel<T>) {
    exists t :: t in c.senders && c.senders[t].Pushed?
  }

  /** Everything sent is somewhere, in order. */
  ghost predicate Conserved<T>(c: Channel<T>) {
    c.sent == Flat(c.batches) + c.lost + Items(c.pc) + c.queue
  }

  ghost predicate Proper<T>(c: Channel<T>) {
    && (c.lost != [] ==> c.failed || c.pc.Gone?)
    && (c.failed ==> c.lost != [] && c.senders == map[] && c.queue == [])
    && (c.pc.Gone? ==> c.queue == [])
    && (c.pc.Collecting? ==> c.pc.items != [] || c.queue != [])
    && (c.failed ==> !c.pc.Collecting?)
    && (forall k :: 0 <= k < |c.batches| ==> c.batches[k] != [])
  }

  ghost predicate Watched<T>(c: Channel<T>) {
    && (!c.listener.NoListener? <==> c.pc.SecondCheck? || c.pc.Asleep?)
    && (c.pc.Asleep? && c.listener.Silent? && c.queue != [] ==> InWindow(c))
  }

  ghost predicate ChannelInv<T>(c: Channel<T>) {
    Conserved(c) && Proper(c) && Watched(c)
  }

  lemma FlatPush<T>(batches: seq<seq<T>>, items: seq<T>)
    ensures Flat(batches + [items]) == Flat(batches) + items
  {
    assert (batches + [items])[..|batches|] == batches;
  }

  lemma StepConserves<T>(c: Channel<T>, l: Label<T>)
    requires Conserved(c) && Proper(c) && Enabled(c, l)
    ensures Conserved(Next(c, l))
  {
    hide Flat;
    var d := Next(c, l);
    var kept := Flat(c.batches);
    match l
    case Push(_, v) =>
      if !c.pc.Gone? {
        assert d.sent == kept + c.lost + Items(c.pc) + (c.queue + [v]);
      }
    case Receive =>
      if c.pc.Collecting? {
        FlatPush(c.batches, c.pc.items);
        if c.queue != [] {
          assert c.queue == [c.queue[0]] + c.queue[1..];
          assert d.sent == kept + c.lost + (c.pc.items + [c.queue[0]]) + c.queue[1..];
        } else {
          assert c.lost == [];
        }
      }
    case DropReceiver =>
      assert d.sent == kept + (c.lost + c.queue);
    case _ =>
  }

  lemma StepProper<T>(c: Channel<T>, l: Label<T>)
    requires Proper(c) && Enabled(c, l)
    ensures Proper(Next(c, l))
  {
  }

  lemma StepWatches<T>(c: Channel<T>, l: Label<T>)
    requires Watched(c) && Enabled(c, l)
    ensures Watched(Next(c, l))
  {
    var d := Next(c, l);
    if InWindow(c) {
      var t :| t in c.senders && c.senders[t].Pushed?;
      assert !l.Notify? && l != DropSender(t) ==> t in d.senders && d.senders[t].Pushed?;
    }
    if l.Push? {
      assert !c.pc.Gone? ==> d.senders[l.t].Pushed?;
    }
  }

  lemma {:induction false} RunKeeps<T>(c: Channel<T>, ls: seq<Label<T>>)
    requires ChannelInv(c) && Run(c, ls)
    ensures ChannelInv(After(c, ls))
    decreases |ls|
  {
    if ls != [] {
      StepConserves(c, ls[0]);
      StepProper(c, ls[0]);
      StepWatches(c, ls[0]);
      RunKeeps(Next(c, ls[0]), ls[1..]);
    }
  }

  lemma ReachableInv<T(!new)>(c: Channel<T>)
    requires Reaches(Start(), c)
    ensures ChannelInv(c)
  {
    var ls :| Run(Start<T>(), ls) && After(Start(), ls) == c;
    RunKeeps(Start<T>(), ls);
  }

  // ---- theorems over every run ----

  /** FIFO across batches: while there is a sender, nothing is lost, repeated or reordered. */
  lemma BatchesAreFifo<T(!new)>(c: Channel<T>)
    requires Reaches(Start(), c)
    requires c.senders != map[] && !c.pc.Gone?
    ensures c.sent == Flat(c.batches) + Items(c.pc) + c.queue
    ensures forall k :: 0 <= k < |c.batches| ==> c.batches[k] != []
  {
    ReachableInv(c);
    assert c.lost == [];
  }

  /** In general only a suffix can be lost, and exactly when all senders or the receiver are gone. */
  lemma OnlyTheEndIsLost<T(!new)>(c: Channel<T>)
    requires Reaches(Start(), c)
    ensures c.sent == Flat(c.batches) + c.lost + Items(c.pc) + c.queue
    ensures c.lost != [] ==> c.failed || c.pc.Gone?
    ensures c.failed ==> c.lost != [] && c.senders == map[]
  {
    ReachableInv(c);
  }

  /** No lost wake-up: a sleeper that was not notified leaves items behind only inside a sender's window. */
  lemma NoLostWakeup<T(!new)>(c: Channel<T>)
    requires Reaches(Start(), c)
    ensures c.pc.Asleep? && c.listener.Silent? && c.queue != [] ==> InWindow(c)
    ensures c.pc.InWait() && c.queue != [] && !InWindow(c) ==> CanReceive(c)
  {
    ReachableInv(c);
  }

  /** How many steps of its own the receiver needs to leave `wait` when the queue is not empty. */
  function StepsToLeave<T>(pc: ReceiverPc<T>): nat {
    match pc
    case Asleep => 2
    case Listen => 2
    case FirstCheck => 1
    case SecondCheck => 1
    case _ => 0
  }

  /** In `wait`, with something to take, and not asleep on a silent listener. */
  ghost predicate Roused<T>(c: Channel<T>) {
    c.pc.InWait() && c.queue != [] && CanReceive(c)
  }

  function Receives<T>(ls: seq<Label<T>>): nat {
    if ls == [] then 0 else (if ls[0].Receive? then 1 else 0) + Receives(ls[1..])
  }

  /**
   Once roused the receiver stays able to run whatever the senders do, and its own next steps, at
   most two of them, take it out of `wait` with a queue that is still not empty.
   */
  lemma {:induction false} WaitReturns<T>(c: Channel<T>, ls: seq<Label<T>>)
    requires ChannelInv(c) && Roused(c) && Run(c, ls)
    requires forall k :: 0 <= k < |ls| ==> ls[k].OfSender() || ls[k].Receive?
    ensures Receives(ls) < StepsToLeave(c.pc) ==> Roused(After(c, ls))
    ensures Receives(ls) == StepsToLeave(c.pc) && ls[|ls| - 1].Receive? ==>
              After(c, ls).pc == Collecting([]) && After(c, ls).queue != []
    decreases |ls|
  {
    if ls != [] {
      var d := Next(c, ls[0]);
      StepConserves(c, ls[0]);
      StepProper(c, ls[0]);
      StepWatches(c, ls[0]);
      if Roused(d) {
        WaitReturns(d, ls[1..]);
        assert ls[1..] != [] ==> ls[1..][|ls[1..]| - 1] == ls[|ls| - 1];
      } else {
        assert d.pc == Collecting([]) && d.queue != [];
        LastReceive(ls[1..]);
      }
    }
  }

  lemma {:induction false} LastReceive<T>(ls: seq<Label<T>>)
    ensures ls != [] && ls[|ls| - 1].Receive? ==> Receives(ls) > 0
  {
    if |ls| > 1 {
      LastReceive(ls[1..]);
    }
  }

  /** `generate` returns `Disconnected` only after taking items out of the queue, which are dropped. */
  lemma DisconnectedDropsItems<T(!new)>(c: Channel<T>)
    requires Reaches(Start(), c) && CanReceive(c)
    ensures !c.failed && Next(c, Receive).failed <==> c.pc.Collecting? && c.queue == [] && c.senders == map[]
    ensures !c.failed && Next(c, Receive).failed ==>
              c.pc.items != [] && c.sent == Flat(c.batches) + c.pc.items && Next(c, Receive).batches == c.batches
  {
    ReachableInv(c);
  }

  /** The condition of `BatchesAreFifo` is needed: one sender that pushes and leaves is enough. */
  lemma SenderMustLive<T(!new)>(v: T)
    ensures exists c: Channel<T> :: Reaches(Start(), c) && c.pc.Outside? && c.sent == [v] && c.batches == [] && c.queue == []
  {
    var c0 := Start<T>();
    ReachesSelf(c0);
    ReachesStep(c0, c0, Push(0, v));
    var c1 := Next(c0, Push(0, v));
    ReachesStep(c0, c1, Notify(0));
    var c2 := Next(c1, Notify(0));
    ReachesStep(c0, c2, DropSender(0));
    var c3 := Next(c2, DropSender(0));
    ReachesStep(c0, c3, Begin);
    var c4 := Next(c3, Begin);
    ReachesStep(c0, c4, Receive);
    var c5 := Next(c4, Receive);
    ReachesStep(c0, c5, Receive);
    var c6 := Next(c5, Receive);
    assert c6.senders == map[];
    ReachesStep(c0, c6, Receive);
    var c7 := Next(c6, Receive);
    assert c7.pc.Outside? && c7.sent == [v] && c7.batches == [] && c7.queue == [];
  }

  // ---- the object ----

  /** What a poll of `generate` comes to. `Pending`: it is asleep. */
  datatype Generated<T> = Batch(items: seq<T>) | Disconnected | Pending

  /**
   The shared queue and event. The methods of the receiver take a schedule: what the senders do
   before each of its atomic steps, nothing once the schedule is used up. A label of a schedule that
   its sender cannot perform is skipped. Every method is shown to be a run of the system above.
   */
  class NotifyChannel<T(!new)> {
    var queue: seq<T>
    var senders: map<nat, SenderPc>
    var listener: Listener
    var open: bool
    ghost var sent: seq<T>
    ghost var batches: seq<seq<T>>
    ghost var lost: seq<T>
    ghost var failed: bool

    ghost function View(pc: ReceiverPc<T>): Channel<T>
      reads this
    {
      Channel(queue, senders, pc, listener, sent, batches, lost, failed)
    }

    ghost predicate Valid(pc: ReceiverPc<T>)
      reads this
    {
      Reaches(Start(), View(pc))
    }

    constructor ()
      ensures View(Outside) == Start() && Valid(Outside) && open
    {
      queue, senders, listener, open := [], map[0 := Idle], NoListener, true;
      sent, batches, lost, failed := [], [], [], false;
      new;
      ReachesSelf(Start<T>());
    }

    /**
     `send` by sender `t`, with nothing in between its two steps. The value comes back when the
     receiver is gone.
     */
    method Send(t: nat, v: T, ghost pc: ReceiverPc<T>) returns (back: seq<T>)
      requires Valid(pc) && (pc.Gone? <==> !open) && Enabled(View(pc), Push(t, v))
      modifies this`queue, this`senders, this`listener, this`sent
      ensures Valid(pc)
      ensures back == if pc.Gone? then [v] else []
      ensures pc.Gone? ==> View(pc) == old(View(pc))
      ensures !pc.Gone? ==> View(pc) == Next(Next(old(View(pc)), Push(t, v)), Notify(t))
      ensures !pc.Gone? ==> queue == old(queue) + [v] && senders == old(senders) && !listener.Silent?
    {
      if !open {
        return [v];
      }
      Step(Push(t, v), Start(), pc);
      Step(Notify(t), Start(), pc);
      return [];
    }

    /** Dropping the receiver discards what is still queued. */
    method Drop()
      requires Valid(Outside)
      modifies this
      ensures Valid(Gone) && !open && View(Gone) == Next(old(View(Outside)), DropReceiver)
    {
      ReachesStep(Start(), View(Outside), DropReceiver);
      lost := lost + queue;
      queue, open := [], false;
    }

    /** One step of one sender. */
    method Step(l: Label<T>, ghost from: Channel<T>, ghost pc: ReceiverPc<T>)
      requires l.OfSender() && !pc.Gone? && Reaches(from, View(pc)) && Enabled(View(pc), l)
      modifies this`queue, this`senders, this`listener, this`sent
      ensures View(pc) == Next(old(View(pc)), l) && Reaches(from, View(pc))
    {
      ReachesStep(from, View(pc), l);
      match l {
        case Push(t, v) =>
          queue, senders := queue + [v], senders[t := Pushed];
          sent := sent + [v];
        case Notify(t) =>
          senders := senders[t := Idle];
          if !listener.NoListener? {
            listener := Notified;
          }
        case Clone(_, to) => senders := senders[to := Idle];
        case DropSender(t) => senders := senders - {t};
      }
    }

    /** A turn of the senders: the queue grows by what they push, nothing else of the receiver's changes. */
    method Turn(turn: seq<Label<T>>, ghost from: Channel<T>, ghost pc: ReceiverPc<T>)
      requires !pc.Gone? && Reaches(from, View(pc))
      modifies this`queue, this`senders, this`listener, this`sent
      ensures Reaches(from, View(pc))
      ensures old(sent) <= sent && queue == old(queue) + sent[|old(sent)|..]
      ensures SameResults(old(View(pc)))
      ensures listener == old(listener) || (old(listener).Silent? && listener.Notified?)
    {
      for i := 0 to |turn|
        invariant Reaches(from, View(pc))
        invariant old(sent) <= sent && queue == old(queue) + sent[|old(sent)|..]
        invariant SameResults(old(View(pc)))
        invariant listener == old(listener) || (old(listener).Silent? && listener.Notified?)
      {
        if turn[i].OfSender() && Possible(turn[i]) {
          Step(turn[i], from, pc);
        }
      }
    }

    predicate Possible(l: Label<T>)
      reads this
      ensures l.OfSender() ==> forall pc :: Possible(l) <==> Enabled(View(pc), l)
    {
      if l.Clone? then l.t in senders && l.to !in senders
      else if l.Notify? then l.t in senders && senders[l.t].Pushed?
      else if l.Push? || l.DropSender? then l.t in senders && senders[l.t].Idle?
      else false
    }

    /** The receiver's own step, as the one the transition system takes. */
    lemma Own(from: Channel<T>, pc: ReceiverPc<T>)
      requires Reaches(from, View(pc)) && CanReceive(View(pc))
      ensures Reaches(from, ReceiverStep(View(pc)))
    {
      ReachesStep(from, View(pc), Receive);
    }

    /** `wait`. `ready` when it returns, otherwise it is asleep and the schedule is used up. */
    method Wait(schedule: seq<seq<Label<T>>>) returns (ready: bool, used: nat)
      requires Valid(Outside)
      modifies this`queue, this`senders, this`listener, this`sent
      ensures used <= |schedule| && Valid(if ready then Collecting([]) else Asleep)
      ensures Reaches(old(View(Outside)), View(if ready then Collecting([]) else Asleep))
      ensures ready ==> queue != []
      ensures !ready ==> used == |schedule| && (queue == [] || InWindow(View(Asleep)))
      ensures SameResults(old(View(Outside)))
    {
      hide Reaches;
      ghost var start := View(Outside);
      ReachableInv(start);
      ReachesSelf(start);
      ReachesStep(start, start, Begin);
      used := 0;
      while true
        invariant used <= |schedule| && listener.NoListener?
        invariant Reaches(start, View(FirstCheck)) && SameResults(start)
        decreases |schedule| - used
      {
        used := Pass(schedule, used, start, FirstCheck);
        Own(start, FirstCheck);
        if |queue| > 0 {
          ready := true;
          break;
        }
        used := Pass(schedule, used, start, Listen);
        Own(start, Listen);
        listener := Silent;
        used := Pass(schedule, used, start, SecondCheck);
        Own(start, SecondCheck);
        if |queue| > 0 {
          listener := NoListener;
          ready := true;
          break;
        }
        used := Sleep(schedule, used, start);
        if listener.Silent? {
          ready := false;
          break;
        }
        Own(start, Asleep);
        listener := NoListener;
      }
      if ready {
        ReachesTrans(Start(), start, View(Collecting([])));
      } else {
        ReachesTrans(Start(), start, View(Asleep));
        NoLostWakeup(View(Asleep));
      }
    }

    /** `listener.await`: until the listener is notified or the schedule is used up. */
    method Sleep(schedule: seq<seq<Label<T>>>, used: nat, ghost from: Channel<T>) returns (next: nat)
      requires used <= |schedule| && Reaches(from, View(Asleep)) && !listener.NoListener?
      modifies this`queue, this`senders, this`listener, this`sent
      ensures used <= next <= |schedule| && Reaches(from, View(Asleep)) && !listener.NoListener?
      ensures listener.Silent? ==> next == |schedule|
      ensures listener.Notified? && old(listener).Silent? ==> used < next
      ensures SameResults(old(View(Asleep)))
    {
      hide Reaches;
      next := used;
      while listener.Silent? && next < |schedule|
        invariant used <= next <= |schedule| && Reaches(from, View(Asleep)) && !listener.NoListener?
        invariant listener.Notified? && old(listener).Silent? ==> used < next
        invariant SameResults(old(View(Asleep)))
        decreases |schedule| - next
      {
        next := Pass(schedule, next, from, Asleep);
      }
    }

    /** Nothing was returned or lost since `before`. */
    ghost predicate SameResults(before: Channel<T>)
      reads this
    {
      batches == before.batches && lost == before.lost && failed == before.failed
    }

    /** The senders take their next turn, if the schedule has one. */
    method Pass(schedule: seq<seq<Label<T>>>, used: nat, ghost from: Channel<T>, ghost pc: ReceiverPc<T>)
      returns (next: nat)
      requires used <= |schedule| && !pc.Gone? && Reaches(from, View(pc))
      modifies this`queue, this`senders, this`listener, this`sent
      ensures Reaches(from, View(pc))
      ensures next == if used < |schedule| then used + 1 else used
      ensures used == |schedule| ==> queue == old(queue) && listener == old(listener)
      ensures old(sent) <= sent && queue == old(queue) + sent[|old(sent)|..]
      ensures SameResults(old(View(pc)))
      ensures listener == old(listener) || (old(listener).Silent? && listener.Notified?)
    {
      next := used;
      if used < |schedule| {
        Turn(schedule[used], from, pc);
        next := used + 1;
      }
    }

    /**
     `collect_nonblock`. A batch is all that was queued and all that was pushed until the queue was
     found empty; called after `wait` it is not empty. When no sender is left the items are lost.
     */
    method CollectNonblock(schedule: seq<seq<Label<T>>>) returns (r: Generated<T>)
      modifies this
      ensures open == old(open) && queue == [] && old(sent) <= sent
      ensures Reaches(old(View(Collecting([]))), View(Outside))
      ensures old(Valid(Collecting([]))) ==> Valid(Outside) && old(queue) != []
      ensures r.Batch? <==> senders != map[]
      ensures r.Disconnected? <==> senders == map[]
      ensures r.Batch? ==> r.items == old(queue) + sent[|old(sent)|..]
      ensures r.Batch? ==> batches == old(batches) + [r.items] && lost == old(lost) && failed == old(failed)
      ensures r.Disconnected? ==> batches == old(batches) && failed && lost == old(lost) + (old(queue) + sent[|old(sent)|..])
    {
      hide Reaches;
      ghost var start := View(Collecting([]));
      if Valid(Collecting([])) {
        ReachableInv(start);
      }
      var items := Drain(schedule);
      if senders == map[] {
        lost, failed := lost + items, true;
        r := Disconnected;
      } else {
        batches := batches + [items];
        r := Batch(items);
      }
      if Reaches(Start(), start) {
        ReachesTrans(Start(), start, View(Outside));
      }
    }

    /** The loop of `collect_nonblock`, up to the `try_recv` that finds the queue empty. */
    method Drain(schedule: seq<seq<Label<T>>>) returns (items: seq<T>)
      modifies this`queue, this`senders, this`listener, this`sent
      ensures queue == []
      ensures Reaches(old(View(Collecting([]))), View(Collecting(items)))
      ensures Reaches(old(View(Collecting([]))), ReceiverStep(View(Collecting(items))))
      ensures old(sent) <= sent && items == old(queue) + sent[|old(sent)|..]
      ensures SameResults(old(View(Outside)))
    {
      hide Reaches;
      ghost var start := View(Collecting([]));
      ReachesSelf(start);
      items := [];
      var used := 0;
      while true
        invariant used <= |schedule| && Reaches(start, View(Collecting(items))) && SameResults(start)
        invariant old(sent) <= sent && items + queue == old(queue) + sent[|old(sent)|..]
        decreases |schedule| - used, |queue|
      {
        ghost var queued, before := queue, sent;
        used := Pass(schedule, used, start, Collecting(items));
        Appended(old(queue), old(sent), before, sent, items, queued, queue);
        Own(start, Collecting(items));
        if |queue| == 0 {
          return;
        }
        assert items + queue == items + [queue[0]] + queue[1..];
        items, queue := items + [queue[0]], queue[1..];
      }
    }

    /** Taking items off the front commutes with pushing at the back. */
    static lemma Appended(q0: seq<T>, s0: seq<T>, s1: seq<T>, s2: seq<T>, items: seq<T>, q1: seq<T>, q2: seq<T>)
      requires s0 <= s1 <= s2 && items + q1 == q0 + s1[|s0|..] && q2 == q1 + s2[|s1|..]
      ensures s0 <= s2 && items + q2 == q0 + s2[|s0|..]
    {
      assert s2[|s0|..] == s1[|s0|..] + s2[|s1|..];
      assert items + q2 == items + q1 + s2[|s1|..];
    }

    /** `EventGenerator::generate`, up to the point where it returns or stays asleep. */
    method Generate(schedule: seq<seq<Label<T>>>) returns (r: Generated<T>)
      requires Valid(Outside)
      modifies this
      ensures open == old(open)
      ensures var pc := if r.Pending? then Asleep else Outside;
              Valid(pc) && Reaches(old(View(Outside)), View(pc))
      ensures r.Batch? ==> r.items != [] && batches == old(batches) + [r.items]
      ensures r.Batch? && senders != map[] ==> sent == Flat(batches) + queue
      ensures r.Pending? ==> queue == [] || InWindow(View(Asleep))
      ensures r.Disconnected? ==> senders == map[] && lost != []
    {
      hide Reaches;
      ghost var start := View(Outside);
      var ready, used := Wait(schedule);
      if !ready {
        return Pending;
      }
      ghost var waited := View(Collecting([]));
      r := CollectNonblock(schedule[used..]);
      ReachesTrans(start, waited, View(Outside));
      if r.Batch? && senders != map[] {
        BatchesAreFifo(View(Outside));
        assert Flat(batches) + [] + queue == Flat(batches) + queue;
      }
    }
  }
}
