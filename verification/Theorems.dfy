/** What holds in every state of every run. */
module Theorems {
  import opened Event
  import opened Operation
  import opened Stack
  import opened Invariant
  import opened Handlers
  import opened Parked
  import opened World
  import opened Steps
  import opened Places
  import S = Smoltcp

  // ---- tables ----

  /**
   `socket_handles` is exactly the typed handles of the socket table, so no index is both TCP and
   UDP; `accepted_udp_sockets` is exactly the endpoints of the UDP sockets, one socket each.
   */
  lemma TablesAgree(ws: seq<World>, ls: seq<Label>, i: nat)
    requires Run(ws, ls, FREE) && i < |ws|
    ensures RegistryMirrors(ws[i].st.sockets, ws[i].st.registered)
    ensures EndpointsMirror(ws[i].st.sockets, ws[i].st.accepted)
    ensures forall h :: !(Tcp(h) in ws[i].st.registered && Udp(h) in ws[i].st.registered)
  {
    RunKeeps(ws, ls, FREE, i);
  }

  // ---- life-cycle tokens ----

  predicate TokenAt(w: World, p: Place, inc: nat) {
    ItemAt(w, p).Some? && ItemAt(w, p).value.Token? && ItemAt(w, p).value.inc == inc
  }

  /**
   A socket incarnation has at most one token, whatever the clients do, and while it has one the
   incarnation is still in the socket table under the handle the token names.
   */
  lemma AtMostOneToken(ws: seq<World>, ls: seq<Label>, i: nat, inc: nat, p: Place, q: Place)
    requires Run(ws, ls, FREE) && i < |ws|
    requires TokenAt(ws[i], p, inc) && TokenAt(ws[i], q, inc)
    ensures p == q
    ensures Present(ws[i].st.sockets, ItemAt(ws[i], p).value.typed, inc)
  {
    RunKeeps(ws, ls, FREE, i);
    PlaceIsWell(ws[i], p, FREE);
    PlaceIsWell(ws[i], q, FREE);
    OnePlace(ws[i], p, q, FREE);
  }

  lemma PlaceIsWell(w: World, p: Place, d: Mode)
    requires WorldInv(w, d) && ItemAt(w, p).Some?
    ensures WellItem(w.st.sockets, w.st.served, w.st.ops, ItemAt(w, p).value)
  {
    var x := ItemAt(w, p).value;
    PartPositive(w, p, x);
    assert Total(w.st, w.todo, View(w, d), x) >= 1;
  }

  /**
   Under the client discipline, and while nothing is torn down, every socket in the table has its
   token: it can still be accepted or closed. The same holds of any run, disciplined or not, in
   which no operation is parked over a token.
   */
  lemma ExactlyOneToken(ws: seq<World>, ls: seq<Label>, d: Mode, i: nat, h: Handle)
    requires d == STRICT || d == CAREFUL
    requires Run(ws, ls, d) && i < |ws| && Whole(ws[i]) && h in ws[i].st.sockets
    ensures exists p :: TokenAt(ws[i], p, ws[i].st.sockets[h].inc)
    ensures forall p, q :: TokenAt(ws[i], p, ws[i].st.sockets[h].inc) && TokenAt(ws[i], q, ws[i].st.sockets[h].inc) ==> p == q
  {
    var w := ws[i];
    var inc := w.st.sockets[h].inc;
    RunKeeps(ws, ls, d, i);
    var p := SomePlace(w, TokenOf(w.st, h), d);
    assert TokenAt(w, p, inc);
    forall q, r | TokenAt(w, q, inc) && TokenAt(w, r, inc)
      ensures q == r
    {
      PlaceIsWell(w, q, d);
      PlaceIsWell(w, r, d);
      OnePlace(w, q, r, d);
    }
  }

  // ---- operations ----

  /**
   Conservation: an operation the driver still owes is in exactly one place, one it has let go of is
   in none, and nothing else is ever in a place.
   */
  lemma Conservation(ws: seq<World>, ls: seq<Label>, i: nat, o: OpId)
    requires Run(ws, ls, FREE) && i < |ws| && o in ws[i].st.ops
    ensures ws[i].st.ops[o].stage.Held? <==> exists p :: ItemAt(ws[i], p) == Some(OpItem(ws[i].st.ops, o))
    ensures forall p, q :: ItemAt(ws[i], p) == ItemAt(ws[i], q) == Some(OpItem(ws[i].st.ops, o)) ==> p == q
    ensures forall p, e :: ItemAt(ws[i], p) == Some(Operation(e)) && !e.IsToken() && e.op == o
                           ==> Operation(e) == OpItem(ws[i].st.ops, o)
  {
    var w := ws[i];
    RunKeeps(ws, ls, FREE, i);
    if w.st.ops[o].stage.Held? {
      var p := SomePlace(w, OpItem(w.st.ops, o), FREE);
      assert ItemAt(w, p) == Some(OpItem(w.st.ops, o));
    }
    forall p, q | ItemAt(w, p) == ItemAt(w, q) == Some(OpItem(w.st.ops, o))
      ensures p == q && w.st.ops[o].stage.Held?
    {
      OnePlace(w, p, q, FREE);
      PlaceIsWell(w, p, FREE);
    }
    forall p, e | ItemAt(w, p) == Some(Operation(e)) && !e.IsToken() && e.op == o
      ensures Operation(e) == OpItem(w.st.ops, o)
    {
      PlaceIsWell(w, p, FREE);
    }
  }

  /**
   A reply channel gets at most one message and has room for it, so the driver never blocks on it,
   and a client that completes has received exactly the answer the driver decided on.
   */
  lemma RepliesOnce(ws: seq<World>, ls: seq<Label>, i: nat, o: OpId)
    requires Run(ws, ls, FREE) && i < |ws| && o in ws[i].st.ops
    ensures ws[i].st.ops[o].sends <= 1
    ensures AboutToReply(ws[i].st.ops[o]) ==> ws[i].st.ops[o].sends == 0 && ws[i].st.ops[o].mail == []
    ensures ws[i].st.ops[o].client.Done? ==>
              ws[i].st.ops[o].client.result == ws[i].st.ops[o].Answer() && !ws[i].st.ops[o].stage.Held?
  {
    RunKeeps(ws, ls, FREE, i);
    assert OpOk(ws[i].st.ops[o]);
    SoleOwnerAtTakeBack(ws[i].st.ops[o]);
  }

  /**
   Whatever handler, closure, drop or failed send lets go of an operation, it does so by a plan that
   drops the buffer before it replies or drops the sender.
   */
  lemma ReleaseFirst(ws: seq<World>, ls: seq<Label>, i: nat, o: OpId)
    requires Run(ws, ls, FREE) && i < |ws| && o in ws[i].st.ops && ws[i].st.ops[o].stage.LettingGo?
    ensures BufferFirst(ws[i].st.ops[o].stage.plan, ws[i].st.ops[o].HasBuffer())
  {
    RunKeeps(ws, ls, FREE, i);
    assert OpOk(ws[i].st.ops[o]);
  }

  /**
   Buffer ownership: whenever a client takes its buffer back it holds the only reference, so the
   `expect` in `cast_dyn_io_buf*` never fails; and whenever the driver is about to handle an
   operation, its client is still waiting or gone, so the driver has the buffer to itself.
   */
  lemma BufferOwnership(ws: seq<World>, ls: seq<Label>, i: nat, o: OpId)
    requires Run(ws, ls, FREE) && i < |ws| && o in ws[i].st.ops
    ensures ws[i].st.ops[o].client.Got? && ws[i].st.ops[o].HasBuffer() ==> ws[i].st.ops[o].refs == 1
    ensures !ws[i].st.ops[o].client.Panicked?
    ensures ws[i].todo != [] && !ws[i].todo[0].IsToken() && ws[i].todo[0].op == o ==>
              && ws[i].st.ops[o].DriverHolds()
              && (ws[i].st.ops[o].client.Awaiting? || ws[i].st.ops[o].client.Cancelled?)
  {
    var w := ws[i];
    RunKeeps(ws, ls, FREE, i);
    assert OpOk(w.st.ops[o]);
    SoleOwnerAtTakeBack(w.st.ops[o]);
    if w.todo != [] && !w.todo[0].IsToken() && w.todo[0].op == o {
      PlaceIsWell(w, Doing(0), FREE);
    }
  }

  /**
   Incarnation safety: under the client discipline, an operation that is queued, parked or about to
   be handled names a socket that is in the table, of the right type, and of the very incarnation
   the operation was issued on, although handles are reused.
   */
  lemma IncarnationSafety(ws: seq<World>, ls: seq<Label>, i: nat, p: Place, e: Event)
    requires Run(ws, ls, STRICT) && i < |ws| && ItemAt(ws[i], p) == Some(Operation(e))
    ensures !e.IsToken() && e.op in ws[i].st.ops
    ensures Present(ws[i].st.sockets, e.Target(), ws[i].st.ops[e.op].inc)
  {
    hide WorldInv, Step;
    RunKeeps(ws, ls, STRICT, i);
    OwnSocket(ws[i], p, e);
  }

  lemma OwnSocket(w: World, p: Place, e: Event)
    requires WorldInv(w, STRICT) && ItemAt(w, p) == Some(Operation(e))
    ensures !e.IsToken() && e.op in w.st.ops && Present(w.st.sockets, e.Target(), w.st.ops[e.op].inc)
  {
    hide WorldInv, EventFor;
    PlaceIsWell(w, p, STRICT);
    OpStillWaits(w, e.op);
    PlaceIsWell(w, ClientObject(w.st.ops[e.op].inc), STRICT);
  }

  /** Under the discipline the client of an operation that is still owed is alive. */
  lemma OpStillWaits(w: World, o: OpId)
    requires WorldInv(w, STRICT) && o in w.st.ops && w.st.ops[o].stage.Held?
    ensures w.st.ops[o].inc in w.clients && w.clients[w.st.ops[o].inc].typed == w.st.ops[o].target
    ensures EventFor(w.st.ops[o].kind, w.st.ops[o].target, o).Target() == w.st.ops[o].target
  {
    assert OpOk(w.st.ops[o]);
  }

  // ---- handlers ----

  /** No handler panics: no missing socket, no wrong type, no unbound address, no unreachable arm. */
  lemma NoPanic(ws: seq<World>, ls: seq<Label>, i: nat)
    requires Run(ws, ls, FREE) && i < |ws|
    ensures !ws[i].st.panicked
  {
    RunKeeps(ws, ls, FREE, i);
  }

  /** Parked means blocked, in every state and whatever the clients do. */
  lemma ParkedMeansBlocked(ws: seq<World>, ls: seq<Label>, i: nat, h: Handle)
    requires Run(ws, ls, FREE) && i < |ws| && h in ws[i].st.sockets
    ensures
      var s := ws[i].st.sockets[h];
      && (s.recvSlot.Some? && s.recvSlot.value.Read? ==> s.p.TcpSocket? && s.p.rx == [] && S.MayRecv(s.p))
      && (s.sendSlot.Some? && s.sendSlot.value.Write? ==> s.p.TcpSocket? && |s.p.tx| >= s.p.cap && S.MaySend(s.p.state))
      && (s.recvSlot.Some? && s.recvSlot.value.Close? ==> s.p.TcpSocket? && S.IsActive(s.p.state))
      && (s.recvSlot.Some? && s.recvSlot.value.Ready? ==> s.p.TcpSocket? && !S.MayRecv(s.p))
      && (s.sendSlot.Some? && s.sendSlot.value.Shutdown? ==> s.p.TcpSocket? && !S.TransmitOpen(s.p.state))
      && (s.recvSlot.Some? && s.recvSlot.value.Recv? ==> s.p.UdpSocket? && s.p.inbox == [])
      && (s.sendSlot.Some? && s.sendSlot.value.Send? ==> s.p.UdpSocket? && |s.p.outbox| >= S.UDP_PACKETS)
  {
    RunKeeps(ws, ls, FREE, i);
    assert Blocked(ws[i].st.sockets[h]) && Shape(h, ws[i].st.sockets[h]);
  }

  // ---- accepting ----

  /**
   A stream knows as its peer the destination of the packet that created its socket, and two live
   UDP sockets never have the same peer.
   */
  lemma AcceptSound(ws: seq<World>, ls: seq<Label>, i: nat, a: nat, b: nat)
    requires Run(ws, ls, FREE) && i < |ws| && a in ws[i].clients && b in ws[i].clients
    ensures a < |ws[i].st.born| && ws[i].clients[a].peer == ws[i].st.born[a]
    ensures ws[i].clients[a].typed.Udp? && ws[i].clients[b].typed.Udp? && a != b ==> ws[i].clients[a].peer != ws[i].clients[b].peer
  {
    var w := ws[i];
    RunKeeps(ws, ls, FREE, i);
    PlaceIsWell(w, ClientObject(a), FREE);
    PlaceIsWell(w, ClientObject(b), FREE);
    if w.clients[a].typed.Udp? && w.clients[b].typed.Udp? {
      assert BoundTo(w.st.sockets, w.clients[a].typed.handle, w.st.born[a]);
      assert BoundTo(w.st.sockets, w.clients[b].typed.handle, w.st.born[b]);
    }
  }
}
