/**
 What happens to sockets when clients do not keep the discipline: exactly which step makes a socket
 lose its token, and that a socket without a token stays in the table for good.
 */
module Orphans {
  import opened Event
  import opened Operation
  import opened Stack
  import opened Invariant
  import opened Handlers
  import opened Parked
  import opened World
  import opened Steps
  import opened Places
  import opened Theorems
  import opened Shutdowns
  import S = Smoltcp

  /** No place holds a token of this incarnation. */
  ghost predicate Tokenless(w: World, inc: nat) {
    forall p :: !TokenAt(w, p, inc)
  }

  /** A read that would be parked over a close that waits for the connection to end. */
  predicate Stale(st: State, e: Event) {
    && e.Read? && HasTcp(st, e.handle) && st.sockets[e.handle].recvSlot.Some?
    && st.sockets[e.handle].recvSlot.value.Close?
    && st.sockets[e.handle].p.rx == [] && S.Receiving(st.sockets[e.handle].p.state)
  }

  /** Such a read is the only operation that is ever parked over a token. */
  lemma DisplacesIsStale(ws: seq<World>, ls: seq<Label>, i: nat)
    requires Run(ws, ls, FREE) && i < |ws| && ws[i].todo != []
    ensures Displaces(ws[i].st, ws[i].todo[0]) <==> Stale(ws[i].st, ws[i].todo[0])
  {
    var w := ws[i];
    var e := w.todo[0];
    var h := e.Target().handle;
    RunKeeps(ws, ls, FREE, i);
    if e.Shutdown? {
      ShutdownOnOwnSocket(ws, ls, i, e.typed, e.op);
      ServedSlots(w, h, FREE);
    } else {
      DataOverToken(w, FREE);
    }
  }

  /** The token of an accepted socket is no Ready. */
  lemma ServedSlots(w: World, h: Handle, d: Mode)
    requires WorldInv(w, d) && h in w.st.sockets && w.st.sockets[h].inc in w.st.served
    ensures !HoldsToken(w.st.sockets[h].sendSlot)
  {
    assert Shape(h, w.st.sockets[h]);
    if HoldsToken(w.st.sockets[h].sendSlot) {
      PlaceIsWell(w, SendSlotOf(h), d);
    }
  }

  lemma DataOverToken(w: World, d: Mode)
    requires WorldInv(w, d) && w.todo != [] && !w.todo[0].Shutdown?
    ensures Displaces(w.st, w.todo[0]) <==> Stale(w.st, w.todo[0])
  {
    var e := w.todo[0];
    var h := e.Target().handle;
    if !e.IsToken() {
      PlaceIsWell(w, Doing(0), d);
    }
    if h in w.st.sockets {
      assert Shape(h, w.st.sockets[h]) && Blocked(w.st.sockets[h]);
      assert w.st.sockets[h].Typed(h) in w.st.registered;
    }
  }

  // ---- the step that loses a token ----

  /** The token of socket `h` is parked on it, so it is nowhere else. */
  lemma OnlyInSlot(w: World, h: Handle, d: Mode)
    requires WorldInv(w, d) && w.todo != [] && h in w.st.sockets
    requires HoldsToken(w.st.sockets[h].recvSlot) || HoldsToken(w.st.sockets[h].sendSlot)
    ensures
      var x := TokenOf(w.st, h);
      var s := w.st.sockets[h];
      && Count(w.st.queue, x) == 0 && Count(w.todo[1..], x) == 0
      && InInfos(w.st.tcpInfos, true, x) == 0 && InInfos(w.st.udpInfos, false, x) == 0 && AtClient(View(w, d), x) == 0
      && (HoldsToken(s.recvSlot) ==> InSlot(s.sendSlot, x) == 0)
      && (HoldsToken(s.sendSlot) ==> InSlot(s.recvSlot, x) == 0)
  {
    var x := TokenOf(w.st, h);
    var s := w.st.sockets[h];
    var p := if HoldsToken(s.recvSlot) then RecvSlotOf(h) else SendSlotOf(h);
    assert Shape(h, s);
    PlaceIsWell(w, p, d);
    if HoldsToken(s.sendSlot) {
      PlaceIsWell(w, SendSlotOf(h), d);
    }
    assert Total(w.st, w.todo, View(w, d), x) <= 1;
  }

  lemma ReadLosesClose(w: World, d: Mode)
    requires WorldInv(w, d) && w.todo != [] && w.todo[0].Read? && Displaces(w.st, w.todo[0])
    ensures
      var h := w.todo[0].handle;
      var st1 := HandleTcp(w.st, w.todo[0]);
      h in st1.sockets && Total(st1, w.todo[1..], View(w, d), TokenOf(st1, h)) == 0
  {
    var h := w.todo[0].handle;
    OnlyInSlot(w, h, d);
    hide WorldInv, RegisterRecv;
    assert HandleTcp(w.st, w.todo[0]) == RegisterRecv(w.st, h, w.todo[0]);
  }

  /**
   In a run that has not lost a token yet, handling one more event makes some socket lose its token
   exactly when it is stale: a read that is parked over the waiting close.
   */
  lemma TokenLostExactly(ws: seq<World>, ls: seq<Label>, w1: World)
    requires Run(ws, ls, CAREFUL) && Whole(ws[|ls|]) && Step(ws[|ls|], HandleNext, w1, FREE)
    ensures (exists h :: h in w1.st.sockets && Tokenless(w1, w1.st.sockets[h].inc)) <==> Stale(ws[|ls|].st, ws[|ls|].todo[0])
  {
    CarefulIsFree(ws, ls);
    DisplacesIsStale(ws, ls, |ls|);
    RunKeeps(ws, ls, CAREFUL, |ls|);
    StepLosesExactly(ws[|ls|], w1);
  }

  lemma CarefulIsFree(ws: seq<World>, ls: seq<Label>)
    requires Run(ws, ls, CAREFUL)
    ensures Run(ws, ls, FREE)
  {
    hide Enabled, Next, Displaces;
  }

  lemma StepLosesExactly(w: World, w1: World)
    requires WorldInv(w, CAREFUL) && Whole(w) && Step(w, HandleNext, w1, FREE)
    requires Displaces(w.st, w.todo[0]) <==> Stale(w.st, w.todo[0])
    ensures (exists h :: h in w1.st.sockets && Tokenless(w1, w1.st.sockets[h].inc)) <==> Displaces(w.st, w.todo[0])
  {
    var e := w.todo[0];
    if Displaces(w.st, e) {
      var h := e.Target().handle;
      ReadLosesClose(w, CAREFUL);
      WorldInvWeaken(w);
      StepKeeps(w, HandleNext, w1, FREE);
      NoCountNoPlace(w1, h);
    } else {
      assert Step(w, HandleNext, w1, CAREFUL);
      StepKeeps(w, HandleNext, w1, CAREFUL);
      forall h | h in w1.st.sockets
        ensures !Tokenless(w1, w1.st.sockets[h].inc)
      {
        EachHasToken(w1, h);
      }
    }
  }

  lemma WorldInvWeaken(w: World)
    requires WorldInv(w, CAREFUL)
    ensures WorldInv(w, FREE)
  {
  }

  lemma EachHasToken(w: World, h: Handle)
    requires WorldInv(w, CAREFUL) && Whole(w) && h in w.st.sockets
    ensures !Tokenless(w, w.st.sockets[h].inc)
  {
    var p := SomePlace(w, TokenOf(w.st, h), CAREFUL);
    assert TokenAt(w, p, w.st.sockets[h].inc);
  }

  lemma NoCountNoPlace(w: World, h: Handle)
    requires WorldInv(w, FREE) && h in w.st.sockets
    requires Total(w.st, w.todo, View(w, FREE), TokenOf(w.st, h)) == 0
    ensures Tokenless(w, w.st.sockets[h].inc)
  {
    var inc := w.st.sockets[h].inc;
    forall p
      ensures !TokenAt(w, p, inc)
    {
      if TokenAt(w, p, inc) {
        PlaceIsWell(w, p, FREE);
        assert ItemAt(w, p).value == TokenOf(w.st, h);
        PartPositive(w, p, TokenOf(w.st, h));
      }
    }
  }

  // ---- a lost token is lost for good ----

  function Watching(inc: nat, th: TypedHandle): Mode { Mode(false, false, map[inc := th]) }

  lemma StartWatching(w: World, h: Handle)
    requires WorldInv(w, FREE) && h in w.st.sockets && Tokenless(w, w.st.sockets[h].inc)
    ensures WorldInv(w, Watching(w.st.sockets[h].inc, w.st.sockets[h].Typed(h)))
  {
    var inc, th := w.st.sockets[h].inc, w.st.sockets[h].Typed(h);
    var d := Watching(inc, th);
    forall b: bool
      ensures Total(w.st, w.todo, View(w, FREE), Token(th, inc, b)) == 0
    {
      if Total(w.st, w.todo, View(w, FREE), Token(th, inc, b)) >= 1 {
        var p := SomePlace(w, Token(th, inc, b), FREE);
        assert TokenAt(w, p, inc);
      }
    }
    assert forall x :: Total(w.st, w.todo, View(w, d), x) == Total(w.st, w.todo, View(w, FREE), x);
  }

  lemma StillWatching(w: World, h: Handle, inc: nat, th: TypedHandle)
    requires WorldInv(w, Watching(inc, th)) && th.handle == h
    ensures Present(w.st.sockets, th, inc) && Tokenless(w, inc)
  {
    var d := Watching(inc, th);
    assert inc in View(w, d).orphans;
    forall p
      ensures !TokenAt(w, p, inc)
    {
      if TokenAt(w, p, inc) {
        PlaceIsWell(w, p, d);
        PartPositive(w, p, ItemAt(w, p).value);
      }
    }
  }

  lemma {:induction false} WatchOn(ws: seq<World>, ls: seq<Label>, i: nat, j: nat, inc: nat, th: TypedHandle)
    requires Run(ws, ls, FREE) && i <= j < |ws| && WorldInv(ws[i], Watching(inc, th))
    ensures WorldInv(ws[j], Watching(inc, th))
    decreases j - i
  {
    if i < j {
      assert Step(ws[i], ls[i], ws[i + 1], FREE);
      assert Step(ws[i], ls[i], ws[i + 1], Watching(inc, th));
      hide Run, Step, WorldInv;
      StepKeeps(ws[i], ls[i], ws[i + 1], Watching(inc, th));
      WatchOn(ws, ls, i + 1, j, inc, th);
    }
  }

  /**
   A socket that has lost its token is never removed and never gets one again, in any continuation of
   any run: it is neither accepted nor closed, and its handle stays taken for as long as there is a
   stack.
   */
  lemma OrphanForever(ws: seq<World>, ls: seq<Label>, i: nat, j: nat, h: Handle)
    requires Run(ws, ls, FREE) && i <= j < |ws|
    requires h in ws[i].st.sockets && Tokenless(ws[i], ws[i].st.sockets[h].inc)
    ensures h in ws[j].st.sockets && ws[j].st.sockets[h].inc == ws[i].st.sockets[h].inc
    ensures Tokenless(ws[j], ws[i].st.sockets[h].inc)
  {
    var inc, th := ws[i].st.sockets[h].inc, ws[i].st.sockets[h].Typed(h);
    RunKeeps(ws, ls, FREE, i);
    StartWatching(ws[i], h);
    WatchOn(ws, ls, i, j, inc, th);
    StillWatching(ws[j], h, inc, th);
  }
}
