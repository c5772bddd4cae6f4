/**
 `read_exact` and `write_all` over whole runs. What the loops of module `ByteStream` do on one socket
 under a schedule, the successive operations of a client do in any run of the system: the parts of
 the buffers that the answers name are, put together, a piece of the stream without gap or repeat.
 */
module StreamOps {
  import opened Event
  import opened Operation
  import opened Stack
  import opened Invariant
  import opened World
  import opened Steps
  import opened Turns
  import opened Places
  import opened Frames
  import opened Theorems
  import opened Lifecycle
  import opened Shutdowns
  import opened Strays
  import opened ByteHistory
  import S = Smoltcp

  /** An operation that was answered with `n`: the first `n` bytes of its buffer were moved. */
  datatype Part = Part(op: OpId, n: nat)

  /** The step handles a Read (or Write) of the incarnation and answers it with a number of bytes. */
  predicate Answers(w: World, l: Label, w1: World, inc: nat, read: bool) {
    && Handles(w, l, inc) && (w.todo[0].Read? <==> read) && w.todo[0].op in w1.st.ops
    && w1.st.ops[w.todo[0].op].Answer().Some? && w1.st.ops[w.todo[0].op].Answer().value.Ok?
  }

  /** The Reads (or Writes) of an incarnation answered in the steps from `i` to `j`, in order. */
  function Parts(ws: seq<World>, ls: seq<Label>, inc: nat, read: bool, i: nat, j: nat): seq<Part>
    requires i <= j <= |ls| < |ws|
    decreases j
  {
    if i == j then []
    else
      var w, w1 := ws[j - 1], ws[j];
      Parts(ws, ls, inc, read, i, j - 1)
      + (if Answers(w, ls[j - 1], w1, inc, read) then [Part(w.todo[0].op, w1.st.ops[w.todo[0].op].Answer().value.n)] else [])
  }

  /** What the buffers of the answered operations hold, put together. */
  function Gather(w: World, parts: seq<Part>): seq<Byte>
  {
    if parts == [] then []
    else Gather(w, parts[..|parts| - 1]) + Piece(w, parts[|parts| - 1])
  }

  function Piece(w: World, p: Part): seq<Byte> {
    if p.op in w.st.ops && p.n <= |w.st.ops[p.op].buf| then w.st.ops[p.op].buf[..p.n] else []
  }

  function Moved(b: Bytes, read: bool): seq<Byte> { if read then b.taken else b.accepted }

  // ---- settled buffers stay ----

  predicate Settled(w: World, parts: seq<Part>) {
    forall k :: 0 <= k < |parts| ==> parts[k].op in w.st.ops && !w.st.ops[parts[k].op].stage.Held?
  }

  lemma SettledBuffer(w: World, l: Label, w1: World, o: OpId)
    requires WorldInv(w, FREE) && Step(w, l, w1, FREE) && o in w.st.ops && !w.st.ops[o].stage.Held?
    ensures o in w1.st.ops && !w1.st.ops[o].stage.Held? && w1.st.ops[o].buf == w.st.ops[o].buf
  {
    StepSameStreams(w, l, w1, FREE);
    StepOnlyHandlerWrites(w, l, w1, o);
    if w.todo != [] && !w.todo[0].IsToken() && w.todo[0].op == o {
      OwedAt(w, Doing(0), w.todo[0]);
    }
  }

  lemma {:induction false} GatherStays(w: World, l: Label, w1: World, parts: seq<Part>)
    requires WorldInv(w, FREE) && Step(w, l, w1, FREE) && Settled(w, parts)
    ensures Settled(w1, parts) && Gather(w1, parts) == Gather(w, parts)
  {
    hide WorldInv, Step;
    if parts != [] {
      var n := |parts| - 1;
      GatherStays(w, l, w1, parts[..n]);
      SettledBuffer(w, l, w1, parts[n].op);
      assert forall k :: 0 <= k < n ==> parts[..n][k] == parts[k];
    }
  }

  // ---- one step ----

  lemma HandledAsTcp(w: World, l: Label, w1: World)
    requires Step(w, l, w1, FREE) && l.HandleNext? && w.todo != [] && w.todo[0].IsTcpData()
    ensures w1.st == HandleTcp(w.st, w.todo[0])
  {
    hide HandleTcp, Dispatch;
    RoutedToTcp(w.st, w.todo[0]);
  }

  /** A Read that is handled moves just the piece its answer names. */
  lemma ReadPiece(w: World, l: Label, w1: World, inc: nat)
    requires WorldInv(w1, FREE) && Step(w, l, w1, FREE) && Handles(w, l, inc) && w.todo[0].Read?
    ensures if Answers(w, l, w1, inc, true) then
              var o := w.todo[0].op;
              !w1.st.ops[o].stage.Held? && Taken(w, l, inc) == Piece(w1, Part(o, w1.st.ops[o].Answer().value.n))
            else Taken(w, l, inc) == []
  {
    hide HandleTcp, Step, WorldInv;
    var h, o := w.todo[0].handle, w.todo[0].op;
    HandledAsTcp(w, l, w1);
    ReadAnswer(w.st, h, o);
    var p, got := w.st.sockets[h].p, TakenBy(w.st.sockets[h].p, w.st.ops[o].buf);
    if p.rx == [] && S.MayRecv(p) {
      OwedAt(w1, RecvSlotOf(h), Read(h, o));
    } else {
      assert (got + w.st.ops[o].buf[|got|..])[..|got|] == got;
    }
  }

  lemma WritePiece(w: World, l: Label, w1: World, inc: nat)
    requires WorldInv(w1, FREE) && Step(w, l, w1, FREE) && Handles(w, l, inc) && w.todo[0].Write?
    ensures if Answers(w, l, w1, inc, false) then
              var o := w.todo[0].op;
              !w1.st.ops[o].stage.Held? && Accepted(w, l, inc) == Piece(w1, Part(o, w1.st.ops[o].Answer().value.n))
            else Accepted(w, l, inc) == []
  {
    hide HandleTcp, Step, WorldInv;
    var h, o := w.todo[0].handle, w.todo[0].op;
    HandledAsTcp(w, l, w1);
    WriteAnswer(w.st, h, o);
    var p := w.st.sockets[h].p;
    if S.MaySend(p.state) && |p.tx| >= p.cap {
      OwedAt(w1, SendSlotOf(h), Write(h, o));
    }
  }

  // ---- theorems ----

  lemma MovedStep(ws: seq<World>, ls: seq<Label>, inc: nat, read: bool, k: nat)
    requires k < |ls| < |ws|
    ensures Moved(History(ws, ls, inc, k + 1), read)
            == Moved(History(ws, ls, inc, k), read) + (if read then Taken(ws[k], ls[k], inc) else Accepted(ws[k], ls[k], inc))
  {
    hide Taken, Accepted, Delivered, Departed;
  }

  lemma PartsStep(ws: seq<World>, ls: seq<Label>, inc: nat, read: bool, i: nat, k: nat)
    requires i <= k < |ls| < |ws|
    ensures var parts := Parts(ws, ls, inc, read, i, k);
            Parts(ws, ls, inc, read, i, k + 1) ==
            if Answers(ws[k], ls[k], ws[k + 1], inc, read) then
              parts + [Part(ws[k].todo[0].op, ws[k + 1].st.ops[ws[k].todo[0].op].Answer().value.n)]
            else parts
  {
  }

  lemma GatherPush(w: World, parts: seq<Part>, p: Part)
    ensures Gather(w, parts + [p]) == Gather(w, parts) + Piece(w, p)
  {
    assert (parts + [p])[..|parts|] == parts;
  }

  lemma {:induction false} PartsMove(ws: seq<World>, ls: seq<Label>, inc: nat, read: bool, i: nat, j: nat)
    requires Run(ws, ls, FREE) && i <= j <= |ls|
    ensures Settled(ws[j], Parts(ws, ls, inc, read, i, j))
    ensures Moved(History(ws, ls, inc, j), read)
            == Moved(History(ws, ls, inc, i), read) + Gather(ws[j], Parts(ws, ls, inc, read, i, j))
    decreases j
  {
    hide WorldInv, Step, Handles, Answers, Taken, Accepted, Piece, History, Moved;
    if i < j {
      var k := j - 1;
      PartsMove(ws, ls, inc, read, i, k);
      RunKeeps(ws, ls, FREE, k);
      RunKeeps(ws, ls, FREE, j);
      assert Step(ws[k], ls[k], ws[k + 1], FREE);
      MoveOn(ws, ls, inc, read, i, k);
    }
  }

  lemma MoveOn(ws: seq<World>, ls: seq<Label>, inc: nat, read: bool, i: nat, k: nat)
    requires i <= k < |ls| < |ws| && WorldInv(ws[k], FREE) && WorldInv(ws[k + 1], FREE) && Step(ws[k], ls[k], ws[k + 1], FREE)
    requires Settled(ws[k], Parts(ws, ls, inc, read, i, k))
    requires Moved(History(ws, ls, inc, k), read)
             == Moved(History(ws, ls, inc, i), read) + Gather(ws[k], Parts(ws, ls, inc, read, i, k))
    ensures Settled(ws[k + 1], Parts(ws, ls, inc, read, i, k + 1))
    ensures Moved(History(ws, ls, inc, k + 1), read)
            == Moved(History(ws, ls, inc, i), read) + Gather(ws[k + 1], Parts(ws, ls, inc, read, i, k + 1))
  {
    hide WorldInv, Step, Handles, Answers, Taken, Accepted, Piece, History, Moved, Parts, Gather;
    var parts := Parts(ws, ls, inc, read, i, k);
    GatherStays(ws[k], ls[k], ws[k + 1], parts);
    StepPiece(ws[k], ls[k], ws[k + 1], inc, read);
    MovedStep(ws, ls, inc, read, k);
    PartsStep(ws, ls, inc, read, i, k);
    if Answers(ws[k], ls[k], ws[k + 1], inc, read) {
      AnswersOp(ws[k], ls[k], ws[k + 1], inc, read);
      GatherPush(ws[k + 1], parts, Part(ws[k].todo[0].op, ws[k + 1].st.ops[ws[k].todo[0].op].Answer().value.n));
    }
  }

  lemma AnswersOp(w: World, l: Label, w1: World, inc: nat, read: bool)
    requires Answers(w, l, w1, inc, read)
    ensures w.todo != [] && w.todo[0].IsTcpData() && w.todo[0].op in w1.st.ops
    ensures w1.st.ops[w.todo[0].op].Answer().Some? && w1.st.ops[w.todo[0].op].Answer().value.Ok?
  {
  }

  lemma StepPiece(w: World, l: Label, w1: World, inc: nat, read: bool)
    requires WorldInv(w1, FREE) && Step(w, l, w1, FREE)
    ensures var moved := if read then Taken(w, l, inc) else Accepted(w, l, inc);
            if Answers(w, l, w1, inc, read) then
              var o := w.todo[0].op;
              !w1.st.ops[o].stage.Held? && moved == Piece(w1, Part(o, w1.st.ops[o].Answer().value.n))
            else moved == []
  {
    hide WorldInv, Step;
    if Handles(w, l, inc) {
      if w.todo[0].Read? {
        ReadPiece(w, l, w1, inc);
      } else {
        WritePiece(w, l, w1, inc);
      }
    }
  }

  /**
   `read_exact` in any run: the buffers of the Reads of a stream that were answered between two points
   of the run hold, one after another and up to the lengths answered, exactly the bytes of the peer's
   stream from the first one that was not read before.
   */
  lemma ReadsFollowTheStream(ws: seq<World>, ls: seq<Label>, inc: nat, i: nat, j: nat)
    requires Run(ws, ls, FREE) && i <= j <= |ls|
    ensures var got, start := Gather(ws[j], Parts(ws, ls, inc, true, i, j)), |History(ws, ls, inc, i).taken|;
            && start + |got| <= |History(ws, ls, inc, j).delivered|
            && got == History(ws, ls, inc, j).delivered[start..start + |got|]
  {
    PartsMove(ws, ls, inc, true, i, j);
    BytesInOrder(ws, ls, inc, j, 0);
    var b, c := History(ws, ls, inc, i), History(ws, ls, inc, j);
    var got := Gather(ws[j], Parts(ws, ls, inc, true, i, j));
    assert c.taken == b.taken + got && c.taken <= c.delivered;
    assert got == c.taken[|b.taken|..];
  }

  /**
   `write_all` in any run: what was handed in on a stream between two points of the run is exactly what
   the answered Writes name, one after another, and what leaves the socket leaves in that order.
   */
  lemma WritesFollowTheStream(ws: seq<World>, ls: seq<Label>, inc: nat, i: nat, j: nat)
    requires Run(ws, ls, FREE) && i <= j <= |ls|
    ensures var b, c := History(ws, ls, inc, i), History(ws, ls, inc, j);
            && c.accepted == b.accepted + Gather(ws[j], Parts(ws, ls, inc, false, i, j))
            && c.departed <= c.accepted
  {
    PartsMove(ws, ls, inc, false, i, j);
    BytesInOrder(ws, ls, inc, j, 0);
  }
}
