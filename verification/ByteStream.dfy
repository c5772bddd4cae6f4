/**
 `read`, `read_exact`, `write` and `write_all` of a TCP stream (src/tcp_stack/tcp.rs) over the read
 and write arms of the driver (src/tcp_stack/mod.rs), for a stream with one reader and one writer.

 While an operation is outstanding the rest of the world takes turns at the socket: `poll` changes
 it, the operations of the other half of the stream are handled, it is shut down or closed. A
 schedule lists the turns; one that is impossible when it comes up is skipped. The event of the
 operation is either queued, and then a turn may handle it, or parked in a slot until that slot
 fires. When the schedule ends first the operation is still pending.
 */
module ByteStream {
  import opened Event
  import opened Operation
  import opened Stack
  import opened Turns
  import opened IdealStream
  import S = Smoltcp

  /** What the read arm answers when it answers. */
  lemma ReadAnswers(p: S.Proto, buf: seq<Byte>)
    requires p.TcpSocket? && ReadOutcome(p, buf, 0).Complete?
    ensures var out := ReadOutcome(p, buf, 0);
            && out.Answer() == Some(Ok(S.Min(|p.rx|, |buf|)))
            && out.proto == p.(rx := p.rx[S.Min(|p.rx|, |buf|)..])
            && out.buf == p.rx[..S.Min(|p.rx|, |buf|)] + buf[S.Min(|p.rx|, |buf|)..]
  {
    ReplyInThree(Ok(S.Min(|p.rx|, |buf|)));
  }

  lemma WriteAnswers(p: S.Proto, bytes: seq<Byte>)
    requires p.TcpSocket? && WriteOutcome(p, bytes, 0).Complete?
    ensures var out := WriteOutcome(p, bytes, 0);
            && out.Answer().Some? && (out.Answer().value.Ok? || out.Answer().value.Err?)
            && (!S.MaySend(p.state) ==> out.Answer() == Some(Err(BrokenPipe)) && out.proto == p)
            && (S.MaySend(p.state) ==>
                  && S.CanSendTcp(p)
                  && var n := S.Min(p.cap - |p.tx|, |bytes|);
                  out.Answer() == Some(Ok(n)) && out.proto == p.(tx := p.tx + bytes[..n]))
  {
    ReplyInThree(Err(BrokenPipe));
    if S.CanSendTcp(p) {
      ReplyInThree(Ok(S.SendSlice(p, |bytes|).n));
    }
  }

  /** The turn that ended a read, the answer, and what it left: nothing is lost between queue and buffer. */
  predicate ReadEnd(q: S.Proto, t: Turn, buf: seq<Byte>, answer: Reply, p: S.Proto)
    requires q.TcpSocket?
  {
    && Ends(q, t, true)
    && if t.Fail? then answer == Err(t.kind) && p == q
       else
         var n := S.Min(|q.rx|, |buf|);
         answer == Ok(n) && buf[..n] == q.rx[..n] && p == q.(rx := q.rx[n..])
  }

  /** The turn that ended a write, the answer, and what it left: just the bytes answered are appended. */
  predicate WriteEnd(q: S.Proto, t: Turn, bytes: seq<Byte>, answer: Reply, p: S.Proto)
    requires q.TcpSocket?
  {
    && Ends(q, t, false)
    && if t.Fail? then answer == Err(t.kind) && p == q
       else if !S.MaySend(q.state) then answer == Err(BrokenPipe) && p == q
       else
         && |q.tx| < q.cap
         && var n := S.Min(q.cap - |q.tx|, |bytes|);
         answer == Ok(n) && p == q.(tx := q.tx + bytes[..n])
  }

  // ---- against the ideal ----

  /** The ideal call has moved `done` so far and goes on from here. */
  ghost predicate ReadsOn(ideal: Ideal, done: seq<Byte>, p: S.Proto, turns: seq<Turn>, want: nat)
    requires p.TcpSocket?
  {
    var rest := IdealRead(p, turns, want);
    ideal == rest.(bytes := done + rest.bytes)
  }

  ghost predicate WritesOn(ideal: Ideal, done: seq<Byte>, p: S.Proto, turns: seq<Turn>, buf: seq<Byte>)
    requires p.TcpSocket?
  {
    var rest := IdealWrite(p, turns, buf);
    ideal == rest.(bytes := done + rest.bytes)
  }

  lemma ReadOnePart(ideal: Ideal, done: seq<Byte>, p: S.Proto, schedule: seq<Turn>, start: nat, end: nat, part: seq<Byte>, a: Reply, p1: S.Proto)
    requires p.TcpSocket? && start <= end < |schedule| && part != [] && Quiet(p, schedule, start, end, true)
    requires ReadsOn(ideal, done, p, schedule[start..], |part|)
    requires ReadEnd(Seen(p, schedule[start..end], true), schedule[end], part, a, p1)
    ensures a.Err? ==> ideal == Ideal(Failed(a.kind), done, p1)
    ensures a == Ok(0) ==> ideal == Ideal(UnexpectedEof, done, p1)
    ensures a.Ok? && a.n > 0 ==> a.n <= |part| && p1.TcpSocket? && ReadsOn(ideal, done + part[..a.n], p1, schedule[end + 1..], |part| - a.n)
  {
    hide IdealRead, Seen, Quiet;
    ReadGoesOn(p, schedule, start, end, |part|);
    assert done + [] == done;
    if a.Ok? && a.n > 0 {
      var rest := IdealRead(p1, schedule[end + 1..], |part| - a.n);
      assert done + (part[..a.n] + rest.bytes) == done + part[..a.n] + rest.bytes;
    }
  }

  lemma ReadWaits(ideal: Ideal, done: seq<Byte>, p: S.Proto, schedule: seq<Turn>, start: nat, want: nat)
    requires p.TcpSocket? && start <= |schedule| && want > 0 && Quiet(p, schedule, start, |schedule|, true)
    requires ReadsOn(ideal, done, p, schedule[start..], want)
    ensures ideal == Ideal(Pending, done, Seen(p, schedule[start..|schedule|], true))
  {
    ReadGoesOn(p, schedule, start, |schedule|, want);
    assert done + [] == done;
  }

  lemma WriteOnePart(ideal: Ideal, done: seq<Byte>, p: S.Proto, schedule: seq<Turn>, start: nat, end: nat, part: seq<Byte>, a: Reply, p1: S.Proto)
    requires p.TcpSocket? && start <= end < |schedule| && part != [] && Quiet(p, schedule, start, end, false)
    requires WritesOn(ideal, done, p, schedule[start..], part)
    requires WriteEnd(Seen(p, schedule[start..end], false), schedule[end], part, a, p1)
    ensures a.Err? ==> ideal == Ideal(Failed(a.kind), done, p1)
    ensures a.Ok? ==> 0 < a.n <= |part| && p1.TcpSocket? && WritesOn(ideal, done + part[..a.n], p1, schedule[end + 1..], part[a.n..])
  {
    hide IdealWrite, Seen, Quiet;
    WriteGoesOn(p, schedule, start, end, part);
    assert done + [] == done;
    if a.Ok? {
      var rest := IdealWrite(p1, schedule[end + 1..], part[a.n..]);
      assert done + (part[..a.n] + rest.bytes) == done + part[..a.n] + rest.bytes;
    }
  }

  lemma WriteWaits(ideal: Ideal, done: seq<Byte>, p: S.Proto, schedule: seq<Turn>, start: nat, part: seq<Byte>)
    requires p.TcpSocket? && start <= |schedule| && part != [] && Quiet(p, schedule, start, |schedule|, false)
    requires WritesOn(ideal, done, p, schedule[start..], part)
    ensures ideal == Ideal(Pending, done, Seen(p, schedule[start..|schedule|], false))
  {
    WriteGoesOn(p, schedule, start, |schedule|, part);
    assert done + [] == done;
  }

  /**
   `delivered` is every byte the peer's data brought in, `taken` those handed to reads; `accepted`
   is every byte taken from writes, `gone` those that left the transmit queue. `cut` is set when the
   connection was reset.
   */
  class TcpStream {
    var p: S.Proto
    ghost var delivered: seq<Byte>
    ghost var taken: seq<Byte>
    ghost var accepted: seq<Byte>
    ghost var gone: seq<Byte>
    ghost var cut: bool

    ghost predicate Valid()
      reads this
    {
      && p.TcpSocket?
      && accepted == gone + p.tx
      && (if cut then p.state.Closed? && p.rx == [] && taken <= delivered else taken + p.rx == delivered)
    }

    constructor (socket: S.Proto)
      requires socket.TcpSocket?
      ensures Valid() && p == socket && !cut && taken == [] && gone == []
    {
      p := socket;
      delivered, taken, accepted, gone, cut := socket.rx, [], socket.tx, [], false;
    }

    /** A turn of the rest of the world. */
    method Other(t: Turn) returns (wakesReader: bool, wakesWriter: bool)
      requires Valid() && Can(p, t)
      modifies this
      ensures Valid() && p == Turned(old(p), t) && old(delivered) <= delivered
      ensures !t.Took? ==> taken == old(taken)
      ensures !t.Wrote? ==> accepted == old(accepted)
      ensures !t.Took? && !wakesReader && old(ReaderBlocked(p)) ==> ReaderBlocked(p)
      ensures !t.Wrote? && !wakesWriter && old(WriterBlocked(p)) ==> WriterBlocked(p)
    {
      wakesReader, wakesWriter := WakesReader(p, t), WakesWriter(p, t);
      ghost var was := p;
      p := Turned(p, t);
      match t {
        case Net(f) =>
          match f {
            case Deliver(bytes) => delivered := delivered + bytes;
            case Acked(n) => gone := gone + was.tx[..n];
            case Reset => gone, cut := gone + was.tx, true;
            case Move(_, _) =>
          }
        case Took(n) => taken := taken + was.rx[..n];
        case Wrote(bytes) => accepted := accepted + bytes;
        case Shut =>
      }
    }

    /**
     `recv_async().await`: turns pass until one ends the operation, if there is one. The event of the
     operation is queued at first; a turn that handles it while it has to wait parks it in its slot, and
     it is queued again when the slot fires.
     */
    method Await(schedule: seq<Turn>, start: nat, reading: bool) returns (next: nat, parked: bool)
      requires Valid() && start <= |schedule|
      modifies this
      ensures Valid() && old(delivered) <= delivered && start <= next <= |schedule|
      ensures if reading then taken == old(taken) else accepted == old(accepted)
      ensures Quiet(old(p), schedule, start, next, reading) && p == Seen(old(p), schedule[start..next], reading)
      ensures next < |schedule| ==> Ends(p, schedule[next], reading)
      ensures parked ==> Blocked(p, reading)
    {
      ghost var p0 := p;
      assert schedule[start..start] == [] && p == Seen(p, [], reading);
      hide Seen, Turned;
      next, parked := start, false;
      while next < |schedule|
        invariant start <= next <= |schedule| && Valid() && old(delivered) <= delivered
        invariant if reading then taken == old(taken) else accepted == old(accepted)
        invariant Quiet(p0, schedule, start, next, reading) && p == Seen(p0, schedule[start..next], reading)
        invariant parked ==> Blocked(p, reading)
        decreases |schedule| - next
      {
        var t := schedule[next];
        if t.Fail? || (t.Handle? && !parked && !Blocked(p, reading)) {
          return;
        }
        SeenNext(p0, schedule, start, next, reading);
        if t.Handle? {
          parked := true;
        } else if !(if reading then t.Took? else t.Wrote?) && Can(p, t) {
          var firesRecv, firesSend := Other(t);
          parked := parked && !(if reading then firesRecv else firesSend);
        }
        next := next + 1;
      }
    }

    /**
     `read` into the part of `buf` from `from` on, starting at turn `start` of the schedule. `None`
     when the schedule ends first; `parked` then says that the event sits in the receive slot.
     */
    method Read(buf: array<Byte>, from: nat, schedule: seq<Turn>, start: nat)
      returns (res: Option<Reply>, next: nat, parked: bool)
      requires Valid() && from <= buf.Length && start <= |schedule|
      modifies this, buf
      ensures Valid() && old(delivered) <= delivered && start <= next <= |schedule|
      ensures res.Some? ==> res.value.Ok? || res.value.Err?
      ensures res.Some? && res.value.Ok? ==>
                && from + res.value.n <= buf.Length
                && taken == old(taken) + buf[..][from..from + res.value.n]
                && buf[..from] == old(buf[..from]) && buf[from + res.value.n..] == old(buf[from + res.value.n..])
                && (res.value.n == 0 && from < buf.Length ==> p.rx == [] && !S.MayRecv(p))
      ensures res.None? || res.value.Err? ==> taken == old(taken) && buf[..] == old(buf[..])
      ensures res.None? && parked ==> ReaderBlocked(p)
      ensures res.None? ==> next == |schedule| && Quiet(old(p), schedule, start, next, true)
                            && p == Seen(old(p), schedule[start..next], true)
      ensures res.Some? ==> start < next && Quiet(old(p), schedule, start, next - 1, true)
      ensures res.Some? ==> ReadEnd(Seen(old(p), schedule[start..next - 1], true), schedule[next - 1], buf[from..], res.value, p)
    {
      hide Seen, Quiet;
      next, parked := Await(schedule, start, true);
      if next == |schedule| {
        return None, next, parked;
      }
      if schedule[next].Fail? {
        return Some(Err(schedule[next].kind)), next + 1, parked;
      }
      ghost var q, was := p, buf[..];
      var out := ReadOutcome(p, buf[from..], 0);
      assert out.Complete?;
      hide ReadOutcome, Outcome.Answer;
      Fill(buf, from, out);
      ghost var n := S.Min(|q.rx|, buf.Length - from);
      assert was[..from] == old(buf[..from]) && was[from..] == old(buf[from..]);
      FilledWith(was, from, n, q.rx[..n], q.rx[..n] + was[from..][n..]);
      assert buf[..from] == buf[..][..from] && buf[from + n..] == buf[..][from + n..] && buf[from..] == buf[..][from..];
      return out.Answer(), next + 1, parked;
    }

    /** The driver's copy into the shared buffer. */
    method Fill(buf: array<Byte>, from: nat, out: Outcome)
      requires Valid() && from <= buf.Length
      requires out.Complete? && out == ReadOutcome(p, buf[from..], 0)
      modifies this, buf
      ensures Valid() && delivered == old(delivered)
      ensures var n := S.Min(|old(p).rx|, buf.Length - from);
              && out.Answer() == Some(Ok(n)) && taken == old(taken) + old(p).rx[..n] && p == old(p).(rx := old(p).rx[n..])
              && buf[..] == old(buf[..from]) + (old(p).rx[..n] + old(buf[from..])[n..])
    {
      ReadAnswers(p, buf[from..]);
      hide ReadOutcome, ReplyIn, Outcome.Answer;
      ghost var n := S.Min(|p.rx|, buf.Length - from);
      TakeOff(taken, p.rx, n);
      taken := taken + p.rx[..n];
      p := out.proto;
      Copy(buf, from, out.buf);
    }

    static method Copy(buf: array<Byte>, from: nat, part: seq<Byte>)
      requires from + |part| == buf.Length
      modifies buf
      ensures buf[..] == old(buf[..from]) + part
    {
      forall k | 0 <= k < |part| {
        buf[from + k] := part[k];
      }
    }

    static lemma TakeOff(before: seq<Byte>, rx: seq<Byte>, n: nat)
      requires n <= |rx|
      ensures before + rx == before + rx[..n] + rx[n..]
    {
    }

    /** A buffer whose part from `from` on is replaced by bytes and what was behind them. */
    static lemma FilledWith(was: seq<Byte>, from: nat, n: nat, bytes: seq<Byte>, part: seq<Byte>)
      requires from + n <= |was| && |bytes| == n && part == bytes + was[from..][n..]
      ensures var now := was[..from] + part;
              && |now| == |was| && now[..from] == was[..from] && now[from..from + n] == bytes && now[from + n..] == was[from + n..]
              && now[from..][..n] == bytes
    {
    }

    /**
     `read_exact`: `got` bytes of the buffer were filled, and they are the next `got` bytes of the
     peer's stream. `Full` says all of them; `UnexpectedEof` that there is none left and will be none.
     */
    method ReadExact(buf: array<Byte>, schedule: seq<Turn>) returns (r: End, got: nat, parked: bool)
      requires Valid()
      modifies this, buf
      ensures Valid() && old(delivered) <= delivered && taken <= delivered
      ensures got <= buf.Length && taken == old(taken) + buf[..got] && buf[got..] == old(buf[got..])
      ensures r.Full? <==> got == buf.Length
      ensures r.Full? ==> |old(taken)| + buf.Length <= |delivered|
                          && buf[..] == delivered[|old(taken)|..|old(taken)| + buf.Length]
      ensures r.UnexpectedEof? ==> p.rx == [] && !S.MayRecv(p) && (!cut ==> taken == delivered)
      ensures r.Pending? && parked ==> ReaderBlocked(p)
      ensures !r.WriteZero?
      ensures Ideal(r, buf[..got], p) == IdealRead(old(p), schedule, buf.Length)
      ensures ReadMeans(r, p, schedule)
    {
      hide ReadMeans;
      IdealMeans(p, schedule, buf.Length, []);
      hide IdealRead, ReadsOn, S.MayRecv;
      ghost var ideal := IdealRead(p, schedule, buf.Length);
      StartsReading(p, schedule, buf.Length);
      assert schedule[0..] == schedule && buf[..0] == [];
      var read, k := 0, 0;
      while read < buf.Length
        invariant 0 <= read <= buf.Length && 0 <= k <= |schedule|
        invariant Valid() && old(delivered) <= delivered
        invariant taken == old(taken) + buf[..read] && buf[read..] == old(buf[read..])
        invariant ReadsOn(ideal, buf[..read], p, schedule[k..], buf.Length - read)
        decreases buf.Length - read
      {
        ghost var before := buf[read..];
        var res, next, p1 := ReadPart(buf, read, schedule, k, ideal);
        k := next;
        if res.None? {
          TakenPrefix();
          return Pending, read, p1;
        }
        match res.value {
          case Err(kind) =>
            TakenPrefix();
            return Failed(kind), read, false;
          case Ok(n) =>
            if n == 0 {
              TakenPrefix();
              return UnexpectedEof, read, false;
            }
            assert buf[read + n..] == before[n..];
            read := read + n;
        }
      }
      NothingMore(ideal, buf[..read], p, schedule[k..]);
      TakenPrefix();
      assert buf[..read] == buf[..];
      NextPiece(old(taken), buf[..], delivered);
      return Full, read, false;
    }

    static lemma NextPiece(before: seq<Byte>, bytes: seq<Byte>, all: seq<Byte>)
      requires before + bytes <= all
      ensures |before| + |bytes| <= |all| && bytes == all[|before|..|before| + |bytes|]
    {
    }

    static lemma StartsWriting(p: S.Proto, schedule: seq<Turn>, buf: seq<Byte>)
      requires p.TcpSocket?
      ensures WritesOn(IdealWrite(p, schedule, buf), [], p, schedule, buf)
    {
    }

    static lemma StartsReading(p: S.Proto, schedule: seq<Turn>, want: nat)
      requires p.TcpSocket?
      ensures ReadsOn(IdealRead(p, schedule, want), [], p, schedule, want)
    {
    }

    /** One round of the loop of `read_exact`, beside the ideal call. */
    method ReadPart(buf: array<Byte>, read: nat, schedule: seq<Turn>, k: nat, ghost ideal: Ideal)
      returns (res: Option<Reply>, next: nat, parked: bool)
      requires Valid() && read < buf.Length && k <= |schedule|
      requires ReadsOn(ideal, buf[..read], p, schedule[k..], buf.Length - read)
      modifies this, buf
      ensures Valid() && old(delivered) <= delivered && next <= |schedule| && buf[..read] == old(buf[..read])
      ensures res.Some? ==> res.value.Ok? || res.value.Err?
      ensures res.None? ==> ideal == Ideal(Pending, buf[..read], p) && (parked ==> ReaderBlocked(p))
      ensures res.Some? && res.value.Err? ==> ideal == Ideal(Failed(res.value.kind), buf[..read], p)
      ensures res == Some(Ok(0)) ==> ideal == Ideal(UnexpectedEof, buf[..read], p) && p.rx == [] && !S.MayRecv(p)
      ensures res.None? || res.value.Err? || res == Some(Ok(0)) ==> taken == old(taken) && buf[read..] == old(buf[read..])
      ensures res.Some? && res.value.Ok? && res.value.n > 0 ==>
                var n := res.value.n;
                && read + n <= buf.Length
                && taken == old(taken) + buf[read..read + n] && buf[..read + n] == buf[..read] + buf[read..read + n]
                && buf[read + n..] == old(buf[read..])[n..]
                && ReadsOn(ideal, buf[..read + n], p, schedule[next..], buf.Length - read - n)
    {
      hide IdealRead, ReadsOn, Seen, Quiet, ReadEnd, S.MayRecv;
      ghost var p0, was := p, buf[..];
      res, next, parked := Read(buf, read, schedule, k);
      assert buf[..read] == was[..read];
      if res.None? {
        ReadWaits(ideal, buf[..read], p0, schedule, k, buf.Length - read);
      } else {
        ReadOnePart(ideal, buf[..read], p0, schedule, k, next - 1, buf[read..], res.value, p);
        if res.value.Ok? {
          ghost var n := res.value.n;
          assert buf[..read + n] == buf[..read] + buf[read..][..n];
        }
      }
    }

    static lemma IdealMeans(p: S.Proto, schedule: seq<Turn>, want: nat, buf: seq<Byte>)
      requires p.TcpSocket?
      ensures ReadMeans(IdealRead(p, schedule, want).end, IdealRead(p, schedule, want).p, schedule)
      ensures WriteMeans(IdealWrite(p, schedule, buf).end, IdealWrite(p, schedule, buf).p, schedule)
    {
      IdealReadEnds(p, schedule, want);
      IdealWriteEnds(p, schedule, buf);
    }

    static lemma NothingMore(ideal: Ideal, done: seq<Byte>, p: S.Proto, turns: seq<Turn>)
      requires p.TcpSocket?
      ensures ReadsOn(ideal, done, p, turns, 0) ==> ideal == Ideal(Full, done, p)
      ensures WritesOn(ideal, done, p, turns, []) ==> ideal == Ideal(Full, done, p)
    {
      assert done + [] == done;
    }

    /** What was taken is a prefix of what was delivered. */
    lemma TakenPrefix()
      requires Valid()
      ensures taken <= delivered
      ensures p.rx == [] && !cut ==> taken == delivered
    {
    }

    /** `write` of `bytes`: what is accepted is a prefix of them, and not an empty one if they are not. */
    method Write(bytes: seq<Byte>, schedule: seq<Turn>, start: nat)
      returns (res: Option<Reply>, next: nat, parked: bool)
      requires Valid() && start <= |schedule|
      modifies this
      ensures Valid() && start <= next <= |schedule|
      ensures res.Some? ==> res.value.Ok? || res.value.Err?
      ensures res.Some? && res.value.Ok? ==>
                && res.value.n <= |bytes| && accepted == old(accepted) + bytes[..res.value.n]
                && (bytes != [] ==> res.value.n > 0)
      ensures res.None? || res.value.Err? ==> accepted == old(accepted)
      ensures res.None? && parked ==> WriterBlocked(p)
      ensures res.None? ==> next == |schedule| && Quiet(old(p), schedule, start, next, false)
                            && p == Seen(old(p), schedule[start..next], false)
      ensures res.Some? ==> start < next && Quiet(old(p), schedule, start, next - 1, false)
      ensures res.Some? ==> WriteEnd(Seen(old(p), schedule[start..next - 1], false), schedule[next - 1], bytes, res.value, p)
    {
      hide Seen, Quiet;
      next, parked := Await(schedule, start, false);
      if next == |schedule| {
        return None, next, parked;
      }
      if schedule[next].Fail? {
        return Some(Err(schedule[next].kind)), next + 1, parked;
      }
      var out := WriteOutcome(p, bytes, 0);
      WriteAnswers(p, bytes);
      ghost var n := if out.Answer().value.Ok? then out.Answer().value.n else 0;
      accepted := accepted + bytes[..n];
      p := out.proto;
      return out.Answer(), next + 1, parked;
    }

    /**
     `write_all`: exactly the first `put` bytes of the buffer were appended to the transmit queue;
     `Full` says all of them. The `WriteZero` arm is never taken.
     */
    method WriteAll(buf: seq<Byte>, schedule: seq<Turn>) returns (r: End, put: nat, parked: bool)
      requires Valid()
      modifies this
      ensures Valid()
      ensures put <= |buf| && accepted == old(accepted) + buf[..put]
      ensures r.Full? <==> put == |buf|
      ensures r.Full? ==> accepted == old(accepted) + buf
      ensures r.Pending? && parked ==> WriterBlocked(p)
      ensures !r.WriteZero? && !r.UnexpectedEof?
      ensures Ideal(r, buf[..put], p) == IdealWrite(old(p), schedule, buf)
      ensures WriteMeans(r, p, schedule)
    {
      hide WriteMeans;
      IdealMeans(p, schedule, 0, buf);
      hide IdealWrite, WritesOn;
      ghost var ideal := IdealWrite(p, schedule, buf);
      assert schedule[0..] == schedule && buf[0..] == buf && buf[..0] == [];
      StartsWriting(p, schedule, buf);
      var written, k := 0, 0;
      while written < |buf|
        invariant 0 <= written <= |buf| && 0 <= k <= |schedule|
        invariant Valid() && accepted == old(accepted) + buf[..written]
        invariant WritesOn(ideal, buf[..written], p, schedule[k..], buf[written..])
        decreases |buf| - written
      {
        var res, next, p1 := WritePart(buf, written, schedule, k, ideal);
        k := next;
        if res.None? {
          return Pending, written, p1;
        }
        match res.value {
          case Err(kind) => return Failed(kind), written, false;
          case Ok(n) =>
            put, parked := written, false;
            if n == 0 {
              r := WriteZero;
              return;
            }
            assert accepted == old(accepted) + (buf[..written] + buf[written..][..n]);
            written := written + n;
        }
      }
      assert buf[..written] == buf && buf[written..] == [];
      NothingMore(ideal, buf[..written], p, schedule[k..]);
      return Full, written, false;
    }

    /** One round of the loop of `write_all`, beside the ideal call. */
    method WritePart(buf: seq<Byte>, written: nat, schedule: seq<Turn>, k: nat, ghost ideal: Ideal)
      returns (res: Option<Reply>, next: nat, parked: bool)
      requires Valid() && written < |buf| && k <= |schedule|
      requires WritesOn(ideal, buf[..written], p, schedule[k..], buf[written..])
      modifies this
      ensures Valid() && next <= |schedule|
      ensures res.Some? ==> res.value.Ok? || res.value.Err?
      ensures res.None? ==> ideal == Ideal(Pending, buf[..written], p) && (parked ==> WriterBlocked(p))
      ensures res.Some? && res.value.Err? ==> ideal == Ideal(Failed(res.value.kind), buf[..written], p)
      ensures res.None? || res.value.Err? ==> accepted == old(accepted)
      ensures res.Some? && res.value.Ok? ==>
                var n := res.value.n;
                && 0 < n && written + n <= |buf| && buf[..written + n] == buf[..written] + buf[written..][..n]
                && accepted == old(accepted) + buf[written..][..n]
                && WritesOn(ideal, buf[..written + n], p, schedule[next..], buf[written + n..])
    {
      hide IdealWrite, WritesOn, Seen, Quiet, WriteEnd;
      ghost var p0 := p;
      res, next, parked := Write(buf[written..], schedule, k);
      if res.None? {
        WriteWaits(ideal, buf[..written], p0, schedule, k, buf[written..]);
      } else {
        WriteOnePart(ideal, buf[..written], p0, schedule, k, next - 1, buf[written..], res.value, p);
        if res.value.Ok? {
          ghost var n := res.value.n;
          assert buf[..written + n] == buf[..written] + buf[written..][..n] && buf[written..][n..] == buf[written + n..];
        }
      }
    }
  }
}
