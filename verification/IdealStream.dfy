/**
 What a sole reader and a sole writer of a TCP stream can expect of a schedule of turns, without
 events, wakers or partial operations: a turn that handles the operation moves what it can, one that
 fails it ends it, and every other turn just happens to the socket.
 */
module IdealStream {
  import opened Event
  import opened Operation
  import opened Turns
  import S = Smoltcp

  /** How a call of `read_exact` or `write_all` ends. */
  datatype End = Full | UnexpectedEof | WriteZero | Failed(kind: ErrorKind) | Pending

  predicate ReaderBlocked(p: S.Proto) {
    p.TcpSocket? && p.rx == [] && S.MayRecv(p)
  }

  predicate WriterBlocked(p: S.Proto) {
    p.TcpSocket? && S.MaySend(p.state) && !S.CanSendTcp(p)
  }

  predicate Blocked(p: S.Proto, reading: bool) { if reading then ReaderBlocked(p) else WriterBlocked(p) }

  // ---- one operation ----

  /** A turn of the rest of the world. There is no other reader, or no other writer. */
  function Between(p: S.Proto, t: Turn, reading: bool): (q: S.Proto)
    requires p.TcpSocket?
    ensures q.TcpSocket?
  {
    if (if reading then t.Took? else t.Wrote?) || !Can(p, t) then p else Turned(p, t)
  }

  /** The socket after these turns, if none of them ends the operation. */
  function Seen(p: S.Proto, turns: seq<Turn>, reading: bool): (q: S.Proto)
    requires p.TcpSocket?
    ensures q.TcpSocket?
  {
    if turns == [] then p else Between(Seen(p, turns[..|turns| - 1], reading), turns[|turns| - 1], reading)
  }

  /** The turn ends an operation that is outstanding: it fails it, or handles it when it need not wait. */
  predicate Ends(p: S.Proto, t: Turn, reading: bool) {
    t.Fail? || (t.Handle? && !Blocked(p, reading))
  }

  /** None of the turns from `start` to `end` ends the operation. */
  predicate Quiet(p: S.Proto, schedule: seq<Turn>, start: nat, end: nat, reading: bool)
    requires p.TcpSocket? && start <= end <= |schedule|
  {
    forall k :: start <= k < end ==> !Ends(Seen(p, schedule[start..k], reading), schedule[k], reading)
  }

  lemma SeenNext(p: S.Proto, schedule: seq<Turn>, start: nat, k: nat, reading: bool)
    requires p.TcpSocket? && start <= k < |schedule|
    ensures Seen(p, schedule[start..k + 1], reading) == Between(Seen(p, schedule[start..k], reading), schedule[k], reading)
  {
    assert schedule[start..k + 1][..k - start] == schedule[start..k];
  }

  // ---- a whole call ----

  /** How a call ends, how many bytes it moved, and the socket it leaves. */
  datatype Ideal = Ideal(end: End, bytes: seq<Byte>, p: S.Proto)

  /** Fill a buffer of `want` bytes. */
  function IdealRead(p: S.Proto, turns: seq<Turn>, want: nat): Ideal
    requires p.TcpSocket?
    decreases turns
  {
    if want == 0 then Ideal(Full, [], p)
    else if turns == [] then Ideal(Pending, [], p)
    else
      var t := turns[0];
      if t.Fail? then Ideal(Failed(t.kind), [], p)
      else if !t.Handle? then IdealRead(Between(p, t, true), turns[1..], want)
      else if ReaderBlocked(p) then IdealRead(p, turns[1..], want)
      else if p.rx == [] then Ideal(UnexpectedEof, [], p)
      else
        var n := S.Min(|p.rx|, want);
        var rest := IdealRead(p.(rx := p.rx[n..]), turns[1..], want - n);
        rest.(bytes := p.rx[..n] + rest.bytes)
  }

  /** Hand in all of `buf`. */
  function IdealWrite(p: S.Proto, turns: seq<Turn>, buf: seq<Byte>): Ideal
    requires p.TcpSocket?
    decreases turns
  {
    if buf == [] then Ideal(Full, [], p)
    else if turns == [] then Ideal(Pending, [], p)
    else
      var t := turns[0];
      if t.Fail? then Ideal(Failed(t.kind), [], p)
      else if !t.Handle? then IdealWrite(Between(p, t, false), turns[1..], buf)
      else if WriterBlocked(p) then IdealWrite(p, turns[1..], buf)
      else if !S.MaySend(p.state) then Ideal(Failed(BrokenPipe), [], p)
      else
        var n := S.Min(p.cap - |p.tx|, |buf|);
        var rest := IdealWrite(p.(tx := p.tx + buf[..n]), turns[1..], buf[n..]);
        rest.(bytes := buf[..n] + rest.bytes)
  }

  /** Turns that end nothing can be run through first. */
  lemma {:induction false} SkipQuiet(p: S.Proto, schedule: seq<Turn>, start: nat, end: nat, want: nat, buf: seq<Byte>)
    requires p.TcpSocket? && start <= end <= |schedule|
    ensures want > 0 && Quiet(p, schedule, start, end, true) ==>
              IdealRead(p, schedule[start..], want) == IdealRead(Seen(p, schedule[start..end], true), schedule[end..], want)
    ensures buf != [] && Quiet(p, schedule, start, end, false) ==>
              IdealWrite(p, schedule[start..], buf) == IdealWrite(Seen(p, schedule[start..end], false), schedule[end..], buf)
    decreases end
  {
    if start < end {
      var k := end - 1;
      SkipQuiet(p, schedule, start, k, want, buf);
      SeenNext(p, schedule, start, k, true);
      SeenNext(p, schedule, start, k, false);
      assert schedule[k..][0] == schedule[k] && schedule[k..][1..] == schedule[end..];
      SkipOne(Seen(p, schedule[start..k], true), schedule[k..], want, buf);
      SkipOne(Seen(p, schedule[start..k], false), schedule[k..], want, buf);
      hide IdealRead, IdealWrite, Between, Seen;
    } else {
      assert schedule[start..end] == [];
    }
  }

  lemma SkipOne(p: S.Proto, turns: seq<Turn>, want: nat, buf: seq<Byte>)
    requires p.TcpSocket? && turns != []
    ensures want > 0 && !Ends(p, turns[0], true) ==>
              IdealRead(p, turns, want) == IdealRead(Between(p, turns[0], true), turns[1..], want)
    ensures buf != [] && !Ends(p, turns[0], false) ==>
              IdealWrite(p, turns, buf) == IdealWrite(Between(p, turns[0], false), turns[1..], buf)
  {
  }

  /** How a call that still wants bytes goes on after the turn that ends its next read, or ends with it. */
  lemma ReadGoesOn(p: S.Proto, schedule: seq<Turn>, start: nat, end: nat, want: nat)
    requires p.TcpSocket? && start <= end <= |schedule| && want > 0 && Quiet(p, schedule, start, end, true)
    ensures var q, r := Seen(p, schedule[start..end], true), IdealRead(p, schedule[start..], want);
            if end == |schedule| then r == Ideal(Pending, [], q)
            else if schedule[end].Fail? then r == Ideal(Failed(schedule[end].kind), [], q)
            else Ends(q, schedule[end], true) ==>
              if q.rx == [] then r == Ideal(UnexpectedEof, [], q)
              else
                var n := S.Min(|q.rx|, want);
                var rest := IdealRead(q.(rx := q.rx[n..]), schedule[end + 1..], want - n);
                r == rest.(bytes := q.rx[..n] + rest.bytes)
  {
    SkipQuiet(p, schedule, start, end, want, []);
    assert end < |schedule| ==> schedule[end..][0] == schedule[end] && schedule[end..][1..] == schedule[end + 1..];
  }

  lemma WriteGoesOn(p: S.Proto, schedule: seq<Turn>, start: nat, end: nat, buf: seq<Byte>)
    requires p.TcpSocket? && start <= end <= |schedule| && buf != [] && Quiet(p, schedule, start, end, false)
    ensures var q, r := Seen(p, schedule[start..end], false), IdealWrite(p, schedule[start..], buf);
            if end == |schedule| then r == Ideal(Pending, [], q)
            else if schedule[end].Fail? then r == Ideal(Failed(schedule[end].kind), [], q)
            else Ends(q, schedule[end], false) ==>
              if !S.MaySend(q.state) then r == Ideal(Failed(BrokenPipe), [], q)
              else
                var n := S.Min(q.cap - |q.tx|, |buf|);
                var rest := IdealWrite(q.(tx := q.tx + buf[..n]), schedule[end + 1..], buf[n..]);
                r == rest.(bytes := buf[..n] + rest.bytes)
  {
    SkipQuiet(p, schedule, start, end, 0, buf);
    assert end < |schedule| ==> schedule[end..][0] == schedule[end] && schedule[end..][1..] == schedule[end + 1..];
  }

  // ---- what the ends mean ----

  /** What is known from how a read ended. */
  predicate ReadMeans(end: End, p: S.Proto, turns: seq<Turn>) {
    && p.TcpSocket? && !end.WriteZero?
    && (end.Failed? ==> Fail(end.kind) in turns)
    && (end.UnexpectedEof? ==> p.rx == [] && !S.MayRecv(p))
    && (end.Pending? ==> forall k :: 0 <= k < |turns| ==> !turns[k].Fail?)
    && (end.Pending? && turns != [] && turns[|turns| - 1].Handle? ==> p.rx == [])
  }

  predicate WriteMeans(end: End, p: S.Proto, turns: seq<Turn>) {
    && p.TcpSocket? && !end.WriteZero? && !end.UnexpectedEof?
    && (end.Failed? ==> Fail(end.kind) in turns || (end.kind == BrokenPipe && !S.MaySend(p.state)))
    && (end.Pending? ==> forall k :: 0 <= k < |turns| ==> !turns[k].Fail?)
    && (end.Pending? && turns != [] && turns[|turns| - 1].Handle? ==> WriterBlocked(p))
  }

  /**
   A read is full exactly with all its bytes; it fails only by a turn that fails it; it ends early only
   when nothing is left to read and nothing more can come; it is pending only when no turn fails it,
   and after a turn that handled it there is nothing to read.
   */
  lemma {:induction false} IdealReadEnds(p: S.Proto, turns: seq<Turn>, want: nat)
    requires p.TcpSocket?
    ensures var r := IdealRead(p, turns, want);
            |r.bytes| <= want && (r.end.Full? <==> |r.bytes| == want) && ReadMeans(r.end, r.p, turns)
    decreases turns
  {
    if want > 0 && turns != [] {
      var t, rest := turns[0], turns[1..];
      if t.Handle? && !ReaderBlocked(p) && p.rx != [] {
        var n := S.Min(|p.rx|, want);
        IdealReadEnds(p.(rx := p.rx[n..]), rest, want - n);
      } else if !t.Fail? {
        IdealReadEnds(if t.Handle? then p else Between(p, t, true), rest, want);
      }
    }
  }

  /** The same for a write. It fails, besides, only when the transmit half is closed. */
  lemma {:induction false} IdealWriteEnds(p: S.Proto, turns: seq<Turn>, buf: seq<Byte>)
    requires p.TcpSocket?
    ensures var r := IdealWrite(p, turns, buf);
            r.bytes <= buf && (r.end.Full? <==> r.bytes == buf) && WriteMeans(r.end, r.p, turns)
    decreases turns
  {
    if buf != [] && turns != [] {
      var t, rest := turns[0], turns[1..];
      if t.Handle? && !WriterBlocked(p) && S.MaySend(p.state) {
        var n := S.Min(p.cap - |p.tx|, |buf|);
        assert buf == buf[..n] + buf[n..];
        IdealWriteEnds(p.(tx := p.tx + buf[..n]), rest, buf[n..]);
      } else if !t.Fail? {
        IdealWriteEnds(if t.Handle? then p else Between(p, t, false), rest, buf);
      }
    }
  }
}
