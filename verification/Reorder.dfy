/**
 `drive_once` handles the events of a batch out of order: control events first, then TCP data, then
 UDP data. What one socket sees of that is the state of the stack restricted to its handle, and the
 restriction only depends on the events of that handle and their order.
 */
module Reorder {
  import opened Event

  // ---- the order of the events of one handle ----

  function OnlyOf(es: seq<Event>, th: TypedHandle): seq<Event> {
    if es == [] then []
    else if es[0].Target() == th then [es[0]] + OnlyOf(es[1..], th)
    else OnlyOf(es[1..], th)
  }

  lemma {:induction false} OnlyOfConcat(a: seq<Event>, b: seq<Event>, th: TypedHandle)
    ensures OnlyOf(a + b, th) == OnlyOf(a, th) + OnlyOf(b, th)
  {
    if a == [] {
      assert a + b == b;
    } else {
      OnlyOfConcat(a[1..], b, th);
      assert (a + b)[1..] == a[1..] + b;
    }
  }

  lemma OnlyOfCons(e: Event, es: seq<Event>, th: TypedHandle)
    ensures OnlyOf([e] + es, th) == if e.Target() == th then [e] + OnlyOf(es, th) else OnlyOf(es, th)
  {
    assert ([e] + es)[1..] == es;
  }

  lemma OnlyOfPush(es: seq<Event>, e: Event, th: TypedHandle)
    ensures OnlyOf(es + [e], th) == if e.Target() == th then OnlyOf(es, th) + [e] else OnlyOf(es, th)
  {
    OnlyOfConcat(es, [e], th);
    assert [e][1..] == [] && OnlyOf([], th) == [];
  }

  /** Some control event of the handle is in the batch. */
  predicate HasControl(es: seq<Event>, th: TypedHandle) {
    es != [] && ((es[0].Target() == th && es[0].IsControl()) || HasControl(es[1..], th))
  }

  /** In this batch no control event of the handle follows a data event of the handle. */
  predicate NoControlAfterData(es: seq<Event>, th: TypedHandle) {
    es != [] ==>
      && (es[0].Target() == th && !es[0].IsControl() ==> !HasControl(es[1..], th))
      && NoControlAfterData(es[1..], th)
  }

  /** The data events of the handle; those of a handle are all of one protocol. */
  function DataOf(es: seq<Event>, th: TypedHandle): seq<Event> {
    if es == [] then []
    else if es[0].Target() == th && !es[0].IsControl() then [es[0]] + DataOf(es[1..], th)
    else DataOf(es[1..], th)
  }

  lemma {:induction false} SplitDataOf(es: seq<Event>, th: TypedHandle)
    ensures OnlyOf(TcpData(es), th) == if th.Tcp? then DataOf(es, th) else []
    ensures OnlyOf(UdpData(es), th) == if th.Udp? then DataOf(es, th) else []
  {
    if es != [] {
      SplitDataOf(es[1..], th);
      OnlyOfCons(es[0], TcpData(es[1..]), th);
      OnlyOfCons(es[0], UdpData(es[1..]), th);
    }
  }

  lemma {:induction false} ControlsOf(es: seq<Event>, th: TypedHandle)
    ensures OnlyOf(Controls(es), th) == [] <==> !HasControl(es, th)
    ensures OnlyOf(Controls(es), th) != [] ==> OnlyOf(Controls(es), th)[0].IsControl()
  {
    if es != [] {
      ControlsOf(es[1..], th);
      OnlyOfCons(es[0], Controls(es[1..]), th);
    }
  }

  lemma PhasedOf(es: seq<Event>, th: TypedHandle)
    ensures OnlyOf(Phased(es), th) == OnlyOf(Controls(es), th) + DataOf(es, th)
  {
    OnlyOfConcat(Controls(es) + TcpData(es), UdpData(es), th);
    OnlyOfConcat(Controls(es), TcpData(es), th);
    SplitDataOf(es, th);
  }

  lemma ConsSame(e: Event, a: seq<Event>, b: seq<Event>)
    ensures [e] + a == [e] + b <==> a == b
  {
    assert ([e] + a)[1..] == a && ([e] + b)[1..] == b;
  }

  /**
   A handle sees its events in the order in which they were sent exactly when no control event of
   the handle follows a data event of the handle.
   */
  lemma {:induction false} PhasedKeepsOrder(es: seq<Event>, th: TypedHandle)
    ensures OnlyOf(Phased(es), th) == OnlyOf(es, th) <==> NoControlAfterData(es, th)
  {
    PhasedOf(es, th);
    if es != [] {
      var e, rest := es[0], es[1..];
      PhasedKeepsOrder(rest, th);
      PhasedOf(rest, th);
      ControlsOf(rest, th);
      OnlyOfCons(e, Controls(rest), th);
      var c, dt, f := OnlyOf(Controls(rest), th), DataOf(rest, th), OnlyOf(rest, th);
      StepOrder(es, th, c, dt, f);
      hide Phased, HasControl, NoControlAfterData;
    }
  }

  lemma StepOrder(es: seq<Event>, th: TypedHandle, c: seq<Event>, dt: seq<Event>, f: seq<Event>)
    requires es != [] && (c + dt == f <==> NoControlAfterData(es[1..], th))
    requires (c == [] <==> !HasControl(es[1..], th)) && (c != [] ==> c[0].IsControl())
    ensures
      var mine := es[0].Target() == th;
      var c1 := if mine && es[0].IsControl() then [es[0]] + c else c;
      var dt1 := if mine && !es[0].IsControl() then [es[0]] + dt else dt;
      var f1 := if mine then [es[0]] + f else f;
      c1 + dt1 == f1 <==> NoControlAfterData(es, th)
  {
    var e := es[0];
    ConsSame(e, c + dt, f);
    if e.Target() == th {
      if e.IsControl() {
        assert ([e] + c) + dt == [e] + (c + dt);
      } else if c == [] {
        assert c + ([e] + dt) == [e] + (c + dt);
      } else {
        assert (c + ([e] + dt))[0] == c[0] && ([e] + f)[0] == e;
      }
    }
  }
}
