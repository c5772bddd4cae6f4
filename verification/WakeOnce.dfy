/**
 The wake-once cell (src/wake_fn.rs): a closure behind an atomic flag, shared by the clones of a
 waker. A wake claims the flag with a compare-exchange and, if it was first, moves the closure out
 and runs it. The last reference to go drops the closure in place unless it was claimed.

 The compare-exchange, the read of the value, the call, the release of a reference, the load of the
 flag and the drop in place are separate steps, and those of different threads interleave freely.
 Steps are sequentially consistent.
 */
module WakeOnce {
  import opened Event

  // ---- the transition system ----

  /** One reference to the cell and what its owner is doing. */
  datatype HolderPc =
    | Live      // a waker that is not being woken
    | Entered   // in `wake`, before the compare-exchange
    | Won       // its compare-exchange succeeded, the value is not read yet
    | Running   // the closure is a local variable now
    | Leaving   // `wake` is done but for the release of its reference

  /** The destructor of the cell, run by whoever released the last reference. */
  datatype Destructor = NotYet | LoadFlag | DropInPlace | Freed

  /** Who owns the captured value. */
  datatype Owner = Cell | Claimed(w: nat) | Local(w: nat) | Nobody

  /** `moves`, `runs`, `drops` and `wakes` count what happened to the closure, and the calls of `take`. */
  datatype WakeCell = WakeCell(
    used: bool, holders: map<nat, HolderPc>, destructor: Destructor, owner: Owner,
    moves: nat, runs: nat, drops: nat, wakes: nat)

  datatype Label =
    | Clone(w: nat, to: nat) | Wake(w: nat) | Exchange(w: nat) | Move(w: nat) | Call(w: nat) | Release(w: nat)
    | Destroy

  function Start(): WakeCell {
    WakeCell(false, map[0 := Live], NotYet, Cell, 0, 0, 0, 0)
  }

  predicate Enabled(c: WakeCell, l: Label) {
    match l
    case Clone(w, to) => w in c.holders && to !in c.holders
    case Wake(w) => w in c.holders && c.holders[w].Live?
    case Exchange(w) => w in c.holders && c.holders[w].Entered?
    case Move(w) => w in c.holders && c.holders[w].Won?
    case Call(w) => w in c.holders && c.holders[w].Running?
    case Release(w) => w in c.holders && (c.holders[w].Live? || c.holders[w].Leaving?)
    case Destroy => c.destructor.LoadFlag? || c.destructor.DropInPlace?
  }

  function Next(c: WakeCell, l: Label): WakeCell
    requires Enabled(c, l)
  {
    match l
    case Clone(_, to) => c.(holders := c.holders[to := Live])
    case Wake(w) => c.(holders := c.holders[w := Entered])
    case Exchange(w) =>
      if c.used then c.(holders := c.holders[w := Leaving], wakes := c.wakes + 1)
      else c.(used := true, holders := c.holders[w := Won], owner := Claimed(w), wakes := c.wakes + 1)
    case Move(w) => c.(holders := c.holders[w := Running], owner := Local(w), moves := c.moves + 1)
    case Call(w) => c.(holders := c.holders[w := Leaving], owner := Nobody, runs := c.runs + 1)
    case Release(w) =>
      var rest := c.holders - {w};
      c.(holders := rest, destructor := if rest == map[] then LoadFlag else c.destructor)
    case Destroy =>
      if c.destructor.LoadFlag? then c.(destructor := if c.used then Freed else DropInPlace)
      else c.(destructor := Freed, owner := Nobody, drops := c.drops + 1)
  }

  ghost predicate Run(c: WakeCell, ls: seq<Label>)
    decreases |ls|
  {
    ls == [] || (Enabled(c, ls[0]) && Run(Next(c, ls[0]), ls[1..]))
  }

  function After(c: WakeCell, ls: seq<Label>): WakeCell
    requires Run(c, ls)
    decreases |ls|
  {
    if ls == [] then c else After(Next(c, ls[0]), ls[1..])
  }

  // ---- the invariant ----

  /** The flag and the counters say where the value is. */
  ghost predicate Accounted(c: WakeCell) {
    && (c.used <==> c.wakes > 0)
    && (c.owner.Cell? ==> !c.used && c.moves == c.runs == c.drops == 0)
    && (c.owner.Claimed? ==> c.used && c.moves == c.runs == c.drops == 0)
    && (c.owner.Local? ==> c.used && c.moves == 1 && c.runs == c.drops == 0)
    && (c.owner.Nobody? && c.used ==> c.moves == c.runs == 1 && c.drops == 0)
    && (c.owner.Nobody? && !c.used ==> c.moves == c.runs == 0 && c.drops == 1)
  }

  /** Only the owner is past the compare-exchange, and the memory lives as long as a reference. */
  ghost predicate Placed(c: WakeCell) {
    && (forall w :: w in c.holders && c.holders[w].Won? <==> c.owner == Claimed(w))
    && (forall w :: w in c.holders && c.holders[w].Running? <==> c.owner == Local(w))
    && (c.holders == map[] <==> !c.destructor.NotYet?)
    && (c.destructor.DropInPlace? ==> c.owner.Cell?)
    && (c.destructor.Freed? ==> c.owner.Nobody?)
    && (c.owner.Nobody? && !c.used ==> c.destructor.Freed?)
  }

  lemma StepKeeps(c: WakeCell, l: Label)
    requires Accounted(c) && Placed(c) && Enabled(c, l)
    ensures Accounted(Next(c, l)) && Placed(Next(c, l))
  {
    var d := Next(c, l);
    if l.Release? {
      assert forall w :: w in d.holders ==> d.holders[w] == c.holders[w];
    } else if l.Destroy? {
      assert c.holders == map[];
    } else {
      assert l.w in d.holders;
    }
  }

  lemma {:induction false} RunKeeps(c: WakeCell, ls: seq<Label>)
    requires Accounted(c) && Placed(c) && Run(c, ls)
    ensures Accounted(After(c, ls)) && Placed(After(c, ls))
    decreases |ls|
  {
    if ls != [] {
      StepKeeps(c, ls[0]);
      RunKeeps(Next(c, ls[0]), ls[1..]);
    }
  }

  lemma ReachableOk(ls: seq<Label>)
    requires Run(Start(), ls)
    ensures Accounted(After(Start(), ls)) && Placed(After(Start(), ls))
  {
    assert 0 in Start().holders;
    RunKeeps(Start(), ls);
  }

  // ---- theorems over every run ----

  /** The closure runs at most once, and its value is never both moved out and dropped. */
  lemma AtMostOnce(ls: seq<Label>)
    requires Run(Start(), ls)
    ensures After(Start(), ls).runs <= After(Start(), ls).moves
    ensures After(Start(), ls).moves + After(Start(), ls).drops <= 1
  {
    ReachableOk(ls);
  }

  /**
   When the cell is freed the value has been moved out and run exactly once or dropped in place
   exactly once: run if any wake got as far as the flag, dropped if none did.
   */
  lemma ExactlyOnce(ls: seq<Label>)
    requires Run(Start(), ls) && After(Start(), ls).destructor.Freed?
    ensures var c := After(Start(), ls);
            if c.wakes > 0 then c.moves == c.runs == 1 && c.drops == 0
            else c.moves == c.runs == 0 && c.drops == 1
  {
    ReachableOk(ls);
  }

  /** `w` has claimed the value and is not done with it. */
  predicate Touches(c: WakeCell, w: nat) {
    w in c.holders && (c.holders[w].Won? || c.holders[w].Running?)
  }

  /** Whoever touches the value is alone with it, and the memory is still there. */
  lemma ExclusiveAccess(ls: seq<Label>, l: Label)
    requires Run(Start(), ls) && Enabled(After(Start(), ls), l)
    ensures var c := After(Start(), ls);
            (l.Move? ==> c.destructor.NotYet? && c.moves == c.drops == 0 && c.owner == Claimed(l.w))
            && (l.Destroy? ==> c.holders == map[])
            && (l.Destroy? && c.destructor.DropInPlace? ==> c.moves == c.drops == 0 && c.owner.Cell?)
    ensures var c := After(Start(), ls);
            forall v, w :: Touches(c, v) && Touches(c, w) ==> v == w
  {
    ReachableOk(ls);
  }

  /** No reference is ever stuck: until the cell is freed some step other than a clone can be taken. */
  lemma NeverStuck(ls: seq<Label>)
    requires Run(Start(), ls) && !After(Start(), ls).destructor.Freed?
    ensures exists l :: Enabled(After(Start(), ls), l) && !l.Clone?
  {
    ReachableOk(ls);
    var c := After(Start(), ls);
    if c.holders == map[] {
      assert Enabled(c, Destroy);
    } else {
      var w :| w in c.holders;
      var l := match c.holders[w]
        case Live => Release(w)
        case Entered => Exchange(w)
        case Won => Move(w)
        case Running => Call(w)
        case Leaving => Release(w);
      assert Enabled(c, l) && !l.Clone?;
    }
  }

  // ---- the cell as an object ----

  /** `moved` and `dropped` count what happened to the value. */
  class AtomicOption<T> {
    var used: bool
    const value: T
    ghost var moved: nat
    ghost var dropped: nat

    ghost predicate Valid()
      reads this
    {
      dropped == 0 && moved == if used then 1 else 0
    }

    constructor (v: T)
      ensures Valid() && !used && value == v
    {
      value := v;
      used, moved, dropped := false, 0, 0;
    }

    /** `take`: the first call gets the value, every later one nothing. */
    method Take() returns (r: Option<T>)
      requires Valid()
      modifies this
      ensures Valid() && used
      ensures r == if old(used) then None else Some(value)
    {
      if !used {
        used := true;
        moved := moved + 1;
        return Some(value);
      }
      return None;
    }

    /** The destructor: afterwards the value has been moved out or dropped, exactly one of the two. */
    method Drop()
      requires Valid()
      modifies this`dropped
      ensures moved + dropped == 1 && (dropped == 1 <==> !used)
    {
      if !used {
        dropped := dropped + 1;
      }
    }
  }
}
