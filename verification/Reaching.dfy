/** The states that runs of the system reach. */
module Reaching {
  import opened World

  /** A run with one more step. */
  lemma Extend(ws: seq<World>, ls: seq<Label>, l: Label)
    requires Run(ws, ls, FREE) && Enabled(ws[|ws| - 1], l)
    ensures Run(ws + [Next(ws[|ws| - 1], l)], ls + [l], FREE)
  {
    hide Enabled, Next;
    var ws1 := ws + [Next(ws[|ws| - 1], l)];
    var ls1 := ls + [l];
    forall i | 0 <= i < |ls1|
      ensures Step(ws1[i], ls1[i], ws1[i + 1], FREE)
    {
      if i < |ls| {
        assert Step(ws[i], ls[i], ws[i + 1], FREE);
      }
    }
  }

  /** A state that some run reaches. */
  ghost predicate Reachable(w: World) {
    exists ws: seq<World>, ls: seq<Label> :: Run(ws, ls, FREE) && ws[|ws| - 1] == w
  }

  lemma Reach(w: World, l: Label, w1: World)
    requires Reachable(w) && Enabled(w, l) && w1 == Next(w, l)
    ensures Reachable(w1)
  {
    hide Enabled, Next;
    var ws: seq<World>, ls: seq<Label> :| Run(ws, ls, FREE) && ws[|ws| - 1] == w;
    Extend(ws, ls, l);
    var ws1 := ws + [Next(w, l)];
    assert Run(ws1, ls + [l], FREE) && ws1[|ws1| - 1] == w1;
  }
}
