/**
 * What the backtracks of one execution leave at a branch point: a closed form for any number of
 * them, in any order, that does not follow them one by one.
 */
module PathMarks {
  import opened Wrappers
  import opened PathModel
  import opened ExplorationPath

  /** The threads that these backtracks name at branch point `i`, in order. */
  function Named(ms: seq<(nat, nat)>, i: nat): seq<nat> {
    if ms == [] then []
    else
      var rest, m := Named(ms[..|ms| - 1], i), ms[|ms| - 1];
      if m.0 == i then rest + [m.1] else rest
  }

  lemma NamedNext(ms: seq<(nat, nat)>, m: (nat, nat), i: nat)
    ensures Named(ms + [m], i) == if m.0 == i then Named(ms, i) + [m.1] else Named(ms, i)
  {
    assert (ms + [m])[..|ms|] == ms;
  }

  /** Only backtracks of `i` name threads there. */
  lemma {:induction false} NamedOnly(ms: seq<(nat, nat)>, i: nat)
    ensures forall t :: t in Named(ms, i) <==> (i, t) in ms
  {
    if ms != [] {
      var n := |ms| - 1;
      NamedOnly(ms[..n], i);
      assert ms == ms[..n] + [ms[n]];
    }
  }

  /** Branch point `n` after backtracks that name these threads. */
  function AfterMarks(n: Node, names: seq<nat>): Node {
    if names == [] then n
    else
      var m, t := AfterMarks(n, names[..|names| - 1]), names[|names| - 1];
      if m.Threads? && t < |m.ts| then Threads(Backtracked(m.ts, t)) else m
  }

  lemma AfterNext(n: Node, names: seq<nat>, t: nat)
    ensures var m := AfterMarks(n, names);
            AfterMarks(n, names + [t]) == if m.Threads? && t < |m.ts| then Threads(Backtracked(m.ts, t)) else m
  {
    assert (names + [t])[..|names|] == names;
  }

  /** Some backtrack names a thread that is already to be explored. */
  ghost predicate Repeated(ts: seq<ThreadState>, names: seq<nat>) {
    exists y :: 0 <= y < |names| && Again(ts, names, y)
  }

  predicate Again(ts: seq<ThreadState>, names: seq<nat>, y: nat)
    requires y < |names|
  {
    && names[y] < |ts|
    && (ts[names[y]] == Pending || (ts[names[y]] == Skip && names[y] in names[..y]))
  }

  lemma RepeatedNext(ts: seq<ThreadState>, names: seq<nat>, t: nat)
    requires t < |ts|
    ensures Repeated(ts, names + [t]) <==> Repeated(ts, names) || ts[t] == Pending || (ts[t] == Skip && t in names)
  {
    var more := names + [t];
    assert forall y :: 0 <= y < |names| ==> more[y] == names[y] && more[..y] == names[..y];
    assert more[..|names|] == names;
    if Repeated(ts, names) {
      var y :| 0 <= y < |names| && Again(ts, names, y);
      assert Again(ts, more, y);
    } else if Repeated(ts, more) {
      var y :| 0 <= y < |more| && Again(ts, more, y);
      if y < |names| { assert Again(ts, names, y); }
    }
    if ts[t] == Pending || (ts[t] == Skip && t in names) { assert Again(ts, more, |names|); }
  }

  /**
   * A thread that was skipped is put up for exploration exactly if a backtrack names it, or one
   * names a thread that is to be explored already: then all that were skipped are.  Nothing else changes.
   */
  lemma {:induction false} MarksLeave(ts: seq<ThreadState>, names: seq<nat>, s: nat)
    requires s < |ts| && forall t :: t in names ==> t < |ts|
    ensures var n := AfterMarks(Threads(ts), names);
            && n.Threads? && |n.ts| == |ts|
            && n.ts[s] == if ts[s] == Skip && (s in names || Repeated(ts, names)) then Pending else ts[s]
    decreases |names|
  {
    if names != [] {
      var k := |names| - 1;
      var t := names[k];
      assert names == names[..k] + [t] && t in names && forall u :: u in names[..k] ==> u in names;
      MarksLeave(ts, names[..k], s);
      MarksLeave(ts, names[..k], t);
      RepeatedNext(ts, names[..k], t);
      hide Repeated;
      BacktrackEntries(AfterMarks(Threads(ts), names[..k]).ts, t, s);
      hide Backtracked;
    }
  }
}
